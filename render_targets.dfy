/** Render targets of the smoke solver and the draw calls issued against them
    (js/fluid-simulation.js: createFBO, createDoubleFBO, resizeFBO,
    resizeDoubleFBO, blit, getResolution and the bloom mip sizing). Texture
    contents are not modelled: a draw call is recorded as the program it runs,
    the targets it samples (its inputs) and the target it writes. */
module RenderTargets {
  import opened FluidConfig
  import opened Numbers

  /** One texture with its framebuffer. Its size never changes; resizing
      allocates a new one. */
  class Framebuffer {
    const width: int
    const height: int
    const texelSizeX: real
    const texelSizeY: real

    constructor (w: int, h: int)
      requires w > 0 && h > 0
      ensures width == w && height == h
      ensures texelSizeX * (w as real) == 1.0 && texelSizeY * (h as real) == 1.0
    {
      width, height := w, h;
      texelSizeX := 1.0 / (w as real);
      texelSizeY := 1.0 / (h as real);
    }
  }

  /** The two sides of a double-buffered field. */
  datatype Sides = Sides(read: Framebuffer, write: Framebuffer)
  {
    function Swapped(): Sides
    {
      Sides(write, read)
    }
  }

  /** The sides after k swaps. */
  function SidesAfter(k: nat, s: Sides): (r: Sides)
    ensures r == if k % 2 == 0 then s else s.Swapped()
  {
    if k == 0 then s else SidesAfter(k - 1, s).Swapped()
  }

  /** A field stored twice: shaders sample the read side and draw into the
      write side, and a swap exchanges the two. */
  class DoubleFramebuffer {
    var fbo1: Framebuffer
    var fbo2: Framebuffer
    var width: int
    var height: int
    var texelSizeX: real
    var texelSizeY: real

    /** Both sides are distinct textures of the pair's size. */
    predicate Valid()
      reads this
    {
      fbo1 != fbo2 && width > 0 && height > 0 &&
      fbo1.width == width && fbo1.height == height &&
      fbo2.width == width && fbo2.height == height
    }

    function Read(): Framebuffer
      reads this
    {
      fbo1
    }

    function Write(): Framebuffer
      reads this
    {
      fbo2
    }

    function Current(): Sides
      reads this
    {
      Sides(fbo1, fbo2)
    }

    /** createDoubleFBO: two fresh textures of the same size. */
    constructor (w: int, h: int)
      requires w > 0 && h > 0
      ensures Valid() && fresh(fbo1) && fresh(fbo2)
      ensures width == w && height == h
      ensures texelSizeX * (w as real) == 1.0 && texelSizeY * (h as real) == 1.0
    {
      var first := new Framebuffer(w, h);
      fbo1 := first;
      fbo2 := new Framebuffer(w, h);
      width, height := w, h;
      texelSizeX := first.texelSizeX;
      texelSizeY := first.texelSizeY;
    }

    /** Exchanges the read and write sides; size and texel size stay. */
    method Swap()
      modifies this
      ensures Current() == old(Current()).Swapped()
      ensures width == old(width) && height == old(height)
      ensures texelSizeX == old(texelSizeX) && texelSizeY == old(texelSizeY)
      ensures old(Valid()) ==> Valid()
    {
      fbo1, fbo2 := fbo2, fbo1;
    }
  }

  /** The fragment programs, with the uniforms that come from the host. */
  datatype Program =
    | Buoyancy(buoyancy: real, dt: real)
    | CurlProgram
    | Vorticity(curl: real, dt: real)
    | DivergenceProgram
    | ClearProgram(value: real)
    | PressureProgram
    | GradientSubtractProgram
    | Advection(dt: real, dissipation: real)
    | Splat(x: real, y: real, color: Vec3, radius: real)
    | CopyProgram
    | BloomPrefilter
    | BloomBlur
    | BloomFinal(intensity: real)

  /** One draw call: the program, the targets it samples, the target it draws
      into and whether it adds to what is there (additive blending). */
  datatype Pass = Pass(program: Program, inputs: seq<Framebuffer>, target: Framebuffer, additive: bool)

  /** The draw calls issued so far, in order. */
  class Gpu {
    var passes: seq<Pass>

    constructor ()
      ensures passes == []
    {
      passes := [];
    }

    /** blit: one full-screen draw into target. */
    method Blit(program: Program, inputs: seq<Framebuffer>, target: Framebuffer, additive: bool)
      modifies this
      ensures passes == old(passes) + [Pass(program, inputs, target, additive)]
    {
      passes := passes + [Pass(program, inputs, target, additive)];
    }
  }

  /** resizeFBO: a fresh texture of the new size holding a copy of source. */
  method ResizeFbo(gpu: Gpu, source: Framebuffer, w: int, h: int) returns (f: Framebuffer)
    requires w > 0 && h > 0
    modifies gpu
    ensures fresh(f) && f.width == w && f.height == h
    ensures gpu.passes == old(gpu.passes) + [Pass(CopyProgram, [source], f, false)]
  {
    f := new Framebuffer(w, h);
    gpu.Blit(CopyProgram, [source], f, false);
  }

  /** resizeDoubleFBO: nothing happens when the size is already w x h;
      otherwise the read side becomes a resized copy of the old read side, the
      write side a fresh texture, and the size and texel size follow. The same
      pair is returned either way. */
  method ResizeDoubleFbo(gpu: Gpu, target: DoubleFramebuffer, w: int, h: int) returns (r: DoubleFramebuffer)
    requires target.Valid() && w > 0 && h > 0
    modifies gpu, target
    ensures r == target && target.Valid()
    ensures target.width == w && target.height == h
    ensures old(target.width) == w && old(target.height) == h ==>
      unchanged(target) && gpu.passes == old(gpu.passes)
    ensures old(target.width) != w || old(target.height) != h ==>
      fresh(target.fbo1) && fresh(target.fbo2) &&
      target.texelSizeX * (w as real) == 1.0 && target.texelSizeY * (h as real) == 1.0 &&
      gpu.passes == old(gpu.passes) + [Pass(CopyProgram, [old(target.fbo1)], target.fbo1, false)]
  {
    if target.width == w && target.height == h {
      return target;
    }
    var copy := ResizeFbo(gpu, target.fbo1, w, h);
    target.fbo1 := copy;
    target.fbo2 := new Framebuffer(w, h);
    target.width, target.height := w, h;
    target.texelSizeX := 1.0 / (w as real);
    target.texelSizeY := 1.0 / (h as real);
    return target;
  }

  function Min(a: int, b: int): int
  {
    if a <= b then a else b
  }

  function Max(a: int, b: int): int
  {
    if a <= b then b else a
  }

  /** Math.round: the nearest integer, halves rounding up. */
  function Round(x: real): (r: int)
    ensures (r as real) - 0.5 <= x < (r as real) + 0.5
  {
    (x + 0.5).Floor
  }

  /** Rounding an integer gives it back. */
  lemma RoundOfInteger(n: int)
    ensures Round(n as real) == n
  {
  }

  /** Rounding a value at least n gives at least n. */
  lemma RoundAtLeast(x: real, n: int)
    requires x >= n as real
    ensures Round(x) >= n
  {
  }

  /** The drawing buffer's aspect ratio, inverted when below one. */
  function AspectRatio(bw: int, bh: int): (a: real)
    requires bw > 0 && bh > 0
    ensures a >= 1.0
  {
    var ratio := (bw as real) / (bh as real);
    if ratio < 1.0 then 1.0 / ratio else ratio
  }

  /** The aspect ratio is the long side over the short side. */
  lemma AspectRatioIsLongOverShort(bw: int, bh: int)
    requires bw > 0 && bh > 0
    ensures AspectRatio(bw, bh) * (Min(bw, bh) as real) == Max(bw, bh) as real
  {
  }

  datatype Resolution = Resolution(width: int, height: int)

  /** getResolution: a size whose short side is the requested resolution and
      whose long side follows the drawing buffer's aspect ratio, oriented like
      the buffer (bw x bh). */
  function GetResolution(resolution: nat, bw: int, bh: int): (r: Resolution)
    requires bw > 0 && bh > 0
    ensures Min(r.width, r.height) == resolution
    ensures var long := Max(r.width, r.height) as real;
      long - 0.5 <= (resolution as real) * AspectRatio(bw, bh) < long + 0.5
    ensures bw > bh ==> r.width >= r.height
    ensures bw < bh ==> r.height >= r.width
    ensures bw == bh ==> r.width == r.height == resolution
  {
    var aspectRatio := AspectRatio(bw, bh);
    var min := Round(resolution as real);
    var max := Round((resolution as real) * aspectRatio);
    RoundOfInteger(resolution);
    ScaledAtLeast(resolution as real, aspectRatio);
    RoundAtLeast((resolution as real) * aspectRatio, resolution);
    SquareAspect(bw, bh);
    RoundOfInteger(resolution);
    if bw > bh then Resolution(max, min) else Resolution(min, max)
  }

  lemma ScaledAtLeast(x: real, a: real)
    requires x >= 0.0 && a >= 1.0
    ensures x * a >= x
  {
    assert x * a - x == x * (a - 1.0);
  }

  /** A square buffer has aspect ratio one. */
  lemma SquareAspect(bw: int, bh: int)
    requires bw > 0 && bh > 0
    ensures bw == bh ==> AspectRatio(bw, bh) == 1.0
  {
  }

  function Pow2(k: nat): (r: nat)
    ensures r >= 1
  {
    if k == 0 then 1 else 2 * Pow2(k - 1)
  }

  /** Side of bloom level i on an axis of n texels: n >> (i + 1), that is n
      halved (rounding down) i + 1 times. */
  function LevelSide(n: nat, i: nat): nat
  {
    if i == 0 then n / 2 else LevelSide(n, i - 1) / 2
  }

  /** Level i is large enough to keep (both sides at least 2). */
  predicate LevelFits(w: nat, h: nat, i: nat)
  {
    LevelSide(w, i) >= 2 && LevelSide(h, i) >= 2
  }

  /** How many bloom levels initBloomFramebuffers keeps for a w x h base and
      at most `iterations` levels: it stops at the first level that is too small. */
  function BloomLevelCount(w: nat, h: nat, iterations: nat): (c: nat)
    ensures c <= iterations
    ensures forall i :: 0 <= i < c ==> LevelFits(w, h, i)
    ensures c < iterations ==> !LevelFits(w, h, c)
  {
    if iterations == 0 then 0
    else
      var c := BloomLevelCount(w, h, iterations - 1);
      if c == iterations - 1 && LevelFits(w, h, iterations - 1) then iterations else c
  }

  /** The right shift by i + 1 is division by 2 to the power i + 1. */
  lemma {:induction false} LevelSideIsShift(n: nat, i: nat)
    ensures LevelSide(n, i) == n / Pow2(i + 1)
  {
    if i > 0 {
      LevelSideIsShift(n, i - 1);
      HalfOfQuotient(n, Pow2(i));
    }
  }

  /** Halving n / p gives n / (2 p). */
  lemma HalfOfQuotient(n: nat, p: nat)
    requires p >= 1
    ensures (n / p) / 2 == n / (2 * p)
  {
    var q, r := n / p, n % p;
    var q2, b := q / 2, q % 2;
    assert n == (2 * p) * q2 + (p * b + r) by {
      assert n == p * q + r;
      assert q == 2 * q2 + b;
    }
    assert 0 <= p * b + r < 2 * p by {
      assert b == 0 || b == 1;
    }
    DivUnique(n, 2 * p, q2, p * b + r);
  }

  /** Levels only shrink: a later level is never larger than an earlier one. */
  lemma {:induction false} LevelSideShrinks(n: nat, i: nat, j: nat)
    requires i <= j
    ensures LevelSide(n, j) <= LevelSide(n, i)
    decreases j - i
  {
    if i < j {
      LevelSideShrinks(n, i, j - 1);
    }
  }

  /** Stopping at the first small level loses nothing: no later level within
      the iteration limit would have been large enough either. */
  lemma NoLevelFitsAfterCount(w: nat, h: nat, iterations: nat, i: nat)
    requires BloomLevelCount(w, h, iterations) <= i < iterations
    ensures !LevelFits(w, h, i)
  {
    var c := BloomLevelCount(w, h, iterations);
    LevelSideShrinks(w, c, i);
    LevelSideShrinks(h, c, i);
  }
}
