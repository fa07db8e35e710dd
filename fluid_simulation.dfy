/** The host side of the smoke solver (js/fluid-simulation.js): the render
    targets it owns, the pointers it tracks and the draw calls of one frame,
    each method issuing its draws through the Gpu log. */
module FluidSimulation {
  import opened Options
  import opened FluidConfig
  import opened RenderTargets
  import opened PointerInput
  import opened PassSchedules

  /** Every render target the solver owns, in a fixed order: velocity, dye and
      pressure sides, divergence, curl, the bloom target and the bloom levels. */
  function TargetsOf(v: Sides, d: Sides, p: Sides, divergence: Framebuffer, curl: Framebuffer,
                     bloom: Framebuffer, levels: seq<Framebuffer>): seq<Framebuffer>
  {
    [v.read, v.write, d.read, d.write, p.read, p.write, divergence, curl, bloom] + levels
  }

  /** A sequence whose entries are entries of a distinct sequence at distinct
      positions is distinct. */
  lemma DistinctByIndex(s: seq<Framebuffer>, t: seq<Framebuffer>, f: int -> int)
    requires Distinct(s)
    requires forall i :: 0 <= i < |t| ==> 0 <= f(i) < |s| && t[i] == s[f(i)]
    requires forall i, j :: 0 <= i < j < |t| ==> f(i) != f(j)
    ensures Distinct(t)
  {
    forall i, j | 0 <= i < j < |t|
      ensures t[i] != t[j]
    {
      if f(i) < f(j) {
        assert s[f(i)] != s[f(j)];
      } else {
        assert s[f(j)] != s[f(i)];
      }
    }
  }

  function SwapIf(s: Sides, swap: bool): Sides
  {
    if swap then s.Swapped() else s
  }

  /** Exchanging two neighbouring entries keeps a sequence distinct. */
  lemma SwapKeepsDistinct(s: seq<Framebuffer>, t: seq<Framebuffer>, k: nat)
    requires Distinct(s) && |t| == |s| && k + 1 < |s|
    requires t[k] == s[k + 1] && t[k + 1] == s[k]
    requires forall i :: 0 <= i < |s| && i != k && i != k + 1 ==> t[i] == s[i]
    ensures Distinct(t)
  {
    DistinctByIndex(s, t, i => if i == k then k + 1 else if i == k + 1 then k else i);
  }

  /** Swapping the sides of any of the pairs keeps the targets distinct. */
  lemma DistinctAfterSwaps(v: Sides, d: Sides, p: Sides, divergence: Framebuffer, curl: Framebuffer,
                           bloom: Framebuffer, levels: seq<Framebuffer>, swapV: bool, swapD: bool, swapP: bool)
    requires Distinct(TargetsOf(v, d, p, divergence, curl, bloom, levels))
    ensures Distinct(TargetsOf(SwapIf(v, swapV), SwapIf(d, swapD), SwapIf(p, swapP), divergence, curl, bloom, levels))
  {
    var v', d', p' := SwapIf(v, swapV), SwapIf(d, swapD), SwapIf(p, swapP);
    if swapV {
      SwapKeepsDistinct(TargetsOf(v, d, p, divergence, curl, bloom, levels), TargetsOf(v', d, p, divergence, curl, bloom, levels), 0);
    }
    if swapD {
      SwapKeepsDistinct(TargetsOf(v', d, p, divergence, curl, bloom, levels), TargetsOf(v', d', p, divergence, curl, bloom, levels), 2);
    }
    if swapP {
      SwapKeepsDistinct(TargetsOf(v', d', p, divergence, curl, bloom, levels), TargetsOf(v', d', p', divergence, curl, bloom, levels), 4);
    }
  }

  /** The velocity and dye textures are four distinct ones. */
  lemma PairsDistinct(v: Sides, d: Sides, p: Sides, divergence: Framebuffer, curl: Framebuffer,
                      bloom: Framebuffer, levels: seq<Framebuffer>)
    requires Distinct(TargetsOf(v, d, p, divergence, curl, bloom, levels))
    ensures Distinct([v.read, v.write, d.read, d.write])
  {
    DistinctByIndex(TargetsOf(v, d, p, divergence, curl, bloom, levels), [v.read, v.write, d.read, d.write], i => i);
  }

  /** A log extended by a step schedule, written draw by draw. */
  lemma StepLog(log: seq<Pass>, v: Sides, d: Sides, p: Sides, divergence: Framebuffer, curl: Framebuffer, c: Config, dt: real)
    ensures log + StepSchedule(v, d, p, divergence, curl, c, dt) ==
      log + ([BuoyancyPass(v, d, c, dt)] + [CurlPass(v.Swapped(), curl)] + [VorticityPass(v.Swapped(), curl, c, dt)]
        + [DivergencePass(v, divergence)] + [ClearPass(p, c)])
      + JacobiPasses(c.pressureIterations, p.Swapped(), divergence)
      + [GradientSubtractPass(SidesAfter(c.pressureIterations + 1, p), v)]
      + [VelocityAdvectionPass(v.Swapped(), c, dt)] + [DyeAdvectionPass(v, d, c, dt)]
  {
  }

  /** Two distinct sequences with no common entry concatenate to a distinct one. */
  lemma DistinctAppend(a: seq<Framebuffer>, b: seq<Framebuffer>)
    requires Distinct(a) && Distinct(b)
    requires forall k :: 0 <= k < |b| ==> b[k] !in a
    ensures Distinct(a + b)
  {
    forall i, j | 0 <= i < j < |a + b|
      ensures (a + b)[i] != (a + b)[j]
    {
      if j < |a| {
        assert a[i] != a[j];
      } else if i < |a| {
        assert b[j - |a|] !in a;
      } else {
        assert b[i - |a|] != b[j - |a|];
      }
    }
  }

  /** applyInputs' schedule, one pointer further: the log after one more
      pointer's splat (or none) is the schedule for one more pointer. */
  lemma InputStepLog(states: seq<PointerState>, i: nat, c: Config, radius: real, v: Sides, d: Sides,
                     log: seq<Pass>, before: seq<Pass>, after: seq<Pass>)
    requires i < |states|
    requires before == log + InputPasses(states[..i], c, radius, v, d)
    requires after == before + if states[i].moved then
      PointerSplatPasses(states[i], c, radius, SidesAfter(MovedCount(states[..i]), v), SidesAfter(MovedCount(states[..i]), d))
      else []
    ensures after == log + InputPasses(states[..i + 1], c, radius, v, d)
  {
    assert states[..i + 1][..i] == states[..i];
    var done := InputPasses(states[..i], c, radius, v, d);
    if states[i].moved {
      LogAppend(log, done, PointerSplatPasses(states[i], c, radius, SidesAfter(MovedCount(states[..i]), v), SidesAfter(MovedCount(states[..i]), d)));
    } else {
      assert done + [] == done;
    }
  }

  /** A ping-pong pair one pointer further: swapped once more exactly when
      that pointer moved. */
  lemma InputStepSides(states: seq<PointerState>, i: nat, v: Sides, vk: Sides, vk': Sides)
    requires i < |states|
    requires vk == SidesAfter(MovedCount(states[..i]), v)
    requires vk' == SidesAfter(if states[i].moved then 1 else 0, vk)
    ensures vk' == SidesAfter(MovedCount(states[..i + 1]), v)
  {
    assert states[..i + 1][..i] == states[..i];
  }

  /** A pointer's splat does not depend on its moved flag. */
  lemma SplatIgnoresMoved(pointer: PointerState, c: Config, radius: real, v: Sides, d: Sides)
    ensures PointerSplatPasses(pointer.(moved := false), c, radius, v, d) == PointerSplatPasses(pointer, c, radius, v, d)
  {
  }

  /** Appending to a log in two steps or in one gives the same log. */
  lemma LogAppend(log: seq<Pass>, a: seq<Pass>, b: seq<Pass>)
    ensures log + a + b == log + (a + b)
  {
  }

  /** A log extended by a bloom schedule, written draw by draw. */
  lemma BloomLog(log: seq<Pass>, source: Framebuffer, destination: Framebuffer, levels: seq<Framebuffer>, intensity: real)
    requires |levels| >= 2
    ensures log + BloomSchedule(source, destination, levels, intensity) ==
      log + [Pass(BloomPrefilter, [source], destination, false)]
        + BloomDownPasses(destination, levels, |levels|)
        + BloomUpPasses(levels, |levels| - 1)
        + [Pass(BloomFinal(intensity), [levels[0]], destination, false)]
  {
  }

  /** initBloomFramebuffers: the bloom target at the bloom resolution, then
      its mip chain. */
  method InitBloomFramebuffers(w: nat, h: nat, iterations: nat) returns (bloom: Framebuffer, levels: seq<Framebuffer>)
    requires w > 0 && h > 0
    ensures fresh(bloom) && bloom.width == w && bloom.height == h
    ensures |levels| == BloomLevelCount(w, h, iterations)
    ensures forall i :: 0 <= i < |levels| ==>
      fresh(levels[i]) && levels[i].width == LevelSide(w, i) && levels[i].height == LevelSide(h, i)
    ensures Distinct([bloom] + levels)
  {
    bloom := new Framebuffer(w, h);
    levels := CreateBloomLevels(w, h, iterations);
    DistinctAppend([bloom], levels);
  }

  /** The targets initFramebuffers creates afresh on every call, in the order
      Targets lists them after the velocity and dye pairs. */
  function FreshTargets(pressure: Sides, divergence: Framebuffer, curl: Framebuffer,
                        bloom: Framebuffer, levels: seq<Framebuffer>): seq<Framebuffer>
  {
    [pressure.read, pressure.write, divergence, curl, bloom] + levels
  }

  /** The pressure pair, divergence and curl at the simulation size, and the
      bloom target with its chain: all new, all distinct. */
  method CreateFreshTargets(simWidth: int, simHeight: int, bloomWidth: int, bloomHeight: int, iterations: nat)
    returns (pressure: DoubleFramebuffer, divergence: Framebuffer, curl: Framebuffer, bloom: Framebuffer, levels: seq<Framebuffer>)
    requires simWidth > 0 && simHeight > 0 && bloomWidth > 0 && bloomHeight > 0
    ensures fresh(pressure) && fresh(divergence) && fresh(curl) && fresh(bloom) && pressure.Valid()
    ensures pressure.width == simWidth && pressure.height == simHeight
    ensures divergence.width == simWidth && divergence.height == simHeight
    ensures curl.width == simWidth && curl.height == simHeight
    ensures bloom.width == bloomWidth && bloom.height == bloomHeight
    ensures |levels| == BloomLevelCount(bloomWidth, bloomHeight, iterations)
    ensures var all := FreshTargets(pressure.Current(), divergence, curl, bloom, levels);
      Distinct(all) && forall k :: 0 <= k < |all| ==> fresh(all[k])
  {
    divergence := new Framebuffer(simWidth, simHeight);
    curl := new Framebuffer(simWidth, simHeight);
    pressure := new DoubleFramebuffer(simWidth, simHeight);
    bloom, levels := InitBloomFramebuffers(bloomWidth, bloomHeight, iterations);
    DistinctAppend([pressure.fbo1, pressure.fbo2, divergence, curl], [bloom] + levels);
    assert [pressure.fbo1, pressure.fbo2, divergence, curl] + ([bloom] + levels)
      == FreshTargets(pressure.Current(), divergence, curl, bloom, levels);
  }

  /** The velocity and dye pairs followed by the fresh targets are all the
      targets, and distinct when the pairs are. */
  lemma JoinTargets(v: Sides, d: Sides, p: Sides, divergence: Framebuffer, curl: Framebuffer,
                    bloom: Framebuffer, levels: seq<Framebuffer>)
    requires Distinct([v.read, v.write, d.read, d.write])
    requires var all := FreshTargets(p, divergence, curl, bloom, levels);
      Distinct(all) && forall k :: 0 <= k < |all| ==> all[k] !in [v.read, v.write, d.read, d.write]
    ensures Distinct(TargetsOf(v, d, p, divergence, curl, bloom, levels))
  {
    DistinctAppend([v.read, v.write, d.read, d.write], FreshTargets(p, divergence, curl, bloom, levels));
    assert [v.read, v.write, d.read, d.write] + FreshTargets(p, divergence, curl, bloom, levels)
      == TargetsOf(v, d, p, divergence, curl, bloom, levels);
  }

  /** initFramebuffers on its first call, when no target exists yet: every
      target created fresh, the fields at the simulation resolution, dye and
      bloom at theirs. */
  method InitFramebuffers(cw: int, ch: int, c: Config)
    returns (velocity: DoubleFramebuffer, dye: DoubleFramebuffer, pressure: DoubleFramebuffer,
             divergence: Framebuffer, curl: Framebuffer, bloom: Framebuffer, levels: seq<Framebuffer>)
    requires cw > 0 && ch > 0 && Runnable(c)
    ensures fresh(velocity) && fresh(dye) && fresh(pressure)
    ensures dye != velocity && dye != pressure && velocity != pressure
    ensures dye.Valid() && velocity.Valid() && pressure.Valid()
    ensures Distinct(TargetsOf(velocity.Current(), dye.Current(), pressure.Current(), divergence, curl, bloom, levels))
    ensures var sim := GetResolution(c.simResolution, cw, ch);
      velocity.width == sim.width && velocity.height == sim.height &&
      pressure.width == sim.width && pressure.height == sim.height &&
      divergence.width == sim.width && divergence.height == sim.height &&
      curl.width == sim.width && curl.height == sim.height
    ensures var res := GetResolution(c.dyeResolution, cw, ch);
      dye.width == res.width && dye.height == res.height
    ensures var res := GetResolution(c.bloomResolution, cw, ch);
      bloom.width == res.width && bloom.height == res.height &&
      |levels| == BloomLevelCount(res.width, res.height, c.bloomIterations)
  {
    var simRes := GetResolution(c.simResolution, cw, ch);
    var dyeRes := GetResolution(c.dyeResolution, cw, ch);
    var bloomRes := GetResolution(c.bloomResolution, cw, ch);
    dye := new DoubleFramebuffer(dyeRes.width, dyeRes.height);
    velocity := new DoubleFramebuffer(simRes.width, simRes.height);
    pressure, divergence, curl, bloom, levels :=
      CreateFreshTargets(simRes.width, simRes.height, bloomRes.width, bloomRes.height, c.bloomIterations);
    JoinTargets(velocity.Current(), dye.Current(), pressure.Current(), divergence, curl, bloom, levels);
  }

  /** The copy a resize draws: none when the size is kept, otherwise the old
      read side copied into the new one. */
  function ResizeCopies(before: Sides, after: Sides, kept: bool): seq<Pass>
  {
    if kept then [] else [Pass(CopyProgram, [before.read], after.read, false)]
  }

  /** initFramebuffers' resize of the dye and velocity pairs, in that order;
      the four textures stay distinct. */
  method ResizeFields(gpu: Gpu, dye: DoubleFramebuffer, velocity: DoubleFramebuffer,
                      dyeWidth: int, dyeHeight: int, simWidth: int, simHeight: int)
    requires dye != velocity && dye.Valid() && velocity.Valid()
    requires Distinct([velocity.fbo1, velocity.fbo2, dye.fbo1, dye.fbo2])
    requires dyeWidth > 0 && dyeHeight > 0 && simWidth > 0 && simHeight > 0
    modifies gpu, dye, velocity
    ensures dye.Valid() && velocity.Valid()
    ensures Distinct([velocity.fbo1, velocity.fbo2, dye.fbo1, dye.fbo2])
    ensures dye.width == dyeWidth && dye.height == dyeHeight
    ensures velocity.width == simWidth && velocity.height == simHeight
    ensures old(dye.width) == dyeWidth && old(dye.height) == dyeHeight ==> dye.Current() == old(dye.Current())
    ensures old(velocity.width) == simWidth && old(velocity.height) == simHeight ==>
      velocity.Current() == old(velocity.Current())
    ensures gpu.passes == old(gpu.passes)
      + ResizeCopies(old(dye.Current()), dye.Current(), old(dye.width) == dyeWidth && old(dye.height) == dyeHeight)
      + ResizeCopies(old(velocity.Current()), velocity.Current(), old(velocity.width) == simWidth && old(velocity.height) == simHeight)
  {
    var d := ResizeDoubleFbo(gpu, dye, dyeWidth, dyeHeight);
    ghost var dyeLog := gpu.passes;
    var v := ResizeDoubleFbo(gpu, velocity, simWidth, simHeight);
    LogAppend(old(gpu.passes), dyeLog[|old(gpu.passes)|..], gpu.passes[|dyeLog|..]);
  }

  /** The splat radius uniform for a radius in the config's units on a
      cw x ch canvas. */
  function SplatRadius(radius: real, cw: int, ch: int): real
    requires cw > 0 && ch > 0
  {
    CorrectRadius(radius / 100.0, cw, ch)
  }

  /** The recorded states of a list of pointers. */
  function States(ps: seq<Pointer>): (r: seq<PointerState>)
    reads set p | p in ps
    ensures |r| == |ps| && forall i :: 0 <= i < |ps| ==> r[i] == ps[i].State()
  {
    if |ps| == 0 then [] else States(ps[..|ps| - 1]) + [ps[|ps| - 1].State()]
  }

  /** initBloomFramebuffers' loop: one level per iteration, halving each
      time, stopping before the first level narrower than 2 on either axis. */
  method CreateBloomLevels(w: nat, h: nat, iterations: nat) returns (levels: seq<Framebuffer>)
    ensures |levels| == BloomLevelCount(w, h, iterations)
    ensures forall i :: 0 <= i < |levels| ==>
      fresh(levels[i]) && levels[i].width == LevelSide(w, i) && levels[i].height == LevelSide(h, i)
    ensures Distinct(levels)
  {
    levels := [];
    var i := 0;
    while i < iterations
      invariant 0 <= i <= iterations && |levels| == i
      invariant forall j :: 0 <= j < i ==> LevelFits(w, h, j)
      invariant forall j :: 0 <= j < i ==>
        fresh(levels[j]) && levels[j].width == LevelSide(w, j) && levels[j].height == LevelSide(h, j)
      invariant Distinct(levels)
    {
      var width := LevelSide(w, i);
      var height := LevelSide(h, i);
      if width < 2 || height < 2 {
        break;
      }
      var fbo := new Framebuffer(width, height);
      levels := levels + [fbo];
      i := i + 1;
    }
    BloomLevelCountIsFirstMisfit(w, h, iterations, |levels|);
  }

  /** The count is pinned down by its three properties. */
  lemma BloomLevelCountIsFirstMisfit(w: nat, h: nat, iterations: nat, c: nat)
    requires c <= iterations
    requires forall i :: 0 <= i < c ==> LevelFits(w, h, i)
    requires c < iterations ==> !LevelFits(w, h, c)
    ensures BloomLevelCount(w, h, iterations) == c
  {
    var c' := BloomLevelCount(w, h, iterations);
    if c' < c {
      assert false;
    } else if c < c' {
      assert false;
    }
  }

  /** The configuration the solver can run with: every resolution positive. */
  predicate Runnable(c: Config)
  {
    c.simResolution > 0 && c.dyeResolution > 0 && c.bloomResolution > 0
  }

  class Simulation {
    const gpu: Gpu
    var config: Config
    var canvasWidth: int
    var canvasHeight: int
    var dye: DoubleFramebuffer
    var velocity: DoubleFramebuffer
    var pressure: DoubleFramebuffer
    var divergence: Framebuffer
    var curl: Framebuffer
    var bloom: Framebuffer
    var bloomFramebuffers: seq<Framebuffer>
    var pointers: seq<Pointer>

    function Targets(): seq<Framebuffer>
      reads this, velocity, dye, pressure
    {
      TargetsOf(velocity.Current(), dye.Current(), pressure.Current(), divergence, curl, bloom, bloomFramebuffers)
    }

    /** The three pairs are different objects, each a valid pair; every render
        target is a different texture; velocity, pressure, divergence and
        curl share the simulation size. */
    predicate Valid()
      reads this, velocity, dye, pressure
    {
      Runnable(config) && canvasWidth > 0 && canvasHeight > 0 &&
      dye != velocity && dye != pressure && velocity != pressure &&
      dye.Valid() && velocity.Valid() && pressure.Valid() &&
      Distinct(Targets()) &&
      pressure.width == velocity.width && pressure.height == velocity.height &&
      divergence.width == velocity.width && divergence.height == velocity.height &&
      curl.width == velocity.width && curl.height == velocity.height
    }

    /** The tracked pointers are different objects. */
    predicate PointersDistinct()
      reads this
    {
      forall i, j :: 0 <= i < j < |pointers| ==> pointers[i] != pointers[j]
    }

    /** The start-up sequence: one pointer, and initFramebuffers creating every
        target at the sizes getResolution gives for the canvas. */
    constructor (cw: int, ch: int, c: Config)
      requires cw > 0 && ch > 0 && Runnable(c)
      ensures Valid() && PointersDistinct() && fresh(gpu) && gpu.passes == []
      ensures config == c && canvasWidth == cw && canvasHeight == ch
      ensures |pointers| == 1 && fresh(pointers[0]) && !pointers[0].moved
      ensures var sim := GetResolution(c.simResolution, cw, ch);
        velocity.width == sim.width && velocity.height == sim.height
      ensures var res := GetResolution(c.dyeResolution, cw, ch);
        dye.width == res.width && dye.height == res.height
      ensures var res := GetResolution(c.bloomResolution, cw, ch);
        bloom.width == res.width && bloom.height == res.height &&
        |bloomFramebuffers| == BloomLevelCount(res.width, res.height, c.bloomIterations)
    {
      var pointer := new Pointer();
      var g := new Gpu();
      var v, d, p, div, cu, b, levels := InitFramebuffers(cw, ch, c);
      gpu := g;
      config := c;
      canvasWidth, canvasHeight := cw, ch;
      pointers := [pointer];
      dye, velocity, pressure := d, v, p;
      divergence, curl, bloom := div, cu, b;
      bloomFramebuffers := levels;
    }

    /** initFramebuffers after a canvas resize: dye and velocity keep their
        pairs, resized (a copy of the old read side) only when their
        resolution changed; divergence, curl, pressure and the bloom targets
        are created afresh. */
    method Resize(cw: int, ch: int)
      requires Valid() && cw > 0 && ch > 0
      modifies this, gpu, dye, velocity
      ensures Valid() && canvasWidth == cw && canvasHeight == ch
      ensures config == old(config) && pointers == old(pointers)
      ensures dye == old(dye) && velocity == old(velocity)
      ensures fresh(pressure) && fresh(divergence) && fresh(curl) && fresh(bloom)
      ensures var sim := GetResolution(config.simResolution, cw, ch);
        velocity.width == sim.width && velocity.height == sim.height
      ensures var res := GetResolution(config.dyeResolution, cw, ch);
        dye.width == res.width && dye.height == res.height
      ensures var res := GetResolution(config.bloomResolution, cw, ch);
        bloom.width == res.width && bloom.height == res.height &&
        |bloomFramebuffers| == BloomLevelCount(res.width, res.height, config.bloomIterations)
      ensures old(dye.width) == dye.width && old(dye.height) == dye.height ==> dye.Current() == old(dye.Current())
      ensures old(velocity.width) == velocity.width && old(velocity.height) == velocity.height ==>
        velocity.Current() == old(velocity.Current())
      ensures gpu.passes == old(gpu.passes)
        + ResizeCopies(old(dye.Current()), dye.Current(), old(dye.width) == dye.width && old(dye.height) == dye.height)
        + ResizeCopies(old(velocity.Current()), velocity.Current(),
                       old(velocity.width) == velocity.width && old(velocity.height) == velocity.height)
    {
      var simRes := GetResolution(config.simResolution, cw, ch);
      var dyeRes := GetResolution(config.dyeResolution, cw, ch);
      PairsDistinct(velocity.Current(), dye.Current(), pressure.Current(), divergence, curl, bloom, bloomFramebuffers);
      var bloomRes := GetResolution(config.bloomResolution, cw, ch);
      ResizeFields(gpu, dye, velocity, dyeRes.width, dyeRes.height, simRes.width, simRes.height);
      RebuildTargets(cw, ch, simRes.width, simRes.height, bloomRes.width, bloomRes.height);
    }

    /** The rest of initFramebuffers after the pairs are resized: the canvas
        size recorded and every other target created afresh, the pressure,
        divergence and curl at the simulation size, the bloom target and its
        chain at the bloom size. */
    method RebuildTargets(cw: int, ch: int, simWidth: int, simHeight: int, bloomWidth: int, bloomHeight: int)
      requires cw > 0 && ch > 0 && Runnable(config) && dye != velocity && dye.Valid() && velocity.Valid()
      requires simWidth > 0 && simHeight > 0 && bloomWidth > 0 && bloomHeight > 0
      requires Distinct([velocity.fbo1, velocity.fbo2, dye.fbo1, dye.fbo2])
      requires velocity.width == simWidth && velocity.height == simHeight
      modifies this
      ensures Valid() && canvasWidth == cw && canvasHeight == ch
      ensures config == old(config) && pointers == old(pointers) && dye == old(dye) && velocity == old(velocity)
      ensures fresh(pressure) && fresh(divergence) && fresh(curl) && fresh(bloom)
      ensures bloom.width == bloomWidth && bloom.height == bloomHeight
      ensures |bloomFramebuffers| == BloomLevelCount(bloomWidth, bloomHeight, config.bloomIterations)
    {
      var p, div, cu, b, levels :=
        CreateFreshTargets(simWidth, simHeight, bloomWidth, bloomHeight, config.bloomIterations);
      ghost var v, d := velocity.Current(), dye.Current();
      JoinTargets(v, d, p.Current(), div, cu, b, levels);
      canvasWidth, canvasHeight := cw, ch;
      pressure, divergence, curl := p, div, cu;
      bloom, bloomFramebuffers := b, levels;
      assert velocity.Current() == v && dye.Current() == d;
      assert Targets() == TargetsOf(v, d, p.Current(), div, cu, b, levels);
    }

    /** step: the draws of StepSchedule for the current sides; afterwards the
        velocity is back on its read side, the dye pair is swapped, and the
        pressure pair has been swapped once for the clear and once per
        Jacobi iteration. */
    method Step(dt: real)
      requires Valid()
      modifies gpu, velocity, dye, pressure
      ensures Valid()
      ensures gpu.passes == old(gpu.passes) +
        StepSchedule(old(velocity.Current()), old(dye.Current()), old(pressure.Current()), divergence, curl, config, dt)
      ensures velocity.Current() == old(velocity.Current())
      ensures dye.Current() == old(dye.Current()).Swapped()
      ensures pressure.Current() == SidesAfter(config.pressureIterations + 1, old(pressure.Current()))
      ensures velocity.width == old(velocity.width) && velocity.height == old(velocity.height)
      ensures dye.width == old(dye.width) && dye.height == old(dye.height)
    {
      var v, d, p := velocity.Current(), dye.Current(), pressure.Current();
      var n := config.pressureIterations;
      ApplyForces(dt);
      ghost var pre := [BuoyancyPass(v, d, config, dt)] + [CurlPass(v.Swapped(), curl)] + [VorticityPass(v.Swapped(), curl, config, dt)]
        + [DivergencePass(v, divergence)];
      SolvePressure();
      LogAppend(old(gpu.passes), pre, [ClearPass(p, config)]);
      ProjectAndAdvect(dt);
      StepLog(old(gpu.passes), v, d, p, divergence, curl, config, dt);
      assert velocity.Current() == SwapIf(v, false) && dye.Current() == SwapIf(d, true);
      assert pressure.Current() == SwapIf(p, (n + 1) % 2 == 1);
      DistinctAfterSwaps(v, d, p, divergence, curl, bloom, bloomFramebuffers, false, true, (n + 1) % 2 == 1);
    }

    /** The first draws of step: buoyancy and vorticity confinement on the
        velocity (two swaps, so its newest contents end on the read side
        again), then the curl and divergence of the velocity. */
    method ApplyForces(dt: real)
      requires velocity.Valid() && velocity != dye
      modifies gpu, velocity
      ensures velocity.Valid() && velocity.Current() == old(velocity.Current())
      ensures velocity.width == old(velocity.width) && velocity.height == old(velocity.height)
      ensures var v, d := old(velocity.Current()), dye.Current();
        gpu.passes == old(gpu.passes) + ([BuoyancyPass(v, d, config, dt)] + [CurlPass(v.Swapped(), curl)]
          + [VorticityPass(v.Swapped(), curl, config, dt)] + [DivergencePass(v, divergence)])
    {
      gpu.Blit(Buoyancy(config.smokeBuoyancy, dt), [velocity.Read(), dye.Read()], velocity.Write(), false);
      velocity.Swap();
      gpu.Blit(CurlProgram, [velocity.Read()], curl, false);
      gpu.Blit(Vorticity(config.curl, dt), [velocity.Read(), curl], velocity.Write(), false);
      velocity.Swap();
      gpu.Blit(DivergenceProgram, [velocity.Read()], divergence, false);
    }

    /** The last draws of step: subtract the pressure gradient from the
        velocity, advect the velocity by itself and the dye by the velocity
        (the velocity pair is swapped twice, the dye pair once). */
    method ProjectAndAdvect(dt: real)
      requires velocity.Valid() && dye.Valid() && velocity != dye && pressure != velocity && pressure != dye
      modifies gpu, velocity, dye
      ensures velocity.Valid() && dye.Valid()
      ensures velocity.Current() == old(velocity.Current()) && dye.Current() == old(dye.Current()).Swapped()
      ensures velocity.width == old(velocity.width) && velocity.height == old(velocity.height)
      ensures dye.width == old(dye.width) && dye.height == old(dye.height)
      ensures var v, d := old(velocity.Current()), old(dye.Current());
        gpu.passes == old(gpu.passes) + [GradientSubtractPass(pressure.Current(), v)]
          + [VelocityAdvectionPass(v.Swapped(), config, dt)] + [DyeAdvectionPass(v, d, config, dt)]
    {
      gpu.Blit(GradientSubtractProgram, [pressure.Read(), velocity.Read()], velocity.Write(), false);
      velocity.Swap();
      gpu.Blit(Advection(dt, config.velocityDissipation), [velocity.Read(), velocity.Read()], velocity.Write(), false);
      velocity.Swap();
      gpu.Blit(Advection(dt, config.densityDissipation), [velocity.Read(), dye.Read()], dye.Write(), false);
      dye.Swap();
    }

    /** The pressure solve of step: the pressure is scaled by the config's
        pressure factor, then config.pressureIterations Jacobi iterations run,
        swapping the pair after each draw. */
    method SolvePressure()
      requires pressure.Valid()
      modifies gpu, pressure
      ensures pressure.Valid()
      ensures gpu.passes == old(gpu.passes) + [ClearPass(old(pressure.Current()), config)]
        + JacobiPasses(config.pressureIterations, old(pressure.Current()).Swapped(), divergence)
      ensures pressure.Current() == SidesAfter(config.pressureIterations + 1, old(pressure.Current()))
      ensures pressure.width == old(pressure.width) && pressure.height == old(pressure.height)
    {
      var p := pressure.Current();
      gpu.Blit(ClearProgram(config.pressure), [pressure.Read()], pressure.Write(), false);
      pressure.Swap();
      ghost var start := gpu.passes;
      var i := 0;
      while i < config.pressureIterations
        invariant 0 <= i <= config.pressureIterations
        invariant gpu.passes == start + JacobiPasses(i, p.Swapped(), divergence)
        invariant pressure.Current() == SidesAfter(i, p.Swapped()) && pressure.Valid()
        invariant pressure.width == old(pressure.width) && pressure.height == old(pressure.height)
      {
        gpu.Blit(PressureProgram, [divergence, pressure.Read()], pressure.Write(), false);
        pressure.Swap();
        LogAppend(start, JacobiPasses(i, p.Swapped(), divergence), [JacobiPass(i, p.Swapped(), divergence)]);
        i := i + 1;
      }
    }

    /** applyBloom: nothing with fewer than two bloom levels; otherwise the
        draws of BloomSchedule, the chain following `last` from level to level. */
    method ApplyBloom(source: Framebuffer, destination: Framebuffer)
      modifies gpu
      ensures gpu.passes == old(gpu.passes) + BloomSchedule(source, destination, bloomFramebuffers, config.bloomIntensity)
    {
      var levels := bloomFramebuffers;
      var l := |levels|;
      if l < 2 {
        return;
      }
      var last := destination;
      gpu.Blit(BloomPrefilter, [source], last, false);
      ghost var start := gpu.passes;
      var i := 0;
      while i < l
        invariant 0 <= i <= l
        invariant last == if i == 0 then destination else levels[i - 1]
        invariant gpu.passes == start + BloomDownPasses(destination, levels, i)
      {
        var dest := levels[i];
        gpu.Blit(BloomBlur, [last], dest, false);
        LogAppend(start, BloomDownPasses(destination, levels, i), [BloomDownPass(destination, levels, i)]);
        last := dest;
        i := i + 1;
      }
      ghost var blurred := gpu.passes;
      var k := l - 2;
      while k >= 0
        invariant -1 <= k <= l - 2
        invariant last == levels[k + 1]
        invariant gpu.passes == blurred + BloomUpPasses(levels, l - 2 - k)
      {
        var baseTex := levels[k];
        gpu.Blit(BloomBlur, [last], baseTex, true);
        LogAppend(blurred, BloomUpPasses(levels, l - 2 - k), [BloomUpPass(levels, k)]);
        last := baseTex;
        k := k - 1;
      }
      gpu.Blit(BloomFinal(config.bloomIntensity), [last], destination, false);
      BloomLog(old(gpu.passes), source, destination, levels, config.bloomIntensity);
    }

    /** The bloom part of render: with bloom on, the dye's read side is
        bloomed into the bloom target. The screen draws of render are not
        recorded. */
    method Render()
      requires Valid()
      modifies gpu
      ensures gpu.passes == old(gpu.passes) +
        (if config.bloom then BloomSchedule(dye.fbo1, bloom, bloomFramebuffers, config.bloomIntensity) else [])
    {
      if config.bloom {
        ApplyBloom(dye.Read(), bloom);
      } else {
        assert gpu.passes == old(gpu.passes) + [];
      }
    }

    /** splat: a force (dx, dy) into the velocity and a colour into the dye at
        (x, y); without a radius the config's splat radius is used. */
    method Splat(x: real, y: real, dx: real, dy: real, color: Vec3, radius: Option<real>)
      requires Valid()
      modifies gpu, velocity, dye
      ensures Valid()
      ensures gpu.passes == old(gpu.passes) +
        SplatPasses(x, y, Vec3(dx, dy, 0.0), color,
          SplatRadius(if radius.Some? then radius.value else config.splatRadius, canvasWidth, canvasHeight),
          old(velocity.Current()), old(dye.Current()))
      ensures velocity.Current() == old(velocity.Current()).Swapped()
      ensures dye.Current() == old(dye.Current()).Swapped()
      ensures velocity.width == old(velocity.width) && velocity.height == old(velocity.height)
      ensures dye.width == old(dye.width) && dye.height == old(dye.height)
    {
      var v, d := velocity.Current(), dye.Current();
      var splatRadius := if radius.Some? then radius.value else config.splatRadius;
      var r := SplatRadius(splatRadius, canvasWidth, canvasHeight);
      gpu.Blit(Program.Splat(x, y, Vec3(dx, dy, 0.0), r), [velocity.Read()], velocity.Write(), false);
      velocity.Swap();
      gpu.Blit(Program.Splat(x, y, color, r), [dye.Read()], dye.Write(), false);
      dye.Swap();
      DistinctAfterSwaps(v, d, pressure.Current(), divergence, curl, bloom, bloomFramebuffers, true, true, false);
    }

    /** splatPointer: a splat at the pointer, with its delta scaled by the
        splat force and its colour. */
    method SplatPointer(pointer: Pointer)
      requires Valid()
      modifies gpu, velocity, dye
      ensures Valid()
      ensures gpu.passes == old(gpu.passes) +
        PointerSplatPasses(pointer.State(), config, SplatRadius(config.splatRadius, canvasWidth, canvasHeight), old(velocity.Current()), old(dye.Current()))
      ensures velocity.Current() == old(velocity.Current()).Swapped()
      ensures dye.Current() == old(dye.Current()).Swapped()
      ensures velocity.width == old(velocity.width) && velocity.height == old(velocity.height)
      ensures dye.width == old(dye.width) && dye.height == old(dye.height)
    {
      var force := PointerForce(pointer.deltaX, pointer.deltaY, config.splatForce);
      Splat(pointer.texcoordX, pointer.texcoordY, force.r, force.g, pointer.color, None);
    }

    /** emitSmoke: an upward splat of the smoke colour just below the middle
        of the bottom edge. */
    method EmitSmoke(dt: real)
      requires Valid()
      modifies gpu, velocity, dye
      ensures Valid()
      ensures gpu.passes == old(gpu.passes) +
        SplatPasses(0.5, -0.02, Vec3(0.0, config.smokeForce, 0.0), config.smokeColor,
          SplatRadius(config.smokeRadius, canvasWidth, canvasHeight), old(velocity.Current()), old(dye.Current()))
      ensures velocity.Current() == old(velocity.Current()).Swapped()
      ensures dye.Current() == old(dye.Current()).Swapped()
    {
      Splat(0.5, -0.02, 0.0, config.smokeForce, config.smokeColor, Some(config.smokeRadius));
    }

    /** The body of applyInputs for one pointer: a moved pointer is marked
        not moved and splatted once; one that has not moved is left alone. */
    method ApplyInput(i: int)
      requires Valid() && PointersDistinct() && 0 <= i < |pointers|
      modifies gpu, velocity, dye, pointers[i]
      ensures Valid()
      ensures gpu.passes == old(gpu.passes) +
        if old(pointers[i].moved)
        then PointerSplatPasses(old(pointers[i].State()), config, SplatRadius(config.splatRadius, canvasWidth, canvasHeight), old(velocity.Current()), old(dye.Current()))
        else []
      ensures forall j :: 0 <= j < |pointers| ==>
        pointers[j].State() == if j == i then old(pointers[j].State()).(moved := false) else old(pointers[j].State())
      ensures velocity.Current() == SidesAfter(if old(pointers[i].moved) then 1 else 0, old(velocity.Current()))
      ensures dye.Current() == SidesAfter(if old(pointers[i].moved) then 1 else 0, old(dye.Current()))
    {
      var pointer := pointers[i];
      if pointer.moved {
        pointer.moved := false;
        SplatIgnoresMoved(old(pointer.State()), config, SplatRadius(config.splatRadius, canvasWidth, canvasHeight), velocity.Current(), dye.Current());
        SplatPointer(pointer);
      } else {
        assert gpu.passes == old(gpu.passes) + [];
      }
    }

    /** applyInputs: every moved pointer is marked not moved and splatted once,
        in order; no other field of any pointer changes. */
    method ApplyInputs()
      requires Valid() && PointersDistinct()
      modifies gpu, velocity, dye, set p | p in pointers
      ensures Valid()
      ensures gpu.passes == old(gpu.passes) +
        InputPasses(old(States(pointers)), config, SplatRadius(config.splatRadius, canvasWidth, canvasHeight), old(velocity.Current()), old(dye.Current()))
      ensures forall i :: 0 <= i < |pointers| ==>
        !pointers[i].moved && pointers[i].State() == old(pointers[i].State()).(moved := false)
      ensures velocity.Current() == SidesAfter(MovedCount(old(States(pointers))), old(velocity.Current()))
      ensures dye.Current() == SidesAfter(MovedCount(old(States(pointers))), old(dye.Current()))
    {
      ghost var states := States(pointers);
      var v, d := velocity.Current(), dye.Current();
      var radius := SplatRadius(config.splatRadius, canvasWidth, canvasHeight);
      for i := 0 to |pointers|
        invariant Valid()
        invariant gpu.passes == old(gpu.passes) + InputPasses(states[..i], config, radius, v, d)
        invariant velocity.Current() == SidesAfter(MovedCount(states[..i]), v)
        invariant dye.Current() == SidesAfter(MovedCount(states[..i]), d)
        invariant forall j :: 0 <= j < |pointers| ==>
          pointers[j].State() == if j < i then states[j].(moved := false) else states[j]
      {
        ApplyInputAt(i, states, v, d, old(gpu.passes), radius);
      }
      assert states[..|pointers|] == states;
    }

    /** One round of applyInputs' loop: pointer i is handled, and the log, the
        sides and the pointer states advance from the first i pointers of the
        schedule to the first i + 1. */
    method ApplyInputAt(i: int, ghost states: seq<PointerState>, ghost v: Sides, ghost d: Sides, ghost log: seq<Pass>, radius: real)
      requires Valid() && PointersDistinct() && 0 <= i < |pointers| == |states|
      requires radius == SplatRadius(config.splatRadius, canvasWidth, canvasHeight)
      requires gpu.passes == log + InputPasses(states[..i], config, radius, v, d)
      requires velocity.Current() == SidesAfter(MovedCount(states[..i]), v)
      requires dye.Current() == SidesAfter(MovedCount(states[..i]), d)
      requires forall j :: 0 <= j < |pointers| ==>
        pointers[j].State() == if j < i then states[j].(moved := false) else states[j]
      modifies gpu, velocity, dye, pointers[i]
      ensures Valid()
      ensures gpu.passes == log + InputPasses(states[..i + 1], config, radius, v, d)
      ensures velocity.Current() == SidesAfter(MovedCount(states[..i + 1]), v)
      ensures dye.Current() == SidesAfter(MovedCount(states[..i + 1]), d)
      ensures forall j :: 0 <= j < |pointers| ==>
        pointers[j].State() == if j < i + 1 then states[j].(moved := false) else states[j]
    {
      ghost var before, vk, dk := gpu.passes, velocity.Current(), dye.Current();
      ApplyInput(i);
      InputStepLog(states, i, config, radius, v, d, log, before, gpu.passes);
      InputStepSides(states, i, v, vk, velocity.Current());
      InputStepSides(states, i, d, dk, dye.Current());
    }
  }
}
