/** Pointer tracking and the small host-side conversions of the smoke solver
    (js/fluid-simulation.js: pointerPrototype, updatePointerMoveData,
    correctDeltaX, correctDeltaY, correctRadius, normalizeColor,
    calcDeltaTime). Canvas sizes are the canvas's pixel width and height. */
module PointerInput {
  import opened FluidConfig

  function Abs(x: real): real
  {
    if x < 0.0 then -x else x
  }

  function MaxSide(cw: int, ch: int): int
  {
    if cw >= ch then cw else ch
  }

  /** canvas.width / canvas.height */
  function Aspect(cw: int, ch: int): (a: real)
    requires cw > 0 && ch > 0
    ensures a > 0.0 && (a < 1.0 <==> cw < ch) && (a > 1.0 <==> cw > ch)
  {
    (cw as real) / (ch as real)
  }

  /** On a tall canvas the horizontal delta is scaled by the aspect ratio. */
  function CorrectDeltaX(delta: real, cw: int, ch: int): (r: real)
    requires cw > 0 && ch > 0
    ensures r == 0.0 <==> delta == 0.0
    ensures Abs(r) <= Abs(delta) && r * delta >= 0.0
    ensures cw >= ch ==> r == delta
  {
    var aspectRatio := Aspect(cw, ch);
    if aspectRatio < 1.0 then ScalingShrinks(delta, aspectRatio); delta * aspectRatio else delta
  }

  lemma ScalingShrinks(x: real, a: real)
    requires 0.0 < a < 1.0
    ensures Abs(x * a) <= Abs(x) && (x * a) * x >= 0.0 && (x * a == 0.0 <==> x == 0.0)
  {
    if x > 0.0 {
      assert x * a > 0.0;
      assert x * a < x;
      assert (x * a) * x > 0.0;
    } else if x < 0.0 {
      assert x * a < 0.0;
      assert x * a > x;
      assert (x * a) * x > 0.0;
    }
  }

  /** On a wide canvas the vertical delta is divided by the aspect ratio. */
  function CorrectDeltaY(delta: real, cw: int, ch: int): (r: real)
    requires cw > 0 && ch > 0
    ensures r == 0.0 <==> delta == 0.0
    ensures Abs(r) <= Abs(delta) && r * delta >= 0.0
    ensures ch >= cw ==> r == delta
  {
    var aspectRatio := Aspect(cw, ch);
    if aspectRatio > 1.0 then DivisionShrinks(delta, aspectRatio); delta / aspectRatio else delta
  }

  lemma DivisionShrinks(x: real, a: real)
    requires a >= 1.0
    ensures Abs(x / a) <= Abs(x) && (x / a) * x >= 0.0 && (x / a == 0.0 <==> x == 0.0)
  {
    var q := x / a;
    assert q * a == x;
    if x > 0.0 {
      assert q > 0.0;
      assert q * a >= q;
      assert q * x > 0.0;
    } else if x < 0.0 {
      assert q < 0.0;
      assert q * a <= q;
      assert q * x > 0.0;
    } else {
      assert q == 0.0;
    }
  }

  /** A number times d is n exactly when it is n / d. */
  lemma QuotientUnique(y: real, n: real, d: real)
    requires d != 0.0 && y * d == n
    ensures y == n / d
  {
  }

  /** On a wide canvas the splat radius is stretched by the aspect ratio. */
  function CorrectRadius(radius: real, cw: int, ch: int): (r: real)
    requires cw > 0 && ch > 0
    ensures radius >= 0.0 ==> r >= radius
    ensures ch >= cw ==> r == radius
  {
    var aspectRatio := Aspect(cw, ch);
    if aspectRatio > 1.0 then radius * aspectRatio else radius
  }

  /** The corrected horizontal delta measures a movement of px pixels in
      units of the canvas's longer side. */
  lemma CorrectDeltaXUsesLongerSide(px: real, cw: int, ch: int)
    requires cw > 0 && ch > 0
    ensures CorrectDeltaX(px / (cw as real), cw, ch) == px / (MaxSide(cw, ch) as real)
  {
    var w, h := cw as real, ch as real;
    if cw < ch {
      var t := Aspect(cw, ch);
      var q := px / w;
      assert CorrectDeltaX(q, cw, ch) == q * t;
      assert t * h == w && q * w == px;
      assert (q * t) * h == q * (t * h);
      QuotientUnique(q * t, px, h);
    }
  }

  /** The corrected vertical delta measures a movement of py pixels in units
      of the canvas's longer side, so equal pixel movements along either axis
      give equal deltas. */
  lemma CorrectDeltaYUsesLongerSide(py: real, cw: int, ch: int)
    requires cw > 0 && ch > 0
    ensures CorrectDeltaY(py / (ch as real), cw, ch) == py / (MaxSide(cw, ch) as real)
  {
    var w, h := cw as real, ch as real;
    if cw > ch {
      var t := Aspect(cw, ch);
      var a := py / h;
      var r := a / t;
      assert CorrectDeltaY(a, cw, ch) == r;
      assert t * h == w && a * h == py && r * t == a;
      assert r * w == r * (t * h) == (r * t) * h;
      QuotientUnique(r, py, w);
    }
  }

  /** The corrected radius, measured against the canvas height, is the
      requested radius measured against the longer side. */
  lemma CorrectRadiusUsesLongerSide(radius: real, cw: int, ch: int)
    requires cw > 0 && ch > 0
    ensures CorrectRadius(radius, cw, ch) * (ch as real) == radius * (MaxSide(cw, ch) as real)
  {
    var w, h := cw as real, ch as real;
    if cw > ch {
      assert radius * (w / h) * h == radius * w;
    }
  }

  /** The fields of a pointer, as values. */
  datatype PointerState = PointerState(id: int, texcoordX: real, texcoordY: real, prevTexcoordX: real, prevTexcoordY: real,
                                       deltaX: real, deltaY: real, down: bool, moved: bool, color: Vec3)

  /** One mouse or touch point. */
  class Pointer {
    var id: int
    var texcoordX: real
    var texcoordY: real
    var prevTexcoordX: real
    var prevTexcoordY: real
    var deltaX: real
    var deltaY: real
    var down: bool
    var moved: bool
    var color: Vec3

    /** pointerPrototype: at the origin, at rest, navy blue. */
    constructor ()
      ensures id == -1 && !down && !moved
      ensures texcoordX == texcoordY == prevTexcoordX == prevTexcoordY == 0.0
      ensures deltaX == deltaY == 0.0
      ensures color == Vec3(0.2, 0.35, 0.7)
    {
      id := -1;
      texcoordX, texcoordY := 0.0, 0.0;
      prevTexcoordX, prevTexcoordY := 0.0, 0.0;
      deltaX, deltaY := 0.0, 0.0;
      down, moved := false, false;
      color := Vec3(0.2, 0.35, 0.7);
    }

    function State(): PointerState
      reads this
    {
      PointerState(id, texcoordX, texcoordY, prevTexcoordX, prevTexcoordY, deltaX, deltaY, down, moved, color)
    }

    /** updatePointerMoveData: the pointer moves to pixel (posX, posY) of a
        cw x ch canvas (y counted from the top, texture y from the bottom).
        It is marked moved exactly when its texture coordinate changed. */
    method UpdateMoveData(posX: int, posY: int, cw: int, ch: int)
      requires cw > 0 && ch > 0
      modifies this
      ensures prevTexcoordX == old(texcoordX) && prevTexcoordY == old(texcoordY)
      ensures texcoordX * (cw as real) == posX as real
      ensures (1.0 - texcoordY) * (ch as real) == posY as real
      ensures deltaX == CorrectDeltaX(texcoordX - prevTexcoordX, cw, ch)
      ensures deltaY == CorrectDeltaY(texcoordY - prevTexcoordY, cw, ch)
      ensures moved <==> texcoordX != prevTexcoordX || texcoordY != prevTexcoordY
      ensures id == old(id) && down == old(down) && color == old(color)
    {
      prevTexcoordX := texcoordX;
      prevTexcoordY := texcoordY;
      texcoordX := (posX as real) / (cw as real);
      texcoordY := 1.0 - (posY as real) / (ch as real);
      deltaX := CorrectDeltaX(texcoordX - prevTexcoordX, cw, ch);
      deltaY := CorrectDeltaY(texcoordY - prevTexcoordY, cw, ch);
      moved := Abs(deltaX) > 0.0 || Abs(deltaY) > 0.0;
    }
  }

  /** normalizeColor: 0..255 channels to 0..1. */
  function NormalizeColor(c: Vec3): (r: Vec3)
    ensures r.r * 255.0 == c.r && r.g * 255.0 == c.g && r.b * 255.0 == c.b
  {
    Vec3(c.r / 255.0, c.g / 255.0, c.b / 255.0)
  }

  predicate InRange(c: Vec3, lo: real, hi: real)
  {
    lo <= c.r <= hi && lo <= c.g <= hi && lo <= c.b <= hi
  }

  /** Byte-range channels normalise into the unit range. */
  lemma NormalizeColorInUnitRange(c: Vec3)
    requires InRange(c, 0.0, 255.0)
    ensures InRange(NormalizeColor(c), 0.0, 1.0)
  {
  }

  /** The longest step the simulation takes, in seconds. */
  const MaxDeltaTime: real := 0.016666

  /** The elapsed wall-clock time in seconds, capped at MaxDeltaTime. */
  function ClampedDeltaTime(elapsedMs: int): (dt: real)
    ensures dt <= MaxDeltaTime
    ensures dt < MaxDeltaTime ==> dt * 1000.0 == elapsedMs as real
    ensures dt == MaxDeltaTime ==> elapsedMs as real >= MaxDeltaTime * 1000.0
    ensures elapsedMs >= 0 ==> dt >= 0.0
  {
    var dt := (elapsedMs as real) / 1000.0;
    if dt <= MaxDeltaTime then dt else MaxDeltaTime
  }

  /** The time of the previous frame, in milliseconds. */
  class FrameClock {
    var lastUpdateTime: int

    constructor (now: int)
      ensures lastUpdateTime == now
    {
      lastUpdateTime := now;
    }

    /** calcDeltaTime: the capped time since the previous call; now becomes
        the previous frame's time. */
    method CalcDeltaTime(now: int) returns (dt: real)
      modifies this
      ensures dt == ClampedDeltaTime(now - old(lastUpdateTime))
      ensures lastUpdateTime == now
    {
      dt := (now - lastUpdateTime) as real / 1000.0;
      if dt > MaxDeltaTime {
        dt := MaxDeltaTime;
      }
      lastUpdateTime := now;
    }
  }
}
