/** The sequences of draw calls the solver issues, as functions of which
    texture plays which role (js/fluid-simulation.js: step, applyBloom,
    splat, splatPointer, applyInputs), and what makes them correct: no draw
    samples its own target, each double-buffered field is used as a ping-pong
    pair, and the bloom chain feeds each draw from the previous one. */
module PassSchedules {
  import opened FluidConfig
  import opened RenderTargets
  import opened PointerInput

  predicate Distinct(s: seq<Framebuffer>)
  {
    forall i, j :: 0 <= i < j < |s| ==> s[i] != s[j]
  }

  /** No draw samples the texture it draws into. */
  predicate NoFeedback(s: seq<Pass>)
  {
    forall k :: 0 <= k < |s| ==> s[k].target !in s[k].inputs
  }

  /** Two schedules without feedback run one after the other have none. */
  lemma NoFeedbackAppend(s: seq<Pass>, t: seq<Pass>)
    requires NoFeedback(s) && NoFeedback(t)
    ensures NoFeedback(s + t)
  {
    forall k | 0 <= k < |s + t|
      ensures (s + t)[k].target !in (s + t)[k].inputs
    {
      if k < |s| {
        assert (s + t)[k] == s[k];
      } else {
        assert (s + t)[k] == t[k - |s|];
      }
    }
  }

  // ---------------------------------------------------------------------
  // The ping-pong discipline of one double-buffered pair {a, b}: `newest`
  // is the side that holds the field's latest contents.

  /** The side holding the latest contents once pass has run. */
  function After(pass: Pass, newest: Framebuffer, a: Framebuffer, b: Framebuffer): Framebuffer
  {
    if pass.target == a || pass.target == b then pass.target else newest
  }

  function Newest(s: seq<Pass>, newest: Framebuffer, a: Framebuffer, b: Framebuffer): Framebuffer
  {
    if |s| == 0 then newest else Newest(s[1..], After(s[0], newest, a, b), a, b)
  }

  /** pass samples only the newest side of the pair and draws only into the
      other side. */
  predicate UsesPair(pass: Pass, newest: Framebuffer, a: Framebuffer, b: Framebuffer)
  {
    (a in pass.inputs ==> newest == a) &&
    (b in pass.inputs ==> newest == b) &&
    ((pass.target == a || pass.target == b) ==> pass.target != newest)
  }

  predicate PingPong(s: seq<Pass>, newest: Framebuffer, a: Framebuffer, b: Framebuffer)
  {
    |s| == 0 || (UsesPair(s[0], newest, a, b) && PingPong(s[1..], After(s[0], newest, a, b), a, b))
  }

  lemma {:induction false} PingPongAppend(s: seq<Pass>, t: seq<Pass>, newest: Framebuffer, a: Framebuffer, b: Framebuffer)
    ensures Newest(s + t, newest, a, b) == Newest(t, Newest(s, newest, a, b), a, b)
    ensures PingPong(s + t, newest, a, b) <==> PingPong(s, newest, a, b) && PingPong(t, Newest(s, newest, a, b), a, b)
    decreases |s|
  {
    if |s| == 0 {
      assert s + t == t;
    } else {
      assert (s + t)[0] == s[0];
      assert (s + t)[1..] == s[1..] + t;
      PingPongAppend(s[1..], t, After(s[0], newest, a, b), a, b);
    }
  }

  /** Appending one draw to a schedule. */
  lemma PingPongSnoc(s: seq<Pass>, pass: Pass, newest: Framebuffer, a: Framebuffer, b: Framebuffer)
    ensures Newest(s + [pass], newest, a, b) == After(pass, Newest(s, newest, a, b), a, b)
    ensures PingPong(s + [pass], newest, a, b) <==>
      PingPong(s, newest, a, b) && UsesPair(pass, Newest(s, newest, a, b), a, b)
  {
    PingPongAppend(s, [pass], newest, a, b);
    assert [pass][1..] == [];
  }

  /** Which side is named first does not matter. */
  lemma {:induction false} PingPongSymmetric(s: seq<Pass>, newest: Framebuffer, a: Framebuffer, b: Framebuffer)
    ensures PingPong(s, newest, a, b) == PingPong(s, newest, b, a)
    ensures Newest(s, newest, a, b) == Newest(s, newest, b, a)
    decreases |s|
  {
    if |s| > 0 {
      PingPongSymmetric(s[1..], After(s[0], newest, a, b), a, b);
    }
  }

  /** Draws that neither sample nor write the pair keep the discipline and
      leave the newest side where it was. */
  lemma {:induction false} PingPongUntouched(s: seq<Pass>, newest: Framebuffer, a: Framebuffer, b: Framebuffer)
    requires forall k :: 0 <= k < |s| ==> a !in s[k].inputs && b !in s[k].inputs && s[k].target != a && s[k].target != b
    ensures PingPong(s, newest, a, b) && Newest(s, newest, a, b) == newest
    decreases |s|
  {
    if |s| > 0 {
      PingPongUntouched(s[1..], newest, a, b);
    }
  }

  // ---------------------------------------------------------------------
  // step

  /** Jacobi iteration k of the pressure solve, p being the pressure sides
      before the first iteration. */
  function JacobiPass(k: nat, p: Sides, divergence: Framebuffer): Pass
  {
    var cur := SidesAfter(k, p);
    Pass(PressureProgram, [divergence, cur.read], cur.write, false)
  }

  /** The first n Jacobi iterations, one swap after each. */
  function JacobiPasses(n: nat, p: Sides, divergence: Framebuffer): (s: seq<Pass>)
    ensures |s| == n
    ensures forall k :: 0 <= k < n ==> s[k] == JacobiPass(k, p, divergence)
  {
    if n == 0 then [] else JacobiPasses(n - 1, p, divergence) + [JacobiPass(n - 1, p, divergence)]
  }

  /** The Jacobi iterations use the pressure pair as a ping-pong pair and leave
      the newest pressure on the side that is read after n swaps. */
  lemma {:induction false} JacobiPingPong(n: nat, p: Sides, divergence: Framebuffer)
    requires p.read != p.write && divergence != p.read && divergence != p.write
    ensures PingPong(JacobiPasses(n, p, divergence), p.read, p.read, p.write)
    ensures Newest(JacobiPasses(n, p, divergence), p.read, p.read, p.write) == SidesAfter(n, p).read
  {
    if n > 0 {
      JacobiPingPong(n - 1, p, divergence);
      PingPongSnoc(JacobiPasses(n - 1, p, divergence), JacobiPass(n - 1, p, divergence), p.read, p.read, p.write);
    }
  }

  function BuoyancyPass(v: Sides, d: Sides, c: Config, dt: real): Pass
  {
    Pass(Buoyancy(c.smokeBuoyancy, dt), [v.read, d.read], v.write, false)
  }

  function CurlPass(v: Sides, curl: Framebuffer): Pass
  {
    Pass(CurlProgram, [v.read], curl, false)
  }

  function VorticityPass(v: Sides, curl: Framebuffer, c: Config, dt: real): Pass
  {
    Pass(Vorticity(c.curl, dt), [v.read, curl], v.write, false)
  }

  function DivergencePass(v: Sides, divergence: Framebuffer): Pass
  {
    Pass(DivergenceProgram, [v.read], divergence, false)
  }

  function ClearPass(p: Sides, c: Config): Pass
  {
    Pass(ClearProgram(c.pressure), [p.read], p.write, false)
  }

  function GradientSubtractPass(p: Sides, v: Sides): Pass
  {
    Pass(GradientSubtractProgram, [p.read, v.read], v.write, false)
  }

  /** Velocity advection samples the velocity both as the flow and as the
      advected quantity. */
  function VelocityAdvectionPass(v: Sides, c: Config, dt: real): Pass
  {
    Pass(Advection(dt, c.velocityDissipation), [v.read, v.read], v.write, false)
  }

  function DyeAdvectionPass(v: Sides, d: Sides, c: Config, dt: real): Pass
  {
    Pass(Advection(dt, c.densityDissipation), [v.read, d.read], d.write, false)
  }

  /** The draws of one step, given the velocity, dye and pressure sides at its
      start. Each argument's Sides are those in force when the draw is issued. */
  function StepSchedule(v: Sides, d: Sides, p: Sides, divergence: Framebuffer, curl: Framebuffer, c: Config, dt: real): seq<Pass>
  {
    var n := c.pressureIterations;
    [BuoyancyPass(v, d, c, dt)]
    + [CurlPass(v.Swapped(), curl)]
    + [VorticityPass(v.Swapped(), curl, c, dt)]
    + [DivergencePass(v, divergence)]
    + [ClearPass(p, c)]
    + JacobiPasses(n, p.Swapped(), divergence)
    + [GradientSubtractPass(SidesAfter(n + 1, p), v)]
    + [VelocityAdvectionPass(v.Swapped(), c, dt)]
    + [DyeAdvectionPass(v, d, c, dt)]
  }

  /** The role assignment the step schedule assumes: eight distinct textures. */
  predicate StepTargetsDistinct(v: Sides, d: Sides, p: Sides, divergence: Framebuffer, curl: Framebuffer)
  {
    Distinct([v.read, v.write, d.read, d.write, p.read, p.write, divergence, curl])
  }

  /** A step issues 8 draws plus one per pressure iteration. */
  lemma StepScheduleLength(v: Sides, d: Sides, p: Sides, divergence: Framebuffer, curl: Framebuffer, c: Config, dt: real)
    ensures |StepSchedule(v, d, p, divergence, curl, c, dt)| == 8 + c.pressureIterations
  {
  }

  /** Exactly the draws from index 5 to 5 + n - 1 run the pressure program. */
  lemma StepSchedulePressureSolve(v: Sides, d: Sides, p: Sides, divergence: Framebuffer, curl: Framebuffer, c: Config, dt: real)
    ensures var s := StepSchedule(v, d, p, divergence, curl, c, dt);
      forall k :: 0 <= k < |s| ==> (s[k].program == PressureProgram <==> 5 <= k < 5 + c.pressureIterations)
  {
    var s := StepSchedule(v, d, p, divergence, curl, c, dt);
    var n := c.pressureIterations;
    var pre := [BuoyancyPass(v, d, c, dt)] + [CurlPass(v.Swapped(), curl)] + [VorticityPass(v.Swapped(), curl, c, dt)]
      + [DivergencePass(v, divergence)] + [ClearPass(p, c)];
    var jac := JacobiPasses(n, p.Swapped(), divergence);
    var post := [GradientSubtractPass(SidesAfter(n + 1, p), v)] + [VelocityAdvectionPass(v.Swapped(), c, dt)]
      + [DyeAdvectionPass(v, d, c, dt)];
    assert s == pre + jac + post;
    forall k | 0 <= k < |s|
      ensures s[k].program == PressureProgram <==> 5 <= k < 5 + n
    {
      if k < 5 {
        assert s[k] == pre[k];
      } else if k < 5 + n {
        assert s[k] == jac[k - 5];
      } else {
        assert s[k] == post[k - 5 - n];
      }
    }
  }

  /** No draw of a step samples its own target. */
  lemma StepScheduleNoFeedback(v: Sides, d: Sides, p: Sides, divergence: Framebuffer, curl: Framebuffer, c: Config, dt: real)
    requires StepTargetsDistinct(v, d, p, divergence, curl)
    ensures NoFeedback(StepSchedule(v, d, p, divergence, curl, c, dt))
  {
    var s := StepSchedule(v, d, p, divergence, curl, c, dt);
    var n := c.pressureIterations;
    var pre := [BuoyancyPass(v, d, c, dt)] + [CurlPass(v.Swapped(), curl)] + [VorticityPass(v.Swapped(), curl, c, dt)]
      + [DivergencePass(v, divergence)] + [ClearPass(p, c)];
    var jac := JacobiPasses(n, p.Swapped(), divergence);
    var post := [GradientSubtractPass(SidesAfter(n + 1, p), v)] + [VelocityAdvectionPass(v.Swapped(), c, dt)]
      + [DyeAdvectionPass(v, d, c, dt)];
    assert s == pre + jac + post;
    var targets := [v.read, v.write, d.read, d.write, p.read, p.write, divergence, curl];
    assert targets[0] == v.read && targets[1] == v.write && targets[2] == d.read && targets[3] == d.write;
    assert targets[4] == p.read && targets[5] == p.write && targets[6] == divergence && targets[7] == curl;
    forall k | 0 <= k < |s|
      ensures s[k].target !in s[k].inputs
    {
      if k < 5 {
        assert s[k] == pre[k];
      } else if k < 5 + n {
        assert s[k] == jac[k - 5] == JacobiPass(k - 5, p.Swapped(), divergence);
      } else {
        assert s[k] == post[k - 5 - n];
      }
    }
  }

  /** The whole step, seen from one pair {a, b} with `newest` holding its
      latest contents at the start: the draws that touch the pair, in order. */
  lemma StepScheduleWalk(v: Sides, d: Sides, p: Sides, divergence: Framebuffer, curl: Framebuffer, c: Config, dt: real,
                         newest: Framebuffer, a: Framebuffer, b: Framebuffer)
    ensures
      var n := c.pressureIterations;
      var x0 := BuoyancyPass(v, d, c, dt);
      var x1 := CurlPass(v.Swapped(), curl);
      var x2 := VorticityPass(v.Swapped(), curl, c, dt);
      var x3 := DivergencePass(v, divergence);
      var x4 := ClearPass(p, c);
      var jac := JacobiPasses(n, p.Swapped(), divergence);
      var x6 := GradientSubtractPass(SidesAfter(n + 1, p), v);
      var x7 := VelocityAdvectionPass(v.Swapped(), c, dt);
      var x8 := DyeAdvectionPass(v, d, c, dt);
      var n1 := After(x0, newest, a, b);
      var n2 := After(x1, n1, a, b);
      var n3 := After(x2, n2, a, b);
      var n4 := After(x3, n3, a, b);
      var n5 := After(x4, n4, a, b);
      var n6 := Newest(jac, n5, a, b);
      var n7 := After(x6, n6, a, b);
      var n8 := After(x7, n7, a, b);
      (PingPong(StepSchedule(v, d, p, divergence, curl, c, dt), newest, a, b) <==>
        UsesPair(x0, newest, a, b) && UsesPair(x1, n1, a, b) && UsesPair(x2, n2, a, b) &&
        UsesPair(x3, n3, a, b) && UsesPair(x4, n4, a, b) && PingPong(jac, n5, a, b) &&
        UsesPair(x6, n6, a, b) && UsesPair(x7, n7, a, b) && UsesPair(x8, n8, a, b)) &&
      Newest(StepSchedule(v, d, p, divergence, curl, c, dt), newest, a, b) == After(x8, n8, a, b)
  {
    var n := c.pressureIterations;
    var x0 := BuoyancyPass(v, d, c, dt);
    var x1 := CurlPass(v.Swapped(), curl);
    var x2 := VorticityPass(v.Swapped(), curl, c, dt);
    var x3 := DivergencePass(v, divergence);
    var x4 := ClearPass(p, c);
    var jac := JacobiPasses(n, p.Swapped(), divergence);
    var x6 := GradientSubtractPass(SidesAfter(n + 1, p), v);
    var x7 := VelocityAdvectionPass(v.Swapped(), c, dt);
    var x8 := DyeAdvectionPass(v, d, c, dt);
    PingPongSnoc([], x0, newest, a, b);
    assert [] + [x0] == [x0];
    PingPongSnoc([x0], x1, newest, a, b);
    PingPongSnoc([x0] + [x1], x2, newest, a, b);
    PingPongSnoc([x0] + [x1] + [x2], x3, newest, a, b);
    PingPongSnoc([x0] + [x1] + [x2] + [x3], x4, newest, a, b);
    var pre := [x0] + [x1] + [x2] + [x3] + [x4];
    PingPongAppend(pre, jac, newest, a, b);
    PingPongSnoc(pre + jac, x6, newest, a, b);
    PingPongSnoc(pre + jac + [x6], x7, newest, a, b);
    PingPongSnoc(pre + jac + [x6] + [x7], x8, newest, a, b);
  }

  /** A step uses velocity, dye and pressure as ping-pong pairs, and afterwards
      the newest velocity is back on the original read side, the newest dye on
      the original write side, and the newest pressure on the side that is
      read after 1 + n swaps. */
  lemma StepSchedulePingPong(v: Sides, d: Sides, p: Sides, divergence: Framebuffer, curl: Framebuffer, c: Config, dt: real)
    requires StepTargetsDistinct(v, d, p, divergence, curl)
    ensures var s := StepSchedule(v, d, p, divergence, curl, c, dt);
      PingPong(s, v.read, v.read, v.write) && Newest(s, v.read, v.read, v.write) == v.read &&
      PingPong(s, d.read, d.read, d.write) && Newest(s, d.read, d.read, d.write) == d.write &&
      PingPong(s, p.read, p.read, p.write) && Newest(s, p.read, p.read, p.write) == SidesAfter(c.pressureIterations + 1, p).read
  {
    JacobiAvoidsPair(v, p, divergence, curl, c.pressureIterations, d);
    JacobiAvoidsPair(d, p, divergence, curl, c.pressureIterations, v);
    StepPairPingPong(v, d, p, divergence, curl, c, dt, true);
    StepPairPingPong(v, d, p, divergence, curl, c, dt, false);
    StepPressurePingPong(v, d, p, divergence, curl, c, dt);
  }

  /** No pressure iteration touches the pair x (velocity or dye). */
  lemma JacobiAvoidsPair(x: Sides, p: Sides, divergence: Framebuffer, curl: Framebuffer, n: nat, y: Sides)
    requires StepTargetsDistinct(x, y, p, divergence, curl) || StepTargetsDistinct(y, x, p, divergence, curl)
    ensures var jac := JacobiPasses(n, p.Swapped(), divergence);
      PingPong(jac, x.read, x.read, x.write) && Newest(jac, x.read, x.read, x.write) == x.read &&
      PingPong(jac, x.write, x.read, x.write) && Newest(jac, x.write, x.read, x.write) == x.write
  {
    var jac := JacobiPasses(n, p.Swapped(), divergence);
    var targets := [x.read, x.write, y.read, y.write, p.read, p.write, divergence, curl];
    var others := [y.read, y.write, x.read, x.write, p.read, p.write, divergence, curl];
    assert targets[0] == x.read && targets[1] == x.write && targets[4] == p.read && targets[5] == p.write && targets[6] == divergence;
    assert others[2] == x.read && others[3] == x.write && others[4] == p.read && others[5] == p.write && others[6] == divergence;
    forall k | 0 <= k < n
      ensures x.read !in jac[k].inputs && x.write !in jac[k].inputs && jac[k].target != x.read && jac[k].target != x.write
    {
      assert jac[k] == JacobiPass(k, p.Swapped(), divergence);
    }
    PingPongUntouched(jac, x.read, x.read, x.write);
    PingPongUntouched(jac, x.write, x.read, x.write);
  }

  /** Velocity and dye through a whole step: x is one of the two pairs. */
  lemma StepPairPingPong(v: Sides, d: Sides, p: Sides, divergence: Framebuffer, curl: Framebuffer, c: Config, dt: real, velocity: bool)
    requires StepTargetsDistinct(v, d, p, divergence, curl)
    requires var x := if velocity then v else d;
      var jac := JacobiPasses(c.pressureIterations, p.Swapped(), divergence);
      PingPong(jac, x.read, x.read, x.write) && Newest(jac, x.read, x.read, x.write) == x.read &&
      PingPong(jac, x.write, x.read, x.write) && Newest(jac, x.write, x.read, x.write) == x.write
    ensures var x := if velocity then v else d;
      var s := StepSchedule(v, d, p, divergence, curl, c, dt);
      PingPong(s, x.read, x.read, x.write) &&
      Newest(s, x.read, x.read, x.write) == if velocity then v.read else d.write
  {
    var x := if velocity then v else d;
    var targets := [v.read, v.write, d.read, d.write, p.read, p.write, divergence, curl];
    assert targets[0] == v.read && targets[1] == v.write && targets[2] == d.read && targets[3] == d.write;
    assert targets[4] == p.read && targets[5] == p.write && targets[6] == divergence && targets[7] == curl;
    StepScheduleWalk(v, d, p, divergence, curl, c, dt, x.read, x.read, x.write);
  }

  /** Pressure through a whole step. */
  lemma StepPressurePingPong(v: Sides, d: Sides, p: Sides, divergence: Framebuffer, curl: Framebuffer, c: Config, dt: real)
    requires StepTargetsDistinct(v, d, p, divergence, curl)
    ensures var s := StepSchedule(v, d, p, divergence, curl, c, dt);
      PingPong(s, p.read, p.read, p.write) && Newest(s, p.read, p.read, p.write) == SidesAfter(c.pressureIterations + 1, p).read
  {
    var n := c.pressureIterations;
    var jac := JacobiPasses(n, p.Swapped(), divergence);
    var targets := [v.read, v.write, d.read, d.write, p.read, p.write, divergence, curl];
    assert targets[0] == v.read && targets[1] == v.write && targets[2] == d.read && targets[3] == d.write;
    assert targets[4] == p.read && targets[5] == p.write && targets[6] == divergence && targets[7] == curl;
    StepScheduleWalk(v, d, p, divergence, curl, c, dt, p.read, p.read, p.write);
    JacobiPingPong(n, p.Swapped(), divergence);
    PingPongSymmetric(jac, p.write, p.write, p.read);
  }

  // ---------------------------------------------------------------------
  // applyBloom

  /** Downsampling draw i: blur the previous level (the destination for
      i = 0) into level i. */
  function BloomDownPass(destination: Framebuffer, levels: seq<Framebuffer>, i: nat): Pass
    requires i < |levels|
  {
    Pass(BloomBlur, [if i == 0 then destination else levels[i - 1]], levels[i], false)
  }

  /** Upsampling draw for level i: blur level i + 1 and add it onto level i. */
  function BloomUpPass(levels: seq<Framebuffer>, i: nat): Pass
    requires i + 1 < |levels|
  {
    Pass(BloomBlur, [levels[i + 1]], levels[i], true)
  }

  /** The first n downsampling draws. */
  function BloomDownPasses(destination: Framebuffer, levels: seq<Framebuffer>, n: nat): (s: seq<Pass>)
    requires n <= |levels|
    ensures |s| == n && forall i :: 0 <= i < n ==> s[i] == BloomDownPass(destination, levels, i)
  {
    if n == 0 then [] else BloomDownPasses(destination, levels, n - 1) + [BloomDownPass(destination, levels, n - 1)]
  }

  /** The first n upsampling draws, from the second last level towards the first. */
  function BloomUpPasses(levels: seq<Framebuffer>, n: nat): (s: seq<Pass>)
    requires n + 1 <= |levels|
    ensures |s| == n && forall k :: 0 <= k < n ==> s[k] == BloomUpPass(levels, |levels| - 2 - k)
  {
    if n == 0 then [] else BloomUpPasses(levels, n - 1) + [BloomUpPass(levels, |levels| - 1 - n)]
  }

  /** The draws of applyBloom: nothing with fewer than two levels; otherwise
      prefilter into the destination, blur down the levels, blur back up
      adding onto each level from the second last to the first, and draw the
      first level into the destination. */
  function BloomSchedule(source: Framebuffer, destination: Framebuffer, levels: seq<Framebuffer>, intensity: real): seq<Pass>
  {
    if |levels| < 2 then []
    else
      [Pass(BloomPrefilter, [source], destination, false)]
      + BloomDownPasses(destination, levels, |levels|)
      + BloomUpPasses(levels, |levels| - 1)
      + [Pass(BloomFinal(intensity), [levels[0]], destination, false)]
  }

  /** Draw k of the bloom schedule, read off by position. */
  function BloomPassAt(source: Framebuffer, destination: Framebuffer, levels: seq<Framebuffer>, intensity: real, k: nat): Pass
    requires 2 <= |levels| && k <= 2 * |levels|
  {
    var l := |levels|;
    if k == 0 then Pass(BloomPrefilter, [source], destination, false)
    else if k <= l then BloomDownPass(destination, levels, k - 1)
    else if k < 2 * l then BloomUpPass(levels, l - 2 - (k - l - 1))
    else Pass(BloomFinal(intensity), [levels[0]], destination, false)
  }

  lemma BloomScheduleIndex(source: Framebuffer, destination: Framebuffer, levels: seq<Framebuffer>, intensity: real)
    requires |levels| >= 2
    ensures var s := BloomSchedule(source, destination, levels, intensity);
      |s| == 2 * |levels| + 1 &&
      forall k :: 0 <= k < |s| ==> s[k] == BloomPassAt(source, destination, levels, intensity, k)
  {
    var s := BloomSchedule(source, destination, levels, intensity);
    var l := |levels|;
    var down := BloomDownPasses(destination, levels, l);
    var up := BloomUpPasses(levels, l - 1);
    var first := Pass(BloomPrefilter, [source], destination, false);
    var last := Pass(BloomFinal(intensity), [levels[0]], destination, false);
    assert s == [first] + down + up + [last];
    forall k | 0 <= k < |s|
      ensures s[k] == BloomPassAt(source, destination, levels, intensity, k)
    {
      if k == 0 {
      } else if k <= l {
        assert s[k] == down[k - 1];
      } else if k < 2 * l {
        assert s[k] == up[k - l - 1];
      } else {
        assert s[k] == last;
      }
    }
  }

  /** Every bloom draw blurs the output of the draw before it, the chain starts
      at the source and ends in the destination, and exactly the upsampling
      draws blend additively. */
  lemma BloomScheduleChain(source: Framebuffer, destination: Framebuffer, levels: seq<Framebuffer>, intensity: real)
    requires |levels| >= 2
    ensures var s := BloomSchedule(source, destination, levels, intensity);
      |s| == 2 * |levels| + 1 &&
      s[0].inputs == [source] &&
      (forall k :: 0 < k < |s| ==> s[k].inputs == [s[k - 1].target]) &&
      s[|s| - 1].target == destination &&
      (forall k :: 0 <= k < |s| ==> (s[k].additive <==> |levels| < k < 2 * |levels|))
  {
    BloomScheduleIndex(source, destination, levels, intensity);
  }

  /** With the source, destination and levels all distinct, no bloom draw
      samples its own target. */
  lemma BloomScheduleNoFeedback(source: Framebuffer, destination: Framebuffer, levels: seq<Framebuffer>, intensity: real)
    requires Distinct([source, destination] + levels)
    ensures NoFeedback(BloomSchedule(source, destination, levels, intensity))
  {
    if |levels| >= 2 {
      BloomScheduleIndex(source, destination, levels, intensity);
      var s := BloomSchedule(source, destination, levels, intensity);
      forall k | 0 <= k < |s|
        ensures s[k].target !in s[k].inputs
      {
        BloomPassNoFeedback(source, destination, levels, intensity, k);
      }
    }
  }

  /** One bloom draw samples one texture and draws into another. */
  lemma BloomPassNoFeedback(source: Framebuffer, destination: Framebuffer, levels: seq<Framebuffer>, intensity: real, k: nat)
    requires Distinct([source, destination] + levels) && 2 <= |levels| && k <= 2 * |levels|
    ensures var pass := BloomPassAt(source, destination, levels, intensity, k);
      pass.target !in pass.inputs
  {
    var all := [source, destination] + levels;
    var l := |levels|;
    if k == 0 {
      assert all[0] != all[1];
    } else if k == 1 {
      assert all[1] != all[2];
    } else if k <= l {
      assert all[k] != all[k + 1];
    } else if k < 2 * l {
      var i := l - 2 - (k - l - 1);
      assert all[i + 2] != all[i + 3];
    } else {
      assert all[1] != all[2];
    }
  }

  // ---------------------------------------------------------------------
  // splat, splatPointer, applyInputs

  /** splat: one draw adding the force into the velocity and one adding the
      colour into the dye, each followed by a swap of its pair. */
  function SplatPasses(x: real, y: real, force: Vec3, color: Vec3, radius: real, v: Sides, d: Sides): seq<Pass>
  {
    [Pass(Splat(x, y, force, radius), [v.read], v.write, false),
     Pass(Splat(x, y, color, radius), [d.read], d.write, false)]
  }

  /** A splat uses velocity and dye as ping-pong pairs and leaves the newest
      contents of each on its write side (the read side after the swap). */
  lemma SplatPingPong(x: real, y: real, force: Vec3, color: Vec3, radius: real, v: Sides, d: Sides)
    requires Distinct([v.read, v.write, d.read, d.write])
    ensures var s := SplatPasses(x, y, force, color, radius, v, d);
      NoFeedback(s) &&
      PingPong(s, v.read, v.read, v.write) && Newest(s, v.read, v.read, v.write) == v.write &&
      PingPong(s, d.read, d.read, d.write) && Newest(s, d.read, d.read, d.write) == d.write
  {
    var targets := [v.read, v.write, d.read, d.write];
    assert targets[0] == v.read && targets[1] == v.write && targets[2] == d.read && targets[3] == d.write;
    var s := SplatPasses(x, y, force, color, radius, v, d);
    assert s == [s[0]] + [s[1]];
    PingPongSnoc([s[0]], s[1], v.read, v.read, v.write);
    PingPongSnoc([], s[0], v.read, v.read, v.write);
    PingPongSnoc([s[0]], s[1], d.read, d.read, d.write);
    PingPongSnoc([], s[0], d.read, d.read, d.write);
    assert [] + [s[0]] == [s[0]];
  }

  /** splatPointer: a splat at the pointer with force proportional to its
      delta and the pointer's colour. */
  function PointerSplatPasses(pointer: PointerState, c: Config, radius: real, v: Sides, d: Sides): seq<Pass>
  {
    SplatPasses(pointer.texcoordX, pointer.texcoordY, PointerForce(pointer.deltaX, pointer.deltaY, c.splatForce), pointer.color, radius, v, d)
  }

  /** The force splatPointer applies: the pointer's delta scaled by the
      config's splat force, with no third component. */
  function PointerForce(deltaX: real, deltaY: real, splatForce: real): Vec3
  {
    Vec3(deltaX * splatForce, deltaY * splatForce, 0.0)
  }

  /** How many of the pointers are marked moved. */
  function MovedCount(pointers: seq<PointerState>): (n: nat)
    ensures n <= |pointers|
  {
    if |pointers| == 0 then 0
    else MovedCount(pointers[..|pointers| - 1]) + (if pointers[|pointers| - 1].moved then 1 else 0)
  }

  /** The draws of applyInputs for pointers in the given states: a splat for
      each moved pointer, in order, each issued against the sides left by the
      splats before it. */
  function InputPasses(pointers: seq<PointerState>, c: Config, radius: real, v: Sides, d: Sides): (s: seq<Pass>)
    ensures |s| == 2 * MovedCount(pointers)
  {
    if |pointers| == 0 then []
    else
      var earlier := pointers[..|pointers| - 1];
      var pointer := pointers[|pointers| - 1];
      var k := MovedCount(earlier);
      InputPasses(earlier, c, radius, v, d)
      + (if pointer.moved then PointerSplatPasses(pointer, c, radius, SidesAfter(k, v), SidesAfter(k, d)) else [])
  }

  /** A splat after a schedule that has swapped velocity and dye k times
      each: the pairs stay in ping-pong use and are swapped k + 1 times. */
  lemma SplatAfterPrefix(prev: seq<Pass>, k: nat, x: real, y: real, force: Vec3, color: Vec3, radius: real, v: Sides, d: Sides)
    requires Distinct([v.read, v.write, d.read, d.write])
    requires NoFeedback(prev)
    requires PingPong(prev, v.read, v.read, v.write) && Newest(prev, v.read, v.read, v.write) == SidesAfter(k, v).read
    requires PingPong(prev, d.read, d.read, d.write) && Newest(prev, d.read, d.read, d.write) == SidesAfter(k, d).read
    ensures var s := prev + SplatPasses(x, y, force, color, radius, SidesAfter(k, v), SidesAfter(k, d));
      NoFeedback(s) &&
      PingPong(s, v.read, v.read, v.write) && Newest(s, v.read, v.read, v.write) == SidesAfter(k + 1, v).read &&
      PingPong(s, d.read, d.read, d.write) && Newest(s, d.read, d.read, d.write) == SidesAfter(k + 1, d).read
  {
    var vk, dk := SidesAfter(k, v), SidesAfter(k, d);
    var targets := [v.read, v.write, d.read, d.write];
    assert targets[0] == v.read && targets[1] == v.write && targets[2] == d.read && targets[3] == d.write;
    var splat := SplatPasses(x, y, force, color, radius, vk, dk);
    SplatPingPong(x, y, force, color, radius, vk, dk);
    PingPongAppend(prev, splat, v.read, v.read, v.write);
    PingPongAppend(prev, splat, d.read, d.read, d.write);
    if k % 2 == 1 {
      PingPongSymmetric(splat, v.write, v.write, v.read);
      PingPongSymmetric(splat, d.write, d.write, d.read);
    }
    NoFeedbackAppend(prev, splat);
  }

  /** applyInputs uses velocity and dye as ping-pong pairs, samples no target
      it draws into, and leaves the newest contents on the sides that are read
      after one swap per moved pointer. */
  lemma {:induction false} InputPassesPingPong(pointers: seq<PointerState>, c: Config, radius: real, v: Sides, d: Sides)
    requires Distinct([v.read, v.write, d.read, d.write])
    ensures var s := InputPasses(pointers, c, radius, v, d);
      var n := MovedCount(pointers);
      NoFeedback(s) &&
      PingPong(s, v.read, v.read, v.write) && Newest(s, v.read, v.read, v.write) == SidesAfter(n, v).read &&
      PingPong(s, d.read, d.read, d.write) && Newest(s, d.read, d.read, d.write) == SidesAfter(n, d).read
    decreases |pointers|
  {
    if |pointers| > 0 {
      var earlier := pointers[..|pointers| - 1];
      var pointer := pointers[|pointers| - 1];
      var k := MovedCount(earlier);
      InputPassesPingPong(earlier, c, radius, v, d);
      var prev := InputPasses(earlier, c, radius, v, d);
      if pointer.moved {
        SplatAfterPrefix(prev, k, pointer.texcoordX, pointer.texcoordY,
          PointerForce(pointer.deltaX, pointer.deltaY, c.splatForce), pointer.color, radius, v, d);
      } else {
        assert prev + [] == prev;
      }
    }
  }
}
