/** The 90-day uptime bar chart (js/uptime-graph.js): choosing the
    Prometheus query, bucketing the returned samples by day, laying out the
    window of day slots, estimating missing recent days from the current
    uptime, averaging, classifying each bar and titling the average.

    Timestamps are whole seconds since the epoch. A Prometheus sample point
    arrives as a JSON array whose first two entries have already been
    converted with Number and parseFloat; the conversion from text is not
    part of this model. */
module UptimeGraph {
  import opened Options
  import opened Numbers

  /** Number of day slots in the chart. */
  const Days: nat := 90

  /** Seconds per day slot. */
  const Step: nat := 86400

  const DefaultQuery: string := "avg_over_time(probe_success[1d])"

  // ---------------------------------------------------------------------
  // Query selection

  /** The characters String.prototype.trim removes: white space and line
      terminators. */
  predicate IsWhiteSpace(c: char)
  {
    c in {'\t', '\n', '\U{000B}', '\U{000C}', '\r', ' ', '\U{00A0}', '\U{1680}',
          '\U{2028}', '\U{2029}', '\U{202F}', '\U{205F}', '\U{3000}', '\U{FEFF}'} ||
    '\U{2000}' <= c <= '\U{200A}'
  }

  /** Neither end of s is white space. */
  predicate IsTrimmed(s: string)
  {
    s == [] || (!IsWhiteSpace(s[0]) && !IsWhiteSpace(s[|s| - 1]))
  }

  /** s without its leading white space. */
  function TrimStart(s: string): (r: string)
    ensures |r| <= |s| && r == s[|s| - |r|..]
    ensures forall k :: 0 <= k < |s| - |r| ==> IsWhiteSpace(s[k])
    ensures r == [] || !IsWhiteSpace(r[0])
  {
    if |s| > 0 && IsWhiteSpace(s[0]) then TrimStart(s[1..]) else s
  }

  /** s without its trailing white space. */
  function TrimEnd(s: string): (r: string)
    ensures |r| <= |s| && r == s[..|r|]
    ensures forall k :: |r| <= k < |s| ==> IsWhiteSpace(s[k])
    ensures r == [] || !IsWhiteSpace(r[|r| - 1])
  {
    if |s| > 0 && IsWhiteSpace(s[|s| - 1]) then TrimEnd(s[..|s| - 1]) else s
  }

  /** String.prototype.trim: the longest stretch of s that neither starts nor
      ends with white space, found by dropping white space at both ends. */
  function Trim(s: string): (r: string)
    ensures IsTrimmed(r)
    ensures |r| <= |s|
  {
    var t := TrimStart(s);
    var r := TrimEnd(t);
    assert r != [] ==> r[0] == t[0];
    r
  }

  /** A string trims to nothing exactly when it is all white space. */
  lemma TrimEmptyIffAllWhiteSpace(s: string)
    ensures Trim(s) == [] <==> forall k :: 0 <= k < |s| ==> IsWhiteSpace(s[k])
  {
    var t := TrimStart(s);
    if Trim(s) == [] {
      assert |t| == 0;
    } else {
      assert |t| > 0 && t[0] == s[|s| - |t|];
      assert !IsWhiteSpace(s[|s| - |t|]);
    }
  }

  /** Trimming a trimmed string changes nothing. */
  lemma TrimOfTrimmed(s: string)
    requires IsTrimmed(s)
    ensures Trim(s) == s
  {
    TrimStartKeeps(s);
    TrimEndKeeps(s);
  }

  lemma TrimStartKeeps(s: string)
    requires s == [] || !IsWhiteSpace(s[0])
    ensures TrimStart(s) == s
  {
  }

  lemma TrimEndKeeps(s: string)
    requires s == [] || !IsWhiteSpace(s[|s| - 1])
    ensures TrimEnd(s) == s
  {
  }

  /** Trimming twice is trimming once. */
  lemma TrimIdempotent(s: string)
    ensures Trim(Trim(s)) == Trim(s)
  {
    TrimOfTrimmed(Trim(s));
  }

  /** resolveQuery: the chart's data-uptime-query attribute when it is a
      string with something besides white space, else the page's
      EDGE_UPTIME_QUERY when it is one, else the default query; either way
      trimmed. None stands for a missing attribute or a global that is not a
      string. */
  function ResolveQuery(attribute: Option<string>, global: Option<string>): (q: string)
    ensures q != [] && IsTrimmed(q)
    ensures attribute.Some? && Trim(attribute.value) != [] ==> q == Trim(attribute.value)
    ensures (attribute.None? || Trim(attribute.value) == []) && global.Some? && Trim(global.value) != [] ==>
      q == Trim(global.value)
    ensures (attribute.None? || Trim(attribute.value) == []) && (global.None? || Trim(global.value) == []) ==>
      q == DefaultQuery
  {
    if attribute.Some? && Trim(attribute.value) != [] then Trim(attribute.value)
    else
      var fromGlobal := if global.Some? then global.value else "";
      if Trim(fromGlobal) != [] then Trim(fromGlobal) else DefaultQuery
  }

  /** An attribute of white space only is passed over for the global query. */
  lemma BlankAttributeFallsThrough(attribute: string, global: string)
    requires forall k :: 0 <= k < |attribute| ==> IsWhiteSpace(attribute[k])
    requires Trim(global) != []
    ensures ResolveQuery(Some(attribute), Some(global)) == Trim(global)
  {
    TrimEmptyIffAllWhiteSpace(attribute);
  }

  // ---------------------------------------------------------------------
  // Classification

  datatype Thresholds = Thresholds(up: real, degraded: real)

  /** Thresholds for a finished day and for the current, unfinished one. */
  const FullDayThresholds := Thresholds(1.0, 0.95)
  const InProgressThresholds := Thresholds(0.95, 0.75)

  /** The CSS class of a bar. */
  datatype BarClass = NoData | Up | Degraded | Down

  /** How good a class is: down, degraded, up. */
  function Rank(c: BarClass): nat
  {
    match c
    case Up => 2
    case Degraded => 1
    case _ => 0
  }

  /** classForValue: no data for a null value; otherwise up at or above the
      up threshold, degraded at or above the degraded threshold, down below
      it. An unfinished day is judged by the relaxed thresholds. */
  function ClassForValue(v: Option<real>, inProgress: bool): (c: BarClass)
    ensures v.None? <==> c == NoData
    ensures var t := if inProgress then InProgressThresholds else FullDayThresholds;
      v.Some? ==> (c == Up <==> v.value >= t.up) &&
                  (c == Degraded <==> t.degraded <= v.value < t.up) &&
                  (c == Down <==> v.value < t.degraded)
  {
    if v.None? then NoData
    else
      var thresholds := if inProgress then InProgressThresholds else FullDayThresholds;
      if v.value >= thresholds.up then Up
      else if v.value >= thresholds.degraded then Degraded
      else Down
  }

  /** A higher value never gets a worse class. */
  lemma ClassMonotone(v: real, w: real, inProgress: bool)
    requires v <= w
    ensures Rank(ClassForValue(Some(v), inProgress)) <= Rank(ClassForValue(Some(w), inProgress))
  {
  }

  /** The relaxed thresholds never give a worse class than the full-day ones. */
  lemma InProgressIsLenient(v: real)
    ensures Rank(ClassForValue(Some(v), false)) <= Rank(ClassForValue(Some(v), true))
  {
  }

  // ---------------------------------------------------------------------
  // Day bucketing

  /** A point of a Prometheus series: not an array, or an array of numbers. */
  datatype Point = NotAnArray | Entries(entries: seq<Num>)

  /** One series of the query result; None when its values are not an array. */
  datatype SeriesResult = SeriesResult(values: Option<seq<Point>>)

  /** A usable point: the start of its day and its value. */
  datatype Sample = Sample(day: int, value: real)

  /** The start of the day slot holding time ts: floor(ts / Step) * Step. */
  function DayStart(ts: real): (r: int)
    ensures r as real <= ts < r as real + Step as real
    ensures r % Step == 0
  {
    Floor(ts / Step as real) * Step
  }

  /** A point is used when it is an array of at least two entries whose
      timestamp and value are both finite. */
  function SampleOf(p: Point): Option<Sample>
  {
    if p.Entries? && |p.entries| >= 2 && IsFinite(p.entries[0]) && IsFinite(p.entries[1])
    then Some(Sample(DayStart(p.entries[0].value), p.entries[1].value))
    else None
  }

  function AsSeq(o: Option<Sample>): seq<Sample>
  {
    if o.Some? then [o.value] else []
  }

  /** The usable points of a list, in order. */
  function PointSamples(points: seq<Point>): seq<Sample>
  {
    if |points| == 0 then [] else PointSamples(points[..|points| - 1]) + AsSeq(SampleOf(points[|points| - 1]))
  }

  function SeriesSamples(r: SeriesResult): seq<Sample>
  {
    if r.values.Some? then PointSamples(r.values.value) else []
  }

  /** The usable points of every series, series by series. */
  function Samples(series: seq<SeriesResult>): seq<Sample>
  {
    if |series| == 0 then [] else Samples(series[..|series| - 1]) + SeriesSamples(series[|series| - 1])
  }

  /** One sample merged into the map: it is kept when its day has no value
      yet or a larger one. */
  function AddSample(m: map<int, real>, s: Sample): map<int, real>
  {
    if s.day !in m || s.value < m[s.day] then m[s.day := s.value] else m
  }

  /** The map the bucketing loop builds from a list of samples. */
  function DayMinima(samples: seq<Sample>): map<int, real>
  {
    if |samples| == 0 then map[] else AddSample(DayMinima(samples[..|samples| - 1]), samples[|samples| - 1])
  }

  /** The map holds a day exactly when some sample falls on it, and then the
      smallest value of that day's samples. */
  lemma {:induction false} DayMinimaIsMinimum(samples: seq<Sample>)
    ensures var m := DayMinima(samples);
      forall day :: day in m <==> exists k :: 0 <= k < |samples| && samples[k].day == day
    ensures var m := DayMinima(samples);
      forall k :: 0 <= k < |samples| ==> samples[k].day in m && m[samples[k].day] <= samples[k].value
    ensures var m := DayMinima(samples);
      forall day :: day in m ==> exists k :: 0 <= k < |samples| && samples[k].day == day && samples[k].value == m[day]
  {
    if |samples| > 0 {
      var n := |samples|;
      var prefix := samples[..n - 1];
      DayMinimaIsMinimum(prefix);
      var m := DayMinima(samples);
      forall day | day in m
        ensures exists k :: 0 <= k < n && samples[k].day == day && samples[k].value == m[day]
      {
        if day == samples[n - 1].day && m[day] == samples[n - 1].value {
        } else {
          var k :| 0 <= k < n - 1 && prefix[k].day == day && prefix[k].value == m[day];
          assert samples[k] == prefix[k];
        }
      }
      forall day | exists k :: 0 <= k < n && samples[k].day == day
        ensures day in m
      {
        var k :| 0 <= k < n && samples[k].day == day;
        if k < n - 1 {
          assert prefix[k] == samples[k];
        }
      }
      forall k | 0 <= k < n
        ensures samples[k].day in m && m[samples[k].day] <= samples[k].value
      {
        if k < n - 1 {
          assert prefix[k] == samples[k];
        }
      }
    }
  }

  /** One more sample at the end of the list. */
  lemma DayMinimaSnoc(a: seq<Sample>, b: seq<Sample>, o: Option<Sample>)
    ensures DayMinima(a + (b + AsSeq(o))) ==
      if o.Some? then AddSample(DayMinima(a + b), o.value) else DayMinima(a + b)
  {
    if o.Some? {
      assert (a + (b + AsSeq(o)))[..|a + b|] == a + b;
    } else {
      assert a + (b + AsSeq(o)) == a + b;
    }
  }

  /** The bucketing loop of init: every usable point of every series is
      merged into the map of daily minima, in order. */
  method BuildValueMap(series: seq<SeriesResult>) returns (valueMap: map<int, real>)
    ensures valueMap == DayMinima(Samples(series))
  {
    valueMap := map[];
    for i := 0 to |series|
      invariant valueMap == DayMinima(Samples(series[..i]))
    {
      assert series[..i + 1][..i] == series[..i];
      if series[i].values.Some? {
        var points := series[i].values.value;
        assert Samples(series[..i]) + PointSamples(points[..0]) == Samples(series[..i]);
        for j := 0 to |points|
          invariant valueMap == DayMinima(Samples(series[..i]) + PointSamples(points[..j]))
        {
          assert points[..j + 1][..j] == points[..j];
          DayMinimaSnoc(Samples(series[..i]), PointSamples(points[..j]), SampleOf(points[j]));
          var point := points[j];
          if point.Entries? && |point.entries| >= 2 {
            var ts, val := point.entries[0], point.entries[1];
            if ts.Finite? && val.Finite? {
              var dayTs := DayStart(ts.value);
              if dayTs !in valueMap || val.value < valueMap[dayTs] {
                valueMap := valueMap[dayTs := val.value];
              }
            }
          }
        }
        assert points[..|points|] == points;
        assert Samples(series[..i + 1]) == Samples(series[..i]) + PointSamples(points);
      } else {
        assert Samples(series[..i + 1]) == Samples(series[..i]) + [] == Samples(series[..i]);
      }
    }
    assert series[..|series|] == series;
  }

  // ---------------------------------------------------------------------
  // The window of day slots

  /** A bar: the start of its day and its value, null when there is none. */
  datatype Slot = Slot(ts: int, value: Option<real>)

  function Lookup(m: map<int, real>, day: int): Option<real>
  {
    if day in m then Some(m[day]) else None
  }

  /** The start of the day holding now (whole seconds). */
  function CurrentDayTs(now: int): int
  {
    (now / Step) * Step
  }

  /** The start of the first day of the window. */
  function WindowStart(now: int): int
  {
    CurrentDayTs(now) - (Days - 1) * Step
  }

  /** The window ends on the current day, which is the day DayStart gives for
      now, and each of its days is a day start. */
  lemma {:induction false} WindowEndsOnCurrentDay(now: int)
    ensures WindowStart(now) + (Days - 1) * Step == CurrentDayTs(now)
    ensures CurrentDayTs(now) == DayStart(now as real)
    ensures forall i :: 0 <= i < Days ==> (WindowStart(now) + i * Step) % Step == 0
  {
    var q, r := now / Step, now % Step;
    assert now == q * Step + r && 0 <= r < Step;
    assert (q as real) * (Step as real) <= now as real < (q as real + 1.0) * (Step as real);
    assert q as real <= (now as real) / (Step as real) < q as real + 1.0;
    assert Floor((now as real) / (Step as real)) == q;
  }

  /** Every day start between the window's first day and the current day has
      a slot: no bucketed day inside the window is dropped. */
  lemma DayInWindowHasSlot(now: int, day: int)
    requires day % Step == 0 && WindowStart(now) <= day <= CurrentDayTs(now)
    ensures var i := (day - WindowStart(now)) / Step;
      0 <= i < Days && WindowStart(now) + i * Step == day
  {
    var start := WindowStart(now);
    var i := (day - start) / Step;
    assert start % Step == 0 by {
      assert start == (now / Step - (Days - 1)) * Step;
    }
    assert (day - start) % Step == 0;
    assert day - start == i * Step;
  }

  /** The slot layout of init: Days slots, one per day from start on, each
      holding the map's value for its day or null. */
  function Window(start: int, m: map<int, real>): (slots: seq<Slot>)
  {
    seq(Days, i => Slot(start + i * Step, Lookup(m, start + i * Step)))
  }

  /** Slot i starts i days after the window, holds its day's value when the
      map has one, and only the last slot is the current day. */
  lemma WindowContents(now: int, m: map<int, real>, i: int)
    requires 0 <= i < Days
    ensures var slots := Window(WindowStart(now), m);
      |slots| == Days && slots[i].ts == WindowStart(now) + i * Step &&
      (slots[i].value.Some? <==> slots[i].ts in m) &&
      (slots[i].value.Some? ==> slots[i].value.value == m[slots[i].ts]) &&
      (slots[i].ts == CurrentDayTs(now) <==> i == Days - 1)
  {
  }

  /** The slot loop of init. */
  method GenerateSlots(start: int, valueMap: map<int, real>) returns (slots: seq<Slot>)
    ensures slots == Window(start, valueMap)
  {
    slots := [];
    for i := 0 to Days
      invariant slots == Window(start, valueMap)[..i]
    {
      var dayTs := start + i * Step;
      var v := if dayTs in valueMap then Some(valueMap[dayTs]) else None;
      slots := slots + [Slot(dayTs, v)];
    }
  }

  // ---------------------------------------------------------------------
  // Backfill from the current uptime

  function RMin(a: real, b: real): real
  {
    if a <= b then a else b
  }

  function RMax(a: real, b: real): real
  {
    if a <= b then b else a
  }

  /** Seconds of the day starting at dayStart that lie within the current
      uptime, that is between now - uptime and now (negative when none do). */
  function Overlap(dayStart: int, uptime: real, now: int): (r: real)
    ensures r <= Step as real
  {
    RMin((dayStart + Step) as real, now as real) - RMax(dayStart as real, now as real - uptime)
  }

  /** The value written for an overlap: its fraction of a day, clamped to [0, 1]. */
  function FillValue(overlap: real): real
  {
    RMax(0.0, RMin(1.0, overlap / Step as real))
  }

  /** The uptime backfill uses: a finite number above zero. */
  predicate UsableUptime(uptime: Option<Num>)
  {
    uptime.Some? && IsFinite(uptime.value) && uptime.value.value > 0.0
  }

  /** One slot after backfill: a null slot whose day overlaps the uptime gets
      the overlapping fraction of the day; every other slot stays. */
  function BackfillSlot(slot: Slot, uptime: real, now: int): Slot
  {
    if slot.value.Some? || Overlap(slot.ts, uptime, now) <= 0.0 then slot
    else slot.(value := Some(FillValue(Overlap(slot.ts, uptime, now))))
  }

  /** Every slot after backfill; nothing changes without a usable uptime. */
  function Backfilled(slots: seq<Slot>, uptime: Option<Num>, now: int): (r: seq<Slot>)
    ensures |r| == |slots|
  {
    if !UsableUptime(uptime) then slots
    else seq(|slots|, i requires 0 <= i < |slots| => BackfillSlot(slots[i], uptime.value.value, now))
  }

  /** Whether backfill fills this slot. */
  predicate Fills(slot: Slot, uptime: Option<Num>, now: int)
  {
    UsableUptime(uptime) && slot.value.None? && Overlap(slot.ts, uptime.value.value, now) > 0.0
  }

  /** How many slots backfill fills. */
  function FillCount(slots: seq<Slot>, uptime: Option<Num>, now: int): nat
  {
    if |slots| == 0 then 0
    else FillCount(slots[..|slots| - 1], uptime, now) + (if Fills(slots[|slots| - 1], uptime, now) then 1 else 0)
  }

  /** Without a usable uptime nothing is filled. */
  lemma {:induction false} FillCountWithoutUptime(slots: seq<Slot>, uptime: Option<Num>, now: int)
    requires !UsableUptime(uptime)
    ensures FillCount(slots, uptime, now) == 0
  {
    if |slots| > 0 {
      FillCountWithoutUptime(slots[..|slots| - 1], uptime, now);
    }
  }

  /** backfillSlotsFromCurrentUptime: nothing happens for a null, non-finite
      or non-positive uptime; otherwise each null slot overlapping the
      uptime is filled, and the number filled is returned. */
  method BackfillSlotsFromCurrentUptime(slots: array<Slot>, uptime: Option<Num>, now: int) returns (filled: nat)
    modifies slots
    ensures slots[..] == Backfilled(old(slots[..]), uptime, now)
    ensures filled == FillCount(old(slots[..]), uptime, now)
  {
    if uptime.None? || !uptime.value.Finite? || uptime.value.value <= 0.0 {
      FillCountWithoutUptime(slots[..], uptime, now);
      return 0;
    }
    var uptimeSeconds := uptime.value.value;
    var uptimeStart := now as real - uptimeSeconds;
    filled := 0;
    for i := 0 to slots.Length
      invariant forall k :: 0 <= k < i ==> slots[k] == BackfillSlot(old(slots[k]), uptimeSeconds, now)
      invariant forall k :: i <= k < slots.Length ==> slots[k] == old(slots[k])
      invariant filled == FillCount(old(slots[..])[..i], uptime, now)
    {
      assert old(slots[..])[..i + 1][..i] == old(slots[..])[..i];
      var slot := slots[i];
      if slot.value.Some? {
        continue;
      }
      var dayStart := slot.ts;
      var dayEnd := dayStart + Step;
      var overlapStart := RMax(dayStart as real, uptimeStart);
      var overlapEnd := RMin(dayEnd as real, now as real);
      var overlap := overlapEnd - overlapStart;
      if overlap <= 0.0 {
        continue;
      }
      slots[i] := slot.(value := Some(RMax(0.0, RMin(1.0, overlap / Step as real))));
      filled := filled + 1;
    }
    assert old(slots[..])[..slots.Length] == old(slots[..]);
  }

  /** Backfill keeps every timestamp, never overwrites a slot that has a
      value, fills a null slot exactly when its day overlaps the uptime, and
      writes the overlapping fraction of the day, which lies in (0, 1]: the
      clamp never takes effect. */
  lemma BackfillProperties(slots: seq<Slot>, uptime: Option<Num>, now: int, i: int)
    requires 0 <= i < |slots|
    ensures var r := Backfilled(slots, uptime, now);
      r[i].ts == slots[i].ts &&
      (slots[i].value.Some? ==> r[i] == slots[i]) &&
      (r[i] != slots[i] <==> Fills(slots[i], uptime, now)) &&
      (r[i] != slots[i] ==>
        r[i].value == Some(Overlap(slots[i].ts, uptime.value.value, now) / Step as real) &&
        0.0 < r[i].value.value <= 1.0)
  {
  }

  /** Number of positions where two slot lists differ. */
  function Changed(before: seq<Slot>, after: seq<Slot>): nat
    requires |before| == |after|
  {
    if |before| == 0 then 0
    else Changed(before[..|before| - 1], after[..|after| - 1]) + (if before[|before| - 1] != after[|after| - 1] then 1 else 0)
  }

  /** The count backfill returns is the number of slots it changed. */
  lemma {:induction false} FillCountIsChangedSlots(slots: seq<Slot>, uptime: Option<Num>, now: int)
    ensures FillCount(slots, uptime, now) == Changed(slots, Backfilled(slots, uptime, now))
  {
    if |slots| > 0 {
      var n := |slots|;
      FillCountIsChangedSlots(slots[..n - 1], uptime, now);
      assert Backfilled(slots, uptime, now)[..n - 1] == Backfilled(slots[..n - 1], uptime, now);
      BackfillProperties(slots, uptime, now, n - 1);
    }
  }

  // ---------------------------------------------------------------------
  // Average

  /** The values of the slots that have one, in order. */
  function SampledValues(slots: seq<Slot>): (vs: seq<real>)
    ensures |vs| <= |slots|
  {
    if |slots| == 0 then []
    else
      var last := slots[|slots| - 1];
      SampledValues(slots[..|slots| - 1]) + (if last.value.Some? then [last.value.value] else [])
  }

  /** Positions of the slots that have a value. */
  function SampledIndices(slots: seq<Slot>): set<int>
  {
    set i | 0 <= i < |slots| && slots[i].value.Some?
  }

  /** Sum from the left, as reduce does. */
  function Total(vs: seq<real>): real
  {
    if |vs| == 0 then 0.0 else Total(vs[..|vs| - 1]) + vs[|vs| - 1]
  }

  /** There is one sampled value per slot that has a value. */
  lemma {:induction false} SampledCount(slots: seq<Slot>)
    ensures |SampledValues(slots)| == |SampledIndices(slots)|
  {
    if |slots| > 0 {
      var n := |slots|;
      var prefix := slots[..n - 1];
      SampledCount(prefix);
      var before := SampledIndices(prefix);
      assert forall i :: 0 <= i < n - 1 ==> prefix[i] == slots[i];
      if slots[n - 1].value.Some? {
        assert SampledIndices(slots) == before + {n - 1};
      } else {
        assert SampledIndices(slots) == before;
      }
    }
  }

  /** Each sampled value is a slot's value. */
  lemma {:induction false} SampledValuesAreSlotValues(slots: seq<Slot>)
    ensures forall v :: v in SampledValues(slots) ==> exists i :: 0 <= i < |slots| && slots[i].value == Some(v)
  {
    if |slots| > 0 {
      var n := |slots|;
      var prefix := slots[..n - 1];
      SampledValuesAreSlotValues(prefix);
      forall v | v in SampledValues(slots)
        ensures exists i :: 0 <= i < n && slots[i].value == Some(v)
      {
        if v in SampledValues(prefix) {
          var i :| 0 <= i < n - 1 && prefix[i].value == Some(v);
          assert slots[i] == prefix[i];
        } else {
          assert slots[n - 1].value == Some(v);
        }
      }
    }
  }

  datatype Average = Average(avg: Option<real>, sampledCount: nat)

  /** computeAvg: the mean of the values of the slots that have one, with
      their number; null and zero when no slot has a value. */
  function ComputeAvg(slots: seq<Slot>): (r: Average)
    ensures r.sampledCount == |SampledIndices(slots)| == |SampledValues(slots)|
    ensures r.avg.None? <==> r.sampledCount == 0
    ensures r.avg.Some? ==> r.avg.value * (r.sampledCount as real) == Total(SampledValues(slots))
  {
    SampledCount(slots);
    var sampled := SampledValues(slots);
    if |sampled| == 0 then Average(None, 0)
    else
      DivTimes(Total(sampled), |sampled|);
      Average(Some(Total(sampled) / (|sampled| as real)), |sampled|)
  }

  /** Dividing by a non-zero number and multiplying back gives the number. */
  lemma DivTimes(t: real, n: nat)
    requires n > 0
    ensures (t / (n as real)) * (n as real) == t
  {
  }

  /** A sum of n values in [lo, hi] lies in [n lo, n hi]. */
  lemma {:induction false} TotalBounds(vs: seq<real>, lo: real, hi: real)
    requires forall k :: 0 <= k < |vs| ==> lo <= vs[k] <= hi
    ensures (|vs| as real) * lo <= Total(vs) <= (|vs| as real) * hi
  {
    if |vs| > 0 {
      TotalBounds(vs[..|vs| - 1], lo, hi);
    }
  }

  /** The average lies between any bounds of the slots' values, in
      particular between the smallest and the largest sampled value. */
  lemma AverageWithinBounds(slots: seq<Slot>, lo: real, hi: real)
    requires forall i :: 0 <= i < |slots| && slots[i].value.Some? ==> lo <= slots[i].value.value <= hi
    requires ComputeAvg(slots).avg.Some?
    ensures lo <= ComputeAvg(slots).avg.value <= hi
  {
    var vs := SampledValues(slots);
    SampledValuesWithin(slots, lo, hi);
    TotalBounds(vs, lo, hi);
    var c := ComputeAvg(slots);
    Unscale(c.avg.value, lo, hi, |vs| as real);
  }

  /** Bounds on the slots' values bound the sampled values. */
  lemma SampledValuesWithin(slots: seq<Slot>, lo: real, hi: real)
    requires forall i :: 0 <= i < |slots| && slots[i].value.Some? ==> lo <= slots[i].value.value <= hi
    ensures forall k :: 0 <= k < |SampledValues(slots)| ==> lo <= SampledValues(slots)[k] <= hi
  {
    var vs := SampledValues(slots);
    SampledValuesAreSlotValues(slots);
    forall k | 0 <= k < |vs|
      ensures lo <= vs[k] <= hi
    {
      assert vs[k] in vs;
    }
  }

  /** Dividing out a positive factor keeps the order. */
  lemma Unscale(a: real, lo: real, hi: real, n: real)
    requires n > 0.0 && n * lo <= a * n <= n * hi
    ensures lo <= a <= hi
  {
    assert (a - lo) * n >= 0.0;
    assert (hi - a) * n >= 0.0;
  }

  // ---------------------------------------------------------------------
  // Bars and the average's title

  /** Whether the current day's slot has a value. */
  predicate IncludesCurrentDay(slots: seq<Slot>, currentDayTs: int)
  {
    exists i :: 0 <= i < |slots| && slots[i].ts == currentDayTs && slots[i].value.Some?
  }

  const FetchFailedEstimated: string :=
    "Prometheus query failed; recent days estimated from current uptime. No-data days are excluded from the average."
  const FetchFailed: string := "Prometheus query failed; no-data days are excluded from the average."
  const HistoryBuilding: string :=
    "Probe history is still building; recent days estimated from current uptime. No-data days are excluded from the average."
  const NoSamples: string := "No uptime samples returned yet."
  const SampledDaysOnly: string := "Average uses sampled days only; no-data days are excluded."
  const InProgressNote: string :=
    "Includes today (in progress). Today uses relaxed thresholds: green >= 95%, orange >= 75%, red < 75%."

  /** The average's title before the in-progress note: it explains a failed
      query, an empty history and excluded days, in that order; None removes
      the title. */
  function BaseTitle(fetchFailed: bool, backfilledCount: nat, mapSize: nat, sampledCount: nat, slotCount: nat): Option<string>
  {
    if fetchFailed && backfilledCount > 0 then Some(FetchFailedEstimated)
    else if fetchFailed then Some(FetchFailed)
    else if mapSize == 0 && backfilledCount > 0 then Some(HistoryBuilding)
    else if mapSize == 0 then Some(NoSamples)
    else if sampledCount < slotCount then Some(SampledDaysOnly)
    else None
  }

  /** The final title: the in-progress note is appended (or is the whole
      title) when the current day has a value; otherwise a title equal to the
      note is removed. */
  function AvgTitle(base: Option<string>, includesCurrentDay: bool): Option<string>
  {
    if includesCurrentDay then
      if base.Some? && base.value != [] then Some(base.value + " " + InProgressNote) else Some(InProgressNote)
    else if base == Some(InProgressNote) then None
    else base
  }

  /** The title mentions the current day exactly when its slot has a value:
      the removal branch never applies to a title the first step sets. */
  lemma TitleNotesCurrentDayIff(fetchFailed: bool, backfilledCount: nat, mapSize: nat, sampledCount: nat, slotCount: nat,
                                includesCurrentDay: bool)
    ensures var base := BaseTitle(fetchFailed, backfilledCount, mapSize, sampledCount, slotCount);
      AvgTitle(base, includesCurrentDay) == if includesCurrentDay then
        (if base.Some? then Some(base.value + " " + InProgressNote) else Some(InProgressNote))
      else base
  {
    var base := BaseTitle(fetchFailed, backfilledCount, mapSize, sampledCount, slotCount);
    if base.Some? {
      assert |base.value| != |InProgressNote|;
    }
  }

  /** init after the two fetches: bucket the series, lay out the window,
      backfill it from the status uptime, then average it and title the
      average. */
  method Init(series: seq<SeriesResult>, statusUptime: Option<Num>, now: int, fetchFailed: bool)
    returns (slots: seq<Slot>, average: Average, title: Option<string>)
    ensures var m := DayMinima(Samples(series));
      var window := Window(WindowStart(now), m);
      slots == Backfilled(window, statusUptime, now) &&
      average == ComputeAvg(slots) &&
      title == AvgTitle(BaseTitle(fetchFailed, FillCount(window, statusUptime, now), |m|, average.sampledCount, Days),
                        IncludesCurrentDay(slots, CurrentDayTs(now)))
  {
    var currentDayTs := CurrentDayTs(now);
    var start := currentDayTs - (Days - 1) * Step;
    assert start == WindowStart(now);
    var valueMap := BuildValueMap(series);
    var window := GenerateSlots(start, valueMap);
    var cells := new Slot[|window|](i requires 0 <= i < |window| => window[i]);
    assert cells[..] == window;
    var backfilledCount := BackfillSlotsFromCurrentUptime(cells, statusUptime, now);
    slots := cells[..];
    assert |slots| == |window| == Days;
    average := ComputeAvg(slots);
    var base := BaseTitle(fetchFailed, backfilledCount, |valueMap|, average.sampledCount, |slots|);
    assert base == BaseTitle(fetchFailed, FillCount(window, statusUptime, now), |valueMap|, average.sampledCount, Days);
    title := AvgTitle(base, IncludesCurrentDay(slots, currentDayTs));
  }
}
