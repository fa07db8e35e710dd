/** The edge-gateway status widget (js/homelab-status.js): how one poll of
    the status endpoint, or its failure, becomes the widget's state, with the
    uptime shown as days, hours and minutes and as a meter filled over a
    week. Every dot, title and text node of a kind shows the same thing, so
    the widget is modelled as one state value. */
module HomelabStatus {
  import opened Options
  import opened Numbers

  /** The uptime at which the meter is full: seven days, in seconds. */
  const UptimeMeterMaxSeconds: nat := 7 * 24 * 60 * 60

  // ---------------------------------------------------------------------
  // Decimal numerals

  predicate IsDigit(c: char)
  {
    '0' <= c <= '9'
  }

  function DigitChar(d: nat): (c: char)
    requires d < 10
    ensures IsDigit(c)
  {
    ('0' as int + d) as char
  }

  function DigitValue(c: char): nat
  {
    if IsDigit(c) then c as int - '0' as int else 0
  }

  /** A whole number as JavaScript prints it: its decimal digits, without
      leading zeros. */
  function NatToString(n: nat): (s: string)
    ensures |s| >= 1 && forall k :: 0 <= k < |s| ==> IsDigit(s[k])
    ensures |s| > 1 ==> s[0] != '0'
  {
    if n < 10 then [DigitChar(n)] else NatToString(n / 10) + [DigitChar(n % 10)]
  }

  /** The number a string of digits denotes. */
  function DigitsValue(s: string): nat
  {
    if |s| == 0 then 0 else DigitsValue(s[..|s| - 1]) * 10 + DigitValue(s[|s| - 1])
  }

  /** Reading a numeral gives back the number. */
  lemma {:induction false} NatToStringRoundTrip(n: nat)
    ensures DigitsValue(NatToString(n)) == n
  {
    if n >= 10 {
      var s := NatToString(n / 10);
      NatToStringRoundTrip(n / 10);
      assert (s + [DigitChar(n % 10)])[..|s|] == s;
    }
  }

  /** Number of leading digits of s. */
  function DigitPrefix(s: string): (k: nat)
    ensures k <= |s|
  {
    if |s| > 0 && IsDigit(s[0]) then 1 + DigitPrefix(s[1..]) else 0
  }

  /** The leading digits of a numeral followed by a non-digit are the numeral. */
  lemma {:induction false} DigitPrefixOfNumeral(t: string, rest: string)
    requires forall k :: 0 <= k < |t| ==> IsDigit(t[k])
    requires rest == [] || !IsDigit(rest[0])
    ensures DigitPrefix(t + rest) == |t|
  {
    if |t| > 0 {
      assert (t + rest)[1..] == t[1..] + rest;
      DigitPrefixOfNumeral(t[1..], rest);
    } else {
      assert t + rest == rest;
    }
  }

  /** A numeral at the front of a string is read back as its number, and the
      rest of the string is what follows it. */
  lemma ReadNumeral(n: nat, rest: string)
    requires rest == [] || !IsDigit(rest[0])
    ensures var s := NatToString(n) + rest; var k := DigitPrefix(s);
      k == |NatToString(n)| && k > 0 && DigitsValue(s[..k]) == n && s[k..] == rest
  {
    var t := NatToString(n);
    DigitPrefixOfNumeral(t, rest);
    assert (t + rest)[..|t|] == t;
    assert (t + rest)[|t|..] == rest;
    NatToStringRoundTrip(n);
  }

  // ---------------------------------------------------------------------
  // Durations

  datatype Duration = Duration(days: nat, hours: nat, minutes: nat)

  /** Whole days, hours of the day and minutes of the hour in s seconds, by
      integer division and remainder. */
  function Breakdown(s: nat): (d: Duration)
    ensures d.hours < 24 && d.minutes < 60
    ensures var t := d.days * 86400 + d.hours * 3600 + d.minutes * 60; t <= s < t + 60
  {
    var d := Duration(s / 86400, (s % 86400) / 3600, (s % 3600) / 60);
    BreakdownSum(s);
    d
  }

  /** The three parts add back up to s, short of its seconds within the minute. */
  lemma BreakdownSum(s: nat)
    ensures (s % 86400) / 3600 < 24
    ensures s / 86400 * 86400 + (s % 86400) / 3600 * 3600 + (s % 3600) / 60 * 60 + s % 60 == s
  {
    var days, r := s / 86400, s % 86400;
    var hours, r2 := r / 3600, r % 3600;
    assert s == days * 86400 + r;
    assert r == hours * 3600 + r2 && 0 <= r2 < 3600;
    assert s == (days * 24 + hours) * 3600 + r2;
    DivUnique(s, 3600, days * 24 + hours, r2);
    var minutes, r3 := r2 / 60, r2 % 60;
    assert r2 == minutes * 60 + r3;
    assert s == ((days * 24 + hours) * 60 + minutes) * 60 + r3;
    DivUnique(s, 60, (days * 24 + hours) * 60 + minutes, r3);
  }

  /** formatDuration: "--" for a non-finite or negative number; otherwise the
      whole seconds as "Dd Hh Mm", dropping the days when there are none and
      then the hours when there are none. */
  function FormatDuration(seconds: Num): (r: string)
    ensures r == "--" <==> !IsFinite(seconds) || seconds.value < 0.0
  {
    if !IsFinite(seconds) || seconds.value < 0.0 then "--"
    else
      var d := Breakdown(Floor(seconds.value));
      var m := NatToString(d.minutes) + "m";
      var r := if d.days > 0 then NatToString(d.days) + ("d " + (NatToString(d.hours) + ("h " + m)))
        else if d.hours > 0 then NatToString(d.hours) + ("h " + m)
        else m;
      assert r[|r| - 1] == 'm';
      r
  }

  /** A duration read back from the widget's text, with the number of fields
      it showed. */
  datatype Parsed = Parsed(fields: nat, duration: Duration)

  /** Reads one field: a numeral followed by its unit, giving the number and
      the text after the unit. */
  function ReadField(s: string, unit: string): Option<(nat, string)>
  {
    var k := DigitPrefix(s);
    if k > 0 && |s| - k >= |unit| && s[k..k + |unit|] == unit then Some((DigitsValue(s[..k]), s[k + |unit|..]))
    else None
  }

  /** A numeral followed by a unit is read as that field, and not as a field
      of any unit starting with another letter. */
  lemma ReadFieldOf(n: nat, unit: string, rest: string, other: string)
    requires unit != [] && !IsDigit(unit[0]) && other != [] && other[0] != unit[0]
    ensures ReadField(NatToString(n) + (unit + rest), unit) == Some((n, rest))
    ensures ReadField(NatToString(n) + (unit + rest), other) == None
  {
    var tail := unit + rest;
    ReadFieldAfterNumeral(n, tail, unit);
    ReadFieldAfterNumeral(n, tail, other);
    assert tail[..|unit|] == unit && tail[|unit|..] == rest;
    if |tail| >= |other| {
      assert tail[..|other|][0] == unit[0];
    }
  }

  /** After a numeral, ReadField takes the unit if the text goes on with it. */
  lemma ReadFieldAfterNumeral(n: nat, tail: string, unit: string)
    requires tail == [] || !IsDigit(tail[0])
    ensures ReadField(NatToString(n) + tail, unit) ==
      if |tail| >= |unit| && tail[..|unit|] == unit then Some((n, tail[|unit|..])) else None
  {
    var t, s := NatToString(n), NatToString(n) + tail;
    ReadNumeral(n, tail);
    if |tail| >= |unit| {
      assert s[|t|..|t| + |unit|] == tail[..|unit|];
      assert s[|t| + |unit|..] == tail[|unit|..];
    }
  }

  /** Reads "Dd Hh Mm", "Hh Mm" or "Mm" back into its parts. */
  function ParseDuration(s: string): Option<Parsed>
  {
    var m, h, d := ReadField(s, "m"), ReadField(s, "h "), ReadField(s, "d ");
    if m.Some? then
      if m.value.1 == [] then Some(Parsed(1, Duration(0, 0, m.value.0))) else None
    else if h.Some? then
      var m2 := ReadField(h.value.1, "m");
      if m2.Some? && m2.value.1 == [] then Some(Parsed(2, Duration(0, h.value.0, m2.value.0))) else None
    else if d.Some? then
      var h3 := ReadField(d.value.1, "h ");
      var m3 := if h3.Some? then ReadField(h3.value.1, "m") else None;
      if m3.Some? && m3.value.1 == [] then Some(Parsed(3, Duration(d.value.0, h3.value.0, m3.value.0))) else None
    else None
  }

  /** The last field, with nothing after its unit. */
  lemma ReadLastField(n: nat, unit: string, other: string)
    requires unit != [] && !IsDigit(unit[0]) && other != [] && other[0] != unit[0]
    ensures ReadField(NatToString(n) + unit, unit) == Some((n, []))
    ensures ReadField(NatToString(n) + unit, other) == None
  {
    assert unit + [] == unit;
    ReadFieldOf(n, unit, [], other);
  }

  /** "Dd Hh Mm" reads back as three fields. */
  lemma ParseDaysHoursMinutes(days: nat, hours: nat, minutes: nat)
    ensures ParseDuration(NatToString(days) + ("d " + (NatToString(hours) + ("h " + (NatToString(minutes) + "m")))))
      == Some(Parsed(3, Duration(days, hours, minutes)))
  {
    var m := NatToString(minutes) + "m";
    var h := NatToString(hours) + ("h " + m);
    ReadFieldOf(days, "d ", h, "m");
    ReadFieldOf(days, "d ", h, "h ");
    ReadFieldOf(hours, "h ", m, "m");
    ReadLastField(minutes, "m", "h ");
  }

  /** "Hh Mm" reads back as two fields. */
  lemma ParseHoursMinutes(hours: nat, minutes: nat)
    ensures ParseDuration(NatToString(hours) + ("h " + (NatToString(minutes) + "m")))
      == Some(Parsed(2, Duration(0, hours, minutes)))
  {
    var m := NatToString(minutes) + "m";
    ReadFieldOf(hours, "h ", m, "m");
    ReadLastField(minutes, "m", "h ");
  }

  /** "Mm" reads back as one field. */
  lemma ParseMinutes(minutes: nat)
    ensures ParseDuration(NatToString(minutes) + "m") == Some(Parsed(1, Duration(0, 0, minutes)))
  {
    ReadLastField(minutes, "m", "h ");
  }

  /** The text formatDuration shows reads back as the days, hours and minutes
      of the whole seconds, in three fields when there are days, two when
      there are hours only and one otherwise. */
  lemma FormatDurationRoundTrip(x: real)
    requires x >= 0.0
    ensures var d := Breakdown(Floor(x));
      ParseDuration(FormatDuration(Finite(x))) ==
        Some(Parsed(if d.days > 0 then 3 else if d.hours > 0 then 2 else 1, d))
  {
    var d := Breakdown(Floor(x));
    if d.days > 0 {
      ParseDaysHoursMinutes(d.days, d.hours, d.minutes);
    } else if d.hours > 0 {
      ParseHoursMinutes(d.hours, d.minutes);
    } else {
      ParseMinutes(d.minutes);
    }
  }

  // ---------------------------------------------------------------------
  // The uptime meter

  function RMin(a: real, b: real): real
  {
    if a <= b then a else b
  }

  function RMax(a: real, b: real): real
  {
    if a <= b then b else a
  }

  /** setUptimeFill: the uptime clamped to [0, seven days], as a percentage
      of seven days. */
  function UptimeFillPercent(uptimeSeconds: real): (pct: real)
    ensures 0.0 <= pct <= 100.0
    ensures uptimeSeconds <= 0.0 ==> pct == 0.0
    ensures uptimeSeconds >= UptimeMeterMaxSeconds as real ==> pct == 100.0
    ensures 0.0 <= uptimeSeconds <= UptimeMeterMaxSeconds as real ==>
      pct * (UptimeMeterMaxSeconds as real) == uptimeSeconds * 100.0
  {
    var clamped := RMax(0.0, RMin(uptimeSeconds, UptimeMeterMaxSeconds as real));
    (clamped / UptimeMeterMaxSeconds as real) * 100.0
  }

  /** More uptime never shows a shorter meter. */
  lemma UptimeFillMonotone(a: real, b: real)
    requires a <= b
    ensures UptimeFillPercent(a) <= UptimeFillPercent(b)
  {
  }

  // ---------------------------------------------------------------------
  // Polling

  /** A parsed JSON value. */
  datatype Json =
    | JNull
    | JBool(b: bool)
    | JNumber(n: real)
    | JString(s: string)
    | JArray(items: seq<Json>)
    | JObject(fields: map<string, Json>)

  /** data.ok === true (and data is truthy): only an object whose "ok" is true. */
  predicate PayloadOk(data: Json)
  {
    data.JObject? && "ok" in data.fields && data.fields["ok"] == JBool(true)
  }

  /** data.uptime_seconds when it is a number. */
  function UptimeField(data: Json): Option<real>
  {
    if data.JObject? && "uptime_seconds" in data.fields && data.fields["uptime_seconds"].JNumber?
    then Some(data.fields["uptime_seconds"].n) else None
  }

  /** data.generated_at when it is a string. */
  function GeneratedAtField(data: Json): Option<string>
  {
    if data.JObject? && "generated_at" in data.fields && data.fields["generated_at"].JString?
    then Some(data.fields["generated_at"].s) else None
  }

  /** What a fetch produced: the parsed body, or the name of the error thrown
      (None when the thrown value has no name). */
  datatype FetchOutcome = Payload(data: Json) | Thrown(errorName: Option<string>)

  datatype Dot = Online | Offline

  /** The "Updated:" label: "--", or the local time of the payload's
      timestamp. */
  datatype UpdatedAt = NoTime | LocalTime(iso: string)

  /** Everything the widget shows. */
  datatype Widget = Widget(dot: Dot, title: string, subtitle: string, uptimeText: string,
                           updatedAt: UpdatedAt, fillPercent: real)

  /** formatUpdatedAt, up to the locale formatting: no time for a missing or
      empty timestamp. */
  function UpdatedLabel(generatedAt: Option<string>): (u: UpdatedAt)
    ensures u.NoTime? <==> generatedAt.None? || generatedAt.value == []
  {
    if generatedAt.None? || generatedAt.value == [] then NoTime else LocalTime(generatedAt.value)
  }

  const DefaultOfflineMessage: string := "Status endpoint unreachable"

  /** setOnline */
  function SetOnline(uptimeSeconds: real, generatedAt: Option<string>): Widget
  {
    Widget(Online, "Edge: Online", "Edge gateway responding", "Uptime: " + FormatDuration(Finite(uptimeSeconds)),
           UpdatedLabel(generatedAt), UptimeFillPercent(uptimeSeconds))
  }

  /** setOffline: an empty message is replaced by the default one, and the
      meter is emptied. */
  function SetOffline(message: string): (w: Widget)
    ensures w.dot == Offline && w.subtitle != [] && w.fillPercent == 0.0
    ensures message != [] ==> w.subtitle == message
    ensures message == [] ==> w.subtitle == DefaultOfflineMessage
  {
    Widget(Offline, "Edge: Offline", if message == [] then DefaultOfflineMessage else message, "Uptime: --",
           NoTime, UptimeFillPercent(0.0))
  }

  /** The message for a thrown error: a timeout (the abort fired) or any
      other failure. */
  function ErrorMessage(errorName: Option<string>): string
  {
    if errorName == Some("AbortError") then "Timed out" else "Fetch failed"
  }

  /** poll: online exactly when the payload's ok is true and its
      uptime_seconds is a number; an unusable payload and a failed fetch
      show offline with a reason. */
  function Poll(outcome: FetchOutcome): (w: Widget)
    ensures w.dot == Online <==>
      outcome.Payload? && PayloadOk(outcome.data) && UptimeField(outcome.data).Some?
    ensures w.dot == Online ==>
      w.uptimeText == "Uptime: " + FormatDuration(Finite(UptimeField(outcome.data).value)) &&
      w.fillPercent == UptimeFillPercent(UptimeField(outcome.data).value) &&
      w.updatedAt == UpdatedLabel(GeneratedAtField(outcome.data))
    ensures w.dot == Offline ==> w.uptimeText == "Uptime: --" && w.updatedAt == NoTime && w.fillPercent == 0.0
    ensures outcome.Payload? && w.dot == Offline ==> w.subtitle == "Invalid status payload"
    ensures outcome.Thrown? ==> w.subtitle == ErrorMessage(outcome.errorName)
  {
    match outcome
    case Thrown(name) => SetOffline(ErrorMessage(name))
    case Payload(data) =>
      var ok := PayloadOk(data);
      var uptimeSeconds := UptimeField(data);
      var generatedAt := GeneratedAtField(data);
      if !ok || uptimeSeconds.None? then SetOffline("Invalid status payload")
      else SetOnline(uptimeSeconds.value, generatedAt)
  }

  /** Only "ok", "uptime_seconds" and "generated_at" of a payload matter. */
  lemma PollIgnoresOtherFields(fields: map<string, Json>, key: string, value: Json)
    requires key != "ok" && key != "uptime_seconds" && key != "generated_at"
    ensures Poll(Payload(JObject(fields[key := value]))) == Poll(Payload(JObject(fields)))
  {
    var f := fields[key := value];
    assert ("ok" in f <==> "ok" in fields) && ("ok" in f ==> f["ok"] == fields["ok"]);
    assert ("uptime_seconds" in f <==> "uptime_seconds" in fields) &&
           ("uptime_seconds" in f ==> f["uptime_seconds"] == fields["uptime_seconds"]);
    assert ("generated_at" in f <==> "generated_at" in fields) &&
           ("generated_at" in f ==> f["generated_at"] == fields["generated_at"]);
  }

  /** An online widget with a negative uptime shows "--" and an empty meter. */
  lemma NegativeUptimeShowsNothing(uptimeSeconds: real, generatedAt: Option<string>)
    requires uptimeSeconds < 0.0
    ensures SetOnline(uptimeSeconds, generatedAt).uptimeText == "Uptime: --"
    ensures SetOnline(uptimeSeconds, generatedAt).fillPercent == 0.0
  {
  }
}
