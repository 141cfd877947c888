/** Human-readable byte counts and durations, as the progress display
    prints them (`Bytes` and `Duration` in src/fmt.rs). */
module Fmt {
  import opened Base
  import opened Decimal

  // ---------------------------------------------------------------------
  // Bytes
  // ---------------------------------------------------------------------

  datatype Unit = B | KiB | MiB | GiB

  /** Bytes per unit. */
  function Scale(u: Unit): nat
  {
    match u
    case B => 1
    case KiB => 1024
    case MiB => 1024 * 1024
    case GiB => 1024 * 1024 * 1024
  }

  /** How `Bytes` is written. Counts below 2048 are written exactly, as an
      integer right-aligned in four columns followed by " B". Larger counts
      are written as a floating-point `value` in `unit`, with `precision`
      fractional digits; the digits themselves are the floating-point
      formatter's business and are not modelled. */
  datatype Rendering =
    | Plain(text: string)
    | Scaled(value: real, precision: nat, unit: Unit)

  /** The number of fractional digits for a scaled value: two below 10,
      one below 100, none otherwise. */
  function Precision(x: real): nat
  {
    if x < 10.0 then 2 else if x < 100.0 then 1 else 0
  }

  /** The display of a byte count. */
  function Bytes(n: nat): (r: Rendering)
    ensures r.Plain? <==> n < 2048
    ensures r.Scaled? ==> r.value * Scale(r.unit) as real == n as real && r.precision == Precision(r.value)
  {
    if n < 2048 then
      Plain(PadLeft(ToDecimal(n), 4, ' ') + " B")
    else if n < 2048 * 1024 then
      var kib := n as real / 1024.0;
      Scaled(kib, Precision(kib), KiB)
    else if n < 2048 * 1024 * 1024 then
      var mib := n as real / 1024.0 / 1024.0;
      Scaled(mib, Precision(mib), MiB)
    else
      var gib := n as real / 1024.0 / 1024.0 / 1024.0;
      Scaled(gib, Precision(gib), GiB)
  }

  /** The unit a count is shown in; `B` for the exact form. */
  function UnitOf(n: nat): Unit
  {
    match Bytes(n)
    case Plain(_) => B
    case Scaled(_, _, u) => u
  }

  /** Below 2048 the text is the count itself, right-aligned to four
      columns, then " B"; reading the digits back gives the count. */
  lemma {:induction false} PlainBytes(n: nat)
    requires n < 2048
    ensures Bytes(n).Plain?
    ensures var t := Bytes(n).text;
      |t| == 6 && t[4..] == " B" &&
      t[..4] == Repeat(' ', 4 - |ToDecimal(n)|) + ToDecimal(n) &&
      ValueOf(t[4 - |ToDecimal(n)|..4]) == n
  {
    TextWidth(n, 4);
    var t := Bytes(n).text;
    var p := PadLeft(ToDecimal(n), 4, ' ');
    assert t == p + " B";
    assert t[..4] == p;
    assert p == Repeat(' ', 4 - |ToDecimal(n)|) + ToDecimal(n);
    assert t[4 - |ToDecimal(n)|..4] == p[4 - |ToDecimal(n)|..] == ToDecimal(n);
  }

  /** The four units cover consecutive ranges of counts: B below 2048,
      KiB below 2048 KiB, MiB below 2048 MiB and GiB from there on. */
  lemma {:induction false} UnitRanges(n: nat)
    ensures UnitOf(n) == B <==> n < 2048
    ensures UnitOf(n) == KiB <==> 2048 <= n < 2048 * 1024
    ensures UnitOf(n) == MiB <==> 2048 * 1024 <= n < 2048 * 1024 * 1024
    ensures UnitOf(n) == GiB <==> 2048 * 1024 * 1024 <= n
  {
  }

  /** A larger count never gets a smaller unit. */
  lemma {:induction false} UnitMonotone(n: nat, m: nat)
    requires n <= m
    ensures Scale(UnitOf(n)) <= Scale(UnitOf(m))
  {
    UnitRanges(n);
    UnitRanges(m);
  }

  /** The scaled value is exactly the count divided by the unit, and it is
      at least 2; apart from GiB it stays below 2048, so its integer part
      fits the four-column field. */
  lemma {:induction false} ScaledRange(n: nat)
    requires Bytes(n).Scaled?
    ensures var r := Bytes(n);
      r.value * Scale(r.unit) as real == n as real &&
      2.0 <= r.value &&
      (r.unit != GiB ==> r.value < 2048.0)
  {
  }

  /** The precision is chosen by exact integer thresholds: two digits
      below 10 units, one below 100 units, none from 100 units on. */
  lemma {:induction false} PrecisionThresholds(n: nat)
    requires Bytes(n).Scaled?
    ensures var r := Bytes(n); var s := Scale(r.unit);
      (r.precision == 2 <==> n < 10 * s) &&
      (r.precision == 1 <==> 10 * s <= n < 100 * s) &&
      (r.precision == 0 <==> 100 * s <= n)
  {
    ScaledRange(n);
    var r := Bytes(n);
    var s := Scale(r.unit) as real;
    assert r.value < 10.0 <==> n as real < 10.0 * s;
    assert r.value < 100.0 <==> n as real < 100.0 * s;
  }

  /** Worked values of the byte display. */
  lemma {:induction false} BytesExamples()
    ensures Bytes(0) == Plain("   0 B")
    ensures Bytes(2047) == Plain("2047 B")
    ensures Bytes(2048) == Scaled(2.0, 2, KiB)
    ensures Bytes(10 * 1024) == Scaled(10.0, 1, KiB)
    ensures Bytes(100 * 1024) == Scaled(100.0, 0, KiB)
  {
    assert ToDecimal(0) == "0";
    assert ToDecimal(2047) == "2047";
  }

  // ---------------------------------------------------------------------
  // Duration
  // ---------------------------------------------------------------------

  datatype Clock = Clock(days: nat, hrs: nat, mins: nat, secs: nat)

  /** The day/hour/minute/second fields of a number of seconds. */
  function ClockOf(s: nat): (c: Clock)
    ensures c.days * 86400 + c.hrs * 3600 + c.mins * 60 + c.secs == s
    ensures c.hrs < 24 && c.mins < 60 && c.secs < 60
  {
    ClockArithmetic(s);
    Clock(s / 86400, (s / 3600) % 24, (s / 60) % 60, s % 60)
  }

  /** Dividing by 60, then 60, then 24 is dividing by 3600 and by 86400. */
  lemma {:induction false} ClockArithmetic(s: nat)
    ensures (s / 86400) * 86400 + ((s / 3600) % 24) * 3600 + ((s / 60) % 60) * 60 + s % 60 == s
  {
    var q1, r1 := s / 60, s % 60;
    var q2, r2 := q1 / 60, q1 % 60;
    var q3, r3 := q2 / 24, q2 % 24;
    assert s == 3600 * q2 + (60 * r2 + r1);
    assert q2 == s / 3600;
    assert s == 86400 * q3 + (3600 * r3 + 60 * r2 + r1);
    assert q3 == s / 86400;
  }

  /** The text of a clock reading: `m:ss` under an hour, `h:mm:ss` under a
      day, `d:hh:mm:ss` otherwise; leading field unpadded, the others two
      digits. It reads back as the seconds the reading stands for. */
  function ClockText(c: Clock): (r: string)
    requires c.hrs < 24 && c.mins < 60 && c.secs < 60
    ensures ParseDuration(r) == Some(c.days * 86400 + c.hrs * 3600 + c.mins * 60 + c.secs)
  {
    if c.days == 0 && c.hrs == 0 then
      Parse2(c.mins, c.secs);
      ToDecimal(c.mins) + ":" + Pad2(c.secs)
    else if c.days == 0 then
      Parse3(c.hrs, c.mins, c.secs);
      ToDecimal(c.hrs) + ":" + Pad2(c.mins) + ":" + Pad2(c.secs)
    else
      Parse4(c.days, c.hrs, c.mins, c.secs);
      ToDecimal(c.days) + ":" + Pad2(c.hrs) + ":" + Pad2(c.mins) + ":" + Pad2(c.secs)
  }

  /** The display of a duration in seconds: the text of its clock reading. */
  function Duration(s: nat): (r: string)
    ensures ParseDuration(r) == Some(s)
  {
    ClockText(ClockOf(s))
  }

  /** A two-digit field whose value is below `bound`. */
  predicate TwoDigits(f: string, bound: nat)
  {
    |f| == 2 && AllDigits(f) && ValueOf(f) < bound
  }

  /** Reads a `Duration` text back into seconds: the colon-separated
      fields, the first any number of digits, the others two digits within
      their range. */
  function ParseDuration(t: string): Option<nat>
  {
    ParseFields(Split(t, ':'))
  }

  /** The seconds denoted by the colon-separated fields of a duration. */
  function ParseFields(f: seq<string>): Option<nat>
  {
    if |f| < 2 || |f| > 4 || !(|f[0]| > 0 && AllDigits(f[0])) then None
    else if |f| == 2 then
      if TwoDigits(f[1], 60) then Some(ValueOf(f[0]) * 60 + ValueOf(f[1])) else None
    else if |f| == 3 then
      if TwoDigits(f[1], 60) && TwoDigits(f[2], 60) then
        Some(ValueOf(f[0]) * 3600 + ValueOf(f[1]) * 60 + ValueOf(f[2]))
      else None
    else if TwoDigits(f[1], 24) && TwoDigits(f[2], 60) && TwoDigits(f[3], 60) then
      Some(ValueOf(f[0]) * 86400 + ValueOf(f[1]) * 3600 + ValueOf(f[2]) * 60 + ValueOf(f[3]))
    else None
  }

  /** Which fields are shown depends on the seconds alone: days and hours
      are both zero below an hour, days alone below a day. */
  lemma {:induction false} ClockRanges(s: nat)
    ensures s < 3600 <==> ClockOf(s).days == 0 && ClockOf(s).hrs == 0
    ensures s < 86400 <==> ClockOf(s).days == 0
  {
  }

  lemma {:induction false} Fields2(a: string, b: string)
    requires ':' !in a && ':' !in b
    ensures Split(a + ":" + b, ':') == [a, b]
  {
    assert a + ":" + b == a + [':'] + b;
    SplitAppend(a, ':', b);
    SplitNoSep(b, ':');
  }

  lemma {:induction false} Fields3(a: string, b: string, c: string)
    requires ':' !in a && ':' !in b && ':' !in c
    ensures Split(a + ":" + b + ":" + c, ':') == [a, b, c]
  {
    assert a + ":" + b + ":" + c == a + [':'] + (b + ":" + c);
    SplitAppend(a, ':', b + ":" + c);
    Fields2(b, c);
  }

  lemma {:induction false} Fields4(a: string, b: string, c: string, d: string)
    requires ':' !in a && ':' !in b && ':' !in c && ':' !in d
    ensures Split(a + ":" + b + ":" + c + ":" + d, ':') == [a, b, c, d]
  {
    assert a + ":" + b + ":" + c + ":" + d == a + [':'] + (b + ":" + c + ":" + d);
    SplitAppend(a, ':', b + ":" + c + ":" + d);
    Fields3(b, c, d);
  }

  /** The colon fields of `Duration(s)`. */
  lemma {:induction false} DurationFields(s: nat)
    ensures var c := ClockOf(s); var f := Split(Duration(s), ':');
      if s < 3600 then f == [ToDecimal(c.mins), Pad2(c.secs)]
      else if s < 86400 then f == [ToDecimal(c.hrs), Pad2(c.mins), Pad2(c.secs)]
      else f == [ToDecimal(c.days), Pad2(c.hrs), Pad2(c.mins), Pad2(c.secs)]
  {
    var c := ClockOf(s);
    ClockRanges(s);
    if s < 3600 {
      Fields2(ToDecimal(c.mins), Pad2(c.secs));
    } else if s < 86400 {
      Fields3(ToDecimal(c.hrs), Pad2(c.mins), Pad2(c.secs));
    } else {
      Fields4(ToDecimal(c.days), Pad2(c.hrs), Pad2(c.mins), Pad2(c.secs));
    }
  }

  /** The layout has two fields below an hour, three below a day and four
      from a day on. */
  lemma {:induction false} DurationLayout(s: nat)
    ensures |Split(Duration(s), ':')| == if s < 3600 then 2 else if s < 86400 then 3 else 4
  {
    DurationFields(s);
  }

  /** The `m:ss` text reads back as its seconds. */
  lemma {:induction false} Parse2(m: nat, sec: nat)
    requires sec < 60
    ensures ParseDuration(ToDecimal(m) + ":" + Pad2(sec)) == Some(m * 60 + sec)
  {
    Fields2(ToDecimal(m), Pad2(sec));
  }

  /** The `h:mm:ss` text reads back as its seconds. */
  lemma {:induction false} Parse3(h: nat, m: nat, sec: nat)
    requires m < 60 && sec < 60
    ensures ParseDuration(ToDecimal(h) + ":" + Pad2(m) + ":" + Pad2(sec)) == Some(h * 3600 + m * 60 + sec)
  {
    Fields3(ToDecimal(h), Pad2(m), Pad2(sec));
  }

  /** The `d:hh:mm:ss` text reads back as its seconds. */
  lemma {:induction false} Parse4(d: nat, h: nat, m: nat, sec: nat)
    requires h < 24 && m < 60 && sec < 60
    ensures ParseDuration(ToDecimal(d) + ":" + Pad2(h) + ":" + Pad2(m) + ":" + Pad2(sec)) ==
      Some(d * 86400 + h * 3600 + m * 60 + sec)
  {
    Fields4(ToDecimal(d), Pad2(h), Pad2(m), Pad2(sec));
  }

  /** Worked values below an hour: minutes, then two-digit seconds. */
  lemma {:induction false} DurationExamplesMinutes()
    ensures Duration(59) == "0:59"
    ensures Duration(3599) == "59:59"
  {
    assert ToDecimal(0) == "0" && ToDecimal(59) == "59";
    assert Pad2(59) == "59";
    assert ClockOf(59) == Clock(0, 0, 0, 59);
    assert ClockText(Clock(0, 0, 0, 59)) == "0:59";
    assert ClockOf(3599) == Clock(0, 0, 59, 59);
    assert ClockText(Clock(0, 0, 59, 59)) == "59:59";
  }

  /** Worked values at one hour and at one day. */
  lemma {:induction false} DurationExamplesHoursDays()
    ensures Duration(3600) == "1:00:00"
    ensures Duration(86400) == "1:00:00:00"
  {
    assert ToDecimal(1) == "1";
    assert Pad2(0) == "00";
    assert ClockOf(3600) == Clock(0, 1, 0, 0);
    assert ClockText(Clock(0, 1, 0, 0)) == "1:00:00";
    assert ClockOf(86400) == Clock(1, 0, 0, 0);
    assert ClockText(Clock(1, 0, 0, 0)) == "1:00:00:00";
  }
}
