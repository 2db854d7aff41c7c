/**
 * The text the two programs append to their log files. Each function is the
 * argument of one `f.write` call.
 */
module Records {
  import opened Options
  import opened Clock
  import opened Duration
  import opened Text
  import opened Seqs

  /** The note-marker line; the only text either program terminates with a line break. */
  const NoteLine: string := "'Speech to text voice note'\r\n"

  // ---- Test_Pi_SM_TimeCalcs.py ----

  /** `"%d/%d/%d, " % (month, day, year)`: the U.S.-style date of a Tracking1 entry. */
  function UsDateField(t: Timestamp): string {
    NatToString(t.month) + "/" + NatToString(t.day) + "/" + NatToString(t.year) + ", "
  }

  /** `"%d:%02d:%02d, " % (h, m, s)`: a time of day or a per-field duration. */
  function ClockField(h: int, m: int, s: int): string {
    IntToString(h) + ":" + Int02(m) + ":" + Int02(s) + ", "
  }

  // ---- LTB_Release_Rev0.py ----

  /** `"%s," % tzname`: the time-zone column. */
  function ZoneField(zone: string): string {
    zone + ","
  }

  /** `str(date.today())`: ISO 8601, year zero-filled to four digits, month and day to two. */
  function IsoDate(t: Timestamp): string {
    Padded(t.year, 4) + "-" + Padded(t.month, 2) + "-" + Padded(t.day, 2)
  }

  /** `str(today) + '_' + str(hour) + ':' + str(minute) + ":" + str(second) + ","`: no zero fill on the time. */
  function StampField(t: Timestamp): string {
    IsoDate(t) + "_" + NatToString(t.hour) + ":" + NatToString(t.minute) + ":" + NatToString(t.second) + ","
  }

  /** `"%d:%d:%02d," % (hours, minutes, seconds)`: the relativedelta's days are not written. */
  function DurationField(d: Delta): string {
    IntToString(d.hours) + ":" + IntToString(d.minutes) + ":" + Int02(d.seconds) + ","
  }

  // ---- line breaks ----

  lemma NoteLineTerminated()
    ensures |NoteLine| >= 2 && NoteLine[|NoteLine| - 2..] == "\r\n"
    ensures !NoLineBreak(NoteLine)
  {
    assert NoteLine[|NoteLine| - 1] == '\n';
  }

  lemma NoBreakConcat(a: string, b: string)
    requires NoLineBreak(a) && NoLineBreak(b)
    ensures NoLineBreak(a + b)
  {
  }

  lemma NatNoBreak(n: nat)
    ensures NoLineBreak(NatToString(n))
  {
    AllDigitsNoLineBreak(NatToString(n));
  }

  lemma PaddedNoBreak(n: nat, w: nat)
    ensures NoLineBreak(Padded(n, w))
  {
    AllDigitsNoLineBreak(Padded(n, w));
  }

  lemma UsDateNoBreak(t: Timestamp)
    ensures NoLineBreak(UsDateField(t))
  {
    NatNoBreak(t.month);
    NatNoBreak(t.day);
    NatNoBreak(t.year);
    NoBreakConcat(NatToString(t.month), "/");
    NoBreakConcat(NatToString(t.month) + "/", NatToString(t.day));
    NoBreakConcat(NatToString(t.month) + "/" + NatToString(t.day), "/");
    NoBreakConcat(NatToString(t.month) + "/" + NatToString(t.day) + "/", NatToString(t.year));
    NoBreakConcat(NatToString(t.month) + "/" + NatToString(t.day) + "/" + NatToString(t.year), ", ");
  }

  lemma ClockNoBreak(h: int, m: int, s: int)
    ensures NoLineBreak(ClockField(h, m, s))
  {
    NoBreakConcat(IntToString(h), ":");
    NoBreakConcat(IntToString(h) + ":", Int02(m));
    NoBreakConcat(IntToString(h) + ":" + Int02(m), ":");
    NoBreakConcat(IntToString(h) + ":" + Int02(m) + ":", Int02(s));
    NoBreakConcat(IntToString(h) + ":" + Int02(m) + ":" + Int02(s), ", ");
  }

  lemma StampNoBreak(t: Timestamp)
    ensures NoLineBreak(StampField(t))
  {
    PaddedNoBreak(t.year, 4);
    PaddedNoBreak(t.month, 2);
    PaddedNoBreak(t.day, 2);
    NatNoBreak(t.hour);
    NatNoBreak(t.minute);
    NatNoBreak(t.second);
    var y, mo, d := Padded(t.year, 4), Padded(t.month, 2), Padded(t.day, 2);
    NoBreakConcat(y, "-");
    NoBreakConcat(y + "-", mo);
    NoBreakConcat(y + "-" + mo, "-");
    NoBreakConcat(y + "-" + mo + "-", d);
    var date := IsoDate(t);
    var h, m, s := NatToString(t.hour), NatToString(t.minute), NatToString(t.second);
    NoBreakConcat(date, "_");
    NoBreakConcat(date + "_", h);
    NoBreakConcat(date + "_" + h, ":");
    NoBreakConcat(date + "_" + h + ":", m);
    NoBreakConcat(date + "_" + h + ":" + m, ":");
    NoBreakConcat(date + "_" + h + ":" + m + ":", s);
    NoBreakConcat(date + "_" + h + ":" + m + ":" + s, ",");
  }

  lemma DurationNoBreak(d: Delta)
    ensures NoLineBreak(DurationField(d))
  {
    var h, m, s := IntToString(d.hours), IntToString(d.minutes), Int02(d.seconds);
    NoBreakConcat(h, ":");
    NoBreakConcat(h + ":", m);
    NoBreakConcat(h + ":" + m, ":");
    NoBreakConcat(h + ":" + m + ":", s);
    NoBreakConcat(h + ":" + m + ":" + s, ",");
  }

  /** The time-zone column breaks a line only when the zone name does. */
  lemma ZoneFieldNoBreak(zone: string)
    ensures NoLineBreak(ZoneField(zone)) <==> NoLineBreak(zone)
  {
    var f := ZoneField(zone);
    if NoLineBreak(f) {
      forall i | 0 <= i < |zone| ensures zone[i] != '\n' && zone[i] != '\r' {
        assert zone[i] == f[i];
      }
    }
  }

  // ---- reading an h:m:s column back ----

  function IndexOf(s: string, c: char): (i: nat)
    requires c in s
    ensures i < |s| && s[i] == c && c !in s[..i]
  {
    if s[0] == c then 0 else 1 + IndexOf(s[1..], c)
  }

  /** `s.split(sep)`. */
  function Split(s: string, sep: char): (parts: seq<string>)
    ensures |parts| > 0
    decreases |s|
  {
    if sep !in s then [s]
    else
      var i := IndexOf(s, sep);
      [s[..i]] + Split(s[i + 1..], sep)
  }

  lemma {:induction false} IndexOfAfter(a: string, c: char, b: string)
    requires c !in a
    ensures IndexOf(a + [c] + b, c) == |a|
  {
    if a != [] {
      assert (a + [c] + b)[1..] == a[1..] + [c] + b;
      IndexOfAfter(a[1..], c, b);
    }
  }

  lemma SplitAfter(a: string, sep: char, b: string)
    requires sep !in a
    ensures Split(a + [sep] + b, sep) == [a] + Split(b, sep)
  {
    var s := a + [sep] + b;
    assert s[|a|] == sep;
    IndexOfAfter(a, sep, b);
    assert s[..|a|] == a;
    assert s[|a| + 1..] == b;
  }

  /** Reads `"<x><sep><y><sep><z>"` of three digit strings, such as `"9:5:07"` or `"2024-03-09"`. */
  function ParseTriple(body: string, sep: char): Option<(nat, nat, nat)> {
    var parts := Split(body, sep);
    if |parts| == 3 && AllDigits(parts[0]) && AllDigits(parts[1]) && AllDigits(parts[2])
    then Some((ParseNat(parts[0]), ParseNat(parts[1]), ParseNat(parts[2])))
    else None
  }

  /** Reads a duration column such as `"1:5:07,"` back. */
  function ParseDurationField(f: string): Option<(nat, nat, nat)> {
    if |f| > 0 && f[|f| - 1] == ',' then ParseTriple(f[..|f| - 1], ':') else None
  }

  /** Reads a Test_Pi_SM_TimeCalcs.py time column such as `"9:05:07, "` back. */
  function ParseClockField(f: string): Option<(nat, nat, nat)> {
    if |f| > 1 && f[|f| - 2..] == ", " then ParseTriple(f[..|f| - 2], ':') else None
  }

  /** Reads a Test_Pi_SM_TimeCalcs.py date column such as `"3/9/2024, "` back as (month, day, year). */
  function ParseUsDateField(f: string): Option<(nat, nat, nat)> {
    if |f| > 1 && f[|f| - 2..] == ", " then ParseTriple(f[..|f| - 2], '/') else None
  }

  /**
   * Reads an LTB_Release_Rev0.py stamp column such as `"2024-03-09_9:5:7,"`
   * back as ((year, month, day), (hour, minute, second)).
   */
  function ParseStampField(f: string): Option<((nat, nat, nat), (nat, nat, nat))> {
    if |f| > 0 && f[|f| - 1] == ',' then
      var parts := Split(f[..|f| - 1], '_');
      if |parts| == 2 then
        match (ParseTriple(parts[0], '-'), ParseTriple(parts[1], ':'))
        case (Some(date), Some(time)) => Some((date, time))
        case _ => None
      else None
    else None
  }

  lemma DigitsLack(s: string, c: char)
    requires AllDigits(s) && !IsDigit(c)
    ensures c !in s
  {
  }

  lemma SplitThree(x: string, y: string, z: string, sep: char)
    requires sep !in x && sep !in y && sep !in z
    ensures Split(x + [sep] + y + [sep] + z, sep) == [x, y, z]
  {
    Regroup(x, sep, y, sep, z);
    SplitAfter(x, sep, y + [sep] + z);
    SplitAfter(y, sep, z);
  }

  lemma ParseTripleOf(x: string, y: string, z: string, sep: char)
    requires AllDigits(x) && AllDigits(y) && AllDigits(z) && !IsDigit(sep)
    ensures ParseTriple(x + [sep] + y + [sep] + z, sep) == Some((ParseNat(x), ParseNat(y), ParseNat(z)))
  {
    DigitsLack(x, sep);
    DigitsLack(y, sep);
    DigitsLack(z, sep);
    SplitThree(x, y, z, sep);
  }

  /** A non-negative duration column reads back as the hours, minutes and seconds written. */
  lemma DurationFieldRoundTrip(d: Delta)
    requires d.hours >= 0 && d.minutes >= 0 && d.seconds >= 0
    ensures ParseDurationField(DurationField(d)) == Some((d.hours as nat, d.minutes as nat, d.seconds as nat))
  {
    var x, y, z := NatToString(d.hours), NatToString(d.minutes), Padded(d.seconds, 2);
    var f := DurationField(d);
    assert f == x + ":" + y + ":" + z + ",";
    assert f[..|f| - 1] == x + [':'] + y + [':'] + z;
    ParseTripleOf(x, y, z, ':');
    NatToStringRoundTrip(d.hours);
    NatToStringRoundTrip(d.minutes);
    PaddedRoundTrip(d.seconds, 2);
  }

  /** A non-negative Test_Pi_SM_TimeCalcs.py time column reads back as the fields written. */
  lemma ClockFieldRoundTrip(h: int, m: int, s: int)
    requires h >= 0 && m >= 0 && s >= 0
    ensures ParseClockField(ClockField(h, m, s)) == Some((h as nat, m as nat, s as nat))
  {
    var x, y, z := NatToString(h), Padded(m, 2), Padded(s, 2);
    var f := ClockField(h, m, s);
    assert f == x + ":" + y + ":" + z + ", ";
    assert f[..|f| - 2] == x + [':'] + y + [':'] + z;
    ParseTripleOf(x, y, z, ':');
    NatToStringRoundTrip(h);
    PaddedRoundTrip(m, 2);
    PaddedRoundTrip(s, 2);
  }

  /** A Test_Pi_SM_TimeCalcs.py date column reads back as the month, day and year written. */
  lemma UsDateFieldRoundTrip(t: Timestamp)
    ensures ParseUsDateField(UsDateField(t)) == Some((t.month, t.day, t.year))
  {
    var x, y, z := NatToString(t.month), NatToString(t.day), NatToString(t.year);
    var f := UsDateField(t);
    assert f == x + "/" + y + "/" + z + ", ";
    assert f[..|f| - 2] == x + ['/'] + y + ['/'] + z;
    ParseTripleOf(x, y, z, '/');
    NatToStringRoundTrip(t.month);
    NatToStringRoundTrip(t.day);
    NatToStringRoundTrip(t.year);
  }

  /** The ISO date reads back as the year, month and day, and holds no `_`. */
  lemma IsoDateRoundTrip(t: Timestamp)
    ensures ParseTriple(IsoDate(t), '-') == Some((t.year, t.month, t.day))
    ensures '_' !in IsoDate(t)
  {
    var x, y, z := Padded(t.year, 4), Padded(t.month, 2), Padded(t.day, 2);
    assert IsoDate(t) == x + ['-'] + y + ['-'] + z;
    ParseTripleOf(x, y, z, '-');
    PaddedRoundTrip(t.year, 4);
    PaddedRoundTrip(t.month, 2);
    PaddedRoundTrip(t.day, 2);
    DigitsLack(x, '_');
    DigitsLack(y, '_');
    DigitsLack(z, '_');
  }

  /** The time part of a stamp column: three plain numbers that hold no `_`. */
  lemma StampTimeRoundTrip(h: nat, m: nat, sec: nat)
    ensures var time := NatToString(h) + [':'] + NatToString(m) + [':'] + NatToString(sec);
      '_' !in time && ParseTriple(time, ':') == Some((h, m, sec))
  {
    var x, y, z := NatToString(h), NatToString(m), NatToString(sec);
    DigitsLack(x, '_');
    DigitsLack(y, '_');
    DigitsLack(z, '_');
    ParseTripleOf(x, y, z, ':');
    NatToStringRoundTrip(h);
    NatToStringRoundTrip(m);
    NatToStringRoundTrip(sec);
  }

  lemma SplitTwo(a: string, b: string, sep: char)
    requires sep !in a && sep !in b
    ensures Split(a + [sep] + b, sep) == [a, b]
  {
    SplitAfter(a, sep, b);
  }

  /** A stamp column is the date, `_`, the unpadded time and a comma. */
  lemma StampFieldShape(t: Timestamp)
    ensures StampField(t) ==
      IsoDate(t) + ['_'] + (NatToString(t.hour) + [':'] + NatToString(t.minute) + [':'] + NatToString(t.second)) + [',']
  {
  }

  /** An LTB_Release_Rev0.py stamp column reads back as the date and the time written. */
  lemma StampFieldRoundTrip(t: Timestamp)
    ensures ParseStampField(StampField(t)) == Some(((t.year, t.month, t.day), (t.hour, t.minute, t.second)))
  {
    var date := IsoDate(t);
    var time := NatToString(t.hour) + [':'] + NatToString(t.minute) + [':'] + NatToString(t.second);
    var body := date + ['_'] + time;
    StampFieldShape(t);
    DropLast(body, ',');
    IsoDateRoundTrip(t);
    StampTimeRoundTrip(t.hour, t.minute, t.second);
    SplitTwo(date, time, '_');
  }
}
