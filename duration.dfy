/**
 * The two ways the programs compute how long a Tracking1 session lasted:
 * per-field subtraction without borrow (Test_Pi_SM_TimeCalcs.py) and
 * `dateutil.relativedelta` of the two readings (LTB_Release_Rev0.py).
 */
module Duration {
  import opened Clock

  /** A signed duration split the way `relativedelta` splits it. */
  datatype Delta = Delta(days: int, hours: int, minutes: int, seconds: int)

  /** The seconds a delta stands for. */
  function Total(d: Delta): int {
    d.days * 86400 + d.hours * 3600 + d.minutes * 60 + d.seconds
  }

  /** Every field has the sign of `s` or is zero. */
  predicate SignedLike(d: Delta, s: int) {
    (s >= 0 ==> d.days >= 0 && d.hours >= 0 && d.minutes >= 0 && d.seconds >= 0) &&
    (s <= 0 ==> d.days <= 0 && d.hours <= 0 && d.minutes <= 0 && d.seconds <= 0)
  }

  /**
   * One step of `relativedelta._fix`: when the magnitude of `value` exceeds
   * `base - 1`, the whole multiples of `base` are carried to the next field
   * and the rest kept, both with the sign of `value`.
   */
  function Carry(value: int, base: nat): (r: (int, int))
    requires base > 0
    ensures r.0 * base + r.1 == value
    ensures -(base as int) < r.1 < base
    ensures value >= 0 ==> r.0 >= 0 && r.1 >= 0
    ensures value <= 0 ==> r.0 <= 0 && r.1 <= 0
  {
    if value > base - 1 then (value / base, value % base)
    else if value < -(base - 1) then (-((-value) / base), -((-value) % base))
    else (0, value)
  }

  /** `relativedelta._fix` on the day, hour, minute and second fields. */
  function Fix(d: Delta): Delta {
    var (c1, s) := Carry(d.seconds, 60);
    var (c2, m) := Carry(d.minutes + c1, 60);
    var (c3, h) := Carry(d.hours + c2, 24);
    Delta(d.days + c3, h, m, s)
  }

  /** `Fix` keeps the total and leaves the hour, minute and second fields in range. */
  lemma FixNormalises(d: Delta)
    requires SignedLike(d, Total(d))
    ensures Total(Fix(d)) == Total(d)
    ensures SignedLike(Fix(d), Total(d))
    ensures -24 < Fix(d).hours < 24 && -60 < Fix(d).minutes < 60 && -60 < Fix(d).seconds < 60
  {
    var (c1, s) := Carry(d.seconds, 60);
    var (c2, m) := Carry(d.minutes + c1, 60);
    var (c3, h) := Carry(d.hours + c2, 24);
    calc {
      Total(Fix(d));
      (d.days + c3) * 86400 + h * 3600 + m * 60 + s;
      d.days * 86400 + (c3 * 24 + h) * 3600 + m * 60 + s;
      d.days * 86400 + (d.hours + c2) * 3600 + m * 60 + s;
      d.days * 86400 + d.hours * 3600 + (c2 * 60 + m) * 60 + s;
      d.days * 86400 + d.hours * 3600 + (d.minutes + c1) * 60 + s;
      d.days * 86400 + d.hours * 3600 + d.minutes * 60 + (c1 * 60 + s);
      Total(d);
    }
  }

  /**
   * `relativedelta(tout, tin)` for two readings: the whole-second difference is
   * loaded into the seconds field and normalised. `days` also holds what
   * `relativedelta` would move on into months and years.
   */
  function RelativeDelta(tin: Timestamp, tout: Timestamp): (r: Delta)
    ensures Total(r) == Elapsed(tin, tout)
    ensures SignedLike(r, Elapsed(tin, tout))
    ensures -24 < r.hours < 24 && -60 < r.minutes < 60 && -60 < r.seconds < 60
  {
    var raw := Delta(0, 0, 0, Elapsed(tin, tout));
    FixNormalises(raw);
    Fix(raw)
  }

  /** Under a day and not backwards: no days, every written field non-negative and in range. */
  lemma RelativeDeltaWithinDay(tin: Timestamp, tout: Timestamp)
    requires 0 <= Elapsed(tin, tout) < 86400
    ensures RelativeDelta(tin, tout).days == 0
    ensures var r := RelativeDelta(tin, tout);
      0 <= r.hours < 24 && 0 <= r.minutes < 60 && 0 <= r.seconds < 60 &&
      r.hours * 3600 + r.minutes * 60 + r.seconds == Elapsed(tin, tout)
  {
  }

  /** A positive multiple of a positive base is at least the base. */
  lemma MulAtLeast(k: int, b: int)
    requires k >= 1 && b > 0
    ensures k * b >= b
  {
  }

  /** Quotient and remainder by a positive base are unique. */
  lemma DivModUnique(q1: int, r1: int, q2: int, r2: int, b: int)
    requires b > 0 && 0 <= r1 < b && 0 <= r2 < b
    requires q1 * b + r1 == q2 * b + r2
    ensures q1 == q2 && r1 == r2
  {
    assert (q1 - q2) * b == r2 - r1;
    if q1 > q2 {
      MulAtLeast(q1 - q2, b);
    } else if q1 < q2 {
      MulAtLeast(q2 - q1, b);
    }
  }

  /**
   * The written hours:minutes:seconds are the only normalised split of the
   * elapsed time: any other split with minutes and seconds in [0, 59] that adds
   * up to the same seconds is the same one.
   */
  lemma RelativeDeltaUnique(tin: Timestamp, tout: Timestamp, h: int, m: int, s: int)
    requires 0 <= Elapsed(tin, tout) < 86400
    requires 0 <= m < 60 && 0 <= s < 60
    requires h * 3600 + m * 60 + s == Elapsed(tin, tout)
    ensures RelativeDelta(tin, tout) == Delta(0, h, m, s)
  {
    var r := RelativeDelta(tin, tout);
    RelativeDeltaWithinDay(tin, tout);
    assert (h * 60 + m) * 60 + s == (r.hours * 60 + r.minutes) * 60 + r.seconds;
    DivModUnique(h * 60 + m, s, r.hours * 60 + r.minutes, r.seconds, 60);
    DivModUnique(h, m, r.hours, r.minutes, 60);
  }

  /**
   * A session of a day or more, not backwards: the hours, minutes and seconds
   * fields hold only what is left over after whole days.
   */
  lemma RelativeDeltaPartOfDay(tin: Timestamp, tout: Timestamp)
    requires Elapsed(tin, tout) >= 0
    ensures var r := RelativeDelta(tin, tout);
      0 <= r.hours < 24 && 0 <= r.minutes < 60 && 0 <= r.seconds < 60 &&
      r.days == Elapsed(tin, tout) / 86400 &&
      r.hours * 3600 + r.minutes * 60 + r.seconds == Elapsed(tin, tout) % 86400
  {
    var r := RelativeDelta(tin, tout);
    var e := Elapsed(tin, tout);
    var rest := r.hours * 3600 + r.minutes * 60 + r.seconds;
    assert r.days * 86400 + rest == e;
    assert 0 <= rest < 86400;
    assert (e / 86400) * 86400 + e % 86400 == e;
    DivModUnique(r.days, rest, e / 86400, e % 86400, 86400);
  }

  /**
   * Test_Pi_SM_TimeCalcs.py's duration: each clock field of the out reading
   * minus the same field of the in reading, with no borrow, so a field may be
   * negative. The fields still add up to the elapsed seconds of the day.
   */
  function FieldDelta(tin: Timestamp, tout: Timestamp): (r: Delta)
    ensures r.days == 0
    ensures r.hours * 3600 + r.minutes * 60 + r.seconds == SecondOfDay(tout) - SecondOfDay(tin)
  {
    Delta(0, tout.hour - tin.hour, tout.minute - tin.minute, tout.second - tin.second)
  }

  /**
   * The per-field hours are in [0, 23], minutes and seconds in [0, 59], exactly
   * when no field of time out is below time in's (no borrow would be needed).
   */
  lemma FieldDeltaInRangeIff(tin: Timestamp, tout: Timestamp)
    requires IsTimeOfDay(tin) && IsTimeOfDay(tout)
    ensures (0 <= FieldDelta(tin, tout).hours < 24 &&
             0 <= FieldDelta(tin, tout).minutes < 60 && 0 <= FieldDelta(tin, tout).seconds < 60)
        <==> (tin.hour <= tout.hour && tin.minute <= tout.minute && tin.second <= tout.second)
  {
  }

  /**
   * Where no borrow is needed and the session stays within one day, the two
   * programs write the same hours, minutes and seconds.
   */
  lemma FieldDeltaAgreesWithoutBorrow(tin: Timestamp, tout: Timestamp)
    requires IsTimeOfDay(tin) && IsTimeOfDay(tout) && SameDate(tin, tout)
    requires tin.hour <= tout.hour && tin.minute <= tout.minute && tin.second <= tout.second
    ensures RelativeDelta(tin, tout) == FieldDelta(tin, tout)
  {
    var f := FieldDelta(tin, tout);
    RelativeDeltaUnique(tin, tout, f.hours, f.minutes, f.seconds);
  }

  /** Readings on one day, 10:15:30 to 10:15:45: both programs give 0:0:15. */
  lemma ExampleNoBorrow()
    ensures var tin := Timestamp(2022, 4, 18, 10, 15, 30, "PDT");
            var tout := Timestamp(2022, 4, 18, 10, 15, 45, "PDT");
            RelativeDelta(tin, tout) == Delta(0, 0, 0, 15) && FieldDelta(tin, tout) == Delta(0, 0, 0, 15)
  {
    var tin := Timestamp(2022, 4, 18, 10, 15, 30, "PDT");
    var tout := Timestamp(2022, 4, 18, 10, 15, 45, "PDT");
    assert Elapsed(tin, tout) == 15;
    RelativeDeltaUnique(tin, tout, 0, 0, 15);
  }

  /**
   * 10:15:45 to 10:16:05: `relativedelta` borrows and gives 0:0:20, while the
   * per-field subtraction gives 0 hours, 1 minute and -40 seconds.
   */
  lemma ExampleSecondsBorrow()
    ensures var tin := Timestamp(2022, 4, 18, 10, 15, 45, "PDT");
            var tout := Timestamp(2022, 4, 18, 10, 16, 5, "PDT");
            RelativeDelta(tin, tout) == Delta(0, 0, 0, 20) && FieldDelta(tin, tout) == Delta(0, 0, 1, -40)
  {
    var tin := Timestamp(2022, 4, 18, 10, 15, 45, "PDT");
    var tout := Timestamp(2022, 4, 18, 10, 16, 5, "PDT");
    RelativeDeltaUnique(tin, tout, 0, 0, 20);
  }

  /** 9:59:59 to 10:00:01: 0:0:2 with borrow across the hour, 1:-59:-58 without. */
  lemma ExampleHourBorrow()
    ensures var tin := Timestamp(2022, 4, 18, 9, 59, 59, "PDT");
            var tout := Timestamp(2022, 4, 18, 10, 0, 1, "PDT");
            RelativeDelta(tin, tout) == Delta(0, 0, 0, 2) && FieldDelta(tin, tout) == Delta(0, 1, -59, -58)
  {
    var tin := Timestamp(2022, 4, 18, 9, 59, 59, "PDT");
    var tout := Timestamp(2022, 4, 18, 10, 0, 1, "PDT");
    RelativeDeltaUnique(tin, tout, 0, 0, 2);
  }

  /** 23:30:00 to 00:15:10 the next day: `relativedelta` gives 0:45:10, the field difference -23:-15:10. */
  lemma ExampleMidnight()
    ensures var tin := Timestamp(2022, 4, 18, 23, 30, 0, "PDT");
            var tout := Timestamp(2022, 4, 19, 0, 15, 10, "PDT");
            RelativeDelta(tin, tout) == Delta(0, 0, 45, 10) && FieldDelta(tin, tout) == Delta(0, -23, -15, 10)
  {
    var tin := Timestamp(2022, 4, 18, 23, 30, 0, "PDT");
    var tout := Timestamp(2022, 4, 19, 0, 15, 10, "PDT");
    ElapsedAcrossMidnight(tin, tout);
    RelativeDeltaUnique(tin, tout, 0, 45, 10);
  }
}
