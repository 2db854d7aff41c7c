/**
 * What the two programs write to their log files: where a line ends, what a
 * Tracking1 session leaves behind, and the walk through the menu from start.
 */
module Sessions {
  import opened Options
  import opened Clock
  import opened Duration
  import opened Text
  import opened Records
  import opened States
  import opened Engine
  import opened Transitions
  import opened Seqs

  /** No string of the run breaks a line. */
  predicate Unbroken(ws: seq<string>) {
    forall i :: 0 <= i < |ws| ==> NoLineBreak(ws[i])
  }

  /** LTB_Release_Rev0.py: one Tracking1 session's start and stop columns, timed from `t1` to `t2`. */
  function ReleaseRow(t1: Timestamp, t2: Timestamp): seq<string> {
    [ZoneField(t1.zone), StampField(t1), ZoneField(t2.zone), StampField(t2), DurationField(RelativeDelta(t1, t2))]
  }

  lemma ReleaseRowWritten(t1: Timestamp, t2: Timestamp)
    ensures EnterWrites(Release, Tracking1, t1) + ExitWrites(Release, Tracking1, Some(t1), t2) == ReleaseRow(t1, t2)
  {
    assert EnterWrites(Release, Tracking1, t1) == [ZoneField(t1.zone), StampField(t1)];
    assert ExitWrites(Release, Tracking1, Some(t1), t2) == [ZoneField(t2.zone), StampField(t2), DurationField(RelativeDelta(t1, t2))];
    TwoThenThree(ZoneField(t1.zone), StampField(t1), ZoneField(t2.zone), StampField(t2), DurationField(RelativeDelta(t1, t2)));
  }

  /** Test_Pi_SM_TimeCalcs.py: one session's date, time in, time out, field differences and note line. */
  function TimeCalcsRow(t1: Timestamp, t2: Timestamp): seq<string> {
    var d := FieldDelta(t1, t2);
    [UsDateField(t1), ClockField(t1.hour, t1.minute, t1.second),
     ClockField(t2.hour, t2.minute, t2.second), ClockField(d.hours, d.minutes, d.seconds), NoteLine]
  }

  lemma TimeCalcsRowWritten(t1: Timestamp, t2: Timestamp)
    ensures EnterWrites(TimeCalcs, Tracking1, t1) + ExitWrites(TimeCalcs, Tracking1, Some(t1), t2) == TimeCalcsRow(t1, t2)
  {
    var d := FieldDelta(t1, t2);
    assert EnterWrites(TimeCalcs, Tracking1, t1) == [UsDateField(t1), ClockField(t1.hour, t1.minute, t1.second)];
    assert ExitWrites(TimeCalcs, Tracking1, Some(t1), t2) ==
      [ClockField(t2.hour, t2.minute, t2.second), ClockField(d.hours, d.minutes, d.seconds), NoteLine];
    TwoThenThree(UsDateField(t1), ClockField(t1.hour, t1.minute, t1.second),
                 ClockField(t2.hour, t2.minute, t2.second), ClockField(d.hours, d.minutes, d.seconds), NoteLine);
  }

  /** The single writer of the note line in each program. */
  function NoteWriter(v: Variant): StateId {
    if v == TimeCalcs then Tracking1 else Record
  }

  /** No `enter` breaks a line (the zone name is assumed to hold none). */
  lemma EnterUnbroken(v: Variant, s: StateId, now: Timestamp)
    requires NoLineBreak(now.zone)
    ensures Unbroken(EnterWrites(v, s, now))
  {
    if s == Tracking1 {
      UsDateNoBreak(now);
      StampNoBreak(now);
      ClockNoBreak(now.hour, now.minute, now.second);
      ZoneFieldNoBreak(now.zone);
    }
  }

  /**
   * An `exit` breaks a line exactly when it is the note writer's: Tracking1's
   * in Test_Pi_SM_TimeCalcs.py, Record's in LTB_Release_Rev0.py; its last
   * write is then the note line. (The zone name is assumed to hold no line break.)
   */
  lemma ExitBreaksOnlyAtNote(v: Variant, s: StateId, stampIn: Option<Timestamp>, now: Timestamp)
    requires NoLineBreak(now.zone)
    ensures var w := ExitWrites(v, s, stampIn, now);
      (!Unbroken(w) <==> s == NoteWriter(v)) &&
      (s == NoteWriter(v) <==> |w| > 0 && w[|w| - 1] == NoteLine)
  {
    var w := ExitWrites(v, s, stampIn, now);
    NoteLineTerminated();
    if s == Tracking1 {
      if v == TimeCalcs {
        var d := FieldDelta(TimeIn(stampIn), now);
        ClockNoBreak(now.hour, now.minute, now.second);
        ClockNoBreak(d.hours, d.minutes, d.seconds);
        assert w[2] == NoteLine;
      } else {
        StampNoBreak(now);
        ZoneFieldNoBreak(now.zone);
        DurationNoBreak(SessionDelta(stampIn, now));
        assert Unbroken(w);
        assert w[|w| - 1] != NoteLine by {
          assert NoLineBreak(w[|w| - 1]);
        }
      }
    } else if s == Record && v == Release {
      assert w[0] == NoteLine;
    }
  }

  /**
   * LTB_Release_Rev0.py, Tracking1 then Voice Note then Home ("no note"): the
   * stop columns are appended and nothing ends the row, so the next session
   * continues the same line.
   */
  lemma NoNoteLeavesRowOpen(c: Config, t1: Timestamp, t2: Timestamp)
    requires Steady(c) && c.current == Some(Tracking1) && NoLineBreak(t1.zone)
    ensures var r1 := Press(Release, c, true, false, t1, t1);
            var r2 := Press(Release, r1.config, false, true, t2, t2);
      r2.config.current == Some(Home) &&
      r2.config.log == c.log + ExitWrites(Release, Tracking1, c.stampIn, t1) &&
      Unbroken(r2.config.log[|c.log|..])
  {
    PressA(Release, c, t1);
    var r1 := Press(Release, c, true, false, t1, t1);
    PressB(Release, r1.config, t2);
    var x := ExitWrites(Release, Tracking1, c.stampIn, t1);
    assert EnterWrites(Release, VoiceNote, t1) == [];
    assert ExitWrites(Release, VoiceNote, r1.config.stampIn, t2) == [] && EnterWrites(Release, Home, t2) == [];
    AppendEmpties(c.log, x, EnterWrites(Release, VoiceNote, t1),
                  ExitWrites(Release, VoiceNote, r1.config.stampIn, t2), EnterWrites(Release, Home, t2));
    DropPrefix(c.log, x);
    ExitBreaksOnlyAtNote(Release, Tracking1, c.stampIn, t1);
  }

  /**
   * LTB_Release_Rev0.py, a session: from Profile 1, button A at `t1` enters
   * Tracking1 and writes the start columns; button A at `t2` leaves it for
   * Voice Note and writes the stop columns with the duration from `t1` to `t2`.
   */
  lemma ReleaseSession(c: Config, t1: Timestamp, t2: Timestamp)
    requires Steady(c) && c.current == Some(Profile1)
    ensures var r1 := Press(Release, c, true, false, t1, t1);
            var r2 := Press(Release, r1.config, true, false, t2, t2);
      r1.config.current == Some(Tracking1) && r2.config.current == Some(VoiceNote) &&
      r2.config.stampIn == Some(t1) && r2.config.stampOut == Some(t2) &&
      r2.config.log == c.log + ReleaseRow(t1, t2)
  {
    PressA(Release, c, t1);
    var r1 := Press(Release, c, true, false, t1, t1);
    PressA(Release, r1.config, t2);
    var e := EnterWrites(Release, Tracking1, t1);
    var x := ExitWrites(Release, Tracking1, Some(t1), t2);
    assert ExitWrites(Release, Profile1, c.stampIn, t1) == [] && EnterWrites(Release, VoiceNote, t2) == [];
    Between(c.log, ExitWrites(Release, Profile1, c.stampIn, t1), e, x, EnterWrites(Release, VoiceNote, t2));
    ReleaseRowWritten(t1, t2);
  }

  /**
   * The duration column of a session under a day that did not run backwards
   * reads back as the unique hours:minutes:seconds split of the elapsed seconds.
   */
  lemma ReleaseSessionDuration(t1: Timestamp, t2: Timestamp, h: nat, m: nat, s: nat)
    requires 0 <= Elapsed(t1, t2) < 86400
    requires m < 60 && s < 60 && h * 3600 + m * 60 + s == Elapsed(t1, t2)
    ensures ParseDurationField(DurationField(RelativeDelta(t1, t2))) == Some((h, m, s))
  {
    RelativeDeltaUnique(t1, t2, h, m, s);
    DurationFieldRoundTrip(RelativeDelta(t1, t2));
  }

  /**
   * A session of a day or more: the duration column reads back as the time of
   * day left after whole days, which are not written.
   */
  lemma ReleaseSessionDropsDays(t1: Timestamp, t2: Timestamp)
    requires Elapsed(t1, t2) >= 0
    ensures var w := ParseDurationField(DurationField(RelativeDelta(t1, t2)));
      w.Some? && w.value.1 < 60 && w.value.2 < 60 &&
      w.value.0 * 3600 + w.value.1 * 60 + w.value.2 == Elapsed(t1, t2) % 86400
  {
    RelativeDeltaPartOfDay(t1, t2);
    DurationFieldRoundTrip(RelativeDelta(t1, t2));
  }

  /**
   * A jump to an unregistered name while in Tracking1 (LTB_Release_Rev0.py):
   * `KeyError` is raised with Tracking1 still current, yet its exit has run, so
   * no screen is high and the stop columns are in the log.
   */
  lemma UnknownNameFromTracking(c: Config, name: string, now: Timestamp)
    requires Steady(c) && c.current == Some(Tracking1) && name !in Targets
    ensures var r := GoTo(Release, c, name, now);
      r.fault == Some(KeyError(name)) && r.config.current == Some(Tracking1) && r.config.raised == {} &&
      r.config.stampIn == c.stampIn && r.config.stampOut == Some(now) &&
      r.config.log == c.log + [ZoneField(now.zone), StampField(now), DurationField(RelativeDelta(c.stampIn.value, now))]
  {
    FullRegistryIndexes(Home);
    GoToUnknown(Release, c, name, now);
  }

  /**
   * Test_Pi_SM_TimeCalcs.py, a session: the start columns are the date and time
   * of `t1`; the stop columns are the time of `t2`, the per-field differences
   * and the note line, which ends the row.
   */
  lemma TimeCalcsSession(c: Config, t1: Timestamp, t2: Timestamp)
    requires Steady(c) && c.current == Some(Profile1)
    ensures var r1 := Press(TimeCalcs, c, true, false, t1, t1);
            var r2 := Press(TimeCalcs, r1.config, true, false, t2, t2);
      r2.config.current == Some(VoiceNote) &&
      r2.config.log == c.log + TimeCalcsRow(t1, t2)
  {
    PressA(TimeCalcs, c, t1);
    var r1 := Press(TimeCalcs, c, true, false, t1, t1);
    PressA(TimeCalcs, r1.config, t2);
    var e := EnterWrites(TimeCalcs, Tracking1, t1);
    var x := ExitWrites(TimeCalcs, Tracking1, Some(t1), t2);
    assert ExitWrites(TimeCalcs, Profile1, c.stampIn, t1) == [] && EnterWrites(TimeCalcs, VoiceNote, t2) == [];
    Between(c.log, ExitWrites(TimeCalcs, Profile1, c.stampIn, t1), e, x, EnterWrites(TimeCalcs, VoiceNote, t2));
    TimeCalcsRowWritten(t1, t2);
  }

  /**
   * Both buttons down in Profile 1: the machine passes through Tracking1
   * without resting there and ends in Focus Timer 1, yet a whole start-and-stop
   * row is written, timed from the first jump to the second.
   */
  lemma BothButtonsInProfile1(c: Config, t1: Timestamp, t2: Timestamp)
    requires Steady(c) && c.current == Some(Profile1)
    ensures var r := Press(Release, c, true, true, t1, t2);
      r.config.current == Some(FocusTimer1) && r.config.log == c.log + ReleaseRow(t1, t2)
  {
    PressBoth(Release, c, t1, t2);
    var r := Press(Release, c, true, true, t1, t2);
    var e := EnterWrites(Release, Tracking1, t1);
    var x := ExitWrites(Release, Tracking1, Some(t1), t2);
    var x0 := ExitWrites(Release, Profile1, c.stampIn, t1);
    var e2 := EnterWrites(Release, FocusTimer1, t2);
    assert r.config.log == c.log + x0 + e + x + e2;
    assert x0 == [] && e2 == [];
    Between(c.log, x0, e, x, e2);
    ReleaseRowWritten(t1, t2);
  }

  /**
   * LTB_Release_Rev0.py from power-on, button A five times: Home, Profile 1,
   * Tracking1 (at `t1`), Voice Note (at `t2`), Record, Home. The file holds
   * exactly one row: start columns, stop columns and the note line.
   */
  lemma ReleaseWalkFromStart(t0: Timestamp, t1: Timestamp, t2: Timestamp, t3: Timestamp, t4: Timestamp)
    ensures var b := Boot(Release, t0);
            var r := Run(Release, b.config,
                         [Input(true, false, t0, t0), Input(true, false, t1, t1), Input(true, false, t2, t2),
                          Input(true, false, t3, t3), Input(true, false, t4, t4)]);
      r.fault.None? && r.config.current == Some(Home) && r.config.raised == {Home} &&
      r.config.log == ReleaseRow(t1, t2) + [NoteLine]
  {
    BootAtHome(Release, t0);
    var c0 := Config(Some(Home), FullRegistry, {Home}, [], None, None);
    WalkFromHome(c0, t0, t1, t2, t3, t4);
    EmptyPrefix(ReleaseRow(t1, t2), [NoteLine]);
  }

  /** From Home: button A to Profile 1, then a session, Voice Note, Record and back to Home. */
  lemma WalkFromHome(c: Config, t0: Timestamp, t1: Timestamp, t2: Timestamp, t3: Timestamp, t4: Timestamp)
    requires Steady(c) && c.current == Some(Home)
    ensures var r := Run(Release, c,
                         [Input(true, false, t0, t0), Input(true, false, t1, t1), Input(true, false, t2, t2),
                          Input(true, false, t3, t3), Input(true, false, t4, t4)]);
      r.fault.None? && r.config.current == Some(Home) && r.config.raised == {Home} &&
      r.config.log == c.log + ReleaseRow(t1, t2) + [NoteLine]
  {
    var inputs := [Input(true, false, t0, t0), Input(true, false, t1, t1), Input(true, false, t2, t2),
                   Input(true, false, t3, t3), Input(true, false, t4, t4)];
    QuietPressA(Release, c, t0);
    RunStep(Release, c, inputs);
    var c1 := Press(Release, c, true, false, t0, t0).config;
    assert inputs[1..] == [Input(true, false, t1, t1), Input(true, false, t2, t2),
                           Input(true, false, t3, t3), Input(true, false, t4, t4)];
    WalkFromProfile1(c1, t1, t2, t3, t4);
  }

  /** From Profile 1: a session from `t1` to `t2`, then Voice Note, Record and Home with the note line. */
  lemma WalkFromProfile1(c: Config, t1: Timestamp, t2: Timestamp, t3: Timestamp, t4: Timestamp)
    requires Steady(c) && c.current == Some(Profile1)
    ensures var r := Run(Release, c, [Input(true, false, t1, t1), Input(true, false, t2, t2),
                                      Input(true, false, t3, t3), Input(true, false, t4, t4)]);
      r.fault.None? && r.config.current == Some(Home) && r.config.raised == {Home} &&
      r.config.log == c.log + ReleaseRow(t1, t2) + [NoteLine]
  {
    var inputs := [Input(true, false, t1, t1), Input(true, false, t2, t2),
                   Input(true, false, t3, t3), Input(true, false, t4, t4)];
    ReleaseSession(c, t1, t2);
    PressSteady(Release, c, true, false, t1, t1);
    RunStep(Release, c, inputs);
    var c1 := Press(Release, c, true, false, t1, t1).config;
    PressSteady(Release, c1, true, false, t2, t2);
    RunStep(Release, c1, inputs[1..]);
    var c2 := Press(Release, c1, true, false, t2, t2).config;
    assert inputs[2..] == [Input(true, false, t3, t3), Input(true, false, t4, t4)];
    WalkFromVoiceNote(c2, t3, t4);
  }

  /** From Voice Note: button A to Record, button A to Home; Record's exit writes the note line. */
  lemma WalkFromVoiceNote(c: Config, t3: Timestamp, t4: Timestamp)
    requires Steady(c) && c.current == Some(VoiceNote)
    ensures var r := Run(Release, c, [Input(true, false, t3, t3), Input(true, false, t4, t4)]);
      r.fault.None? && r.config.current == Some(Home) && r.config.raised == {Home} &&
      r.config.log == c.log + [NoteLine]
  {
    var inputs := [Input(true, false, t3, t3), Input(true, false, t4, t4)];
    QuietPressA(Release, c, t3);
    RunStep(Release, c, inputs);
    var c1 := Press(Release, c, true, false, t3, t3).config;
    NotePressA(c1, t4);
    PressSteady(Release, c1, true, false, t4, t4);
    RunStep(Release, c1, inputs[1..]);
    assert inputs[1..][1..] == [];
  }

  /** Button A from a steady state whose exit and whose A target's enter write nothing: the log stays as it is. */
  lemma QuietPressA(v: Variant, c: Config, t: Timestamp)
    requires Steady(c)
    requires ExitWrites(v, c.current.value, c.stampIn, t) == [] && EnterWrites(v, MenuA(c.current.value), t) == []
    ensures var r := Press(v, c, true, false, t, t);
      Steady(r.config) && r.config.current == Some(MenuA(c.current.value)) && r.config.log == c.log
  {
    var s := c.current.value;
    TargetsNameMenu(s);
    GoToSteady(v, c, MenuA(s), t);
    Between(c.log, [], [], [], []);
  }

  /** LTB_Release_Rev0.py, button A in Record: back to Home with the note line appended. */
  lemma NotePressA(c: Config, t: Timestamp)
    requires Steady(c) && c.current == Some(Record)
    ensures var r := Press(Release, c, true, false, t, t);
      r.config.current == Some(Home) && r.config.raised == {Home} && r.config.log == c.log + [NoteLine]
  {
    GoToSteady(Release, c, Home, t);
    Between(c.log, [], [NoteLine], [], []);
  }

  /** One poll of a steady run: the rest of the run continues from the poll's configuration. */
  lemma RunStep(v: Variant, c: Config, inputs: seq<Input>)
    requires Steady(c) && inputs != []
    ensures Run(v, c, inputs) == Run(v, Press(v, c, inputs[0].switch1, inputs[0].switch2, inputs[0].now1, inputs[0].now2).config, inputs[1..])
  {
    PressSteady(v, c, inputs[0].switch1, inputs[0].switch2, inputs[0].now1, inputs[0].now2);
  }
}
