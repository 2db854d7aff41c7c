/**
 * What `go_to_state` and `pressed` guarantee, common to both programs: the
 * exit-before-enter order, the `KeyError` path, the transition table, the
 * double jump when both buttons are down, and the screen-flag invariant.
 */
module Transitions {
  import opened Options
  import opened Clock
  import opened States
  import opened Engine
  import opened Seqs

  /** The first call, with no current state: no `exit` runs, only the target's `enter`. */
  lemma GoToFirst(v: Variant, c: Config, name: string, now: Timestamp)
    requires c.current.None? && name in c.states
    ensures var r := GoTo(v, c, name, now); var t := c.states[name];
      r.fault.None? && r.config.current == Some(t) &&
      r.config.raised == c.raised + {t} &&
      r.config.log == c.log + EnterWrites(v, t, now) &&
      r.config.stampOut == c.stampOut
  {
  }

  /** A known target: the old state's exit effects, then the switch, then the target's enter effects. */
  lemma GoToExitThenEnter(v: Variant, c: Config, name: string, now: Timestamp)
    requires c.current.Some? && name in c.states
    ensures var r := GoTo(v, c, name, now); var s := c.current.value; var t := c.states[name];
      r.fault.None? && r.config.current == Some(t) && r.config.states == c.states &&
      r.config.raised == (c.raised - {s}) + {t} &&
      r.config.log == c.log + ExitWrites(v, s, c.stampIn, now) + EnterWrites(v, t, now) &&
      r.config.stampIn == (if t == Tracking1 then Some(now) else c.stampIn) &&
      r.config.stampOut == (if s == Tracking1 then Some(now) else c.stampOut)
  {
    var s := c.current.value;
    var t := c.states[name];
    var r := GoTo(v, c, name, now);
    assert r.config.log == (c.log + ExitWrites(v, s, c.stampIn, now)) + EnterWrites(v, t, now);
  }

  /**
   * An unknown target raises `KeyError` with `self.state` unchanged, but the
   * old state's exit has already run: its screen is low and its writes are in the log.
   */
  lemma GoToUnknown(v: Variant, c: Config, name: string, now: Timestamp)
    requires name !in c.states
    ensures var r := GoTo(v, c, name, now);
      r.fault == Some(KeyError(name)) && r.config.current == c.current && r.config.states == c.states &&
      r.config.stampIn == c.stampIn &&
      r.config.stampOut == (if c.current == Some(Tracking1) then Some(now) else c.stampOut) &&
      (c.current.None? ==> r.config == c) &&
      (c.current.Some? ==>
         r.config.raised == c.raised - {c.current.value} &&
         r.config.log == c.log + ExitWrites(v, c.current.value, c.stampIn, now))
  {
  }

  /** Entering then exiting a state raises and lowers its own screen and touches no other. */
  lemma EnterThenExitScreens(v: Variant, c: Config, s: StateId, t1: Timestamp, t2: Timestamp)
    ensures var r := ApplyExit(v, ApplyEnter(v, c, s, t1), s, t2);
      s !in r.raised && forall u :: u != s ==> (u in r.raised <==> u in c.raised)
  {
  }

  /** From a steady configuration every target name is registered, and the jump lands steady on it. */
  lemma GoToSteady(v: Variant, c: Config, s: StateId, now: Timestamp)
    requires Steady(c)
    ensures var r := GoTo(v, c, Name(s), now);
      r.fault.None? && Steady(r.config) && r.config.current == Some(s) &&
      r.config.log == c.log + ExitWrites(v, c.current.value, c.stampIn, now) + EnterWrites(v, s, now) &&
      r.config.stampIn == (if s == Tracking1 then Some(now) else c.stampIn) &&
      r.config.stampOut == (if c.current.value == Tracking1 then Some(now) else c.stampOut)
  {
    FullRegistryIndexes(s);
    GoToExitThenEnter(v, c, Name(s), now);
  }

  /** Button A alone from a steady configuration is the jump to the A target. */
  lemma PressA(v: Variant, c: Config, now: Timestamp)
    requires Steady(c)
    ensures var r := Press(v, c, true, false, now, now); var s := c.current.value; var a := MenuA(s);
      r.fault.None? && Steady(r.config) && r.config.current == Some(a) &&
      r.config.log == c.log + ExitWrites(v, s, c.stampIn, now) + EnterWrites(v, a, now) &&
      r.config.stampIn == (if a == Tracking1 then Some(now) else c.stampIn) &&
      r.config.stampOut == (if s == Tracking1 then Some(now) else c.stampOut)
  {
    var s := c.current.value;
    TargetsNameMenu(s);
    GoToSteady(v, c, MenuA(s), now);
    assert Press(v, c, true, false, now, now) == GoTo(v, c, Name(MenuA(s)), now);
  }

  /** Button B alone from a steady configuration is the jump to the B target. */
  lemma PressB(v: Variant, c: Config, now: Timestamp)
    requires Steady(c)
    ensures var r := Press(v, c, false, true, now, now); var s := c.current.value; var b := MenuB(s);
      r.fault.None? && Steady(r.config) && r.config.current == Some(b) &&
      r.config.log == c.log + ExitWrites(v, s, c.stampIn, now) + EnterWrites(v, b, now) &&
      r.config.stampIn == (if b == Tracking1 then Some(now) else c.stampIn) &&
      r.config.stampOut == (if s == Tracking1 then Some(now) else c.stampOut)
  {
    var s := c.current.value;
    TargetsNameMenu(s);
    GoToSteady(v, c, MenuB(s), now);
    assert Press(v, c, false, true, now, now) == GoTo(v, c, Name(MenuB(s)), now);
  }

  /** Neither button pressed, or no current state: nothing changes. */
  lemma PressIdle(v: Variant, c: Config, switch1: bool, switch2: bool, now1: Timestamp, now2: Timestamp)
    requires c.current.None? || (!switch1 && !switch2)
    ensures Press(v, c, switch1, switch2, now1, now2) == Outcome(c, None)
  {
  }

  /**
   * The transition table from a steady configuration: button A alone follows
   * the A rule, button B alone the B rule; with both down the machine ends at
   * the old state's B target. No exception is raised and the machine is steady again.
   */
  lemma PressSteady(v: Variant, c: Config, switch1: bool, switch2: bool, now1: Timestamp, now2: Timestamp)
    requires Steady(c)
    ensures var r := Press(v, c, switch1, switch2, now1, now2); var s := c.current.value;
      r.fault.None? && Steady(r.config) &&
      r.config.current == Some(if switch2 then MenuB(s) else if switch1 then MenuA(s) else s) &&
      c.log <= r.config.log
  {
    var s := c.current.value;
    TargetsNameMenu(s);
    var r := Press(v, c, switch1, switch2, now1, now2);
    if switch1 {
      var first := GoTo(v, c, Name(MenuA(s)), now1);
      GoToSteady(v, c, MenuA(s), now1);
      Grows(c.log, ExitWrites(v, s, c.stampIn, now1), EnterWrites(v, MenuA(s), now1));
      if switch2 {
        var a := MenuA(s);
        var second := GoTo(v, first.config, Name(MenuB(s)), now2);
        GoToSteady(v, first.config, MenuB(s), now2);
        Grows(first.config.log, ExitWrites(v, a, first.config.stampIn, now2), EnterWrites(v, MenuB(s), now2));
        assert r == second;
        PrefixTrans(c.log, first.config.log, second.config.log);
      } else {
        assert r == first;
      }
    } else if switch2 {
      GoToSteady(v, c, MenuB(s), now2);
      Grows(c.log, ExitWrites(v, s, c.stampIn, now2), EnterWrites(v, MenuB(s), now2));
    }
  }

  /** At rest, a poll changes the state exactly when some button is down. */
  lemma PressMovesIff(v: Variant, c: Config, switch1: bool, switch2: bool, now1: Timestamp, now2: Timestamp)
    requires Steady(c)
    ensures Press(v, c, switch1, switch2, now1, now2).config.current != c.current <==> switch1 || switch2
  {
    PressSteady(v, c, switch1, switch2, now1, now2);
    MenuMoves(c.current.value);
  }

  /**
   * Both buttons down: the A target is entered and at once exited, then the B
   * target entered. The log holds the effects of all three in that order.
   */
  lemma PressBoth(v: Variant, c: Config, now1: Timestamp, now2: Timestamp)
    requires Steady(c)
    ensures var r := Press(v, c, true, true, now1, now2); var s := c.current.value; var a := MenuA(s);
      var stampIn := if a == Tracking1 then Some(now1) else c.stampIn;
      r.config.current == Some(MenuB(s)) && r.config.raised == {MenuB(s)} &&
      r.config.log == c.log + ExitWrites(v, s, c.stampIn, now1) + EnterWrites(v, a, now1)
                            + ExitWrites(v, a, stampIn, now2) + EnterWrites(v, MenuB(s), now2)
  {
    var s := c.current.value;
    TargetsNameMenu(s);
    GoToSteady(v, c, MenuA(s), now1);
    var first := GoTo(v, c, OnSwitch1(s), now1);
    GoToSteady(v, first.config, MenuB(s), now2);
  }

  /** Program start: Home is current, only its screen is high, the log is empty, and the machine is steady. */
  lemma BootSteady(v: Variant, now: Timestamp)
    ensures var r := Boot(v, now);
      r.fault.None? && Steady(r.config) && r.config.current == Some(Home) &&
      r.config.raised == {Home} && r.config.log == [] && r.config.stampIn.None?
  {
    BootAtHome(v, now);
  }

  /** Start-up computes one configuration, whatever the clock reads. */
  lemma BootAtHome(v: Variant, now: Timestamp)
    ensures Boot(v, now) == Outcome(Config(Some(Home), FullRegistry, {Home}, [], None, None), None)
  {
    RegisterAllBuildsFullRegistry();
    FirstGoToHome(v, now);
  }

  /** The first `go_to_state('Home')` on the registered machine: no exit, only Home high, nothing written. */
  lemma FirstGoToHome(v: Variant, now: Timestamp)
    ensures GoTo(v, Initial.(states := FullRegistry), "Home", now) ==
            Outcome(Config(Some(Home), FullRegistry, {Home}, [], None, None), None)
  {
    FullRegistryIndexes(Home);
    assert EnterWrites(v, Home, now) == [];
  }

  /**
   * Any run of polls from a steady configuration raises no exception, keeps the
   * registry, leaves exactly the current state's screen high and only appends to the log.
   */
  lemma {:induction false} RunSteady(v: Variant, c: Config, inputs: seq<Input>)
    requires Steady(c)
    ensures var r := Run(v, c, inputs);
      r.fault.None? && Steady(r.config) && r.config.raised == {r.config.current.value} &&
      c.log <= r.config.log
    decreases |inputs|
  {
    if inputs != [] {
      var i := inputs[0];
      PressSteady(v, c, i.switch1, i.switch2, i.now1, i.now2);
      var r := Press(v, c, i.switch1, i.switch2, i.now1, i.now2);
      RunSteady(v, r.config, inputs[1..]);
    }
  }

  /** Every run the program can make, from its start: at most one screen is ever high at rest, and this one. */
  lemma BootThenRun(v: Variant, now: Timestamp, inputs: seq<Input>)
    ensures var b := Boot(v, now); var r := Run(v, b.config, inputs);
      r.fault.None? && Steady(r.config) && r.config.raised == {r.config.current.value}
  {
    BootSteady(v, now);
    RunSteady(v, Boot(v, now).config, inputs);
  }

  /** Home, then Profile 2, then Home again: the screens are as before and nothing is logged. */
  lemma HomeProfile2RoundTrip(v: Variant, c: Config, back1: bool, t1: Timestamp, t2: Timestamp, t3: Timestamp)
    requires Steady(c) && c.current == Some(Home)
    ensures var r1 := Press(v, c, false, true, t1, t1);
            var r2 := Press(v, r1.config, back1, !back1, t2, t3);
      r1.config.current == Some(Profile2) &&
      r2.fault.None? && r2.config.current == Some(Home) &&
      r2.config.raised == c.raised && r2.config.log == c.log
  {
    PressSteady(v, c, false, true, t1, t1);
    GoToSteady(v, c, Profile2, t1);
    var r1 := Press(v, c, false, true, t1, t1);
    PressSteady(v, r1.config, back1, !back1, t2, t3);
    GoToSteady(v, r1.config, Home, if back1 then t2 else t3);
  }
}
