/**
 * The state machine of both programs as pure functions over its observable
 * configuration: `StateMachine.add_state`, `go_to_state` and `pressed`, the
 * seven states' `enter`/`exit` effects, the registration and the start in Home.
 * The two programs differ only in what Tracking1 and Record write to the log,
 * so the engine is parametrised by the program variant.
 */
module Engine {
  import opened Options
  import opened Clock
  import opened Duration
  import opened Records
  import opened States

  /** Test_Pi_SM_TimeCalcs.py or LTB_Release_Rev0.py. */
  datatype Variant = TimeCalcs | Release

  /** The `KeyError` that `self.states[state_name]` raises for an unregistered name. */
  datatype Fault = KeyError(key: string)

  /**
   * What the machine and the program's globals hold between steps: the current
   * state (`self.state`), the registry (`self.states`), the screens whose
   * output pin is high, every string written to the log file so far, and the
   * in and out readings of the last Tracking1 session.
   */
  datatype Config = Config(
    current: Option<StateId>,
    states: map<string, StateId>,
    raised: set<StateId>,
    log: seq<string>,
    stampIn: Option<Timestamp>,
    stampOut: Option<Timestamp>)

  /** The configuration after a call, and the exception it raised, if any. */
  datatype Outcome = Outcome(config: Config, fault: Option<Fault>)

  /** `StateMachine()`: no current state, no states; every screen pin starts low and the log empty. */
  const Initial: Config := Config(None, map[], {}, [], None, None)

  /** The all-zero time globals of Test_Pi_SM_TimeCalcs.py, read before any Tracking1 entry. */
  const ZeroStamp: Timestamp := Timestamp(0, 0, 0, 0, 0, 0, "")

  /** `add_state`: the state is keyed by its name, replacing any entry of that name. */
  function Register(c: Config, s: StateId): (r: Config)
    ensures r.states.Keys == c.states.Keys + {Name(s)} && r.states[Name(s)] == s
    ensures forall n :: n in c.states && n != Name(s) ==> r.states[n] == c.states[n]
    ensures r.(states := c.states) == c
  {
    c.(states := c.states[Name(s) := s])
  }

  /** The seven `add_state` calls, in the programs' order. */
  function RegisterAll(c: Config): Config {
    Register(Register(Register(Register(Register(Register(Register(c,
      Home), Profile1), Tracking1), FocusTimer1), Profile2), VoiceNote), Record)
  }

  /** The registry the programs build, written out: each state under its `name`. */
  const FullRegistry: map<string, StateId> :=
    map["Home" := Home, "Profile 1" := Profile1, "Tracking1" := Tracking1,
        "Focus Timer 1" := FocusTimer1, "Profile 2" := Profile2, "Voice Note" := VoiceNote,
        "Record" := Record]

  /** The seven `add_state` calls on a new machine build exactly that registry. */
  lemma RegisterAllBuildsFullRegistry()
    ensures RegisterAll(Initial).states == FullRegistry
    ensures RegisterAll(Initial) == Initial.(states := FullRegistry)
  {
  }

  /** The registry maps each state's name to that state and holds no other key. */
  lemma FullRegistryIndexes(s: StateId)
    ensures Name(s) in FullRegistry && FullRegistry[Name(s)] == s
    ensures FullRegistry.Keys == Targets
  {
    TargetsAreAllNames();
  }

  /** In Test_Pi_SM_TimeCalcs.py the time-in globals; zero until a first entry sets them. */
  function TimeIn(stampIn: Option<Timestamp>): Timestamp {
    if stampIn.Some? then stampIn.value else ZeroStamp
  }

  /**
   * In LTB_Release_Rev0.py `relativedelta(timestamp_out, timestamp_in)`; with
   * `timestamp_in` still `None`, relativedelta takes its all-zero default.
   */
  function SessionDelta(stampIn: Option<Timestamp>, now: Timestamp): Delta {
    if stampIn.Some? then RelativeDelta(stampIn.value, now) else Delta(0, 0, 0, 0)
  }

  /** What `enter` writes to the log: only Tracking1 writes, its start columns. */
  function EnterWrites(v: Variant, s: StateId, now: Timestamp): seq<string> {
    if s != Tracking1 then []
    else if v == TimeCalcs then [UsDateField(now), ClockField(now.hour, now.minute, now.second)]
    else [ZoneField(now.zone), StampField(now)]
  }

  /**
   * What `exit` writes to the log. Tracking1 writes its stop columns (and, in
   * Test_Pi_SM_TimeCalcs.py, the note line); Record writes the note line in
   * LTB_Release_Rev0.py only.
   */
  function ExitWrites(v: Variant, s: StateId, stampIn: Option<Timestamp>, now: Timestamp): seq<string> {
    match s
    case Tracking1 =>
      if v == TimeCalcs then
        var d := FieldDelta(TimeIn(stampIn), now);
        [ClockField(now.hour, now.minute, now.second), ClockField(d.hours, d.minutes, d.seconds), NoteLine]
      else
        [ZoneField(now.zone), StampField(now), DurationField(SessionDelta(stampIn, now))]
    case Record => if v == Release then [NoteLine] else []
    case _ => []
  }

  /** A state's `enter`: its own screen pin goes high, Tracking1 captures the time in and logs. */
  function ApplyEnter(v: Variant, c: Config, s: StateId, now: Timestamp): (r: Config)
    ensures s in r.raised && forall t :: t != s ==> (t in r.raised <==> t in c.raised)
    ensures r.current == c.current && r.states == c.states && r.stampOut == c.stampOut
    ensures r.log == c.log + EnterWrites(v, s, now)
    ensures r.stampIn == if s == Tracking1 then Some(now) else c.stampIn
  {
    c.(raised := c.raised + {s},
       log := c.log + EnterWrites(v, s, now),
       stampIn := if s == Tracking1 then Some(now) else c.stampIn)
  }

  /** A state's `exit`: its own screen pin goes low, Tracking1 captures the time out and logs. */
  function ApplyExit(v: Variant, c: Config, s: StateId, now: Timestamp): (r: Config)
    ensures s !in r.raised && forall t :: t != s ==> (t in r.raised <==> t in c.raised)
    ensures r.current == c.current && r.states == c.states && r.stampIn == c.stampIn
    ensures r.log == c.log + ExitWrites(v, s, c.stampIn, now)
    ensures r.stampOut == if s == Tracking1 then Some(now) else c.stampOut
  {
    c.(raised := c.raised - {s},
       log := c.log + ExitWrites(v, s, c.stampIn, now),
       stampOut := if s == Tracking1 then Some(now) else c.stampOut)
  }

  /**
   * `go_to_state(name)`: the current state's `exit` (if there is a current
   * state), then the lookup, which raises `KeyError` for an unknown name with
   * the exit already done; otherwise the switch and the new state's `enter`.
   * `now` is the clock reading that the exit or the enter takes, if any.
   */
  function GoTo(v: Variant, c: Config, name: string, now: Timestamp): Outcome {
    var left := if c.current.Some? then ApplyExit(v, c, c.current.value, now) else c;
    if name in left.states then
      var t := left.states[name];
      Outcome(ApplyEnter(v, left.(current := Some(t)), t, now), None)
    else
      Outcome(left, Some(KeyError(name)))
  }

  /**
   * `StateMachine.pressed` with the current state's rule: `if switch_1` jumps to
   * the first target, then `if switch_2` (decided by the same, old state's rule)
   * to the second. An exception from the first jump skips the second.
   */
  function Press(v: Variant, c: Config, switch1: bool, switch2: bool, now1: Timestamp, now2: Timestamp): Outcome {
    if c.current.None? then Outcome(c, None)
    else
      var s := c.current.value;
      var first := if switch1 then GoTo(v, c, OnSwitch1(s), now1) else Outcome(c, None);
      if first.fault.Some? || !switch2 then first
      else GoTo(v, first.config, OnSwitch2(s), now2)
  }

  /** The registration and `go_to_state('Home')` at program start. */
  function Boot(v: Variant, now: Timestamp): Outcome {
    GoTo(v, RegisterAll(Initial), "Home", now)
  }

  /** One pass of the polling loop: the two button readings and the clock readings the jumps take. */
  datatype Input = Input(switch1: bool, switch2: bool, now1: Timestamp, now2: Timestamp)

  /** The polling loop over a finite run of inputs; an exception ends the program. */
  function Run(v: Variant, c: Config, inputs: seq<Input>): Outcome
    decreases |inputs|
  {
    if inputs == [] then Outcome(c, None)
    else
      var i := inputs[0];
      var r := Press(v, c, i.switch1, i.switch2, i.now1, i.now2);
      if r.fault.Some? then r else Run(v, r.config, inputs[1..])
  }

  /**
   * The machine at rest between polls: a current state, the full registry,
   * exactly the current state's screen high, and a captured time in while the
   * current state is Tracking1.
   */
  predicate Steady(c: Config) {
    c.current.Some? && c.states == FullRegistry && c.raised == {c.current.value} &&
    (c.current.value == Tracking1 ==> c.stampIn.Some?)
  }
}
