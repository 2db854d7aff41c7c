/**
 * The state machine object as both programs hold it: `StateMachine` with its
 * `state` and `states` fields, together with the module-level things its
 * states change in place (the seven screen pins, the log file, the Tracking1
 * timing globals). Each method is proved to do what the matching function of
 * `Engine` describes.
 */
module Machine {
  import opened Options
  import opened Clock
  import opened Duration
  import opened Records
  import opened States
  import opened Engine
  import opened Transitions
  import opened Seqs

  class StateMachine {
    /** Which program this is. */
    const variant: Variant
    /** `self.state`: `None` until the first `go_to_state`. */
    var state: Option<StateId>
    /** `self.states`: name to state. */
    var states: map<string, StateId>
    /** The screens whose output pin is driven high. */
    var raised: set<StateId>
    /** Every string written to the log file, in order. */
    var log: seq<string>
    /** The in reading of the last Tracking1 entry (`hour_in` ... or `timestamp_in`, `time_zone_in`). */
    var stampIn: Option<Timestamp>
    /** The out reading of the last Tracking1 exit (`hour_out` ... or `timestamp_out`, `time_zone_out`). */
    var stampOut: Option<Timestamp>

    /** The object's observable state as a value. */
    function Snapshot(): Config
      reads this
    {
      Config(state, states, raised, log, stampIn, stampOut)
    }

    /** `StateMachine()`, with every screen pin low and the log not yet written. */
    constructor (v: Variant)
      ensures variant == v && Snapshot() == Initial
    {
      variant := v;
      state := None;
      states := map[];
      raised := {};
      log := [];
      stampIn := None;
      stampOut := None;
    }

    /** `add_state`: keyed by the state's name, replacing any state of that name. */
    method AddState(s: StateId)
      modifies this
      ensures Snapshot() == Register(old(Snapshot()), s)
    {
      states := states[Name(s) := s];
    }

    /** The `enter` of state `s`. */
    method Enter(s: StateId, now: Timestamp)
      modifies this
      ensures Snapshot() == ApplyEnter(variant, old(Snapshot()), s, now)
    {
      if s == Tracking1 {
        stampIn := Some(now);
        raised := raised + {Tracking1};
        if variant == TimeCalcs {
          log := log + [UsDateField(now)];
          log := log + [ClockField(now.hour, now.minute, now.second)];
          AppendTwo(old(log), UsDateField(now), ClockField(now.hour, now.minute, now.second));
        } else {
          log := log + [ZoneField(now.zone)];
          log := log + [StampField(now)];
          AppendTwo(old(log), ZoneField(now.zone), StampField(now));
        }
      } else {
        raised := raised + {s};
      }
    }

    /** The `exit` of state `s`. */
    method Exit(s: StateId, now: Timestamp)
      modifies this
      ensures Snapshot() == ApplyExit(variant, old(Snapshot()), s, now)
    {
      if s == Tracking1 {
        stampOut := Some(now);
        if variant == TimeCalcs {
          var delta := FieldDelta(TimeIn(stampIn), now);
          log := log + [ClockField(now.hour, now.minute, now.second)];
          log := log + [ClockField(delta.hours, delta.minutes, delta.seconds)];
          log := log + [NoteLine];
          AppendThree(old(log), ClockField(now.hour, now.minute, now.second),
                      ClockField(delta.hours, delta.minutes, delta.seconds), NoteLine);
        } else {
          var delta := SessionDelta(stampIn, now);
          log := log + [ZoneField(now.zone)];
          log := log + [StampField(now)];
          log := log + [DurationField(delta)];
          AppendThree(old(log), ZoneField(now.zone), StampField(now), DurationField(delta));
        }
        raised := raised - {Tracking1};
      } else if s == Record {
        if variant == Release {
          log := log + [NoteLine];
        }
        raised := raised - {Record};
      } else {
        raised := raised - {s};
      }
    }

    /**
     * `go_to_state`: the current state's exit, then the lookup (a `KeyError`
     * leaves `state` as it was, after the exit), then the switch and the enter.
     */
    method GoToState(name: string, now: Timestamp) returns (fault: Option<Fault>)
      modifies this
      ensures Outcome(Snapshot(), fault) == GoTo(variant, old(Snapshot()), name, now)
    {
      if state.Some? {
        Exit(state.value, now);
      }
      if name in states {
        state := Some(states[name]);
        Enter(state.value, now);
        fault := None;
      } else {
        fault := Some(KeyError(name));
      }
    }

    /**
     * `pressed`: with a current state, its rule runs with the two button
     * readings; from a steady machine no exception is raised and it is steady again.
     */
    method Pressed(switch1: bool, switch2: bool, now1: Timestamp, now2: Timestamp) returns (fault: Option<Fault>)
      modifies this
      ensures Outcome(Snapshot(), fault) == Press(variant, old(Snapshot()), switch1, switch2, now1, now2)
      ensures old(Steady(Snapshot())) ==> fault.None? && Steady(Snapshot())
    {
      ghost var before := Snapshot();
      if Steady(before) {
        PressSteady(variant, before, switch1, switch2, now1, now2);
      }
      fault := None;
      if state.Some? {
        var s := state.value;
        if switch1 {
          fault := GoToState(OnSwitch1(s), now1);
        }
        if fault.None? && switch2 {
          fault := GoToState(OnSwitch2(s), now2);
        }
      }
    }
  }

  /** Program start: the machine, the seven `add_state` calls and `go_to_state('Home')`. */
  method Start(v: Variant, now: Timestamp) returns (m: StateMachine)
    ensures fresh(m) && m.variant == v
    ensures Outcome(m.Snapshot(), None) == Boot(v, now)
    ensures Steady(m.Snapshot()) && m.state == Some(Home) && m.raised == {Home} && m.log == []
  {
    m := new StateMachine(v);
    m.AddState(Home);
    m.AddState(Profile1);
    m.AddState(Tracking1);
    m.AddState(FocusTimer1);
    m.AddState(Profile2);
    m.AddState(VoiceNote);
    m.AddState(Record);
    BootSteady(v, now);
    var fault := m.GoToState("Home", now);
  }
}
