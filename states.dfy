/**
 * The seven menu states, their `name` properties and the target names their
 * `pressed` methods pass to `go_to_state`. Both programs define them alike.
 */
module States {

  /** One value per State subclass (each subclass has a single instance). */
  datatype StateId = Home | Profile1 | Tracking1 | FocusTimer1 | Profile2 | VoiceNote | Record

  const AllStates: set<StateId> := {Home, Profile1, Tracking1, FocusTimer1, Profile2, VoiceNote, Record}

  /** The `name` property, the key under which `add_state` registers the state. */
  function Name(s: StateId): string {
    match s
    case Home => "Home"
    case Profile1 => "Profile 1"
    case Tracking1 => "Tracking1"
    case FocusTimer1 => "Focus Timer 1"
    case Profile2 => "Profile 2"
    case VoiceNote => "Voice Note"
    case Record => "Record"
  }

  /** The name passed to `go_to_state` under `if switch_1.is_pressed`. */
  function OnSwitch1(s: StateId): string {
    match s
    case Home => "Profile 1"
    case Profile1 => "Tracking1"
    case Tracking1 => "Voice Note"
    case FocusTimer1 => "Home"
    case Profile2 => "Home"
    case VoiceNote => "Record"
    case Record => "Home"
  }

  /** The name passed to `go_to_state` under `if switch_2.is_pressed`. */
  function OnSwitch2(s: StateId): string {
    match s
    case Home => "Profile 2"
    case Profile1 => "Focus Timer 1"
    case Tracking1 => "Voice Note"
    case FocusTimer1 => "Home"
    case Profile2 => "Home"
    case VoiceNote => "Home"
    case Record => "Home"
  }

  /** Every name some `pressed` method jumps to. */
  const Targets: set<string> := (set s | s in AllStates :: OnSwitch1(s)) + (set s | s in AllStates :: OnSwitch2(s))

  /** The menu tree for button A, by state rather than by name. */
  function MenuA(s: StateId): StateId {
    match s
    case Home => Profile1
    case Profile1 => Tracking1
    case Tracking1 => VoiceNote
    case FocusTimer1 => Home
    case Profile2 => Home
    case VoiceNote => Record
    case Record => Home
  }

  /** The menu tree for button B, by state rather than by name. */
  function MenuB(s: StateId): StateId {
    match s
    case Home => Profile2
    case Profile1 => FocusTimer1
    case Tracking1 => VoiceNote
    case FocusTimer1 => Home
    case Profile2 => Home
    case VoiceNote => Home
    case Record => Home
  }

  /** Names identify states: no two states share a name. */
  lemma NameInjective(s: StateId, t: StateId)
    ensures Name(s) == Name(t) <==> s == t
  {
  }

  /** The name each rule passes is the name of the intended menu state. */
  lemma TargetsNameMenu(s: StateId)
    ensures OnSwitch1(s) == Name(MenuA(s)) && OnSwitch2(s) == Name(MenuB(s))
  {
  }

  /** No rule leads back to the state it is in, so any pressed button leaves the state. */
  lemma MenuMoves(s: StateId)
    ensures MenuA(s) != s && MenuB(s) != s
  {
  }

  /** The targets are exactly the seven state names. */
  lemma TargetsAreAllNames()
    ensures Targets == set s | s in AllStates :: Name(s)
  {
    assert OnSwitch1(FocusTimer1) == Name(Home);
    assert OnSwitch1(Home) == Name(Profile1);
    assert OnSwitch1(Profile1) == Name(Tracking1);
    assert OnSwitch2(Profile1) == Name(FocusTimer1);
    assert OnSwitch2(Home) == Name(Profile2);
    assert OnSwitch1(Tracking1) == Name(VoiceNote);
    assert OnSwitch1(VoiceNote) == Name(Record);
  }
}
