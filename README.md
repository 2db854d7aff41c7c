# Little Time Buddy menu state machine

A model of the button-driven menu of the Little Time Buddy (LTB), a Raspberry Pi
device with two push buttons and an e-paper display. Both programs,
`Test_Pi_SM_TimeCalcs.py` and `LTB_Release_Rev0.py`, register seven screens
(Home, Profile 1, Tracking1, Focus Timer 1, Profile 2, Voice Note, Record) with
a `StateMachine`. The machine switches between them with `go_to_state`. It
calls the current state's `pressed` handler once per poll of the buttons. Each
screen raises one GPIO line while it is shown (the "screen flags"). Entering and
leaving Tracking1 appends a time-in / time-out / duration row to a CSV log.
Leaving Record (release program) or Tracking1 (test program) ends the row with
the voice-note marker.

The model has two layers:

- a pure specification: a `Config` value and the functions `Register`,
  `ApplyEnter`, `ApplyExit`, `GoTo`, `Press`, `Boot` and `Run`. A
  `Variant` parameter (`TimeCalcs` or `Release`) selects which program's
  Tracking1 and Record behaviour applies; everything else is shared.
- the imperative `Machine.StateMachine` class. It has the fields the Python
  object and its state objects update in place: the current state, the
  name-to-state dictionary, the screen flags, the log and the time-in and
  time-out globals. Each method is proved to leave the object in exactly the
  state the matching specification function computes.

Modelling choices:

- Screen flags are the set `raised` of states whose line is high.
- The log file is a sequence of strings, one per `f.write` call.
- The clock is an input. Each `go_to_state` call reads it once (identical
  readings are passed to both halves of a jump), and the readings of
  the second jump of a two-button press are a separate input.
- `relativedelta(timestamp_out, timestamp_in)` is modelled over the
  whole-second wall-clock difference. dateutil's normalisation (its `_fix`)
  is the sign-preserving cascade seconds → minutes → hours → days
  (`Duration.Fix`).
- The test program's duration is the field-by-field subtraction it writes
  (`Duration.FieldDelta`), with no borrow.
- Python's `"%02d"` of a negative number counts the sign in the width, so
  `-5` prints as `-5` and `-40` as `-40` (`Text.Int02`).
- `str(date)` is the ISO form `YYYY-MM-DD`. `str(int)` is unpadded.

Where the code behaves in ways a reader might not expect, the model follows the
code:

- An unknown target name raises `KeyError` after the old state's `exit` has
  already run. The current state is left unchanged, but its screen flag is
  lowered and its log columns are written (`Transitions.GoToUnknown`,
  `Sessions.UnknownNameFromTracking`).
- Pressing both buttons makes two jumps: the A target is entered and exited,
  then the machine takes the *old* state's B rule (`Transitions.PressBoth`).
- Registering a name twice overwrites the earlier entry.
- The test program's Tracking1 duration is not normalised and can be
  negative in any field, as its own comment at Test_Pi_SM_TimeCalcs.py:295
  warns (`Duration.ExampleSecondsBorrow`).
- The release program writes no day count, so a session of a day or more
  reads back as its remainder (`Sessions.ReleaseSessionDropsDays`).

## Model

| member | source | states |
|---|---|---|
| Machine.StateMachine.constructor | Test_Pi_SM_TimeCalcs.py:83-85 | A new machine has no current state, an empty registry, no screen high, an empty log and no time stamps. |
| Machine.StateMachine.AddState | Test_Pi_SM_TimeCalcs.py:88-89 | After `add_state(s)` the registry maps `Name(s)` to `s` and every other entry is unchanged; nothing else changes. |
| Machine.StateMachine.Enter | Test_Pi_SM_TimeCalcs.py:231-264 | A state's `enter` raises its own screen flag and, for Tracking1, records time in and appends the start columns; the new state is exactly `Engine.ApplyEnter`. |
| Machine.StateMachine.Exit | LTB_Release_Rev0.py:266-306 | A state's `exit` lowers its own flag; only Tracking1 records time out. Tracking1 appends its stop columns (and, in the test program, the note line); Record appends the note line in the release program only. The new state is exactly `Engine.ApplyExit`. |
| Machine.StateMachine.GoToState | LTB_Release_Rev0.py:87-93 | `go_to_state` exits the current state, then looks the name up, switches and enters, or raises `KeyError`; it changes the object exactly as `Engine.GoTo` says and returns the same fault. |
| Machine.StateMachine.Pressed | LTB_Release_Rev0.py:95-98 | `pressed` on the machine delegates to the current state's handler, exactly as `Engine.Press`; from a steady machine it raises no fault and keeps the machine steady. |
| Machine.Start | LTB_Release_Rev0.py:478-487 | Registering the seven states and jumping to Home yields a steady machine at Home with only the Home screen high and an empty log. |
| Engine.Register | Test_Pi_SM_TimeCalcs.py:88-89 | Registration adds the key `Name(s)` bound to `s`, keeps all other bindings and changes no other part of the machine. |
| Engine.FullRegistryIndexes | Test_Pi_SM_TimeCalcs.py:486-493 | After the seven registrations every state is found under its own name and the registered names are exactly the jump targets. |
| Engine.RegisterAllBuildsFullRegistry | Test_Pi_SM_TimeCalcs.py:486-493 | The seven `add_state` calls on a new machine build the registry of each state under its name and change nothing else. |
| Engine.ApplyEnter | Test_Pi_SM_TimeCalcs.py:143-150 | Entering raises exactly the entered state's flag (others unchanged) and appends that state's start writes; only Tracking1 sets time in. |
| Engine.ApplyExit | Test_Pi_SM_TimeCalcs.py:152-155 | Exiting lowers exactly the exited state's flag (others unchanged) and appends its stop writes; only Tracking1 sets time out. Tracking1 appends its stop columns (and the note line in the test program); Record appends the note line in the release program only. |
| Engine.EnterWrites | LTB_Release_Rev0.py:252-253 | Definition (no contract): Tracking1's `enter` writes the zone and stamp columns in the release program and the U.S. date and `%d:%02d:%02d, ` time in the test program (Test_Pi_SM_TimeCalcs.py:261-264); every other `enter` writes nothing. |
| Engine.ExitWrites | LTB_Release_Rev0.py:293-295 | Definition (no contract): Tracking1's `exit` writes zone, stamp and `relativedelta` duration in the release program, and time out, per-field difference and note line in the test program (Test_Pi_SM_TimeCalcs.py:306-308); Record's writes the note line in the release program only (LTB_Release_Rev0.py:460); every other `exit` writes nothing. |
| Engine.TimeIn | Test_Pi_SM_TimeCalcs.py:209-219 | Definition (no contract): the test program's time-in globals, all zero until a Tracking1 entry sets them, as read by the difference at Test_Pi_SM_TimeCalcs.py:296-298. |
| Engine.SessionDelta | LTB_Release_Rev0.py:283 | Definition (no contract): `relativedelta(timestamp_out, timestamp_in)`; while `timestamp_in` still holds its initial `None` (LTB_Release_Rev0.py:209-210), dateutil computes no difference and gives the all-zero delta. |
| Engine.GoTo | LTB_Release_Rev0.py:87-93 | Definition (no contract): the current state's exit if there is one, then the registry lookup, then either `KeyError(name)` with the exit kept or the switch to the found state and its enter. |
| Engine.Press | LTB_Release_Rev0.py:95-98 | Definition (no contract): with no current state nothing happens; otherwise a jump to the state's switch-1 target when button 1 is down, then, unless that jump raised, a jump to the same old state's switch-2 target when button 2 is down (the handlers at LTB_Release_Rev0.py:156-471). |
| Engine.RegisterAll | LTB_Release_Rev0.py:479-485 | Definition (no contract): the seven `add_state` calls in the programs' order. |
| Engine.Boot | LTB_Release_Rev0.py:478-487 | Definition (no contract): the seven registrations on a new machine, then `go_to_state('Home')`. |
| Engine.Run | LTB_Release_Rev0.py:489-492 | Definition (no contract): one `pressed` per poll over a finite sequence of polls, stopping at the first exception. |
| Transitions.GoToFirst | Test_Pi_SM_TimeCalcs.py:91-97 | With no current state a jump to a registered name raises only the target's flag and writes only its enter columns. |
| Transitions.GoToExitThenEnter | Test_Pi_SM_TimeCalcs.py:91-97 | A jump to a registered name lowers the old flag, raises the new one, and the log grows by the old state's exit writes followed by the new state's enter writes. |
| Transitions.GoToUnknown | LTB_Release_Rev0.py:87-93 | An unregistered name raises `KeyError(name)`, leaves the current state, registry and time in unchanged, but the old state's exit has already lowered its flag, written its columns and, from Tracking1, set time out to the clock reading. |
| Transitions.EnterThenExitScreens | Test_Pi_SM_TimeCalcs.py:143-155 | Entering then exiting a state leaves its flag low and every other flag as it was. |
| Transitions.GoToSteady | Test_Pi_SM_TimeCalcs.py:91-97 | From a steady machine a jump to any state's name raises no fault, keeps exactly one screen high (the new state's) and appends exit then enter writes. |
| Transitions.PressIdle | Test_Pi_SM_TimeCalcs.py:99-102 | With no current state, or with neither button pressed, a poll changes nothing. |
| Transitions.PressSteady | Test_Pi_SM_TimeCalcs.py:157-479 | From a steady machine a poll moves to the B target if button 2 is down, else to the A target if button 1 is down, else stays; the machine stays steady and the log only grows. |
| Transitions.PressMovesIff | Test_Pi_SM_TimeCalcs.py:157-479 | From a steady machine the current state changes if and only if some button is pressed. |
| Transitions.PressBoth | LTB_Release_Rev0.py:156-161 | With both buttons down the A target is entered and exited, then the old state's B rule applies; the machine ends at the B target with only its screen high. |
| Transitions.BootSteady | Test_Pi_SM_TimeCalcs.py:486-495 | Start-up ends at Home with only the Home screen high, no fault, an empty log and no time in. |
| Transitions.BootAtHome | LTB_Release_Rev0.py:478-487 | Start-up, whatever the clock reads, yields exactly: Home current, the full registry, only the Home screen high, an empty log, no time stamps and no fault. |
| Transitions.FirstGoToHome | LTB_Release_Rev0.py:87-93 | The first `go_to_state('Home')` on the registered machine runs no exit, enters Home and writes nothing. |
| Transitions.PressA | Test_Pi_SM_TimeCalcs.py:157-479 | Button 1 alone from a steady machine is the jump to the A target: the old state's exit writes, then the target's enter writes, with time in or time out taken when Tracking1 is entered or left. |
| Transitions.PressB | Test_Pi_SM_TimeCalcs.py:157-479 | Button 2 alone from a steady machine is the jump to the B target, with the same log and time-stamp effects. |
| Transitions.RunSteady | Test_Pi_SM_TimeCalcs.py:497-499 | Any sequence of polls from a steady machine raises no fault, keeps exactly one screen high and only appends to the log. |
| Transitions.BootThenRun | LTB_Release_Rev0.py:487-492 | After start-up, any sequence of polls keeps exactly one screen flag high, the current state's. |
| Transitions.HomeProfile2RoundTrip | Test_Pi_SM_TimeCalcs.py:403-408 | Home, button 2, then either button from Profile 2 returns to Home with the same flags and log. |
| States.Name | LTB_Release_Rev0.py:138-440 | Definition (no contract): each state's `name` property string, from `'Home'` to `'Record'`. |
| States.OnSwitch1 | LTB_Release_Rev0.py:158-469 | Definition (no contract): the literal name each handler passes to `go_to_state` under `if switch_1.is_pressed`. |
| States.OnSwitch2 | LTB_Release_Rev0.py:161-471 | Definition (no contract): the literal name each handler passes to `go_to_state` under `if switch_2.is_pressed`. |
| States.MenuA | LTB_Release_Rev0.py:158-469 | Definition (no contract): the state each handler's button-1 target names, as a table from state to state (`States.TargetsNameMenu` ties it to `OnSwitch1`). |
| States.MenuB | LTB_Release_Rev0.py:161-471 | Definition (no contract): the state each handler's button-2 target names, as a table from state to state (`States.TargetsNameMenu` ties it to `OnSwitch2`). |
| States.NameInjective | Test_Pi_SM_TimeCalcs.py:140-456 | The seven state names are pairwise distinct. |
| States.TargetsNameMenu | Test_Pi_SM_TimeCalcs.py:157-479 | Each `pressed` handler's target strings name the states of the menu table. |
| States.MenuMoves | Test_Pi_SM_TimeCalcs.py:157-479 | No button leaves a state where it is. |
| States.TargetsAreAllNames | Test_Pi_SM_TimeCalcs.py:157-479 | The set of names jumped to is exactly the set of the seven state names. |
| Sessions.ReleaseRowWritten | LTB_Release_Rev0.py:252-295 | Tracking1's enter and exit writes together are the zone/stamp in, zone/stamp out and duration columns. |
| Sessions.TimeCalcsRowWritten | Test_Pi_SM_TimeCalcs.py:261-308 | Tracking1's enter and exit writes together are date, time in, time out, difference and the voice-note marker. |
| Sessions.EnterUnbroken | LTB_Release_Rev0.py:252-253 | No `enter` writes a line break. |
| Sessions.ExitBreaksOnlyAtNote | LTB_Release_Rev0.py:458-460 | An exit writes a line break if and only if it is the note-writing state, and then the marker is its last write. |
| Sessions.NoNoteLeavesRowOpen | LTB_Release_Rev0.py:421-426 | In the release program, Tracking1 → Voice Note → Home (button 2) writes the stop columns but no line end. |
| Sessions.ReleaseSession | LTB_Release_Rev0.py:226-306 | Profile 1, button 1 twice: the log grows by one row started at the first reading and stopped at the second, and the stamps hold those readings. |
| Sessions.ReleaseSessionDuration | LTB_Release_Rev0.py:283-295 | For a session shorter than a day, the duration column reads back as the unique hours / minutes < 60 / seconds < 60 split of the elapsed seconds. |
| Sessions.ReleaseSessionDropsDays | LTB_Release_Rev0.py:283-295 | The written duration is the elapsed time modulo a day; whole days are not written. |
| Sessions.UnknownNameFromTracking | LTB_Release_Rev0.py:87-93 | A jump to an unregistered name from Tracking1 raises `KeyError`, keeps Tracking1 current, leaves no screen high, keeps time in, sets time out to the clock reading and writes the stop columns. |
| Sessions.TimeCalcsSession | Test_Pi_SM_TimeCalcs.py:231-335 | Profile 1, button 1 twice in the test program: the log grows by one full row ending with the marker. |
| Sessions.BothButtonsInProfile1 | LTB_Release_Rev0.py:192-197 | Both buttons in Profile 1 pass through Tracking1 (a full start/stop row is written) and end at Focus Timer 1. |
| Sessions.ReleaseWalkFromStart | LTB_Release_Rev0.py:478-489 | Start-up and five presses of button 1 go Home → Profile 1 → Tracking1 → Voice Note → Record → Home and write exactly one terminated row. |
| Sessions.WalkFromHome | LTB_Release_Rev0.py:156-471 | From Home, five presses of button 1 come back to Home after appending one row and its marker. |
| Sessions.WalkFromProfile1 | LTB_Release_Rev0.py:192-471 | From Profile 1, four presses of button 1 end at Home after one row and its marker. |
| Sessions.WalkFromVoiceNote | LTB_Release_Rev0.py:421-471 | From Voice Note, two presses of button 1 end at Home after writing only the marker. |
| Sessions.QuietPressA | Test_Pi_SM_TimeCalcs.py:157-479 | A button-1 press between states that write nothing moves to the A target and leaves the log unchanged. |
| Sessions.NotePressA | LTB_Release_Rev0.py:452-471 | Leaving Record for Home writes exactly the voice-note marker. |
| Duration.Carry | LTB_Release_Rev0.py:283 | One carry step of relativedelta's normalisation: quotient times base plus remainder is the value, the remainder is below the base in magnitude and has the value's sign. |
| Duration.Fix | LTB_Release_Rev0.py:283 | Definition (no contract): `relativedelta`'s normalisation, carrying seconds into minutes, minutes into hours and hours into days, each carry with the sign of its field. Its fields come into range with one common sign only for fields that already share the total's sign, as `relativedelta`'s difference of two datetimes gives (`Duration.FixNormalises`). |
| Duration.FixNormalises | LTB_Release_Rev0.py:283 | Normalisation keeps the total number of seconds and brings seconds, minutes and hours into range with one common sign. |
| Duration.RelativeDelta | LTB_Release_Rev0.py:283 | The difference of two stamps totals the elapsed seconds, is normalised, and all fields share its sign. |
| Duration.RelativeDeltaWithinDay | LTB_Release_Rev0.py:283-295 | For 0 ≤ elapsed < a day, days are 0, hours < 24, minutes and seconds < 60, and the fields sum to the elapsed seconds. |
| Duration.RelativeDeltaUnique | LTB_Release_Rev0.py:283-295 | Any normalised split of a sub-day elapsed time equals relativedelta's. |
| Duration.RelativeDeltaPartOfDay | LTB_Release_Rev0.py:283-295 | For elapsed ≥ 0, days is elapsed div a day and hours/minutes/seconds make up elapsed mod a day. |
| Duration.FieldDelta | Test_Pi_SM_TimeCalcs.py:295-298 | The per-field difference has no days and h·3600 + m·60 + s equals the seconds-of-day difference. |
| Duration.FieldDeltaInRangeIff | Test_Pi_SM_TimeCalcs.py:295-298 | The per-field hours are in [0, 23] and minutes and seconds in [0, 59] if and only if no field of time out is below time in's. |
| Duration.FieldDeltaAgreesWithoutBorrow | Test_Pi_SM_TimeCalcs.py:295-298 | Without a borrow, on one day, the per-field difference equals relativedelta's. |
| Duration.ExampleNoBorrow | Test_Pi_SM_TimeCalcs.py:295-298 | 10:15:30 → 10:15:45: both differences are 0:0:15. |
| Duration.ExampleSecondsBorrow | Test_Pi_SM_TimeCalcs.py:295-298 | 10:15:45 → 10:16:05: relativedelta gives 0:0:20, the field difference 0:1:-40. |
| Duration.ExampleHourBorrow | Test_Pi_SM_TimeCalcs.py:295-298 | 9:59:59 → 10:00:01: relativedelta gives 0:0:2, the field difference 1:-59:-58. |
| Duration.ExampleMidnight | LTB_Release_Rev0.py:283 | 23:30:00 → 00:15:10 next day: relativedelta gives 0:45:10, the field difference -23:-15:10. |
| Clock.Elapsed | LTB_Release_Rev0.py:283 | On one date the elapsed seconds are the difference of the seconds of day. |
| Clock.DayNumber | LTB_Release_Rev0.py:283 | Definition (no contract): the number of days from 1970-01-01 to a Gregorian date. |
| Clock.Instant | LTB_Release_Rev0.py:283 | Definition (no contract): a reading as whole seconds, so that the difference of two readings is the `datetime` difference the duration is computed from. |
| Clock.NextDate | LTB_Release_Rev0.py:283 | The calendar day after a valid date is a valid date: the next day, or the first of the next month, or January 1st of the next year. |
| Clock.YearLength | LTB_Release_Rev0.py:283 | A year counted from March has 366 days exactly when the following calendar year is a Gregorian leap year, otherwise 365. |
| Clock.NextDateNumber | LTB_Release_Rev0.py:283 | The day after any valid date, at a month's or a year's end too, has the next day number. |
| Clock.ElapsedOverMidnight | LTB_Release_Rev0.py:283 | Across any midnight, into a new month or year too, the elapsed seconds are the rest of the first day plus the seconds of the next. |
| Clock.ExampleNextDates | LTB_Release_Rev0.py:283 | April 30 is followed by May 1, December 31 by January 1, and February 28 by March 1 in 2023 and 1900 but by February 29 in 2024 and 2000. |
| Clock.ElapsedAcrossMidnight | LTB_Release_Rev0.py:283 | Across a midnight inside one month the elapsed seconds are the rest of the first day plus the seconds of the next. |
| Clock.NextDayNumber | LTB_Release_Rev0.py:283 | The next day of the same month has the next day number. |
| Records.UsDateField | Test_Pi_SM_TimeCalcs.py:261 | Definition (no contract): `"%d/%d/%d, " % (month, day, year)`. |
| Records.ClockField | Test_Pi_SM_TimeCalcs.py:264 | Definition (no contract): `"%d:%02d:%02d, "` of hours, minutes and seconds, as written for time in, time out and the difference (Test_Pi_SM_TimeCalcs.py:306-307). |
| Records.ZoneField | LTB_Release_Rev0.py:252 | Definition (no contract): the zone name followed by a comma, as written at start and stop (LTB_Release_Rev0.py:293). |
| Records.IsoDate | LTB_Release_Rev0.py:253 | Definition (no contract): `str(date.today())`, the year zero-filled to four digits and month and day to two, joined by `-`. |
| Records.StampField | LTB_Release_Rev0.py:253 | Definition (no contract): the ISO date, `_`, then hour, minute and second unpadded and joined by `:`, then a comma (also LTB_Release_Rev0.py:294). |
| Records.DurationField | LTB_Release_Rev0.py:295 | Definition (no contract): `"%d:%d:%02d,"` of the duration's hours, minutes and seconds; its days are not written. |
| Records.NoteLine | LTB_Release_Rev0.py:460 | Definition (no contract): the voice-note marker `'Speech to text voice note'` followed by CR LF, the same literal as at Test_Pi_SM_TimeCalcs.py:308. |
| Records.NoteLineTerminated | LTB_Release_Rev0.py:460 | The voice-note marker ends with CR LF, so writing it ends the row. |
| Records.UsDateNoBreak | Test_Pi_SM_TimeCalcs.py:261 | The `%d/%d/%d, ` date column holds no line break. |
| Records.ClockNoBreak | Test_Pi_SM_TimeCalcs.py:264 | The `%d:%02d:%02d, ` column holds no line break. |
| Records.StampNoBreak | LTB_Release_Rev0.py:253 | The date_stamp column holds no line break. |
| Records.DurationNoBreak | LTB_Release_Rev0.py:295 | The `%d:%d:%02d,` column holds no line break. |
| Records.ZoneFieldNoBreak | LTB_Release_Rev0.py:252 | The zone column holds a line break if and only if the zone name does. |
| Records.DurationFieldRoundTrip | LTB_Release_Rev0.py:295 | The non-negative duration column parses back to its hours, minutes and seconds. |
| Records.ClockFieldRoundTrip | Test_Pi_SM_TimeCalcs.py:264 | The non-negative `%d:%02d:%02d, ` column parses back to its hours, minutes and seconds. |
| Records.UsDateFieldRoundTrip | Test_Pi_SM_TimeCalcs.py:261 | The `%d/%d/%d, ` date column parses back to its month, day and year. |
| Records.IsoDateRoundTrip | LTB_Release_Rev0.py:253 | `str(today)` parses back to its year, month and day, and holds no `_`. |
| Records.StampTimeRoundTrip | LTB_Release_Rev0.py:253 | The unpadded `hour:minute:second` part of a stamp parses back to its fields and holds no `_`. |
| Records.StampFieldRoundTrip | LTB_Release_Rev0.py:253 | A stamp column `date_hour:minute:second,` parses back to the date and the time written. |
| Text.NatToString | LTB_Release_Rev0.py:253 | `str` of a natural number is a non-empty digit string, one digit exactly when the number is below 10. |
| Text.NatToStringRoundTrip | LTB_Release_Rev0.py:253 | Reading the digits of `str(n)` gives back `n`. |
| Text.NatToStringInjective | LTB_Release_Rev0.py:253 | Different numbers print differently. |
| Text.PaddedRoundTrip | Test_Pi_SM_TimeCalcs.py:264 | A zero-padded number reads back to itself. |
| Text.IntToString | Test_Pi_SM_TimeCalcs.py:264 | `%d` of a non-negative number is its digits; of a negative one, `-` and the digits of its magnitude. |
| Text.Int02 | Test_Pi_SM_TimeCalcs.py:264 | `%02d` pads a non-negative number to two digits and prints a negative one as `-` and its digits, with no break. |
| Text.Padded | Test_Pi_SM_TimeCalcs.py:264 | A non-negative number zero-filled on the left to the width (`%02d`, and the year, month and day of `str(date)` at LTB_Release_Rev0.py:253): all digits, as long as the width or as the unpadded digits, whichever is longer. |

## Left out

- GPIO (buttons, screen lines, LED): buttons are boolean inputs and screens are the `raised` set.
- Each handler reads `is_pressed` again; the model takes one snapshot of both buttons per poll.
- `print`, `time.sleep` and the `Testing` switch: they have no effect on the state or the log.
- The endless polling loop is modelled as `Run` over finite sequences of polls.
- Files are not opened, flushed or closed; the log is the sequence of writes and the header row, commented out in the source, is not written.
- The clock (`time.localtime`, `datetime.now`, `date.today`, `tzname()`) is an input, one reading per `go_to_state`; Tracking1 takes its date, time and zone from one reading.
- Microseconds, UTC offsets and daylight-saving changes are not modelled; the elapsed time is wall-clock whole seconds. Because the release program's stamps print truncated seconds while its duration is the floor of the true difference, the written duration can be one second less than the difference of the two written stamps; in the model they agree (`Sessions.ReleaseSession`).
- Duration.RelativeDelta: months and years of `relativedelta` are folded into days, which the programs never write.
- The test program's Tracking1 `enter` computes its time-in fields with expressions that cannot run as written (`time(now.month)`, `date(now.day)`, `t.tm_year` on the time module); the model takes the fields from the clock reading, as the program intends.
- The test program's Tracking1 `exit` (Test_Pi_SM_TimeCalcs.py:278) and its module level (Test_Pi_SM_TimeCalcs.py:51) call `time.localtime()`, but `time` is imported only as `t` there, so both lines cannot run as written; the model takes the time-out fields from the clock reading too.
- Sessions.EnterUnbroken, Sessions.ExitBreaksOnlyAtNote and Sessions.NoNoteLeavesRowOpen: the zone name is assumed to hold no line break.
- Records.DurationFieldRoundTrip and Records.ClockFieldRoundTrip: stated for non-negative fields only; a negative field prints with a sign the parser does not read.
- Machine.StateMachine.Enter and Machine.StateMachine.Exit: the state objects are not separate objects; their globals are fields of the machine.
