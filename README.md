# Pomodoro timer: session state machine

A model of the `PomodoroTimer` class of a browser Pomodoro timer. The timer
alternates work sessions and breaks. It counts completed work sessions and
grants a long break after every fourth one. It also keeps its settings and
counters in browser storage. The model keeps the class's state and its
state-changing methods, and drops the page, the sounds and the browser timers.

- `Sessions` (sessions.dfy): the session kinds, the settings record, and a
  `Snapshot` of the timer's state fields. Each timer operation is written as a
  function from the old snapshot to the new one: `Reset`, `Toggled`,
  `Completed`, `Ticked`, `SettingsApplied`. `RunFor` is the clock left running
  for k seconds.
- `Timer` (timer.dfy): class `PomodoroTimer`, with the source's fields updated
  in place by its methods. Each state-changing method ensures that `State()`
  equals the matching `Sessions` function of the old state, and says what
  happens to the settings and the store. There are two exceptions.
  `LoadSettings` changes the settings and counters, and is tied to
  `Storage.Load` of the store over the old values. `TimeText` changes nothing
  and returns `Display.FormatTime(timeLeft)`.
- `Cycles` (cycles.dfy): multi-step properties. These cover the 4-cycle of
  long breaks, the countdown, completion happening once, and the
  non-negative-time invariant.
- `Display` (display.dfy): the `MM:SS` text, with JavaScript's `Math.floor`,
  truncating `%`, `toString` and `padStart` written out. It also has a reader
  that turns the text back into seconds.
- `SettingsForm` (settings_form.dfy): the clamp applied by the duration inputs.
- `Storage` (storage.dfy): storage as already-parsed slots, with the load
  rule and the writes.

Behaviour of the code worth noting:
- Saving settings while paused always restarts as a **work** session. It does
  not recompute the current session kind.
- A session completes when a tick leaves `timeLeft <= 0`, not only `== 0`.
- The settings are not clamped again when saved. Only the form inputs clamp.
- A settings blob that does not parse leaves the defaults in place. It also
  skips loading both counters, because they are read in the same guarded block.
- After a completion, the timer restarts only when `autoStartBreaks` is set.
  This is true for work sessions too.

The cycle counter is an unbounded integer read from storage. JavaScript's
`sessionCount % 4 === 0` and Dafny's `sessionCount % 4 == 0` agree on every
integer, negative ones included.

## Model

| member | source | states |
|---|---|---|
| Sessions.Toggled | script.js:114-120 | the running flag is flipped and nothing else changes |
| Sessions.Reset | script.js:148-152 | whatever the prior state: paused, work session, `timeLeft == totalTime == workDuration * 60`, counters unchanged |
| Sessions.NextSession | script.js:159-173 | after a break comes work; after work comes a long break exactly when the new cycle count is a multiple of 4 |
| Sessions.Completed | script.js:155-215 | a completed work session raises both counters by exactly 1, and the next session is a long break iff the new count is a multiple of 4, a short break otherwise; a completed break leads to work with counters unchanged; the new session has its configured minutes × 60 with `timeLeft == totalTime`; the timer runs afterwards iff `autoStartBreaks` |
| Sessions.Ticked | script.js:128-135 | a tick with more than one second left takes exactly one second off and changes nothing else; otherwise the session completes |
| Sessions.SettingsApplied | script.js:311-315 | a running timer keeps its session, time left and total; a paused one becomes a fresh work session of the new work duration; counters and running flag unchanged |
| Cycles.RoundsCount | script.js:159-173 | after n work-then-break rounds the timer is back at work and both counters have grown by n |
| Cycles.LongBreakEveryFourth | script.js:159-169 | from a zero cycle counter, the n-th work completion gives a long break (of the long-break duration) iff n is a multiple of 4, and otherwise a short break (of the break duration) |
| Cycles.DefaultCycle | script.js:14-20 | with default settings the first eight sessions are work/short break ×3, then work/long break, of 25, 5, 25, 5, 25, 5, 25, 15 minutes |
| Cycles.CountsDown | script.js:128-135 | a running clock with more than k seconds left shows exactly k seconds fewer after k seconds, nothing else changed |
| Cycles.CompletesOnce | script.js:128-135 | without auto-start, a clock with t seconds left completes at second t and stays paused, so the completion happens exactly once however long it is left |
| Cycles.CountingPreserved | script.js:114-215 | with durations in the form's ranges, reset, toggle, completion, tick and settings change all keep `1 <= timeLeft <= totalTime` |
| Display.PadStart2 | script.js:221 | zero padding on the left to at least two characters, keeping the string as its suffix |
| Display.JsRem | script.js:220 | the JavaScript remainder: in [0, b) with `(a / b) * b + r == a` for a non-negative dividend; in (-b, 0] with the truncating-division identity `a == -((-a) / b) * b + r` for a negative one |
| Display.Split | script.js:219-220 | for a non-negative time, the seconds are below 60 and `minutes * 60 + seconds == timeLeft` |
| Display.FormatTime | script.js:219-221 | for a non-negative time the text is at least two minute digits, a colon, and exactly two second digits below 60, and reading it back gives the time left; below 100 minutes it is exactly the five characters `MM:SS` |
| Display.IntToString | script.js:221 | `toString` of an integer: a non-negative number's text is digits without a leading zero (zero itself is one digit) that read back as the number; a negative number's is a minus sign followed by such digits of its magnitude |
| Display.CanonicalDigits | script.js:221 | the decimal text of a number is never empty, is `0` for zero, and does not start with `0` for a positive number |
| Display.DigitsValue | script.js:221 | the decimal text of a number reads back as the number |
| Display.PaddedValue | script.js:221 | leading zeros do not change the value a digit string denotes |
| SettingsForm.Clamp | script.js:78-81 | the result lies in [1, 60] for work and long break and in [1, 30] for a short break; it is the input when already in range, and the nearer bound otherwise |
| SettingsForm.ClampedSettingsInRange | script.js:76-83 | settings built from clamped inputs are in range, and clamping is idempotent on them |
| Storage.Merge | script.js:325 | a key present in the stored object takes the stored value; a missing key keeps the held value |
| Storage.Serialize | script.js:309 | the written settings object overrides every key on loading, whatever was held |
| Storage.Load | script.js:321-343 | an unparseable settings blob changes nothing; a parsed one overrides the held settings key by key (`Merge`) and an empty slot keeps them; unless the blob is unparseable, each present counter replaces the held one |
| Storage.SaveSettings | script.js:309 | after the write, any load reads back exactly the saved settings, and reads the counters as they were stored |
| Storage.SaveState | script.js:346-353 | after the write, a load reads the settings as before, and reads back the written counters unless the stored settings text does not parse |
| Storage.SaveLoadRoundTrip | script.js:346-353 | loading after saving settings and counters gives back exactly what was saved |
| Timer.PomodoroTimer.constructor | script.js:3-48 | defaults and zero counters, then the store's values, then a paused work session of the loaded work duration |
| Timer.PomodoroTimer.LoadSettings | script.js:321-343 | settings and counters become `Load` of the store over the held values; nothing else changes |
| Timer.PomodoroTimer.SaveState | script.js:346-353 | both counters are written to the store; the state is unchanged |
| Timer.PomodoroTimer.InitializeTimer | script.js:51-57 | the new state is `Initialized` of the old: a fresh work session, running flag and counters kept |
| Timer.PomodoroTimer.ToggleTimer | script.js:114-120 | the new state is `Toggled` of the old |
| Timer.PomodoroTimer.StartTimer | script.js:123-124 | the timer runs; nothing else changes |
| Timer.PomodoroTimer.Tick | script.js:128-135 | the new state is `Ticked` of the old; it completes iff one second or less was left; a notification plays iff it completes with sound on; the counters are persisted on completion only |
| Timer.PomodoroTimer.PauseTimer | script.js:140-145 | the timer is paused; nothing else changes |
| Timer.PomodoroTimer.ResetTimer | script.js:148-152 | the new state is `Reset` of the old; settings and store unchanged |
| Timer.PomodoroTimer.CompleteSession | script.js:155-185 | the new state is `Completed` of the old; a notification plays iff sound is on; the new counters are persisted |
| Timer.PomodoroTimer.StartWorkSession | script.js:188-195 | a work session of `workDuration * 60` with full time left |
| Timer.PomodoroTimer.StartShortBreak | script.js:198-205 | a short break of `breakDuration * 60` with full time left |
| Timer.PomodoroTimer.StartLongBreak | script.js:208-215 | a long break of `longBreakDuration * 60` with full time left |
| Timer.PomodoroTimer.SaveSettings | script.js:300-318 | the settings are replaced and stored; the state becomes `SettingsApplied` of the old |
| Timer.PomodoroTimer.TimeText | script.js:218-221 | the displayed text is `FormatTime(timeLeft)`, which reads back as `timeLeft` when that is non-negative |

## Left out

- Page rendering is left out: element lookups, text content, CSS classes, the page title, the settings modal and the `Today N/10` label. None of it changes timer state.
- The progress ring arithmetic (script.js:238-250) is left out. It is floating point with `Math.PI`.
- The audio of `playNotificationSound` is left out. Only the decision to play (iff `soundEnabled`) is kept, as the `notified` result.
- `setInterval`, `setTimeout` and `clearInterval` are not modelled. The interval is the `Tick` method, called only while running. The one-second delayed auto-start is decided at completion time, using the settings at that moment.
- The delayed auto-start window is not modelled. The callback at script.js:179-183 is never cancelled, so a pause, reset, toggle or settings save in that second is followed by `startTimer` anyway when `autoStartBreaks` is on. A work session that was just reset can then start running. A save re-initialises the paused timer (script.js:312-313), turning the break that just began into a work session, and the callback then starts that work session. In the model the break is already running when the save happens, so it keeps the break. The model cannot show this interleaving.
- Two overlapping intervals are not modelled. They can arise when `startTimer` runs while already running, for example when the user presses play during the auto-start delay.
- Keyboard shortcuts (script.js:87-111) are left out. They only dispatch to toggle, reset and the settings modal.
- JSON text, `parseInt` and `toString` in storage are left out. Storage holds already-parsed values. A value that parses to `NaN` is not represented.
- Storage write failures are not modelled. `saveState` (script.js:347-352) logs and ignores them. The settings write in `saveSettings` (script.js:309) has no guard. If it throws, the new settings have already been assigned (302-306), but a paused timer is not re-initialised (312-315) and the modal stays open (317). The model always completes the save.
- Display.FormatTime: properties are proved only for a non-negative time left. With a duration of 0 or less, read from storage, a tick can show a negative time such as `-1:-1` before the session completes.
