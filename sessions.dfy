/** The session state machine of the Pomodoro timer, as values.
    A `Snapshot` is what the timer object holds besides its settings and its
    storage; every operation of the timer is a function from the snapshot it
    finds to the snapshot it leaves. The class in module `Timer` is proved
    against these functions. */
module Sessions {

  /** The three kinds of session ('work', 'shortBreak', 'longBreak'). */
  datatype Session = Work | ShortBreak | LongBreak

  /** The user settings: three durations in minutes and two switches. */
  datatype Settings = Settings(
    workDuration: int,
    breakDuration: int,
    longBreakDuration: int,
    soundEnabled: bool,
    autoStartBreaks: bool)

  /** The settings a timer starts with before anything is loaded. */
  const DefaultSettings := Settings(25, 5, 15, true, false)

  /** A long break is granted after every `CycleLength`-th work session. */
  const CycleLength := 4

  /** The timer's state fields other than its settings. */
  datatype Snapshot = Snapshot(
    isRunning: bool,
    currentSession: Session,
    timeLeft: int,
    totalTime: int,
    completedSessions: int,
    sessionCount: int)

  /** The configured length, in minutes, of a session of kind `s`. */
  function Minutes(cfg: Settings, s: Session): int
  {
    match s
    case Work => cfg.workDuration
    case ShortBreak => cfg.breakDuration
    case LongBreak => cfg.longBreakDuration
  }

  /** The configured length, in seconds, of a session of kind `s`. */
  function Seconds(cfg: Settings, s: Session): int
  {
    Minutes(cfg, s) * 60
  }

  /** A fresh session of kind `s`: the shared body of `initializeTimer`,
      `startWorkSession`, `startShortBreak` and `startLongBreak`. */
  function Begin(st: Snapshot, cfg: Settings, s: Session): Snapshot
  {
    st.(currentSession := s, totalTime := Seconds(cfg, s), timeLeft := Seconds(cfg, s))
  }

  /** `initializeTimer`: a fresh work session. */
  function Initialized(st: Snapshot, cfg: Settings): Snapshot
  {
    Begin(st, cfg, Work)
  }

  /** `startTimer`, as far as state goes. */
  function Started(st: Snapshot): Snapshot
  {
    st.(isRunning := true)
  }

  /** `pauseTimer`, as far as state goes. */
  function Paused(st: Snapshot): Snapshot
  {
    st.(isRunning := false)
  }

  /** `toggleTimer`: pause when running, start when paused. */
  function Toggled(st: Snapshot): (r: Snapshot)
    ensures r.isRunning != st.isRunning
    ensures r == st.(isRunning := r.isRunning)
  {
    if st.isRunning then Paused(st) else Started(st)
  }

  /** `resetTimer`: whatever the state, a paused work session of the full
      configured length; the counters are kept. */
  function Reset(st: Snapshot, cfg: Settings): (r: Snapshot)
    ensures !r.isRunning && r.currentSession == Work
    ensures r.timeLeft == r.totalTime == cfg.workDuration * 60
    ensures r.completedSessions == st.completedSessions && r.sessionCount == st.sessionCount
  {
    Initialized(Paused(st), cfg)
  }

  /** The session that follows a completed session of kind `done`, given the
      cycle counter after the completion has been counted. */
  function NextSession(done: Session, sessionCount: int): (s: Session)
    ensures s == Work <==> done != Work
    ensures s == LongBreak <==> done == Work && sessionCount % CycleLength == 0
  {
    if done == Work then
      if sessionCount % CycleLength == 0 then LongBreak else ShortBreak
    else
      Work
  }

  /** `completeSession` (with the delayed auto-start decided at once):
      pause, count a finished work session, switch to the next session at its
      full configured length, and run again only when breaks auto-start. */
  function Completed(st: Snapshot, cfg: Settings): (r: Snapshot)
    ensures st.currentSession == Work ==>
              r.completedSessions == st.completedSessions + 1
              && r.sessionCount == st.sessionCount + 1
              && (r.currentSession == LongBreak <==> r.sessionCount % CycleLength == 0)
              && (r.currentSession == ShortBreak <==> r.sessionCount % CycleLength != 0)
    ensures st.currentSession != Work ==>
              r.currentSession == Work
              && r.completedSessions == st.completedSessions
              && r.sessionCount == st.sessionCount
    ensures r.totalTime == Seconds(cfg, r.currentSession) && r.timeLeft == r.totalTime
    ensures r.isRunning <==> cfg.autoStartBreaks
  {
    var p := Paused(st);
    var counted :=
      if st.currentSession == Work then
        p.(completedSessions := p.completedSessions + 1, sessionCount := p.sessionCount + 1)
      else p;
    var next := Begin(counted, cfg, NextSession(st.currentSession, counted.sessionCount));
    if cfg.autoStartBreaks then Started(next) else next
  }

  /** One call of the one-second interval callback: count down by one, and
      complete the session once the time is used up. */
  function Ticked(st: Snapshot, cfg: Settings): (r: Snapshot)
    requires st.isRunning
    ensures st.timeLeft > 1 ==> r == st.(timeLeft := st.timeLeft - 1)
    ensures st.timeLeft <= 1 ==> r == Completed(st.(timeLeft := 0), cfg)
  {
    var d := st.(timeLeft := st.timeLeft - 1);
    if d.timeLeft <= 0 then Completed(d, cfg) else d
  }

  /** The timer state effect of `saveSettings` with the new settings `cfg`:
      a paused timer restarts as a fresh work session; a running one keeps
      its session and its time. */
  function SettingsApplied(st: Snapshot, cfg: Settings): (r: Snapshot)
    ensures r.isRunning == st.isRunning
    ensures r.completedSessions == st.completedSessions && r.sessionCount == st.sessionCount
    ensures st.isRunning ==> r == st
    ensures !st.isRunning ==>
              r.currentSession == Work && r.timeLeft == r.totalTime == cfg.workDuration * 60
  {
    if st.isRunning then st else Initialized(st, cfg)
  }

  /** The clock left running for `k` seconds: one tick a second as long as
      the timer runs; once it is paused no interval is left to tick. */
  function RunFor(st: Snapshot, cfg: Settings, k: nat): Snapshot
    decreases k
  {
    if k == 0 || !st.isRunning then st else RunFor(Ticked(st, cfg), cfg, k - 1)
  }

  /** Durations as the settings form allows them (1-60 minutes of work and
      of long break, 1-30 minutes of short break). */
  predicate InRange(cfg: Settings)
  {
    1 <= cfg.workDuration <= 60 && 1 <= cfg.breakDuration <= 30 && 1 <= cfg.longBreakDuration <= 60
  }

  /** The state invariant that holds between operations when the durations
      are positive: some time is left and no more than the session's length. */
  predicate Counting(st: Snapshot)
  {
    1 <= st.timeLeft <= st.totalTime
  }
}
