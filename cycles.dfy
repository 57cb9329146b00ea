/** Properties of the session state machine over many steps: the 4-cycle
    of work sessions and breaks, the countdown, and the invariant that keeps
    the displayed time non-negative. */
module Cycles {
  import opened Sessions

  /** `n` rounds of "complete a work session, then complete the break that
      follows it", starting from `st`. */
  function Rounds(st: Snapshot, cfg: Settings, n: nat): Snapshot
    decreases n
  {
    if n == 0 then st else Completed(Completed(Rounds(st, cfg, n - 1), cfg), cfg)
  }

  /** After `n` rounds from a work session, the timer is in a work session
      again and both counters have grown by exactly `n`. */
  lemma {:induction false} RoundsCount(st: Snapshot, cfg: Settings, n: nat)
    requires st.currentSession == Work
    ensures Rounds(st, cfg, n).currentSession == Work
    ensures Rounds(st, cfg, n).sessionCount == st.sessionCount + n
    ensures Rounds(st, cfg, n).completedSessions == st.completedSessions + n
  {
    if n > 0 {
      RoundsCount(st, cfg, n - 1);
    }
  }

  /** The `n`-th work completion (counted from a zero cycle counter) leads to
      a long break of the configured length exactly when `n` is a multiple
      of four, and to a short break otherwise. */
  lemma {:induction false} LongBreakEveryFourth(st: Snapshot, cfg: Settings, n: nat)
    requires st.currentSession == Work && st.sessionCount == 0
    requires n >= 1
    ensures var r := Completed(Rounds(st, cfg, n - 1), cfg);
            && r.sessionCount == n
            && r.completedSessions == st.completedSessions + n
            && (r.currentSession == LongBreak <==> n % 4 == 0)
            && (r.currentSession == ShortBreak <==> n % 4 != 0)
            && r.totalTime == (if n % 4 == 0 then cfg.longBreakDuration else cfg.breakDuration) * 60
  {
    RoundsCount(st, cfg, n - 1);
  }

  /** With the default settings, four rounds from a fresh work session run
      work, short break, work, short break, work, short break, work, long
      break, of 25, 5, 25, 5, 25, 5, 25 and 15 minutes. */
  lemma DefaultCycle(counters: Snapshot)
    requires counters.sessionCount == 0
    ensures var s0 := Initialized(counters, DefaultSettings);
            var s1 := Completed(s0, DefaultSettings);
            var s2 := Completed(s1, DefaultSettings);
            var s3 := Completed(s2, DefaultSettings);
            var s4 := Completed(s3, DefaultSettings);
            var s5 := Completed(s4, DefaultSettings);
            var s6 := Completed(s5, DefaultSettings);
            var s7 := Completed(s6, DefaultSettings);
            && [s0.currentSession, s1.currentSession, s2.currentSession, s3.currentSession,
                s4.currentSession, s5.currentSession, s6.currentSession, s7.currentSession]
               == [Work, ShortBreak, Work, ShortBreak, Work, ShortBreak, Work, LongBreak]
            && [s0.totalTime, s1.totalTime, s2.totalTime, s3.totalTime,
                s4.totalTime, s5.totalTime, s6.totalTime, s7.totalTime]
               == [1500, 300, 1500, 300, 1500, 300, 1500, 900]
            && !s7.isRunning && s7.completedSessions == counters.completedSessions + 4
  {
  }

  /** While some time is left, each second of a running clock takes exactly
      one second off and changes nothing else. */
  lemma {:induction false} CountsDown(st: Snapshot, cfg: Settings, k: nat)
    requires st.isRunning && k < st.timeLeft
    ensures RunFor(st, cfg, k) == st.(timeLeft := st.timeLeft - k)
    decreases k
  {
    if k > 0 {
      var next := Ticked(st, cfg);
      assert next == st.(timeLeft := st.timeLeft - 1);
      CountsDown(next, cfg, k - 1);
    }
  }

  /** Without auto-start, a running clock with `timeLeft` seconds left
      completes its session at the `timeLeft`-th second and then stays
      paused: however long it is left, the session completes exactly once. */
  lemma {:induction false} CompletesOnce(st: Snapshot, cfg: Settings, k: nat)
    requires st.isRunning && 1 <= st.timeLeft <= k
    requires !cfg.autoStartBreaks
    ensures RunFor(st, cfg, k) == Completed(st.(timeLeft := 0), cfg)
    ensures !RunFor(st, cfg, k).isRunning
    decreases k
  {
    var next := Ticked(st, cfg);
    if st.timeLeft == 1 {
      assert next == Completed(st.(timeLeft := 0), cfg);
      assert RunFor(next, cfg, k - 1) == next;
    } else {
      assert next == st.(timeLeft := st.timeLeft - 1);
      CompletesOnce(next, cfg, k - 1);
      assert next.(timeLeft := 0) == st.(timeLeft := 0);
    }
  }

  /** With durations in the form's ranges, every operation keeps some time
      left and no more than the session's length, so the clock never shows
      a negative time between operations. */
  lemma CountingPreserved(st: Snapshot, cfg: Settings, newCfg: Settings)
    requires InRange(cfg) && InRange(newCfg) && Counting(st)
    ensures Counting(Reset(st, cfg))
    ensures Counting(Toggled(st))
    ensures Counting(Completed(st, cfg))
    ensures st.isRunning ==> Counting(Ticked(st, cfg))
    ensures Counting(SettingsApplied(st, newCfg))
  {
  }
}
