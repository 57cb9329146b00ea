/** The timer object: its state fields, updated in place by its methods.
    Each method's contract ties the new state to the matching function of
    module `Sessions` applied to the old state, and says what else stays as
    it was. Rendering, sounds and the browser's timers are not modelled:
    the one-second interval is the `Tick` method, called only while the
    timer runs, and a played notification is a returned flag. */
module Timer {
  import opened Sessions
  import Storage
  import Display
  import Optional

  class PomodoroTimer {
    var isRunning: bool
    var currentSession: Session
    var timeLeft: int
    var totalTime: int
    var completedSessions: int
    var sessionCount: int
    var settings: Settings
    /** The browser storage, as this timer sees it. */
    var store: Storage.Store

    /** The state fields other than the settings, as a value. */
    function State(): Snapshot
      reads this
    {
      Snapshot(isRunning, currentSession, timeLeft, totalTime, completedSessions, sessionCount)
    }

    /** Builds the timer: default settings and zero counters, then whatever
        the store holds, then a fresh work session, paused. */
    constructor (store: Storage.Store)
      ensures this.store == store
      ensures var loaded := Storage.Load(store, Storage.Initial);
              && settings == loaded.settings
              && State() == Snapshot(false, Work, Seconds(loaded.settings, Work), Seconds(loaded.settings, Work),
                                     loaded.completedSessions, loaded.sessionCount)
    {
      isRunning := false;
      currentSession := Work;
      timeLeft := 0;
      totalTime := 0;
      completedSessions := 0;
      sessionCount := 0;
      settings := DefaultSettings;
      this.store := store;
      new;
      LoadSettings();
      InitializeTimer();
    }

    /** `loadSettings`: merges what the store holds into the settings and
        counters. */
    method LoadSettings()
      modifies this
      ensures Storage.Loaded(settings, completedSessions, sessionCount)
              == Storage.Load(store, old(Storage.Loaded(settings, completedSessions, sessionCount)))
      ensures isRunning == old(isRunning) && currentSession == old(currentSession)
      ensures timeLeft == old(timeLeft) && totalTime == old(totalTime) && store == old(store)
    {
      if store.settings.Unparseable? {
        // parsing raises; the guarded block ends before the counters are read
        return;
      }
      if store.settings.Parsed? {
        settings := Storage.Merge(settings, store.settings.fields);
      }
      if store.completedSessions.Some? {
        completedSessions := store.completedSessions.value;
      }
      if store.sessionCount.Some? {
        sessionCount := store.sessionCount.value;
      }
    }

    /** `saveState`: writes both counters to the store. */
    method SaveState()
      modifies this
      ensures store == Storage.SaveState(old(store), completedSessions, sessionCount)
      ensures State() == old(State()) && settings == old(settings)
    {
      store := Storage.SaveState(store, completedSessions, sessionCount);
    }

    /** `initializeTimer`: a fresh work session of the configured length;
        running state and counters are kept. */
    method InitializeTimer()
      modifies this
      ensures State() == Initialized(old(State()), settings)
      ensures settings == old(settings) && store == old(store)
    {
      currentSession := Work;
      totalTime := settings.workDuration * 60;
      timeLeft := totalTime;
    }

    /** `toggleTimer`: pauses a running timer, starts a paused one. */
    method ToggleTimer()
      modifies this
      ensures State() == Toggled(old(State()))
      ensures settings == old(settings) && store == old(store)
    {
      if isRunning {
        PauseTimer();
      } else {
        StartTimer();
      }
    }

    /** `startTimer`: the timer runs; from now on `Tick` is called once a
        second. */
    method StartTimer()
      modifies this
      ensures State() == Started(old(State()))
      ensures settings == old(settings) && store == old(store)
    {
      isRunning := true;
    }

    /** The body of the interval callback installed by `startTimer`: one
        second off, and the session completes once no time is left. */
    method Tick() returns (completed: bool, notified: bool)
      requires isRunning
      modifies this
      ensures State() == Ticked(old(State()), settings)
      ensures completed <==> old(timeLeft) <= 1
      ensures notified <==> completed && settings.soundEnabled
      ensures settings == old(settings)
      ensures store == if completed then Storage.SaveState(old(store), completedSessions, sessionCount)
                       else old(store)
    {
      timeLeft := timeLeft - 1;
      completed := timeLeft <= 0;
      notified := false;
      if completed {
        notified := CompleteSession();
      }
    }

    /** `pauseTimer`: the timer stops; no interval is left to tick. */
    method PauseTimer()
      modifies this
      ensures State() == Paused(old(State()))
      ensures settings == old(settings) && store == old(store)
    {
      isRunning := false;
    }

    /** `resetTimer`: a paused, fresh work session; counters are kept. */
    method ResetTimer()
      modifies this
      ensures State() == Reset(old(State()), settings)
      ensures settings == old(settings) && store == old(store)
    {
      PauseTimer();
      InitializeTimer();
    }

    /** `completeSession`: pause, notify when sound is on, count a finished
        work session, move to the next session, persist the counters, and
        run again when breaks auto-start. The one-second delay before the
        auto-start is not modelled: the decision is taken here. */
    method CompleteSession() returns (notified: bool)
      modifies this
      ensures State() == Completed(old(State()), settings)
      ensures notified == settings.soundEnabled
      ensures settings == old(settings)
      ensures store == Storage.SaveState(old(store), completedSessions, sessionCount)
    {
      PauseTimer();
      notified := settings.soundEnabled;
      if currentSession == Work {
        completedSessions := completedSessions + 1;
        sessionCount := sessionCount + 1;
        if sessionCount % CycleLength == 0 {
          StartLongBreak();
        } else {
          StartShortBreak();
        }
      } else {
        StartWorkSession();
      }
      SaveState();
      // the delayed callback starts the timer only when breaks auto-start
      if settings.autoStartBreaks {
        StartTimer();
      }
    }

    /** `startWorkSession`: a fresh work session of the configured length. */
    method StartWorkSession()
      modifies this
      ensures State() == Begin(old(State()), settings, Work)
      ensures settings == old(settings) && store == old(store)
    {
      currentSession := Work;
      totalTime := settings.workDuration * 60;
      timeLeft := totalTime;
    }

    /** `startShortBreak`: a fresh short break of the configured length. */
    method StartShortBreak()
      modifies this
      ensures State() == Begin(old(State()), settings, ShortBreak)
      ensures settings == old(settings) && store == old(store)
    {
      currentSession := ShortBreak;
      totalTime := settings.breakDuration * 60;
      timeLeft := totalTime;
    }

    /** `startLongBreak`: a fresh long break of the configured length. */
    method StartLongBreak()
      modifies this
      ensures State() == Begin(old(State()), settings, LongBreak)
      ensures settings == old(settings) && store == old(store)
    {
      currentSession := LongBreak;
      totalTime := settings.longBreakDuration * 60;
      timeLeft := totalTime;
    }

    /** `saveSettings` with the values read from the form: store them, and
        restart as a fresh work session only when the timer is paused. */
    method SaveSettings(newSettings: Settings)
      modifies this
      ensures settings == newSettings
      ensures store == Storage.SaveSettings(old(store), newSettings)
      ensures State() == SettingsApplied(old(State()), newSettings)
    {
      settings := newSettings;
      store := Storage.SaveSettings(store, settings);
      if !isRunning {
        InitializeTimer();
      }
    }

    /** The time text of `updateDisplay`. For a non-negative time left it
        reads back as that time. */
    method TimeText() returns (text: string)
      ensures text == Display.FormatTime(timeLeft)
      ensures timeLeft >= 0 ==> Display.ParseTime(text) == Optional.Some(timeLeft)
    {
      text := Display.FormatTime(timeLeft);
    }
  }
}
