/** The browser storage the timer persists to, as a record of already
    parsed values, and the loading rule applied when the timer is built. */
module Storage {
  import opened Sessions
  import opened Optional

  /** A parsed settings object: any of its keys may be missing. */
  datatype StoredSettings = StoredSettings(
    workDuration: Option<int>,
    breakDuration: Option<int>,
    longBreakDuration: Option<int>,
    soundEnabled: Option<bool>,
    autoStartBreaks: Option<bool>)

  /** The settings slot: empty, holding text that does not parse, or holding
      a parsed object. */
  datatype SettingsSlot = Empty | Unparseable | Parsed(fields: StoredSettings)

  /** The three slots the timer uses: the settings blob, the lifetime count
      of completed work sessions, and the cycle counter. */
  datatype Store = Store(
    settings: SettingsSlot,
    completedSessions: Option<int>,
    sessionCount: Option<int>)

  /** What the timer holds after loading. */
  datatype Loaded = Loaded(settings: Settings, completedSessions: int, sessionCount: int)

  /** `{ ...base, ...stored }`: a key present in the stored object takes the
      stored value; a missing key keeps the base value. */
  function Merge(base: Settings, stored: StoredSettings): (r: Settings)
    ensures stored.workDuration.Some? ==> r.workDuration == stored.workDuration.value
    ensures stored.workDuration.None? ==> r.workDuration == base.workDuration
    ensures stored.breakDuration.Some? ==> r.breakDuration == stored.breakDuration.value
    ensures stored.breakDuration.None? ==> r.breakDuration == base.breakDuration
    ensures stored.longBreakDuration.Some? ==> r.longBreakDuration == stored.longBreakDuration.value
    ensures stored.longBreakDuration.None? ==> r.longBreakDuration == base.longBreakDuration
    ensures stored.soundEnabled.Some? ==> r.soundEnabled == stored.soundEnabled.value
    ensures stored.soundEnabled.None? ==> r.soundEnabled == base.soundEnabled
    ensures stored.autoStartBreaks.Some? ==> r.autoStartBreaks == stored.autoStartBreaks.value
    ensures stored.autoStartBreaks.None? ==> r.autoStartBreaks == base.autoStartBreaks
  {
    Settings(
      OrElse(stored.workDuration, base.workDuration),
      OrElse(stored.breakDuration, base.breakDuration),
      OrElse(stored.longBreakDuration, base.longBreakDuration),
      OrElse(stored.soundEnabled, base.soundEnabled),
      OrElse(stored.autoStartBreaks, base.autoStartBreaks))
  }

  /** The settings object written by `saveSettings`: every key present. */
  function Serialize(cfg: Settings): (r: StoredSettings)
    ensures forall base :: Merge(base, r) == cfg
  {
    StoredSettings(Some(cfg.workDuration), Some(cfg.breakDuration), Some(cfg.longBreakDuration),
                   Some(cfg.soundEnabled), Some(cfg.autoStartBreaks))
  }

  /** What a timer holds before anything is loaded. */
  const Initial := Loaded(DefaultSettings, 0, 0)

  /** `loadSettings` applied to what the timer holds: a parsed settings
      object overrides the held settings key by key, and each present
      counter replaces the held one. Text that does not parse raises inside
      the guarded block before the counters are read, so nothing changes. */
  function Load(store: Store, held: Loaded): (r: Loaded)
    ensures store.settings.Unparseable? ==> r == held
    ensures store.settings.Empty? ==> r.settings == held.settings
    ensures store.settings.Parsed? ==> r.settings == Merge(held.settings, store.settings.fields)
    ensures !store.settings.Unparseable? ==>
              r.completedSessions == OrElse(store.completedSessions, held.completedSessions)
              && r.sessionCount == OrElse(store.sessionCount, held.sessionCount)
  {
    match store.settings
    case Unparseable => held
    case Empty =>
      held.(completedSessions := OrElse(store.completedSessions, held.completedSessions),
            sessionCount := OrElse(store.sessionCount, held.sessionCount))
    case Parsed(fields) =>
      Loaded(Merge(held.settings, fields),
             OrElse(store.completedSessions, held.completedSessions),
             OrElse(store.sessionCount, held.sessionCount))
  }

  /** `saveSettings`' write to storage: a later load reads back exactly
      these settings, and reads the counters as they were stored. */
  function SaveSettings(store: Store, cfg: Settings): (r: Store)
    ensures forall held :: Load(r, held).settings == cfg
    ensures forall held :: Load(r, held).completedSessions == OrElse(store.completedSessions, held.completedSessions)
    ensures forall held :: Load(r, held).sessionCount == OrElse(store.sessionCount, held.sessionCount)
  {
    store.(settings := Parsed(Serialize(cfg)))
  }

  /** `saveState`: both counters are written. A later load reads the
      settings as before, and reads back these counters unless the stored
      settings text does not parse. */
  function SaveState(store: Store, completed: int, count: int): (r: Store)
    ensures forall held :: Load(r, held).settings == Load(store, held).settings
    ensures forall held :: !store.settings.Unparseable? ==>
              Load(r, held).completedSessions == completed && Load(r, held).sessionCount == count
  {
    store.(completedSessions := Some(completed), sessionCount := Some(count))
  }

  /** Whatever the store held before, loading after saving the settings and
      the counters gives back exactly what was saved. */
  lemma SaveLoadRoundTrip(store: Store, held: Loaded, cfg: Settings, completed: int, count: int)
    ensures Load(SaveState(SaveSettings(store, cfg), completed, count), held) == Loaded(cfg, completed, count)
  {
  }
}
