/** The settings store: display preferences, loaded from localStorage key
    'settings' (or defaulted) and written back whole when the timezone
    changes. */
module Settings {
  import opened Common
  import opened Storage

  const SETTINGS_KEY: string := "settings"

  /** '12' or '24'. */
  datatype TimeNotation = Hours12 | Hours24

  datatype SettingsRecord = SettingsRecord(
    timeNotation: TimeNotation,
    startsWithSunday: bool,
    focusHourOnStart: bool,
    timezone: string)

  const DEFAULT_SETTINGS: SettingsRecord := SettingsRecord(Hours12, false, true, "UTC")

  /** The record the store starts from: the defaults when nothing (or "")
      is stored, the parsed record otherwise; None when parsing throws,
      which makes setting up the store throw. */
  function InitialSettings(stored: Option<string>, codec: Codec<SettingsRecord>): (r: Option<SettingsRecord>)
    ensures !Truthy(stored) ==> r == Some(DEFAULT_SETTINGS)
    ensures Truthy(stored) ==> r == codec.decode(stored.value)
  {
    if Truthy(stored) then codec.decode(stored.value) else Some(DEFAULT_SETTINGS)
  }

  /** With a faithful codec, a store set up after `settimezone` starts from
      exactly the record that was written: the change survives a reload. */
  lemma ReloadSeesWrittenSettings(entries: map<string, string>, s: SettingsRecord, codec: Codec<SettingsRecord>)
    requires Faithful(codec)
    ensures InitialSettings(Lookup(entries[SETTINGS_KEY := codec.encode(s)], SETTINGS_KEY), codec) == Some(s)
  {
    assert codec.decode(codec.encode(s)) == Some(s) && codec.encode(s) != "";
  }

  class SettingsStore {
    var timeNotation: TimeNotation
    var startsWithSunday: bool
    var focusHourOnStart: bool
    var timezone: string
    const storage: LocalStorage
    const codec: Codec<SettingsRecord>

    /** The four refs as one record. */
    function Record(): SettingsRecord
      reads this
    {
      SettingsRecord(timeNotation, startsWithSunday, focusHourOnStart, timezone)
    }

    constructor (storage: LocalStorage, codec: Codec<SettingsRecord>, initial: SettingsRecord)
      ensures this.storage == storage && this.codec == codec && Record() == initial
    {
      this.storage := storage;
      this.codec := codec;
      timeNotation := initial.timeNotation;
      startsWithSunday := initial.startsWithSunday;
      focusHourOnStart := initial.focusHourOnStart;
      timezone := initial.timezone;
    }

    /** Setting up the store: None when the stored record does not parse. */
    static method Load(storage: LocalStorage, codec: Codec<SettingsRecord>) returns (r: Option<SettingsStore>)
      ensures InitialSettings(storage.Get(SETTINGS_KEY), codec).None? ==> r.None?
      ensures InitialSettings(storage.Get(SETTINGS_KEY), codec).Some? ==>
        && r.Some? && fresh(r.value) && r.value.storage == storage && r.value.codec == codec
        && r.value.Record() == InitialSettings(storage.Get(SETTINGS_KEY), codec).value
    {
      var settings := InitialSettings(storage.Get(SETTINGS_KEY), codec);
      if settings.None? {
        return None;
      }
      var store := new SettingsStore(storage, codec, settings.value);
      r := Some(store);
    }

    /** `settimezone`: set the timezone and persist all four fields. */
    method SetTimezone(newTimezone: string)
      modifies this, storage
      ensures Record() == old(Record()).(timezone := newTimezone)
      ensures storage.entries == old(storage.entries)[SETTINGS_KEY := codec.encode(Record())]
    {
      timezone := newTimezone;
      var currentSettings := SettingsRecord(timeNotation, startsWithSunday, focusHourOnStart, timezone);
      storage.SetItem(SETTINGS_KEY, codec.encode(currentSettings));
    }
  }
}
