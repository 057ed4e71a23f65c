/** `useSettings` (src/hooks/useSettings.ts): the user settings, their defaults, the
    load-from-store merge and the patch-and-store update. The key-value store of the
    Preferences plugin is a field of the hook. */
module Settings {
  import opened Types

  datatype AppSettings = AppSettings(
    darkMode: bool,
    contrast: int,
    voiceRecognition: bool,
    aiMode: string,
    apiKey: Option<string>)

  /** An object spread over settings: `None` is a key the object does not have. For
      `apiKey`, `Some(None)` is a key that is present and `undefined`. */
  datatype SettingsPatch = SettingsPatch(
    darkMode: Option<bool>,
    contrast: Option<int>,
    voiceRecognition: Option<bool>,
    aiMode: Option<string>,
    apiKey: Option<Option<string>>)

  /** The text stored under a key, as `JSON.parse` sees it: an object with settings
      fields, some other JSON value (spreading it adds no field), the empty string
      (falsy, so it is skipped), or text that is not JSON (parsing throws). */
  datatype StoredValue = Json(fields: SettingsPatch) | OtherJson | EmptyText | Malformed

  const SETTINGS_KEY := "barbraai-settings"
  const DEFAULT_SETTINGS := AppSettings(true, 100, true, "offline", None)
  const NO_CHANGES := SettingsPatch(None, None, None, None, None)

  /** `{ ...s, ...p }`: a key of `p` replaces the same key of `s`. */
  function Overlay(s: AppSettings, p: SettingsPatch): AppSettings
  {
    AppSettings(
      if p.darkMode.Some? then p.darkMode.value else s.darkMode,
      if p.contrast.Some? then p.contrast.value else s.contrast,
      if p.voiceRecognition.Some? then p.voiceRecognition.value else s.voiceRecognition,
      if p.aiMode.Some? then p.aiMode.value else s.aiMode,
      if p.apiKey.Some? then p.apiKey.value else s.apiKey)
  }

  /** `JSON.stringify(s)` read back as an object: every field, except an `undefined`
      `apiKey`, which `JSON.stringify` leaves out. */
  function Serialize(s: AppSettings): (p: SettingsPatch)
    ensures p.darkMode == Some(s.darkMode) && p.contrast == Some(s.contrast)
    ensures p.voiceRecognition == Some(s.voiceRecognition) && p.aiMode == Some(s.aiMode)
    ensures p.apiKey.Some? <==> s.apiKey.Some?
    ensures s.apiKey.Some? ==> p.apiKey == Some(s.apiKey)
  {
    SettingsPatch(Some(s.darkMode), Some(s.contrast), Some(s.voiceRecognition), Some(s.aiMode),
      if s.apiKey.Some? then Some(s.apiKey) else None)
  }

  /** A patch followed by another: the later one wins key by key. */
  function Then(p: SettingsPatch, q: SettingsPatch): SettingsPatch
  {
    SettingsPatch(
      if q.darkMode.Some? then q.darkMode else p.darkMode,
      if q.contrast.Some? then q.contrast else p.contrast,
      if q.voiceRecognition.Some? then q.voiceRecognition else p.voiceRecognition,
      if q.aiMode.Some? then q.aiMode else p.aiMode,
      if q.apiKey.Some? then q.apiKey else p.apiKey)
  }

  /** The settings after `loadSettings`, from the settings before it, whether the
      store read succeeded, and the value under the key (`None` when there is none). */
  function Loaded(current: AppSettings, readOk: bool, stored: Option<StoredValue>): AppSettings
  {
    if !readOk || stored.None? then current
    else match stored.value
      case Json(fields) => Overlay(DEFAULT_SETTINGS, fields)
      case OtherJson => DEFAULT_SETTINGS
      case EmptyText => current
      case Malformed => current
  }

  function Lookup(store: map<string, StoredValue>): Option<StoredValue>
  {
    if SETTINGS_KEY in store then Some(store[SETTINGS_KEY]) else None
  }

  class SettingsHook {
    var settings: AppSettings
    var isLoading: bool
    /** The Preferences store, key by key. */
    var preferences: map<string, StoredValue>

    /** The first render: default settings, still loading. */
    constructor (store: map<string, StoredValue>)
      ensures settings == DEFAULT_SETTINGS && isLoading && preferences == store
    {
      settings := DEFAULT_SETTINGS;
      isLoading := true;
      preferences := store;
    }

    /** `loadSettings`: merge the stored object over the defaults when the read
        succeeds and yields truthy parsable text; keep the settings otherwise; stop
        loading in every case. */
    method LoadSettings(readOk: bool)
      modifies this
      ensures settings == Loaded(old(settings), readOk, Lookup(preferences))
      ensures !isLoading && preferences == old(preferences)
    {
      if readOk && SETTINGS_KEY in preferences {
        var value := preferences[SETTINGS_KEY];
        match value {
          case Json(fields) => settings := Overlay(DEFAULT_SETTINGS, fields);
          case OtherJson => settings := DEFAULT_SETTINGS;
          case EmptyText =>
          case Malformed =>
        }
      }
      isLoading := false;
    }

    /** `updateSettings(newSettings)`: apply the patch, then store the whole result
        under the settings key; a failed write leaves the store as it was but keeps
        the new settings. */
    method UpdateSettings(patch: SettingsPatch, writeOk: bool)
      modifies this
      ensures settings == Overlay(old(settings), patch)
      ensures preferences == if writeOk then old(preferences)[SETTINGS_KEY := Json(Serialize(settings))]
                             else old(preferences)
      ensures forall k :: k != SETTINGS_KEY && k in old(preferences) ==> k in preferences && preferences[k] == old(preferences)[k]
      ensures isLoading == old(isLoading)
    {
      var updated := Overlay(settings, patch);
      settings := updated;
      if writeOk {
        preferences := preferences[SETTINGS_KEY := Json(Serialize(updated))];
      }
    }
  }

  /** Each field of a spread comes from the patch when the patch has it, and from the
      settings otherwise; the spread changes nothing exactly when every key the patch
      has already holds that value. */
  lemma OverlayFields(s: AppSettings, p: SettingsPatch)
    ensures Overlay(s, p).darkMode == (if p.darkMode.Some? then p.darkMode.value else s.darkMode)
    ensures Overlay(s, p).contrast == (if p.contrast.Some? then p.contrast.value else s.contrast)
    ensures Overlay(s, p).voiceRecognition ==
      (if p.voiceRecognition.Some? then p.voiceRecognition.value else s.voiceRecognition)
    ensures Overlay(s, p).aiMode == (if p.aiMode.Some? then p.aiMode.value else s.aiMode)
    ensures Overlay(s, p).apiKey == (if p.apiKey.Some? then p.apiKey.value else s.apiKey)
    ensures Overlay(s, p) == s <==>
      (p.darkMode.Some? ==> p.darkMode.value == s.darkMode) &&
      (p.contrast.Some? ==> p.contrast.value == s.contrast) &&
      (p.voiceRecognition.Some? ==> p.voiceRecognition.value == s.voiceRecognition) &&
      (p.aiMode.Some? ==> p.aiMode.value == s.aiMode) &&
      (p.apiKey.Some? ==> p.apiKey.value == s.apiKey)
    ensures p == NO_CHANGES ==> Overlay(s, p) == s
  {
  }

  /** Applying the same patch twice is applying it once. */
  lemma OverlayIdempotent(s: AppSettings, p: SettingsPatch)
    ensures Overlay(Overlay(s, p), p) == Overlay(s, p)
  {
  }

  /** Two updates in a row are one update with the patches combined. */
  lemma OverlayThen(s: AppSettings, p: SettingsPatch, q: SettingsPatch)
    ensures Overlay(Overlay(s, p), q) == Overlay(s, Then(p, q))
  {
  }

  /** Spreading stored settings over a base gives them back exactly, unless the
      stored settings have no key and the base has one. */
  lemma SerializeOverlay(base: AppSettings, s: AppSettings)
    ensures Overlay(base, Serialize(s)) == s <==> s.apiKey.Some? || base.apiKey.None?
  {
    if s.apiKey.None? && base.apiKey.Some? {
      assert Overlay(base, Serialize(s)).apiKey != s.apiKey;
    }
  }

  /** What an update writes, a later load reads back unchanged. */
  lemma StoreThenLoad(current: AppSettings, s: AppSettings)
    ensures Loaded(current, true, Some(Json(Serialize(s)))) == s
  {
    SerializeOverlay(DEFAULT_SETTINGS, s);
  }

  /** The first load: a stored object read successfully is spread over the defaults;
      every other outcome (a failed read, no value, empty or malformed text, a JSON
      value that is not an object) leaves the defaults. */
  lemma FirstLoad(readOk: bool, stored: Option<StoredValue>)
    ensures var r := Loaded(DEFAULT_SETTINGS, readOk, stored);
      (readOk && stored.Some? && stored.value.Json? ==> r == Overlay(DEFAULT_SETTINGS, stored.value.fields)) &&
      (!(readOk && stored.Some? && stored.value.Json?) ==> r == DEFAULT_SETTINGS)
  {
  }

  /** A value that parses replaces the settings held before the load: the result does
      not depend on them. Any other outcome keeps them. */
  lemma LoadForgetsCurrent(c1: AppSettings, c2: AppSettings, readOk: bool, stored: Option<StoredValue>)
    ensures readOk && stored.Some? && (stored.value.Json? || stored.value.OtherJson?) ==>
      Loaded(c1, readOk, stored) == Loaded(c2, readOk, stored)
    ensures !(readOk && stored.Some? && (stored.value.Json? || stored.value.OtherJson?)) ==>
      Loaded(c1, readOk, stored) == c1
  {
  }

  /** A stored object that lacks a key gets that key from the defaults, not from the
      settings held before the load. */
  lemma LoadFillsMissingKeys(current: AppSettings, fields: SettingsPatch)
    ensures var r := Loaded(current, true, Some(Json(fields)));
      (fields.darkMode.None? ==> r.darkMode == DEFAULT_SETTINGS.darkMode) &&
      (fields.contrast.None? ==> r.contrast == DEFAULT_SETTINGS.contrast) &&
      (fields.voiceRecognition.None? ==> r.voiceRecognition == DEFAULT_SETTINGS.voiceRecognition) &&
      (fields.aiMode.None? ==> r.aiMode == "offline") &&
      (fields.apiKey.None? ==> r.apiKey.None?)
  {
  }

  /** A fresh hook that loads after an update stored `s` starts from `s`. */
  method UpdateSurvivesReload(store: map<string, StoredValue>, patch: SettingsPatch)
    returns (before: AppSettings, after: AppSettings)
    ensures after == before
  {
    var hook := new SettingsHook(store);
    hook.LoadSettings(true);
    hook.UpdateSettings(patch, true);
    before := hook.settings;
    var reloaded := new SettingsHook(hook.preferences);
    reloaded.LoadSettings(true);
    after := reloaded.settings;
    StoreThenLoad(DEFAULT_SETTINGS, before);
  }
}
