/** The preferences store: one persisted slot holding the user's preferences as a JSON blob. */
module SettingsStore {
  import opened Wrappers

  /** A preferences object. A key the object does not carry is `None`; the store itself never
      fills missing keys in. */
  datatype Prefs = Prefs(theme: Option<string>, autoStartOnBoot: Option<bool>, compactMode: Option<bool>)

  /** What the persisted slot may hold: a parseable blob, or text `JSON.parse` rejects. */
  datatype Stored = Parsed(prefs: Prefs) | Malformed

  const FetchFailed := "Failed to fetch user preferences"
  const ThemeUpdateFailed := "Failed to update theme preference"
  const PreferencesUpdateFailed := "Failed to update preferences"

  /** The themes `updateTheme` accepts. */
  const ValidThemes: seq<string> := ["light", "dark", "auto"]

  /** `{ ...current, ...patch }`: every key the patch carries overwrites, every other key is kept. */
  function Merge(current: Prefs, patch: Prefs): (r: Prefs)
    ensures patch.theme.Some? ==> r.theme == patch.theme
    ensures patch.theme.None? ==> r.theme == current.theme
    ensures patch.autoStartOnBoot.Some? ==> r.autoStartOnBoot == patch.autoStartOnBoot
    ensures patch.autoStartOnBoot.None? ==> r.autoStartOnBoot == current.autoStartOnBoot
    ensures patch.compactMode.Some? ==> r.compactMode == patch.compactMode
    ensures patch.compactMode.None? ==> r.compactMode == current.compactMode
  {
    Prefs(if patch.theme.Some? then patch.theme else current.theme,
          if patch.autoStartOnBoot.Some? then patch.autoStartOnBoot else current.autoStartOnBoot,
          if patch.compactMode.Some? then patch.compactMode else current.compactMode)
  }

  /** The patch `updateTheme` spreads: `{ theme: name }`. */
  function ThemeOnly(name: string): (p: Prefs)
    ensures p.theme == Some(name) && p.autoStartOnBoot.None? && p.compactMode.None?
  {
    Prefs(Some(name), None, None)
  }

  /** Merging the same patch a second time changes nothing. */
  lemma MergeIdempotent(current: Prefs, patch: Prefs)
    ensures Merge(Merge(current, patch), patch) == Merge(current, patch)
  {
  }

  /** Two merges in a row are one merge with the later patch laid over the earlier. */
  lemma MergeTwice(current: Prefs, first: Prefs, second: Prefs)
    ensures Merge(Merge(current, first), second) == Merge(current, Merge(first, second))
  {
  }

  /** A patch that carries every key replaces the record outright. */
  lemma MergeFullPatch(current: Prefs, patch: Prefs)
    requires patch.theme.Some? && patch.autoStartOnBoot.Some? && patch.compactMode.Some?
    ensures Merge(current, patch) == patch
  {
  }

  class SettingsService {
    /** The `app_preferences` slot; `None` when nothing (or an empty string) is stored. */
    var slot: Option<Stored>
    /** The fixture the store falls back to. */
    const defaults: Prefs

    constructor (slot: Option<Stored>, defaults: Prefs)
      ensures this.slot == slot && this.defaults == defaults
    {
      this.slot := slot;
      this.defaults := defaults;
    }

    /** `getPreferences`: the defaults when the slot is empty, the stored record as it is
        (not merged with the defaults) otherwise; a blob that does not parse is an error. */
    function GetPreferences(): (r: Result<Prefs, string>)
      reads this
      ensures slot.None? ==> r == Ok(defaults)
      ensures slot.Some? && slot.value.Parsed? ==> r == Ok(slot.value.prefs)
      ensures r.Err? <==> slot == Some(Malformed)
      ensures r.Err? ==> r.error == FetchFailed
    {
      match slot
      case None => Ok(defaults)
      case Some(Parsed(p)) => Ok(p)
      case Some(Malformed) => Err(FetchFailed)
    }

    /** `updateTheme`: a name outside the valid themes, or a slot that does not parse, fails
        and persists nothing; otherwise the current record with only `theme` replaced is
        persisted and returned. */
    method UpdateTheme(name: string) returns (r: Result<Prefs, string>)
      modifies this
      ensures name !in ValidThemes ==> r == Err(ThemeUpdateFailed) && slot == old(slot)
      ensures name in ValidThemes && old(GetPreferences()).Err? ==>
        r == Err(ThemeUpdateFailed) && slot == old(slot)
      ensures name in ValidThemes && old(GetPreferences()).Ok? ==>
        r == Ok(Merge(old(GetPreferences()).value, ThemeOnly(name))) && slot == Some(Parsed(r.value))
    {
      if name !in ValidThemes {
        return Err(ThemeUpdateFailed);
      }
      var current := GetPreferences();
      if current.Err? {
        return Err(ThemeUpdateFailed);
      }
      var updated := Merge(current.value, ThemeOnly(name));
      slot := Some(Parsed(updated));
      r := Ok(updated);
    }

    /** `updatePreferences`: a missing settings object, or a slot that does not parse, fails
        and persists nothing; otherwise `{ ...current, ...settings }` is persisted and returned. */
    method UpdatePreferences(settings: Option<Prefs>) returns (r: Result<Prefs, string>)
      modifies this
      ensures settings.None? ==> r == Err(PreferencesUpdateFailed) && slot == old(slot)
      ensures settings.Some? && old(GetPreferences()).Err? ==>
        r == Err(PreferencesUpdateFailed) && slot == old(slot)
      ensures settings.Some? && old(GetPreferences()).Ok? ==>
        r == Ok(Merge(old(GetPreferences()).value, settings.value)) && slot == Some(Parsed(r.value))
    {
      if settings.None? {
        return Err(PreferencesUpdateFailed);
      }
      var current := GetPreferences();
      if current.Err? {
        return Err(PreferencesUpdateFailed);
      }
      var updated := Merge(current.value, settings.value);
      slot := Some(Parsed(updated));
      r := Ok(updated);
    }

    /** `resetToDefaults`: clear the slot and return the defaults, so that the next read sees them. */
    method ResetToDefaults() returns (r: Prefs)
      modifies this
      ensures slot.None? && r == defaults
      ensures GetPreferences() == Ok(defaults)
    {
      slot := None;
      r := defaults;
    }
  }

  /** Applying the same `updatePreferences` twice leaves the slot as applying it once does. */
  method UpdateTwiceSameAsOnce(s: SettingsService, settings: Prefs)
    modifies s
    ensures old(s.GetPreferences()).Ok? ==> s.slot == Some(Parsed(Merge(old(s.GetPreferences()).value, settings)))
    ensures old(s.GetPreferences()).Err? ==> s.slot == old(s.slot)
  {
    var first := s.UpdatePreferences(Some(settings));
    var second := s.UpdatePreferences(Some(settings));
    if first.Ok? {
      MergeIdempotent(first.value, settings);
    }
  }
}
