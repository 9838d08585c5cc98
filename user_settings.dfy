/** The user settings store of src/lib/userSettings.ts: two string fields
    under one storage key, read as defaults overlaid with whatever the stored
    object holds. */
module UserSettings {
  import opened Wrappers

  const StorageKey: string := "user_settings"

  datatype Settings = Settings(defaultTier: string, budgetLimit: string)

  /** An object that may lack either field: a parsed stored object, or the
      argument of `saveSettings`. */
  datatype PartialSettings = PartialSettings(defaultTier: Option<string>, budgetLimit: Option<string>)

  const Defaults: Settings := Settings("standard", "10")

  /** The text under the storage key, once parsed. */
  datatype StoredSettings = Object(fields: PartialSettings) | Unparseable(raw: string)

  /** `{ ...base, ...partial }`: a field present in `partial` wins. */
  function Overlay(base: Settings, partial: PartialSettings): (s: Settings)
    ensures partial.defaultTier.Some? ==> s.defaultTier == partial.defaultTier.value
    ensures partial.defaultTier.None? ==> s.defaultTier == base.defaultTier
    ensures partial.budgetLimit.Some? ==> s.budgetLimit == partial.budgetLimit.value
    ensures partial.budgetLimit.None? ==> s.budgetLimit == base.budgetLimit
  {
    Settings(partial.defaultTier.GetOr(base.defaultTier), partial.budgetLimit.GetOr(base.budgetLimit))
  }

  /** A complete settings object written out as JSON and read back. */
  function AsPartial(s: Settings): PartialSettings {
    PartialSettings(Some(s.defaultTier), Some(s.budgetLimit))
  }

  /** `getSettings`: nothing stored or unparseable text gives the defaults;
      a stored object is overlaid on the defaults. */
  function GetSettings(slot: Option<StoredSettings>): (s: Settings)
    ensures slot.None? || slot.value.Unparseable? ==> s == Defaults
    ensures slot.Some? && slot.value.Object? ==> s == Overlay(Defaults, slot.value.fields)
  {
    match slot
    case Some(Object(fields)) => Overlay(Defaults, fields)
    case _ => Defaults
  }

  /** What `saveSettings(partial)` leaves in the slot. */
  function SavedSlot(slot: Option<StoredSettings>, partial: PartialSettings): Option<StoredSettings> {
    Some(Object(AsPartial(Overlay(GetSettings(slot), partial))))
  }

  /** After a save, reading gives the previous settings with exactly the
      fields of the partial replaced. */
  lemma SaveThenGet(slot: Option<StoredSettings>, partial: PartialSettings)
    ensures GetSettings(SavedSlot(slot, partial)) == Overlay(GetSettings(slot), partial)
  {
  }

  /** Overlaying the same partial twice is the same as once. */
  lemma OverlayIdempotent(base: Settings, partial: PartialSettings)
    ensures Overlay(Overlay(base, partial), partial) == Overlay(base, partial)
  {
  }

  /** Saving the same partial twice stores the same value as saving it once. */
  lemma {:induction false} SaveIdempotent(slot: Option<StoredSettings>, partial: PartialSettings)
    ensures SavedSlot(SavedSlot(slot, partial), partial) == SavedSlot(slot, partial)
  {
    SaveThenGet(slot, partial);
    OverlayIdempotent(GetSettings(slot), partial);
  }

  /** The storage slot under `user_settings`. */
  class SettingsStorage {
    var slot: Option<StoredSettings>

    constructor (initial: Option<StoredSettings>)
      ensures slot == initial
    {
      slot := initial;
    }

    /** `saveSettings`: merge the partial over the current settings and
        write the complete object. */
    method SaveSettings(partial: PartialSettings)
      modifies this
      ensures slot == SavedSlot(old(slot), partial)
      ensures GetSettings(slot) == Overlay(GetSettings(old(slot)), partial)
    {
      var current := GetSettings(slot);
      slot := Some(Object(AsPartial(Overlay(current, partial))));
    }
  }
}
