/**
 * The normaliser of the persisted blob (`buildSeedState`) and the reading of
 * the one storage slot (`parseStoredState`). Whatever the slot holds, the
 * result is a well-formed state; each of the four fields is defaulted on its
 * own.
 */
module SeedState {
  import opened Wrappers
  import opened Entities

  const DefaultCategories: seq<Category> := [
    Category("food", "Food", "\U{1F374}"),
    Category("transport", "Transport", "\U{1F697}"),
    Category("shopping", "Shopping", "\U{1F6CD}\U{FE0F}"),
    Category("fun", "Fun", "\U{2728}"),
    Category("other", "Other", "\U{2026}")
  ]

  const DefaultSettings := Settings("weekly", 0, "\U{20AA}", "he-IL", false)

  /** A stored field that should hold a list: anything that is not an array, or an array. */
  datatype RawList<T> = NotArray | Array(items: seq<T>)

  /**
   * A parsed blob. `settings` is `None` when the stored value is falsy or
   * missing, and otherwise the object whose keys are spread over the defaults.
   */
  datatype RawState = RawState(
    settings: Option<SettingsPatch>,
    categories: RawList<Category>,
    expenses: RawList<Expense>,
    importedStatements: RawList<ImportedStatement>)

  /** The storage slot: nothing (or the empty string) stored, text that does not parse, or a parsed blob. */
  datatype Slot = Missing | Corrupt | Present(raw: RawState)

  /** The blob `buildSeedState()` sees when called without an argument. */
  const EmptyBlob := RawState(None, NotArray, NotArray, NotArray)

  /** A state as the store keeps it: there is always at least one category. */
  predicate WellFormed(s: StorageState) {
    |s.categories| > 0
  }

  function BuildSeedState(stored: RawState): (s: StorageState)
    ensures WellFormed(s)
    ensures stored.categories.Array? && |stored.categories.items| > 0 ==> s.categories == stored.categories.items
    ensures stored.categories.NotArray? || stored.categories.items == [] ==> s.categories == DefaultCategories
    ensures stored.settings.None? ==> s.settings == DefaultSettings
    ensures stored.settings.Some? ==> s.settings == MergeSettings(DefaultSettings, stored.settings.value)
    ensures stored.expenses.Array? ==> s.expenses == stored.expenses.items
    ensures stored.expenses.NotArray? ==> s.expenses == []
    ensures stored.importedStatements.Array? ==> s.importedStatements == stored.importedStatements.items
    ensures stored.importedStatements.NotArray? ==> s.importedStatements == []
  {
    var categories :=
      if stored.categories.Array? && |stored.categories.items| > 0 then stored.categories.items
      else DefaultCategories;
    var settings := MergeSettings(DefaultSettings, stored.settings.GetOr(NoSettingsChange));
    var expenses := if stored.expenses.Array? then stored.expenses.items else [];
    var importedStatements := if stored.importedStatements.Array? then stored.importedStatements.items else [];
    StorageState(settings, categories, expenses, importedStatements)
  }

  /** The seed state: five default categories, the default settings, no expenses and no statements. */
  function Seed(): StorageState {
    BuildSeedState(EmptyBlob)
  }

  /** The blob a state becomes once it has been written to the slot and read back. */
  function AsStored(s: StorageState): RawState {
    RawState(Some(FullSettings(s.settings)), Array(s.categories), Array(s.expenses), Array(s.importedStatements))
  }

  /** What reading the slot yields: the seed when nothing usable is there, the normalised blob otherwise. */
  function ParseStoredState(slot: Slot): (s: StorageState)
    ensures WellFormed(s)
    ensures !slot.Present? ==> s == Seed()
  {
    match slot
    case Missing => BuildSeedState(EmptyBlob)
    case Corrupt => BuildSeedState(EmptyBlob)
    case Present(raw) => BuildSeedState(raw)
  }

  lemma SeedContents()
    ensures Seed() == StorageState(DefaultSettings, DefaultCategories, [], [])
  {
  }

  /** A well-formed state survives being stored and normalised again unchanged. */
  lemma StoredRoundTrip(s: StorageState)
    requires WellFormed(s)
    ensures BuildSeedState(AsStored(s)) == s
  {
  }

  /** A state with no categories is stored as-is but read back with the five defaults; nothing else changes. */
  lemma EmptyCategoriesHeal(s: StorageState)
    requires s.categories == []
    ensures BuildSeedState(AsStored(s)) == s.(categories := DefaultCategories)
  {
  }

  /** `buildSeedState` is idempotent. */
  lemma SeedIdempotent(stored: RawState)
    ensures BuildSeedState(AsStored(BuildSeedState(stored))) == BuildSeedState(stored)
  {
  }

  /** A stored `{ budget: 500 }` gives the default settings with only the budget replaced. */
  lemma StoredBudgetOnly()
    ensures BuildSeedState(EmptyBlob.(settings := Some(NoSettingsChange.(budget := Some(500))))).settings
         == DefaultSettings.(budget := 500)
  {
  }

  /** Normalisation is field by field: a field of the result depends only on the same field of the blob. */
  lemma FieldsIndependent(a: RawState, b: RawState)
    ensures a.settings == b.settings ==> BuildSeedState(a).settings == BuildSeedState(b).settings
    ensures a.categories == b.categories ==> BuildSeedState(a).categories == BuildSeedState(b).categories
    ensures a.expenses == b.expenses ==> BuildSeedState(a).expenses == BuildSeedState(b).expenses
    ensures a.importedStatements == b.importedStatements
            ==> BuildSeedState(a).importedStatements == BuildSeedState(b).importedStatements
  {
  }
}
