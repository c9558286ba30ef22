/**
 * `createStorage`: a store over one key-value slot. Every read heals the slot
 * by writing the normalised state back; every change is a whole-aggregate
 * read-modify-write (load, change one collection or the settings, save).
 */
module Store {
  import opened Entities
  import opened SeedState
  import opened Sequences

  class Storage {
    /** The persisted slot under the store's key. */
    var slot: Slot

    /** The state a load would return now. */
    function State(): StorageState
      reads this
    {
      ParseStoredState(slot)
    }

    /** The slot holds exactly the stored form of the state it yields. */
    predicate Healed()
      reads this
    {
      slot == Present(AsStored(State()))
    }

    constructor (initial: Slot)
      ensures slot == initial
    {
      slot := initial;
    }

    /** Writes `state` to the slot. */
    method Persist(state: StorageState)
      requires WellFormed(state)
      modifies this
      ensures slot == Present(AsStored(state))
      ensures State() == state
    {
      slot := Present(AsStored(state));
      StoredRoundTrip(state);
    }

    method Load() returns (state: StorageState)
      modifies this
      ensures state == old(State())
      ensures State() == state && Healed()
    {
      state := ParseStoredState(slot);
      Persist(state);
    }

    method Save(next: RawState) returns (state: StorageState)
      modifies this
      ensures state == BuildSeedState(next)
      ensures State() == state && Healed()
    {
      state := BuildSeedState(next);
      Persist(state);
    }

    method Clear() returns (state: StorageState)
      modifies this
      ensures slot == Missing
      ensures state == Seed() && State() == Seed()
    {
      slot := Missing;
      state := BuildSeedState(EmptyBlob);
    }

    method GetExpenses() returns (r: seq<Expense>)
      modifies this
      ensures r == old(State()).expenses
      ensures State() == old(State()) && Healed()
    {
      var state := Load();
      r := state.expenses;
    }

    method AddExpense(expense: Expense) returns (r: seq<Expense>)
      modifies this
      ensures r == old(State()).expenses + [expense]
      ensures State() == old(State()).(expenses := r) && Healed()
    {
      var state := Load();
      state := state.(expenses := state.expenses + [expense]);
      var _ := Save(AsStored(state));
      r := state.expenses;
    }

    method UpdateExpense(id: string, updates: ExpensePatch) returns (r: seq<Expense>)
      modifies this
      ensures r == UpdateById(old(State()).expenses, ExpenseId, id, MergeExpense, updates)
      ensures State() == old(State()).(expenses := r) && Healed()
    {
      var state := Load();
      state := state.(expenses := UpdateById(state.expenses, ExpenseId, id, MergeExpense, updates));
      var _ := Save(AsStored(state));
      r := state.expenses;
    }

    method DeleteExpense(id: string) returns (r: seq<Expense>)
      modifies this
      ensures r == DeleteById(old(State()).expenses, ExpenseId, id)
      ensures State() == old(State()).(expenses := r) && Healed()
    {
      var state := Load();
      state := state.(expenses := DeleteById(state.expenses, ExpenseId, id));
      var _ := Save(AsStored(state));
      r := state.expenses;
    }

    method GetSettings() returns (r: Settings)
      modifies this
      ensures r == old(State()).settings
      ensures State() == old(State()) && Healed()
    {
      var state := Load();
      r := state.settings;
    }

    method UpdateSettings(updates: SettingsPatch) returns (r: Settings)
      modifies this
      ensures r == MergeSettings(old(State()).settings, updates)
      ensures State() == old(State()).(settings := r) && Healed()
    {
      var state := Load();
      state := state.(settings := MergeSettings(state.settings, updates));
      var _ := Save(AsStored(state));
      r := state.settings;
    }

    method GetCategories() returns (r: seq<Category>)
      modifies this
      ensures r == old(State()).categories
      ensures State() == old(State()) && Healed()
    {
      var state := Load();
      r := state.categories;
    }

    method AddCategory(category: Category) returns (r: seq<Category>)
      modifies this
      ensures r == old(State()).categories + [category]
      ensures State() == old(State()).(categories := r) && Healed()
    {
      var state := Load();
      state := state.(categories := state.categories + [category]);
      var _ := Save(AsStored(state));
      r := state.categories;
    }

    method UpdateCategory(id: string, updates: CategoryPatch) returns (r: seq<Category>)
      modifies this
      ensures r == UpdateById(old(State()).categories, CategoryId, id, MergeCategory, updates)
      ensures State() == old(State()).(categories := r) && Healed()
    {
      var state := Load();
      state := state.(categories := UpdateById(state.categories, CategoryId, id, MergeCategory, updates));
      var _ := Save(AsStored(state));
      r := state.categories;
    }

    /**
     * Deleting the last category returns the empty list, while the save that
     * follows normalises it, so the slot then holds the five defaults.
     */
    method DeleteCategory(id: string) returns (r: seq<Category>)
      modifies this
      ensures r == DeleteById(old(State()).categories, CategoryId, id)
      ensures State() == old(State()).(categories := if r == [] then DefaultCategories else r) && Healed()
    {
      var state := Load();
      state := state.(categories := DeleteById(state.categories, CategoryId, id));
      if state.categories == [] {
        EmptyCategoriesHeal(state);
      }
      var _ := Save(AsStored(state));
      r := state.categories;
    }

    method GetImportedStatements() returns (r: seq<ImportedStatement>)
      modifies this
      ensures r == old(State()).importedStatements
      ensures State() == old(State()) && Healed()
    {
      var state := Load();
      r := state.importedStatements;
    }

    method AddImportedStatement(statement: ImportedStatement) returns (r: seq<ImportedStatement>)
      modifies this
      ensures r == old(State()).importedStatements + [statement]
      ensures State() == old(State()).(importedStatements := r) && Healed()
    {
      var state := Load();
      state := state.(importedStatements := state.importedStatements + [statement]);
      var _ := Save(AsStored(state));
      r := state.importedStatements;
    }

    method UpdateImportedStatement(id: string, updates: StatementPatch) returns (r: seq<ImportedStatement>)
      modifies this
      ensures r == UpdateById(old(State()).importedStatements, StatementId, id, MergeStatement, updates)
      ensures State() == old(State()).(importedStatements := r) && Healed()
    {
      var state := Load();
      state := state.(importedStatements := UpdateById(state.importedStatements, StatementId, id, MergeStatement, updates));
      var _ := Save(AsStored(state));
      r := state.importedStatements;
    }

    method DeleteImportedStatement(id: string) returns (r: seq<ImportedStatement>)
      modifies this
      ensures r == DeleteById(old(State()).importedStatements, StatementId, id)
      ensures State() == old(State()).(importedStatements := r) && Healed()
    {
      var state := Load();
      state := state.(importedStatements := DeleteById(state.importedStatements, StatementId, id));
      var _ := Save(AsStored(state));
      r := state.importedStatements;
    }
  }

  /** Two loads with no write in between return the same state, and the second heals nothing further. */
  method LoadTwice(store: Storage) returns (first: StorageState, second: StorageState)
    modifies store
    ensures first == second == old(store.State())
  {
    first := store.Load();
    second := store.Load();
  }

  /** A save followed by a load returns the normalised saved blob; a clear followed by a load returns the seed. */
  method SaveThenLoad(store: Storage, next: RawState) returns (saved: StorageState, loaded: StorageState)
    modifies store
    ensures saved == loaded == BuildSeedState(next)
  {
    saved := store.Save(next);
    loaded := store.Load();
  }

  method ClearThenLoad(store: Storage) returns (loaded: StorageState)
    modifies store
    ensures loaded == Seed()
  {
    var _ := store.Clear();
    loaded := store.Load();
  }

  /** `save(load())` leaves the slot exactly as the load left it. */
  method SaveOfLoadIsNoop(store: Storage) returns (loaded: StorageState)
    modifies store
    ensures store.State() == old(store.State()) && store.slot == Present(AsStored(loaded))
  {
    loaded := store.Load();
    var _ := store.Save(AsStored(loaded));
  }

  /** Deleting an id twice leaves the same expenses as deleting it once; an absent id changes nothing. */
  method DeleteExpenseTwice(store: Storage, id: string) returns (once: seq<Expense>, twice: seq<Expense>)
    modifies store
    ensures once == twice
    ensures (forall e :: e in old(store.State()).expenses ==> e.id != id) ==> once == old(store.State()).expenses
  {
    once := store.DeleteExpense(id);
    twice := store.DeleteExpense(id);
    DeleteByIdIdempotent(old(store.State()).expenses, ExpenseId, id);
  }
}
