/**
 * The persisted entities (the shapes of storage.ts) and the partial updates
 * applied to them. A partial update is a record of optional fields; merging
 * it is the JavaScript spread `{ ...entity, ...updates }`: every field the
 * update names wins, every other field keeps its value.
 */
module Entities {
  import opened Wrappers

  /** An expense; `amount` is in minor currency units and `timestamp` in milliseconds. */
  datatype Expense = Expense(
    id: string,
    amount: int,
    categoryId: string,
    title: Option<string>,
    description: Option<string>,
    timestamp: int,
    time: string,
    importedStatementId: Option<string>)

  datatype ExpensePatch = ExpensePatch(
    id: Option<string>,
    amount: Option<int>,
    categoryId: Option<string>,
    title: Option<string>,
    description: Option<string>,
    timestamp: Option<int>,
    time: Option<string>,
    importedStatementId: Option<string>)

  datatype Category = Category(id: string, name: string, icon: string)

  datatype CategoryPatch = CategoryPatch(id: Option<string>, name: Option<string>, icon: Option<string>)

  /**
   * The settings singleton. `period` is kept as the stored string: the balance
   * calculation treats every value other than "weekly" and "monthly" as daily.
   */
  datatype Settings = Settings(period: string, budget: int, currency: string, locale: string, alertsEnabled: bool)

  datatype SettingsPatch = SettingsPatch(
    period: Option<string>,
    budget: Option<int>,
    currency: Option<string>,
    locale: Option<string>,
    alertsEnabled: Option<bool>)

  datatype ImportedStatement = ImportedStatement(id: string, source: string, importedAt: int, total: int, items: seq<Expense>)

  datatype StatementPatch = StatementPatch(
    id: Option<string>,
    source: Option<string>,
    importedAt: Option<int>,
    total: Option<int>,
    items: Option<seq<Expense>>)

  /** The aggregate that is persisted as one blob. */
  datatype StorageState = StorageState(
    settings: Settings,
    categories: seq<Category>,
    expenses: seq<Expense>,
    importedStatements: seq<ImportedStatement>)

  const NoExpenseChange := ExpensePatch(None, None, None, None, None, None, None, None)
  const NoCategoryChange := CategoryPatch(None, None, None)
  const NoSettingsChange := SettingsPatch(None, None, None, None, None)
  const NoStatementChange := StatementPatch(None, None, None, None, None)

  function ExpenseId(e: Expense): string { e.id }
  function CategoryId(c: Category): string { c.id }
  function StatementId(s: ImportedStatement): string { s.id }

  /** The value an optional field of `patch` gives, over `current`. */
  function Override<T>(patch: Option<T>, current: Option<T>): Option<T> {
    if patch.Some? then patch else current
  }

  function MergeExpense(e: Expense, p: ExpensePatch): Expense {
    Expense(
      p.id.GetOr(e.id),
      p.amount.GetOr(e.amount),
      p.categoryId.GetOr(e.categoryId),
      Override(p.title, e.title),
      Override(p.description, e.description),
      p.timestamp.GetOr(e.timestamp),
      p.time.GetOr(e.time),
      Override(p.importedStatementId, e.importedStatementId))
  }

  function MergeCategory(c: Category, p: CategoryPatch): Category {
    Category(p.id.GetOr(c.id), p.name.GetOr(c.name), p.icon.GetOr(c.icon))
  }

  function MergeSettings(s: Settings, p: SettingsPatch): Settings {
    Settings(
      p.period.GetOr(s.period),
      p.budget.GetOr(s.budget),
      p.currency.GetOr(s.currency),
      p.locale.GetOr(s.locale),
      p.alertsEnabled.GetOr(s.alertsEnabled))
  }

  function MergeStatement(s: ImportedStatement, p: StatementPatch): ImportedStatement {
    ImportedStatement(
      p.id.GetOr(s.id),
      p.source.GetOr(s.source),
      p.importedAt.GetOr(s.importedAt),
      p.total.GetOr(s.total),
      p.items.GetOr(s.items))
  }

  /** The update naming every field of `s`: spread over anything, it yields `s`. */
  function FullSettings(s: Settings): SettingsPatch {
    SettingsPatch(Some(s.period), Some(s.budget), Some(s.currency), Some(s.locale), Some(s.alertsEnabled))
  }

  /**
   * The spread laws for an expense: every field the update names takes the
   * update's value, every other field keeps its own; so an empty update is
   * the identity and merging twice is merging once.
   */
  lemma ExpenseMergeLaws(e: Expense, p: ExpensePatch)
    ensures p.id.Some? ==> MergeExpense(e, p).id == p.id.value
    ensures p.id.None? ==> MergeExpense(e, p).id == e.id
    ensures p.amount.Some? ==> MergeExpense(e, p).amount == p.amount.value
    ensures p.amount.None? ==> MergeExpense(e, p).amount == e.amount
    ensures p.categoryId.Some? ==> MergeExpense(e, p).categoryId == p.categoryId.value
    ensures p.categoryId.None? ==> MergeExpense(e, p).categoryId == e.categoryId
    ensures p.title.Some? ==> MergeExpense(e, p).title == p.title
    ensures p.title.None? ==> MergeExpense(e, p).title == e.title
    ensures p.description.Some? ==> MergeExpense(e, p).description == p.description
    ensures p.description.None? ==> MergeExpense(e, p).description == e.description
    ensures p.timestamp.Some? ==> MergeExpense(e, p).timestamp == p.timestamp.value
    ensures p.timestamp.None? ==> MergeExpense(e, p).timestamp == e.timestamp
    ensures p.time.Some? ==> MergeExpense(e, p).time == p.time.value
    ensures p.time.None? ==> MergeExpense(e, p).time == e.time
    ensures p.importedStatementId.Some? ==> MergeExpense(e, p).importedStatementId == p.importedStatementId
    ensures p.importedStatementId.None? ==> MergeExpense(e, p).importedStatementId == e.importedStatementId
    ensures MergeExpense(e, NoExpenseChange) == e
    ensures MergeExpense(MergeExpense(e, p), p) == MergeExpense(e, p)
  {
  }

  /** The same spread laws for a category. */
  lemma CategoryMergeLaws(c: Category, p: CategoryPatch)
    ensures p.id.Some? ==> MergeCategory(c, p).id == p.id.value
    ensures p.id.None? ==> MergeCategory(c, p).id == c.id
    ensures p.name.Some? ==> MergeCategory(c, p).name == p.name.value
    ensures p.name.None? ==> MergeCategory(c, p).name == c.name
    ensures p.icon.Some? ==> MergeCategory(c, p).icon == p.icon.value
    ensures p.icon.None? ==> MergeCategory(c, p).icon == c.icon
    ensures MergeCategory(c, NoCategoryChange) == c
    ensures MergeCategory(MergeCategory(c, p), p) == MergeCategory(c, p)
  {
  }

  /** The same spread laws for an imported statement. */
  lemma StatementMergeLaws(s: ImportedStatement, p: StatementPatch)
    ensures p.id.Some? ==> MergeStatement(s, p).id == p.id.value
    ensures p.id.None? ==> MergeStatement(s, p).id == s.id
    ensures p.source.Some? ==> MergeStatement(s, p).source == p.source.value
    ensures p.source.None? ==> MergeStatement(s, p).source == s.source
    ensures p.importedAt.Some? ==> MergeStatement(s, p).importedAt == p.importedAt.value
    ensures p.importedAt.None? ==> MergeStatement(s, p).importedAt == s.importedAt
    ensures p.total.Some? ==> MergeStatement(s, p).total == p.total.value
    ensures p.total.None? ==> MergeStatement(s, p).total == s.total
    ensures p.items.Some? ==> MergeStatement(s, p).items == p.items.value
    ensures p.items.None? ==> MergeStatement(s, p).items == s.items
    ensures MergeStatement(s, NoStatementChange) == s
    ensures MergeStatement(MergeStatement(s, p), p) == MergeStatement(s, p)
  {
  }

  /**
   * The settings merge keeps every key the update does not name and takes
   * every key it does; merging twice is merging once; a full update replaces.
   */
  lemma SettingsMergeLaws(s: Settings, p: SettingsPatch)
    ensures MergeSettings(s, NoSettingsChange) == s
    ensures MergeSettings(MergeSettings(s, p), p) == MergeSettings(s, p)
    ensures forall t :: MergeSettings(t, FullSettings(s)) == s
    ensures p.period.Some? ==> MergeSettings(s, p).period == p.period.value
    ensures p.period.None? ==> MergeSettings(s, p).period == s.period
    ensures p.budget.Some? ==> MergeSettings(s, p).budget == p.budget.value
    ensures p.budget.None? ==> MergeSettings(s, p).budget == s.budget
    ensures p.currency.Some? ==> MergeSettings(s, p).currency == p.currency.value
    ensures p.currency.None? ==> MergeSettings(s, p).currency == s.currency
    ensures p.locale.Some? ==> MergeSettings(s, p).locale == p.locale.value
    ensures p.locale.None? ==> MergeSettings(s, p).locale == s.locale
    ensures p.alertsEnabled.Some? ==> MergeSettings(s, p).alertsEnabled == p.alertsEnabled.value
    ensures p.alertsEnabled.None? ==> MergeSettings(s, p).alertsEnabled == s.alertsEnabled
  {
  }

  /** `{ budget: 500 }` over monthly settings with budget 0 gives budget 500 and keeps everything else. */
  lemma BudgetUpdateExample(s: Settings)
    requires s.period == "monthly" && s.budget == 0
    ensures MergeSettings(s, NoSettingsChange.(budget := Some(500))) == s.(budget := 500)
    ensures MergeSettings(s, NoSettingsChange.(budget := Some(500))).period == "monthly"
  {
  }
}
