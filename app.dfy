/**
 * The expense-entry front end of app.js: the keypad draft, the guarded
 * append of a new expense, the unscoped balance figures, the recent list and
 * the field-wise fallback load from its own storage slot.
 */
module App {
  import opened Wrappers
  import opened Entities
  import opened Sequences
  import opened Spending
  import Balance

  /** The in-progress expense form. */
  datatype Draft = Draft(amount: string, title: string, description: string, categoryId: string)

  const EmptyDraft := Draft("", "", "", "food")

  /** What a `handleKeypad(key)` press makes of the draft amount. */
  function KeypadStep(amount: string, key: string): string {
    if key == "back" then (if amount == [] then [] else amount[..|amount| - 1])
    else if key == "." then (if '.' in amount then amount else amount + ".")
    else amount + key
  }

  /** The draft amount after pressing `keys` in order, starting from `amount`. */
  function Typed(amount: string, keys: seq<string>): string {
    if keys == [] then amount
    else KeypadStep(Typed(amount, keys[..|keys| - 1]), keys[|keys| - 1])
  }

  /** A key the keypad can press: "back", ".", or a key without a decimal point. */
  predicate PlainKey(key: string) {
    key == "back" || key == "." || '.' !in key
  }

  predicate AtMostOneDot(s: string) {
    forall i, j :: 0 <= i < j < |s| && s[i] == '.' ==> s[j] != '.'
  }

  /** "back" removes the last character and leaves an empty amount empty; every other key is appended. */
  lemma KeypadEffects(amount: string, key: string)
    ensures key == "back" ==> KeypadStep(amount, key) + (if amount == [] then [] else [amount[|amount| - 1]]) == amount
    ensures key == "." ==> KeypadStep(amount, key) == amount + (if '.' in amount then [] else ".")
    ensures key != "back" && key != "." ==> KeypadStep(amount, key) == amount + key
  {
  }

  /** "back" undoes a one-character key whenever that key was appended. */
  lemma BackUndoesKey(amount: string, key: string)
    requires |key| == 1 && (key != "." || '.' !in amount)
    ensures KeypadStep(KeypadStep(amount, key), "back") == amount
  {
  }

  /** One key press keeps at most one decimal point. */
  lemma KeypadKeepsOneDot(amount: string, key: string)
    requires AtMostOneDot(amount) && PlainKey(key)
    ensures AtMostOneDot(KeypadStep(amount, key))
  {
  }

  /** From the reset draft, any sequence of key presses leaves at most one decimal point in the amount. */
  lemma {:induction false} TypedHasOneDot(keys: seq<string>)
    requires forall k :: k in keys ==> PlainKey(k)
    ensures AtMostOneDot(Typed(EmptyDraft.amount, keys))
  {
    if keys != [] {
      var init := keys[..|keys| - 1];
      assert forall k :: k in init ==> k in keys;
      TypedHasOneDot(init);
      KeypadKeepsOneDot(Typed(EmptyDraft.amount, init), keys[|keys| - 1]);
    }
  }

  /** The `updateBalance` figures: every expense is summed, with no period filter. */
  function UpdateBalanceFigures(budget: int, expenses: seq<Expense>): (f: Figures)
    ensures f.spent == SumAmounts(expenses)
    ensures f.left >= 0 && f.percent <= 1.0
    ensures budget <= 0 ==> f.percent == 0.0
    ensures f.spent <= budget ==> f.left == budget - f.spent
    ensures budget <= f.spent ==> f.left == 0
    ensures 0 < budget <= f.spent ==> f.percent == 1.0
    ensures 0 < budget && f.spent <= budget ==> f.percent == f.spent as real / budget as real
    ensures f == ComputeFigures(budget, f.spent)
    ensures (forall e :: e in expenses ==> e.amount >= 0) ==> f.percent >= 0.0
  {
    ComputeFigures(budget, SumAmounts(expenses))
  }

  /**
   * The unscoped figures are those of `calculateBalance` whenever every
   * expense falls in the current period: the two differ only by the filter.
   */
  lemma UnscopedAgreesWhenAllInPeriod(settings: Settings, expenses: seq<Expense>, c: Balance.Clock)
    requires Balance.ValidClock(c)
    requires forall e :: e in expenses ==> e.timestamp >= Balance.PeriodStart(settings.period, c)
    ensures var b := Balance.CalculateBalance(settings, expenses, c);
      UpdateBalanceFigures(settings.budget, expenses) == Figures(b.spent, b.left, b.percent)
  {
    var start := Balance.PeriodStart(settings.period, c);
    FilterKeepsAll(expenses, (e: Expense) => e.timestamp >= start);
  }

  /** `expenses.slice(-3).reverse()`: the last three expenses (or fewer), newest first. */
  function Recent(expenses: seq<Expense>): (r: seq<Expense>)
    ensures |r| == if |expenses| < 3 then |expenses| else 3
    ensures forall i :: 0 <= i < |r| ==> r[i] == expenses[|expenses| - 1 - i]
  {
    var from := if |expenses| < 3 then 0 else |expenses| - 3;
    Reverse(expenses[from..])
  }

  /** The blob saved under the app's own key; a field is `None` when it is missing or null. */
  datatype Saved = Saved(period: Option<string>, budget: Option<int>, expenses: Option<seq<Expense>>)

  /** The app's storage slot: nothing (or the empty string), unparsable text, or a parsed blob. */
  datatype AppSlot = NoValue | Unparsable | Stored(saved: Saved)

  /** JavaScript `stored || current` for a string field: the empty string is falsy. */
  function OrString(stored: Option<string>, current: string): string {
    if stored.Some? && stored.value != "" then stored.value else current
  }

  /** JavaScript `stored || current` for a number field: 0 is falsy. */
  function OrNumber(stored: Option<int>, current: int): int {
    if stored.Some? && stored.value != 0 then stored.value else current
  }

  /** JavaScript `stored || current` for an array field: every array is truthy. */
  function OrList(stored: Option<seq<Expense>>, current: seq<Expense>): seq<Expense> {
    if stored.Some? then stored.value else current
  }

  class ExpenseApp {
    var period: string
    var budget: int
    var expenses: seq<Expense>
    var draft: Draft
    /** The slot under the app's storage key. */
    var slot: AppSlot

    constructor (initial: AppSlot)
      ensures period == "daily" && budget == 0 && expenses == [] && draft == EmptyDraft
      ensures slot == initial
    {
      period, budget, expenses, draft := "daily", 0, [], EmptyDraft;
      slot := initial;
    }

    /** `saveState`: writes period, budget and expenses. */
    method SaveState()
      modifies this`slot
      ensures slot == Stored(Saved(Some(period), Some(budget), Some(expenses)))
    {
      slot := Stored(Saved(Some(period), Some(budget), Some(expenses)));
    }

    /** `loadState`: with nothing usable stored the state is unchanged; otherwise each falsy field keeps its value. */
    method LoadState()
      modifies this`period, this`budget, this`expenses
      ensures !old(slot).Stored? ==> period == old(period) && budget == old(budget) && expenses == old(expenses)
      ensures old(slot).Stored? ==>
        && period == OrString(old(slot).saved.period, old(period))
        && budget == OrNumber(old(slot).saved.budget, old(budget))
        && expenses == OrList(old(slot).saved.expenses, old(expenses))
    {
      if slot.Stored? {
        var parsed := slot.saved;
        if parsed.period.Some? && parsed.period.value != "" {
          period := parsed.period.value;
        }
        if parsed.budget.Some? && parsed.budget.value != 0 {
          budget := parsed.budget.value;
        }
        if parsed.expenses.Some? {
          expenses := parsed.expenses.value;
        }
      }
    }

    /** The state half of `updatePeriodSelection`. */
    method UpdatePeriodSelection(selected: string)
      modifies this`period
      ensures period == selected
    {
      period := selected;
    }

    /** The start button: with a zero budget nothing happens; otherwise the state is saved. */
    method Start()
      modifies this`slot
      ensures budget == 0 ==> slot == old(slot)
      ensures budget != 0 ==> slot == Stored(Saved(Some(period), Some(budget), Some(expenses)))
    {
      if budget == 0 {
        return;
      }
      SaveState();
    }

    /** A budget button: the budget becomes the button's amount. */
    method SelectBudget(amount: int)
      modifies this`budget
      ensures budget == amount
    {
      budget := amount;
    }

    /** A category chip: only the draft's category changes. */
    method SelectCategory(categoryId: string)
      modifies this`draft
      ensures draft == old(draft).(categoryId := categoryId)
    {
      draft := draft.(categoryId := categoryId);
    }

    /** The step to the category view: the typed title and description are copied into the draft. */
    method CopyDetails(title: string, description: string)
      modifies this`draft
      ensures draft == old(draft).(title := title, description := description)
    {
      draft := draft.(title := title, description := description);
    }

    /** `resetDraft`. */
    method ResetDraft()
      modifies this`draft
      ensures draft == EmptyDraft
    {
      draft := Draft("", "", "", "food");
    }

    /** `handleKeypad`: updates the draft amount only. */
    method HandleKeypad(key: string)
      modifies this`draft
      ensures draft == old(draft).(amount := KeypadStep(old(draft).amount, key))
    {
      if key == "back" {
        if |draft.amount| > 0 {
          draft := draft.(amount := draft.amount[..|draft.amount| - 1]);
        }
      } else if key == "." {
        if '.' !in draft.amount {
          draft := draft.(amount := draft.amount + ".");
        }
      } else {
        draft := draft.(amount := draft.amount + key);
      }
    }

    /**
     * `addExpense`. `parseNumber` stands for `Number(...)` (None for NaN), and
     * `id`, `now` and `time` for the generated id, `Date.now()` and the
     * formatted time. A zero or NaN amount changes nothing; otherwise exactly
     * one expense carrying the draft's fields is appended, the state saved
     * and the draft reset.
     */
    method AddExpense(parseNumber: string -> Option<int>, id: string, now: int, time: string)
      modifies this`expenses, this`draft, this`slot
      ensures var n := if old(draft).amount == "" then Some(0) else parseNumber(old(draft).amount);
        if n.None? || n.value == 0 then
          expenses == old(expenses) && draft == old(draft) && slot == old(slot)
        else
          && expenses == old(expenses) + [Expense(id, n.value, old(draft).categoryId, Some(old(draft).title),
                                                  Some(old(draft).description), now, time, None)]
          && draft == EmptyDraft
          && slot == Stored(Saved(Some(period), Some(budget), Some(expenses)))
    {
      var amountNumber := if draft.amount == "" then Some(0) else parseNumber(draft.amount);
      if amountNumber.None? || amountNumber.value == 0 {
        return;
      }
      expenses := expenses + [Expense(id, amountNumber.value, draft.categoryId, Some(draft.title),
                                      Some(draft.description), now, time, None)];
      SaveState();
      ResetDraft();
    }
  }

  /** Loading straight after saving changes nothing. */
  method SaveThenLoad(app: ExpenseApp)
    modifies app
    ensures app.period == old(app.period) && app.budget == old(app.budget) && app.expenses == old(app.expenses)
  {
    app.SaveState();
    app.LoadState();
  }

  /** An expense list retains one expense per accepted entry, newest last; the recent list shows it first. */
  method EnterOne(app: ExpenseApp, parseNumber: string -> Option<int>, id: string, now: int, time: string)
    requires app.draft.amount != "" && parseNumber(app.draft.amount).Some? && parseNumber(app.draft.amount).value != 0
    modifies app
    ensures |app.expenses| == |old(app.expenses)| + 1
    ensures Recent(app.expenses)[0].id == id && app.draft == EmptyDraft
  {
    app.AddExpense(parseNumber, id, now, time);
  }
}
