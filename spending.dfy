/**
 * The arithmetic shared by `calculateBalance` in storage.js and
 * `updateBalance` in app.js: the sum of the amounts, and the left/percent
 * figures clamped against the budget.
 */
module Spending {
  import opened Entities

  /** `expenses.reduce((sum, e) => sum + e.amount, 0)`. */
  function SumAmounts(xs: seq<Expense>): (total: int)
    ensures (forall e :: e in xs ==> e.amount >= 0) ==> total >= 0
    ensures (forall e :: e in xs ==> e.amount >= 0) ==> forall e :: e in xs ==> e.amount <= total
  {
    if xs == [] then 0 else xs[0].amount + SumAmounts(xs[1..])
  }

  lemma {:induction false} SumConcat(a: seq<Expense>, b: seq<Expense>)
    ensures SumAmounts(a + b) == SumAmounts(a) + SumAmounts(b)
  {
    if a == [] {
      assert a + b == b;
    } else {
      assert (a + b)[1..] == a[1..] + b;
      SumConcat(a[1..], b);
    }
  }

  datatype Figures = Figures(spent: int, left: int, percent: real)

  /**
   * What is left is the budget minus what was spent, but never below 0; the
   * share spent is spent over the budget, capped at 1, and 0 when the
   * budget is not positive.
   */
  function ComputeFigures(total: int, spent: int): (f: Figures)
    ensures f.spent == spent
    ensures f.left >= 0
    ensures spent <= total ==> f.left == total - spent
    ensures total <= spent ==> f.left == 0
    ensures f.percent <= 1.0
    ensures total <= 0 ==> f.percent == 0.0
    ensures 0 < total <= spent ==> f.percent == 1.0
    ensures 0 < total && spent <= total ==> f.percent == spent as real / total as real
    ensures 0 < total && spent <= total ==> f.percent * (total as real) == spent as real
    ensures spent >= 0 ==> f.percent >= 0.0
  {
    var left := if total - spent > 0 then total - spent else 0;
    var ratio := if total > 0 then spent as real / total as real else 0.0;
    var percent := if total > 0 then (if ratio < 1.0 then ratio else 1.0) else 0.0;
    Figures(spent, left, percent)
  }
}
