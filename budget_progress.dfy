/** The budget progress card (app/trust/BudgetProgress.tsx): the distributed total
    against the stored cap, and the cap editor. */
module BudgetProgress {
  import opened Base
  import opened Rows
  import opened Budget

  datatype BudgetSummary = BudgetSummary(totalDistributed: real, budgetCap: real, percentage: JsNum, remaining: real)

  /** The cap input: '' until something is typed, then `Number(e.target.value)`. */
  datatype CapInput = Blank | Entered(x: real)

  /** The summary for these rows and this cap: the distributions' total (null as 0),
      the clamped percentage, and the unclamped remainder. */
  function Compute(rows: seq<Tx>, cap: real): (s: BudgetSummary)
    ensures s.totalDistributed == SumWhere(rows, DISTRIBUTION)
    ensures s.budgetCap == cap
    ensures Consistent(s)
  {
    TotalOfIsSumWhere(rows, DISTRIBUTION);
    var total := TotalOf(rows, DISTRIBUTION);
    BudgetSummary(total, cap, Percent(total, cap), cap - total)
  }

  /** Percentage and remainder agree with the total and the cap. */
  predicate Consistent(s: BudgetSummary) {
    s.percentage == Percent(s.totalDistributed, s.budgetCap) && s.remaining == s.budgetCap - s.totalDistributed
  }

  class Card {
    var summary: BudgetSummary
    var editing: bool
    var newCap: CapInput

    /** What every state of the card keeps: the bar never passes 100%. */
    predicate Valid()
      reads this
    {
      AtMost100(summary.percentage)
    }

    constructor ()
      ensures summary == BudgetSummary(0.0, 0.0, Finite(0.0), 0.0)
      ensures !editing && newCap == Blank
      ensures Valid()
    {
      summary := BudgetSummary(0.0, 0.0, Finite(0.0), 0.0);
      editing := false;
      newCap := Blank;
    }

    /** fetchBudgetProgress: `settings` is the single trust_settings row's budget_cap
        (None when the row is missing), `transactions` the rows (None when null). Either
        missing leaves the summary as it was. */
    method FetchBudgetProgress(settings: Option<real>, transactions: Option<seq<Tx>>)
      requires Valid()
      modifies this`summary
      ensures Valid()
      ensures settings.None? || transactions.None? ==> summary == old(summary)
      ensures settings.Some? && transactions.Some? ==> summary == Compute(transactions.value, settings.value)
    {
      if settings.None? || transactions.None? {
        return;
      }
      var rows := transactions.value;
      var total := TotalOf(rows, DISTRIBUTION);
      summary := BudgetSummary(total, settings.value, Percent(total, settings.value), settings.value - total);
    }

    /** The "Edit Cap" button. */
    method StartEditing()
      modifies this`editing
      ensures editing
    {
      editing := true;
    }

    /** The "Cancel" button: the typed value is kept. */
    method CancelEditing()
      modifies this`editing
      ensures !editing
    {
      editing := false;
    }

    /** The input's onChange with `Number(e.target.value)`. */
    method SetNewCap(x: real)
      modifies this`newCap
      ensures newCap == Entered(x)
    {
      newCap := Entered(x);
    }

    /** The inputs that pass the guard: a number above 0. */
    predicate Accepts(c: CapInput) {
      c.Entered? && c.x > 0.0
    }

    /** handleUpdateCap: `updateError` is what the store answers to the update. A blank
        or non-positive cap, or a failed update, changes nothing; a successful one sets
        the cap, recomputes percentage and remainder from the unchanged total, ends
        editing and clears the input. */
    method HandleUpdateCap(updateError: Option<Error>)
      requires Valid()
      modifies this
      ensures Valid()
      ensures !Accepts(old(newCap)) || updateError.Some? ==>
                summary == old(summary) && editing == old(editing) && newCap == old(newCap)
      ensures Accepts(old(newCap)) && updateError.None? ==>
                && summary == old(summary).(budgetCap := old(newCap).x,
                                            percentage := Percent(old(summary).totalDistributed, old(newCap).x),
                                            remaining := old(newCap).x - old(summary).totalDistributed)
                && Consistent(summary) && summary.percentage.Finite?
                && !editing && newCap == Blank
    {
      if !newCap.Entered? || newCap.x <= 0.0 {
        return;
      }
      var cap := newCap.x;
      if updateError.Some? {
        return;
      }
      summary := summary.(budgetCap := cap,
                          percentage := Percent(summary.totalDistributed, cap),
                          remaining := cap - summary.totalDistributed);
      editing := false;
      newCap := Blank;
    }
  }

  // ---------------------------------------------------------------------------

  /** Only distributions count towards the budget: expenses and other types never
      move the total, percentage or remainder. */
  lemma OnlyDistributionsCount(rows: seq<Tx>, t: Tx, cap: real)
    requires !IsKind(t, DISTRIBUTION)
    ensures Compute(rows + [t], cap) == Compute(rows, cap)
  {
    OtherKindNeverContributes(rows, t, DISTRIBUTION);
    TotalOfIsSumWhere(rows + [t], DISTRIBUTION);
    TotalOfIsSumWhere(rows, DISTRIBUTION);
  }

  /** With no negative amount, the bar of a positive cap starts from 0 and the remainder
      never exceeds the cap. */
  lemma NonNegativeAmountsFillFromZero(rows: seq<Tx>, cap: real)
    requires cap > 0.0
    requires forall i :: 0 <= i < |rows| ==> AmountOr0(rows[i]) >= 0.0
    ensures Compute(rows, cap).percentage.Finite? && Compute(rows, cap).percentage.x >= 0.0
    ensures Compute(rows, cap).remaining <= cap
  {
    var d := OfKind(rows, DISTRIBUTION);
    forall i | 0 <= i < |d| ensures AmountOr0(d[i]) >= 0.0 {
      OfKindMembers(rows, DISTRIBUTION, d[i]);
      var j :| 0 <= j < |rows| && rows[j] == d[i];
    }
    SumAmountsNonNegative(d);
    TotalOfIsSumWhere(rows, DISTRIBUTION);
  }

  /** The remainder is not clamped: distributions above the cap leave it negative while
      the bar stays at 100. */
  lemma OverspentIsNegative(rows: seq<Tx>, cap: real)
    requires 0.0 < cap < SumWhere(rows, DISTRIBUTION)
    ensures Compute(rows, cap).remaining < 0.0
    ensures Compute(rows, cap).percentage == Finite(100.0)
  {
  }
}
