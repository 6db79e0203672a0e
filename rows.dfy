/** The fetched rows and the summary arithmetic that the trust pages, the trust report
    and the wellness reports all repeat: filter by type, sum `amount || 0`, count,
    guarded mean. */
module Rows {
  import opened Base

  const DISTRIBUTION := "distribution"
  const EXPENSE := "expense"

  /** A `transactions` row. Each trust file selects a subset of these columns; a column
      a file does not select is simply never read. */
  datatype Tx = Tx(createdAt: Option<string>, amount: Option<real>, kind: Option<string>, note: Option<string>)

  /** A `wellness` row. */
  datatype Entry = Entry(createdAt: string, mood: Option<int>, sleep: Option<real>,
                         exercise: Option<int>, journal: Option<string>)

  /** `amount || 0`, `amount ?? 0`, `Number(amount || 0)` and `sum + amount` (where a
      null adds 0) all read a null amount as 0. */
  function AmountOr0(t: Tx): real {
    t.amount.GetOr(0.0)
  }

  predicate IsKind(t: Tx, k: string) {
    t.kind == Some(k)
  }

  /** rows.filter(t => t.type === k), in row order. */
  function OfKind(rows: seq<Tx>, k: string): (r: seq<Tx>)
    ensures |r| <= |rows|
    ensures forall t :: t in r ==> IsKind(t, k)
  {
    if rows == [] then []
    else if IsKind(rows[0], k) then [rows[0]] + OfKind(rows[1..], k)
    else OfKind(rows[1..], k)
  }

  /** rows.reduce((s, t) => s + (t.amount || 0), 0). */
  function SumAmounts(rows: seq<Tx>): real {
    if rows == [] then 0.0 else AmountOr0(rows[0]) + SumAmounts(rows[1..])
  }

  /** The sum over the rows of type k: the source's filter-then-reduce. */
  function TotalOf(rows: seq<Tx>, k: string): real {
    SumAmounts(OfKind(rows, k))
  }

  /** The number of rows of type k: the source's `filter(...).length`. */
  function CountOf(rows: seq<Tx>, k: string): nat {
    |OfKind(rows, k)|
  }

  /** `count > 0 ? total / count : 0`, the divide-by-zero guard of the trust pages. */
  function GuardedMean(total: real, count: nat): (r: real)
    ensures count == 0 ==> r == 0.0
    ensures count > 0 ==> r * (count as real) == total
  {
    if count > 0 then total / count as real else 0.0
  }

  /** Total, guarded average and count of the distribution rows, as the trust summary
      cards show them. */
  datatype DistSummary = DistSummary(total: real, average: real, count: nat)

  /** The distributions' filter-then-reduce, `length ? total / length : 0` and
      `length`: rows of other types take no part in any of the three. */
  function SummarizeDistributions(rows: seq<Tx>): (s: DistSummary)
    ensures s.total == SumWhere(rows, DISTRIBUTION)
    ensures s.count == CountWhere(rows, DISTRIBUTION)
    ensures s.count == 0 ==> s.average == 0.0
    ensures s.count > 0 ==> s.average * (s.count as real) == s.total
  {
    TotalOfIsSumWhere(rows, DISTRIBUTION);
    CountOfIsCountWhere(rows, DISTRIBUTION);
    var total := TotalOf(rows, DISTRIBUTION);
    DistSummary(total, GuardedMean(total, CountOf(rows, DISTRIBUTION)), CountOf(rows, DISTRIBUTION))
  }

  /** The state a page keeps after a fetch: the new rows (`data ?? []`) on success, the
      previous rows on a query error. */
  function Loaded(prev: seq<Tx>, q: Query<Tx>): (r: seq<Tx>)
    ensures q.QueryFailed? ==> r == prev
    ensures q.Fetched? && q.data.None? ==> r == []
    ensures q.Fetched? && q.data.Some? ==> r == q.data.value
  {
    match q
    case QueryFailed(_) => prev
    case Fetched(d) => d.GetOr([])
  }

  // ---------------------------------------------------------------------------
  // A reference definition: the sum over ALL rows of "amount if type k, else 0".

  function AmountIfKind(t: Tx, k: string): real {
    if IsKind(t, k) then AmountOr0(t) else 0.0
  }

  function SumWhere(rows: seq<Tx>, k: string): real {
    if rows == [] then 0.0 else AmountIfKind(rows[0], k) + SumWhere(rows[1..], k)
  }

  /** The reference count: one for every row of type k. */
  function CountWhere(rows: seq<Tx>, k: string): nat {
    if rows == [] then 0 else (if IsKind(rows[0], k) then 1 else 0) + CountWhere(rows[1..], k)
  }

  /** `filter(...).length` counts the rows of type k and no other row. */
  lemma {:induction false} CountOfIsCountWhere(rows: seq<Tx>, k: string)
    ensures CountOf(rows, k) == CountWhere(rows, k)
  {
    if rows != [] {
      CountOfIsCountWhere(rows[1..], k);
    }
  }

  /** Filter-then-reduce equals the reference sum: rows of another type never
      contribute, and null amounts count as 0. */
  lemma {:induction false} TotalOfIsSumWhere(rows: seq<Tx>, k: string)
    ensures TotalOf(rows, k) == SumWhere(rows, k)
  {
    if rows != [] {
      TotalOfIsSumWhere(rows[1..], k);
    }
  }

  /** The filter splits over concatenation, so row order is preserved. */
  lemma {:induction false} OfKindAppend(a: seq<Tx>, b: seq<Tx>, k: string)
    ensures OfKind(a + b, k) == OfKind(a, k) + OfKind(b, k)
  {
    if a == [] {
      assert a + b == b;
    } else {
      assert (a + b)[1..] == a[1..] + b;
      OfKindAppend(a[1..], b, k);
    }
  }

  /** A row is kept by the filter exactly when it is one of the rows and has type k. */
  lemma {:induction false} OfKindMembers(rows: seq<Tx>, k: string, t: Tx)
    ensures t in OfKind(rows, k) <==> t in rows && IsKind(t, k)
  {
    if rows != [] {
      OfKindMembers(rows[1..], k, t);
      assert t in rows <==> t == rows[0] || t in rows[1..];
    }
  }

  lemma {:induction false} SumAmountsAppend(a: seq<Tx>, b: seq<Tx>)
    ensures SumAmounts(a + b) == SumAmounts(a) + SumAmounts(b)
  {
    if a == [] {
      assert a + b == b;
    } else {
      assert (a + b)[1..] == a[1..] + b;
      SumAmountsAppend(a[1..], b);
    }
  }

  /** Totals split over concatenation. */
  lemma TotalOfAppend(a: seq<Tx>, b: seq<Tx>, k: string)
    ensures TotalOf(a + b, k) == TotalOf(a, k) + TotalOf(b, k)
    ensures CountOf(a + b, k) == CountOf(a, k) + CountOf(b, k)
  {
    OfKindAppend(a, b, k);
    SumAmountsAppend(OfKind(a, k), OfKind(b, k));
  }

  /** A row of another type never changes the total or the count of type k. */
  lemma OtherKindNeverContributes(rows: seq<Tx>, t: Tx, k: string)
    requires !IsKind(t, k)
    ensures TotalOf(rows + [t], k) == TotalOf(rows, k)
    ensures CountOf(rows + [t], k) == CountOf(rows, k)
  {
    TotalOfAppend(rows, [t], k);
    assert OfKind([t], k) == [];
  }

  /** Non-negative amounts (null read as 0) give a non-negative total. */
  lemma {:induction false} SumAmountsNonNegative(rows: seq<Tx>)
    requires forall i :: 0 <= i < |rows| ==> AmountOr0(rows[i]) >= 0.0
    ensures SumAmounts(rows) >= 0.0
  {
    if rows != [] {
      SumAmountsNonNegative(rows[1..]);
    }
  }
}
