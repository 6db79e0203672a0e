/** The summary header cards (app/trust/SummaryHeader.tsx). */
module SummaryHeader {
  import opened Base
  import opened Rows

  const INITIAL := DistSummary(0.0, 0.0, 0)

  /** fetchSummary: a query error keeps the previous summary; null data counts as no
      rows. */
  function FetchSummary(prev: DistSummary, q: Query<Tx>): (s: DistSummary)
    ensures q.QueryFailed? ==> s == prev
    ensures q.Fetched? && q.data.None? ==> s == INITIAL
    ensures q.Fetched? ==> s.total == SumWhere(q.data.GetOr([]), DISTRIBUTION)
    ensures q.Fetched? ==> s.count == CountWhere(q.data.GetOr([]), DISTRIBUTION)
    ensures q.Fetched? && s.count == 0 ==> s.average == 0.0
    ensures q.Fetched? && s.count > 0 ==> s.average * (s.count as real) == s.total
  {
    match q
    case QueryFailed(_) => prev
    case Fetched(d) =>
      var s := SummarizeDistributions(d.GetOr([]));
      assert d.None? ==> OfKind([], DISTRIBUTION) == [];
      s
  }
}
