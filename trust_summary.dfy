/** The trust dashboard summary (components/TrustSummary.tsx): total, average and count
    of the distributions, against a cap of 80000 that nothing changes. */
module TrustSummary {
  import opened Base
  import opened Rows
  import opened Budget

  const DEFAULT_CAP: real := 80000.0

  class Dashboard {
    var total: real
    var average: real
    var count: nat
    const cap: real

    constructor ()
      ensures total == 0.0 && average == 0.0 && count == 0
      ensures cap == DEFAULT_CAP
    {
      total, average, count := 0.0, 0.0, 0;
      cap := DEFAULT_CAP;
    }

    /** fetchTotals. A query error returns before any setter; so does null data, whose
        `data.filter` throws. Otherwise the three values come from the rows. */
    method FetchTotals(q: Query<Tx>)
      modifies this`total, this`average, this`count
      ensures q.QueryFailed? || q.data.None? ==>
                total == old(total) && average == old(average) && count == old(count)
      ensures q.Fetched? && q.data.Some? ==>
                DistSummary(total, average, count) == SummarizeDistributions(q.data.value)
    {
      if q.QueryFailed? || q.data.None? {
        return;
      }
      var s := SummarizeDistributions(q.data.value);
      total := s.total;
      average := s.average;
      count := s.count;
    }

    /** cap - total, not clamped. */
    function Remaining(): (r: real)
      reads this
      ensures r + total == cap
    {
      cap - total
    }

    /** Math.min((total / cap) * 100, 100): the cap is positive, so always a number, at
        most 100, and 100 exactly when the cap is reached. */
    function PercentShown(): (r: JsNum)
      reads this
      requires cap == DEFAULT_CAP
      ensures r.Finite? && r.x <= 100.0
      ensures r.x == 100.0 <==> total >= DEFAULT_CAP
      ensures total >= 0.0 ==> r.x >= 0.0
    {
      Percent(total, cap)
    }
  }
}
