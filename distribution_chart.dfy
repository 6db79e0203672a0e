/** The distribution trend line (app/trust/TrustChart.tsx): the fetched rows kept on
    success, and one point per distribution row. */
module DistributionChart {
  import opened Base
  import opened Rows

  const NO_DATE := "\U{2014}"

  datatype Point = Point(date: Piece, amount: Option<real>)

  /** `d.created_at ? toLocaleDateString : '—'`: a null or empty date shows the dash. */
  function PointOf(t: Tx): Point {
    Point(if Truthy(t.createdAt) then LocaleDate(t.createdAt) else Lit(NO_DATE), t.amount)
  }

  /** data.filter(type === 'distribution').map(PointOf). */
  function DistributionData(rows: seq<Tx>): (r: seq<Point>)
    ensures |r| == CountOf(rows, DISTRIBUTION)
    ensures forall i :: 0 <= i < |r| ==> r[i] == PointOf(OfKind(rows, DISTRIBUTION)[i])
  {
    if rows == [] then []
    else (if IsKind(rows[0], DISTRIBUTION) then [PointOf(rows[0])] else []) + DistributionData(rows[1..])
  }

  /** Order is preserved: the points of a concatenation are the points of each part. */
  lemma {:induction false} DistributionDataAppend(a: seq<Tx>, b: seq<Tx>)
    ensures DistributionData(a + b) == DistributionData(a) + DistributionData(b)
  {
    if a == [] {
      assert a + b == b;
    } else {
      assert (a + b)[1..] == a[1..] + b;
      DistributionDataAppend(a[1..], b);
    }
  }

  /** Every point comes from a distribution row of the data, with its amount copied;
      every distribution row gives a point. */
  lemma PointsAreDistributions(rows: seq<Tx>, t: Tx)
    ensures PointOf(t) in DistributionData(rows) <== t in rows && IsKind(t, DISTRIBUTION)
    ensures forall p :: p in DistributionData(rows) ==>
              exists u :: u in rows && IsKind(u, DISTRIBUTION) && p == PointOf(u)
  {
    OfKindMembers(rows, DISTRIBUTION, t);
    if t in rows && IsKind(t, DISTRIBUTION) {
      var i :| 0 <= i < |OfKind(rows, DISTRIBUTION)| && OfKind(rows, DISTRIBUTION)[i] == t;
      assert DistributionData(rows)[i] == PointOf(t);
    }
    forall p | p in DistributionData(rows)
      ensures exists u :: u in rows && IsKind(u, DISTRIBUTION) && p == PointOf(u)
    {
      var i :| 0 <= i < |DistributionData(rows)| && DistributionData(rows)[i] == p;
      var u := OfKind(rows, DISTRIBUTION)[i];
      OfKindMembers(rows, DISTRIBUTION, u);
    }
  }

  /** A null or empty date gives the dash; a non-empty one is formatted. */
  lemma DashForMissingDate(t: Tx)
    ensures PointOf(t).date == Lit(NO_DATE) <==> !Truthy(t.createdAt)
    ensures PointOf(t).amount == t.amount
  {
  }
}
