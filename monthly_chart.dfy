/** The monthly chart of the trust page (components/TrustChart.tsx, `chartData`): a Map
    from (year, month) to a bucket, seeded with the twelve months up to the current one
    and then filled from the rows, adding a bucket for every month outside that window
    the first time a row names it. */
module MonthlyChart {
  import opened Base
  import opened Rows

  /** The key `${getFullYear()}-${getMonth()}`: month 0 is January. Every date that does
      not parse gives the same key "NaN-NaN". */
  datatype MonthKey = YM(year: int, month: int) | InvalidDate

  /** A bucket; `month` is shown as fmtMonth of that month (short month, 2-digit year),
      which depends on nothing else. */
  datatype Bucket = Bucket(month: MonthKey, distributions: real, expenses: real)

  /** `new Date(y, m - i, 1)`: the Date constructor carries a month offset outside 0-11
      into the year, which is floor division of the month count by 12. */
  function MonthsBack(y: int, m: int, i: int): MonthKey {
    YM((y * 12 + m - i) / 12, (y * 12 + m - i) % 12)
  }

  /** The seeding loop's keys in insertion order, i = 11 down to 0: oldest first. */
  function Seeds(y: int, m: int): (s: seq<MonthKey>)
    ensures |s| == 12
    ensures forall j :: 0 <= j < 12 ==> s[j] == MonthsBack(y, m, 11 - j)
  {
    seq(12, j requires 0 <= j < 12 => MonthsBack(y, m, 11 - j))
  }

  predicate Distinct(s: seq<MonthKey>) {
    forall a, b :: 0 <= a < b < |s| ==> s[a] != s[b]
  }

  /** The Map's keys after the rows: a row's key is appended the first time it is seen;
      a key already present keeps its place. */
  function KeysAfter(seeds: seq<MonthKey>, rows: seq<Tx>, monthOf: Option<string> -> MonthKey): seq<MonthKey> {
    if rows == [] then seeds
    else
      var ks := KeysAfter(seeds, rows[..|rows| - 1], monthOf);
      var k := monthOf(rows[|rows| - 1].createdAt);
      if k in ks then ks else ks + [k]
  }

  /** What one row adds to month k's `kind` total: `amount || 0` when it is of that
      month and that type, else nothing. */
  function Hit(r: Tx, k: MonthKey, kind: string, monthOf: Option<string> -> MonthKey): real {
    if monthOf(r.createdAt) == k then AmountIfKind(r, kind) else 0.0
  }

  /** The total of type `kind` over the rows of month k. */
  function MonthTotal(rows: seq<Tx>, k: MonthKey, kind: string, monthOf: Option<string> -> MonthKey): real {
    if rows == [] then 0.0 else Hit(rows[0], k, kind, monthOf) + MonthTotal(rows[1..], k, kind, monthOf)
  }

  function BucketOf(rows: seq<Tx>, k: MonthKey, monthOf: Option<string> -> MonthKey): Bucket {
    Bucket(k, MonthTotal(rows, k, DISTRIBUTION, monthOf), MonthTotal(rows, k, EXPENSE, monthOf))
  }

  /** One bucket per key, in key order. */
  function ChartOf(ks: seq<MonthKey>, rows: seq<Tx>, monthOf: Option<string> -> MonthKey): (c: seq<Bucket>)
    ensures |c| == |ks|
    ensures forall j :: 0 <= j < |ks| ==> c[j] == BucketOf(rows, ks[j], monthOf)
  {
    if ks == [] then [] else [BucketOf(rows, ks[0], monthOf)] + ChartOf(ks[1..], rows, monthOf)
  }

  /** The chart for the current month (nowYear, nowMonth) and the rows. */
  function Chart(nowYear: int, nowMonth: int, rows: seq<Tx>, monthOf: Option<string> -> MonthKey): seq<Bucket> {
    ChartOf(KeysAfter(Seeds(nowYear, nowMonth), rows, monthOf), rows, monthOf)
  }

  lemma {:induction false} MonthTotalSnoc(rows: seq<Tx>, r: Tx, k: MonthKey, kind: string, monthOf: Option<string> -> MonthKey)
    ensures MonthTotal(rows + [r], k, kind, monthOf) == MonthTotal(rows, k, kind, monthOf) + Hit(r, k, kind, monthOf)
  {
    if rows == [] {
      assert [r][1..] == [];
    } else {
      assert (rows + [r])[1..] == rows[1..] + [r];
      MonthTotalSnoc(rows[1..], r, k, kind, monthOf);
    }
  }

  /** Seeds are pairwise different: different month counts give different keys. */
  lemma SeedsDistinct(y: int, m: int)
    ensures Distinct(Seeds(y, m))
  {
    var s := Seeds(y, m);
    forall a, b | 0 <= a < b < 12 ensures s[a] != s[b] {
      var ta, tb := y * 12 + m - (11 - a), y * 12 + m - (11 - b);
      assert ta == 12 * (ta / 12) + ta % 12;
      assert tb == 12 * (tb / 12) + tb % 12;
    }
  }

  /** `buckets.get(key)!` after `if (!buckets.has(key)) buckets.set(...)`: the seeding
      loop then the row loop, then `Array.from(buckets.values())`. */
  method ChartData(nowYear: int, nowMonth: int, rows: seq<Tx>, monthOf: Option<string> -> MonthKey)
    returns (chart: seq<Bucket>)
    ensures chart == Chart(nowYear, nowMonth, rows, monthOf)
  {
    var keys: seq<MonthKey> := [];
    var buckets: map<MonthKey, Bucket> := map[];
    ghost var seeds := Seeds(nowYear, nowMonth);
    SeedsDistinct(nowYear, nowMonth);
    var i := 11;
    while i >= 0
      invariant -1 <= i <= 11
      invariant keys == seeds[..11 - i]
      invariant forall k :: k in buckets <==> k in keys
      invariant forall k :: k in buckets ==> buckets[k] == Bucket(k, 0.0, 0.0)
    {
      var k := MonthsBack(nowYear, nowMonth, i);
      assert k == seeds[11 - i];
      if k !in buckets {
        keys := keys + [k];
      }
      buckets := buckets[k := Bucket(k, 0.0, 0.0)];
      assert keys == seeds[..11 - i + 1];
      i := i - 1;
    }
    assert seeds[..12] == seeds;
    assert rows[..0] == [];
    var n := 0;
    while n < |rows|
      invariant 0 <= n <= |rows|
      invariant keys == KeysAfter(seeds, rows[..n], monthOf)
      invariant forall k :: k in buckets <==> k in keys
      invariant forall k :: (if k in buckets then buckets[k] else Bucket(k, 0.0, 0.0)) == BucketOf(rows[..n], k, monthOf)
    {
      ghost var before := buckets;
      var r := rows[n];
      var key := monthOf(r.createdAt);
      if key !in buckets {
        keys := keys + [key];
        buckets := buckets[key := Bucket(key, 0.0, 0.0)];
      }
      var b := buckets[key];
      if IsKind(r, DISTRIBUTION) {
        b := b.(distributions := b.distributions + AmountOr0(r));
      }
      if IsKind(r, EXPENSE) {
        b := b.(expenses := b.expenses + AmountOr0(r));
      }
      buckets := buckets[key := b];
      assert rows[..n + 1] == rows[..n] + [r];
      assert rows[..n + 1][..n] == rows[..n];
      forall k
        ensures (if k in buckets then buckets[k] else Bucket(k, 0.0, 0.0)) == BucketOf(rows[..n + 1], k, monthOf)
      {
        OnlyOwnBucketChanges(rows[..n], r, k, monthOf);
        assert BucketOf(rows[..n], k, monthOf) == if k in before then before[k] else Bucket(k, 0.0, 0.0);
      }
      n := n + 1;
    }
    assert rows[..|rows|] == rows;
    chart := seq(|keys|, j requires 0 <= j < |keys| => buckets[keys[j]]);
  }

  // ---------------------------------------------------------------------------
  // The seeded window.

  function Index(k: MonthKey): int
    requires k.YM?
  {
    k.year * 12 + k.month
  }

  /** Twelve seeds, one per consecutive month, from eleven months ago up to the current
      month, oldest first; every seed is a real month 0-11. */
  lemma SeedWindow(y: int, m: int)
    requires 0 <= m < 12
    ensures forall j :: 0 <= j < 12 ==>
              Seeds(y, m)[j].YM? && 0 <= Seeds(y, m)[j].month < 12 && Index(Seeds(y, m)[j]) == y * 12 + m - 11 + j
    ensures Seeds(y, m)[11] == YM(y, m)
  {
    forall j | 0 <= j < 12
      ensures Seeds(y, m)[j].YM? && 0 <= Seeds(y, m)[j].month < 12 && Index(Seeds(y, m)[j]) == y * 12 + m - 11 + j
    {
      var t := y * 12 + m - (11 - j);
      assert t == 12 * (t / 12) + t % 12;
    }
    assert (y * 12 + m) / 12 == y;
  }

  // ---------------------------------------------------------------------------
  // The keys.

  function SetOf(s: seq<MonthKey>): set<MonthKey> {
    set k | k in s
  }

  /** The rows' months. */
  function Months(rows: seq<Tx>, monthOf: Option<string> -> MonthKey): set<MonthKey> {
    if rows == [] then {} else Months(rows[..|rows| - 1], monthOf) + {monthOf(rows[|rows| - 1].createdAt)}
  }

  /** The index of the first row of month k, or |rows| when no row names k. */
  function FirstSeen(rows: seq<Tx>, k: MonthKey, monthOf: Option<string> -> MonthKey): (r: nat)
    ensures r <= |rows|
    ensures r < |rows| <==> k in Months(rows, monthOf)
    ensures r < |rows| ==> monthOf(rows[r].createdAt) == k
    ensures forall i :: 0 <= i < r && i < |rows| ==> monthOf(rows[i].createdAt) != k
  {
    if rows == [] then 0
    else
      var init := rows[..|rows| - 1];
      var f := FirstSeen(init, k, monthOf);
      assert forall i :: 0 <= i < |init| ==> init[i] == rows[i];
      if f < |init| then f
      else if monthOf(rows[|rows| - 1].createdAt) == k then |init|
      else |rows|
  }

  /** The keys the rows add come in the order their months are first seen (the Map's
      insertion order), and each is a month some row names. */
  lemma {:induction false} KeysInFirstSeenOrder(seeds: seq<MonthKey>, rows: seq<Tx>, monthOf: Option<string> -> MonthKey)
    requires Distinct(seeds)
    ensures |KeysAfter(seeds, rows, monthOf)| >= |seeds|
    ensures forall j :: |seeds| <= j < |KeysAfter(seeds, rows, monthOf)| ==>
              FirstSeen(rows, KeysAfter(seeds, rows, monthOf)[j], monthOf) < |rows|
    ensures forall a, b :: |seeds| <= a < b < |KeysAfter(seeds, rows, monthOf)| ==>
              FirstSeen(rows, KeysAfter(seeds, rows, monthOf)[a], monthOf) <
              FirstSeen(rows, KeysAfter(seeds, rows, monthOf)[b], monthOf)
  {
    KeysAfterFacts(seeds, rows, monthOf);
    if rows != [] {
      var init := rows[..|rows| - 1];
      var ks := KeysAfter(seeds, init, monthOf);
      KeysInFirstSeenOrder(seeds, init, monthOf);
      KeysAfterFacts(seeds, init, monthOf);
      var k := monthOf(rows[|rows| - 1].createdAt);
      var ks' := KeysAfter(seeds, rows, monthOf);
      forall j | |seeds| <= j < |ks|
        ensures FirstSeen(rows, ks[j], monthOf) == FirstSeen(init, ks[j], monthOf)
      {
      }
      if k !in ks {
        assert k !in SetOf(ks);
        assert k !in Months(init, monthOf);
        assert FirstSeen(rows, k, monthOf) == |init|;
        assert ks' == ks + [k];
      }
    }
  }

  /** The seeds stay first and in order; the keys stay distinct; they are exactly the
      seeds and the rows' months. */
  lemma {:induction false} KeysAfterFacts(seeds: seq<MonthKey>, rows: seq<Tx>, monthOf: Option<string> -> MonthKey)
    requires Distinct(seeds)
    ensures |KeysAfter(seeds, rows, monthOf)| >= |seeds|
    ensures KeysAfter(seeds, rows, monthOf)[..|seeds|] == seeds
    ensures Distinct(KeysAfter(seeds, rows, monthOf))
    ensures SetOf(KeysAfter(seeds, rows, monthOf)) == SetOf(seeds) + Months(rows, monthOf)
  {
    if rows == [] {
      assert seeds[..|seeds|] == seeds;
    } else {
      var ks := KeysAfter(seeds, rows[..|rows| - 1], monthOf);
      KeysAfterFacts(seeds, rows[..|rows| - 1], monthOf);
      var k := monthOf(rows[|rows| - 1].createdAt);
      if k !in ks {
        assert (ks + [k])[..|seeds|] == ks[..|seeds|];
        assert SetOf(ks + [k]) == SetOf(ks) + {k};
      }
    }
  }

  lemma {:induction false} DistinctCard(s: seq<MonthKey>)
    requires Distinct(s)
    ensures |SetOf(s)| == |s|
  {
    if s != [] {
      var init := s[..|s| - 1];
      assert Distinct(init);
      DistinctCard(init);
      assert SetOf(s) == SetOf(init) + {s[|s| - 1]};
      assert s[|s| - 1] !in SetOf(init);
    }
  }

  /** The chart has the twelve seeded buckets plus one for every distinct month of the
      rows outside the window. */
  lemma ChartLength(y: int, m: int, rows: seq<Tx>, monthOf: Option<string> -> MonthKey)
    ensures |Chart(y, m, rows, monthOf)| == 12 + |Months(rows, monthOf) - SetOf(Seeds(y, m))|
  {
    var seeds := Seeds(y, m);
    SeedsDistinct(y, m);
    KeysAfterFacts(seeds, rows, monthOf);
    var ks := KeysAfter(seeds, rows, monthOf);
    DistinctCard(ks);
    DistinctCard(seeds);
    var a, b := SetOf(seeds), Months(rows, monthOf) - SetOf(seeds);
    assert SetOf(ks) == a + b;
    assert a * b == {};
  }

  /** The buckets start with the twelve seeded months, oldest first; every other bucket
      is a month some row names and that the window does not hold, in the order the
      rows first name them; each month has one bucket. */
  lemma ChartMonths(y: int, m: int, rows: seq<Tx>, monthOf: Option<string> -> MonthKey)
    ensures |Chart(y, m, rows, monthOf)| >= 12
    ensures forall j :: 0 <= j < 12 ==> Chart(y, m, rows, monthOf)[j].month == Seeds(y, m)[j]
    ensures forall j :: 12 <= j < |Chart(y, m, rows, monthOf)| ==>
              Chart(y, m, rows, monthOf)[j].month in Months(rows, monthOf) - SetOf(Seeds(y, m))
    ensures forall a, b :: 0 <= a < b < |Chart(y, m, rows, monthOf)| ==>
              Chart(y, m, rows, monthOf)[a].month != Chart(y, m, rows, monthOf)[b].month
    ensures forall a, b :: 12 <= a < b < |Chart(y, m, rows, monthOf)| ==>
              FirstSeen(rows, Chart(y, m, rows, monthOf)[a].month, monthOf) <
              FirstSeen(rows, Chart(y, m, rows, monthOf)[b].month, monthOf)
  {
    var seeds := Seeds(y, m);
    SeedsDistinct(y, m);
    KeysAfterFacts(seeds, rows, monthOf);
    KeysInFirstSeenOrder(seeds, rows, monthOf);
    var ks := KeysAfter(seeds, rows, monthOf);
    forall j | 12 <= j < |ks| ensures ks[j] in Months(rows, monthOf) - SetOf(seeds) {
      assert ks[j] in SetOf(ks);
      forall a | 0 <= a < 12 ensures seeds[a] != ks[j] {
        assert ks[a] == seeds[a];
      }
    }
  }

  /** A row lands in the bucket of its own month, and rows of one month share it. */
  lemma RowsLandInTheirMonth(y: int, m: int, rows: seq<Tx>, monthOf: Option<string> -> MonthKey, i: nat)
    requires i < |rows|
    ensures exists j :: 0 <= j < |Chart(y, m, rows, monthOf)| && Chart(y, m, rows, monthOf)[j].month == monthOf(rows[i].createdAt)
  {
    var seeds := Seeds(y, m);
    SeedsDistinct(y, m);
    KeysAfterFacts(seeds, rows, monthOf);
    MonthsHas(rows, monthOf, i);
    var ks := KeysAfter(seeds, rows, monthOf);
    assert monthOf(rows[i].createdAt) in SetOf(ks);
    var j :| 0 <= j < |ks| && ks[j] == monthOf(rows[i].createdAt);
    assert Chart(y, m, rows, monthOf)[j].month == ks[j];
  }

  lemma {:induction false} MonthsHas(rows: seq<Tx>, monthOf: Option<string> -> MonthKey, i: nat)
    requires i < |rows|
    ensures monthOf(rows[i].createdAt) in Months(rows, monthOf)
  {
    if i < |rows| - 1 {
      MonthsHas(rows[..|rows| - 1], monthOf, i);
    }
  }

  /** One more row changes only the bucket of its own month, and there only the column
      of its type, by `amount || 0`. */
  lemma OnlyOwnBucketChanges(rows: seq<Tx>, r: Tx, k: MonthKey, monthOf: Option<string> -> MonthKey)
    ensures monthOf(r.createdAt) != k ==> BucketOf(rows + [r], k, monthOf) == BucketOf(rows, k, monthOf)
    ensures monthOf(r.createdAt) == k && IsKind(r, DISTRIBUTION) ==>
              BucketOf(rows + [r], k, monthOf) == BucketOf(rows, k, monthOf).(distributions := BucketOf(rows, k, monthOf).distributions + AmountOr0(r))
    ensures monthOf(r.createdAt) == k && IsKind(r, EXPENSE) ==>
              BucketOf(rows + [r], k, monthOf) == BucketOf(rows, k, monthOf).(expenses := BucketOf(rows, k, monthOf).expenses + AmountOr0(r))
    ensures !IsKind(r, DISTRIBUTION) && !IsKind(r, EXPENSE) ==> BucketOf(rows + [r], k, monthOf) == BucketOf(rows, k, monthOf)
  {
    MonthTotalSnoc(rows, r, k, DISTRIBUTION, monthOf);
    MonthTotalSnoc(rows, r, k, EXPENSE, monthOf);
  }

  // ---------------------------------------------------------------------------
  // Conservation.

  function SumDistributions(chart: seq<Bucket>): real {
    if chart == [] then 0.0 else chart[0].distributions + SumDistributions(chart[1..])
  }

  function SumExpenses(chart: seq<Bucket>): real {
    if chart == [] then 0.0 else chart[0].expenses + SumExpenses(chart[1..])
  }

  /** Sum over the keys of month totals. */
  function SumOver(ks: seq<MonthKey>, rows: seq<Tx>, kind: string, monthOf: Option<string> -> MonthKey): real {
    if ks == [] then 0.0 else MonthTotal(rows, ks[0], kind, monthOf) + SumOver(ks[1..], rows, kind, monthOf)
  }

  function HitSum(ks: seq<MonthKey>, r: Tx, kind: string, monthOf: Option<string> -> MonthKey): real {
    if ks == [] then 0.0 else Hit(r, ks[0], kind, monthOf) + HitSum(ks[1..], r, kind, monthOf)
  }

  lemma {:induction false} ColumnsOfChart(ks: seq<MonthKey>, rows: seq<Tx>, monthOf: Option<string> -> MonthKey)
    ensures SumDistributions(ChartOf(ks, rows, monthOf)) == SumOver(ks, rows, DISTRIBUTION, monthOf)
    ensures SumExpenses(ChartOf(ks, rows, monthOf)) == SumOver(ks, rows, EXPENSE, monthOf)
  {
    if ks != [] {
      ColumnsOfChart(ks[1..], rows, monthOf);
      assert ChartOf(ks, rows, monthOf)[1..] == ChartOf(ks[1..], rows, monthOf);
    }
  }

  lemma {:induction false} SumOverCons(ks: seq<MonthKey>, r: Tx, rest: seq<Tx>, kind: string, monthOf: Option<string> -> MonthKey)
    ensures SumOver(ks, [r] + rest, kind, monthOf) == HitSum(ks, r, kind, monthOf) + SumOver(ks, rest, kind, monthOf)
  {
    assert ([r] + rest)[1..] == rest;
    if ks != [] {
      SumOverCons(ks[1..], r, rest, kind, monthOf);
    }
  }

  /** Distinct keys: a row hits exactly the one that is its month. */
  lemma {:induction false} HitsOnce(ks: seq<MonthKey>, r: Tx, kind: string, monthOf: Option<string> -> MonthKey)
    requires Distinct(ks) && monthOf(r.createdAt) in ks
    ensures HitSum(ks, r, kind, monthOf) == AmountIfKind(r, kind)
  {
    if ks[0] == monthOf(r.createdAt) {
      assert monthOf(r.createdAt) !in ks[1..];
      HitsMissed(ks[1..], r, kind, monthOf);
    } else {
      HitsOnce(ks[1..], r, kind, monthOf);
    }
  }

  lemma {:induction false} HitsMissed(ks: seq<MonthKey>, r: Tx, kind: string, monthOf: Option<string> -> MonthKey)
    requires monthOf(r.createdAt) !in ks
    ensures HitSum(ks, r, kind, monthOf) == 0.0
  {
    if ks != [] {
      HitsMissed(ks[1..], r, kind, monthOf);
    }
  }

  lemma {:induction false} SumOverIsTotal(ks: seq<MonthKey>, rows: seq<Tx>, kind: string, monthOf: Option<string> -> MonthKey)
    requires Distinct(ks)
    requires forall i :: 0 <= i < |rows| ==> monthOf(rows[i].createdAt) in ks
    ensures SumOver(ks, rows, kind, monthOf) == SumWhere(rows, kind)
  {
    if rows == [] {
      SumOverEmpty(ks, kind, monthOf);
    } else {
      assert rows == [rows[0]] + rows[1..];
      SumOverCons(ks, rows[0], rows[1..], kind, monthOf);
      HitsOnce(ks, rows[0], kind, monthOf);
      SumOverIsTotal(ks, rows[1..], kind, monthOf);
    }
  }

  lemma {:induction false} SumOverEmpty(ks: seq<MonthKey>, kind: string, monthOf: Option<string> -> MonthKey)
    ensures SumOver(ks, [], kind, monthOf) == 0.0
  {
    if ks != [] {
      SumOverEmpty(ks[1..], kind, monthOf);
    }
  }

  /** Conservation: the buckets' distributions add up to the total of the distribution
      rows (null amounts as 0), and their expenses to the total of the expense rows;
      nothing is lost to a missing bucket and nothing is counted twice. */
  lemma Conservation(y: int, m: int, rows: seq<Tx>, monthOf: Option<string> -> MonthKey)
    ensures SumDistributions(Chart(y, m, rows, monthOf)) == TotalOf(rows, DISTRIBUTION)
    ensures SumExpenses(Chart(y, m, rows, monthOf)) == TotalOf(rows, EXPENSE)
  {
    var seeds := Seeds(y, m);
    SeedsDistinct(y, m);
    KeysAfterFacts(seeds, rows, monthOf);
    var ks := KeysAfter(seeds, rows, monthOf);
    forall i | 0 <= i < |rows| ensures monthOf(rows[i].createdAt) in ks {
      MonthsHas(rows, monthOf, i);
      assert monthOf(rows[i].createdAt) in SetOf(ks);
    }
    ColumnsOfChart(ks, rows, monthOf);
    SumOverIsTotal(ks, rows, DISTRIBUTION, monthOf);
    SumOverIsTotal(ks, rows, EXPENSE, monthOf);
    TotalOfIsSumWhere(rows, DISTRIBUTION);
    TotalOfIsSumWhere(rows, EXPENSE);
  }
}
