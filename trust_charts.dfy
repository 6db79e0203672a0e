/** The trust analytics overview (components/TrustCharts.tsx): the fetched
    transactions of the chosen period, their two sums, the pie and bar projections and
    the CSV export. */
module TrustCharts {
  import opened Base
  import opened Rows

  /** The cutoff `getFilterDate` hands to the query, with the date arithmetic left
      abstract: `now` moved back some days, moved to January 1 of its year, or unmoved. */
  datatype Since = DaysBefore(now: Instant, days: nat) | JanuaryFirst(now: Instant) | At(now: Instant)

  const DEFAULT_FILTER := "30D"
  const NO_TRANSACTIONS := "No transactions to export."

  datatype Totals = Totals(distributions: real, expenses: real)

  datatype Slice = Slice(name: string, value: real)

  datatype Bar = Bar(date: Piece, amount: Option<real>, kind: Option<string>)

  /** A CSV record before Papa.unparse turns the records into text. */
  datatype CsvRow = CsvRow(date: Piece, kind: Option<string>, amount: Option<real>)

  datatype ExportOutcome = AlertShown(message: string) | Downloaded(filename: string, rows: seq<CsvRow>)

  /** '7D' and '30D' step the date back, 'YTD' moves it to January 1, and anything else
      leaves it at now. */
  function GetFilterDate(f: string, now: Instant): (r: Since)
    ensures r.now == now
    ensures r.DaysBefore? <==> f == "7D" || f == "30D"
    ensures r.DaysBefore? ==> r.days == if f == "7D" then 7 else 30
    ensures r.JanuaryFirst? <==> f == "YTD"
  {
    if f == "7D" then DaysBefore(now, 7)
    else if f == "30D" then DaysBefore(now, 30)
    else if f == "YTD" then JanuaryFirst(now)
    else At(now)
  }

  /** The pie: Distributions, then Expenses. */
  function PieData(s: Totals): (r: seq<Slice>)
    ensures |r| == 2
    ensures r[0] == Slice("Distributions", s.distributions)
    ensures r[1] == Slice("Expenses", s.expenses)
  {
    [Slice("Distributions", s.distributions), Slice("Expenses", s.expenses)]
  }

  function BarOf(t: Tx): Bar {
    Bar(MonthDay(t.createdAt), t.amount, t.kind)
  }

  /** transactions.map(...) for the bar chart: one bar per transaction, in order. */
  function BarData(rows: seq<Tx>): (r: seq<Bar>)
    ensures |r| == |rows|
    ensures forall i :: 0 <= i < |rows| ==> r[i] == BarOf(rows[i])
  {
    if rows == [] then [] else BarData(rows[..|rows| - 1]) + [BarOf(rows[|rows| - 1])]
  }

  function CsvRowOf(t: Tx): CsvRow {
    CsvRow(LocaleDate(t.createdAt), t.kind, t.amount)
  }

  function CsvFilename(filter: string): string {
    "trust-transactions-" + filter + ".csv"
  }

  class Overview {
    var transactions: seq<Tx>
    var summary: Totals
    var filter: string

    constructor ()
      ensures transactions == [] && summary == Totals(0.0, 0.0) && filter == DEFAULT_FILTER
    {
      transactions := [];
      summary := Totals(0.0, 0.0);
      filter := DEFAULT_FILTER;
    }

    /** A filter button. */
    method SetFilter(f: string)
      modifies this`filter
      ensures filter == f
    {
      filter := f;
    }

    /** fetchTransactions: `since` is the cutoff sent with the query and `q` the
        store's answer. An error returns before any setter. Null data sets the list to
        [] and then throws in `data.filter`, so the sums stay as they were. Otherwise
        both sums read a null amount as 0 and take only their own type. */
    method FetchTransactions(now: Instant, q: Query<Tx>) returns (since: Since)
      modifies this`transactions, this`summary
      ensures since == GetFilterDate(filter, now)
      ensures q.QueryFailed? ==> transactions == old(transactions) && summary == old(summary)
      ensures q.Fetched? && q.data.None? ==> transactions == [] && summary == old(summary)
      ensures q.Fetched? && q.data.Some? ==>
                && transactions == q.data.value
                && summary == Totals(SumWhere(q.data.value, DISTRIBUTION), SumWhere(q.data.value, EXPENSE))
    {
      since := GetFilterDate(filter, now);
      if q.QueryFailed? {
        return;
      }
      transactions := q.data.GetOr([]);
      if q.data.None? {
        return;
      }
      var rows := q.data.value;
      TotalOfIsSumWhere(rows, DISTRIBUTION);
      TotalOfIsSumWhere(rows, EXPENSE);
      summary := Totals(TotalOf(rows, DISTRIBUTION), TotalOf(rows, EXPENSE));
    }

    /** handleExportCSV: refused with an alert when there is nothing to export;
        otherwise one record per transaction, in order, saved under the filter's name. */
    method HandleExportCsv() returns (out: ExportOutcome)
      ensures |transactions| == 0 <==> out == AlertShown(NO_TRANSACTIONS)
      ensures out.Downloaded? ==>
                && out.filename == CsvFilename(filter)
                && |out.rows| == |transactions|
                && forall i :: 0 <= i < |transactions| ==> out.rows[i] == CsvRowOf(transactions[i])
    {
      if |transactions| == 0 {
        return AlertShown(NO_TRANSACTIONS);
      }
      var ts := transactions;
      var records := seq(|ts|, i requires 0 <= i < |ts| => CsvRowOf(ts[i]));
      return Downloaded(CsvFilename(filter), records);
    }
  }

  // ---------------------------------------------------------------------------

  /** The pie of a fetch shows the two type totals of the fetched rows. */
  lemma PieOfFetch(rows: seq<Tx>)
    ensures var s := Totals(SumWhere(rows, DISTRIBUTION), SumWhere(rows, EXPENSE));
            PieData(s)[0].value == TotalOf(rows, DISTRIBUTION) && PieData(s)[1].value == TotalOf(rows, EXPENSE)
  {
    TotalOfIsSumWhere(rows, DISTRIBUTION);
    TotalOfIsSumWhere(rows, EXPENSE);
  }

  /** A row that is neither a distribution nor an expense moves neither slice. */
  lemma OtherRowsMoveNoSlice(rows: seq<Tx>, t: Tx)
    requires !IsKind(t, DISTRIBUTION) && !IsKind(t, EXPENSE)
    ensures SumWhere(rows + [t], DISTRIBUTION) == SumWhere(rows, DISTRIBUTION)
    ensures SumWhere(rows + [t], EXPENSE) == SumWhere(rows, EXPENSE)
  {
    TotalOfIsSumWhere(rows, DISTRIBUTION);
    TotalOfIsSumWhere(rows, EXPENSE);
    TotalOfIsSumWhere(rows + [t], DISTRIBUTION);
    TotalOfIsSumWhere(rows + [t], EXPENSE);
    OtherKindNeverContributes(rows, t, DISTRIBUTION);
    OtherKindNeverContributes(rows, t, EXPENSE);
  }

  /** The bars follow the transactions: appending a transaction appends its bar. */
  lemma BarDataAppend(a: seq<Tx>, b: seq<Tx>)
    ensures BarData(a + b) == BarData(a) + BarData(b)
  {
  }
}
