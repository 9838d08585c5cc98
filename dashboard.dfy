/** src/pages/Dashboard.tsx: aggregates and the history table over the
    stored analysis records. */
module Dashboard {
  import opened Wrappers
  import opened Text
  import opened AnalysisHistory
  import opened Display

  /** `history.reduce((s, h) => s + h.cost, 0)`, folded from the left. */
  function TotalSpent(history: seq<AnalysisRecord>): real
  {
    if |history| == 0 then 0.0 else TotalSpent(history[..|history| - 1]) + history[|history| - 1].cost
  }

  /** Putting a record in front adds its cost to the total, whichever end
      the fold starts from. */
  lemma {:induction false} TotalSpentPrepend(r: AnalysisRecord, history: seq<AnalysisRecord>)
    ensures TotalSpent([r] + history) == r.cost + TotalSpent(history)
    decreases |history|
  {
    if |history| > 0 {
      var init := history[..|history| - 1];
      assert ([r] + history)[..|history|] == [r] + init;
      TotalSpentPrepend(r, init);
    } else {
      assert [r] + history == [r];
      assert [r][..0] == [];
    }
  }

  /** With every cost between lo and hi, the total lies between n*lo and n*hi. */
  lemma {:induction false} TotalSpentBounds(history: seq<AnalysisRecord>, lo: real, hi: real)
    requires forall i :: 0 <= i < |history| ==> lo <= history[i].cost <= hi
    ensures |history| as real * lo <= TotalSpent(history) <= |history| as real * hi
    decreases |history|
  {
    if |history| > 0 {
      var init := history[..|history| - 1];
      assert forall i :: 0 <= i < |init| ==> init[i] == history[i];
      TotalSpentBounds(init, lo, hi);
    }
  }

  /** `history.length > 0 ? totalSpent / history.length : 0` */
  function AvgCost(history: seq<AnalysisRecord>): real
  {
    if |history| > 0 then TotalSpent(history) / |history| as real else 0.0
  }

  /** The average of a non-empty history lies between its cheapest and
      dearest record; an empty history averages 0. */
  lemma AvgCostBounds(history: seq<AnalysisRecord>, lo: real, hi: real)
    requires forall i :: 0 <= i < |history| ==> lo <= history[i].cost <= hi
    ensures |history| == 0 ==> AvgCost(history) == 0.0
    ensures |history| > 0 ==> lo <= AvgCost(history) <= hi
  {
    if |history| > 0 {
      TotalSpentBounds(history, lo, hi);
      QuotientBounds(TotalSpent(history), |history| as real, lo, hi);
    }
  }

  /** Dividing bounds n*lo <= t <= n*hi by a positive n. */
  lemma QuotientBounds(t: real, n: real, lo: real, hi: real)
    requires 0.0 < n && n * lo <= t <= n * hi
    ensures lo <= t / n <= hi
  {
    var q := t / n;
    assert q * n == t;
    assert n * (q - lo) == t - n * lo;
    assert n * (hi - q) == n * hi - t;
  }

  /** The three stat cards: count, total and average. */
  datatype Stats = Stats(totalAnalyses: nat, totalSpent: real, avgCost: real)

  function StatsOf(history: seq<AnalysisRecord>): (s: Stats)
    ensures s.totalAnalyses == |history|
    ensures |history| == 0 ==> s.totalSpent == 0.0 && s.avgCost == 0.0
    ensures s.avgCost * |history| as real == s.totalSpent
  {
    Stats(|history|, TotalSpent(history), AvgCost(history))
  }

  /** The verdict placeholder, "—" as the source file spells it in its
      mis-encoded form. */
  const NoVerdict: string := "\U{E2}\U{20AC}\U{201D}"

  /** `h.verdict || "—"`: an absent or empty verdict shows the placeholder. */
  function VerdictCell(verdict: Option<string>): (cell: string)
    ensures verdict.Some? && verdict.value != "" ==> cell == verdict.value
    ensures verdict.None? || verdict.value == "" ==> cell == NoVerdict
  {
    if verdict.Some? && verdict.value != "" then verdict.value else NoVerdict
  }

  /** `h.status === "complete" ? "default" : "destructive"` */
  function StatusVariant(status: Option<string>): (v: BadgeVariant)
    ensures v == Default <==> status == Some("complete")
  {
    if status == Some("complete") then Default else Destructive
  }

  /** `h.status.toUpperCase()`: throws when the record has no status. */
  function StatusCell(status: Option<string>): (cell: Result<string, string>)
    ensures cell.Success? <==> status.Some?
    ensures cell.Success? ==> cell.value == Upper(status.value)
  {
    match status
    case None => Failure("TypeError: Cannot read properties of undefined (reading 'toUpperCase')")
    case Some(s) => Success(Upper(s))
  }

  datatype Row = Row(date: string, symbol: string, tier: string, cost: real,
                     verdict: string, variant: BadgeVariant, status: string)

  predicate AllHaveStatus(history: seq<AnalysisRecord>) {
    forall i :: 0 <= i < |history| ==> history[i].status.Some?
  }

  /** `history.map(h => <TableRow …>)`: one row per record in stored order;
      rendering throws as soon as one record lacks a status. */
  function Rows(history: seq<AnalysisRecord>): (rows: Result<seq<Row>, string>)
    ensures rows.Success? <==> AllHaveStatus(history)
    ensures rows.Success? ==> |rows.value| == |history|
    ensures rows.Success? ==> forall i :: 0 <= i < |history| ==>
      rows.value[i] == Row(history[i].date, history[i].symbol, history[i].tier, history[i].cost,
                           VerdictCell(history[i].verdict), StatusVariant(history[i].status),
                           Upper(history[i].status.value))
  {
    if |history| == 0 then Success([])
    else
      var h := history[0];
      match StatusCell(h.status)
      case Failure(e) => Failure(e)
      case Success(status) =>
        match Rows(history[1..])
        case Failure(e) => Failure(e)
        case Success(rest) =>
          Success([Row(h.date, h.symbol, h.tier, h.cost, VerdictCell(h.verdict), StatusVariant(h.status), status)] + rest)
  }

  datatype Body = EmptyState | HistoryTable(rows: seq<Row>)

  /** The whole page for the stored history; Failure is a render that throws. */
  function Render(slot: Option<StoredHistory>): (page: Result<(Stats, Body), string>)
    ensures page.Success? ==> page.value.0 == StatsOf(ReadHistory(slot))
    ensures page.Success? ==> (page.value.1.EmptyState? <==> |ReadHistory(slot)| == 0)
    ensures page.Failure? <==> !AllHaveStatus(ReadHistory(slot))
  {
    var history := ReadHistory(slot);
    if |history| == 0 then Success((StatsOf(history), EmptyState))
    else
      match Rows(history)
      case Failure(e) => Failure(e)
      case Success(rows) => Success((StatsOf(history), HistoryTable(rows)))
  }
}
