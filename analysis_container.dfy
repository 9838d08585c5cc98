/** src/components/AnalysisContainer.tsx: the submission flow of the
    analyze page. Idle → Loading(stage) → Idle: it checks the form, posts a
    tagged request, maps a failed status to a message, and on success saves
    one history record and navigates to the live results. The `fetch` and
    the stage timer are inputs and explicit steps here. */
module AnalysisContainer {
  import opened Wrappers
  import opened Text
  import opened FileDrop
  import opened AnalysisTypes
  import opened AnalysisHistory
  import opened UiEffects
  import opened AnalysisModePicker
  import QuickAnalysisForm
  import Display
  import Dashboard
  import ResultsPage

  // ---- Stages and progress ----

  const StageLabels: seq<string> := [
    "PARSING DATA...", "ANALYZING TECHNICAL PATTERNS...", "FETCHING NEWS...",
    "ANALYZING SEC FILINGS...", "GENERATING SYNTHESIS..."
  ]
  const LastStage: nat := 4

  /** One firing of the stage timer, which is only scheduled while loading
      below the last stage: `Math.min(s + 1, 4)`. */
  function NextStage(step: nat): (next: nat)
    requires step < LastStage
    ensures next == step + 1 && next <= LastStage
  {
    Text.Min(step + 1, LastStage)
  }

  /** `Math.round(x)` for x ≥ 0: the nearest integer, halves rounding up. */
  function Round(x: real): (n: int)
    requires 0.0 <= x
    ensures n as real - 0.5 <= x < n as real + 0.5
  {
    (x + 0.5).Floor
  }

  /** `loading ? Math.round(((step + 1) / 5) * 100) : 0` */
  function ProgressPercent(loading: bool, step: nat): (p: int)
    ensures !loading ==> p == 0
    ensures loading && step <= LastStage ==> p == (step + 1) * 20 && 20 <= p <= 100
  {
    if loading then Round((step + 1) as real / |StageLabels| as real * 100.0) else 0
  }

  datatype StageMark = Done | Active | Pending

  /** The stage list: stages before the current one are ticked, the current
      one spins, later ones wait. */
  function StageMarks(step: nat): (marks: seq<StageMark>)
    ensures |marks| == |StageLabels|
    ensures forall i :: 0 <= i < |marks| ==>
      marks[i] == (if i < step then Done else if i == step then Active else Pending)
  {
    seq(|StageLabels|, i => if i < step then Done else if i == step then Active else Pending)
  }

  /** Within range exactly one stage is active, the current one. */
  lemma OneActiveStage(step: nat, i: nat)
    requires step <= LastStage && i < |StageLabels|
    ensures StageMarks(step)[i] == Active <==> i == step
    ensures StageMarks(step)[step] == Active
  {
  }

  // ---- Validation and the request ----

  /** `mode === "quick" ? ticker.trim().length > 0 : file !== null` */
  function CanSubmit(mode: Mode, ticker: string, file: Option<FileRef>): (ok: bool)
  {
    if mode == Quick then |Trim(ticker)| > 0 else file.Some?
  }

  /** Quick mode needs a ticker with a non-blank character; advanced mode a
      file. A ticker that came through the form's sanitiser has no blanks,
      so for it the test is plain non-emptiness. */
  lemma CanSubmitIff(mode: Mode, ticker: string, file: Option<FileRef>, raw: string)
    ensures mode == Quick ==> (CanSubmit(mode, ticker, file) <==> exists i :: 0 <= i < |ticker| && !IsSpace(ticker[i]))
    ensures mode == Advanced ==> (CanSubmit(mode, ticker, file) <==> file.Some?)
    ensures CanSubmit(Quick, QuickAnalysisForm.Sanitize(raw), file) <==> QuickAnalysisForm.Sanitize(raw) != ""
  {
    TrimNonEmptyIff(ticker);
    var t := QuickAnalysisForm.Sanitize(raw);
    TrimNonEmptyIff(t);
    if t != "" {
      assert !IsSpace(t[0]);
    }
  }

  /** The multipart body, tagged by mode. */
  datatype Request =
    | TickerRequest(ticker: string, timeframe: string, tier: string)
    | CsvRequest(file: FileRef, tier: string)

  datatype FieldValue = TextField(text: string) | FileField(file: FileRef)

  /** The request the form state builds; `file!` is safe because submitting
      in advanced mode requires a file. */
  function BuildRequest(mode: Mode, ticker: string, timeframe: string, tier: string, file: Option<FileRef>): (r: Request)
    requires mode == Advanced ==> file.Some?
    ensures r.TickerRequest? <==> mode == Quick
    ensures r.TickerRequest? ==> r == TickerRequest(ticker, timeframe, tier)
    ensures r.CsvRequest? ==> r == CsvRequest(file.value, tier)
  {
    if mode == Quick then TickerRequest(ticker, timeframe, tier) else CsvRequest(file.value, tier)
  }

  /** The `formData.append` calls, in order. */
  function FormFields(r: Request): (fields: seq<(string, FieldValue)>)
    ensures r.TickerRequest? ==> |fields| == 4 && fields[0].0 == "mode" && fields[1].0 == "ticker"
                                 && fields[2].0 == "timeframe" && fields[3].0 == "tier"
    ensures r.CsvRequest? ==> |fields| == 3 && fields[0].0 == "mode" && fields[1].0 == "file" && fields[2].0 == "tier"
  {
    match r
    case TickerRequest(ticker, timeframe, tier) =>
      [("mode", TextField("ticker")), ("ticker", TextField(ticker)), ("timeframe", TextField(timeframe)), ("tier", TextField(tier))]
    case CsvRequest(file, tier) =>
      [("mode", TextField("csv")), ("file", FileField(file)), ("tier", TextField(tier))]
  }

  /** How the fields read back: exactly these fields in this order form a
      request, anything else does not. */
  function ParseFields(fields: seq<(string, FieldValue)>): (r: Option<Request>)
    ensures r.Some? ==> FormFields(r.value) == fields
  {
    if |fields| == 4 && fields[0] == ("mode", TextField("ticker")) && fields[1].0 == "ticker" && fields[1].1.TextField?
       && fields[2].0 == "timeframe" && fields[2].1.TextField? && fields[3].0 == "tier" && fields[3].1.TextField?
    then Some(TickerRequest(fields[1].1.text, fields[2].1.text, fields[3].1.text))
    else if |fields| == 3 && fields[0] == ("mode", TextField("csv")) && fields[1].0 == "file" && fields[1].1.FileField?
       && fields[2].0 == "tier" && fields[2].1.TextField?
    then Some(CsvRequest(fields[1].1.file, fields[2].1.text))
    else None
  }

  /** Every request survives the multipart encoding. */
  lemma FormFieldsRoundTrip(r: Request)
    ensures ParseFields(FormFields(r)) == Some(r)
  {
  }

  // ---- Failure messages ----

  const InvalidInputMessage: string := "Invalid input. Please check your data."
  const MissingFieldsMessage: string := "Missing required fields."
  const GenericFailureMessage: string := "Analysis failed. Please try again."
  const NoBackendMessage: string := "Could not reach the backend."

  /** The message thrown for a non-ok status. */
  function StatusMessage(status: int): (m: string)
    ensures status == 400 ==> m == InvalidInputMessage
    ensures status == 422 ==> m == MissingFieldsMessage
    ensures status != 400 && status != 422 ==> m == GenericFailureMessage
  {
    if status == 400 then InvalidInputMessage
    else if status == 422 then MissingFieldsMessage
    else GenericFailureMessage
  }

  /** `err.message || "Could not reach the backend."` */
  function ErrorDescription(message: string): (d: string)
    ensures message != "" ==> d == message
    ensures message == "" ==> d == NoBackendMessage
  {
    if message == "" then NoBackendMessage else message
  }

  /** The toast text for a failed request. */
  function FailureDescription(outcome: Response<Payload>): (d: string)
    requires !outcome.Ok?
    ensures outcome.NotOk? ==> d == StatusMessage(outcome.status)
    ensures outcome.Thrown? ==> d == ErrorDescription(outcome.message)
  {
    match outcome
    case NotOk(status) => StatusMessage(status)
    case Thrown(message) => ErrorDescription(message)
  }

  /** A status failure always names its cause: it never falls back to the
      unreachable-backend text, and the three messages are distinct. */
  lemma StatusFailuresAreSpecific(status: int)
    ensures FailureDescription(NotOk(status)) != NoBackendMessage
    ensures InvalidInputMessage != MissingFieldsMessage && MissingFieldsMessage != GenericFailureMessage
    ensures GenericFailureMessage != InvalidInputMessage
  {
  }

  // ---- The history record ----

  /** The form values captured when the submission started. */
  datatype Submission = Submission(mode: Mode, ticker: string, tier: string, request: Request)

  const UnknownSymbol: string := "UNKNOWN"

  /** `mode === "quick" ? ticker : (data.metadata?.symbol || "UNKNOWN")` */
  function SavedSymbol(s: Submission, data: Payload): (sym: string)
    ensures s.mode == Quick ==> sym == s.ticker
    ensures s.mode == Advanced && data.metadataSymbol.Some? && data.metadataSymbol.value != "" ==> sym == data.metadataSymbol.value
    ensures s.mode == Advanced && (data.metadataSymbol.None? || data.metadataSymbol.value == "") ==> sym == UnknownSymbol
  {
    if s.mode == Quick then s.ticker
    else if data.metadataSymbol.Some? && data.metadataSymbol.value != "" then data.metadataSymbol.value
    else UnknownSymbol
  }

  /** `data.cost_summary?.total_cost || 0`: absent or zero cost is 0. */
  function SavedCost(data: Payload): (c: real)
    ensures data.totalCost.Some? ==> c == data.totalCost.value
    ensures data.totalCost.None? ==> c == 0.0
  {
    data.totalCost.GetOr(0.0)
  }

  /** The record the success path saves, as written: it has no `status`. */
  function RecordInputAsWritten(s: Submission, data: Payload): (input: RecordInput)
    ensures input.status.None?
    ensures input.symbol == SavedSymbol(s, data) && input.tier == s.tier && input.cost == SavedCost(data)
    ensures input.verdict == data.verdict && input.fullResults == Some(data)
  {
    RecordInput(SavedSymbol(s, data), s.tier, SavedCost(data), None, data.verdict, Some(data))
  }

  /** As written, the dashboard cannot show a history holding a record
      saved by this flow: reading its missing status throws. */
  lemma AsWrittenRecordBreaksDashboard(s: Submission, data: Payload, history: seq<AnalysisRecord>,
                                       id: string, date: string, firstWriteFits: bool)
    ensures Dashboard.Render(Some(Records(SavedList(history, NewRecord(RecordInputAsWritten(s, data), id, date), firstWriteFits)))).Failure?
  {
    var saved := SavedList(history, NewRecord(RecordInputAsWritten(s, data), id, date), firstWriteFits);
    SavedListShape(history, NewRecord(RecordInputAsWritten(s, data), id, date), firstWriteFits);
    assert saved[0].status.None?;
  }

  const CompleteStatus: string := "complete"

  /** The record the flow saves: the same fields with the status the
      dashboard reads, "complete" for a successful analysis. */
  function RecordInputFor(s: Submission, data: Payload): (input: RecordInput)
    ensures input == RecordInputAsWritten(s, data).(status := Some(CompleteStatus))
  {
    RecordInput(SavedSymbol(s, data), s.tier, SavedCost(data), Some(CompleteStatus), data.verdict, Some(data))
  }

  /** With the status set, a history whose records all carry a status still
      renders after the save, with the new record first as a "default"
      COMPLETE row. */
  lemma SavedRecordsRenderOnDashboard(s: Submission, data: Payload, history: seq<AnalysisRecord>,
                                      id: string, date: string, firstWriteFits: bool)
    requires Dashboard.AllHaveStatus(history)
    ensures Dashboard.Render(Some(Records(SavedList(history, NewRecord(RecordInputFor(s, data), id, date), firstWriteFits)))).Success?
    ensures Dashboard.StatusVariant(NewRecord(RecordInputFor(s, data), id, date).status) == Display.Default
  {
    var r := NewRecord(RecordInputFor(s, data), id, date);
    var saved := SavedList(history, r, firstWriteFits);
    SavedListShape(history, r, firstWriteFits);
    forall i | 0 <= i < |saved|
      ensures saved[i].status.Some?
    {
      if i > 0 {
        assert saved[i].status == history[i - 1].status;
      }
    }
  }

  /** The live results route receives `{result: data}` only, so its header
      always falls back to DEMO / standard, whatever was analysed. */
  lemma LiveResultsHeader(id: string)
    ensures ResultsPage.Page(id, Some(ResultsPage.LocationState(None, None))).symbol == "DEMO"
    ensures ResultsPage.Page(id, Some(ResultsPage.LocationState(None, None))).tier == "standard"
  {
  }

  // ---- Props of the quick form ----

  /** The props the container passes as written: `timeframe` and
      `onTimeframeChange`, which the quick form does not declare. */
  function QuickPropsAsWritten(ticker: string, timeframe: string, tier: string): (props: map<string, QuickAnalysisForm.PropValue>)
    ensures props.Keys == {"ticker", "onTickerChange", "timeframe", "onTimeframeChange", "tier", "onTierChange"}
  {
    map["ticker" := QuickAnalysisForm.Str(ticker), "onTickerChange" := QuickAnalysisForm.Setter("ticker"),
        "timeframe" := QuickAnalysisForm.Str(timeframe), "onTimeframeChange" := QuickAnalysisForm.Setter("timeframe"),
        "tier" := QuickAnalysisForm.Str(tier), "onTierChange" := QuickAnalysisForm.Setter("tier")]
  }

  /** As written, four required props are missing and choosing an interval
      or a period updates nothing, so the request keeps sending the initial
      timeframe "1m", which is not even one of the interval options. */
  lemma AsWrittenPropsLoseInterval(ticker: string, timeframe: string, tier: string, v: string)
    ensures QuickAnalysisForm.RequiredProps - QuickPropsAsWritten(ticker, timeframe, tier).Keys
            == {"interval", "onIntervalChange", "period", "onPeriodChange"}
    ensures QuickAnalysisForm.SelectInterval(QuickPropsAsWritten(ticker, timeframe, tier), v).None?
    ensures QuickAnalysisForm.SelectPeriod(QuickPropsAsWritten(ticker, timeframe, tier), v).None?
    ensures InitialTimeframe !in QuickAnalysisForm.IntervalValues
  {
    var props := QuickPropsAsWritten(ticker, timeframe, tier);
    assert "interval" !in props && "onIntervalChange" !in props;
  }

  /** The props as the form declares them: the interval select drives the
      `timeframe` state the request sends, the period select a `period`
      state of its own. */
  function QuickProps(ticker: string, timeframe: string, period: string, tier: string): (props: map<string, QuickAnalysisForm.PropValue>)
    ensures QuickAnalysisForm.RequiredProps <= props.Keys
    ensures forall v :: QuickAnalysisForm.SelectInterval(props, v) == Some(("timeframe", v))
    ensures forall v :: QuickAnalysisForm.SelectPeriod(props, v) == Some(("period", v))
  {
    map["ticker" := QuickAnalysisForm.Str(ticker), "onTickerChange" := QuickAnalysisForm.Setter("ticker"),
        "interval" := QuickAnalysisForm.Str(timeframe), "onIntervalChange" := QuickAnalysisForm.Setter("timeframe"),
        "period" := QuickAnalysisForm.Str(period), "onPeriodChange" := QuickAnalysisForm.Setter("period"),
        "tier" := QuickAnalysisForm.Str(tier), "onTierChange" := QuickAnalysisForm.Setter("tier")]
  }

  // ---- The component ----

  const InitialTimeframe: string := "1m"
  const FailureTitle: string := "Analysis failed"

  /** The pending navigation of a success: "/results/live" with `{result: data}`. */
  datatype Navigation = Navigation(path: string, result: Payload)

  class AnalysisContainer {
    var mode: Mode
    var ticker: string
    var timeframe: string
    var period: string
    var tier: string
    var file: Option<FileRef>
    var loading: bool
    var currentStep: nat
    /** The values `handleSubmit` captured, while its request is out. */
    var pending: Option<Submission>
    var requests: seq<Request>
    var navigations: seq<Navigation>
    var toasts: seq<Toast>
    /** The `analysis_history` storage slot. */
    var history: HistoryStorage

    /** Loading exactly while a submission is out, at a stage in range, and
        back at stage 0 when idle. */
    predicate Valid()
      reads this
    {
      (loading <==> pending.Some?) && currentStep <= LastStage && (!loading ==> currentStep == 0)
    }

    /** The period select's initial value is not fixed by the form, so it
        is a parameter. */
    constructor (storage: HistoryStorage, initialPeriod: string)
      ensures Valid()
      ensures mode == Quick && ticker == "" && timeframe == InitialTimeframe && period == initialPeriod
      ensures tier == "standard" && file.None? && !loading && currentStep == 0
      ensures requests == [] && navigations == [] && toasts == [] && history == storage
    {
      mode, ticker, timeframe, period, tier, file := Quick, "", InitialTimeframe, initialPeriod, "standard", None;
      loading, currentStep, pending := false, 0, None;
      requests, navigations, toasts := [], [], [];
      history := storage;
    }

    /** The picker's `onChange`. */
    method SetMode(m: Mode)
      modifies this
      ensures mode == m
      ensures ticker == old(ticker) && timeframe == old(timeframe) && period == old(period) && tier == old(tier)
      ensures file == old(file) && loading == old(loading) && currentStep == old(currentStep) && pending == old(pending)
      ensures requests == old(requests) && navigations == old(navigations) && toasts == old(toasts)
    {
      mode := m;
    }

    /** Typing in the ticker box: the form sanitises, the container stores. */
    method TypeTicker(raw: string)
      modifies this
      ensures ticker == QuickAnalysisForm.Sanitize(raw) && |ticker| <= QuickAnalysisForm.MaxTickerLength
      ensures mode == old(mode) && timeframe == old(timeframe) && period == old(period) && tier == old(tier)
      ensures file == old(file) && loading == old(loading) && currentStep == old(currentStep) && pending == old(pending)
      ensures requests == old(requests) && navigations == old(navigations) && toasts == old(toasts)
    {
      ticker := QuickAnalysisForm.Sanitize(raw);
    }

    /** Choosing in the interval select reaches the request's timeframe. */
    method ChooseInterval(v: string)
      modifies this
      ensures timeframe == v
      ensures mode == old(mode) && ticker == old(ticker) && period == old(period) && tier == old(tier)
      ensures file == old(file) && loading == old(loading) && currentStep == old(currentStep) && pending == old(pending)
      ensures requests == old(requests) && navigations == old(navigations) && toasts == old(toasts)
    {
      var update := QuickAnalysisForm.SelectInterval(QuickProps(ticker, timeframe, period, tier), v);
      timeframe := update.value.1;
    }

    /** Either form's `onTierChange`. */
    method SetTier(t: string)
      modifies this
      ensures tier == t
      ensures mode == old(mode) && ticker == old(ticker) && timeframe == old(timeframe) && period == old(period)
      ensures file == old(file) && loading == old(loading) && currentStep == old(currentStep) && pending == old(pending)
      ensures requests == old(requests) && navigations == old(navigations) && toasts == old(toasts)
    {
      tier := t;
    }

    /** The advanced form's `onFileChange`. */
    method SetFile(f: Option<FileRef>)
      modifies this
      ensures file == f
      ensures mode == old(mode) && ticker == old(ticker) && timeframe == old(timeframe) && period == old(period)
      ensures tier == old(tier) && loading == old(loading) && currentStep == old(currentStep) && pending == old(pending)
      ensures requests == old(requests) && navigations == old(navigations) && toasts == old(toasts)
    {
      file := f;
    }

    /** The synchronous start of `handleSubmit` (the button exists only while
        idle): nothing unless the form can be submitted; otherwise loading
        from stage 0 with exactly one request sent. */
    method BeginSubmit() returns (sent: Option<Request>)
      requires Valid() && !loading
      modifies this
      ensures Valid()
      ensures sent.Some? <==> CanSubmit(mode, ticker, file)
      ensures sent.None? ==> loading == old(loading) && pending == old(pending) && requests == old(requests)
      ensures sent.Some? ==> sent.value == BuildRequest(mode, ticker, timeframe, tier, file)
      ensures sent.Some? ==> loading && currentStep == 0 && requests == old(requests) + [sent.value]
      ensures sent.Some? ==> pending == Some(Submission(mode, ticker, tier, sent.value))
      ensures mode == old(mode) && ticker == old(ticker) && timeframe == old(timeframe) && period == old(period)
      ensures tier == old(tier) && file == old(file) && (sent.None? ==> currentStep == old(currentStep))
      ensures navigations == old(navigations) && toasts == old(toasts)
    {
      var ok := CanSubmit(mode, ticker, file);
      if ok {
        var request := BuildRequest(mode, ticker, timeframe, tier, file);
        loading, currentStep := true, 0;
        requests := requests + [request];
        pending := Some(Submission(mode, ticker, tier, request));
        sent := Some(request);
      } else {
        sent := None;
      }
    }

    /** One firing of the stage timer. */
    method AdvanceStage()
      requires Valid() && loading && currentStep < LastStage
      modifies this
      ensures Valid()
      ensures currentStep == old(currentStep) + 1 && loading && pending == old(pending)
      ensures ProgressPercent(loading, currentStep) == ProgressPercent(loading, old(currentStep)) + 20
      ensures mode == old(mode) && ticker == old(ticker) && timeframe == old(timeframe) && period == old(period)
      ensures tier == old(tier) && file == old(file)
      ensures requests == old(requests) && navigations == old(navigations) && toasts == old(toasts)
    {
      currentStep := NextStage(currentStep);
    }

    /** The awaited rest of `handleSubmit`. On an ok response the record is
        saved (the write outcomes and the error a failed retry throws are
        inputs) and, if saving did not throw, the page navigates; every
        failure toasts instead. The `finally` returns to idle at stage 0. */
    method Resolve(outcome: Response<Payload>, id: string, date: string,
                   firstWriteFits: bool, retryFits: bool, storageError: string)
      requires Valid() && loading
      modifies this, history
      ensures Valid() && !loading && currentStep == 0
      ensures |navigations| + |toasts| == |old(navigations)| + |old(toasts)| + 1
      ensures !outcome.Ok? ==> (
        && history.slot == old(history.slot)
        && navigations == old(navigations)
        && toasts == old(toasts) + [Toast(FailureTitle, FailureDescription(outcome), true)])
      ensures outcome.Ok? && (firstWriteFits || retryFits) ==> (
        && history.slot == Some(Records(SavedList(ReadHistory(old(history.slot)),
                                NewRecord(RecordInputFor(old(pending).value, outcome.body), id, date), firstWriteFits)))
        && navigations == old(navigations) + [Navigation("/results/live", outcome.body)]
        && toasts == old(toasts))
      ensures outcome.Ok? && !firstWriteFits && !retryFits ==> (
        && history.slot == old(history.slot)
        && navigations == old(navigations)
        && toasts == old(toasts) + [Toast(FailureTitle, ErrorDescription(storageError), true)])
      ensures mode == old(mode) && ticker == old(ticker) && timeframe == old(timeframe) && period == old(period)
      ensures tier == old(tier) && file == old(file) && requests == old(requests) && history == old(history)
    {
      match outcome {
        case Ok(data) =>
          var saved := history.SaveAnalysis(RecordInputFor(pending.value, data), id, date, firstWriteFits, retryFits);
          if saved == RetryFailed {
            toasts := toasts + [Toast(FailureTitle, ErrorDescription(storageError), true)];
          } else {
            navigations := navigations + [Navigation("/results/live", data)];
          }
        case NotOk(status) =>
          toasts := toasts + [Toast(FailureTitle, FailureDescription(outcome), true)];
        case Thrown(message) =>
          toasts := toasts + [Toast(FailureTitle, FailureDescription(outcome), true)];
      }
      loading, currentStep, pending := false, 0, None;
    }
  }
}
