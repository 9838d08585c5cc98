/** src/pages/Upload.tsx: the standalone upload page, with its own drag
    handlers, a simulated progress bar driven by an interval while loading,
    and a POST whose outcome is an input here. */
module UploadPage {
  import opened Wrappers
  import opened Text
  import opened FileDrop
  import opened AnalysisTypes
  import opened UiEffects

  const ProgressCeiling: real := 95.0
  const TickScale: real := 12.0
  const Complete: real := 100.0

  /** The interval body as written: `Math.min(p + r * 12, 95)` with the
      random draw `r` in [0, 1). */
  function Tick(p: real, r: real): (q: real)
    requires 0.0 <= r < 1.0
    ensures q <= ProgressCeiling
    ensures p <= ProgressCeiling ==> p <= q
    ensures q < p + TickScale
    ensures q == p + r * TickScale || q == ProgressCeiling
  {
    if p + r * TickScale <= ProgressCeiling then p + r * TickScale else ProgressCeiling
  }

  /** As written, the interval keeps running after success (loading stays
      true), so the next tick drags a completed bar from 100 back to 95. */
  lemma TickUndoesCompletion(r: real)
    requires 0.0 <= r < 1.0
    ensures Tick(Complete, r) == ProgressCeiling < Complete
  {
  }

  /** The tick the page evidently intends: a completed bar stays complete;
      before completion it is the tick as written. */
  function SettledTick(p: real, r: real): (q: real)
    requires 0.0 <= r < 1.0
    ensures p == Complete ==> q == Complete
    ensures p != Complete ==> q == Tick(p, r)
    ensures (p <= ProgressCeiling || p == Complete) ==> p <= q && (q <= ProgressCeiling || q == Complete)
  {
    if p == Complete then p else Tick(p, r)
  }

  /** The pending navigation of a success: "/results" with `{result: data}`. */
  datatype Navigation = Navigation(path: string, result: AnalysisResult)

  const FailureToast: Toast :=
    Toast("Analysis failed", "Could not connect to the analysis server. Please try again.", true)

  class UploadPage {
    var file: Option<FileRef>
    var isDragging: bool
    var loading: bool
    var progress: real
    var navigations: seq<Navigation>
    var toasts: seq<Toast>

    /** Progress is 0 while idle, at most 95 while simulated, and 100 only
        after a success, which has queued its navigation. */
    predicate Valid()
      reads this
    {
      && 0.0 <= progress
      && (progress <= ProgressCeiling || progress == Complete)
      && (!loading ==> progress == 0.0)
      && (progress == Complete ==> loading && |navigations| > 0)
    }

    constructor ()
      ensures Valid()
      ensures file.None? && !isDragging && !loading && progress == 0.0
      ensures navigations == [] && toasts == []
    {
      file, isDragging, loading, progress := None, false, false, 0.0;
      navigations, toasts := [], [];
    }

    /** `disabled={!file || loading}` */
    predicate AnalyzeDisabled()
      reads this
    {
      file.None? || loading
    }

    method DragIn()
      modifies this
      ensures isDragging
      ensures file == old(file) && loading == old(loading) && progress == old(progress)
      ensures navigations == old(navigations) && toasts == old(toasts)
    {
      isDragging := true;
    }

    method DragOut()
      modifies this
      ensures !isDragging
      ensures file == old(file) && loading == old(loading) && progress == old(progress)
      ensures navigations == old(navigations) && toasts == old(toasts)
    {
      isDragging := false;
    }

    /** A drop replaces the file only with a first file named *.csv. */
    method Drop(files: seq<FileRef>)
      modifies this
      ensures !isDragging
      ensures file == (if DropSelection(files).Some? then DropSelection(files) else old(file))
      ensures loading == old(loading) && progress == old(progress)
      ensures navigations == old(navigations) && toasts == old(toasts)
    {
      isDragging := false;
      if |files| > 0 && EndsWith(files[0].name, CsvSuffix) {
        file := Some(files[0]);
      }
    }

    /** The browse input replaces the file with any first file. */
    method InputChange(files: seq<FileRef>)
      modifies this
      ensures file == (if |files| > 0 then InputSelection(files) else old(file))
      ensures isDragging == old(isDragging) && loading == old(loading) && progress == old(progress)
      ensures navigations == old(navigations) && toasts == old(toasts)
    {
      if |files| > 0 {
        file := Some(files[0]);
      }
    }

    method Remove()
      modifies this
      ensures file.None?
      ensures isDragging == old(isDragging) && loading == old(loading) && progress == old(progress)
      ensures navigations == old(navigations) && toasts == old(toasts)
    {
      file := None;
    }

    /** The synchronous start of `handleAnalyze`: nothing without a file,
        otherwise loading from 0, which disables the button. */
    method BeginAnalyze() returns (started: bool)
      requires Valid()
      modifies this
      ensures Valid()
      ensures started <==> old(file).Some?
      ensures started ==> loading && progress == 0.0 && AnalyzeDisabled()
      ensures !started ==> loading == old(loading) && progress == old(progress)
      ensures file == old(file) && isDragging == old(isDragging)
      ensures navigations == old(navigations) && toasts == old(toasts)
    {
      if file.None? {
        return false;
      }
      loading, progress := true, 0.0;
      started := true;
    }

    /** One interval tick as written: the clamp applies even to a bar
        that a success has already completed. */
    method TickProgressAsWritten(r: real)
      requires Valid() && loading && 0.0 <= r < 1.0
      modifies this
      ensures Valid()
      ensures progress == Tick(old(progress), r) && progress <= ProgressCeiling
      ensures old(progress) == Complete ==> progress == ProgressCeiling
      ensures file == old(file) && isDragging == old(isDragging) && loading == old(loading)
      ensures navigations == old(navigations) && toasts == old(toasts)
    {
      progress := Tick(progress, r);
    }

    /** One interval tick of the corrected interval; the interval exists
        only while loading. */
    method TickProgress(r: real)
      requires Valid() && loading && 0.0 <= r < 1.0
      modifies this
      ensures Valid()
      ensures progress == SettledTick(old(progress), r) && old(progress) <= progress
      ensures file == old(file) && isDragging == old(isDragging) && loading == old(loading)
      ensures navigations == old(navigations) && toasts == old(toasts)
    {
      progress := SettledTick(progress, r);
    }

    /** The awaited end of `handleAnalyze`. Success completes the bar and
        queues the navigation, leaving loading set; a non-ok status or a
        thrown error toasts and returns to idle. */
    method Resolve(outcome: Response<AnalysisResult>)
      requires Valid() && loading
      modifies this
      ensures Valid()
      ensures outcome.Ok? ==> loading && progress == Complete && toasts == old(toasts)
                              && navigations == old(navigations) + [Navigation("/results", outcome.body)]
      ensures !outcome.Ok? ==> !loading && progress == 0.0 && navigations == old(navigations)
                               && toasts == old(toasts) + [FailureToast]
      ensures file == old(file) && isDragging == old(isDragging)
    {
      if outcome.Ok? {
        progress := Complete;
        navigations := navigations + [Navigation("/results", outcome.body)];
      } else {
        toasts := toasts + [FailureToast];
        loading, progress := false, 0.0;
      }
    }
  }

  /** A successful run as written: the tick that fires between the
      response and the delayed navigation leaves the bar at 95, not 100. */
  method SuccessfulRunAsWritten(f: FileRef, data: AnalysisResult, r1: real, r2: real) returns (page: UploadPage)
    requires 0.0 <= r1 < 1.0 && 0.0 <= r2 < 1.0
    ensures page.Valid() && page.loading && page.progress == ProgressCeiling
    ensures page.navigations == [Navigation("/results", data)] && page.toasts == []
  {
    page := new UploadPage();
    page.InputChange([f]);
    var started := page.BeginAnalyze();
    page.TickProgressAsWritten(r1);
    page.Resolve(Ok(data));
    page.TickProgressAsWritten(r2);
  }

  /** A successful run with the corrected tick: after the response, later
      ticks leave the bar full and no second navigation is queued. */
  method SuccessfulRun(f: FileRef, data: AnalysisResult, r1: real, r2: real) returns (page: UploadPage)
    requires 0.0 <= r1 < 1.0 && 0.0 <= r2 < 1.0
    ensures page.Valid() && page.loading && page.progress == Complete
    ensures page.navigations == [Navigation("/results", data)] && page.toasts == []
  {
    page := new UploadPage();
    page.InputChange([f]);
    var started := page.BeginAnalyze();
    page.TickProgress(r1);
    page.Resolve(Ok(data));
    page.TickProgress(r2);
  }
}
