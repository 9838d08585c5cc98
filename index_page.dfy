/** src/pages/Index.tsx: the original single-page flow, which falls back to
    the mock result whenever the backend fails. */
module IndexPage {
  import opened Wrappers
  import opened FileDrop
  import opened AnalysisTypes
  import opened UiEffects

  /** The description keeps the mis-encoded dash of the source file. */
  const DemoToast: Toast :=
    Toast("Using demo data", "API unavailable \U{E2}\U{20AC}\U{201D} showing sample results.", false)

  datatype IndexView = ResultsView(result: AnalysisResult) | UploadView(file: Option<FileRef>, busy: bool)

  class IndexPage {
    var file: Option<FileRef>
    var loading: bool
    var result: Option<AnalysisResult>
    var toasts: seq<Toast>

    constructor ()
      ensures file.None? && !loading && result.None? && toasts == []
    {
      file, loading, result, toasts := None, false, None, [];
    }

    /** `onFileSelect={setFile}` of the embedded dropzone. */
    method SelectFile(f: Option<FileRef>)
      modifies this
      ensures file == f
      ensures loading == old(loading) && result == old(result) && toasts == old(toasts)
    {
      file := f;
    }

    /** `disabled={!file || loading}` */
    predicate AnalyzeDisabled()
      reads this
    {
      file.None? || loading
    }

    /** The results view is shown exactly when a result is held. */
    function View(): (v: IndexView)
      reads this
      ensures v.ResultsView? <==> result.Some?
      ensures v.ResultsView? ==> v.result == result.value
      ensures v.UploadView? ==> v.file == file && v.busy == loading
    {
      if result.Some? then ResultsView(result.value) else UploadView(file, loading)
    }

    /** The synchronous start of `handleAnalyze`. */
    method BeginAnalyze() returns (started: bool)
      modifies this
      ensures started <==> old(file).Some?
      ensures started ==> loading && AnalyzeDisabled()
      ensures !started ==> loading == old(loading)
      ensures file == old(file) && result == old(result) && toasts == old(toasts)
    {
      if file.None? {
        return false;
      }
      loading := true;
      started := true;
    }

    /** The awaited end of `handleAnalyze`: the response data on success,
        otherwise the mock with a toast; loading is cleared either way, so
        every finished attempt shows the results view. */
    method Resolve(outcome: Response<AnalysisResult>)
      modifies this
      ensures !loading && result.Some? && View().ResultsView?
      ensures outcome.Ok? ==> result == Some(outcome.body) && toasts == old(toasts)
      ensures !outcome.Ok? ==> result == Some(MockResult) && toasts == old(toasts) + [DemoToast]
      ensures file == old(file)
    {
      if outcome.Ok? {
        result := Some(outcome.body);
      } else {
        result := Some(MockResult);
        toasts := toasts + [DemoToast];
      }
      loading := false;
    }

    /** "Analyze Another": back to an empty upload view. */
    method HandleReset()
      modifies this
      ensures file.None? && result.None?
      ensures View() == UploadView(None, loading)
      ensures loading == old(loading) && toasts == old(toasts)
    {
      file, result := None, None;
    }
  }
}
