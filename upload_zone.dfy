/** src/components/UploadZone.tsx: the three-state upload widget. Its drag
    flag and callbacks are `FileDrop.DropArea`; here are the step indicator
    and the choice of state. */
module UploadZone {
  import opened Wrappers
  import opened FileDrop

  const StatusSteps: seq<string> := ["PARSING CSV", "DETECTING GAPS", "MAPPING LEVELS", "ANALYZING ZONES"]

  /** `Math.min(Math.floor(progress / 100 * 4), 3)`. */
  function CurrentStep(progress: real): (step: int)
    ensures step <= |StatusSteps| - 1
    ensures step as real <= progress / 100.0 * |StatusSteps| as real
  {
    var scaled := (progress / 100.0 * |StatusSteps| as real).Floor;
    if scaled < |StatusSteps| - 1 then scaled else |StatusSteps| - 1
  }

  /** For any non-negative progress the step names one of the four labels,
      and each quarter of the bar selects its own label. */
  lemma CurrentStepQuarters(progress: real)
    requires 0.0 <= progress
    ensures 0 <= CurrentStep(progress) < |StatusSteps|
    ensures progress < 25.0 ==> CurrentStep(progress) == 0
    ensures 25.0 <= progress < 50.0 ==> CurrentStep(progress) == 1
    ensures 50.0 <= progress < 75.0 ==> CurrentStep(progress) == 2
    ensures 75.0 <= progress ==> CurrentStep(progress) == 3
  {
  }

  /** More progress never moves the indicator backwards. */
  lemma CurrentStepMonotone(p: real, q: real)
    requires p <= q
    ensures CurrentStep(p) <= CurrentStep(q)
  {
    assert p / 100.0 * 4.0 <= q / 100.0 * 4.0;
  }

  /** The labels lit while loading: every step up to the current one. */
  function Highlights(progress: real): (lit: seq<bool>)
    ensures |lit| == |StatusSteps|
    ensures forall i :: 0 <= i < |lit| ==> (lit[i] <==> i <= CurrentStep(progress))
  {
    seq(|StatusSteps|, i => i <= CurrentStep(progress))
  }

  /** The lit labels form a prefix, and the first one is lit from 0%. */
  lemma HighlightsArePrefix(progress: real, i: int, j: int)
    requires 0.0 <= progress
    requires 0 <= i <= j < |StatusSteps|
    ensures Highlights(progress)[j] ==> Highlights(progress)[i]
    ensures Highlights(progress)[0]
  {
    CurrentStepQuarters(progress);
  }

  /** Which of the three states the widget shows. */
  datatype ZoneView =
    | Uploading(progress: real, lit: seq<bool>)
    | Selected(file: FileRef)
    | Empty(highlighted: bool)

  /** Loading wins over a chosen file, which wins over the empty label. */
  function View(file: Option<FileRef>, loading: bool, progress: real, isDragging: bool): (v: ZoneView)
    ensures v.Uploading? <==> loading
    ensures v.Uploading? ==> v.progress == progress && v.lit == Highlights(progress)
    ensures v.Selected? <==> !loading && file.Some?
    ensures v.Selected? ==> v.file == file.value
    ensures v.Empty? ==> v.highlighted == isDragging
  {
    if loading then Uploading(progress, Highlights(progress))
    else if file.Some? then Selected(file.value)
    else Empty(isDragging)
  }
}
