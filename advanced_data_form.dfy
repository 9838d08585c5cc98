/** src/components/AdvancedDataForm.tsx: the csv dropzone of the advanced
    mode. Its label flag and callbacks behave as `FileDrop.DropArea`, its
    file card / label choice is `FileDropzone.View`, and its tier list is the
    same mapping as `QuickAnalysisForm.TierItems`; what differs is how its
    drop handler reads the file list, through optional chaining. */
module AdvancedDataForm {
  import opened Wrappers
  import opened Text
  import opened FileDrop

  /** `f?.[0]`: the first entry of a possibly absent file list. */
  function FirstOf(files: Option<seq<FileRef>>): (first: Option<FileRef>)
    ensures first.Some? <==> files.Some? && |files.value| > 0
    ensures first.Some? ==> first.value == files.value[0]
  {
    match files
    case None => None
    case Some(fs) => if |fs| > 0 then Some(fs[0]) else None
  }

  /** `f?.[0]?.name.endsWith(".csv")`, with an absent link reading as false. */
  function DropAccepts(files: Option<seq<FileRef>>): (ok: bool)
    ensures ok ==> FirstOf(files).Some?
  {
    match FirstOf(files)
    case None => false
    case Some(f) => EndsWith(f.name, CsvSuffix)
  }

  /** The optional-chained test accepts exactly the drops the explicit
      length test of the other dropzones accepts, and never a missing list. */
  lemma DropAgreesWithDropzone(files: seq<FileRef>)
    ensures DropAccepts(Some(files)) <==> DropSelection(files).Some?
    ensures DropAccepts(Some(files)) ==> FirstOf(Some(files)) == DropSelection(files)
    ensures !DropAccepts(None)
  {
  }

  /** `e.target.files?.[0] && onFileChange(e.target.files[0])`: the browse
      input hands over any first file, as the other dropzones do. */
  lemma InputAgreesWithDropzone(files: Option<seq<FileRef>>)
    ensures files.Some? ==> FirstOf(files) == InputSelection(files.value)
    ensures files.None? ==> FirstOf(files).None?
  {
  }
}
