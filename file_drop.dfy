/** File acceptance shared by the upload widgets (src/components/FileDropzone.tsx,
    src/components/UploadZone.tsx, src/components/AdvancedDataForm.tsx and
    src/pages/Upload.tsx): a drop takes the first file only when its name
    ends in ".csv"; the hidden browse input takes its first file unchecked. */
module FileDrop {
  import opened Wrappers
  import opened Text

  /** A browser `File`, reduced to what the client reads. */
  datatype FileRef = FileRef(name: string, size: nat)

  const CsvSuffix: string := ".csv"

  /** The file a drop hands to the parent, if any. */
  function DropSelection(files: seq<FileRef>): (sel: Option<FileRef>)
    ensures sel.Some? <==> |files| > 0 && EndsWith(files[0].name, CsvSuffix)
    ensures sel.Some? ==> sel.value == files[0]
  {
    if |files| > 0 && EndsWith(files[0].name, CsvSuffix) then Some(files[0]) else None
  }

  /** The file the browse input hands to the parent, if any. */
  function InputSelection(files: seq<FileRef>): (sel: Option<FileRef>)
    ensures sel.Some? <==> |files| > 0
    ensures sel.Some? ==> sel.value == files[0]
  {
    if |files| > 0 then Some(files[0]) else None
  }

  /** Only the first dropped file matters: whatever follows it is ignored. */
  lemma DropIgnoresLaterFiles(first: FileRef, rest: seq<FileRef>, other: seq<FileRef>)
    ensures DropSelection([first] + rest) == DropSelection([first] + other)
  {
  }

  /** The drop is stricter than the browse input: whatever a drop accepts
      the input accepts too, and the input also takes a non-csv file. */
  lemma DropStricterThanInput(files: seq<FileRef>)
    ensures DropSelection(files).Some? ==> InputSelection(files) == DropSelection(files)
    ensures InputSelection([FileRef("data.txt", 1)]).Some? && DropSelection([FileRef("data.txt", 1)]).None?
  {
    var t := "data.txt";
    assert t[|t| - 4..] == ".txt" != CsvSuffix;
  }

  /** The parent callback calls a selection makes: one call or none. */
  function CallsFor(sel: Option<FileRef>): (calls: seq<Option<FileRef>>)
    ensures |calls| <= 1
    ensures calls == [] <==> sel.None?
  {
    if sel.Some? then [sel] else []
  }

  /** The drag-and-drop label of a widget with its `isDragging` flag; every
      call of the parent's file callback (`onFileSelect`/`onFileChange`) is
      appended to `calls`, with None for "clear the file". */
  class DropArea {
    var isDragging: bool
    var calls: seq<Option<FileRef>>

    constructor ()
      ensures !isDragging && calls == []
    {
      isDragging, calls := false, [];
    }

    /** dragenter */
    method DragIn()
      modifies this
      ensures isDragging && calls == old(calls)
    {
      isDragging := true;
    }

    /** dragleave */
    method DragOut()
      modifies this
      ensures !isDragging && calls == old(calls)
    {
      isDragging := false;
    }

    /** drop: clears the flag, then selects the first file if it is a csv. */
    method Drop(files: seq<FileRef>)
      modifies this
      ensures !isDragging
      ensures calls == old(calls) + CallsFor(DropSelection(files))
    {
      isDragging := false;
      if |files| > 0 && EndsWith(files[0].name, CsvSuffix) {
        calls := calls + [Some(files[0])];
      }
    }

    /** change on the hidden file input: any first file. */
    method InputChange(files: seq<FileRef>)
      modifies this
      ensures isDragging == old(isDragging)
      ensures calls == old(calls) + CallsFor(InputSelection(files))
    {
      if |files| > 0 {
        calls := calls + [Some(files[0])];
      }
    }

    /** The remove button of the file card. */
    method Remove()
      modifies this
      ensures isDragging == old(isDragging)
      ensures calls == old(calls) + [None]
    {
      calls := calls + [None];
    }
  }

  /** A non-csv drop never reaches the parent, and leaves the flag clear. */
  method RejectedDrop(name: string) returns (area: DropArea)
    requires !EndsWith(name, CsvSuffix)
    ensures fresh(area) && area.calls == [] && !area.isDragging
  {
    area := new DropArea();
    area.DragIn();
    area.Drop([FileRef(name, 0)]);
  }
}
