/** The view choice of src/components/FileDropzone.tsx; its handlers are
    `FileDrop.DropArea`. */
module FileDropzone {
  import opened Wrappers
  import opened FileDrop

  /** What the component renders: the card of the chosen file (with its
      remove button) or the drop label, highlighted while dragging. */
  datatype DropzoneView = FileCard(file: FileRef) | EmptyDropzone(highlighted: bool)

  function View(file: Option<FileRef>, isDragging: bool): (v: DropzoneView)
    ensures v.FileCard? <==> file.Some?
    ensures file.Some? ==> v.file == file.value
    ensures file.None? ==> v.highlighted == isDragging
  {
    match file
    case Some(f) => FileCard(f)
    case None => EmptyDropzone(isDragging)
  }
}
