/**
 * The template upload form: a title field, one selected file (chosen through
 * the file picker or dropped on the drop zone) and a drag-highlight flag.
 */
module DocumentUploader {
  import opened Wrappers
  import opened Text

  /** A selected file: its name, its MIME type and its size in bytes. */
  datatype File = File(name: string, mimeType: string, size: nat)

  const PdfType: string := "application/pdf"

  /** The result of "Continue to Signature Setup": which guard refused, or the
      file and trimmed title passed on. */
  datatype UploadOutcome = MissingFile | MissingTitle | Submitted(file: File, title: string)

  class Uploader {
    var title: string
    var file: Option<File>
    var isDragging: bool

    /** An empty form. */
    constructor ()
      ensures title == "" && file == None && !isDragging
    {
      title := "";
      file := None;
      isDragging := false;
    }

    /** Typing in the title field. */
    method SetTitle(t: string)
      modifies this
      ensures title == t && file == old(file) && isDragging == old(isDragging)
    {
      title := t;
    }

    /** Something is dragged over the drop zone. */
    method DragOver()
      modifies this
      ensures isDragging && title == old(title) && file == old(file)
    {
      isDragging := true;
    }

    /** The drag leaves the drop zone. */
    method DragLeave()
      modifies this
      ensures !isDragging && title == old(title) && file == old(file)
    {
      isDragging := false;
    }

    /** Files dropped on the zone: the highlight goes off; a PDF first file
        becomes the selection, any other first file is refused (`rejected`,
        the "Only PDF files are accepted" notice) and the selection is kept. */
    method Drop(files: seq<File>) returns (rejected: bool)
      modifies this
      ensures !isDragging && title == old(title)
      ensures rejected <==> files != [] && files[0].mimeType != PdfType
      ensures file == if files != [] && files[0].mimeType == PdfType then Some(files[0]) else old(file)
    {
      isDragging := false;
      rejected := false;
      if |files| > 0 {
        var dropped := files[0];
        if dropped.mimeType != PdfType {
          return true;
        }
        file := Some(dropped);
      }
    }

    /** Files chosen through the file picker: the first one becomes the
        selection whatever its type; an empty choice changes nothing. */
    method FileChange(files: seq<File>)
      modifies this
      ensures file == if files != [] then Some(files[0]) else old(file)
      ensures title == old(title) && isDragging == old(isDragging)
    {
      if |files| > 0 {
        file := Some(files[0]);
      }
    }

    /** "Remove": the selection is dropped. */
    method RemoveFile()
      modifies this
      ensures file == None && title == old(title) && isDragging == old(isDragging)
    {
      file := None;
    }

    /** The "Continue" button is enabled: not `!file || !title.trim()`. */
    predicate ContinueEnabled()
      reads this
      ensures ContinueEnabled() <==> file.Some? && !IsBlank(title)
    {
      !(file.None? || Trim(title) == [])
    }

    /** "Continue to Signature Setup": the file guard first, then the title guard;
        when both pass, the held file and the trimmed title are handed over. */
    method Upload() returns (outcome: UploadOutcome)
      ensures file.None? ==> outcome == MissingFile
      ensures file.Some? && IsBlank(title) ==> outcome == MissingTitle
      ensures outcome.Submitted? <==> file.Some? && !IsBlank(title)
      ensures outcome.Submitted? <==> ContinueEnabled()
      ensures outcome.Submitted? ==> outcome.file == file.value && outcome.title == Trim(title)
    {
      if file.None? {
        return MissingFile;
      }
      if Trim(title) == [] {
        return MissingTitle;
      }
      return Submitted(file.value, Trim(title));
    }
  }

  /** A dropped non-PDF is refused but a picked one is taken. */
  method PickerSkipsTypeCheck() returns (afterDrop: Option<File>, afterPick: Option<File>)
    ensures afterDrop == None
    ensures afterPick == Some(File("notes.txt", "text/plain", 12))
  {
    var form := new Uploader();
    var text := File("notes.txt", "text/plain", 12);
    var rejected := form.Drop([text]);
    afterDrop := form.file;
    form.FileChange([text]);
    afterPick := form.file;
  }
}
