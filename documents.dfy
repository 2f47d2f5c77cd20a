/** The `documents` table row the services update in place: file name and type,
    extracted text, lifecycle status and error message. */
module Documents {
  import opened Common

  /** The status column: uploaded, processing, processed, indexing, indexed, error. */
  datatype Status = Uploaded | Processing | Processed | Indexing | Indexed | Error

  class Document {
    const id: int
    const filename: string
    const fileType: string
    var contentText: Option<string>
    var status: Status
    var errorMessage: Option<string>
    /** Every status written, in the order the services committed them. */
    ghost var statusLog: seq<Status>

    /** A freshly uploaded document: no text yet, status "uploaded". */
    constructor (id: int, filename: string, fileType: string)
      ensures this.id == id && this.filename == filename && this.fileType == fileType
      ensures contentText == None && status == Uploaded && errorMessage == None
      ensures statusLog == []
    {
      this.id := id;
      this.filename := filename;
      this.fileType := fileType;
      contentText := None;
      status := Uploaded;
      errorMessage := None;
      statusLog := [];
    }

    /** Assign the status column and commit. */
    method SetStatus(s: Status)
      modifies this
      ensures status == s && statusLog == old(statusLog) + [s]
      ensures contentText == old(contentText) && errorMessage == old(errorMessage)
    {
      status := s;
      statusLog := statusLog + [s];
    }

    /** `status = "error"; error_message = str(e)`, then commit. */
    method Fail(message: string)
      modifies this
      ensures status == Error && errorMessage == Some(message)
      ensures statusLog == old(statusLog) + [Error]
      ensures contentText == old(contentText)
    {
      status := Error;
      errorMessage := Some(message);
      statusLog := statusLog + [Error];
    }
  }
}
