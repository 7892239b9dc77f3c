/** qna_app/models.py: the `UploadedFile` record with its processing status
    machine, and the preview of a stored exchange. The clock is foreign: a
    timestamp is a parameter. */
module QnaModels {
  import opened Common
  import opened Strings
  import ToolRegistry

  /** `STATUS_CHOICES`. */
  datatype Status = Pending | Processing | Completed | Failed {
    function Name(): string {
      match this
      case Pending => "pending"
      case Processing => "processing"
      case Completed => "completed"
      case Failed => "failed"
    }
  }

  /** The status a stored choice value names, if any. */
  function ParseStatus(name: string): (r: Option<Status>)
    ensures r.Some? ==> r.value.Name() == name
  {
    if name == "pending" then Some(Pending)
    else if name == "processing" then Some(Processing)
    else if name == "completed" then Some(Completed)
    else if name == "failed" then Some(Failed)
    else None
  }

  /** Every status is stored under a choice value that reads back as it,
      so distinct statuses have distinct values. */
  lemma ParseStatusName(s: Status)
    ensures ParseStatus(s.Name()) == Some(s)
  {
  }

  /** `file_extension`: the lower-cased `os.path.splitext` extension of
      the original file name, dot included. */
  function FileExtension(originalFilename: string): (r: string)
    ensures r == [] || r[0] == '.'
    ensures |r| <= |originalFilename|
  {
    ToolRegistry.Extension(originalFilename)
  }

  /** An `UploadedFile` row. `fileId` 0 stands for a key not yet assigned
      (the field is a positive integer once saved); `processedAt` and
      `processingError` are `None` where the column is null. */
  class UploadedFile {
    var user: Option<int>
    var originalFilename: string
    var fileType: string
    var fileSize: nat
    var status: Status
    var processingError: Option<string>
    var processedAt: Option<int>
    var fileId: nat
    var isActive: bool

    /** A new, unsaved row with the model's defaults. */
    constructor()
      ensures status == Pending && processingError == None && processedAt == None
      ensures isActive && fileId == 0 && user == None
      ensures originalFilename == "" && fileType == "" && fileSize == 0
    {
      user := None;
      originalFilename := "";
      fileType := "";
      fileSize := 0;
      status := Pending;
      processingError := None;
      processedAt := None;
      fileId := 0;
      isActive := true;
    }

    /** `mark_processing`: only the status changes. */
    method MarkProcessing()
      modifies this
      ensures status == Processing
      ensures processingError == old(processingError) && processedAt == old(processedAt)
      ensures user == old(user) && originalFilename == old(originalFilename) && fileType == old(fileType)
      ensures fileSize == old(fileSize) && fileId == old(fileId) && isActive == old(isActive)
    {
      status := Processing;
    }

    /** `mark_completed`: completed at `now`, with the error cleared. */
    method MarkCompleted(now: int)
      modifies this
      ensures status == Completed && processedAt == Some(now) && processingError == None
      ensures user == old(user) && originalFilename == old(originalFilename) && fileType == old(fileType)
      ensures fileSize == old(fileSize) && fileId == old(fileId) && isActive == old(isActive)
    {
      status := Completed;
      processedAt := Some(now);
      processingError := None;
    }

    /** `mark_failed`: failed at `now`, keeping the given message. */
    method MarkFailed(errorMessage: string, now: int)
      modifies this
      ensures status == Failed && processedAt == Some(now) && processingError == Some(errorMessage)
      ensures user == old(user) && originalFilename == old(originalFilename) && fileType == old(fileType)
      ensures fileSize == old(fileSize) && fileId == old(fileId) && isActive == old(isActive)
    {
      status := Failed;
      processedAt := Some(now);
      processingError := Some(errorMessage);
    }
  }

  /** A processed file carries an error exactly when it failed: after
      `mark_completed` there is none, after `mark_failed` there is one. */
  predicate ErrorMatchesStatus(status: Status, processingError: Option<string>) {
    (status == Completed ==> processingError.None?) && (status == Failed ==> processingError.Some?)
  }

  /** The upload view's sequence on one row: processing, then completed or
      failed with "Agent processing failed". Whatever the agent did, the
      row ends processed, stamped, and with an error exactly when it
      failed. */
  method ProcessUpload(f: UploadedFile, agentSucceeded: bool, now: int)
    modifies f
    ensures f.status == (if agentSucceeded then Completed else Failed)
    ensures f.processedAt == Some(now)
    ensures ErrorMatchesStatus(f.status, f.processingError)
    ensures !agentSucceeded ==> f.processingError == Some("Agent processing failed")
    ensures f.fileId == old(f.fileId) && f.originalFilename == old(f.originalFilename)
  {
    f.MarkProcessing();
    if agentSucceeded {
      f.MarkCompleted(now);
    } else {
      f.MarkFailed("Agent processing failed", now);
    }
  }

  /** `Conversation.get_short_user_message`: the message itself when it
      fits in `length` characters, else its first `length` characters and
      "...". */
  function ShortUserMessage(message: string, length: nat): (r: string)
    ensures |message| <= length ==> r == message
    ensures |r| <= length + 3
    ensures |message| > length ==> |r| == length + 3 && EndsWith(r, "...") && StartsWith(message, r[..length])
  {
    if |message| <= length then message
    else
      var r := message[..length] + "...";
      assert r[..length] == message[..length];
      r
  }

  /** The preview is a fixed point: shortening it again changes nothing,
      since it is exactly `length` characters plus the ellipsis. */
  lemma ShortUserMessageIdempotent(message: string, length: nat)
    ensures ShortUserMessage(ShortUserMessage(message, length), length) == ShortUserMessage(message, length)
  {
    if |message| > length {
      var r := ShortUserMessage(message, length);
      assert r[..length] == message[..length];
    }
  }

  /** The default preview length. */
  const ShortMessageLength: nat := 50
}
