/** qna_app/forms.py: the upload form's validation and save, and the chat
    form's message check. The database queries the form makes (the user's
    active file count, the existing `file_id`s) are parameters. */
module QnaForms {
  import opened Common
  import opened Strings
  import QnaModels
  import ToolRegistry

  /** `FileExtensionValidator(allowed_extensions=[...])`: the name's
      lower-cased extension is one of the six supported ones. */
  predicate ExtensionAllowed(name: string) {
    var e := ToolRegistry.Extension(name);
    e == ".pdf" || e == ".csv" || e == ".sql" || e == ".db" || e == ".sqlite" || e == ".sqlite3"
  }

  const UnsupportedType := "Only PDF, CSV, and SQL database files are supported."
  const SelectFile := "Please select a file to upload."
  const TooManyFiles := "You have reached the maximum limit of 10 active files."

  /** 50 MB, the largest accepted upload. */
  const MaxUploadSize: nat := 50 * 1024 * 1024
  const MaxActiveFiles: nat := 10
  const Mebibyte: nat := 1024 * 1024

  /** The file of an upload: its name and size in bytes. */
  datatype FileInfo = FileInfo(name: string, size: nat)

  /** `size / (1024*1024)` rendered with `:.1f`, in tenths: the quotient is
      exact in binary floating point, so formatting rounds it to the
      nearest tenth, ties to even. */
  function SizeTenths(size: nat): (t: nat)
    ensures 2 * (t * Mebibyte) <= 2 * (size * 10) + Mebibyte
    ensures 2 * (size * 10) <= 2 * (t * Mebibyte) + Mebibyte
  {
    var q, rem := (size * 10) / Mebibyte, (size * 10) % Mebibyte;
    if 2 * rem > Mebibyte || (2 * rem == Mebibyte && q % 2 == 1) then q + 1 else q
  }

  /** `f"{x:.1f}"` for a number of tenths. */
  function Tenths(t: nat): string {
    NatToString(t / 10) + "." + [Digit(t % 10)]
  }

  function TooLarge(size: nat): string {
    "File size must be less than 50MB. Current size: " + Tenths(SizeTenths(size)) + "MB"
  }

  /** A whole number of mebibytes is shown with a zero tenth. */
  lemma TooLargeWholeMebibytes(m: nat)
    ensures SizeTenths(m * Mebibyte) == m * 10
    ensures Tenths(SizeTenths(m * Mebibyte)) == NatToString(m) + ".0"
  {
    var x := m * 10;
    assert m * Mebibyte * 10 == x * 1048576;
    assert (x * 1048576) / 1048576 == x && (x * 1048576) % 1048576 == 0;
    assert x / 10 == m && x % 10 == 0;
  }

  /** `FileUploadForm.clean_file`: a missing file, a file over 50 MB, and
      (for a known user) a user with 10 or more active files are refused,
      in that order. */
  function CleanFile(file: Option<FileInfo>, user: Option<int>, activeFiles: nat): (r: Result<FileInfo, string>)
    ensures r.Ok? <==> file.Some? && file.value.size <= MaxUploadSize && (user.Some? ==> activeFiles < MaxActiveFiles)
    ensures r.Ok? ==> r.value == file.value
    ensures file.None? ==> r == Err(SelectFile)
    ensures file.Some? && file.value.size > MaxUploadSize ==> r == Err(TooLarge(file.value.size))
  {
    if file.None? then Err(SelectFile)
    else if file.value.size > MaxUploadSize then Err(TooLarge(file.value.size))
    else if user.Some? && activeFiles >= MaxActiveFiles then Err(TooManyFiles)
    else Ok(file.value)
  }

  /** The file field's validation: the extension validator runs on a
      present file before `clean_file`. */
  function ValidateUpload(file: Option<FileInfo>, user: Option<int>, activeFiles: nat): (r: Result<FileInfo, string>)
    ensures r.Ok? ==> file == Some(r.value) && ExtensionAllowed(r.value.name) && r.value.size <= MaxUploadSize
    ensures r.Ok? && user.Some? ==> activeFiles < MaxActiveFiles
  {
    if file.Some? && !ExtensionAllowed(file.value.name) then Err(UnsupportedType)
    else CleanFile(file, user, activeFiles)
  }

  /** Every failure of the upload check is one of its four messages, and a
      present file of a supported type within the limits is accepted. */
  lemma ValidateUploadCases(file: Option<FileInfo>, user: Option<int>, activeFiles: nat)
    ensures var r := ValidateUpload(file, user, activeFiles);
      r.Err? ==> (r.error == UnsupportedType || r.error == SelectFile || r.error == TooManyFiles ||
                  (file.Some? && r.error == TooLarge(file.value.size)))
    ensures file.Some? && ExtensionAllowed(file.value.name) && file.value.size <= MaxUploadSize &&
            (user.Some? ==> activeFiles < MaxActiveFiles) ==>
      ValidateUpload(file, user, activeFiles) == Ok(file.value)
  {
  }

  /** The `file_type` that `save` assigns: "pdf", "csv", or "sql" for the
      four database extensions; `None` leaves the field as it was. */
  function FileTypeFor(name: string): (r: Option<string>)
    ensures r.Some? ==> r.value == "pdf" || r.value == "csv" || r.value == "sql"
  {
    var e := ToolRegistry.Extension(name);
    if e == ".pdf" then Some("pdf")
    else if e == ".csv" then Some("csv")
    else if e == ".sql" || e == ".db" || e == ".sqlite" || e == ".sqlite3" then Some("sql")
    else None
  }

  /** Exactly the names the validator accepts get a file type. */
  lemma FileTypeForAllowed(name: string)
    ensures FileTypeFor(name).Some? <==> ExtensionAllowed(name)
  {
  }

  /** The largest of some `file_id`s. */
  function MaxId(ids: seq<nat>): (m: nat)
    requires ids != []
    ensures m in ids && forall i :: i in ids ==> i <= m
  {
    if |ids| == 1 then ids[0]
    else
      var rest := MaxId(ids[1..]);
      assert forall i :: i in ids ==> i == ids[0] || i in ids[1..];
      if ids[0] >= rest then ids[0] else rest
  }

  /** `last_file.file_id + 1 if last_file else 1`, the existing ids being
      `ids`. */
  function NextFileId(ids: seq<nat>): (r: nat)
    ensures r >= 1 && r !in ids
    ensures forall i :: i in ids ==> i < r
    ensures r == 1 || r - 1 in ids
  {
    if ids == [] then 1 else MaxId(ids) + 1
  }

  /** `FileUploadForm.save` on a validated file: the user when known, the
      name and size, the type when the extension has one, and a `file_id`
      when none was assigned. Writing the row is left to the caller. */
  method Save(instance: QnaModels.UploadedFile, file: FileInfo, user: Option<int>, existingIds: seq<nat>)
    modifies instance
    ensures instance.user == if user.Some? then user else old(instance.user)
    ensures instance.originalFilename == file.name && instance.fileSize == file.size
    ensures instance.fileType == FileTypeFor(file.name).GetOr(old(instance.fileType))
    ensures old(instance.fileId) != 0 ==> instance.fileId == old(instance.fileId)
    ensures old(instance.fileId) == 0 ==> instance.fileId == NextFileId(existingIds)
    ensures instance.status == old(instance.status) && instance.processingError == old(instance.processingError)
    ensures instance.processedAt == old(instance.processedAt) && instance.isActive == old(instance.isActive)
  {
    var nextId := NextFileId(existingIds);
    if user.Some? {
      instance.user := user;
    }
    instance.originalFilename := file.name;
    instance.fileSize := file.size;
    AssignFileType(instance, file.name);
    if instance.fileId == 0 {
      instance.fileId := nextId;
    }
  }

  /** The file-type step of `save`: only `file_type` changes, and only when
      the extension has a type. */
  method AssignFileType(instance: QnaModels.UploadedFile, name: string)
    modifies instance
    ensures instance.fileType == FileTypeFor(name).GetOr(old(instance.fileType))
    ensures instance.user == old(instance.user) && instance.originalFilename == old(instance.originalFilename)
    ensures instance.fileSize == old(instance.fileSize) && instance.fileId == old(instance.fileId)
    ensures instance.status == old(instance.status) && instance.processingError == old(instance.processingError)
    ensures instance.processedAt == old(instance.processedAt) && instance.isActive == old(instance.isActive)
  {
    var fileType := FileTypeFor(name);
    if fileType.Some? {
      instance.fileType := fileType.value;
    }
  }

  const EnterMessage := "Please enter a message."
  const MessageTooShort := "Message must be at least 3 characters long."

  /** `ChatForm.clean_message`: the stripped message, refused when empty or
      shorter than three characters. */
  function CleanMessage(message: string): (r: Result<string, string>)
    ensures r.Ok? <==> |Strip(message)| >= 3
    ensures r.Ok? ==> r.value == Strip(message)
    ensures r.Err? ==> r.error == (if Strip(message) == "" then EnterMessage else MessageTooShort)
  {
    var m := Strip(message);
    if m == "" then Err(EnterMessage)
    else if |m| < 3 then Err(MessageTooShort)
    else Ok(m)
  }

  /** An accepted message starts and ends with a non-space character. */
  lemma CleanMessageTidy(message: string)
    requires CleanMessage(message).Ok?
    ensures Trimmed(CleanMessage(message).value)
  {
    StripEnds(message);
  }

  /** Cleaning an accepted message again accepts it unchanged. */
  lemma CleanMessageIdempotent(message: string)
    requires CleanMessage(message).Ok?
    ensures CleanMessage(CleanMessage(message).value) == CleanMessage(message)
  {
    StripIdempotent(message);
  }
}
