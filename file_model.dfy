/**
 * The file record of the `File` collection: its shape, the defaults the
 * schema applies when a document is created, and its one validation rule.
 */
module FileModel {
  import opened Wrappers

  /** Instants are integer milliseconds since the epoch. */
  type Millis = int

  /** The opaque id of a user document, referenced by `created_by`. */
  type UserId = string

  /** A stored file document. Every field but `uuid` may be missing. */
  datatype FileRecord = FileRecord(
    uuid: string,
    filename: Option<string>,
    storedPath: Option<string>,
    size: Option<int>,
    mimeType: Option<string>,
    uploadTime: Millis,
    expiryTime: Option<Millis>,
    senderEmail: Option<string>,
    receiverEmail: Option<string>,
    downloadCount: int,
    createdBy: Option<UserId>)

  /**
   * The fields a caller hands to `File.create`; `None` is a field the
   * caller left out. For `created_by`, `None` also stands for an explicit
   * null: the schema keeps such a null as a null field, where an omitted
   * field is absent from the document; both pass validation, and the model
   * does not tell them apart.
   */
  datatype FileFields = FileFields(
    uuid: Option<string>,
    filename: Option<string>,
    storedPath: Option<string>,
    size: Option<int>,
    mimeType: Option<string>,
    uploadTime: Option<Millis>,
    expiryTime: Option<Millis>,
    senderEmail: Option<string>,
    receiverEmail: Option<string>,
    downloadCount: Option<int>,
    createdBy: Option<UserId>)

  datatype ValidationError = UuidRequired

  /** The schema's `required` check on a string: present and not empty. */
  predicate HasRequiredUuid(fields: FileFields) {
    fields.uuid.Some? && fields.uuid.value != ""
  }

  /**
   * Creating a document at instant `now`: a missing or empty `uuid` is
   * rejected; otherwise `download_count` defaults to 0 and `upload_time`
   * to `now`, and every other field is stored as supplied.
   */
  function Create(fields: FileFields, now: Millis): (r: Result<FileRecord, ValidationError>)
    ensures r.Failure? <==> !HasRequiredUuid(fields)
    ensures r.Failure? ==> r.error == UuidRequired
    ensures r.Success? ==>
      && r.value.uuid == fields.uuid.value
      && r.value.downloadCount == (if fields.downloadCount.Some? then fields.downloadCount.value else 0)
      && r.value.uploadTime == (if fields.uploadTime.Some? then fields.uploadTime.value else now)
      && r.value.filename == fields.filename
      && r.value.storedPath == fields.storedPath
      && r.value.size == fields.size
      && r.value.mimeType == fields.mimeType
      && r.value.expiryTime == fields.expiryTime
      && r.value.senderEmail == fields.senderEmail
      && r.value.receiverEmail == fields.receiverEmail
      && r.value.createdBy == fields.createdBy
  {
    if !HasRequiredUuid(fields) then Failure(UuidRequired)
    else Success(FileRecord(
      fields.uuid.value,
      fields.filename,
      fields.storedPath,
      fields.size,
      fields.mimeType,
      fields.uploadTime.GetOr(now),
      fields.expiryTime,
      fields.senderEmail,
      fields.receiverEmail,
      fields.downloadCount.GetOr(0),
      fields.createdBy))
  }

  /** The fields of a stored record, every one of them present. */
  function FieldsOf(r: FileRecord): FileFields {
    FileFields(
      Some(r.uuid), r.filename, r.storedPath, r.size, r.mimeType,
      Some(r.uploadTime), r.expiryTime, r.senderEmail, r.receiverEmail,
      Some(r.downloadCount), r.createdBy)
  }

  /**
   * Re-creating a stored record from its own fields gives it back unchanged,
   * whatever the clock says: defaults never overwrite a supplied value.
   */
  lemma CreateFromFields(r: FileRecord, now: Millis)
    requires r.uuid != ""
    ensures Create(FieldsOf(r), now) == Success(r)
  {
  }

  /** Applying the defaults twice is the same as applying them once. */
  lemma CreateIdempotent(fields: FileFields, now: Millis, later: Millis)
    requires Create(fields, now).Success?
    ensures Create(FieldsOf(Create(fields, now).value), later) == Create(fields, now)
  {
    CreateFromFields(Create(fields, now).value, later);
  }

  /**
   * A document built from nothing but a `uuid` validates, starts with no
   * downloads, no owner and no expiry, and was uploaded at `now`.
   */
  lemma CreateMinimal(id: string, now: Millis)
    requires id != ""
    ensures var r := Create(FileFields(Some(id), None, None, None, None, None, None, None, None, None, None), now);
      && r.Success?
      && r.value.downloadCount == 0
      && r.value.uploadTime == now
      && r.value.createdBy.None?
      && r.value.expiryTime.None?
  {
  }
}
