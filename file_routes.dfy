/**
 * The `POST /files/upload` route: multer's on-disk naming rule, the expiry
 * computation, the creation of the document and the link handed back.
 */
module FileRoutes {
  import opened Wrappers
  import opened Decimal
  import opened FileModel
  import opened FileStore

  /** `dayjs().add(h, "hour")` moves an instant by `h` times this many milliseconds. */
  const MillisPerHour: int := 3600000

  /** The environment the route reads: `UPLOAD_DIR`, `BASE_URL`, `LINK_EXPIRY_HOURS`. */
  datatype Env = Env(uploadDir: string, baseUrl: string, linkExpiryHours: nat)

  /** The file part of a multipart request, before multer writes it. */
  datatype IncomingFile = IncomingFile(originalName: string, mimeType: string, size: nat)

  /** What multer reports as `req.file` once the bytes are on disk. */
  datatype SavedFile = SavedFile(originalName: string, mimeType: string, size: nat, path: string)

  /**
   * A request: the optional file part, the two optional body fields, and
   * the id of the user the optional authentication found, if any.
   */
  datatype UploadRequest = UploadRequest(
    file: Option<IncomingFile>,
    senderEmail: Option<string>,
    receiverEmail: Option<string>,
    user: Option<UserId>)

  /**
   * The three clock readings of one request: multer's `Date.now()` for the
   * blob name, `dayjs()` in the handler, and the schema's `Date.now`
   * default when the document is created.
   */
  datatype Clock = Clock(savedAt: nat, requestAt: Millis, createdAt: Millis)

  /**
   * The reply: a JSON body with the link, a JSON error with its status, or
   * a rejected `File.create` promise that the handler does not catch.
   */
  datatype UploadResponse =
    | Link(downloadUrl: string)
    | Error(status: nat, error: string)
    | Unhandled(cause: ValidationError)

  /** Splits a blob name back into its timestamp and original name. */
  function ParseBlobName(name: string): Option<(nat, string)> {
    var (digits, rest) := SplitDigits(name);
    if digits != [] && rest != [] && rest[0] == '-' then Some((DecimalToNat(digits), rest[1..]))
    else None
  }

  /**
   * multer's `filename` rule: the timestamp in decimal, a dash, then the
   * original name. The name ends with the original name, and both parts
   * can be read back, so two blobs share a name only when they were saved
   * in the same millisecond under the same original name.
   */
  function BlobName(stamp: nat, originalName: string): (name: string)
    ensures |name| > |originalName| && name[|name| - |originalName|..] == originalName
    ensures ParseBlobName(name) == Some((stamp, originalName))
  {
    var digits := NatToDecimal(stamp);
    var name := digits + "-" + originalName;
    assert name == digits + ("-" + originalName);
    SplitDigitsAt(digits, "-" + originalName);
    DecimalRoundTrip(stamp);
    assert ("-" + originalName)[1..] == originalName;
    name
  }

  lemma BlobNameInjective(stamp1: nat, name1: string, stamp2: nat, name2: string)
    requires BlobName(stamp1, name1) == BlobName(stamp2, name2)
    ensures stamp1 == stamp2 && name1 == name2
  {
  }

  /** multer's path for a file saved in `dir` (path normalisation aside). */
  function JoinPath(dir: string, name: string): string {
    dir + "/" + name
  }

  /**
   * `dayjs(requestAt).add(hours, "hour")`: an hour is 60 minutes of 60
   * seconds of 1000 milliseconds, so the instant never lies before the
   * request, and equals it only for zero hours.
   */
  function ExpiryTime(requestAt: Millis, hours: nat): (expiry: Millis)
    ensures expiry - requestAt == hours * 60 * 60 * 1000
    ensures expiry >= requestAt && (expiry == requestAt <==> hours == 0)
  {
    requestAt + hours * MillisPerHour
  }

  function UrlPrefix(baseUrl: string): string {
    baseUrl + "/files/"
  }

  /** The id a download link names, if it is a link under `baseUrl`. */
  function IdFromUrl(baseUrl: string, url: string): Option<string> {
    var prefix := UrlPrefix(baseUrl);
    if |prefix| <= |url| && url[..|prefix|] == prefix then Some(url[|prefix|..]) else None
  }

  /** The link returned to the uploader; it names exactly the id it was built from. */
  function DownloadUrl(baseUrl: string, id: string): (url: string)
    ensures IdFromUrl(baseUrl, url) == Some(id)
    ensures url[..|baseUrl|] == baseUrl
  {
    var url := UrlPrefix(baseUrl) + id;
    assert url[..|UrlPrefix(baseUrl)|] == UrlPrefix(baseUrl);
    url
  }

  /** Every link under `baseUrl` is the download link of the id it names. */
  lemma DownloadUrlOnto(baseUrl: string, url: string, id: string)
    requires IdFromUrl(baseUrl, url) == Some(id)
    ensures DownloadUrl(baseUrl, id) == url
  {
    var prefix := UrlPrefix(baseUrl);
    assert url == url[..|prefix|] + url[|prefix|..];
  }

  /** The path the blob of `file` is written to. */
  function SavedPath(env: Env, file: IncomingFile, clock: Clock): string {
    JoinPath(env.uploadDir, BlobName(clock.savedAt, file.originalName))
  }

  /**
   * The fields the handler passes to `File.create`: the id, what multer
   * reported, the expiry, the body's two emails and the user as owner.
   * `upload_time` and `download_count` are left to the schema's defaults,
   * and the fields validate exactly when the id is not empty.
   */
  function UploadFields(saved: SavedFile, request: UploadRequest, fileId: string, expiry: Millis): (fields: FileFields)
    ensures fields.uuid == Some(fileId)
    ensures HasRequiredUuid(fields) <==> fileId != ""
    ensures fields.uploadTime.None? && fields.downloadCount.None?
    ensures fields.filename == Some(saved.originalName) && fields.storedPath == Some(saved.path)
    ensures fields.size == Some(saved.size as int) && fields.mimeType == Some(saved.mimeType)
    ensures fields.expiryTime == Some(expiry) && fields.createdBy == request.user
    ensures fields.senderEmail == request.senderEmail && fields.receiverEmail == request.receiverEmail
  {
    FileFields(
      Some(fileId), Some(saved.originalName), Some(saved.path), Some(saved.size),
      Some(saved.mimeType), None, Some(expiry), request.senderEmail,
      request.receiverEmail, None, request.user)
  }

  /**
   * The document an upload with a file stores: the fresh id, the file's
   * name, path, size and type as multer reported them, an expiry of the
   * request time plus the configured hours, no downloads yet, the creation
   * instant as upload time, and the user as owner when there is one.
   */
  function UploadedRecord(env: Env, file: IncomingFile, request: UploadRequest, clock: Clock, fileId: string): (r: FileRecord)
    requires fileId != ""
    ensures r.uuid == fileId
    ensures r.filename == Some(file.originalName)
    ensures r.storedPath == Some(SavedPath(env, file, clock))
    ensures r.size == Some(file.size as int)
    ensures r.mimeType == Some(file.mimeType)
    ensures r.expiryTime == Some(clock.requestAt + env.linkExpiryHours * MillisPerHour)
    ensures r.senderEmail == request.senderEmail && r.receiverEmail == request.receiverEmail
    ensures r.downloadCount == 0
    ensures r.uploadTime == clock.createdAt
    ensures r.createdBy == request.user
  {
    var saved := SavedFile(file.originalName, file.mimeType, file.size, SavedPath(env, file, clock));
    var expiry := ExpiryTime(clock.requestAt, env.linkExpiryHours);
    Create(UploadFields(saved, request, fileId, expiry), clock.createdAt).value
  }

  /** multer's disk storage: writes the bytes under the naming rule and reports where. */
  method SaveToDisk(store: Store, env: Env, file: IncomingFile, clock: Clock) returns (saved: SavedFile)
    modifies store`blobs
    ensures saved == SavedFile(file.originalName, file.mimeType, file.size, SavedPath(env, file, clock))
    ensures store.blobs == old(store.blobs) + {saved.path}
  {
    var name := BlobName(clock.savedAt, file.originalName);
    saved := SavedFile(file.originalName, file.mimeType, file.size, JoinPath(env.uploadDir, name));
    store.blobs := store.blobs + {saved.path};
  }

  /**
   * The whole route. Without a file part: status 400, nothing stored.
   * With one: the blob is written, exactly one document is added under the
   * fresh id, every existing document is left as it was, and the reply is
   * the link naming that id. `fileId` is the value `uuid()` drew.
   */
  method PostUpload(store: Store, env: Env, request: UploadRequest, clock: Clock, fileId: string)
    returns (response: UploadResponse)
    requires store.Valid()
    requires fileId !in store.records
    modifies store
    ensures store.Valid()
    ensures request.file.None? ==>
      && response == Error(400, "File is required.")
      && store.records == old(store.records)
      && store.blobs == old(store.blobs)
    ensures request.file.Some? ==>
      store.blobs == old(store.blobs) + {SavedPath(env, request.file.value, clock)}
    ensures request.file.Some? && fileId == "" ==>
      response == Unhandled(UuidRequired) && store.records == old(store.records)
    ensures request.file.Some? && fileId != "" ==>
      && response == Link(DownloadUrl(env.baseUrl, fileId))
      && store.records == old(store.records)[fileId := UploadedRecord(env, request.file.value, request, clock, fileId)]
      && |store.records| == |old(store.records)| + 1
      && (forall id :: id in old(store.records) ==> id in store.records && store.records[id] == old(store.records)[id])
  {
    if request.file.None? {
      return Error(400, "File is required.");
    }
    var saved := SaveToDisk(store, env, request.file.value, clock);
    var expiry := ExpiryTime(clock.requestAt, env.linkExpiryHours);
    var created := Create(UploadFields(saved, request, fileId, expiry), clock.createdAt);
    match created
    case Failure(e) =>
      response := Unhandled(e);
    case Success(doc) =>
      store.records := store.records[fileId := doc];
      response := Link(DownloadUrl(env.baseUrl, fileId));
  }
}
