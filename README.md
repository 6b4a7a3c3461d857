# Ephemeral file records: upload and expiry sweep

A Dafny model of the core of a small file-sharing server. A sender uploads a
file and gets back a link that stays valid for a configured number of hours.
A sweep later deletes every file whose link has expired. The model covers
three parts of the server:

- **The file record** (`server/src/models/File.js`). Module `FileModel` holds
  the document shape as a datatype. `Create` applies the schema's defaults:
  `download_count` becomes 0 and `upload_time` becomes the creation instant.
  `Create` also applies the one validation rule: `uuid` is required, and
  Mongoose's `required` check on a string also rejects the empty string.
- **The upload route** (`server/src/routes/files.js`). Module `FileRoutes`
  holds multer's blob-naming rule (`BlobName`), the expiry computation, the
  link (`DownloadUrl`) and the document an upload stores (`UploadedRecord`).
  These are pure functions, and each is paired with an inverse or a lemma.
  `SaveToDisk` (multer's disk write) and `PostUpload` (the whole route) are
  methods on the shared `FileStore.Store`.
- **The expiry sweep** (`server/src/utils/cleanup.js`). Module `Cleanup`
  holds `Cleanup`, a loop over the documents the query found. For each one
  it removes the blob if the blob exists, then deletes the document. The
  method is proved against the functions `Survivors`, `SweptBlobs` and
  `UnlinkErrors`. The lemmas beside it state what those functions promise.

State is kept in `FileStore.Store`. Its `records` field is the `File`
collection, a map keyed by each document's `uuid`. Its `blobs` field is the
upload directory, the set of paths that hold a blob. Time is an integer
number of milliseconds. The value `uuid()` draws is a parameter that must
not already be a key. `LINK_EXPIRY_HOURS` is a natural-number parameter.
The user that the optional authentication finds is an optional user id.
A failing `unlinkSync` is modelled by a parameter: the set of paths whose
unlink throws.

Some behaviour of the code worth knowing:

- The link is `BASE_URL + "/files/" + id`.
- When `File.create` fails, the blob multer already wrote stays on disk.
  `PostUpload` states this.
- The expiry comes from the handler's clock reading. `upload_time` comes
  from a later reading, taken when the document is created.
- There is no download route and no download counter.
- Two uploads saved in the same millisecond under the same original name
  get the same blob path, and the second write replaces the first. Once
  the earlier document expires, the sweep deletes that shared blob while
  the later document still names it. `CollidingUploadsShareBlob` proves
  this.

## Model

| member | source | states |
|---|---|---|
| `Decimal.NatToDecimal` | server/src/routes/files.js:12 | The timestamp in a blob name is non-empty text of decimal digits with no leading zero, unless the number is 0. |
| `Decimal.DecimalRoundTrip` | server/src/routes/files.js:12 | Reading back the decimal text of a timestamp gives the same timestamp. |
| `FileModel.Create` | server/src/models/File.js:3-15 | Creation fails exactly when `uuid` is missing or empty. Otherwise `download_count` is 0 unless supplied, `upload_time` is the creation instant unless supplied, and every other field, including an absent or null `created_by`, is stored as given. |
| `FileRoutes.UploadFields` | server/src/routes/files.js:27-37 | The object passed to `File.create` carries the id, multer's name, path, size and type, the expiry, both emails and the user as owner. It leaves `upload_time` and `download_count` to the schema's defaults, and it validates exactly when the id is not empty. |
| `FileModel.CreateFromFields` | server/src/models/File.js:9-13 | The defaults never overwrite a supplied value: a stored record re-created from its own fields comes back unchanged at any instant. |
| `FileModel.CreateIdempotent` | server/src/models/File.js:9-13 | Applying the defaults a second time, even at a later instant, changes nothing. |
| `FileModel.CreateMinimal` | server/src/models/File.js:4-14 | A document with nothing but a `uuid` validates, with 0 downloads, no owner, no expiry and the creation instant as upload time. |
| `FileRoutes.BlobName` | server/src/routes/files.js:12 | The on-disk name ends with the original name, and both the timestamp and the original name can be parsed back out of it. |
| `FileRoutes.BlobNameInjective` | server/src/routes/files.js:12 | Two blobs get the same name only when they have the same timestamp and the same original name. |
| `FileRoutes.ExpiryTime` | server/src/routes/files.js:25 | The expiry lies the configured number of hours (of 60 minutes of 60 seconds of 1000 ms) after the request time: never before it, and equal to it only for zero hours. |
| `FileRoutes.DownloadUrl` | server/src/routes/files.js:39 | The link starts with `BASE_URL` and names exactly the id it was built from. |
| `FileRoutes.DownloadUrlOnto` | server/src/routes/files.js:39 | Every link under `BASE_URL` that names an id is the download link of that id. |
| `FileRoutes.UploadedRecord` | server/src/routes/files.js:24-37 | The stored document carries the fresh id, the original name, path, size and type unchanged, an expiry of the request time plus the configured hours, 0 downloads, the creation instant as upload time, and the user id as owner when there is a user (none otherwise). |
| `FileRoutes.SaveToDisk` | server/src/routes/files.js:10-13 | multer writes exactly one blob, at the upload directory joined with the blob name, and reports that path with the file's name, size and type. |
| `FileRoutes.PostUpload` | server/src/routes/files.js:19-40 | With no file: status 400 with "File is required." and neither store changes. With a file: the blob is written, exactly one document is added under the fresh id, all existing documents are unchanged, and the reply is the link for that id. If `File.create` rejects, the blob stays and no document is added. |
| `Cleanup.Cleanup` | server/src/utils/cleanup.js:4-18 | After the sweep exactly the non-expired documents remain, unchanged. Each expired document's blob is gone unless its unlink failed. A failed unlink does not stop the document's deletion or the later ones. The returned count equals the number of documents found, and no expired document remains. |
| `Cleanup.IsExpired` | server/src/utils/cleanup.js:6 | The `$lt` selection: a document without an expiry is never matched, and neither is one expiring exactly at `now`. |
| `Cleanup.ExpiredRecords` | server/src/utils/cleanup.js:6 | `File.find` returns every expired document of the collection, as stored, and nothing else. |
| `Cleanup.ExpiryBoundary` | server/src/utils/cleanup.js:5-6 | Selection is strict: a document expiring exactly at `now` survives that sweep, and any later sweep finds it. |
| `Cleanup.SweepPartition` | server/src/utils/cleanup.js:6-17 | Every document is either found or survives unchanged, never both. The count of found documents plus the number of survivors equals the collection's size before the sweep. |
| `Cleanup.SweptBlobsFrame` | server/src/utils/cleanup.js:8-14 | The sweep only removes blobs, and only blobs that expired documents name. A blob whose unlink fails is kept, and every other named blob is removed. |
| `Cleanup.LiveBlobKept` | server/src/utils/cleanup.js:7-15 | A surviving document's blob is kept unless an expired document names the same path. |
| `Cleanup.SecondSweepIsNoop` | server/src/utils/cleanup.js:5-17 | A second sweep at the same instant finds nothing, reports 0, logs no unlink failure and changes neither store. |
| `Cleanup.SweepMonotone` | server/src/utils/cleanup.js:6 | A later sweep finds every document an earlier sweep would find. |
| `Cleanup.CollidingUploadsShareBlob` | server/src/utils/cleanup.js:9-11 | Two uploads saved in the same millisecond under the same name share a blob path. A sweep that finds only the earlier one removes that blob, although the later document survives and names it. |
| `Cleanup.LinkLifetime` | server/src/routes/files.js:25-33 | An uploaded document survives every sweep up to and including its expiry instant (request time plus the configured hours). Every sweep after that instant finds it. |

## Left out

- Authentication: the signup and login routes, the passport JWT strategy and its wrapper, and the optional-auth middleware. The optional-auth middleware is not part of this model; its effect is the optional user id of a request.
- Server bootstrap, the database connection, logging and HTTP framing. The sweep's logged count and the paths of failed unlinks are returned instead of printed.
- The actual file-system and database calls. The collection and the upload directory are a map and a set in memory. A failure of the database itself is not modelled. The only rejection of `File.create` modelled is the failed `uuid` check.
- Concurrency: the sweep and uploads run one at a time. Nothing schedules the sweep.
- Mongo's own `_id` is identified with `uuid`. Uniqueness of `uuid()` is a precondition, not randomness.
- Parsing of `LINK_EXPIRY_HOURS`: the model takes a natural number, so an unset or non-numeric value, which would give an invalid date, is not modelled.
- `FileModel.Create`: an explicit null and an omitted field are both `None`, so a null `created_by` (stored as a null field) and an omitted one (absent from the document) are not told apart; an explicit null for `upload_time` or `download_count`, which the schema would store instead of applying the default, is not modelled.
- `FileRoutes.JoinPath`: `path.join` normalisation (duplicate or trailing slashes) is not modelled; the path is directory, slash, name.
- Number fields (`size`, `download_count`) are unbounded integers, not double-precision floats. Dates are integer milliseconds.
- The order in which the sweep visits the documents it found is left open. The method's outcome does not depend on it.
