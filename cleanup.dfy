/**
 * The expiry sweep: find every document whose `expiry_time` lies strictly
 * before `now`, remove its blob when one exists, then delete the document.
 */
module Cleanup {
  import opened Wrappers
  import opened FileModel
  import opened FileStore
  import opened FileRoutes

  /**
   * The query `{ expiry_time: { $lt: now } }`: strictly earlier than `now`.
   * A document without an expiry is never matched.
   */
  predicate IsExpired(r: FileRecord, now: Millis)
    ensures r.expiryTime.None? ==> !IsExpired(r, now)
    ensures r.expiryTime == Some(now) ==> !IsExpired(r, now)
  {
    r.expiryTime.Some? && r.expiryTime.value < now
  }

  /**
   * The documents the sweep finds: every expired document of the
   * collection, as it is stored, and nothing else.
   */
  function ExpiredRecords(records: map<string, FileRecord>, now: Millis): (found: map<string, FileRecord>)
    ensures found.Keys <= records.Keys
    ensures forall id :: id in found ==> found[id] == records[id] && IsExpired(found[id], now)
    ensures forall id :: id in records && IsExpired(records[id], now) ==> id in found
  {
    map id | id in records && IsExpired(records[id], now) :: records[id]
  }

  /** The documents the sweep leaves. */
  function Survivors(records: map<string, FileRecord>, now: Millis): map<string, FileRecord> {
    map id | id in records && !IsExpired(records[id], now) :: records[id]
  }

  /** The blob paths named by the documents of `found` whose ids are in `ids`. */
  function PathsOf(found: map<string, FileRecord>, ids: set<string>): set<string> {
    set id | id in ids && id in found && found[id].storedPath.Some? :: found[id].storedPath.value
  }

  /** The blob paths the expired documents name. */
  function ExpiredPaths(records: map<string, FileRecord>, now: Millis): set<string> {
    var found := ExpiredRecords(records, now);
    PathsOf(found, found.Keys)
  }

  /**
   * The blobs left after a sweep: each path an expired document names is
   * gone, except where the file system refused to unlink it.
   */
  function SweptBlobs(records: map<string, FileRecord>, blobs: set<string>, now: Millis, failing: set<string>): set<string> {
    blobs - (ExpiredPaths(records, now) - failing)
  }

  /** The paths whose unlink was attempted and failed, each logged once or more. */
  function UnlinkErrors(records: map<string, FileRecord>, blobs: set<string>, now: Millis, failing: set<string>): set<string> {
    ExpiredPaths(records, now) * blobs * failing
  }

  lemma PathsOfAdd(found: map<string, FileRecord>, done: set<string>, id: string)
    requires id in found
    ensures PathsOf(found, done + {id}) ==
      PathsOf(found, done) + (if found[id].storedPath.Some? then {found[id].storedPath.value} else {})
  {
  }

  /** One visit of the loop keeps the blob set and the error set in step with the visited ids. */
  lemma VisitStep(blobs0: set<string>, blobs: set<string>, errors: set<string>, paths: set<string>,
                  path: Option<string>, failing: set<string>)
    requires blobs == blobs0 - (paths - failing)
    requires errors == paths * blobs0 * failing
    ensures var paths' := paths + (if path.Some? then {path.value} else {});
      var visit := path.Some? && path.value in blobs;
      && (if visit && path.value !in failing then blobs - {path.value} else blobs) == blobs0 - (paths' - failing)
      && (if visit && path.value in failing then errors + {path.value} else errors) == paths' * blobs0 * failing
  {
  }

  /** Deleting every found document leaves exactly the survivors. */
  lemma DeleteFound(records: map<string, FileRecord>, now: Millis)
    ensures records - ExpiredRecords(records, now).Keys == Survivors(records, now)
  {
  }

  /**
   * `cleanup()`. `failing` holds the paths whose `unlinkSync` throws; such
   * a failure is logged and the document is deleted all the same. The
   * order in which the found documents are visited is left open, and the
   * outcome does not depend on it. Returns the logged count, and the paths
   * whose failures were logged.
   */
  method Cleanup(store: Store, now: Millis, failing: set<string>) returns (count: nat, unlinkErrors: set<string>)
    requires store.Valid()
    modifies store
    ensures store.Valid()
    ensures store.records == Survivors(old(store.records), now)
    ensures store.blobs == SweptBlobs(old(store.records), old(store.blobs), now, failing)
    ensures count == |ExpiredRecords(old(store.records), now)|
    ensures unlinkErrors == UnlinkErrors(old(store.records), old(store.blobs), now, failing)
    ensures ExpiredRecords(store.records, now) == map[]
  {
    var expired := ExpiredRecords(store.records, now);
    ghost var records0, blobs0 := store.records, store.blobs;
    ghost var done: set<string> := {};
    var pending := expired.Keys;
    unlinkErrors := {};
    while pending != {}
      invariant done == expired.Keys - pending
      invariant store.records == records0 - done
      invariant store.blobs == blobs0 - (PathsOf(expired, done) - failing)
      invariant unlinkErrors == PathsOf(expired, done) * blobs0 * failing
      decreases pending
    {
      var id :| id in pending;
      var path := expired[id].storedPath;
      PathsOfAdd(expired, done, id);
      VisitStep(blobs0, store.blobs, unlinkErrors, PathsOf(expired, done), path, failing);
      if path.Some? && path.value in store.blobs {
        if path.value in failing {
          unlinkErrors := unlinkErrors + {path.value};
        } else {
          store.blobs := store.blobs - {path.value};
        }
      }
      store.records := store.records - {id};
      pending := pending - {id};
      done := done + {id};
    }
    count := |expired|;
    DeleteFound(records0, now);
  }

  /**
   * Selection is strict: a document expiring exactly at `now` survives the
   * sweep at `now` and is found by any sweep after it.
   */
  lemma ExpiryBoundary(records: map<string, FileRecord>, id: string, now: Millis, later: Millis)
    requires id in records && records[id].expiryTime == Some(now)
    requires now < later
    ensures id in Survivors(records, now) && id !in ExpiredRecords(records, now)
    ensures id in ExpiredRecords(records, later) && id !in Survivors(records, later)
  {
  }

  /**
   * The sweep splits the collection in two: every document is either found
   * (and then unchanged in the snapshot) or survives unchanged, never both,
   * and the logged count plus the survivors is the size before the sweep.
   */
  lemma SweepPartition(records: map<string, FileRecord>, now: Millis)
    ensures ExpiredRecords(records, now).Keys !! Survivors(records, now).Keys
    ensures ExpiredRecords(records, now).Keys + Survivors(records, now).Keys == records.Keys
    ensures forall id :: id in Survivors(records, now) ==> Survivors(records, now)[id] == records[id]
    ensures |ExpiredRecords(records, now)| + |Survivors(records, now)| == |records|
  {
    var found, kept := ExpiredRecords(records, now).Keys, Survivors(records, now).Keys;
    assert found + kept == records.Keys;
    assert |found + kept| == |found| + |kept|;
  }

  /**
   * What the sweep does to the blob set: it only removes, it removes only
   * paths expired documents name, and it keeps every path whose unlink
   * failed.
   */
  lemma SweptBlobsFrame(records: map<string, FileRecord>, blobs: set<string>, now: Millis, failing: set<string>)
    ensures SweptBlobs(records, blobs, now, failing) <= blobs
    ensures forall p :: p in blobs && p !in ExpiredPaths(records, now) ==> p in SweptBlobs(records, blobs, now, failing)
    ensures forall p :: p in blobs && p in failing ==> p in SweptBlobs(records, blobs, now, failing)
    ensures forall p :: p in ExpiredPaths(records, now) && p !in failing ==> p !in SweptBlobs(records, blobs, now, failing)
  {
  }

  /**
   * The blob of a document that survives is kept, unless an expired
   * document names the same path.
   */
  lemma LiveBlobKept(records: map<string, FileRecord>, blobs: set<string>, now: Millis, failing: set<string>, id: string)
    requires id in records && !IsExpired(records[id], now)
    requires records[id].storedPath.Some? && records[id].storedPath.value in blobs
    requires forall e :: e in records && IsExpired(records[e], now) ==> records[e].storedPath != records[id].storedPath
    ensures records[id].storedPath.value in SweptBlobs(records, blobs, now, failing)
  {
  }

  /**
   * A second sweep at the same instant finds nothing, logs a count of 0
   * and changes neither store.
   */
  lemma SecondSweepIsNoop(records: map<string, FileRecord>, blobs: set<string>, now: Millis, failing: set<string>, failing2: set<string>)
    ensures var records1 := Survivors(records, now);
      var blobs1 := SweptBlobs(records, blobs, now, failing);
      && |ExpiredRecords(records1, now)| == 0
      && Survivors(records1, now) == records1
      && SweptBlobs(records1, blobs1, now, failing2) == blobs1
      && UnlinkErrors(records1, blobs1, now, failing2) == {}
  {
    var records1 := Survivors(records, now);
    assert ExpiredRecords(records1, now) == map[];
  }

  /** A later sweep finds every document an earlier one would have found. */
  lemma SweepMonotone(records: map<string, FileRecord>, earlier: Millis, later: Millis)
    requires earlier <= later
    ensures ExpiredRecords(records, earlier).Keys <= ExpiredRecords(records, later).Keys
    ensures Survivors(records, later).Keys <= Survivors(records, earlier).Keys
  {
  }

  /**
   * The link an upload hands out lives exactly `LINK_EXPIRY_HOURS` hours:
   * the new document survives every sweep up to and including its expiry
   * instant, and is found by every sweep after it.
   */
  lemma LinkLifetime(records: map<string, FileRecord>, env: Env, file: IncomingFile, request: UploadRequest,
                     clock: Clock, fileId: string, t: Millis)
    requires fileId != ""
    ensures var records1 := records[fileId := UploadedRecord(env, file, request, clock, fileId)];
      && (fileId in Survivors(records1, t) <==> t <= clock.requestAt + env.linkExpiryHours * MillisPerHour)
      && (fileId in ExpiredRecords(records1, t) <==> clock.requestAt + env.linkExpiryHours * MillisPerHour < t)
  {
  }

  /**
   * Two uploads saved in the same millisecond under the same original name
   * share one blob path, the second write replacing the first. Once the
   * earlier document expires, the sweep removes that shared blob although
   * the later document still survives and names it.
   */
  lemma CollidingUploadsShareBlob(env: Env, file: IncomingFile, request1: UploadRequest, request2: UploadRequest,
                                  clock1: Clock, clock2: Clock, id1: string, id2: string,
                                  blobs: set<string>, t: Millis, failing: set<string>)
    requires id1 != "" && id2 != "" && id1 != id2
    requires clock1.savedAt == clock2.savedAt
    requires clock1.requestAt + env.linkExpiryHours * MillisPerHour < t <= clock2.requestAt + env.linkExpiryHours * MillisPerHour
    requires SavedPath(env, file, clock1) !in failing
    ensures var records := map[id1 := UploadedRecord(env, file, request1, clock1, id1),
                               id2 := UploadedRecord(env, file, request2, clock2, id2)];
      && SavedPath(env, file, clock1) == SavedPath(env, file, clock2)
      && id2 in Survivors(records, t)
      && Survivors(records, t)[id2].storedPath == Some(SavedPath(env, file, clock2))
      && SavedPath(env, file, clock2) !in SweptBlobs(records, blobs, t, failing)
  {
    var records := map[id1 := UploadedRecord(env, file, request1, clock1, id1),
                       id2 := UploadedRecord(env, file, request2, clock2, id2)];
    var found := ExpiredRecords(records, t);
    assert id1 in found;
    assert SavedPath(env, file, clock1) in PathsOf(found, found.Keys);
  }
}
