/**
 * The two stores the routes and the sweep share: the `File` collection,
 * keyed by each document's `uuid`, and the upload directory, seen as the
 * set of paths that currently hold a blob.
 */
module FileStore {
  import opened FileModel

  class Store {
    var records: map<string, FileRecord>
    var blobs: set<string>

    /**
     * Each document sits under its own `uuid`: the model identifies the
     * collection's `_id` with `uuid`, so the sweep's delete by `_id` removes
     * exactly the entry of the document it found.
     */
    ghost predicate Valid()
      reads this
    {
      forall id :: id in records ==> records[id].uuid == id
    }
  }
}
