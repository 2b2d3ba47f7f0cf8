/** How a database operation can go wrong. */
module Database {
  datatype StoreError = NotFound | Conflict | Database

  // Which statements of one call the database refuses: the snapshot query,
  // and the update and re-read of the k-th candidate.
  datatype Faults = Faults(query: bool, update: nat -> bool, reread: nat -> bool)
}
