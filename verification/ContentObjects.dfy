/** The content-object table, its reference tables and the object store, with the repository's statements as
    functions of the rows. A digest stands for the bytes it was computed from. */
module ContentObjects {
  import opened Wrappers

  type ObjectId = int
  type UserId = int
  type StorageKey = int
  type Digest = int
  type MediaType = int
  type Time = int

  const CONTENT_GARBAGE_GRACE_PERIOD_MS: nat := 24 * 60 * 60 * 1000

  datatype Status = Temporary | Committed | Quarantined | Deleted

  /** What the store keeps under a key. */
  datatype Blob = Blob(digest: Digest, size: nat, media: MediaType)

  datatype Row = Row(
    key: StorageKey, blob: Blob, status: Status, createdBy: UserId,
    committedAt: Option<Time>, claimedAt: Option<Time>, createdAt: Time)

  /** One row of any of the six tables that reference a content object. */
  datatype Ref = Ref(objectId: ObjectId, holder: int)

  type Rows = map<ObjectId, Row>

  predicate Referenced(refs: set<Ref>, id: ObjectId) {
    exists ref | ref in refs :: ref.objectId == id
  }

  predicate SameContent(a: Blob, b: Blob) {
    a.digest == b.digest && a.size == b.size
  }

  /** The rows `registerTemporary` collides with on its digest and size. */
  function Matches(rows: Rows, blob: Blob): set<ObjectId> {
    set id | id in rows && !rows[id].status.Deleted? && SameContent(rows[id].blob, blob)
  }

  /** `ON CONFLICT DO NOTHING` lets the insert through: neither unique index objects. */
  predicate Insertable(rows: Rows, key: StorageKey, blob: Blob) {
    Matches(rows, blob) == {} && forall id | id in rows :: rows[id].key != key
  }

  function NewRow(key: StorageKey, blob: Blob, user: UserId, now: Time): Row {
    Row(key, blob, Temporary, user, None, None, now)
  }

  predicate MayCommit(rows: Rows, id: ObjectId, user: UserId, digest: Digest) {
    id in rows && rows[id].createdBy == user && rows[id].blob.digest == digest && rows[id].status.Temporary?
  }

  function CommitRow(rows: Rows, id: ObjectId, now: Time): Rows
    requires id in rows
  {
    rows[id := rows[id].(status := Committed, committedAt := Some(now))]
  }

  predicate Claimed(row: Row) {
    row.status.Quarantined? && row.claimedAt.Some?
  }

  /** The WHERE clause of `claimGarbage`, given which objects the statement sees as referenced. */
  predicate Collectable(row: Row, cutoff: Time, seenReferenced: bool) {
    || Claimed(row)
    || (!seenReferenced
        && ((row.status.Temporary? && row.createdAt <= cutoff)
            || (row.status.Committed? && row.committedAt.Some? && row.committedAt.value <= cutoff)))
  }

  function Quarantine(rows: Rows, ids: set<ObjectId>, now: Time): Rows {
    map id | id in rows :: if id in ids then rows[id].(status := Quarantined, claimedAt := Some(now)) else rows[id]
  }

  /** The row that `confirmGarbageUnreferenced` and `markDeleted` address. */
  predicate IsCandidate(rows: Rows, id: ObjectId, key: StorageKey) {
    id in rows && rows[id].key == key && Claimed(rows[id])
  }

  function Unquarantined(row: Row): Row {
    row.(status := if row.committedAt.None? then Temporary else Committed, claimedAt := None)
  }

  /** `confirmGarbageUnreferenced`: a referenced candidate goes back to where it came from. */
  function Confirm(rows: Rows, refs: set<Ref>, id: ObjectId, key: StorageKey): (Rows, bool) {
    if !IsCandidate(rows, id, key) then (rows, false)
    else if Referenced(refs, id) then (rows[id := Unquarantined(rows[id])], false)
    else (rows, true)
  }

  function MarkDeleted(rows: Rows, id: ObjectId, key: StorageKey): (Rows, bool) {
    if IsCandidate(rows, id, key) then (rows[id := rows[id].(status := Deleted, claimedAt := None)], true)
    else (rows, false)
  }
}
