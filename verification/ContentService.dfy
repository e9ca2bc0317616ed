/** The content service on its own: uploads, commits, reads and one garbage collection at a time. */
module ContentService {
  import opened Wrappers
  import opened ContentObjects
  import opened ContentMeaning

  const MAXIMUM_CONTENT_OBJECT_BYTES: nat := 64 * 1024 * 1024

  datatype ContentError =
    | DigestMismatch
    | ObjectNotFound
    | ObjectNotTemporary
    | StorageMismatch
    | UploadConflict
    | UploadEmpty
    | UploadTooLarge
    | PutFailed
    | RegistrationFailed

  /** Which calls to the store and the database throw; one that throws changes nothing. */
  datatype Weather = Weather(
    putFails: bool, registerFails: bool, deleteFails: set<StorageKey>, confirmFails: set<ObjectId>, markFails: set<ObjectId>)

  function BoundedLimit(limit: int): (bounded: nat)
    ensures 1 <= bounded <= 500
    ensures 1 <= limit <= 500 ==> bounded == limit
  {
    if limit < 1 then 1 else if limit > 500 then 500 else limit
  }

  function CollectableNow(rows: Rows, refs: set<Ref>, cutoff: Time): set<ObjectId> {
    set id | id in rows && Collectable(rows[id], cutoff, Referenced(refs, id))
  }

  lemma NowIsGarbage(rows: Rows, refs: set<Ref>, now: Time)
    ensures CollectableNow(rows, refs, now - CONTENT_GARBAGE_GRACE_PERIOD_MS) == Garbage(rows, refs, now)
  {
    forall id
      ensures id in CollectableNow(rows, refs, now - CONTENT_GARBAGE_GRACE_PERIOD_MS) <==> id in Garbage(rows, refs, now)
    {
      GarbageIsCollectable(rows, refs, now, id);
    }
  }

  /** How the collection of one claimed object ends. */
  datatype CollectOutcome = Kept | ConfirmFailed | DeleteFailed | MarkFailed | Collected {
    predicate Failed() {
      ConfirmFailed? || DeleteFailed? || MarkFailed?
    }

    predicate Erases() {
      MarkFailed? || Collected?
    }
  }

  function OutcomeOf(id: ObjectId, key: StorageKey, refs: set<Ref>, weather: Weather): CollectOutcome {
    if id in weather.confirmFails then ConfirmFailed
    else if Referenced(refs, id) then Kept
    else if key in weather.deleteFails then DeleteFailed
    else if id in weather.markFails then MarkFailed
    else Collected
  }

  /** What an outcome makes of a claimed row. */
  function Settled(row: Row, outcome: CollectOutcome): Row {
    match outcome
    case Kept => Unquarantined(row)
    case Collected => row.(status := Deleted, claimedAt := None)
    case _ => row
  }

  /** What one collection makes of a row it claims. */
  function CollectedRow(row: Row, outcome: CollectOutcome, now: Time): Row {
    Settled(row.(status := Quarantined, claimedAt := Some(now)), outcome)
  }

  /** The objects among `ids` whose bytes a collection deletes. */
  function Erased(rows: Rows, refs: set<Ref>, ids: set<ObjectId>, weather: Weather): set<ObjectId> {
    set id | id in ids && id in rows && OutcomeOf(id, rows[id].key, refs, weather).Erases()
  }

  /** The objects among `ids` whose rows it marks as deleted too. */
  function Gone(rows: Rows, refs: set<Ref>, ids: set<ObjectId>, weather: Weather): set<ObjectId> {
    set id | id in ids && id in rows && OutcomeOf(id, rows[id].key, refs, weather).Collected?
  }

  function CollectedRows(rows: Rows, refs: set<Ref>, ids: set<ObjectId>, weather: Weather, now: Time): Rows {
    map id | id in rows ::
      if id in ids then CollectedRow(rows[id], OutcomeOf(id, rows[id].key, refs, weather), now) else rows[id]
  }

  function KeysOf(rows: Rows, ids: set<ObjectId>): set<StorageKey> {
    set id | id in ids && id in rows :: rows[id].key
  }

  class ContentObjectService {
    var rows: Rows
    var refs: set<Ref>
    var store: map<StorageKey, Blob>

    constructor ()
      ensures rows == map[] && refs == {} && store == map[]
    {
      rows, refs, store := map[], {}, map[];
    }

    method BestEffortDelete(key: StorageKey, weather: Weather)
      modifies this`store
      ensures store == if key in weather.deleteFails then old(store) else old(store) - {key}
    {
      if key !in weather.deleteFails {
        store := store - {key};
      }
    }

    /** `key` and `id` are fresh: a random storage key and a database-generated row id. */
    method UploadTemporary(user: UserId, blob: Blob, key: StorageKey, id: ObjectId, now: Time, weather: Weather)
      returns (result: Result<ObjectId, ContentError>)
      requires key !in store && id !in rows && forall other | other in rows :: rows[other].key != key
      modifies this
      ensures refs == old(refs)
      ensures blob.size == 0 <==> result == Failure(UploadEmpty)
      ensures blob.size > MAXIMUM_CONTENT_OBJECT_BYTES <==> result == Failure(UploadTooLarge)
      ensures result == Success(id) ==>
                rows == old(rows)[id := NewRow(key, blob, user, now)] && store == old(store)[key := blob]
                && Matches(old(rows), blob) == {}
      ensures result.Success? && result.value != id ==>
                && rows == old(rows)
                && result.value in Matches(rows, blob)
                && (rows[result.value].status.Committed? || (rows[result.value].status.Temporary? && rows[result.value].createdBy == user))
      ensures result != Success(id) ==>
                rows == old(rows) && (store == old(store) || (key in weather.deleteFails && store == old(store)[key := blob]))
      ensures 0 < blob.size <= MAXIMUM_CONTENT_OBJECT_BYTES ==>
                (weather.putFails <==> result == Failure(PutFailed)) && (weather.putFails ==> rows == old(rows) && store == old(store))
      ensures 0 < blob.size <= MAXIMUM_CONTENT_OBJECT_BYTES && !weather.putFails && !weather.registerFails ==>
                (result == Success(id) <==> Matches(old(rows), blob) == {})
    {
      if blob.size == 0 {
        return Failure(UploadEmpty);
      }
      if blob.size > MAXIMUM_CONTENT_OBJECT_BYTES {
        return Failure(UploadTooLarge);
      }
      if weather.putFails {
        return Failure(PutFailed);
      }
      store := store[key := blob];
      assert store - {key} == old(store);
      if weather.registerFails {
        BestEffortDelete(key, weather);
        return Failure(RegistrationFailed);
      }
      if Insertable(rows, key, blob) {
        rows := rows[id := NewRow(key, blob, user, now)];
        return Success(id);
      }
      ghost var _ := Member(Matches(rows, blob));
      var existing :| existing in Matches(rows, blob);
      BestEffortDelete(key, weather);
      if rows[existing].status.Committed? {
        return Success(existing);
      }
      if rows[existing].status.Temporary? && rows[existing].createdBy == user {
        return Success(existing);
      }
      return Failure(UploadConflict);
    }

    /** Commits exactly the caller's own temporary object whose digest and stored bytes are what it says they are;
        committing again is harmless. */
    method CommitTemporary(user: UserId, id: ObjectId, expected: Digest, now: Time)
      returns (result: Result<ObjectId, ContentError>)
      modifies this`rows
      ensures result.Success? <==>
                && id in old(rows) && old(rows)[id].createdBy == user && old(rows)[id].blob.digest == expected
                && (old(rows)[id].status.Committed?
                    || (old(rows)[id].status.Temporary?
                        && old(rows)[id].key in store && store[old(rows)[id].key] == old(rows)[id].blob))
      ensures result.Success? ==> result.value == id && id in rows && rows[id].status.Committed?
      ensures rows == if result.Success? && old(rows)[id].status.Temporary? then CommitRow(old(rows), id, now) else old(rows)
    {
      if id !in rows || rows[id].createdBy != user || rows[id].status.Deleted? {
        return Failure(ObjectNotFound);
      }
      var current := rows[id];
      if current.status.Committed? {
        if current.blob.digest != expected {
          return Failure(DigestMismatch);
        }
        return Success(id);
      }
      if !current.status.Temporary? {
        return Failure(ObjectNotTemporary);
      }
      if current.blob.digest != expected {
        return Failure(DigestMismatch);
      }
      if current.key !in store || store[current.key] != current.blob {
        return Failure(StorageMismatch);
      }
      rows := CommitRow(rows, id, now);
      return Success(id);
    }

    /** An upload that succeeds at once leaves a committed object with the uploaded content. */
    method CreateCommitted(user: UserId, blob: Blob, key: StorageKey, id: ObjectId, now: Time, weather: Weather)
      returns (result: Result<ObjectId, ContentError>)
      requires key !in store && id !in rows && forall other | other in rows :: rows[other].key != key
      modifies this
      ensures refs == old(refs)
      ensures result.Success? ==>
                && result.value in rows && rows[result.value].status.Committed?
                && SameContent(rows[result.value].blob, blob)
                && (result.value == id ==> id in rows && rows[id].key in store && store[rows[id].key] == blob)
      ensures 0 < blob.size <= MAXIMUM_CONTENT_OBJECT_BYTES && !weather.putFails && !weather.registerFails && Matches(old(rows), blob) == {} ==>
                result == Success(id)
    {
      var uploaded := UploadTemporary(user, blob, key, id, now, weather);
      if uploaded.Failure? {
        return uploaded;
      }
      if rows[uploaded.value].status.Committed? {
        return uploaded;
      }
      result := CommitTemporary(user, uploaded.value, rows[uploaded.value].blob.digest, now);
    }

    method ReadCommitted(id: ObjectId) returns (result: Result<Blob, ContentError>)
      ensures result.Success? <==>
                && id in rows && rows[id].status.Committed? && rows[id].committedAt.Some?
                && rows[id].key in store && store[rows[id].key] == rows[id].blob
      ensures result.Success? ==> result.value == rows[id].blob
    {
      if id !in rows || !rows[id].status.Committed? || rows[id].committedAt.None? {
        return Failure(ObjectNotFound);
      }
      if rows[id].key !in store || store[rows[id].key] != rows[id].blob {
        return Failure(StorageMismatch);
      }
      return Success(store[rows[id].key]);
    }

    /** Confirm, erase and mark one claimed object. */
    method CollectOne(id: ObjectId, weather: Weather) returns (outcome: CollectOutcome)
      requires id in rows && Claimed(rows[id])
      modifies this`rows, this`store
      ensures outcome == OutcomeOf(id, old(rows)[id].key, refs, weather)
      ensures rows == old(rows)[id := Settled(old(rows)[id], outcome)]
      ensures store == if outcome.Erases() then old(store) - {old(rows)[id].key} else old(store)
    {
      var key := rows[id].key;
      if id in weather.confirmFails {
        return ConfirmFailed;
      }
      var (confirmed, unreferenced) := Confirm(rows, refs, id, key);
      rows := confirmed;
      if !unreferenced {
        return Kept;
      }
      if key in weather.deleteFails {
        return DeleteFailed;
      }
      store := store - {key};
      if id in weather.markFails {
        return MarkFailed;
      }
      var (marked, deleted) := MarkDeleted(rows, id, key);
      rows := marked;
      return if deleted then Collected else Kept;
    }

    /** One collection: claim up to the bounded limit, and for each claimed object confirm, erase, mark. */
    method CollectGarbage(limit: int, now: Time, weather: Weather)
      returns (collected: nat, failures: seq<ObjectId>, ghost claimed: set<ObjectId>)
      requires forall a, b | a in rows && b in rows && rows[a].key == rows[b].key :: a == b
      modifies this
      ensures refs == old(refs)
      ensures FirstOf(old(rows), Garbage(old(rows), refs, now), BoundedLimit(limit), claimed)
      ensures rows == CollectedRows(old(rows), refs, claimed, weather, now)
      ensures store == old(store) - KeysOf(old(rows), Erased(old(rows), refs, claimed, weather))
      ensures collected == |Gone(old(rows), refs, claimed, weather)|
      ensures forall id :: id in failures <==> id in claimed && OutcomeOf(id, old(rows)[id].key, refs, weather).Failed()
    {
      var eligible := CollectableNow(rows, refs, now - CONTENT_GARBAGE_GRACE_PERIOD_MS);
      assert eligible == Garbage(rows, refs, now) by {
        NowIsGarbage(rows, refs, now);
      }
      var candidates := TakeFirst(rows, eligible, BoundedLimit(limit));
      claimed := candidates;
      ghost var job := Collection(rows, refs, store, candidates, weather, now);
      rows := Quarantine(rows, candidates, now);
      CollectionStarts(job);
      collected, failures := CollectEach(candidates, weather, job);
      CollectionEnds(job);
    }

    /** The loop over the claimed objects. */
    method CollectEach(candidates: set<ObjectId>, weather: Weather, ghost job: Collection)
      returns (collected: nat, failures: seq<ObjectId>)
      requires job.ids == candidates && job.refs == refs && job.weather == weather
      requires Progress(job, {}, rows, store, 0, [])
      modifies this`rows, this`store
      ensures Progress(job, candidates, rows, store, collected, failures)
    {
      collected, failures := 0, [];
      var rest := candidates;
      while rest != {}
        invariant rest <= candidates
        invariant Progress(job, candidates - rest, rows, store, collected, failures)
        decreases rest
      {
        ghost var _ := Member(rest);
        var id :| id in rest;
        ghost var done := candidates - rest;
        NextIsClaimed(job, done, id);
        CollectionAdvances(job, done, id, rows, store, collected, failures);
        var outcome := CollectOne(id, weather);
        if outcome.Failed() {
          failures := failures + [id];
        } else if outcome.Collected? {
          collected := collected + 1;
        }
        rest := rest - {id};
        assert candidates - rest == done + {id};
      }
      assert candidates - rest == candidates;
    }
  }

  /** What one collection starts from: the tables, the claimed objects, and the calls that throw. */
  datatype Collection = Collection(
    rows: Rows, refs: set<Ref>, store: map<StorageKey, Blob>, ids: set<ObjectId>, weather: Weather, now: Time)
  {
    function ErasedAmong(done: set<ObjectId>): set<ObjectId> {
      Erased(rows, refs, done, weather)
    }

    function GoneAmong(done: set<ObjectId>): set<ObjectId> {
      Gone(rows, refs, done, weather)
    }

    function Outcome(id: ObjectId): CollectOutcome
      requires id in rows
    {
      OutcomeOf(id, rows[id].key, refs, weather)
    }

    /** The rows when `done` of the claimed objects have been dealt with. */
    function RowsAfter(done: set<ObjectId>): Rows {
      map id | id in rows ::
        if id in done then CollectedRow(rows[id], Outcome(id), now)
        else if id in ids then rows[id].(status := Quarantined, claimedAt := Some(now))
        else rows[id]
    }

    function StoreAfter(done: set<ObjectId>): map<StorageKey, Blob> {
      store - KeysOf(rows, ErasedAmong(done))
    }
  }

  /** The tables, the store and the two results when `done` of the claimed objects have been dealt with. */
  ghost predicate Progress(job: Collection, done: set<ObjectId>, rows: Rows, store: map<StorageKey, Blob>,
                           collected: nat, failures: seq<ObjectId>) {
    && done <= job.ids <= job.rows.Keys
    && rows == job.RowsAfter(done)
    && store == job.StoreAfter(done)
    && collected == |job.GoneAmong(done)|
    && forall id :: id in failures <==> id in done && job.Outcome(id).Failed()
  }

  lemma CollectionStarts(job: Collection)
    requires job.ids <= job.rows.Keys
    ensures Progress(job, {}, Quarantine(job.rows, job.ids, job.now), job.store, 0, [])
  {
    assert KeysOf(job.rows, job.ErasedAmong({})) == {};
  }

  lemma NextIsClaimed(job: Collection, done: set<ObjectId>, id: ObjectId)
    requires done <= job.ids <= job.rows.Keys && id in job.ids - done
    ensures var rows := job.RowsAfter(done);
            id in rows && Claimed(rows[id]) && rows[id].key == job.rows[id].key
  {
  }

  lemma NextRow(job: Collection, done: set<ObjectId>, id: ObjectId)
    requires done <= job.ids <= job.rows.Keys && id in job.ids - done
    ensures id in job.RowsAfter(done)
    ensures job.RowsAfter(done + {id}) == job.RowsAfter(done)[id := Settled(job.RowsAfter(done)[id], job.Outcome(id))]
  {
  }

  lemma NextBytes(job: Collection, done: set<ObjectId>, id: ObjectId)
    requires done <= job.ids <= job.rows.Keys && id in job.ids - done
    ensures job.StoreAfter(done + {id})
            == if job.Outcome(id).Erases() then job.StoreAfter(done) - {job.rows[id].key} else job.StoreAfter(done)
  {
    var before, after := job.ErasedAmong(done), job.ErasedAmong(done + {id});
    if job.Outcome(id).Erases() {
      assert after == before + {id};
      assert KeysOf(job.rows, after) == KeysOf(job.rows, before) + {job.rows[id].key};
    } else {
      assert after == before;
    }
  }

  lemma NextIsCounted(job: Collection, done: set<ObjectId>, id: ObjectId)
    requires done <= job.ids <= job.rows.Keys && id in job.ids - done
    ensures |job.GoneAmong(done + {id})| == |job.GoneAmong(done)| + (if job.Outcome(id).Collected? then 1 else 0)
  {
    var before, after := job.GoneAmong(done), job.GoneAmong(done + {id});
    assert after == if job.Outcome(id).Collected? then before + {id} else before;
  }

  /** The state after one more object. */
  lemma CollectionAdvances(job: Collection, done: set<ObjectId>, id: ObjectId, rows: Rows, store: map<StorageKey, Blob>,
                           collected: nat, failures: seq<ObjectId>)
    requires Progress(job, done, rows, store, collected, failures) && id in job.ids - done
    ensures id in rows
    ensures var outcome := job.Outcome(id);
            Progress(job, done + {id}, rows[id := Settled(rows[id], outcome)],
                     if outcome.Erases() then store - {job.rows[id].key} else store,
                     collected + (if outcome.Collected? then 1 else 0),
                     if outcome.Failed() then failures + [id] else failures)
  {
    NextRow(job, done, id);
    NextBytes(job, done, id);
    NextIsCounted(job, done, id);
  }

  lemma CollectionEnds(job: Collection)
    requires job.ids <= job.rows.Keys
    ensures job.RowsAfter(job.ids) == CollectedRows(job.rows, job.refs, job.ids, job.weather, job.now)
  {
  }

  /** `ORDER BY … LIMIT limit`. */
  method TakeFirst(rows: Rows, ids: set<ObjectId>, limit: nat) returns (taken: set<ObjectId>)
    requires ids <= rows.Keys
    ensures FirstOf(rows, ids, limit, taken)
  {
    taken := {};
    var rest := ids;
    while rest != {} && |taken| < limit
      invariant taken !! rest && taken + rest == ids && |taken| + |rest| == |ids| && |taken| <= limit
      invariant forall p, q | p in taken && q in rest :: SortsFirst(rows, p, q)
      decreases rest
    {
      var id := TakeOne(rows, rest);
      taken, rest := taken + {id}, rest - {id};
    }
    assert rest == ids - taken;
  }

  /** The row that sorts before all others. */
  method TakeOne(rows: Rows, ids: set<ObjectId>) returns (first: ObjectId)
    requires ids <= rows.Keys && ids != {}
    ensures first in ids && forall q | q in ids - {first} :: SortsFirst(rows, first, q)
  {
    ghost var _ := Member(ids);
    first :| first in ids;
    var rest := ids - {first};
    while rest != {}
      invariant first in ids && first !in rest && rest <= ids
      invariant forall q | q in ids - rest - {first} :: SortsFirst(rows, first, q)
      decreases rest
    {
      ghost var _ := Member(rest);
      var next :| next in rest;
      ghost var seen := ids - rest - {first};
      rest := rest - {next};
      var lesser := if SortsFirst(rows, next, first) then next else first;
      forall q | q in ids - rest - {lesser}
        ensures SortsFirst(rows, lesser, q)
      {
        assert q == next || q == first || q in seen;
        if q in seen {
          assert SortsFirst(rows, first, q);
        }
      }
      first := lesser;
    }
  }

  /** What a collection makes of each row, claimed or not, call by call. */
  lemma CollectionWrites(rows: Rows, refs: set<Ref>, ids: set<ObjectId>, weather: Weather, now: Time, id: ObjectId)
    requires id in rows
    ensures id in CollectedRows(rows, refs, ids, weather, now)
    ensures var row, after := rows[id], CollectedRows(rows, refs, ids, weather, now)[id];
            var referenced := exists ref | ref in refs :: ref.objectId == id;
            if id !in ids then after == row
            else if id !in weather.confirmFails && referenced
            then after == row.(status := if row.committedAt.Some? then Committed else Temporary, claimedAt := None)
            else if id in weather.confirmFails || row.key in weather.deleteFails || id in weather.markFails
            then after == row.(status := Quarantined, claimedAt := Some(now))
            else after == row.(status := Deleted, claimedAt := None)
    ensures id in Erased(rows, refs, ids, weather) <==>
              && id in ids && id !in weather.confirmFails && rows[id].key !in weather.deleteFails
              && forall ref | ref in refs :: ref.objectId != id
    ensures id in Gone(rows, refs, ids, weather) <==> id in Erased(rows, refs, ids, weather) && id !in weather.markFails
    ensures OutcomeOf(id, rows[id].key, refs, weather).Failed() <==>
              || id in weather.confirmFails
              || ((forall ref | ref in refs :: ref.objectId != id) && (rows[id].key in weather.deleteFails || id in weather.markFails))
  {
  }

  /** A collection never touches the bytes of a referenced committed object, nor its standing unless the confirmation
      throws; then the object stays claimed, for the next collection to give back. */
  lemma CollectionSparesReferenced(rows: Rows, refs: set<Ref>, ids: set<ObjectId>, weather: Weather, now: Time, id: ObjectId)
    requires forall a, b | a in rows && b in rows && rows[a].key == rows[b].key :: a == b
    requires id in rows && Referenced(refs, id)
    requires rows[id].status.Committed? && rows[id].committedAt.Some? && rows[id].claimedAt.None?
    ensures CollectedRows(rows, refs, ids, weather, now)[id] == rows[id] <==> !(id in ids && id in weather.confirmFails)
    ensures Unquarantined(CollectedRows(rows, refs, ids, weather, now)[id]) == rows[id]
    ensures rows[id].key !in KeysOf(rows, Erased(rows, refs, ids, weather))
  {
  }

  /** When the limit covers all garbage, a collection leaves as garbage exactly what a call threw for. */
  lemma CollectionIsComplete(rows: Rows, refs: set<Ref>, now: Time, weather: Weather)
    ensures var ids := Garbage(rows, refs, now);
            Garbage(CollectedRows(rows, refs, ids, weather, now), refs, now)
            == set id | id in ids && OutcomeOf(id, rows[id].key, refs, weather).Failed()
  {
    var ids := Garbage(rows, refs, now);
    var after := CollectedRows(rows, refs, ids, weather, now);
    forall id
      ensures id in Garbage(after, refs, now) <==> id in ids && OutcomeOf(id, rows[id].key, refs, weather).Failed()
    {
    }
  }
}
