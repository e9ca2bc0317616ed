/** Content objects in terms of their columns: what each statement takes and writes, and that young objects are spared. */
module ContentMeaning {
  import opened Wrappers
  import opened ContentObjects
  import opened ContentLifecycle

  // ---- Registering and committing ----

  /** A row is inserted unless one that is not deleted has the digest and size, or any row has the key. */
  lemma InsertsExactly(rows: Rows, key: StorageKey, blob: Blob)
    ensures Insertable(rows, key, blob) <==>
              && (forall id | id in rows && rows[id].blob.digest == blob.digest && rows[id].blob.size == blob.size ::
                    rows[id].status == Deleted)
              && (forall id | id in rows :: rows[id].key != key)
    ensures forall id :: id in Matches(rows, blob) <==>
                           && id in rows && rows[id].status != Deleted
                           && rows[id].blob.digest == blob.digest && rows[id].blob.size == blob.size
  {
    assert forall id | id in rows && rows[id].status != Deleted && SameContent(rows[id].blob, blob) :: id in Matches(rows, blob);
    if Matches(rows, blob) != {} {
      var _ := Member(Matches(rows, blob));
      var id :| id in Matches(rows, blob);
      assert rows[id].status != Deleted;
    }
  }

  /** A registration that is let through makes a temporary row of the upload, or else leaves bytes to discard. */
  lemma RegisterWrites(s: State, e: Event)
    requires Enabled(s, e) && e.Register?
    ensures var up := s.uploads[e.upload];
            if Insertable(s.rows, up.key, up.blob)
            then && Apply(s, e).rows == s.rows[e.id := Row(up.key, up.blob, Temporary, up.user, None, None, s.now)]
                 && e.upload !in Apply(s, e).uploads
            else Apply(s, e).rows == s.rows && Apply(s, e).uploads == s.uploads[e.upload := Discarding(up.key)]
    ensures Apply(s, e).store == s.store && Apply(s, e).refs == s.refs && Apply(s, e).tasks == s.tasks
  {
  }

  /** A commit takes the caller's own temporary row of that digest, and dates it. */
  lemma CommitWrites(s: State, e: Event)
    requires Enabled(s, e) && e.Commit?
    ensures var own := && e.id in s.rows && s.rows[e.id].createdBy == e.user && s.rows[e.id].blob.digest == e.digest
                       && s.rows[e.id].status == Temporary;
            Apply(s, e)
            == if own then s.(rows := s.rows[e.id := s.rows[e.id].(status := Committed, committedAt := Some(s.now))]) else s
  {
  }

  // ---- Collecting ----

  /**
    * The rows a collection may claim when it sees these references: claimed ones, and unreferenced ones that have been
    * temporary since their creation, or committed, for the grace period.
    */
  function Garbage(rows: Rows, refs: set<Ref>, now: Time): set<ObjectId> {
    set id | id in rows &&
             ((rows[id].status == Quarantined && rows[id].claimedAt != None)
              || ((forall ref | ref in refs :: ref.objectId != id)
                  && ((rows[id].status == Temporary && rows[id].createdAt + CONTENT_GARBAGE_GRACE_PERIOD_MS <= now)
                      || (rows[id].status == Committed && rows[id].committedAt.Some?
                          && rows[id].committedAt.value + CONTENT_GARBAGE_GRACE_PERIOD_MS <= now))))
  }

  /** Claimed rows come first, then the older ones, then the lower ids. */
  predicate SortsFirst(rows: Rows, a: ObjectId, b: ObjectId)
    requires a in rows && b in rows
  {
    var x, y := rows[a], rows[b];
    var xSince := if x.committedAt.Some? then x.committedAt.value else x.createdAt;
    var ySince := if y.committedAt.Some? then y.committedAt.value else y.createdAt;
    if x.claimedAt.Some? != y.claimedAt.Some? then x.claimedAt.Some?
    else if xSince != ySince then xSince < ySince
    else a < b
  }

  /** `picked` is what `ORDER BY … LIMIT limit` leaves of `ids`. */
  ghost predicate FirstOf(rows: Rows, ids: set<ObjectId>, limit: nat, picked: set<ObjectId>)
    requires ids <= rows.Keys
  {
    && picked <= ids
    && |picked| == (if |ids| <= limit then |ids| else limit)
    && forall p, q | p in picked && q in ids - picked :: SortsFirst(rows, p, q)
  }

  lemma GarbageIsCollectable(rows: Rows, refs: set<Ref>, now: Time, id: ObjectId)
    ensures id in Garbage(rows, refs, now) <==>
              id in rows && Collectable(rows[id], now - CONTENT_GARBAGE_GRACE_PERIOD_MS, Referenced(refs, id))
  {
  }

  /** A claim quarantines what it picks, dates the claim, and leaves the other rows alone. */
  lemma ClaimWrites(rows: Rows, ids: set<ObjectId>, now: Time, id: ObjectId)
    requires id in rows
    ensures id in Quarantine(rows, ids, now)
    ensures Quarantine(rows, ids, now)[id]
            == if id in ids then rows[id].(status := Quarantined, claimedAt := Some(now)) else rows[id]
  {
  }

  /** A confirmation answers for a claimed row with this key, and gives it back if something references it. */
  lemma ConfirmWrites(rows: Rows, refs: set<Ref>, id: ObjectId, key: StorageKey)
    ensures var candidate := id in rows && rows[id].key == key && rows[id].status == Quarantined && rows[id].claimedAt != None;
            var referenced := exists ref | ref in refs :: ref.objectId == id;
            && (Confirm(rows, refs, id, key).1 <==> candidate && !referenced)
            && Confirm(rows, refs, id, key).0
               == (if candidate && referenced
                   then rows[id := rows[id].(status := if rows[id].committedAt.Some? then Committed else Temporary,
                                             claimedAt := None)]
                   else rows)
  {
  }

  /** Marking takes a claimed row with this key, and nothing else. */
  lemma MarkWrites(rows: Rows, id: ObjectId, key: StorageKey)
    ensures var candidate := id in rows && rows[id].key == key && rows[id].status == Quarantined && rows[id].claimedAt != None;
            && (MarkDeleted(rows, id, key).1 <==> candidate)
            && MarkDeleted(rows, id, key).0
               == if candidate then rows[id := rows[id].(status := Deleted, claimedAt := None)] else rows
  {
  }

  // ---- Young objects ----

  /** The object became collectable a grace period after it was created, or committed if it was. */
  predicate OldEnough(row: Row, now: Time) {
    (if row.committedAt.Some? then row.committedAt.value else row.createdAt) + CONTENT_GARBAGE_GRACE_PERIOD_MS <= now
  }

  predicate TakenAreOld(s: State) {
    forall id | id in s.rows && (s.rows[id].status.Quarantined? || s.rows[id].status.Deleted?) :: OldEnough(s.rows[id], s.now)
  }

  lemma StepTakesOnlyOld(s: State, e: Event)
    requires Inv(s) && Enabled(s, e) && TakenAreOld(s)
    ensures TakenAreOld(Apply(s, e))
  {
    forall id | id in s.rows
      ensures RowOk(s, id)
    {
    }
  }

  lemma {:induction false} RunTakesOnlyOld(states: seq<State>, events: seq<Event>, i: nat)
    requires IsRun(states, events) && i < |states|
    ensures TakenAreOld(states[i])
  {
    if i > 0 {
      RunTakesOnlyOld(states, events, i - 1);
      RunInv(states, events, i - 1);
      assert StepAt(states, events, i - 1);
      StepTakesOnlyOld(states[i - 1], events[i - 1]);
    }
  }

  /**
    * In every run, an object younger than the grace period, counted from its commit or else from its creation, keeps its
    * row and its bytes, whatever collectors are at work and however stale their view of the references is.
    */
  lemma YoungObjectsSurvive(states: seq<State>, events: seq<Event>, i: nat, id: ObjectId)
    requires IsRun(states, events) && i < |states| && id in states[i].rows
    requires var row := states[i].rows[id];
             if row.committedAt.Some? then states[i].now < row.committedAt.value + CONTENT_GARBAGE_GRACE_PERIOD_MS
             else states[i].now < row.createdAt + CONTENT_GARBAGE_GRACE_PERIOD_MS
    ensures var row := states[i].rows[id];
            && row.status == (if row.committedAt.Some? then Committed else Temporary)
            && row.key in states[i].store && states[i].store[row.key] == row.blob
  {
    RunTakesOnlyOld(states, events, i);
    RunInv(states, events, i);
    assert RowOk(states[i], id);
  }
}
