/** Uploaders, committers, referencing transactions and garbage collectors, interleaved call by call on shared
    tables and one object store. A process that crashes is one that takes no more steps. */
module ContentLifecycle {
  import opened Wrappers
  import opened ContentObjects

  datatype Upload =
    | Stored(key: StorageKey, blob: Blob, user: UserId)  // bytes are in the store, no row yet
    | Discarding(key: StorageKey)                        // registration failed or found an equal object

  /** One claimed object in the hands of one run of the collector. */
  datatype Task = Task(run: int, objectId: ObjectId, key: StorageKey)

  datatype TaskPhase = ToConfirm | ToErase | ToMark | Finished

  datatype State = State(
    now: Time,
    rows: Rows,
    refs: set<Ref>,
    store: map<StorageKey, Blob>,
    usedKeys: set<StorageKey>,
    uploads: map<int, Upload>,
    pending: map<int, ObjectId>,   // open transactions that checked and locked a committed object
    runs: set<int>,
    tasks: map<Task, TaskPhase>)

  datatype Event =
    | Tick(to: Time)
    | Put(upload: int, key: StorageKey, blob: Blob, user: UserId)
    | Register(upload: int, id: ObjectId)
    | RegisterFails(upload: int)
    | Discard(upload: int)
    | Commit(id: ObjectId, user: UserId, digest: Digest)
    | BeginReference(tx: int, id: ObjectId)
    | CommitReference(tx: int, holder: int)
    | AbortReference(tx: int)
    | DropReference(ref: Ref)
    | Claim(run: int, cutoff: Time, view: set<ObjectId>, picked: set<ObjectId>)
    | ConfirmTask(task: Task)
    | EraseBytes(task: Task)
    | MarkTask(task: Task)

  ghost predicate Init(s: State) {
    && s.rows == map[] && s.refs == {} && s.store == map[] && s.usedKeys == {}
    && s.uploads == map[] && s.pending == map[] && s.runs == {} && s.tasks == map[]
  }

  /** An open transaction holds a lock on the row. */
  predicate Locked(s: State, id: ObjectId) {
    exists tx | tx in s.pending :: s.pending[tx] == id
  }

  /** `claimGarbage` picks unlocked rows; what it believes about references may be long out of date. */
  ghost predicate ClaimPicks(s: State, cutoff: Time, view: set<ObjectId>, picked: set<ObjectId>) {
    forall id | id in picked ::
      id in s.rows && !Locked(s, id) && Collectable(s.rows[id], cutoff, id in view)
  }

  ghost predicate Enabled(s: State, e: Event) {
    match e
    case Tick(to) => s.now <= to
    case Put(u, key, _, _) => u !in s.uploads && key !in s.usedKeys
    case Register(u, id) =>
      u in s.uploads && s.uploads[u].Stored? && id !in s.rows
    case RegisterFails(u) => u in s.uploads && s.uploads[u].Stored?
    case Discard(u) => u in s.uploads && s.uploads[u].Discarding?
    case Commit(_, _, _) => true
    case BeginReference(tx, id) => tx !in s.pending && id in s.rows && s.rows[id].status.Committed?
    case CommitReference(tx, _) => tx in s.pending
    case AbortReference(tx) => tx in s.pending
    case DropReference(_) => true
    case Claim(run, cutoff, view, picked) =>
      run !in s.runs && cutoff + CONTENT_GARBAGE_GRACE_PERIOD_MS <= s.now && ClaimPicks(s, cutoff, view, picked)
    case ConfirmTask(t) => t in s.tasks && s.tasks[t].ToConfirm?
    case EraseBytes(t) => t in s.tasks && s.tasks[t].ToErase?
    case MarkTask(t) => t in s.tasks && s.tasks[t].ToMark?
  }

  function NewTasks(rows: Rows, run: int, picked: set<ObjectId>): set<Task> {
    set id | id in picked && id in rows :: Task(run, id, rows[id].key)
  }

  ghost function Apply(s: State, e: Event): State
    requires Enabled(s, e)
  {
    match e
    case Tick(to) => s.(now := to)
    case Put(u, key, blob, user) =>
      s.(store := s.store[key := blob], usedKeys := s.usedKeys + {key}, uploads := s.uploads[u := Stored(key, blob, user)])
    case Register(u, id) =>
      var up := s.uploads[u];
      if Insertable(s.rows, up.key, up.blob)
      then s.(rows := s.rows[id := NewRow(up.key, up.blob, up.user, s.now)], uploads := s.uploads - {u})
      else s.(uploads := s.uploads[u := Discarding(up.key)])
    case RegisterFails(u) => s.(uploads := s.uploads[u := Discarding(s.uploads[u].key)])
    case Discard(u) => s.(store := s.store - {s.uploads[u].key}, uploads := s.uploads - {u})
    case Commit(id, user, digest) =>
      if MayCommit(s.rows, id, user, digest) then s.(rows := CommitRow(s.rows, id, s.now)) else s
    case BeginReference(tx, id) => s.(pending := s.pending[tx := id])
    case CommitReference(tx, holder) => s.(refs := s.refs + {Ref(s.pending[tx], holder)}, pending := s.pending - {tx})
    case AbortReference(tx) => s.(pending := s.pending - {tx})
    case DropReference(ref) => s.(refs := s.refs - {ref})
    case Claim(run, _, _, picked) =>
      s.(rows := Quarantine(s.rows, picked, s.now), runs := s.runs + {run},
         tasks := s.tasks + map t | t in NewTasks(s.rows, run, picked) :: ToConfirm)
    case ConfirmTask(t) =>
      var (rows, unreferenced) := Confirm(s.rows, s.refs, t.objectId, t.key);
      s.(rows := rows, tasks := s.tasks[t := if unreferenced then ToErase else Finished])
    case EraseBytes(t) => s.(store := s.store - {t.key}, tasks := s.tasks[t := ToMark])
    case MarkTask(t) => s.(rows := MarkDeleted(s.rows, t.objectId, t.key).0, tasks := s.tasks[t := Finished])
  }

  // ---- The invariant ----

  /** Some collector was told that nothing references the object, or it is already gone. */
  ghost predicate Condemned(s: State, id: ObjectId)
    requires id in s.rows
  {
    s.rows[id].status.Deleted? || exists t | t in s.tasks :: t.objectId == id && (s.tasks[t].ToErase? || s.tasks[t].ToMark?)
  }

  predicate HasBytes(s: State, id: ObjectId)
    requires id in s.rows
  {
    s.rows[id].key in s.store && s.store[s.rows[id].key] == s.rows[id].blob
  }

  ghost predicate RowOk(s: State, id: ObjectId)
    requires id in s.rows
  {
    var row := s.rows[id];
    && row.key in s.usedKeys
    && (row.status.Temporary? ==> row.committedAt.None?)
    && (row.status.Committed? ==> row.committedAt.Some?)
    && (row.status.Quarantined? <==> row.claimedAt.Some?)
    && (Condemned(s, id) ==>
          && (row.status.Quarantined? || row.status.Deleted?)
          && !Referenced(s.refs, id) && !Locked(s, id))
    && (!Condemned(s, id) ==> HasBytes(s, id))
  }

  ghost predicate RowsOk(s: State) {
    forall id | id in s.rows :: RowOk(s, id)
  }

  /** Storage keys tell rows and uploads apart. */
  ghost predicate KeysApart(s: State) {
    && (forall a, b | a in s.rows && b in s.rows && s.rows[a].key == s.rows[b].key :: a == b)
    && (forall u, id | u in s.uploads && id in s.rows :: s.uploads[u].key != s.rows[id].key)
    && (forall u, v | u in s.uploads && v in s.uploads && s.uploads[u].key == s.uploads[v].key :: u == v)
  }

  /** At most one row that is not deleted has a given digest and size. */
  ghost predicate ContentUnique(rows: Rows) {
    forall a, b | a in rows && b in rows && !rows[a].status.Deleted? && !rows[b].status.Deleted?
                  && SameContent(rows[a].blob, rows[b].blob) :: a == b
  }

  ghost predicate UploadsOk(s: State) {
    forall u | u in s.uploads ::
      && s.uploads[u].key in s.usedKeys
      && (s.uploads[u].Stored? ==> s.uploads[u].key in s.store && s.store[s.uploads[u].key] == s.uploads[u].blob)
  }

  ghost predicate ReferencesOk(s: State) {
    && (forall tx | tx in s.pending :: s.pending[tx] in s.rows && s.rows[s.pending[tx]].status.Committed?)
    && (forall ref | ref in s.refs :: ref.objectId in s.rows && s.rows[ref.objectId].committedAt.Some?)
  }

  ghost predicate TasksOk(s: State) {
    forall t | t in s.tasks :: t.run in s.runs && t.objectId in s.rows && t.key == s.rows[t.objectId].key
  }

  ghost predicate Inv(s: State) {
    RowsOk(s) && KeysApart(s) && ContentUnique(s.rows) && UploadsOk(s) && ReferencesOk(s) && TasksOk(s)
  }

  lemma InitInv(s: State)
    requires Init(s)
    ensures Inv(s)
  {
  }

  lemma UploadKeepsInv(s: State, e: Event)
    requires Inv(s) && Enabled(s, e)
    requires e.Tick? || e.Put? || e.RegisterFails? || e.Discard?
    ensures Inv(Apply(s, e))
  {
    var s' := Apply(s, e);
    forall id | id in s'.rows
      ensures RowOk(s', id)
    {
      assert RowOk(s, id);
    }
  }

  lemma OldRowStaysOk(s: State, e: Event, id: ObjectId)
    requires Inv(s) && Enabled(s, e) && e.Register? && id in s.rows
    ensures id in Apply(s, e).rows && RowOk(Apply(s, e), id)
  {
    assert RowOk(s, id);
  }

  lemma RegisterKeepsRows(s: State, e: Event)
    requires Inv(s) && Enabled(s, e) && e.Register?
    ensures RowsOk(Apply(s, e))
  {
    var s' := Apply(s, e);
    forall id | id in s'.rows
      ensures RowOk(s', id)
    {
      if id in s.rows {
        OldRowStaysOk(s, e, id);
      } else {
        assert forall ref | ref in s.refs :: ref.objectId != id;
        assert forall t | t in s.tasks :: t.objectId != id;
      }
    }
  }

  lemma RegisterKeepsInv(s: State, e: Event)
    requires Inv(s) && Enabled(s, e) && e.Register?
    ensures Inv(Apply(s, e))
  {
    RegisterKeepsRows(s, e);
    if Insertable(s.rows, s.uploads[e.upload].key, s.uploads[e.upload].blob) {
      forall a | a in s.rows && !s.rows[a].status.Deleted?
        ensures !SameContent(s.rows[a].blob, s.uploads[e.upload].blob)
      {
        assert a !in Matches(s.rows, s.uploads[e.upload].blob);
      }
    }
  }

  lemma CommitKeepsRows(s: State, e: Event)
    requires Inv(s) && Enabled(s, e) && e.Commit?
    ensures RowsOk(Apply(s, e))
  {
    var s' := Apply(s, e);
    forall id | id in s'.rows
      ensures RowOk(s', id)
    {
      assert RowOk(s, id);
    }
  }

  lemma CommitKeepsInv(s: State, e: Event)
    requires Inv(s) && Enabled(s, e) && e.Commit?
    ensures Inv(Apply(s, e))
  {
    CommitKeepsRows(s, e);
  }

  lemma ReferencingKeepsRow(s: State, e: Event, id: ObjectId)
    requires Inv(s) && Enabled(s, e) && (e.BeginReference? || e.CommitReference?) && id in s.rows
    ensures id in Apply(s, e).rows && RowOk(Apply(s, e), id)
  {
    var s' := Apply(s, e);
    assert RowOk(s, id);
    assert Locked(s', id) ==> Locked(s, id) || (e.BeginReference? && id == e.id);
    assert Referenced(s'.refs, id) ==> Referenced(s.refs, id) || (e.CommitReference? && s.pending[e.tx] == id);
    assert e.CommitReference? ==> Locked(s, s.pending[e.tx]);
  }

  lemma ReferenceKeepsRows(s: State, e: Event)
    requires Inv(s) && Enabled(s, e)
    requires e.BeginReference? || e.CommitReference? || e.AbortReference? || e.DropReference?
    ensures RowsOk(Apply(s, e))
  {
    var s' := Apply(s, e);
    forall id | id in s'.rows
      ensures RowOk(s', id)
    {
      assert RowOk(s, id);
      if e.BeginReference? || e.CommitReference? {
        ReferencingKeepsRow(s, e, id);
      } else {
        assert Locked(s', id) ==> Locked(s, id);
        assert Referenced(s'.refs, id) ==> Referenced(s.refs, id);
      }
    }
  }

  lemma ReferenceKeepsInv(s: State, e: Event)
    requires Inv(s) && Enabled(s, e)
    requires e.BeginReference? || e.CommitReference? || e.AbortReference? || e.DropReference?
    ensures Inv(Apply(s, e))
  {
    var s' := Apply(s, e);
    ReferenceKeepsRows(s, e);
    forall ref | ref in s'.refs
      ensures ref.objectId in s'.rows && s'.rows[ref.objectId].committedAt.Some?
    {
      if ref !in s.refs {
        assert RowOk(s, ref.objectId);
      }
    }
  }

  lemma ClaimSameCondemned(s: State, e: Event, id: ObjectId)
    requires TasksOk(s) && Enabled(s, e) && e.Claim? && id in s.rows
    ensures Condemned(Apply(s, e), id) <==> Condemned(s, id)
  {
    var s' := Apply(s, e);
    forall t | t in s.tasks
      ensures t in s'.tasks && s'.tasks[t] == s.tasks[t]
    {
    }
  }

  lemma ClaimKeepsRows(s: State, e: Event)
    requires Inv(s) && Enabled(s, e) && e.Claim?
    ensures RowsOk(Apply(s, e))
  {
    var s' := Apply(s, e);
    forall id | id in s'.rows
      ensures RowOk(s', id)
    {
      assert RowOk(s, id);
      ClaimSameCondemned(s, e, id);
    }
  }

  lemma ClaimKeepsReferences(s: State, e: Event)
    requires ReferencesOk(s) && Enabled(s, e) && e.Claim?
    ensures ReferencesOk(Apply(s, e))
  {
    forall tx | tx in s.pending
      ensures s.pending[tx] !in e.picked
    {
      assert Locked(s, s.pending[tx]);
    }
  }

  lemma ClaimKeepsTasks(s: State, e: Event)
    requires TasksOk(s) && Enabled(s, e) && e.Claim?
    ensures TasksOk(Apply(s, e))
  {
  }

  lemma ClaimKeepsKeys(s: State, e: Event)
    requires KeysApart(s) && ContentUnique(s.rows) && UploadsOk(s) && Enabled(s, e) && e.Claim?
    ensures KeysApart(Apply(s, e)) && ContentUnique(Apply(s, e).rows) && UploadsOk(Apply(s, e))
  {
  }

  lemma ClaimKeepsInv(s: State, e: Event)
    requires Inv(s) && Enabled(s, e) && e.Claim?
    ensures Inv(Apply(s, e))
  {
    ClaimKeepsRows(s, e);
    ClaimKeepsReferences(s, e);
    ClaimKeepsTasks(s, e);
    ClaimKeepsKeys(s, e);
  }

  lemma ConfirmKeepsRows(s: State, e: Event)
    requires Inv(s) && Enabled(s, e) && e.ConfirmTask?
    ensures RowsOk(Apply(s, e))
  {
    var s' := Apply(s, e);
    var t := e.task;
    forall id | id in s'.rows
      ensures RowOk(s', id)
    {
      assert RowOk(s, id);
      if s'.tasks[t].ToErase? && id == t.objectId {
        assert Condemned(s', id);
        assert !Locked(s, id);
      } else {
        SameCondemned(s, s', t, id);
      }
    }
  }

  lemma ConfirmKeepsInv(s: State, e: Event)
    requires Inv(s) && Enabled(s, e) && e.ConfirmTask?
    ensures Inv(Apply(s, e))
  {
    ConfirmKeepsRows(s, e);
    assert RowOk(s, e.task.objectId);
  }

  /** A task that neither was nor becomes a death sentence leaves all sentences as they were. */
  lemma SameCondemned(s: State, s': State, t: Task, id: ObjectId)
    requires id in s.rows && id in s'.rows && t in s.tasks && t in s'.tasks
    requires s'.tasks == s.tasks[t := s'.tasks[t]]
    requires s.rows[id].status.Deleted? == s'.rows[id].status.Deleted?
    requires t.objectId == id ==>
               (s.tasks[t].ToErase? || s.tasks[t].ToMark?) == (s'.tasks[t].ToErase? || s'.tasks[t].ToMark?)
    ensures Condemned(s', id) <==> Condemned(s, id)
  {
  }

  lemma EraseKeepsInv(s: State, e: Event)
    requires Inv(s) && Enabled(s, e) && e.EraseBytes?
    ensures Inv(Apply(s, e))
  {
    var s' := Apply(s, e);
    forall id | id in s'.rows
      ensures RowOk(s', id)
    {
      assert RowOk(s, id);
      SameCondemned(s, s', e.task, id);
    }
  }

  lemma MarkKeepsReferences(s: State, e: Event)
    requires Inv(s) && Enabled(s, e) && e.MarkTask?
    ensures ReferencesOk(Apply(s, e))
  {
    assert RowOk(s, e.task.objectId);
  }

  lemma MarkKeepsKeys(s: State, e: Event)
    requires KeysApart(s) && ContentUnique(s.rows) && UploadsOk(s) && TasksOk(s) && Enabled(s, e) && e.MarkTask?
    ensures var next := Apply(s, e);
            KeysApart(next) && ContentUnique(next.rows) && UploadsOk(next) && TasksOk(next)
  {
  }

  lemma MarkKeepsInv(s: State, e: Event)
    requires Inv(s) && Enabled(s, e) && e.MarkTask?
    ensures Inv(Apply(s, e))
  {
    MarkKeepsRows(s, e);
    MarkKeepsReferences(s, e);
    MarkKeepsKeys(s, e);
  }

  lemma MarkKeepsRows(s: State, e: Event)
    requires Inv(s) && Enabled(s, e) && e.MarkTask?
    ensures RowsOk(Apply(s, e))
  {
    var s' := Apply(s, e);
    var t := e.task;
    forall id | id in s'.rows
      ensures RowOk(s', id)
    {
      assert RowOk(s, id);
      if id == t.objectId {
        assert Condemned(s, id);
      } else {
        SameCondemned(s, s', t, id);
      }
    }
  }

  lemma StepKeepsInv(s: State, e: Event)
    requires Inv(s) && Enabled(s, e)
    ensures Inv(Apply(s, e))
  {
    if e.Register? {
      RegisterKeepsInv(s, e);
    } else if e.Commit? {
      CommitKeepsInv(s, e);
    } else if e.BeginReference? || e.CommitReference? || e.AbortReference? || e.DropReference? {
      ReferenceKeepsInv(s, e);
    } else if e.Claim? {
      ClaimKeepsInv(s, e);
    } else if e.ConfirmTask? {
      ConfirmKeepsInv(s, e);
    } else if e.EraseBytes? {
      EraseKeepsInv(s, e);
    } else if e.MarkTask? {
      MarkKeepsInv(s, e);
    } else {
      UploadKeepsInv(s, e);
    }
  }

  // ---- Runs ----

  ghost predicate IsRun(states: seq<State>, events: seq<Event>) {
    && |states| == |events| + 1
    && Init(states[0])
    && forall i | 0 <= i < |events| :: StepAt(states, events, i)
  }

  ghost predicate StepAt(states: seq<State>, events: seq<Event>, i: nat)
    requires |states| == |events| + 1 && i < |events|
  {
    Enabled(states[i], events[i]) && states[i + 1] == Apply(states[i], events[i])
  }

  lemma {:induction false} RunInv(states: seq<State>, events: seq<Event>, i: nat)
    requires IsRun(states, events) && i < |states|
    ensures Inv(states[i])
  {
    if i == 0 {
      InitInv(states[0]);
    } else {
      RunInv(states, events, i - 1);
      assert StepAt(states, events, i - 1);
      StepKeepsInv(states[i - 1], events[i - 1]);
    }
  }

  /** Whatever the collectors do, a referenced object keeps exactly the bytes its row describes. */
  lemma ReferencedBytesSurvive(states: seq<State>, events: seq<Event>, i: nat, ref: Ref)
    requires IsRun(states, events) && i < |states| && ref in states[i].refs
    ensures ref.objectId in states[i].rows && HasBytes(states[i], ref.objectId)
    ensures states[i].rows[ref.objectId].status.Committed? || states[i].rows[ref.objectId].status.Quarantined?
  {
    RunInv(states, events, i);
    assert RowOk(states[i], ref.objectId);
    assert Referenced(states[i].refs, ref.objectId);
  }

  /** So does every temporary and every committed object, and every object a reference is about to be made to. */
  lemma LiveBytesSurvive(states: seq<State>, events: seq<Event>, i: nat, id: ObjectId)
    requires IsRun(states, events) && i < |states| && id in states[i].rows
    requires states[i].rows[id].status.Temporary? || states[i].rows[id].status.Committed? || Locked(states[i], id)
    ensures HasBytes(states[i], id)
  {
    RunInv(states, events, i);
    assert RowOk(states[i], id);
  }

  /** One digest and size never names two live objects. */
  lemma LiveContentIsUnique(states: seq<State>, events: seq<Event>, i: nat, a: ObjectId, b: ObjectId)
    requires IsRun(states, events) && i < |states|
    requires a in states[i].rows && b in states[i].rows
    requires !states[i].rows[a].status.Deleted? && !states[i].rows[b].status.Deleted?
    ensures SameContent(states[i].rows[a].blob, states[i].rows[b].blob) <==> a == b
  {
    RunInv(states, events, i);
  }

  lemma DeletedRowIsLeft(s: State, e: Event, id: ObjectId)
    requires Inv(s) && Enabled(s, e) && id in s.rows && s.rows[id].status.Deleted?
    ensures id in Apply(s, e).rows && Apply(s, e).rows[id] == s.rows[id]
  {
    assert RowOk(s, id);
  }

  /** Deletion is final: the row stays deleted and is never referenced again. */
  lemma {:induction false} DeletedIsForever(states: seq<State>, events: seq<Event>, i: nat, k: nat, id: ObjectId)
    requires IsRun(states, events) && i <= k < |states|
    requires id in states[i].rows && states[i].rows[id].status.Deleted?
    ensures id in states[k].rows && states[k].rows[id] == states[i].rows[id]
    ensures !Referenced(states[k].refs, id)
    decreases k
  {
    if i < k {
      DeletedIsForever(states, events, i, k - 1, id);
      assert StepAt(states, events, k - 1);
      RunInv(states, events, k - 1);
      DeletedRowIsLeft(states[k - 1], events[k - 1], id);
    }
    RunInv(states, events, k);
    assert RowOk(states[k], id);
  }

  lemma DeletedRowStays(s: State, e: Event, id: ObjectId)
    requires Inv(s) && Enabled(s, e) && id in s.rows && s.rows[id].status.Deleted?
    ensures id in Apply(s, e).rows && Apply(s, e).rows[id].status.Deleted?
  {
    assert RowOk(s, id);
  }

  /** A collector that is about to erase or to mark goes on until it has marked. */
  lemma TaskStands(s: State, e: Event, t: Task)
    requires Enabled(s, e) && t in s.tasks && (s.tasks[t].ToErase? || s.tasks[t].ToMark?)
    requires TasksOk(s) && !(e.MarkTask? && e.task == t)
    ensures t in Apply(s, e).tasks && (Apply(s, e).tasks[t].ToErase? || Apply(s, e).tasks[t].ToMark?)
  {
  }

  lemma MarkedIsDeleted(s: State, e: Event)
    requires Inv(s) && Enabled(s, e) && e.MarkTask? && e.task.objectId in s.rows
    ensures Apply(s, e).rows[e.task.objectId].status.Deleted?
  {
    assert RowOk(s, e.task.objectId);
  }

  lemma RowsStay(s: State, e: Event, id: ObjectId)
    requires Enabled(s, e) && id in s.rows
    ensures id in Apply(s, e).rows
  {
  }

  lemma SentenceOfTaskStands(s: State, e: Event, t: Task)
    requires Inv(s) && Enabled(s, e) && t in s.tasks && (s.tasks[t].ToErase? || s.tasks[t].ToMark?)
    ensures t.objectId in s.rows && t.objectId in Apply(s, e).rows && Condemned(Apply(s, e), t.objectId)
  {
    RowsStay(s, e, t.objectId);
    if e.MarkTask? && e.task == t {
      MarkedIsDeleted(s, e);
    } else {
      TaskStands(s, e, t);
    }
  }

  lemma SentenceStands(s: State, e: Event, id: ObjectId)
    requires Inv(s) && Enabled(s, e) && id in s.rows && Condemned(s, id)
    ensures id in Apply(s, e).rows && Condemned(Apply(s, e), id)
  {
    if s.rows[id].status.Deleted? {
      DeletedRowStays(s, e, id);
    } else {
      var t :| t in s.tasks && t.objectId == id && (s.tasks[t].ToErase? || s.tasks[t].ToMark?);
      SentenceOfTaskStands(s, e, t);
    }
  }

  /** A confirmed collection is never taken back: the object stays quarantined until it is deleted and gains no
      reference in between. */
  lemma CondemnedStays(s: State, e: Event, id: ObjectId)
    requires Inv(s) && Enabled(s, e) && id in s.rows && Condemned(s, id)
    ensures id in Apply(s, e).rows && Condemned(Apply(s, e), id) && !Referenced(Apply(s, e).refs, id)
    ensures Apply(s, e).rows[id].status.Quarantined? || Apply(s, e).rows[id].status.Deleted?
  {
    SentenceStands(s, e, id);
    StepKeepsInv(s, e);
    assert RowOk(Apply(s, e), id);
  }

  /** A claim that acted on a stale view costs a referenced object nothing: its confirmation restores the row exactly
      as it was before the claim. */
  lemma StaleClaimIsUndone(s: State, claim: Event, task: Task)
    requires Inv(s) && Enabled(s, claim) && claim.Claim?
    requires task in NewTasks(s.rows, claim.run, claim.picked)
    requires Referenced(s.refs, task.objectId) && s.rows[task.objectId].status.Committed?
    ensures var s1 := Apply(s, claim);
            && Enabled(s1, ConfirmTask(task))
            && Apply(s1, ConfirmTask(task)).rows[task.objectId] == s.rows[task.objectId]
            && Apply(s1, ConfirmTask(task)).tasks[task].Finished?
  {
    assert RowOk(s, task.objectId);
  }
}
