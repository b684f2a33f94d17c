/** Nothing is lost: a queued row stays until a push of it is accepted, unless somebody readdresses its stream
    or discards it (app/database.py, app/events/outbox.py). */
module Retention {
  import opened Wrappers
  import opened Crypto
  import opened Store
  import opened Outbox
  import opened Interleaving
  import opened DeliveryInvariant
  import opened DeliverySafety
  import opened Streams

  // ----- what releases a row -----

  /** The update changes the delivery configuration as it reads under key `k0`. */
  predicate Readdresses(env: Env, k0: Key, k: Key, nonce: nat, db: Db, p: Patch) {
    var r := UpdateStream(env, k, nonce, db, p);
    r.Updated?
    && var i := Newest(db.streams);
       i < |r.db.streams| && !SameDelivery(RowToStream(env, k0, db.streams[i]), RowToStream(env, k0, r.db.streams[i]))
  }

  /** The update drops pending rows: the program sees a changed configuration under its own key `k`. */
  predicate Drops(env: Env, k: Key, nonce: nat, db: Db, p: Patch) {
    var r := UpdateStream(env, k, nonce, db, p);
    r.Updated? && !SameDelivery(RowToStream(env, k, db.streams[Newest(db.streams)]), r.stream)
  }

  /** What the completed mutation must not do to a row that is addressed under key `k0`. */
  predicate MutationSpares(env: Env, k0: Key, k: Key, nonce: nat, db: Db, m: Mutation, id: nat)
    requires id in db.outbox
  {
    var row := db.outbox[id];
    match m
    case Save(stream) => row.status.Blocked? && Matching(env, k0, [StreamToRow(env, k, nonce, stream)], row.streamId, row.payload)
    case Update(p) => !Readdresses(env, k0, k, nonce, db, p) && (row.status.Pending? ==> !Drops(env, k, nonce, db, p))
    case Delete(streamId) => row.streamId != streamId
    case DiscardPending => row.status.Blocked?
  }

  /** While the row is stored the step neither replaces, deletes nor readdresses its stream, and no operator
      discards it. */
  predicate Spares(env: Env, k0: Key, s: State, a: Action, id: nat)
    requires Possible(s, a)
  {
    id in s.db.outbox ==>
      match a
      case Commit(nonce) => MutationSpares(env, k0, s.key, nonce, s.db, s.lock.value.m, id)
      case DiscardBlocked => s.db.outbox[id].status.Pending?
      case _ => true
  }

  /** Under the key the row was stored with, a readdressing is a change of the delivery configuration. */
  lemma ReaddressesUnderOwnKey(env: Env, k: Key, nonce: nat, db: Db, p: Patch)
    requires SoundEnv(env)
    ensures Readdresses(env, k, k, nonce, db, p) <==> Drops(env, k, nonce, db, p)
    ensures Drops(env, k, nonce, db, p)
            <==> UpdateStream(env, k, nonce, db, p).Updated?
                 && var was := RowToStream(env, k, db.streams[Newest(db.streams)]);
                    !SameDelivery(was, PatchedStream(was, p))
  {
    if UpdateStream(env, k, nonce, db, p).Updated? {
      UpdateReturnsStored(env, k, nonce, db, p);
    }
  }

  /** Pausing, resuming and empty patches readdress nothing, whatever the keys. */
  lemma StatusPatchSpares(env: Env, k0: Key, k: Key, nonce: nat, db: Db, status: Option<Status>)
    ensures var p := Patch("", "", "", None, None, None, None, status);
            !Readdresses(env, k0, k, nonce, db, p) && !Drops(env, k, nonce, db, p)
  {}

  // ----- every step -----

  /** The row is stored, pending or blocked, with this text, and is addressed to its stream under key `k0`. */
  predicate Kept(env: Env, k0: Key, db: Db, id: nat, text: string) {
    && id in db.outbox && db.outbox[id].payload == text
    && Matching(env, k0, db.streams, db.outbox[id].streamId, text)
  }

  predicate Delivered(s: State, id: nat) {
    id in s.h.fates && s.h.fates[id].Delivered?
  }

  predicate Held(env: Env, k0: Key, s: State, id: nat, text: string) {
    Kept(env, k0, s.db, id, text) || Delivered(s, id)
  }

  lemma UpdateKeepsIff(env: Env, k0: Key, k: Key, nonce: nat, db: Db, p: Patch, id: nat, text: string)
    requires |db.streams| <= 1 && Kept(env, k0, db, id, text) && UpdateStream(env, k, nonce, db, p).Updated?
    ensures Kept(env, k0, UpdateStream(env, k, nonce, db, p).db, id, text)
            <==> MutationSpares(env, k0, k, nonce, db, Update(p), id)
  {
    var r := UpdateStream(env, k, nonce, db, p);
    SingleFind(db.streams, db.outbox[id].streamId);
    SingleFind(r.db.streams, db.outbox[id].streamId);
    assert id in PendingOf(db.outbox, db.streams[0].streamId) <==> db.outbox[id].status.Pending?;
  }

  /** A completed mutation keeps the row stored and addressed exactly when it spares it. */
  lemma MutateKeepsIff(env: Env, k0: Key, k: Key, nonce: nat, db: Db, m: Mutation, id: nat, text: string)
    requires |db.streams| <= 1 && Kept(env, k0, db, id, text)
    ensures Kept(env, k0, Mutate(env, k, nonce, db, m), id, text) <==> MutationSpares(env, k0, k, nonce, db, m, id)
  {
    match m
    case Save(_) =>
    case Update(p) =>
      if UpdateStream(env, k, nonce, db, p).Updated? { UpdateKeepsIff(env, k0, k, nonce, db, p, id, text); }
    case Delete(streamId) =>
      SingleFind(db.streams, streamId);
      SingleFind(db.streams, db.outbox[id].streamId);
    case DiscardPending =>
  }

  lemma RecordKeeps(env: Env, k0: Key, s: State, w: nat, t: Task, id: nat, text: string)
    requires Inv(env, s) && TaskOf(s, w) == t && t.Recording? && Kept(env, k0, s.db, id, text)
    requires s.key == k0 || !OpenPayload(env, s.key, text).Readable?
    ensures Held(env, k0, DoRecord(s, w, t), id, text)
  {
    assert Holder(s) == t;
  }

  lemma QueueKeeps(env: Env, k0: Key, s: State, now: int, ds: seq<Delivery>, nonce: nat, id: nat, text: string)
    requires Inv(env, s) && Kept(env, k0, s.db, id, text)
    ensures Kept(env, k0, DoQueue(env, s, now, ds, nonce).db, id, text)
  {
    match Enqueue(env, s.key, nonce, s.db, now, ds)
    case Err(_) =>
    case Ok(_) =>
      if ds != [] {
        var rows := EnqueueGrows(env, s.key, nonce, s.db, now, ds);
      }
  }

  lemma CommitKeeps(env: Env, k0: Key, s: State, m: Mutation, nonce: nat, id: nat, text: string)
    requires |s.db.streams| <= 1 && Kept(env, k0, s.db, id, text) && MutationSpares(env, k0, s.key, nonce, s.db, m, id)
    ensures Kept(env, k0, DoCommit(env, s, m, nonce).db, id, text)
  {
    MutateKeepsIff(env, k0, s.key, nonce, s.db, m, id, text);
  }

  lemma CrashKeeps(env: Env, k0: Key, s: State, key': Key, id: nat, text: string)
    requires Kept(env, k0, s.db, id, text)
    ensures Kept(env, k0, DoCrash(env, s, key').db, id, text)
  {
    QuarantineKeepsMatching(env, key', k0, s.db, s.db.outbox[id].streamId, text);
  }

  lemma StepKeeps(env: Env, k0: Key, s: State, a: Action, id: nat, text: string)
    requires Inv(env, s) && |s.db.streams| <= 1 && Possible(s, a) && Spares(env, k0, s, a, id)
    requires s.key == k0 || !OpenPayload(env, s.key, text).Readable?
    requires Kept(env, k0, s.db, id, text)
    ensures Held(env, k0, Step(env, s, a), id, text)
  {
    if a.Record? {
      RecordKeeps(env, k0, s, a.w, TaskOf(s, a.w), id, text);
    } else {
      TablesKeep(env, k0, s, a, id, text);
    }
  }

  lemma RowsKeep(env: Env, k0: Key, s: State, a: Action, id: nat, text: string)
    requires Inv(env, s) && Possible(s, a) && Spares(env, k0, s, a, id) && Kept(env, k0, s.db, id, text)
    requires a.Queue? || a.Requeue? || a.DiscardBlocked? || a.Crash?
    ensures Kept(env, k0, Step(env, s, a).db, id, text)
  {
    match a
    case Queue(e, ds, nonce) => QueueKeeps(env, k0, s, s.readings[e], ds, nonce, id, text);
    case Requeue(e) => RequeueKeeps(env, k0, s.db, s.readings[e], id, text);
    case DiscardBlocked => DiscardKeeps(env, k0, s.db, id, text);
    case Crash(key') => CrashKeeps(env, k0, s, key', id, text);
  }

  lemma TablesKeep(env: Env, k0: Key, s: State, a: Action, id: nat, text: string)
    requires Inv(env, s) && |s.db.streams| <= 1 && Possible(s, a) && Spares(env, k0, s, a, id) && !a.Record?
    requires Kept(env, k0, s.db, id, text)
    ensures Kept(env, k0, Step(env, s, a).db, id, text)
  {
    if a.Commit? {
      CommitKeeps(env, k0, s, s.lock.value.m, a.nonce, id, text);
    } else if a.Queue? || a.Requeue? || a.DiscardBlocked? || a.Crash? {
      RowsKeep(env, k0, s, a, id, text);
    } else {
      TablesOnlyByWrites(env, s, a);
    }
  }

  lemma RequeueKeeps(env: Env, k0: Key, db: Db, now: int, id: nat, text: string)
    requires Kept(env, k0, db, id, text)
    ensures Kept(env, k0, RequeueBlocked(db, now), id, text)
  {}

  lemma DiscardKeeps(env: Env, k0: Key, db: Db, id: nat, text: string)
    requires Kept(env, k0, db, id, text) && db.outbox[id].status.Pending?
    ensures Kept(env, k0, DeleteBlocked(db), id, text)
  {}

  /** An id that has left the queue has left for good, with its fate. */
  lemma FatesStay(env: Env, s: State, a: Action, id: nat)
    requires IdInv(s) && Possible(s, a) && id in s.h.fates
    ensures id in Step(env, s, a).h.fates && Step(env, s, a).h.fates[id] == s.h.fates[id]
  {
    match a
    case Record(w) => RecordStays(s, w, TaskOf(s, w), id);
    case Commit(nonce) =>
      var m := s.lock.value.m;
      DepartStays(s, Mutate(env, s.key, nonce, s.db, m), if m.DiscardPending? then Discarded else Superseded, id);
    case DiscardBlocked => DepartStays(s, DeleteBlocked(s.db), Discarded, id);
    case _ => FatesOnlyByDeparture(env, s, a);
  }

  lemma RecordStays(s: State, w: nat, t: Task, id: nat)
    requires IdInv(s) && t.Recording? && id in s.h.fates
    ensures id in DoRecord(s, w, t).h.fates && DoRecord(s, w, t).h.fates[id] == s.h.fates[id]
  {
    DepartStays(s, Apply(s.db, t.item.id, t.write), if t.write.DoComplete? then Fate.Delivered else Cancelled, id);
  }

  lemma DepartStays(s: State, db': Db, fate: Fate, id: nat)
    requires IdInv(s) && id in s.h.fates
    ensures id in Depart(s, db', fate).h.fates && Depart(s, db', fate).h.fates[id] == s.h.fates[id]
  {
    assert id !in s.db.outbox.Keys;
  }

  // ----- every run -----

  ghost predicate SparedAt(env: Env, k0: Key, run: seq<State>, n: nat, id: nat, text: string)
    requires n + 1 < |run|
  {
    && (run[n].key == k0 || !OpenPayload(env, run[n].key, text).Readable?)
    && exists a :: Possible(run[n], a) && run[n + 1] == Step(env, run[n], a) && Spares(env, k0, run[n], a, id)
  }

  /** From `i` to `j` nobody replaces, deletes or readdresses the row's stream or discards the row, and no key
      but `k0` opens its text. */
  ghost predicate Spared(env: Env, k0: Key, run: seq<State>, i: nat, j: nat, id: nat, text: string)
    requires i <= j < |run|
  {
    forall n: nat :: i <= n < j ==> SparedAt(env, k0, run, n, id, text)
  }

  lemma HeldNext(env: Env, k0: Key, run: seq<State>, n: nat, id: nat, text: string)
    requires IsRun(env, run) && n + 1 < |run| && |run[n].db.streams| <= 1
    requires Held(env, k0, run[n], id, text) && SparedAt(env, k0, run, n, id, text)
    ensures Held(env, k0, run[n + 1], id, text)
  {
    RunInv(env, run, n);
    var a :| Possible(run[n], a) && run[n + 1] == Step(env, run[n], a) && Spares(env, k0, run[n], a, id);
    if Kept(env, k0, run[n].db, id, text) {
      StepKeeps(env, k0, run[n], a, id, text);
    } else {
      FatesStay(env, run[n], a, id);
    }
  }

  lemma SparedParts(env: Env, k0: Key, run: seq<State>, i: nat, j: nat, id: nat, text: string)
    requires i < j < |run| && Spared(env, k0, run, i, j, id, text)
    ensures Spared(env, k0, run, i, j - 1, id, text) && SparedAt(env, k0, run, j - 1, id, text)
  {}

  lemma {:induction false} HeldThroughout(env: Env, k0: Key, run: seq<State>, i: nat, j: nat, id: nat, text: string)
    requires IsRun(env, run) && |run[0].db.streams| <= 1 && i <= j < |run|
    requires Held(env, k0, run[i], id, text) && Spared(env, k0, run, i, j, id, text)
    ensures Held(env, k0, run[j], id, text)
    decreases j
  {
    if i < j {
      SparedParts(env, k0, run, i, j, id, text);
      HeldThroughout(env, k0, run, i, j - 1, id, text);
      OneStream(env, run, j - 1);
      HeldNext(env, k0, run, j - 1, id, text);
    }
  }

  lemma HeldMeans(env: Env, k0: Key, s: State, id: nat, text: string)
    requires Inv(env, s) && Delivered(s, id)
    ensures Count(s.h.accepted, id) >= 1
  {
    assert Settled(s, id);
  }

  /** Nothing is lost. A stored row that is addressed to its stream under some key stays stored, pending or
      blocked and still addressed, through pauses, resumes, refused and empty updates, deletions of other
      streams, failures, crashes and changes of the key, until a push of it returned True and it left as
      delivered: unless its stream is replaced, deleted or readdressed, or an operator discards it. */
  lemma HeldUntilAccepted(env: Env, k0: Key, run: seq<State>, i: nat, j: nat, id: nat, text: string)
    requires IsRun(env, run) && |run[0].db.streams| <= 1 && i <= j < |run|
    requires Kept(env, k0, run[i].db, id, text) && Spared(env, k0, run, i, j, id, text)
    ensures Kept(env, k0, run[j].db, id, text) || (Delivered(run[j], id) && Count(run[j].h.accepted, id) >= 1)
  {
    HeldThroughout(env, k0, run, i, j, id, text);
    RunInv(env, run, j);
    if Delivered(run[j], id) {
      HeldMeans(env, k0, run[j], id, text);
    }
  }

  // ----- from the enqueue on -----

  lemma NewRowAt(env: Env, k: Key, nonce: nat, first: nat, ds: seq<Delivery>, now: int, id: nat)
    requires id in NewRows(env, k, nonce, first, ds, now)
    ensures first <= id < first + |ds|
    ensures NewRows(env, k, nonce, first, ds, now)[id] == NewRow(env, k, nonce + (id - first), ds[id - first], now)
  {
    NewRowsAt(env, k, nonce, first, ds, now);
  }

  lemma NewRowKept(env: Env, k: Key, nonce: nat, db: Db, now: int, ds: seq<Delivery>, id: nat, row: OutboxRow)
    requires SoundEnv(env) && WellAddressed(ds) && db.nextId <= id < db.nextId + |ds|
    requires forall i :: 0 <= i < |ds| ==> IsCurrent(env, k, db.streams, ds[i].stream)
    requires row == NewRow(env, k, nonce + (id - db.nextId), ds[id - db.nextId], now)
    ensures Matching(env, k, db.streams, row.streamId, row.payload)
    ensures forall k' :: k' != k ==> !OpenPayload(env, k', row.payload).Readable?
  {
    NewRowsMatch(env, k, nonce, db, now, ds, id);
    SealedApart(env, k, nonce + (id - db.nextId), ds[id - db.nextId].payload);
  }

  lemma EnqueuedParts(env: Env, k: Key, nonce: nat, db: Db, now: int, ds: seq<Delivery>)
    requires Enqueue(env, k, nonce, db, now, ds).Ok? && ds != []
    ensures forall i :: 0 <= i < |ds| ==> IsCurrent(env, k, db.streams, ds[i].stream)
    ensures var db' := Enqueue(env, k, nonce, db, now, ds).value;
            db'.streams == db.streams && db'.outbox == db.outbox + NewRows(env, k, nonce, db.nextId, ds, now)
  {}

  lemma NewRowsKept(env: Env, k: Key, nonce: nat, db: Db, now: int, ds: seq<Delivery>, id: nat, rows: Rows)
    requires SoundEnv(env) && WellAddressed(ds) && rows == NewRows(env, k, nonce, db.nextId, ds, now) && id in rows
    requires forall i :: 0 <= i < |ds| ==> IsCurrent(env, k, db.streams, ds[i].stream)
    ensures Matching(env, k, db.streams, rows[id].streamId, rows[id].payload)
    ensures forall k' :: k' != k ==> !OpenPayload(env, k', rows[id].payload).Readable?
  {
    NewRowAt(env, k, nonce, db.nextId, ds, now, id);
    NewRowKept(env, k, nonce, db, now, ds, id, rows[id]);
  }

  lemma EnqueuedRowKept(env: Env, k: Key, nonce: nat, db: Db, now: int, ds: seq<Delivery>, id: nat)
    requires SoundEnv(env) && WellAddressed(ds) && Enqueue(env, k, nonce, db, now, ds).Ok?
    requires id in Enqueue(env, k, nonce, db, now, ds).value.outbox && id !in db.outbox
    ensures var db' := Enqueue(env, k, nonce, db, now, ds).value;
            && Kept(env, k, db', id, db'.outbox[id].payload)
            && forall k' :: k' != k ==> !OpenPayload(env, k', db'.outbox[id].payload).Readable?
  {
    var db' := Enqueue(env, k, nonce, db, now, ds).value;
    var rows := NewRows(env, k, nonce, db.nextId, ds, now);
    EnqueuedParts(env, k, nonce, db, now, ds);
    assert id in rows && db'.outbox[id] == rows[id];
    NewRowsKept(env, k, nonce, db, now, ds, id, rows);
  }

  lemma QueuedKept(env: Env, s: State, now: int, ds: seq<Delivery>, nonce: nat, id: nat)
    requires SoundEnv(env) && WellAddressed(ds)
    requires id in DoQueue(env, s, now, ds, nonce).db.outbox && id !in s.db.outbox
    ensures var s' := DoQueue(env, s, now, ds, nonce);
            && Kept(env, s.key, s'.db, id, s'.db.outbox[id].payload)
            && forall k :: k != s.key ==> !OpenPayload(env, k, s'.db.outbox[id].payload).Readable?
  {
    EnqueuedRowKept(env, s.key, nonce, s.db, now, ds, id);
  }

  lemma SealedApart(env: Env, k0: Key, nonce: nat, p: Payload)
    requires SoundEnv(env)
    ensures forall k :: k != k0 ==> !OpenPayload(env, k, SealPayload(env, k0, nonce, p)).Readable?
  {
    forall k | k != k0 ensures !OpenPayload(env, k, SealPayload(env, k0, nonce, p)).Readable? {
      PayloadRoundTrip(env, k0, k, nonce, p);
    }
  }

  lemma OnlyQueueAdds(env: Env, s: State, a: Action, id: nat)
    requires Inv(env, s) && Possible(s, a) && !a.Queue? && id !in s.db.outbox
    ensures id !in Step(env, s, a).db.outbox
  {
    match a
    case Commit(nonce) => MutateShrinks(env, s.key, nonce, s.db, s.lock.value.m);
    case _ =>
  }

  ghost predicate SparedFrom(env: Env, k0: Key, run: seq<State>, n: nat, id: nat)
    requires n + 1 < |run|
  {
    exists a :: Possible(run[n], a) && run[n + 1] == Step(env, run[n], a) && Spares(env, k0, run[n], a, id)
  }

  /** Whatever is enqueued during a run stays stored, and addressed under the key it was enqueued with, until a
      push of it returned True: whatever keys the program uses meanwhile, and unless its stream is replaced,
      deleted or readdressed or an operator discards it. */
  lemma EnqueuedUntilAccepted(env: Env, run: seq<State>, i: nat, j: nat, id: nat)
    requires SoundEnv(env) && IsRun(env, run) && |run[0].db.streams| <= 1 && i + 1 <= j < |run|
    requires id !in run[i].db.outbox && id in run[i + 1].db.outbox
    requires forall n: nat :: i < n < j ==> SparedFrom(env, run[i].key, run, n, id)
    ensures Kept(env, run[i].key, run[j].db, id, run[i + 1].db.outbox[id].payload)
            || (Delivered(run[j], id) && Count(run[j].h.accepted, id) >= 1)
  {
    var k0, text := run[i].key, run[i + 1].db.outbox[id].payload;
    EnqueuedKept(env, run, i, id);
    forall n: nat | i + 1 <= n < j ensures SparedAt(env, k0, run, n, id, text) {
      assert SparedFrom(env, k0, run, n, id);
    }
    HeldUntilAccepted(env, k0, run, i + 1, j, id, text);
  }

  lemma EnqueuedKept(env: Env, run: seq<State>, i: nat, id: nat)
    requires SoundEnv(env) && IsRun(env, run) && i + 1 < |run|
    requires id !in run[i].db.outbox && id in run[i + 1].db.outbox
    ensures var text := run[i + 1].db.outbox[id].payload;
            && Kept(env, run[i].key, run[i + 1].db, id, text)
            && forall k :: k != run[i].key ==> !OpenPayload(env, k, text).Readable?
  {
    RunInv(env, run, i);
    assert StepAt(env, run, i);
    var a :| Possible(run[i], a) && run[i + 1] == Step(env, run[i], a);
    if a.Queue? {
      QueuedKept(env, run[i], run[i].readings[a.e], a.deliveries, a.nonce, id);
    } else {
      OnlyQueueAdds(env, run[i], a, id);
    }
  }
}
