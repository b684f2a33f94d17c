/** What every step of every interleaving keeps. */
module DeliveryInvariant {
  import opened Wrappers
  import opened Crypto
  import opened Store
  import opened Outbox
  import opened Interleaving

  /** The task that holds the lock, if a worker does. */
  function Holder(s: State): Task {
    if s.lock.Some? && s.lock.value.Worker? then TaskOf(s, s.lock.value.w) else Idle
  }

  /** A task is inside its locked section exactly when the lock names it. */
  ghost predicate LockInv(s: State) {
    && (forall w :: w in s.tasks ==> (HoldsLock(s.tasks[w]) <==> s.lock == Some(Worker(w))))
    && (s.lock.Some? && s.lock.value.Worker? ==> s.lock.value.w in s.tasks)
  }

  predicate Live(db: Db, item: OutboxItem) {
    item.id in db.outbox && db.outbox[item.id].status.Pending? && ItemOf(item.id, db.outbox[item.id]) == item
  }

  /** The stored stream is enabled, is the one pushed to, and is the one the payload is addressed to. */
  predicate Targets(env: Env, k: Key, streams: seq<StreamRow>, streamId: string, p: Payload, s: Stream) {
    var row := FindStream(streams, streamId);
    row.Some? && RowToStream(env, k, row.value) == s && s.status.Enabled? && PayloadMatches(p, s)
  }

  /** The row opens under the current key and carries the address of a stored stream. */
  predicate Matching(env: Env, k: Key, streams: seq<StreamRow>, streamId: string, text: string) {
    var row, reading := FindStream(streams, streamId), OpenPayload(env, k, text);
    row.Some? && reading.Readable? && PayloadMatches(reading.payload, RowToStream(env, k, row.value))
  }

  predicate TaskGood(env: Env, s: State, t: Task) {
    match t
    case Loaded(item, _) => Live(s.db, item)
    case Checked(item, p, _) => Live(s.db, item) && OpenPayload(env, s.key, item.payload) == Readable(p)
    case Pushing(item, p, stream, _) =>
      && Live(s.db, item) && OpenPayload(env, s.key, item.payload) == Readable(p)
      && Targets(env, s.key, s.db.streams, item.streamId, p, stream)
    case Recording(item, write, _) =>
      && Live(s.db, item)
      && (write.DoRetry? ==> write.attempts == item.attempts || write.attempts == item.attempts + 1)
      && (write.DoCancel? ==> OpenPayload(env, s.key, item.payload).Readable?
                              && !Matching(env, s.key, s.db.streams, item.streamId, item.payload))
      && (write.DoBlock? ==> !OpenPayload(env, s.key, item.payload).Readable?)
    case _ => true
  }

  /** Every id ever enqueued is stored or has exactly one fate; a stored row keeps its text. */
  ghost predicate IdInv(s: State) {
    && s.h.queued.Keys == s.db.outbox.Keys + s.h.fates.Keys
    && s.db.outbox.Keys !! s.h.fates.Keys
    && (forall id :: id in s.h.queued ==> id < s.db.nextId)
    && (forall id :: id in s.db.outbox ==> s.db.outbox[id].payload == s.h.queued[id])
    && (forall id :: id in s.h.failed || id in s.h.unsaved ==> id in s.h.queued)
  }

  predicate Completing(t: Task, id: nat) {
    t.Recording? && t.write.DoComplete? && t.item.id == id
  }

  predicate Failing(t: Task, id: nat) {
    t.Recording? && IsFailure(t.item, t.write) && t.item.id == id
  }

  predicate Settled(s: State, id: nat) {
    (id in s.h.fates && s.h.fates[id].Delivered?) || Completing(Holder(s), id)
  }

  /** Accepted pushes of an id exceed its lost completions by at most one, and by that one only if the
      row has left as delivered or is about to. */
  ghost predicate AcceptInv(s: State) {
    forall id: nat ::
      && Count(s.h.accepted, id) <= Count(s.h.slips, id) + (if Settled(s, id) then 1 else 0)
      && (Settled(s, id) ==> Count(s.h.accepted, id) >= 1)
  }

  ghost predicate BackoffInv(s: State) {
    forall id :: id in s.db.outbox && s.db.outbox[id].status.Pending? ==>
      s.db.outbox[id].attempts + Count(s.h.unsaved, id) + (if Failing(Holder(s), id) then 1 else 0)
      == Count(s.h.failed, id)
  }

  // ----- the log -----

  /** The streams table as the last completed mutation left it. */
  function Config(log: seq<Entry>): seq<StreamRow> {
    if log == [] then []
    else
      var last := log[|log| - 1];
      if last.Configured? then last.streams else Config(log[..|log| - 1])
  }

  /** The ids that have left the queue. */
  function Gone(log: seq<Entry>): set<nat> {
    if log == [] then {}
    else
      var last := log[|log| - 1];
      Gone(log[..|log| - 1]) + if last.Left? then last.ids else {}
  }

  predicate EntryOk(env: Env, before: seq<Entry>, e: Entry) {
    match e
    case PushBegan(id, p, s, k) => id !in Gone(before) && Targets(env, k, Config(before), s.streamId, p, s)
    case PushEnded(id, p, s, k, _) => id !in Gone(before) && Targets(env, k, Config(before), s.streamId, p, s)
    case _ => true
  }

  predicate LogOk(env: Env, log: seq<Entry>) {
    log == [] || (LogOk(env, log[..|log| - 1]) && EntryOk(env, log[..|log| - 1], log[|log| - 1]))
  }

  ghost predicate LogInv(env: Env, s: State) {
    LogOk(env, s.h.log) && Config(s.h.log) == s.db.streams && Gone(s.h.log) == s.h.fates.Keys
  }

  lemma Snoc(env: Env, log: seq<Entry>, e: Entry)
    ensures Config(log + [e]) == (if e.Configured? then e.streams else Config(log))
    ensures Gone(log + [e]) == Gone(log) + (if e.Left? then e.ids else {})
    ensures LogOk(env, log + [e]) <==> LogOk(env, log) && EntryOk(env, log, e)
  {
    assert (log + [e])[..|log|] == log;
  }

  ghost predicate Inv(env: Env, s: State) {
    LockInv(s) && TaskGood(env, s, Holder(s)) && IdInv(s) && AcceptInv(s) && BackoffInv(s) && LogInv(env, s)
  }

  // ----- the initial state -----

  lemma InitInv(env: Env, s: State)
    requires Init(s)
    ensures Inv(env, s)
  {
    Snoc(env, [], Configured(s.db.streams));
    assert [] + s.h.log == s.h.log;
  }

  // ----- steps that leave the tables alone -----

  /** Only the lock, the tasks and the clock readings moved, and not into or out of a recorded write. */
  lemma SameTables(env: Env, s: State, s': State)
    requires Inv(env, s)
    requires s'.db == s.db && s'.key == s.key && s'.h == s.h.(due := s'.h.due)
    requires LockInv(s') && TaskGood(env, s', Holder(s'))
    requires forall id :: Completing(Holder(s'), id) <==> Completing(Holder(s), id)
    requires forall id :: Failing(Holder(s'), id) <==> Failing(Holder(s), id)
    ensures Inv(env, s')
  {
    forall id: nat ensures Settled(s', id) <==> Settled(s, id) {}
  }

  /** A worker outside its locked section moves on outside it. */
  lemma OutsideInv(env: Env, s: State, w: nat, t: Task, due: map<nat, set<nat>>)
    requires Inv(env, s) && !HoldsLock(TaskOf(s, w)) && !HoldsLock(t)
    ensures Inv(env, SetTask(s, w, t).(h := s.h.(due := due)))
  {
    SameTables(env, s, SetTask(s, w, t).(h := s.h.(due := due)));
  }

  lemma GlanceInv(env: Env, s: State, w: nat, t: Task)
    requires Inv(env, s) && TaskOf(s, w) == t && (t.Idle? || t.Locked?)
    ensures Inv(env, DoGlance(s, w, t))
  {
    if t.Idle? {
      OutsideInv(env, s, w, Choosing(s.clock), s.h.due);
    } else {
      AdvanceInv(env, s, w, Timed(t.next, t.todo, s.clock));
    }
  }

  lemma SelectInv(env: Env, s: State, w: nat, t: Task)
    requires Inv(env, s) && TaskOf(s, w) == t && t.Choosing?
    ensures Inv(env, DoSelect(s, w, t))
  {
    OutsideInv(env, s, w, Ready(DueBatch(s.db.outbox, t.now)), s.h.due[w := DueIds(s.db.outbox, t.now)]);
  }

  lemma AcquireInv(env: Env, s: State, w: nat, t: Task)
    requires Inv(env, s) && s.lock.None? && t.Locked?
    ensures Inv(env, SetTask(s, w, t).(lock := Some(Worker(w))))
  {
    SameTables(env, s, SetTask(s, w, t).(lock := Some(Worker(w))));
  }

  lemma ReleaseInv(env: Env, s: State, w: nat, t: Task)
    requires Inv(env, s) && (TaskOf(s, w).Locked? || TaskOf(s, w).Timed?) && !HoldsLock(t)
    ensures Inv(env, Release(s, w, t))
  {
    SameTables(env, s, Release(s, w, t));
  }

  /** A holder that is not at a recorded write moves on within its locked section. */
  lemma AdvanceInv(env: Env, s: State, w: nat, t: Task)
    requires Inv(env, s) && HoldsLock(TaskOf(s, w)) && HoldsLock(t) && TaskGood(env, s, t)
    requires forall id :: !Completing(TaskOf(s, w), id) && !Failing(TaskOf(s, w), id)
    requires forall id :: !Completing(t, id) && !Failing(t, id)
    ensures Inv(env, SetTask(s, w, t))
  {
    assert Holder(s) == TaskOf(s, w) && Holder(SetTask(s, w, t)) == t;
    SameTables(env, s, SetTask(s, w, t));
  }

  lemma RereadInv(env: Env, s: State, w: nat, t: Task)
    requires Inv(env, s) && TaskOf(s, w) == t && t.Timed?
    ensures Inv(env, DoReread(s, w, t))
  {
    match DueItem(s.db.outbox, t.next.id, t.now)
    case None => ReleaseInv(env, s, w, Ready(t.todo));
    case Some(item) => AdvanceInv(env, s, w, Loaded(item, t.todo));
  }

  lemma OpenInv(env: Env, s: State, w: nat, t: Task)
    requires Inv(env, s) && TaskOf(s, w) == t && t.Loaded?
    ensures Inv(env, DoOpen(env, s, w, t))
  {
    match Examine(env, s.key, t.item)
    case Err(write) => AdvanceInv(env, s, w, Recording(t.item, write, t.todo));
    case Ok(p) => AdvanceInv(env, s, w, Checked(t.item, p, t.todo));
  }

  lemma LookupInv(env: Env, s: State, w: nat, t: Task)
    requires Inv(env, s) && TaskOf(s, w) == t && t.Checked?
    ensures Inv(env, DoLookup(env, s, w, t))
  {
    match Address(env, s.key, s.db.streams, t.item, t.payload, s.clock)
    case Do(write) => AdvanceInv(env, s, w, Recording(t.item, write, t.todo));
    case Push(p, stream) =>
      AdvanceInv(env, s, w, Pushing(t.item, p, stream, t.todo));
      LogInvSnoc(env, SetTask(s, w, Pushing(t.item, p, stream, t.todo)), PushBegan(t.item.id, p, stream, s.key));
  }

  lemma LogInvSnoc(env: Env, s: State, e: Entry)
    requires Inv(env, s) && (e.PushBegan? || e.PushEnded?)
    requires e.id in s.db.outbox && Targets(env, e.key, s.db.streams, e.stream.streamId, e.payload, e.stream)
    ensures Inv(env, s.(h := s.h.(log := s.h.log + [e])))
  {
    Snoc(env, s.h.log, e);
    SameBooks(env, s, s.(h := s.h.(log := s.h.log + [e])));
  }

  /** The invariants that do not read the log. */
  lemma SameBooks(env: Env, s: State, s': State)
    requires Inv(env, s)
    requires s' == s.(h := s.h.(log := s'.h.log))
    ensures LockInv(s') && TaskGood(env, s', Holder(s')) && IdInv(s') && AcceptInv(s') && BackoffInv(s')
  {
    assert Holder(s') == Holder(s);
    forall id: nat ensures Settled(s', id) <==> Settled(s, id) {}
  }

  lemma ReturnAccept(s: State, w: nat, t: Task, outcome: Outcome)
    requires LockInv(s) && IdInv(s) && AcceptInv(s) && TaskOf(s, w) == t && t.Pushing? && Live(s.db, t.item)
    ensures AcceptInv(DoReturn(s, w, t, outcome))
  {
    var s' := DoReturn(s, w, t, outcome);
    assert Holder(s) == t && Holder(s') == s'.tasks[w];
    forall id: nat ensures Settled(s', id) <==> Settled(s, id) || (outcome.Accepted? && id == t.item.id) {}
    assert !Settled(s, t.item.id);
  }

  lemma ReturnBackoff(s: State, w: nat, t: Task, outcome: Outcome)
    requires LockInv(s) && BackoffInv(s) && TaskOf(s, w) == t && t.Pushing? && Live(s.db, t.item)
    ensures BackoffInv(DoReturn(s, w, t, outcome))
  {
    var s' := DoReturn(s, w, t, outcome);
    assert Holder(s) == t && Holder(s') == s'.tasks[w];
    assert forall id :: Failing(Holder(s'), id) <==> (!outcome.Accepted? && id == t.item.id);
  }

  lemma ReturnInv(env: Env, s: State, w: nat, t: Task, outcome: Outcome)
    requires Inv(env, s) && TaskOf(s, w) == t && t.Pushing?
    ensures Inv(env, DoReturn(s, w, t, outcome))
  {
    ReturnAccept(s, w, t, outcome);
    ReturnBackoff(s, w, t, outcome);
    var s' := DoReturn(s, w, t, outcome);
    assert Holder(s) == t && Holder(s') == s'.tasks[w];
    Snoc(env, s.h.log, PushEnded(t.item.id, t.payload, t.stream, s.key, outcome));
  }

  // ----- steps that remove rows -----

  /** Rows may go, but none appears and none that stays changes its text, status or attempts. */
  predicate Shrinks(db: Db, db': Db) {
    && db'.outbox.Keys <= db.outbox.Keys && db'.nextId == db.nextId
    && forall id :: id in db'.outbox ==>
         && db'.outbox[id].payload == db.outbox[id].payload
         && db'.outbox[id].status == db.outbox[id].status
         && db'.outbox[id].attempts == db.outbox[id].attempts
  }

  predicate SameTexts(db: Db, db': Db) {
    && db'.outbox.Keys <= db.outbox.Keys && db'.nextId == db.nextId
    && forall id :: id in db'.outbox ==> db'.outbox[id].payload == db.outbox[id].payload
  }

  lemma DepartBooks(env: Env, s: State, db': Db, fate: Fate)
    requires IdInv(s) && LogInv(env, s) && SameTexts(s.db, db')
    ensures IdInv(Depart(s, db', fate)) && LogInv(env, Depart(s, db', fate))
  {
    var ids := s.db.outbox.Keys - db'.outbox.Keys;
    var left, conf := Left(ids, fate), Configured(db'.streams);
    assert s.h.log + [left, conf] == (s.h.log + [left]) + [conf];
    Snoc(env, s.h.log, left);
    Snoc(env, s.h.log + [left], conf);
    assert Marked(s.h.fates, ids, fate).Keys == s.h.fates.Keys + ids;
  }

  /** Leaving for any reason but delivery does not disturb the counts. */
  lemma DepartCounts(s: State, db': Db, fate: Fate, s': State)
    requires IdInv(s) && AcceptInv(s) && BackoffInv(s) && Shrinks(s.db, db') && !fate.Delivered?
    requires s' == Depart(s, db', fate).(lock := s'.lock) && Holder(s') == Holder(s)
    ensures AcceptInv(s') && BackoffInv(s')
  {
    forall id: nat ensures Settled(s', id) <==> Settled(s, id) {}
  }

  lemma MutateShrinks(env: Env, k: Key, nonce: nat, db: Db, m: Mutation)
    ensures Shrinks(db, Mutate(env, k, nonce, db, m))
  {}

  lemma CommitInv(env: Env, s: State, m: Mutation, nonce: nat)
    requires Inv(env, s) && s.lock == Some(Mutator(m))
    ensures Inv(env, DoCommit(env, s, m, nonce))
  {
    var db', s' := Mutate(env, s.key, nonce, s.db, m), DoCommit(env, s, m, nonce);
    var fate := if m.DiscardPending? then Discarded else Superseded;
    MutateShrinks(env, s.key, nonce, s.db, m);
    DepartBooks(env, s, db', fate);
    DepartCounts(s, db', fate, s');
  }

  lemma DiscardBlockedInv(env: Env, s: State)
    requires Inv(env, s)
    ensures Inv(env, Depart(s, DeleteBlocked(s.db), Discarded))
  {
    var db', s' := DeleteBlocked(s.db), Depart(s, DeleteBlocked(s.db), Discarded);
    DepartBooks(env, s, db', Discarded);
    DepartCounts(s, db', Discarded, s');
    assert Holder(s') == Holder(s);
  }

  lemma RecordBooks(env: Env, s: State, t: Task)
    requires t.Recording? && Live(s.db, t.item) && IdInv(s) && LogInv(env, s)
    ensures var fate := if t.write.DoComplete? then Delivered else Cancelled;
            var s' := Depart(s, Apply(s.db, t.item.id, t.write), fate);
            IdInv(s') && LogInv(env, s')
  {
    DepartBooks(env, s, Apply(s.db, t.item.id, t.write), if t.write.DoComplete? then Delivered else Cancelled);
  }

  lemma RecordAccept(s: State, w: nat, t: Task)
    requires t.Recording? && Live(s.db, t.item) && TaskOf(s, w) == t && Holder(s) == t && IdInv(s) && AcceptInv(s)
    ensures AcceptInv(DoRecord(s, w, t))
  {
    var s' := DoRecord(s, w, t);
    var ids := s.db.outbox.Keys - Apply(s.db, t.item.id, t.write).outbox.Keys;
    assert ids == if t.write.DoComplete? || t.write.DoCancel? then {t.item.id} else {};
    forall id: nat ensures Settled(s', id) <==> Settled(s, id) {}
  }

  lemma RecordBackoff(s: State, w: nat, t: Task)
    requires t.Recording? && Live(s.db, t.item) && TaskOf(s, w) == t && Holder(s) == t && BackoffInv(s)
    requires t.write.DoRetry? ==> t.write.attempts == t.item.attempts || t.write.attempts == t.item.attempts + 1
    ensures BackoffInv(DoRecord(s, w, t))
  {
    var s' := DoRecord(s, w, t);
    forall id | id in s'.db.outbox && s'.db.outbox[id].status.Pending?
      ensures s'.db.outbox[id].attempts + Count(s'.h.unsaved, id) == Count(s'.h.failed, id)
    {
      assert id in s.db.outbox && s.db.outbox[id].status.Pending?;
    }
  }

  lemma RecordInv(env: Env, s: State, w: nat, t: Task)
    requires Inv(env, s) && TaskOf(s, w) == t && t.Recording?
    ensures Inv(env, DoRecord(s, w, t))
  {
    assert Holder(s) == t;
    RecordBooks(env, s, t);
    RecordAccept(s, w, t);
    RecordBackoff(s, w, t);
  }

  // ----- the remaining steps -----

  /** The writers that do not take the lock never touch a pending row or a stream. */
  predicate PendingKept(db: Db, db': Db) {
    && db'.streams == db.streams
    && forall id :: id in db.outbox && db.outbox[id].status.Pending? ==> id in db'.outbox && db'.outbox[id] == db.outbox[id]
  }

  lemma UnlockedKeepsTask(env: Env, s: State, s': State)
    requires LockInv(s) && TaskGood(env, s, Holder(s)) && PendingKept(s.db, s'.db)
    requires s'.key == s.key && s'.lock == s.lock && s'.tasks == s.tasks
    ensures LockInv(s') && TaskGood(env, s', Holder(s')) && Holder(s') == Holder(s)
  {}

  lemma EnqueueGrows(env: Env, k: Key, nonce: nat, db: Db, now: int, ds: seq<Delivery>) returns (rows: Rows)
    requires Enqueue(env, k, nonce, db, now, ds).Ok? && ds != []
    ensures var db' := Enqueue(env, k, nonce, db, now, ds).value;
            && db' == db.(outbox := db.outbox + rows, nextId := db'.nextId) && db'.nextId >= db.nextId
            && forall id :: id in rows ==>
                 && db.nextId <= id < db'.nextId && rows[id].status.Pending? && rows[id].attempts == 0
                 && rows[id].nextAttemptAt == rows[id].createdAt
  {
    rows := NewRows(env, k, nonce, db.nextId, ds, now);
  }

  lemma UsedInv(env: Env, s: State, e: nat)
    requires Inv(env, s)
    ensures Inv(env, Used(s, e))
  {
    SameTables(env, s, Used(s, e));
  }

  lemma QueueInv(env: Env, s: State, now: int, ds: seq<Delivery>, nonce: nat)
    requires Inv(env, s)
    ensures Inv(env, DoQueue(env, s, now, ds, nonce))
  {
    match Enqueue(env, s.key, nonce, s.db, now, ds)
    case Err(_) =>
    case Ok(db') =>
      if ds == [] {
        assert s.h.queued + Texts(s.db.outbox, s.db.outbox.Keys) == s.h.queued;
        assert DoQueue(env, s, now, ds, nonce) == s;
      } else {
        var rows := EnqueueGrows(env, s.key, nonce, s.db, now, ds);
        GrowInv(env, s, s.(db := db', h := s.h.(queued := s.h.queued + Texts(db'.outbox, s.db.outbox.Keys))), rows);
      }
  }

  lemma GrowInv(env: Env, s: State, s': State, rows: Rows)
    requires Inv(env, s)
    requires forall id :: id in rows ==>
               s.db.nextId <= id < s'.db.nextId && rows[id].status.Pending? && rows[id].attempts == 0
    requires s'.db == s.db.(outbox := s.db.outbox + rows, nextId := s'.db.nextId) && s'.db.nextId >= s.db.nextId
    requires s' == s.(db := s'.db, h := s.h.(queued := s.h.queued + Texts(s'.db.outbox, s.db.outbox.Keys)))
    ensures Inv(env, s')
  {
    assert rows.Keys !! s.h.queued.Keys;
    UnlockedKeepsTask(env, s, s');
    QueueIds(s, s', rows);
    QueueCounts(s, s', rows);
  }

  lemma QueueIds(s: State, s': State, rows: Rows)
    requires IdInv(s) && rows.Keys !! s.h.queued.Keys && s'.db.nextId >= s.db.nextId
    requires s'.db.outbox == s.db.outbox + rows && forall id :: id in rows ==> id < s'.db.nextId
    requires s'.h == s.h.(queued := s.h.queued + Texts(s'.db.outbox, s.db.outbox.Keys))
    ensures IdInv(s')
  {
    assert Texts(s'.db.outbox, s.db.outbox.Keys).Keys == rows.Keys;
  }

  lemma QueueCounts(s: State, s': State, rows: Rows)
    requires IdInv(s) && AcceptInv(s) && BackoffInv(s) && Holder(s') == Holder(s)
    requires rows.Keys !! s.h.queued.Keys && s'.db == s.db.(outbox := s.db.outbox + rows, nextId := s'.db.nextId)
    requires forall id :: id in rows ==> rows[id].status.Pending? && rows[id].attempts == 0
    requires TaskHas(s, Holder(s))
    requires s'.h == s.h.(queued := s'.h.queued)
    ensures AcceptInv(s') && BackoffInv(s')
  {
    forall id: nat ensures Settled(s', id) <==> Settled(s, id) {}
  }

  predicate TaskHas(s: State, t: Task) {
    t.Recording? ==> t.item.id in s.db.outbox
  }

  lemma RequeueInv(env: Env, s: State, now: int)
    requires Inv(env, s)
    ensures Inv(env, DoRequeue(s, now))
  {
    var s' := DoRequeue(s, now);
    UnlockedKeepsTask(env, s, s');
    forall id: nat ensures Settled(s', id) <==> Settled(s, id) {}
    RequeueBackoff(s, now);
  }

  lemma RequeueBackoff(s: State, now: int)
    requires BackoffInv(s)
    requires Holder(s).Recording? ==> Live(s.db, Holder(s).item)
    ensures BackoffInv(DoRequeue(s, now))
  {
    var s' := DoRequeue(s, now);
    assert Holder(s') == Holder(s);
    forall id | id in s'.db.outbox && s'.db.outbox[id].status.Pending?
      ensures s'.db.outbox[id].attempts + Count(s'.h.unsaved, id) + (if Failing(Holder(s'), id) then 1 else 0)
              == Count(s'.h.failed, id)
    {
      if s.db.outbox[id].status.Blocked? {
        assert id in BlockedIds(s.db.outbox);
      }
    }
  }

  /** Losing a task loses at most the write it was about to record, and the books say so. */
  lemma LostWriteCounts(s: State, s': State)
    requires AcceptInv(s) && BackoffInv(s)
    requires s'.db.outbox == s.db.outbox && s'.h == LostWrite(s.h, Holder(s)).(log := s'.h.log) && Holder(s').Idle?
    ensures AcceptInv(s') && BackoffInv(s')
  {}

  lemma AbandonInv(env: Env, s: State, w: nat)
    requires Inv(env, s)
    ensures Inv(env, DoAbandon(s, w, TaskOf(s, w)))
  {
    var t := TaskOf(s, w);
    var s' := DoAbandon(s, w, t);
    if HoldsLock(t) {
      assert Holder(s) == t;
      LostWriteCounts(s, s');
    } else {
      OutsideInv(env, s, w, Idle, s.h.due);
    }
  }

  lemma LostWriteIds(s: State, s': State)
    requires IdInv(s) && TaskHas(s, Holder(s))
    requires s'.db.outbox == s.db.outbox && s'.db.nextId == s.db.nextId
    requires s'.h == LostWrite(s.h, Holder(s)).(log := s'.h.log)
    ensures IdInv(s')
  {}

  lemma CrashInv(env: Env, s: State, key': Key)
    requires Inv(env, s)
    ensures Inv(env, DoCrash(env, s, key'))
  {
    CrashIs(env, s, key');
    CrashLog(env, s, DoCrash(env, s, key'), key');
    RestartInv(env, s, DoCrash(env, s, key'));
  }

  lemma CrashIs(env: Env, s: State, key': Key)
    requires LockInv(s)
    ensures var s' := DoCrash(env, s, key');
            && s'.db == Quarantine(env, key', s.db) && s'.lock.None? && s'.tasks == map[]
            && s'.h == LostWrite(s.h, Holder(s)).(log := s.h.log + [Configured(s'.db.streams)])
  {
    assert LostWrite(s.h, Idle) == s.h;
  }

  lemma CrashLog(env: Env, s: State, s': State, key': Key)
    requires LogInv(env, s) && s'.db == Quarantine(env, key', s.db)
    requires s'.h.log == s.h.log + [Configured(s'.db.streams)] && s'.h.fates == s.h.fates
    ensures LogInv(env, s')
  {
    Snoc(env, s.h.log, Configured(s'.db.streams));
  }

  lemma RestartInv(env: Env, s: State, s': State)
    requires IdInv(s) && TaskHas(s, Holder(s)) && AcceptInv(s) && BackoffInv(s) && LogInv(env, s')
    requires s'.db.outbox == s.db.outbox && s'.db.nextId == s.db.nextId
    requires s'.h == LostWrite(s.h, Holder(s)).(log := s'.h.log) && s'.lock.None? && s'.tasks == map[]
    ensures Inv(env, s')
  {
    LostWriteIds(s, s');
    LostWriteCounts(s, s');
  }

  predicate MovesWorker(a: Action) {
    || a.Glance? || a.Select? || a.Acquire? || a.Stop? || a.Reread? || a.Open? || a.Lookup? || a.Return? || a.Record?
    || a.Abandon?
  }

  lemma WorkerStepInv(env: Env, s: State, a: Action)
    requires Inv(env, s) && Possible(s, a) && MovesWorker(a)
    ensures Inv(env, Step(env, s, a))
  {
    match a
    case Glance(w) => GlanceInv(env, s, w, TaskOf(s, w));
    case Select(w) => SelectInv(env, s, w, TaskOf(s, w));
    case Acquire(w) => AcquireInv(env, s, w, Locked(TaskOf(s, w).todo[0], TaskOf(s, w).todo[1..]));
    case Stop(w) => if TaskOf(s, w).Locked? { ReleaseInv(env, s, w, Idle); } else { OutsideInv(env, s, w, Idle, s.h.due); }
    case Reread(w) => RereadInv(env, s, w, TaskOf(s, w));
    case Open(w) => OpenInv(env, s, w, TaskOf(s, w));
    case Lookup(w) => LookupInv(env, s, w, TaskOf(s, w));
    case Return(w, outcome) => ReturnInv(env, s, w, TaskOf(s, w), outcome);
    case Record(w) => RecordInv(env, s, w, TaskOf(s, w));
    case Abandon(w) => AbandonInv(env, s, w);
  }

  /** Every step of every task, mutator, operator, crash and restart keeps the invariant. */
  lemma StepInv(env: Env, s: State, a: Action)
    requires Inv(env, s) && Possible(s, a)
    ensures Inv(env, Step(env, s, a))
  {
    match a
    case Tick(now) => SameTables(env, s, s.(clock := now));
    case Begin(e) => SameTables(env, s, s.(readings := s.readings[e := s.clock]));
    case Queue(e, ds, nonce) =>
      QueueInv(env, s, s.readings[e], ds, nonce);
      UsedInv(env, DoQueue(env, s, s.readings[e], ds, nonce), e);
    case Claim(m) => SameTables(env, s, s.(lock := Some(Mutator(m))));
    case Commit(nonce) => CommitInv(env, s, s.lock.value.m, nonce);
    case Abort => SameTables(env, s, s.(lock := None));
    case Requeue(e) =>
      RequeueInv(env, s, s.readings[e]);
      UsedInv(env, DoRequeue(s, s.readings[e]), e);
    case DiscardBlocked => DiscardBlockedInv(env, s);
    case Crash(key') => CrashInv(env, s, key');
    case _ => WorkerStepInv(env, s, a);
  }

  lemma NextInv(env: Env, s: State, s': State)
    requires Inv(env, s) && Next(env, s, s')
    ensures Inv(env, s')
  {
    var a :| Possible(s, a) && s' == Step(env, s, a);
    StepInv(env, s, a);
  }

  lemma {:induction false} RunInv(env: Env, run: seq<State>, i: nat)
    requires IsRun(env, run) && i < |run|
    ensures Inv(env, run[i])
  {
    if i == 0 {
      InitInv(env, run[0]);
    } else {
      RunInv(env, run, i - 1);
      assert StepAt(env, run, i - 1);
      NextInv(env, run[i - 1], run[i]);
    }
  }
}
