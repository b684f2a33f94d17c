/** Order of delivery: with a clock that never goes back, no failure, no stream change and no enqueue that commits
    with an older clock reading than a stored row's, any number of workers together deliver in exactly the order
    of enqueueing. */
module Fifo {
  import opened Wrappers
  import opened Crypto
  import opened Store
  import opened Outbox
  import opened Interleaving
  import opened DeliveryInvariant
  import opened Streams

  /** Enqueues that commit with a stamp no older than any stored one, successful deliveries, graceful stops and
      a forward clock. */
  predicate Orderly(s: State, a: Action) {
    match a
    case Tick(now) => now >= s.clock
    case Queue(e, _, _) => e in s.readings ==> forall id :: id in s.db.outbox ==> s.db.outbox[id].createdAt <= s.readings[e]
    case Return(_, outcome) => outcome.Accepted?
    case Abandon(_) => false
    case Claim(_) => false
    case Commit(_) => false
    case Requeue(_) => false
    case DiscardBlocked => false
    case Crash(_) => false
    case _ => true
  }

  predicate RowReady(env: Env, k: Key, streams: seq<StreamRow>, row: OutboxRow, clock: int) {
    && row.status.Pending? && row.nextAttemptAt == row.createdAt <= clock
    && Matching(env, k, streams, row.streamId, row.payload)
    && FindStream(streams, row.streamId).value.status.Enabled?
  }

  ghost predicate AllReady(env: Env, k: Key, streams: seq<StreamRow>, outbox: Rows, clock: int) {
    forall id :: id in outbox ==> RowReady(env, k, streams, outbox[id], clock)
  }

  ghost predicate AgesInOrder(outbox: Rows) {
    forall a, b :: a in outbox && b in outbox && a <= b ==> outbox[a].createdAt <= outbox[b].createdAt
  }

  /** The stored ids are those from `next` up, every row is due and deliverable, and older ids are older. */
  ghost predicate RowsInOrder(env: Env, s: State, next: nat) {
    && (forall id :: id in s.db.outbox <==> next <= id < s.db.nextId)
    && AllReady(env, s.key, s.db.streams, s.db.outbox, s.clock)
    && AgesInOrder(s.db.outbox)
  }

  predicate Consecutive(todo: seq<OutboxItem>, first: nat, limit: nat) {
    forall i :: 0 <= i < |todo| ==> todo[i].id == first + i < limit
  }

  /** A worker's list continues where it stands, and it never stands beyond the oldest stored row. */
  predicate TaskInOrder(t: Task, next: nat, limit: nat) {
    match t
    case Idle => true
    case Choosing(_) => true
    case Ready(todo) => todo == [] || (todo[0].id <= next && Consecutive(todo, todo[0].id, limit))
    case Locked(item, todo) => item.id <= next && item.id < limit && Consecutive(todo, item.id + 1, limit)
    case Timed(item, todo, _) => item.id <= next && item.id < limit && Consecutive(todo, item.id + 1, limit)
    case Loaded(item, todo) => item.id == next && Consecutive(todo, item.id + 1, limit)
    case Checked(item, _, todo) => item.id == next && Consecutive(todo, item.id + 1, limit)
    case Pushing(item, _, _, todo) => item.id == next && Consecutive(todo, item.id + 1, limit)
    case Recording(item, write, todo) =>
      item.id == next && Consecutive(todo, item.id + 1, limit) && write.DoComplete?
  }

  /** The row a worker is about to read again was already there when it read the clock for it. */
  predicate OnTime(outbox: Rows, t: Task) {
    t.Timed? && t.next.id in outbox ==> outbox[t.next.id].createdAt <= t.now
  }

  ghost predicate TasksInOrder(s: State, next: nat) {
    forall w :: w in s.tasks ==> TaskInOrder(s.tasks[w], next, s.db.nextId) && OnTime(s.db.outbox, s.tasks[w])
  }

  ghost predicate ReadingsPast(s: State) {
    forall e :: e in s.readings ==> s.readings[e] <= s.clock
  }

  /** What was delivered, and what has left the queue, is the span from `first` up to `next`. */
  ghost predicate PastInOrder(h: History, first: nat, next: nat) {
    && next == first + |h.delivered|
    && (forall i :: 0 <= i < |h.delivered| ==> h.delivered[i] == first + i)
    && (forall id :: id in h.fates <==> first <= id < next)
  }

  ghost predicate InOrder(env: Env, s: State, first: nat, next: nat) {
    && PastInOrder(s.h, first, next) && next <= s.db.nextId && RowsInOrder(env, s, next) && TasksInOrder(s, next)
    && ReadingsPast(s)
  }

  // ----- batches -----

  lemma {:induction false} BatchConsecutive(outbox: Rows, ids: set<nat>, limit: nat, lo: nat, hi: nat)
    requires ids <= outbox.Keys && forall id :: id in ids <==> lo <= id < hi
    requires forall a, b :: a in ids && b in ids && a <= b ==> outbox[a].createdAt <= outbox[b].createdAt
    ensures Consecutive(Batch(outbox, ids, limit), lo, hi)
    decreases limit
  {
    if limit != 0 && ids != {} {
      var a := First(outbox, ids);
      assert a == lo by {
        var x :| x in ids;
        assert lo in ids;
        assert NotAfter(outbox, a, lo);
      }
      BatchConsecutive(outbox, ids - {a}, limit - 1, lo + 1, hi);
      var rest := Batch(outbox, ids - {a}, limit - 1);
      assert Batch(outbox, ids, limit) == [ItemOf(a, outbox[a])] + rest;
    }
  }

  /** What is due at a reading of the clock is a first part of what is stored. */
  lemma {:induction false} DuePrefix(outbox: Rows, next: nat, limit: nat, now: int) returns (m: nat)
    requires next <= limit && forall id :: next <= id < limit ==> id in outbox
    requires forall id :: id in outbox && next <= id < limit ==> outbox[id].status.Pending? && outbox[id].nextAttemptAt == outbox[id].createdAt
    requires forall a, b :: a in outbox && b in outbox && next <= a <= b < limit ==> outbox[a].createdAt <= outbox[b].createdAt
    ensures next <= m <= limit && forall id :: next <= id < limit ==> (IsDue(outbox[id], now) <==> id < m)
    decreases limit
  {
    if next == limit || outbox[limit - 1].createdAt <= now {
      m := limit;
    } else {
      m := DuePrefix(outbox, next, limit - 1, now);
    }
  }

  lemma DueRange(env: Env, s: State, next: nat, now: int) returns (m: nat)
    requires RowsInOrder(env, s, next) && next <= s.db.nextId
    ensures next <= m <= s.db.nextId && forall id :: id in DueIds(s.db.outbox, now) <==> next <= id < m
  {
    forall id | next <= id < s.db.nextId
      ensures id in s.db.outbox && s.db.outbox[id].status.Pending? && s.db.outbox[id].nextAttemptAt == s.db.outbox[id].createdAt
    {
      assert RowReady(env, s.key, s.db.streams, s.db.outbox[id], s.clock);
    }
    m := DuePrefix(s.db.outbox, next, s.db.nextId, now);
  }

  lemma SelectInOrder(env: Env, s: State, next: nat, now: int)
    requires RowsInOrder(env, s, next) && next <= s.db.nextId
    ensures TaskInOrder(Ready(DueBatch(s.db.outbox, now)), next, s.db.nextId)
  {
    var m := DueRange(env, s, next, now);
    BatchConsecutive(s.db.outbox, DueIds(s.db.outbox, now), BATCH_SIZE, next, m);
  }

  // ----- steps -----

  /** One task moved and nothing else that the order depends on. */
  lemma TaskMoves(env: Env, s: State, s': State, w: nat, first: nat, next: nat)
    requires InOrder(env, s, first, next)
    requires s'.db == s.db && s'.key == s.key && s'.clock == s.clock && s'.readings == s.readings
    requires s'.h.delivered == s.h.delivered && s'.h.fates == s.h.fates
    requires w in s'.tasks && s'.tasks == s.tasks[w := s'.tasks[w]]
    requires TaskInOrder(s'.tasks[w], next, s.db.nextId) && OnTime(s.db.outbox, s'.tasks[w])
    ensures InOrder(env, s', first, next)
  {
    assert RowsInOrder(env, s', next);
    assert TasksInOrder(s', next);
  }

  lemma RereadTask(env: Env, s: State, w: nat, t: Task, next: nat)
    requires RowsInOrder(env, s, next) && t.Timed? && TaskInOrder(t, next, s.db.nextId) && OnTime(s.db.outbox, t)
    ensures TaskInOrder(DoReread(s, w, t).tasks[w], next, s.db.nextId)
  {
    if t.next.id == next {
      assert t.next.id in s.db.outbox;
      assert RowReady(env, s.key, s.db.streams, s.db.outbox[next], s.clock);
    }
  }

  lemma OpenTask(env: Env, s: State, w: nat, t: Task, next: nat)
    requires RowsInOrder(env, s, next) && t.Loaded? && TaskInOrder(t, next, s.db.nextId) && Live(s.db, t.item)
    ensures TaskInOrder(DoOpen(env, s, w, t).tasks[w], next, s.db.nextId)
  {
    assert RowReady(env, s.key, s.db.streams, s.db.outbox[t.item.id], s.clock);
  }

  lemma LookupTask(env: Env, s: State, w: nat, t: Task, next: nat)
    requires RowsInOrder(env, s, next) && t.Checked? && TaskInOrder(t, next, s.db.nextId) && TaskGood(env, s, t)
    ensures TaskInOrder(DoLookup(env, s, w, t).tasks[w], next, s.db.nextId)
  {
    assert RowReady(env, s.key, s.db.streams, s.db.outbox[t.item.id], s.clock);
  }

  lemma HolderInOrder(env: Env, s: State, w: nat, t: Task, next: nat)
    requires Inv(env, s) && RowsInOrder(env, s, next) && TasksInOrder(s, next) && TaskOf(s, w) == t
    requires t.Timed? || t.Loaded? || t.Checked?
    ensures Holder(s) == t && TaskGood(env, s, t) && TaskInOrder(t, next, s.db.nextId) && OnTime(s.db.outbox, t)
  {}

  lemma RereadInOrder(env: Env, s: State, w: nat, t: Task, next: nat)
    requires Inv(env, s) && RowsInOrder(env, s, next) && TasksInOrder(s, next) && TaskOf(s, w) == t && t.Timed?
    ensures TaskInOrder(DoReread(s, w, t).tasks[w], next, s.db.nextId)
  {
    HolderInOrder(env, s, w, t, next);
    RereadTask(env, s, w, t, next);
  }

  lemma OpenInOrder(env: Env, s: State, w: nat, t: Task, next: nat)
    requires Inv(env, s) && RowsInOrder(env, s, next) && TasksInOrder(s, next) && TaskOf(s, w) == t && t.Loaded?
    ensures TaskInOrder(DoOpen(env, s, w, t).tasks[w], next, s.db.nextId)
  {
    HolderInOrder(env, s, w, t, next);
    OpenTask(env, s, w, t, next);
  }

  lemma LookupInOrder(env: Env, s: State, w: nat, t: Task, next: nat)
    requires Inv(env, s) && RowsInOrder(env, s, next) && TasksInOrder(s, next) && TaskOf(s, w) == t && t.Checked?
    ensures TaskInOrder(DoLookup(env, s, w, t).tasks[w], next, s.db.nextId)
  {
    HolderInOrder(env, s, w, t, next);
    LookupTask(env, s, w, t, next);
  }

  lemma ReadersInOrder(env: Env, s: State, a: Action, next: nat)
    requires Inv(env, s) && RowsInOrder(env, s, next) && TasksInOrder(s, next) && Possible(s, a)
    requires a.Reread? || a.Open? || a.Lookup?
    ensures a.w in Step(env, s, a).tasks && TaskInOrder(Step(env, s, a).tasks[a.w], next, s.db.nextId)
    ensures !Step(env, s, a).tasks[a.w].Timed?
  {
    match a
    case Reread(w) => RereadInOrder(env, s, w, TaskOf(s, w), next);
    case Open(w) => OpenInOrder(env, s, w, TaskOf(s, w), next);
    case Lookup(w) => LookupInOrder(env, s, w, TaskOf(s, w), next);
  }

  lemma OtherTasksInOrder(env: Env, s: State, a: Action, next: nat)
    requires RowsInOrder(env, s, next) && next <= s.db.nextId && TasksInOrder(s, next) && Possible(s, a) && Orderly(s, a)
    requires a.Glance? || a.Select? || a.Acquire? || a.Stop? || a.Return?
    ensures a.w in Step(env, s, a).tasks && TaskInOrder(Step(env, s, a).tasks[a.w], next, s.db.nextId)
    ensures OnTime(s.db.outbox, Step(env, s, a).tasks[a.w])
  {
    match a
    case Glance(w) =>
      forall id | id in s.db.outbox ensures s.db.outbox[id].createdAt <= s.clock {
        assert RowReady(env, s.key, s.db.streams, s.db.outbox[id], s.clock);
      }
    case Select(w) => SelectInOrder(env, s, next, TaskOf(s, w).now);
    case _ =>
  }

  ghost predicate OnlyTask(s: State, s': State, w: nat) {
    && s'.db == s.db && s'.key == s.key && s'.clock == s.clock && s'.readings == s.readings
    && s'.h.delivered == s.h.delivered && s'.h.fates == s.h.fates
    && w in s'.tasks && s'.tasks == s.tasks[w := s'.tasks[w]]
  }

  lemma WorkerFrame(env: Env, s: State, a: Action)
    requires Possible(s, a)
    requires a.Glance? || a.Select? || a.Acquire? || a.Stop? || a.Reread? || a.Open? || a.Lookup? || a.Return?
    ensures OnlyTask(s, Step(env, s, a), a.w)
  {
    match a
    case Glance(w) => assert OnlyTask(s, DoGlance(s, w, TaskOf(s, w)), w);
    case Select(w) => assert OnlyTask(s, DoSelect(s, w, TaskOf(s, w)), w);
    case Reread(w) => assert OnlyTask(s, DoReread(s, w, TaskOf(s, w)), w);
    case Open(w) => assert OnlyTask(s, DoOpen(env, s, w, TaskOf(s, w)), w);
    case Lookup(w) => assert OnlyTask(s, DoLookup(env, s, w, TaskOf(s, w)), w);
    case Return(w, outcome) => assert OnlyTask(s, DoReturn(s, w, TaskOf(s, w), outcome), w);
    case _ =>
  }

  lemma WorkerInOrder(env: Env, s: State, a: Action, first: nat, next: nat)
    requires Inv(env, s) && InOrder(env, s, first, next) && Possible(s, a) && Orderly(s, a)
    requires a.Glance? || a.Select? || a.Acquire? || a.Stop? || a.Reread? || a.Open? || a.Lookup? || a.Return?
    ensures InOrder(env, Step(env, s, a), first, next)
  {
    var s' := Step(env, s, a);
    WorkerFrame(env, s, a);
    assert TaskInOrder(s'.tasks[a.w], next, s.db.nextId) && OnTime(s.db.outbox, s'.tasks[a.w]) by {
      if a.Reread? || a.Open? || a.Lookup? {
        ReadersInOrder(env, s, a, next);
      } else {
        OtherTasksInOrder(env, s, a, next);
      }
    }
    TaskMoves(env, s, s', a.w, first, next);
  }

  lemma TickInOrder(env: Env, s: State, now: int, first: nat, next: nat)
    requires InOrder(env, s, first, next) && now >= s.clock
    ensures InOrder(env, s.(clock := now), first, next)
  {}

  /** The recorded row is the oldest stored one, and the other workers wait behind it. */
  lemma RecordTasks(s: State, s': State, w: nat, t: Task, next: nat)
    requires LockInv(s) && TasksInOrder(s, next) && TaskOf(s, w) == t && t.Recording?
    requires s'.tasks == s.tasks[w := Ready(t.todo)] && s'.db.nextId == s.db.nextId
    requires s'.db.outbox == s.db.outbox - {next}
    ensures TasksInOrder(s', next + 1)
  {
    forall x | x in s'.tasks
      ensures TaskInOrder(s'.tasks[x], next + 1, s.db.nextId) && OnTime(s'.db.outbox, s'.tasks[x])
    {
      assert x in s.tasks && TaskInOrder(s.tasks[x], next, s.db.nextId) && TaskInOrder(t, next, s.db.nextId);
      assert OnTime(s.db.outbox, s.tasks[x]);
    }
  }

  lemma RecordRows(env: Env, s: State, s': State, next: nat)
    requires RowsInOrder(env, s, next) && next in s.db.outbox
    requires s'.db == s.db.(outbox := s.db.outbox - {next}) && s'.key == s.key && s'.clock == s.clock
    ensures RowsInOrder(env, s', next + 1)
  {}

  lemma RecordPast(h: History, h': History, first: nat, next: nat)
    requires PastInOrder(h, first, next)
    requires h'.delivered == h.delivered + [next] && h'.fates == Marked(h.fates, {next}, Delivered)
    ensures PastInOrder(h', first, next + 1)
  {}

  lemma RecordInOrder(env: Env, s: State, w: nat, t: Task, first: nat, next: nat)
    requires Inv(env, s) && InOrder(env, s, first, next) && TaskOf(s, w) == t && t.Recording?
    ensures InOrder(env, DoRecord(s, w, t), first, next + 1)
  {
    var s' := DoRecord(s, w, t);
    assert Holder(s) == t && TaskInOrder(t, next, s.db.nextId);
    assert s'.db == s.db.(outbox := s.db.outbox - {next});
    assert s.db.outbox.Keys - s'.db.outbox.Keys == {next};
    RecordRows(env, s, s', next);
    RecordTasks(s, s', w, t, next);
    RecordPast(s.h, s'.h, first, next);
  }

  lemma ReadyUnion(env: Env, k: Key, streams: seq<StreamRow>, a: Rows, b: Rows, clock: int)
    requires AllReady(env, k, streams, a, clock) && AllReady(env, k, streams, b, clock)
    ensures AllReady(env, k, streams, a + b, clock)
  {}

  lemma ReadyAges(env: Env, k: Key, streams: seq<StreamRow>, outbox: Rows, clock: int)
    requires AllReady(env, k, streams, outbox, clock)
    ensures forall id :: id in outbox ==> outbox[id].createdAt <= clock
  {}

  lemma AgesUnion(a: Rows, b: Rows, clock: int)
    requires AgesInOrder(a) && forall id :: id in a ==> a[id].createdAt <= clock
    requires forall id :: id in b ==> b[id].createdAt == clock
    requires forall x, y :: x in a && y in b ==> x < y
    ensures AgesInOrder(a + b)
  {}

  lemma QueueRows(env: Env, s: State, s': State, now: int, rows: Rows, next: nat)
    requires RowsInOrder(env, s, next) && next <= s.db.nextId <= s'.db.nextId
    requires s'.db == s.db.(outbox := s.db.outbox + rows, nextId := s'.db.nextId)
    requires s'.key == s.key && s'.clock == s.clock
    requires forall id :: id in rows <==> s.db.nextId <= id < s'.db.nextId
    requires forall id :: id in s.db.outbox ==> s.db.outbox[id].createdAt <= now
    requires forall id :: id in rows ==> rows[id].createdAt == now
    requires AllReady(env, s.key, s.db.streams, rows, s.clock)
    ensures RowsInOrder(env, s', next)
  {
    ReadyUnion(env, s.key, s.db.streams, s.db.outbox, rows, s.clock);
    AgesUnion(s.db.outbox, rows, now);
  }

  lemma NewRowsReady(env: Env, s: State, now: int, ds: seq<Delivery>, nonce: nat, id: nat)
    requires SoundEnv(env) && now <= s.clock && WellAddressed(ds) && s.db.nextId <= id < s.db.nextId + |ds|
    requires forall i :: 0 <= i < |ds| ==> IsCurrent(env, s.key, s.db.streams, ds[i].stream)
    ensures var row := NewRow(env, s.key, nonce + (id - s.db.nextId), ds[id - s.db.nextId], now);
            row.createdAt == now && RowReady(env, s.key, s.db.streams, row, s.clock)
  {
    NewRowsMatch(env, s.key, nonce, s.db, now, ds, id);
    assert IsCurrent(env, s.key, s.db.streams, ds[id - s.db.nextId].stream);
  }

  lemma TaskWider(t: Task, next: nat, limit: nat, limit': nat)
    requires TaskInOrder(t, next, limit) && limit <= limit'
    ensures TaskInOrder(t, next, limit')
  {
    var todo := match t case Idle => [] case Choosing(_) => [] case _ => t.todo;
    forall first: nat | Consecutive(todo, first, limit) ensures Consecutive(todo, first, limit') {}
  }

  lemma GrownTasks(s: State, s': State, next: nat)
    requires TasksInOrder(s, next) && s'.tasks == s.tasks && s'.db.nextId >= s.db.nextId
    requires forall id :: id in s'.db.outbox && id < s.db.nextId ==> id in s.db.outbox && s'.db.outbox[id] == s.db.outbox[id]
    ensures TasksInOrder(s', next)
  {
    forall w | w in s'.tasks
      ensures TaskInOrder(s'.tasks[w], next, s'.db.nextId) && OnTime(s'.db.outbox, s'.tasks[w])
    {
      TaskWider(s.tasks[w], next, s.db.nextId, s'.db.nextId);
      assert OnTime(s.db.outbox, s.tasks[w]);
    }
  }

  lemma AllNewRowsReady(env: Env, s: State, now: int, ds: seq<Delivery>, nonce: nat)
    requires SoundEnv(env) && WellAddressed(ds) && now <= s.clock
    requires forall i :: 0 <= i < |ds| ==> IsCurrent(env, s.key, s.db.streams, ds[i].stream)
    ensures var rows := NewRows(env, s.key, nonce, s.db.nextId, ds, now);
            && (forall id :: id in rows <==> s.db.nextId <= id < s.db.nextId + |ds|)
            && (forall id :: id in rows ==> rows[id].createdAt == now)
            && AllReady(env, s.key, s.db.streams, rows, s.clock)
  {
    var rows := NewRows(env, s.key, nonce, s.db.nextId, ds, now);
    NewRowsAt(env, s.key, nonce, s.db.nextId, ds, now);
    forall id | id in rows
      ensures rows[id].createdAt == now && RowReady(env, s.key, s.db.streams, rows[id], s.clock)
    {
      NewRowsReady(env, s, now, ds, nonce, id);
    }
  }

  lemma EnqueuedReady(env: Env, s: State, now: int, ds: seq<Delivery>, nonce: nat) returns (rows: Rows)
    requires SoundEnv(env) && WellAddressed(ds) && now <= s.clock
    requires Enqueue(env, s.key, nonce, s.db, now, ds).Ok?
    ensures var db' := Enqueue(env, s.key, nonce, s.db, now, ds).value;
            && db' == s.db.(outbox := s.db.outbox + rows, nextId := db'.nextId) && s.db.nextId <= db'.nextId
            && (forall id :: id in rows <==> s.db.nextId <= id < db'.nextId)
            && (forall id :: id in rows ==> rows[id].createdAt == now)
            && AllReady(env, s.key, s.db.streams, rows, s.clock)
  {
    if ds == [] {
      rows := map[];
      assert s.db.outbox + rows == s.db.outbox;
    } else {
      rows := NewRows(env, s.key, nonce, s.db.nextId, ds, now);
      AllNewRowsReady(env, s, now, ds, nonce);
    }
  }

  lemma QueueInOrder(env: Env, s: State, now: int, ds: seq<Delivery>, nonce: nat, first: nat, next: nat)
    requires SoundEnv(env) && InOrder(env, s, first, next) && WellAddressed(ds) && now <= s.clock
    requires forall id :: id in s.db.outbox ==> s.db.outbox[id].createdAt <= now
    ensures InOrder(env, DoQueue(env, s, now, ds, nonce), first, next)
  {
    match Enqueue(env, s.key, nonce, s.db, now, ds)
    case Err(_) =>
    case Ok(db') =>
      var s' := DoQueue(env, s, now, ds, nonce);
      var rows := EnqueuedReady(env, s, now, ds, nonce);
      QueueRows(env, s, s', now, rows, next);
      GrownTasks(s, s', next);
  }

  lemma UsedInOrder(env: Env, s: State, e: nat, first: nat, next: nat)
    requires InOrder(env, s, first, next)
    ensures InOrder(env, Used(s, e), first, next)
  {}

  lemma BeginInOrder(env: Env, s: State, e: nat, first: nat, next: nat)
    requires InOrder(env, s, first, next)
    ensures InOrder(env, s.(readings := s.readings[e := s.clock]), first, next)
  {}

  lemma StepInOrder(env: Env, s: State, a: Action, first: nat, next: nat)
    requires SoundEnv(env) && Inv(env, s) && InOrder(env, s, first, next) && Possible(s, a) && Orderly(s, a)
    ensures InOrder(env, Step(env, s, a), first, if a.Record? then next + 1 else next)
  {
    match a
    case Tick(now) => TickInOrder(env, s, now, first, next);
    case Begin(e) => BeginInOrder(env, s, e, first, next);
    case Queue(e, ds, nonce) =>
      QueueInOrder(env, s, s.readings[e], ds, nonce, first, next);
      UsedInOrder(env, DoQueue(env, s, s.readings[e], ds, nonce), e, first, next);
    case Record(w) => RecordInOrder(env, s, w, TaskOf(s, w), first, next);
    case Abort =>
    case _ => WorkerInOrder(env, s, a, first, next);
  }

  ghost predicate OrderlyAt(env: Env, run: seq<State>, n: nat)
    requires n + 1 < |run|
  {
    exists a :: Possible(run[n], a) && Orderly(run[n], a) && run[n + 1] == Step(env, run[n], a)
  }

  ghost predicate OrderlyRun(env: Env, run: seq<State>) {
    IsRun(env, run) && run[0].db.outbox == map[] && forall n: nat :: n + 1 < |run| ==> OrderlyAt(env, run, n)
  }

  lemma NextInOrder(env: Env, run: seq<State>, n: nat, first: nat, next: nat) returns (next': nat)
    requires SoundEnv(env) && OrderlyRun(env, run) && n + 1 < |run| && InOrder(env, run[n], first, next)
    ensures InOrder(env, run[n + 1], first, next')
  {
    RunInv(env, run, n);
    assert OrderlyAt(env, run, n);
    var a :| Possible(run[n], a) && Orderly(run[n], a) && run[n + 1] == Step(env, run[n], a);
    StepInOrder(env, run[n], a, first, next);
    next' := if a.Record? then next + 1 else next;
  }

  lemma {:induction false} RunInOrder(env: Env, run: seq<State>, i: nat) returns (next: nat)
    requires SoundEnv(env) && OrderlyRun(env, run) && i < |run|
    ensures InOrder(env, run[i], run[0].db.nextId, next)
    decreases i
  {
    next := run[0].db.nextId;
    if i > 0 {
      next := RunInOrder(env, run, i - 1);
      next := NextInOrder(env, run, i - 1, run[0].db.nextId, next);
    }
  }

  /** In a run of enqueues and successful deliveries by any number of workers, under a clock that never goes
      back, the delivered ids are a prefix of the enqueued ids in order, the rest is what is stored, and a
      push in flight is of the oldest of those. */
  lemma DeliveredInEnqueueOrder(env: Env, run: seq<State>, i: nat)
    requires SoundEnv(env) && OrderlyRun(env, run) && i < |run|
    ensures var s, first := run[i], run[0].db.nextId;
            var next := first + |s.h.delivered|;
            && (forall n :: 0 <= n < |s.h.delivered| ==> s.h.delivered[n] == first + n)
            && (forall id :: id in s.h.queued <==> first <= id < s.db.nextId)
            && (forall id :: id in s.db.outbox <==> next <= id < s.db.nextId)
            && (forall w :: TaskOf(s, w).Pushing? ==> TaskOf(s, w).item.id == next)
  {
    var next := RunInOrder(env, run, i);
    RunInv(env, run, i);
    SpanOfIds(env, run[i], run[0].db.nextId, next);
  }

  lemma SpanOfIds(env: Env, s: State, first: nat, next: nat)
    requires IdInv(s) && InOrder(env, s, first, next)
    ensures next == first + |s.h.delivered|
    ensures forall id :: id in s.h.queued <==> first <= id < s.db.nextId
    ensures forall w :: TaskOf(s, w).Pushing? ==> TaskOf(s, w).item.id == next
  {
    forall w | TaskOf(s, w).Pushing? ensures TaskOf(s, w).item.id == next {
      assert TaskInOrder(s.tasks[w], next, s.db.nextId);
    }
    assert forall id :: id in s.h.queued <==> id in s.db.outbox || id in s.h.fates;
  }
}
