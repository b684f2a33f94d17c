/** What happens to ids and order in any run at all, mutations, failures, crashes, key changes and operators included:
    no id is reused, and delivery order is exact under a clock that never goes back (app/database.py, app/events/outbox.py). */
module Order {
  import opened Wrappers
  import opened Crypto
  import opened Store
  import opened Outbox
  import opened Interleaving
  import opened DeliveryInvariant
  import opened Streams

  /** The order of the selection: by creation time, then by id. */
  predicate Older(row: OutboxRow, x: nat, item: OutboxItem) {
    row.createdAt < item.createdAt || (row.createdAt == item.createdAt && x < item.id)
  }

  /** A pending row that was never postponed, by a failure or a paused stream, and never blocked. */
  predicate Untouched(outbox: Rows, blocked: set<nat>, x: nat) {
    x in outbox && outbox[x].status.Pending? && outbox[x].lastError.None? && x !in blocked
  }

  /** What a worker has still to do of its batch, the item it is at included. */
  function Rest(t: Task): seq<OutboxItem> {
    match t
    case Idle => []
    case Choosing(_) => []
    case Ready(todo) => todo
    case Locked(next, todo) => [next] + todo
    case Timed(next, todo, _) => [next] + todo
    case Loaded(item, todo) => [item] + todo
    case Checked(item, _, todo) => [item] + todo
    case Pushing(item, _, _, todo) => [item] + todo
    case Recording(item, _, todo) => [item] + todo
  }

  // ----- what holds of every worker -----

  predicate Within(rest: seq<OutboxItem>, x: nat, i: nat)
    requires i <= |rest|
  {
    exists j :: 0 <= j < i && rest[j].id == x
  }

  /** Whatever in the list the row is older than, the row stands before. */
  predicate Precedes(outbox: Rows, rest: seq<OutboxItem>, x: nat)
    requires x in outbox
  {
    forall i :: 0 <= i < |rest| && Older(outbox[x], x, rest[i]) ==> Within(rest, x, i)
  }

  ghost predicate Follows(outbox: Rows, blocked: set<nat>, due: set<nat>, rest: seq<OutboxItem>) {
    && (forall i :: 0 <= i < |rest| ==> rest[i].id in due)
    && (forall i :: 0 <= i < |rest| && rest[i].id in outbox ==> outbox[rest[i].id].createdAt == rest[i].createdAt)
    && (forall x :: x in due && Untouched(outbox, blocked, x) ==> Precedes(outbox, rest, x))
  }

  ghost predicate StillDue(outbox: Rows, blocked: set<nat>, due: set<nat>, now: int) {
    forall x :: x in due && Untouched(outbox, blocked, x) ==> outbox[x].nextAttemptAt <= now
  }

  ghost predicate WorkerOk(outbox: Rows, blocked: set<nat>, due: set<nat>, clock: int, t: Task) {
    && Follows(outbox, blocked, due, Rest(t)) && StillDue(outbox, blocked, due, clock)
    && (t.Timed? ==> t.now >= 0 && StillDue(outbox, blocked, due, t.now))
  }

  ghost predicate WorkersOk(s: State) {
    && (forall w :: w in s.tasks && Rest(s.tasks[w]) != [] ==>
          w in s.h.due && WorkerOk(s.db.outbox, s.h.blocked, s.h.due[w], s.clock, s.tasks[w]))
    && (forall w :: w in s.tasks && s.tasks[w].Choosing? ==> 0 <= s.tasks[w].now <= s.clock)
  }

  ghost predicate DueOk(s: State) {
    forall w, x :: w in s.h.due && x in s.h.due[w] ==> x < s.db.nextId
  }

  ghost predicate OrderInv(s: State) {
    s.clock >= 0 && BlockedIds(s.db.outbox) <= s.h.blocked && DueOk(s) && WorkersOk(s)
  }

  // ----- steps of the tables -----

  /** The same enqueued delivery, whatever has been recorded of it. */
  predicate SameRow(a: OutboxRow, b: OutboxRow) {
    a.streamId == b.streamId && a.payload == b.payload && a.createdAt == b.createdAt
  }

  /** Under the ids there were, no row is new, none is untouched again, and none that is untouched is due later. */
  ghost predicate Milder(o: Rows, b: set<nat>, o': Rows, b': set<nat>, limit: nat) {
    && (forall x: nat :: x in o' && x < limit ==> x in o && SameRow(o'[x], o[x]))
    && (forall x: nat :: x < limit && Untouched(o', b', x) ==>
          Untouched(o, b, x) && (o'[x].nextAttemptAt == o[x].nextAttemptAt || o'[x].nextAttemptAt == 0))
  }

  /** What every step does to the tables: the old rows get milder, and a new one is due from its creation on. */
  ghost predicate Tamer(s: State, s': State) {
    && Milder(s.db.outbox, s.h.blocked, s'.db.outbox, s'.h.blocked, s.db.nextId) && s.db.nextId <= s'.db.nextId
    && BlockedIds(s'.db.outbox) <= s'.h.blocked
    && forall x: nat :: x in s'.db.outbox && x >= s.db.nextId ==> s'.db.outbox[x].nextAttemptAt == s'.db.outbox[x].createdAt
  }

  lemma Unmoved(s: State, s': State)
    requires IdInv(s) && BlockedIds(s.db.outbox) <= s.h.blocked
    requires s'.db.outbox == s.db.outbox && s'.db.nextId == s.db.nextId && s'.h.blocked == s.h.blocked
    ensures Tamer(s, s')
  {}

  lemma RowsAdded(s: State, s': State, rows: Rows)
    requires IdInv(s) && BlockedIds(s.db.outbox) <= s.h.blocked
    requires s'.db.outbox == s.db.outbox + rows && s'.db.nextId >= s.db.nextId && s'.h.blocked == s.h.blocked
    requires forall id :: id in rows ==>
               s.db.nextId <= id && rows[id].status.Pending? && rows[id].nextAttemptAt == rows[id].createdAt
    ensures Tamer(s, s')
  {
    assert BlockedIds(s'.db.outbox) <= BlockedIds(s.db.outbox);
  }

  lemma QueueTames(env: Env, s: State, now: int, ds: seq<Delivery>, nonce: nat)
    requires IdInv(s) && BlockedIds(s.db.outbox) <= s.h.blocked
    ensures Tamer(s, DoQueue(env, s, now, ds, nonce))
  {
    var s' := DoQueue(env, s, now, ds, nonce);
    if Enqueue(env, s.key, nonce, s.db, now, ds).Err? || ds == [] {
      Unmoved(s, s');
    } else {
      var rows := EnqueueGrows(env, s.key, nonce, s.db, now, ds);
      RowsAdded(s, s', rows);
    }
  }

  lemma MutateMilder(env: Env, k: Key, nonce: nat, db: Db, blocked: set<nat>, m: Mutation)
    ensures Milder(db.outbox, blocked, Mutate(env, k, nonce, db, m).outbox, blocked, db.nextId)
  {}

  /** The rows that are left are rows there were. */
  lemma Removed(s: State, s': State)
    requires IdInv(s) && BlockedIds(s.db.outbox) <= s.h.blocked && Shrinks(s.db, s'.db)
    requires Milder(s.db.outbox, s.h.blocked, s'.db.outbox, s'.h.blocked, s.db.nextId) && s'.h.blocked == s.h.blocked
    ensures Tamer(s, s')
  {
    assert BlockedIds(s'.db.outbox) <= BlockedIds(s.db.outbox);
  }

  lemma CommitTames(env: Env, s: State, m: Mutation, nonce: nat)
    requires IdInv(s) && BlockedIds(s.db.outbox) <= s.h.blocked
    ensures Tamer(s, DoCommit(env, s, m, nonce))
  {
    MutateMilder(env, s.key, nonce, s.db, s.h.blocked, m);
    MutateShrinks(env, s.key, nonce, s.db, m);
    Removed(s, DoCommit(env, s, m, nonce));
  }

  lemma RequeueTames(s: State, now: int)
    requires IdInv(s) && BlockedIds(s.db.outbox) <= s.h.blocked
    ensures Tamer(s, DoRequeue(s, now))
  {
    var s' := DoRequeue(s, now);
    assert BlockedIds(s'.db.outbox) == {};
    forall x: nat | x < s.db.nextId && Untouched(s'.db.outbox, s'.h.blocked, x)
      ensures Untouched(s.db.outbox, s.h.blocked, x) && s'.db.outbox[x].nextAttemptAt == s.db.outbox[x].nextAttemptAt
    {
      assert x !in BlockedIds(s.db.outbox);
    }
  }

  lemma WriteMilder(db: Db, blocked: set<nat>, id: nat, w: Write)
    requires id in db.outbox && db.outbox[id].status.Pending?
    ensures var db', blocked' := Apply(db, id, w), if w.DoBlock? then blocked + {id} else blocked;
            && Milder(db.outbox, blocked, db'.outbox, blocked', db.nextId) && !Untouched(db'.outbox, blocked', id)
            && (BlockedIds(db.outbox) <= blocked ==> BlockedIds(db'.outbox) <= blocked')
            && db'.nextId == db.nextId && db'.outbox.Keys <= db.outbox.Keys
  {}

  lemma RecordTames(env: Env, s: State, w: nat, t: Task)
    requires Inv(env, s) && BlockedIds(s.db.outbox) <= s.h.blocked && TaskOf(s, w) == t && t.Recording?
    ensures var s' := DoRecord(s, w, t); Tamer(s, s') && !Untouched(s'.db.outbox, s'.h.blocked, t.item.id)
  {
    assert Holder(s) == t && Live(s.db, t.item);
    WriteMilder(s.db, s.h.blocked, t.item.id, t.write);
  }

  predicate ChangesRows(a: Action) {
    a.Queue? || a.Record? || a.Commit? || a.Requeue? || a.DiscardBlocked?
  }

  lemma StepTames(env: Env, s: State, a: Action)
    requires Inv(env, s) && BlockedIds(s.db.outbox) <= s.h.blocked && Possible(s, a)
    ensures Tamer(s, Step(env, s, a))
  {
    if ChangesRows(a) {
      RowsTame(env, s, a);
    } else {
      StillStep(env, s, a);
      Unmoved(s, Step(env, s, a));
    }
  }

  lemma RowsTame(env: Env, s: State, a: Action)
    requires Inv(env, s) && BlockedIds(s.db.outbox) <= s.h.blocked && Possible(s, a) && ChangesRows(a)
    ensures Tamer(s, Step(env, s, a))
  {
    match a
    case Queue(e, ds, nonce) => QueueTames(env, s, s.readings[e], ds, nonce);
    case Record(w) => RecordTames(env, s, w, TaskOf(s, w));
    case Commit(nonce) => CommitTames(env, s, s.lock.value.m, nonce);
    case Requeue(e) => RequeueTames(s, s.readings[e]);
    case DiscardBlocked => Removed(s, Step(env, s, a));
  }

  lemma StillStep(env: Env, s: State, a: Action)
    requires Possible(s, a) && !ChangesRows(a)
    ensures var s' := Step(env, s, a);
            s'.db.outbox == s.db.outbox && s'.db.nextId == s.db.nextId && s'.h.blocked == s.h.blocked
  {
    match a
    case Reread(w) => assert DoReread(s, w, TaskOf(s, w)).db == s.db && DoReread(s, w, TaskOf(s, w)).h == s.h;
    case Open(w) => assert DoOpen(env, s, w, TaskOf(s, w)).db == s.db && DoOpen(env, s, w, TaskOf(s, w)).h == s.h;
    case Lookup(w) => LookupStill(env, s, w, TaskOf(s, w));
    case Return(w, outcome) => ReturnStill(s, w, TaskOf(s, w), outcome);
    case Abandon(w) => AbandonStill(s, w, TaskOf(s, w));
    case Crash(key') => CrashStill(env, s, key');
    case _ =>
  }

  lemma LookupStill(env: Env, s: State, w: nat, t: Task)
    requires t.Checked?
    ensures var s' := DoLookup(env, s, w, t); s'.db == s.db && s'.h.blocked == s.h.blocked && s'.h.due == s.h.due
  {}

  lemma ReturnStill(s: State, w: nat, t: Task, outcome: Outcome)
    requires t.Pushing?
    ensures var s' := DoReturn(s, w, t, outcome); s'.db == s.db && s'.h.blocked == s.h.blocked && s'.h.due == s.h.due
  {}

  lemma AbandonStill(s: State, w: nat, t: Task)
    ensures var s' := DoAbandon(s, w, t); s'.db == s.db && s'.h.blocked == s.h.blocked && s'.h.due == s.h.due
  {}

  lemma CrashStill(env: Env, s: State, key': Key)
    ensures var s' := DoCrash(env, s, key');
            s'.db.outbox == s.db.outbox && s'.db.nextId == s.db.nextId && s'.h.blocked == s.h.blocked && s'.h.due == s.h.due
  {}

  lemma WorkerKept(o: Rows, b: set<nat>, o': Rows, b': set<nat>, limit: nat, due: set<nat>, clock: int, clock': int, t: Task)
    requires WorkerOk(o, b, due, clock, t) && Milder(o, b, o', b', limit) && (forall x :: x in due ==> x < limit)
    requires 0 <= clock <= clock'
    ensures WorkerOk(o', b', due, clock', t)
  {
    forall x | x in due && Untouched(o', b', x) ensures Precedes(o', Rest(t), x) {
      assert Precedes(o, Rest(t), x);
    }
  }

  /** No task moved. */
  lemma TablesInOrder(s: State, s': State)
    requires OrderInv(s) && Tamer(s, s') && s'.tasks == s.tasks && s'.h.due == s.h.due && s'.clock >= s.clock
    ensures OrderInv(s')
  {
    forall w | w in s'.tasks && Rest(s'.tasks[w]) != []
      ensures w in s'.h.due && WorkerOk(s'.db.outbox, s'.h.blocked, s'.h.due[w], s'.clock, s'.tasks[w])
    {
      WorkerKept(s.db.outbox, s.h.blocked, s'.db.outbox, s'.h.blocked, s.db.nextId, s.h.due[w], s.clock, s'.clock, s.tasks[w]);
    }
  }

  // ----- steps of the workers -----

  /** One worker moved, and nothing else that the order depends on. */
  lemma WorkerMoves(s: State, s': State, w: nat)
    requires OrderInv(s) && s'.db == s.db && s'.clock == s.clock && s'.h.blocked == s.h.blocked && DueOk(s')
    requires s'.h.due == s.h.due || (w in s'.h.due && s'.h.due == s.h.due[w := s'.h.due[w]])
    requires w in s'.tasks && s'.tasks == s.tasks[w := s'.tasks[w]]
    requires Rest(s'.tasks[w]) != [] ==>
               w in s'.h.due && WorkerOk(s.db.outbox, s.h.blocked, s'.h.due[w], s.clock, s'.tasks[w])
    requires s'.tasks[w].Choosing? ==> 0 <= s'.tasks[w].now <= s.clock
    ensures OrderInv(s')
  {}

  /** The worker goes on with the same list. */
  lemma SameRest(s: State, s': State, w: nat)
    requires OrderInv(s) && w in s.tasks && w in s'.tasks && Rest(s'.tasks[w]) == Rest(s.tasks[w])
    requires s'.db == s.db && s'.clock == s.clock && s'.h.blocked == s.h.blocked && s'.h.due == s.h.due
    requires s'.tasks == s.tasks[w := s'.tasks[w]]
    requires s'.tasks[w].Timed? ==> s'.tasks[w].now == s.clock
    requires s'.tasks[w].Choosing? ==> 0 <= s'.tasks[w].now <= s.clock
    ensures OrderInv(s')
  {
    WorkerMoves(s, s', w);
  }

  lemma BatchFollows(outbox: Rows, blocked: set<nat>, now: int)
    ensures Follows(outbox, blocked, DueIds(outbox, now), DueBatch(outbox, now))
  {
    var due, b := DueIds(outbox, now), DueBatch(outbox, now);
    BatchIsSmallest(outbox, due, BATCH_SIZE);
    forall i, j | 0 <= i < j < |b| ensures !Older(outbox[b[j].id], b[j].id, b[i]) {
      assert NotAfter(outbox, b[i].id, b[j].id);
    }
    forall i, x | 0 <= i < |b| && x in due - BatchIds(b) ensures !Older(outbox[x], x, b[i]) {
      assert NotAfter(outbox, b[i].id, x);
    }
    forall x, i | x in due && 0 <= i < |b| && Older(outbox[x], x, b[i]) ensures Within(b, x, i) {
      assert x in BatchIds(b);
      var j :| 0 <= j < |b| && b[j].id == x;
      assert j < i;
    }
  }

  lemma SelectInOrder(s: State, w: nat, t: Task)
    requires OrderInv(s) && IdInv(s) && TaskOf(s, w) == t && t.Choosing?
    ensures OrderInv(DoSelect(s, w, t))
  {
    BatchFollows(s.db.outbox, s.h.blocked, t.now);
    var s' := DoSelect(s, w, t);
    assert DueOk(s');
    WorkerMoves(s, s', w);
  }

  lemma GlanceInOrder(s: State, w: nat, t: Task)
    requires OrderInv(s) && TaskOf(s, w) == t && (t.Idle? || t.Locked?)
    ensures OrderInv(DoGlance(s, w, t))
  {
    if t.Idle? {
      WorkerMoves(s, DoGlance(s, w, t), w);
    } else {
      SameRest(s, DoGlance(s, w, t), w);
    }
  }

  /** The head of the list is dealt with: it is gone, or it is not untouched any more. */
  lemma HeadDropped(outbox: Rows, blocked: set<nat>, due: set<nat>, head: OutboxItem, todo: seq<OutboxItem>)
    requires Follows(outbox, blocked, due, [head] + todo) && !Untouched(outbox, blocked, head.id)
    ensures Follows(outbox, blocked, due, todo)
  {
    var rest := [head] + todo;
    forall i | 0 <= i < |todo| ensures rest[i + 1] == todo[i] {}
    forall x | x in due && Untouched(outbox, blocked, x) ensures Precedes(outbox, todo, x) {
      forall i | 0 <= i < |todo| && Older(outbox[x], x, todo[i]) ensures Within(todo, x, i) {
        assert Older(outbox[x], x, rest[i + 1]) && Within(rest, x, i + 1);
        var j :| 0 <= j < i + 1 && rest[j].id == x;
        assert j > 0 && todo[j - 1].id == x;
      }
    }
  }

  lemma RereadInOrder(s: State, w: nat, t: Task)
    requires OrderInv(s) && TaskOf(s, w) == t && t.Timed?
    ensures OrderInv(DoReread(s, w, t))
  {
    var s' := DoReread(s, w, t);
    match DueItem(s.db.outbox, t.next.id, t.now)
    case None =>
      assert Rest(t)[0] == t.next;
      HeadDropped(s.db.outbox, s.h.blocked, s.h.due[w], t.next, t.todo);
      WorkerMoves(s, s', w);
    case Some(item) =>
      SameHead(s.db.outbox, s.h.blocked, s.h.due[w], t.next, item, t.todo);
      WorkerMoves(s, s', w);
  }

  /** The re-read item has the same place in the order as the selected one. */
  lemma SameHead(outbox: Rows, blocked: set<nat>, due: set<nat>, head: OutboxItem, item: OutboxItem, todo: seq<OutboxItem>)
    requires Follows(outbox, blocked, due, [head] + todo)
    requires head.id in outbox && item == ItemOf(head.id, outbox[head.id])
    ensures Follows(outbox, blocked, due, [item] + todo)
  {
    var rest, rest' := [head] + todo, [item] + todo;
    assert rest[0] == head && rest'[0] == item;
    forall i | 0 <= i < |rest'| ensures rest'[i].id == rest[i].id && (i > 0 ==> rest'[i] == rest[i]) {}
    assert item.createdAt == head.createdAt;
    forall x | x in due && Untouched(outbox, blocked, x) ensures Precedes(outbox, rest', x) {
      forall i | 0 <= i < |rest'| && Older(outbox[x], x, rest'[i]) ensures Within(rest', x, i) {
        assert Older(outbox[x], x, rest[i]) && Within(rest, x, i);
        var j :| 0 <= j < i && rest[j].id == x;
        assert rest'[j].id == x;
      }
    }
  }

  lemma OpenInOrder(env: Env, s: State, w: nat, t: Task)
    requires OrderInv(s) && TaskOf(s, w) == t && t.Loaded?
    ensures OrderInv(DoOpen(env, s, w, t))
  {
    SameRest(s, DoOpen(env, s, w, t), w);
  }

  lemma LookupInOrder(env: Env, s: State, w: nat, t: Task)
    requires OrderInv(s) && TaskOf(s, w) == t && t.Checked?
    ensures OrderInv(DoLookup(env, s, w, t))
  {
    SameRest(s, DoLookup(env, s, w, t), w);
  }

  lemma ReturnInOrder(s: State, w: nat, t: Task, outcome: Outcome)
    requires OrderInv(s) && TaskOf(s, w) == t && t.Pushing?
    ensures OrderInv(DoReturn(s, w, t, outcome))
  {
    SameRest(s, DoReturn(s, w, t, outcome), w);
  }

  lemma RecordInOrder(env: Env, s: State, w: nat, t: Task)
    requires Inv(env, s) && OrderInv(s) && TaskOf(s, w) == t && t.Recording?
    ensures OrderInv(DoRecord(s, w, t))
  {
    RecordTames(env, s, w, t);
    var s' := DoRecord(s, w, t);
    var s1 := s'.(tasks := s.tasks);
    TablesInOrder(s, s1);
    HeadDropped(s1.db.outbox, s1.h.blocked, s1.h.due[w], t.item, t.todo);
    WorkerMoves(s1, s', w);
  }

  lemma AbandonInOrder(s: State, w: nat)
    requires OrderInv(s)
    ensures OrderInv(DoAbandon(s, w, TaskOf(s, w)))
  {
    WorkerMoves(s, DoAbandon(s, w, TaskOf(s, w)), w);
  }

  // ----- every step, every run -----

  lemma TableStep(env: Env, s: State, a: Action)
    requires Possible(s, a) && !MovesWorker(a)
    ensures var s' := Step(env, s, a); s'.h.due == s.h.due && s'.tasks == if a.Crash? then map[] else s.tasks
  {
    match a
    case Queue(e, ds, nonce) => QueueStep(env, s, s.readings[e], ds, nonce);
    case Commit(nonce) => CommitStep(env, s, s.lock.value.m, nonce);
    case _ =>
  }

  lemma QueueStep(env: Env, s: State, now: int, ds: seq<Delivery>, nonce: nat)
    ensures var s' := DoQueue(env, s, now, ds, nonce); s'.h.due == s.h.due && s'.tasks == s.tasks
  {}

  lemma CommitStep(env: Env, s: State, m: Mutation, nonce: nat)
    ensures var s' := DoCommit(env, s, m, nonce); s'.h.due == s.h.due && s'.tasks == s.tasks
  {}

  lemma WorkerStepInOrder(env: Env, s: State, a: Action)
    requires Inv(env, s) && OrderInv(s) && Possible(s, a) && MovesWorker(a)
    ensures OrderInv(Step(env, s, a))
  {
    match a
    case Glance(w) => GlanceInOrder(s, w, TaskOf(s, w));
    case Select(w) => SelectInOrder(s, w, TaskOf(s, w));
    case Acquire(w) =>
      assert [TaskOf(s, w).todo[0]] + TaskOf(s, w).todo[1..] == TaskOf(s, w).todo;
      SameRest(s, Step(env, s, a), w);
    case Stop(w) => WorkerMoves(s, Step(env, s, a), w);
    case Reread(w) => RereadInOrder(s, w, TaskOf(s, w));
    case Open(w) => OpenInOrder(env, s, w, TaskOf(s, w));
    case Lookup(w) => LookupInOrder(env, s, w, TaskOf(s, w));
    case Return(w, outcome) => ReturnInOrder(s, w, TaskOf(s, w), outcome);
    case Record(w) => RecordInOrder(env, s, w, TaskOf(s, w));
    case Abandon(w) => AbandonInOrder(s, w);
  }

  lemma StepInOrder(env: Env, s: State, a: Action)
    requires Inv(env, s) && OrderInv(s) && Possible(s, a) && Step(env, s, a).clock >= s.clock
    ensures OrderInv(Step(env, s, a))
  {
    if MovesWorker(a) {
      WorkerStepInOrder(env, s, a);
    } else {
      StepTames(env, s, a);
      TableStep(env, s, a);
      if !a.Crash? {
        TablesInOrder(s, Step(env, s, a));
      }
    }
  }

  /** The clock reads at least zero and never goes back. */
  ghost predicate ForwardClock(run: seq<State>) {
    run != [] && run[0].clock >= 0 && forall n: nat :: n + 1 < |run| ==> run[n].clock <= run[n + 1].clock
  }

  lemma NextInOrder(env: Env, run: seq<State>, n: nat)
    requires IsRun(env, run) && ForwardClock(run) && n + 1 < |run| && OrderInv(run[n])
    ensures OrderInv(run[n + 1])
  {
    RunInv(env, run, n);
    assert StepAt(env, run, n);
    var a :| Possible(run[n], a) && run[n + 1] == Step(env, run[n], a);
    StepInOrder(env, run[n], a);
  }

  lemma {:induction false} RunInOrder(env: Env, run: seq<State>, i: nat)
    requires IsRun(env, run) && ForwardClock(run) && i < |run|
    ensures OrderInv(run[i])
    decreases i
  {
    if i > 0 {
      RunInOrder(env, run, i - 1);
      NextInOrder(env, run, i - 1);
    }
  }

  lemma FirstIsOldest(outbox: Rows, blocked: set<nat>, due: set<nat>, rest: seq<OutboxItem>, x: nat)
    requires Follows(outbox, blocked, due, rest) && rest != [] && x in due && Untouched(outbox, blocked, x)
    ensures !Older(outbox[x], x, rest[0])
  {
    assert Precedes(outbox, rest, x) && !Within(rest, x, 0);
  }

  /** A row that is still pending, was due when the worker chose its batch, and is older than the item. */
  predicate Passed(s: State, w: nat, item: OutboxItem, x: nat) {
    && w in s.h.due && x in s.h.due[w] && x in s.db.outbox && s.db.outbox[x].status.Pending?
    && Older(s.db.outbox[x], x, item)
  }

  predicate Postponed(s: State, x: nat) {
    x in s.db.outbox && (s.db.outbox[x].lastError.Some? || x in s.h.blocked)
  }

  /** From any tables: while a push is in flight, a pending row that is older and was due when the worker chose
      its batch has been postponed or blocked. */
  lemma PassedWasPostponed(env: Env, run: seq<State>, i: nat, w: nat)
    requires IsRun(env, run) && ForwardClock(run) && i < |run| && TaskOf(run[i], w).Pushing?
    ensures var s, item := run[i], TaskOf(run[i], w).item;
            && w in s.h.due && item.id in s.h.due[w]
            && forall x :: Passed(s, w, item, x) ==> Postponed(s, x)
  {
    RunInOrder(env, run, i);
    var s, t := run[i], TaskOf(run[i], w);
    assert Rest(t)[0] == t.item;
    forall x | x in s.h.due[w] && Untouched(s.db.outbox, s.h.blocked, x) ensures !Older(s.db.outbox[x], x, t.item) {
      FirstIsOldest(s.db.outbox, s.h.blocked, s.h.due[w], Rest(t), x);
    }
  }

  // ----- no row of a batch is passed over -----

  /** Until a worker stops, dies or chooses again, a step takes nothing but the first row off its list, and only when the
      result for that row is recorded or the row is not due any more; and what it chooses is the due batch. */
  lemma BatchContinues(env: Env, s: State, a: Action, w: nat)
    requires Possible(s, a) && !a.Crash? && a != Stop(w) && a != Abandon(w)
    ensures var t, t' := TaskOf(s, w), TaskOf(Step(env, s, a), w);
            if a == Select(w) then t.Choosing? && t' == Ready(DueBatch(s.db.outbox, t.now))
            else
              || SameIds(Rest(t'), Rest(t))
              || (Rest(t) != [] && Rest(t') == Rest(t)[1..]
                  && (a == Record(w) || (a == Reread(w) && Rest(t)[0].id !in DueIds(s.db.outbox, t.now))))
  {
    if !MovesWorker(a) {
      TableStep(env, s, a);
    } else if a.w != w {
      OtherTaskStays(env, s, a, w);
    } else {
      OwnStep(env, s, a, w);
    }
  }

  predicate SameIds(a: seq<OutboxItem>, b: seq<OutboxItem>) {
    |a| == |b| && forall i :: 0 <= i < |a| ==> a[i].id == b[i].id
  }

  lemma OtherTaskStays(env: Env, s: State, a: Action, w: nat)
    requires Possible(s, a) && MovesWorker(a) && a.w != w
    ensures TaskOf(Step(env, s, a), w) == TaskOf(s, w)
  {
    match a
    case Reread(v) => assert TaskOf(DoReread(s, v, TaskOf(s, v)), w) == TaskOf(s, w);
    case Open(v) => assert TaskOf(DoOpen(env, s, v, TaskOf(s, v)), w) == TaskOf(s, w);
    case Lookup(v) => assert TaskOf(DoLookup(env, s, v, TaskOf(s, v)), w) == TaskOf(s, w);
    case Return(v, outcome) => assert TaskOf(DoReturn(s, v, TaskOf(s, v), outcome), w) == TaskOf(s, w);
    case Record(v) => assert TaskOf(DoRecord(s, v, TaskOf(s, v)), w) == TaskOf(s, w);
    case Abandon(v) => assert TaskOf(DoAbandon(s, v, TaskOf(s, v)), w) == TaskOf(s, w);
    case _ =>
  }

  lemma RereadStep(s: State, w: nat, t: Task)
    requires t.Timed?
    ensures var t' := TaskOf(DoReread(s, w, t), w);
            || SameIds(Rest(t'), Rest(t))
            || (Rest(t') == Rest(t)[1..] && Rest(t)[0].id !in DueIds(s.db.outbox, t.now))
  {
    match DueItem(s.db.outbox, t.next.id, t.now)
    case None =>
      assert TaskOf(DoReread(s, w, t), w) == Ready(t.todo);
      assert Rest(t)[1..] == t.todo;
    case Some(item) =>
      assert TaskOf(DoReread(s, w, t), w) == Loaded(item, t.todo) && item.id == t.next.id;
  }

  lemma OwnStep(env: Env, s: State, a: Action, w: nat)
    requires Possible(s, a) && MovesWorker(a) && a.w == w && a != Stop(w) && a != Abandon(w)
    ensures var t, t' := TaskOf(s, w), TaskOf(Step(env, s, a), w);
            if a.Select? then t' == Ready(DueBatch(s.db.outbox, t.now))
            else
              || SameIds(Rest(t'), Rest(t))
              || (Rest(t) != [] && Rest(t') == Rest(t)[1..]
                  && (a.Record? || (a.Reread? && Rest(t)[0].id !in DueIds(s.db.outbox, t.now))))
  {
    var t := TaskOf(s, w);
    match a
    case Acquire(_) => assert [t.todo[0]] + t.todo[1..] == t.todo;
    case Reread(_) => RereadStep(s, w, t);
    case Open(_) => assert Rest(TaskOf(DoOpen(env, s, w, t), w)) == Rest(t);
    case Lookup(_) => assert Rest(TaskOf(DoLookup(env, s, w, t), w)) == Rest(t);
    case Return(_, outcome) => assert Rest(TaskOf(DoReturn(s, w, t, outcome), w)) == Rest(t);
    case Record(_) =>
      assert TaskOf(DoRecord(s, w, t), w) == Ready(t.todo);
      assert Rest(t)[1..] == t.todo;
    case _ =>
  }

  // ----- the rows a worker chooses among -----

  /** An untouched row enqueued since is due from its creation on. */
  ghost predicate Prompt(s: State, base: nat) {
    forall x: nat :: x >= base && Untouched(s.db.outbox, s.h.blocked, x) ==>
      s.db.outbox[x].nextAttemptAt == s.db.outbox[x].createdAt || s.db.outbox[x].nextAttemptAt == 0
  }

  lemma NextTames(env: Env, run: seq<State>, n: nat)
    requires IsRun(env, run) && n + 1 < |run| && BlockedIds(run[n].db.outbox) <= run[n].h.blocked
    ensures Tamer(run[n], run[n + 1])
  {
    RunInv(env, run, n);
    assert StepAt(env, run, n);
    var a :| Possible(run[n], a) && run[n + 1] == Step(env, run[n], a);
    StepTames(env, run[n], a);
  }

  lemma {:induction false} RunPrompt(env: Env, run: seq<State>, i: nat)
    requires IsRun(env, run) && i < |run|
    ensures Prompt(run[i], run[0].db.nextId) && BlockedIds(run[i].db.outbox) <= run[i].h.blocked
    decreases i
  {
    if i > 0 {
      RunPrompt(env, run, i - 1);
      NextTames(env, run, i - 1);
    }
  }

  /** Ids are never reused: once an id has been given, what is stored under it at any later point was stored under
      it before, and is the same delivery. A row that has left does not come back. */
  lemma {:induction false} IdsNeverReused(env: Env, run: seq<State>, i: nat, j: nat, id: nat)
    requires IsRun(env, run) && i <= j < |run| && id < run[i].db.nextId && id in run[j].db.outbox
    ensures id in run[i].db.outbox && SameRow(run[j].db.outbox[id], run[i].db.outbox[id])
    decreases j - i
  {
    if i < j {
      RunPrompt(env, run, i);
      NextTames(env, run, i);
      IdsNeverReused(env, run, i + 1, j, id);
    }
  }

  /** What is untouched was untouched before, since it was stored. */
  lemma {:induction false} UntouchedBefore(env: Env, run: seq<State>, j: nat, i: nat, x: nat)
    requires IsRun(env, run) && j <= i < |run| && x in run[j].db.outbox
    requires Untouched(run[i].db.outbox, run[i].h.blocked, x)
    ensures Untouched(run[j].db.outbox, run[j].h.blocked, x)
    ensures run[j].db.outbox[x].createdAt == run[i].db.outbox[x].createdAt
    decreases i - j
  {
    if j < i {
      RunInv(env, run, j);
      RunPrompt(env, run, j);
      NextTames(env, run, j);
      IdsNeverReused(env, run, j + 1, i, x);
      UntouchedBefore(env, run, j + 1, i, x);
    }
  }

  lemma WorkerKeepsChoices(env: Env, s: State, a: Action)
    requires Possible(s, a) && MovesWorker(a) && !a.Select?
    ensures Step(env, s, a).h.due == s.h.due
  {
    match a
    case Reread(w) => assert DoReread(s, w, TaskOf(s, w)).h == s.h;
    case Open(w) => assert DoOpen(env, s, w, TaskOf(s, w)).h == s.h;
    case Lookup(w) => LookupStill(env, s, w, TaskOf(s, w));
    case Return(w, outcome) => ReturnStill(s, w, TaskOf(s, w), outcome);
    case Record(w) => RecordKeepsChoices(s, w, TaskOf(s, w));
    case Abandon(w) => AbandonStill(s, w, TaskOf(s, w));
    case _ =>
  }

  lemma RecordKeepsChoices(s: State, w: nat, t: Task)
    requires t.Recording?
    ensures DoRecord(s, w, t).h.due == s.h.due
  {}

  lemma ChoiceStep(env: Env, s: State, a: Action, w: nat)
    requires Possible(s, a) && w in s.h.due && !TaskOf(s, w).Choosing?
    ensures var s' := Step(env, s, a); w in s'.h.due && s'.h.due[w] == s.h.due[w]
  {
    if a.Select? {
      assert a.w != w;
    } else if MovesWorker(a) {
      WorkerKeepsChoices(env, s, a);
    } else {
      TableStep(env, s, a);
    }
  }

  lemma {:induction false} ChoiceKept(env: Env, run: seq<State>, j: nat, i: nat, w: nat)
    requires IsRun(env, run) && j < i < |run| && w in run[j + 1].h.due
    requires forall n :: j < n < i ==> !TaskOf(run[n], w).Choosing?
    ensures w in run[i].h.due && run[i].h.due[w] == run[j + 1].h.due[w]
    decreases i
  {
    if j + 1 < i {
      ChoiceKept(env, run, j, i - 1, w);
      assert StepAt(env, run, i - 1);
      var a :| Possible(run[i - 1], a) && run[i] == Step(env, run[i - 1], a);
      ChoiceStep(env, run[i - 1], a, w);
    }
  }

  /** Worker `w` chose at step `j` the batch it is working on at `i`. */
  ghost predicate ChosenAt(env: Env, run: seq<State>, j: nat, i: nat, w: nat) {
    && j < i < |run| && TaskOf(run[j], w).Choosing? && run[j + 1] == Step(env, run[j], Select(w))
    && forall n :: j < n < i ==> !TaskOf(run[n], w).Choosing?
  }

  /** Row `x`, enqueued in the run, was committed when the batch was chosen with a stamp the worker's reading had
      reached; it is still pending, and older than the item. */
  predicate Overtaken(run: seq<State>, j: nat, i: nat, now: int, item: OutboxItem, x: nat)
    requires j < |run| && i < |run|
  {
    && x >= run[0].db.nextId && x in run[j].db.outbox && run[j].db.outbox[x].createdAt <= now
    && x in run[i].db.outbox && run[i].db.outbox[x].status.Pending? && Older(run[i].db.outbox[x], x, item)
  }

  lemma OvertakenWasDue(env: Env, run: seq<State>, j: nat, i: nat, w: nat, x: nat)
    requires IsRun(env, run) && ForwardClock(run) && ChosenAt(env, run, j, i, w) && TaskOf(run[i], w).Pushing?
    requires Overtaken(run, j, i, TaskOf(run[j], w).now, TaskOf(run[i], w).item, x)
    requires Untouched(run[i].db.outbox, run[i].h.blocked, x)
    ensures Passed(run[i], w, TaskOf(run[i], w).item, x)
  {
    RunInOrder(env, run, j);
    RunPrompt(env, run, j);
    UntouchedBefore(env, run, j, i, x);
    ChoiceKept(env, run, j, i, w);
  }

  /** In every run whatever, with any mutations, failures, crashes, key changes, requeues and discards, and any
      number of workers and enqueues in flight: while a push is in flight, the pushed row is the oldest pending
      one, by creation time and id, of those committed before the batch was chosen, exactly when none of the
      older ones has been postponed or blocked. */
  lemma OvertakenIffPostponed(env: Env, run: seq<State>, j: nat, i: nat, w: nat)
    requires IsRun(env, run) && ForwardClock(run) && ChosenAt(env, run, j, i, w) && TaskOf(run[i], w).Pushing?
    ensures var now, item := TaskOf(run[j], w).now, TaskOf(run[i], w).item;
            && (forall x: nat :: Overtaken(run, j, i, now, item, x) ==> Postponed(run[i], x))
            && ((forall x: nat :: !Overtaken(run, j, i, now, item, x))
                <==> (forall x: nat :: Overtaken(run, j, i, now, item, x) ==> !Postponed(run[i], x)))
  {
    PassedWasPostponed(env, run, i, w);
    var now, item := TaskOf(run[j], w).now, TaskOf(run[i], w).item;
    forall x: nat | Overtaken(run, j, i, now, item, x) ensures Postponed(run[i], x) {
      if Untouched(run[i].db.outbox, run[i].h.blocked, x) {
        OvertakenWasDue(env, run, j, i, w, x);
      }
    }
  }
}
