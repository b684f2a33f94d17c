/** Runs that show why the theorems about the queue are no stronger: each starts from an empty queue, with one
    worker (app/events/outbox.py, app/database.py). */
module Scenarios {
  import opened Wrappers
  import opened Crypto
  import opened Store
  import opened Outbox
  import opened Interleaving
  import opened DeliveryInvariant
  import opened Streams
  import opened Fifo

  const PAUSE := Patch("", "", "", None, None, None, None, Some(Paused))
  const RESUME := Patch("", "", "", None, None, None, None, Some(Enabled))

  /** What a run is allowed besides the steps of an orderly one: pausing and resuming the stream, enqueues that
      commit in another order than they read the clock, or anything. */
  datatype Kind = Pausing | Racing | Anything

  predicate Allowed(kind: Kind, s: State, a: Action) {
    match kind
    case Pausing =>
      (match a
       case Claim(m) => m == Update(PAUSE) || m == Update(RESUME)
       case Commit(_) => s.lock == Some(Mutator(Update(PAUSE))) || s.lock == Some(Mutator(Update(RESUME)))
       case _ => Orderly(s, a))
    case Racing => a.Queue? || Orderly(s, a)
    case Anything => true
  }

  ghost predicate AllowedAt(env: Env, kind: Kind, run: seq<State>, n: nat)
    requires n + 1 < |run|
  {
    exists a :: Possible(run[n], a) && Allowed(kind, run[n], a) && run[n + 1] == Step(env, run[n], a)
  }

  ghost predicate RunOf(env: Env, kind: Kind, run: seq<State>) {
    && IsRun(env, run) && run[0].db.outbox == map[] && run[0].db.nextId == 0
    && forall n: nat :: n + 1 < |run| ==> AllowedAt(env, kind, run, n)
  }

  function Last(run: seq<State>): State
    requires run != []
  {
    run[|run| - 1]
  }

  lemma Append(env: Env, kind: Kind, run: seq<State>, a: Action) returns (run': seq<State>)
    requires RunOf(env, kind, run) && Possible(Last(run), a) && Allowed(kind, Last(run), a)
    ensures RunOf(env, kind, run') && Last(run') == Step(env, Last(run), a)
  {
    run' := run + [Step(env, Last(run), a)];
    forall n: nat | n + 1 < |run'| ensures StepAt(env, run', n) && AllowedAt(env, kind, run', n) {
      if n + 1 < |run| {
        assert StepAt(env, run, n) && AllowedAt(env, kind, run, n);
        assert run'[n] == run[n] && run'[n + 1] == run[n + 1];
      } else {
        assert run'[n] == Last(run) && run'[n + 1] == Step(env, Last(run), a);
      }
    }
  }

  // ----- what is seen of a state -----

  /** The part of a state that the steps of worker 0 and of the mutators depend on. */
  datatype Scene = Scene(
    key: Key, clock: int, db: Db, readings: map<nat, int>, task: Task, lock: Option<Owner>, sent: seq<nat>)

  function View(s: State): Scene {
    Scene(s.key, s.clock, s.db, s.readings, TaskOf(s, 0), s.lock, s.h.delivered)
  }

  const STREAM := Stream("s", "aud", "url", "token", [], Enabled, 0)
  const PAYLOAD := Payload("aud", "url", "token", [], "event", "signed")
  const DELIVERY := Delivery(STREAM, PAYLOAD)

  function TheRow(env: Env, status: Status): StreamRow {
    StreamToRow(env, 0, 0, STREAM).(status := status)
  }

  /** Row `id`, enqueued under key 0 with the stamp. */
  function Fresh(env: Env, id: nat, stamp: int): OutboxRow {
    NewRow(env, 0, id, DELIVERY, stamp)
  }

  function Item(env: Env, id: nat, stamp: int): OutboxItem {
    ItemOf(id, Fresh(env, id, stamp))
  }

  lemma RowReads(env: Env, status: Status)
    requires SoundEnv(env)
    ensures RowToStream(env, 0, TheRow(env, status)) == STREAM.(status := status)
  {
    StreamRoundTrip(env, 0, 0, STREAM);
  }

  ghost function Start(env: Env, clock: int): State {
    var streams := [TheRow(env, Enabled)];
    State(Db(streams, map[], 0), 0, clock, None, map[], map[],
          History(map[], map[], map[], map[], map[], map[], {}, [], [Configured(streams)], map[]))
  }

  lemma Starting(env: Env, kind: Kind, clock: int) returns (run: seq<State>)
    ensures RunOf(env, kind, run)
    ensures View(Last(run)) == Scene(0, clock, Db([TheRow(env, Enabled)], map[], 0), map[], Idle, None, [])
  {
    var s := Start(env, clock);
    assert BlockedIds(s.db.outbox) == {};
    assert Texts(s.db.outbox, {}) == map[] && AttemptsOf(s.db.outbox) == map[];
    run := [s];
  }

  // ----- pieces of runs -----

  lemma Beginning(env: Env, kind: Kind, run: seq<State>, e: nat) returns (run': seq<State>)
    requires RunOf(env, kind, run) && e !in Last(run).readings
    ensures RunOf(env, kind, run')
    ensures var v := View(Last(run)); View(Last(run')) == v.(readings := v.readings[e := v.clock])
  {
    run' := Append(env, kind, run, Begin(e));
  }

  lemma Ticking(env: Env, kind: Kind, run: seq<State>, now: int) returns (run': seq<State>)
    requires RunOf(env, kind, run) && now >= Last(run).clock
    ensures RunOf(env, kind, run') && View(Last(run')) == View(Last(run)).(clock := now)
  {
    run' := Append(env, kind, run, Tick(now));
  }

  /** The enqueue commits with the stamp it read. */
  lemma Enqueuing(env: Env, kind: Kind, run: seq<State>, e: nat, ds: seq<Delivery>, nonce: nat, db': Db) returns (run': seq<State>)
    requires RunOf(env, kind, run) && e in Last(run).readings && WellAddressed(ds)
    requires var s := Last(run); Enqueue(env, s.key, nonce, s.db, s.readings[e], ds) == Ok(db')
    requires kind.Pausing? ==> Last(run).db.outbox == map[]
    ensures RunOf(env, kind, run')
    ensures var v := View(Last(run)); View(Last(run')) == v.(db := db', readings := v.readings - {e})
  {
    run' := Append(env, kind, run, Queue(e, ds, nonce));
  }

  lemma Choose(env: Env, kind: Kind, run: seq<State>, batch: seq<OutboxItem>) returns (run': seq<State>)
    requires RunOf(env, kind, run) && TaskOf(Last(run), 0).Idle?
    requires DueBatch(Last(run).db.outbox, Last(run).clock) == batch
    ensures RunOf(env, kind, run') && View(Last(run')) == View(Last(run)).(task := Ready(batch))
  {
    run' := Append(env, kind, run, Glance(0));
    run' := Append(env, kind, run', Select(0));
  }

  /** The worker takes the lock for the next row and reads it again. */
  lemma Taking(env: Env, kind: Kind, run: seq<State>, item: OutboxItem, todo: seq<OutboxItem>) returns (run': seq<State>)
    requires RunOf(env, kind, run) && Last(run).lock.None? && TaskOf(Last(run), 0) == Ready([item] + todo)
    requires DueItem(Last(run).db.outbox, item.id, Last(run).clock) == Some(item)
    ensures RunOf(env, kind, run')
    ensures View(Last(run')) == View(Last(run)).(task := Loaded(item, todo), lock := Some(Worker(0)))
  {
    assert ([item] + todo)[1..] == todo;
    run' := Append(env, kind, run, Acquire(0));
    run' := Append(env, kind, run', Glance(0));
    run' := Append(env, kind, run', Reread(0));
  }

  /** The payload opens, and the stream is looked up: a push, or a result to record. */
  lemma Looking(env: Env, kind: Kind, run: seq<State>, item: OutboxItem, p: Payload, todo: seq<OutboxItem>, d: Decision)
    returns (run': seq<State>)
    requires RunOf(env, kind, run) && TaskOf(Last(run), 0) == Loaded(item, todo)
    requires var s := Last(run); Examine(env, s.key, item) == Ok(p) && Address(env, s.key, s.db.streams, item, p, s.clock) == d
    ensures RunOf(env, kind, run')
    ensures View(Last(run')) == View(Last(run)).(
              task := if d.Push? then Pushing(item, p, d.stream, todo) else Recording(item, d.write, todo))
  {
    run' := Append(env, kind, run, Open(0));
    run' := Append(env, kind, run', Lookup(0));
  }

  lemma Writing(env: Env, kind: Kind, run: seq<State>, item: OutboxItem, w: Write, todo: seq<OutboxItem>) returns (run': seq<State>)
    requires RunOf(env, kind, run) && TaskOf(Last(run), 0) == Recording(item, w, todo)
    ensures RunOf(env, kind, run') && Last(run') == DoRecord(Last(run), 0, Recording(item, w, todo))
    ensures var v := View(Last(run));
            View(Last(run')) == v.(db := Apply(v.db, item.id, w), task := Ready(todo), lock := None,
                                   sent := if w.DoComplete? then v.sent + [item.id] else v.sent)
  {
    run' := Append(env, kind, run, Record(0));
  }

  lemma Pushed(env: Env, kind: Kind, run: seq<State>, item: OutboxItem, p: Payload, stream: Stream, todo: seq<OutboxItem>)
    returns (run': seq<State>)
    requires RunOf(env, kind, run) && TaskOf(Last(run), 0) == Pushing(item, p, stream, todo)
    ensures RunOf(env, kind, run')
    ensures View(Last(run')) == View(Last(run)).(task := Recording(item, DoComplete, todo))
  {
    run' := Append(env, kind, run, Return(0, Accepted));
  }

  lemma Patching(env: Env, kind: Kind, run: seq<State>, p: Patch, db': Db) returns (run': seq<State>)
    requires RunOf(env, kind, run) && Last(run).lock.None?
    requires (kind.Pausing? && (p == PAUSE || p == RESUME)) || kind.Anything?
    requires Mutate(env, Last(run).key, 0, Last(run).db, Update(p)) == db'
    ensures RunOf(env, kind, run') && View(Last(run')) == View(Last(run)).(db := db')
  {
    run' := Append(env, kind, run, Claim(Update(p)));
    run' := Append(env, kind, run', Commit(0));
  }

  /** Take the next row, push it and record the success. */
  lemma Delivering(env: Env, kind: Kind, run: seq<State>, id: nat, stamp: int, todo: seq<OutboxItem>) returns (run': seq<State>)
    requires SoundEnv(env) && RunOf(env, kind, run)
    requires var v := View(Last(run));
             && v.key == 0 && v.db.streams == [TheRow(env, Enabled)] && v.lock.None?
             && v.task == Ready([Item(env, id, stamp)] + todo)
             && DueItem(v.db.outbox, id, v.clock) == Some(Item(env, id, stamp))
    ensures RunOf(env, kind, run')
    ensures var v := View(Last(run));
            View(Last(run')) == v.(db := RemovePending(v.db, id), task := Ready(todo), sent := v.sent + [id])
  {
    var item := Item(env, id, stamp);
    run' := Taking(env, kind, run, item, todo);
    ItemOpens(env, id, stamp);
    StreamFound(env, Enabled, item, Last(run').clock);
    run' := Looking(env, kind, run', item, PAYLOAD, todo, Push(PAYLOAD, STREAM));
    run' := Pushed(env, kind, run', item, PAYLOAD, STREAM, todo);
    run' := Writing(env, kind, run', item, DoComplete, todo);
  }

  // ----- the tables -----

  lemma ItemOpens(env: Env, id: nat, stamp: int)
    requires SoundEnv(env)
    ensures Examine(env, 0, Item(env, id, stamp)) == Ok(PAYLOAD)
  {
    PayloadRoundTrip(env, 0, 0, id, PAYLOAD);
  }

  /** An enabled stream gets the push; a paused one is looked at again in 30 seconds. */
  lemma StreamFound(env: Env, status: Status, item: OutboxItem, now: int)
    requires SoundEnv(env) && item.streamId == "s" && (status.Enabled? || status.Paused?)
    ensures Address(env, 0, [TheRow(env, status)], item, PAYLOAD, now)
            == if status.Enabled? then Push(PAYLOAD, STREAM)
               else Do(DoRetry(item.attempts, now + PAUSED_RECHECK_SECONDS, "stream_paused"))
  {
    RowReads(env, status);
    SingleFind([TheRow(env, status)], "s");
    assert FindStream([TheRow(env, status)], item.streamId) == Some(TheRow(env, status));
  }

  /** One delivery is added with the next id. */
  lemma EnqueuedOne(env: Env, db: Db, now: int)
    requires SoundEnv(env) && db.streams == [TheRow(env, Enabled)] && |db.outbox| < 2 && db.nextId !in db.outbox
    ensures Enqueue(env, 0, db.nextId, db, now, [DELIVERY])
            == Ok(Db(db.streams, db.outbox[db.nextId := Fresh(env, db.nextId, now)], db.nextId + 1))
  {
    RowReads(env, Enabled);
    SingleFind(db.streams, "s");
    assert [DELIVERY][..0] == [];
    assert NewRows(env, 0, db.nextId, db.nextId, [], now) == map[];
    assert NewRows(env, 0, db.nextId, db.nextId, [DELIVERY], now) == map[db.nextId := Fresh(env, db.nextId, now)];
    assert db.outbox + map[db.nextId := Fresh(env, db.nextId, now)] == db.outbox[db.nextId := Fresh(env, db.nextId, now)];
  }

  lemma EnqueuedTwo(env: Env, db: Db)
    requires SoundEnv(env) && db == Db([TheRow(env, Enabled)], map[], 0)
    ensures Enqueue(env, 0, 0, db, 0, [DELIVERY, DELIVERY]) == Ok(Db(db.streams, Both(env, 0, 0), 2))
  {
    RowReads(env, Enabled);
    SingleFind(db.streams, "s");
    var ds := [DELIVERY, DELIVERY];
    assert ds[..1] == [DELIVERY] && [DELIVERY][..0] == [];
    assert NewRows(env, 0, 0, 0, [], 0) == map[];
    assert NewRows(env, 0, 0, 0, [DELIVERY], 0) == map[0 := Fresh(env, 0, 0)];
    assert NewRows(env, 0, 0, 0, ds, 0) == map[0 := Fresh(env, 0, 0)][1 := Fresh(env, 1, 0)];
    assert db.outbox + NewRows(env, 0, 0, 0, ds, 0) == Both(env, 0, 0);
  }

  /** Rows 0 and 1 with their stamps. */
  function Both(env: Env, first: int, second: int): Rows {
    map[0 := Fresh(env, 0, first), 1 := Fresh(env, 1, second)]
  }

  lemma BothSelected(env: Env, first: int, second: int, now: int)
    requires first <= now && second <= now
    ensures DueBatch(Both(env, first, second), now)
            == if first <= second then [Item(env, 0, first), Item(env, 1, second)]
               else [Item(env, 1, second), Item(env, 0, first)]
  {
    var rows := Both(env, first, second);
    var ids := DueIds(rows, now);
    assert ids == {0, 1};
    BatchIsSmallest(rows, ids, BATCH_SIZE);
    var b := DueBatch(rows, now);
    assert |b| == 2 && NotAfter(rows, b[0].id, b[1].id);
    assert b == [b[0], b[1]];
  }

  // ----- a pause during a batch -----

  /** Row 0 after the worker found its stream paused. */
  function Rechecked(env: Env): Rows {
    Both(env, 0, 0)[0 := Fresh(env, 0, 0).(nextAttemptAt := PAUSED_RECHECK_SECONDS, lastError := Some("stream_paused"))]
  }

  lemma Patched(env: Env, from: Status, rows: Rows, p: Patch)
    requires SoundEnv(env) && (p == PAUSE || p == RESUME) && from != p.status.value && (from.Enabled? || from.Paused?)
    ensures Mutate(env, 0, 0, Db([TheRow(env, from)], rows, 2), Update(p))
            == Db([TheRow(env, p.status.value)], if p == PAUSE then rows else MakeDue(rows, PendingOf(rows, "s")), 2)
  {
    RowReads(env, from);
    var row := TheRow(env, from);
    assert [row][0 := TheRow(env, p.status.value)] == [TheRow(env, p.status.value)];
  }

  lemma TwoQueued(env: Env) returns (run: seq<State>)
    requires SoundEnv(env)
    ensures RunOf(env, Pausing, run)
    ensures View(Last(run)) == Scene(0, 0, Db([TheRow(env, Enabled)], Both(env, 0, 0), 2), map[], Idle, None, [])
  {
    run := Starting(env, Pausing, 0);
    run := Beginning(env, Pausing, run, 0);
    EnqueuedTwo(env, Last(run).db);
    run := Enqueuing(env, Pausing, run, 0, [DELIVERY, DELIVERY], 0, Db([TheRow(env, Enabled)], Both(env, 0, 0), 2));
    assert map[0 := 0] - {0} == map[];
  }

  lemma TwoChosen(env: Env) returns (run: seq<State>)
    requires SoundEnv(env)
    ensures RunOf(env, Pausing, run)
    ensures View(Last(run)) == Scene(0, 0, Db([TheRow(env, Enabled)], Both(env, 0, 0), 2), map[],
                                     Ready([Item(env, 0, 0), Item(env, 1, 0)]), None, [])
  {
    run := TwoQueued(env);
    BothSelected(env, 0, 0, 0);
    run := Choose(env, Pausing, run, [Item(env, 0, 0), Item(env, 1, 0)]);
  }

  /** The stream is paused, and the worker postpones row 0. */
  lemma FirstPostponed(env: Env) returns (run: seq<State>)
    requires SoundEnv(env)
    ensures RunOf(env, Pausing, run)
    ensures View(Last(run))
            == Scene(0, 0, Db([TheRow(env, Paused)], Rechecked(env), 2), map[], Ready([Item(env, 1, 0)]), None, [])
  {
    run := TwoChosen(env);
    Patched(env, Enabled, Both(env, 0, 0), PAUSE);
    run := Patching(env, Pausing, run, PAUSE, Db([TheRow(env, Paused)], Both(env, 0, 0), 2));
    var item, todo := Item(env, 0, 0), [Item(env, 1, 0)];
    assert [item] + todo == [Item(env, 0, 0), Item(env, 1, 0)];
    run := Postponing(env, run, item, todo);
  }

  lemma Postponing(env: Env, run: seq<State>, item: OutboxItem, todo: seq<OutboxItem>) returns (run': seq<State>)
    requires SoundEnv(env) && RunOf(env, Pausing, run) && item == Item(env, 0, 0)
    requires View(Last(run)) == Scene(0, 0, Db([TheRow(env, Paused)], Both(env, 0, 0), 2), map[], Ready([item] + todo), None, [])
    ensures RunOf(env, Pausing, run')
    ensures View(Last(run')) == Scene(0, 0, Db([TheRow(env, Paused)], Rechecked(env), 2), map[], Ready(todo), None, [])
  {
    run' := Taking(env, Pausing, run, item, todo);
    ItemOpens(env, 0, 0);
    StreamFound(env, Paused, item, 0);
    var w := DoRetry(0, PAUSED_RECHECK_SECONDS, "stream_paused");
    run' := Looking(env, Pausing, run', item, PAYLOAD, todo, Do(w));
    run' := Writing(env, Pausing, run', item, w, todo);
  }

  lemma Resumed(env: Env) returns (run: seq<State>)
    requires SoundEnv(env)
    ensures RunOf(env, Pausing, run)
    ensures View(Last(run)) == Scene(0, 0, Db([TheRow(env, Enabled)], MakeDue(Rechecked(env), {0, 1}), 2), map[],
                                     Ready([Item(env, 1, 0)]), None, [])
  {
    run := FirstPostponed(env);
    assert PendingOf(Rechecked(env), "s") == {0, 1};
    Patched(env, Paused, Rechecked(env), RESUME);
    run := Patching(env, Pausing, run, RESUME, Db([TheRow(env, Enabled)], MakeDue(Rechecked(env), {0, 1}), 2));
  }

  /** No failure, no crash and every push accepted: rows 0 and 1 are enqueued in this order and chosen together,
      the stream is paused and resumed while the worker is at row 0, and row 1 is delivered while row 0 is still
      stored. */
  lemma PauseReorders(env: Env) returns (run: seq<State>)
    requires SoundEnv(env)
    ensures RunOf(env, Pausing, run) && Last(run).h.delivered == [1] && Last(run).db.outbox.Keys == {0}
  {
    run := Resumed(env);
    assert [Item(env, 1, 0)] == [Item(env, 1, 0)] + [];
    run := Delivering(env, Pausing, run, 1, 0, []);
  }

  // ----- two enqueues in flight -----

  /** Two webhooks read the clock at 100 and 101. */
  lemma TwoReadings(env: Env) returns (run: seq<State>)
    ensures RunOf(env, Racing, run)
    ensures View(Last(run)) == Scene(0, 101, Db([TheRow(env, Enabled)], map[], 0), map[0 := 100, 1 := 101], Idle, None, [])
  {
    run := Starting(env, Racing, 100);
    run := Beginning(env, Racing, run, 0);
    run := Ticking(env, Racing, run, 101);
    run := Beginning(env, Racing, run, 1);
  }

  /** The second gets its transaction first. */
  lemma RacedEnqueues(env: Env) returns (run: seq<State>)
    requires SoundEnv(env)
    ensures RunOf(env, Racing, run)
    ensures View(Last(run)) == Scene(0, 101, Db([TheRow(env, Enabled)], Both(env, 101, 100), 2), map[], Idle, None, [])
  {
    run := TwoReadings(env);
    var one := Db([TheRow(env, Enabled)], map[0 := Fresh(env, 0, 101)], 1);
    EnqueuedOne(env, Last(run).db, 101);
    run := Enqueuing(env, Racing, run, 1, [DELIVERY], 0, one);
    EnqueuedOne(env, one, 100);
    run := Enqueuing(env, Racing, run, 0, [DELIVERY], 1, Db(one.streams, Both(env, 101, 100), 2));
    assert map[0 := 100, 1 := 101] - {1} - {0} == map[];
  }

  /** No stream change, no failure, no crash, a clock that never goes back and every push accepted: the enqueue
      that committed first, as row 0, has the later stamp, and row 1 is delivered before it. */
  lemma StampsReorder(env: Env) returns (run: seq<State>)
    requires SoundEnv(env)
    ensures RunOf(env, Racing, run) && Last(run).h.delivered == [1, 0] && Last(run).db.outbox == map[]
  {
    run := RacedEnqueues(env);
    BothSelected(env, 101, 100, 101);
    run := Choose(env, Racing, run, [Item(env, 1, 100), Item(env, 0, 101)]);
    assert [Item(env, 1, 100), Item(env, 0, 101)] == [Item(env, 1, 100)] + [Item(env, 0, 101)];
    run := Delivering(env, Racing, run, 1, 100, [Item(env, 0, 101)]);
    assert [Item(env, 0, 101)] == [Item(env, 0, 101)] + [];
    run := Delivering(env, Racing, run, 0, 101, []);
  }

  // ----- a requeued row that is stale -----

  const MOVE := Patch("other", "", "", None, None, None, None, None)

  lemma Crashing(env: Env, run: seq<State>, key': Key) returns (run': seq<State>)
    requires RunOf(env, Anything, run) && Last(run).lock.None?
    ensures RunOf(env, Anything, run')
    ensures var v := View(Last(run));
            View(Last(run')) == v.(key := key', db := Quarantine(env, key', v.db), readings := map[], task := Idle)
  {
    run' := Append(env, Anything, run, Crash(key'));
  }

  lemma Requeuing(env: Env, run: seq<State>, e: nat) returns (run': seq<State>)
    requires RunOf(env, Anything, run) && e in Last(run).readings
    ensures RunOf(env, Anything, run')
    ensures var v := View(Last(run));
            View(Last(run')) == v.(db := RequeueBlocked(v.db, v.readings[e]), readings := v.readings - {e})
  {
    run' := Append(env, Anything, run, Requeue(e));
  }

  function Single(env: Env): Rows {
    map[0 := Fresh(env, 0, 0)]
  }

  function Stuck(env: Env): Rows {
    map[0 := Fresh(env, 0, 0).(status := Blocked, lastError := Some("payload_decryption_failed"))]
  }

  function MovedRow(env: Env): StreamRow {
    TheRow(env, Paused).(aud := "other")
  }

  lemma Quarantined(env: Env, status: Status, rows: Rows, key: Key)
    requires SoundEnv(env)
    ensures Quarantine(env, key, Db([TheRow(env, status)], rows, 1))
            == Db([TheRow(env, if key == 0 then status else Paused)], rows, 1)
  {
    TokenRoundTrip(env.cipher, 0, key, 0, "token");
    var db := Db([TheRow(env, status)], rows, 1);
    assert Quarantine(env, key, db).streams == [QuarantineRow(env, key, TheRow(env, status))];
  }

  lemma OneSelected(env: Env)
    ensures DueBatch(Single(env), 0) == [Item(env, 0, 0)]
  {
    var ids := DueIds(Single(env), 0);
    assert ids == {0};
    BatchIsSmallest(Single(env), ids, BATCH_SIZE);
    var b := DueBatch(Single(env), 0);
    assert b == [b[0]];
  }

  lemma Moved(env: Env)
    requires SoundEnv(env)
    ensures Mutate(env, 0, 0, Db([TheRow(env, Paused)], Stuck(env), 1), Update(MOVE)) == Db([MovedRow(env)], Stuck(env), 1)
  {
    RowReads(env, Paused);
    assert [TheRow(env, Paused)][0 := MovedRow(env)] == [MovedRow(env)];
    assert PendingOf(Stuck(env), "s") == {};
    assert Stuck(env) - {} == Stuck(env);
  }

  lemma MovedFound(env: Env, item: OutboxItem)
    requires SoundEnv(env) && item.streamId == "s"
    ensures Address(env, 0, [MovedRow(env)], item, PAYLOAD, 0) == Do(DoCancel)
  {
    StreamRoundTrip(env, 0, 0, STREAM);
    SingleFind([MovedRow(env)], "s");
    assert FindStream([MovedRow(env)], item.streamId) == Some(MovedRow(env));
    assert RowToStream(env, 0, MovedRow(env)).aud == "other";
  }

  /** A row is enqueued under key 0, and the program starts again under key 1. */
  lemma Rekeyed(env: Env) returns (run: seq<State>)
    requires SoundEnv(env)
    ensures RunOf(env, Anything, run)
    ensures View(Last(run)) == Scene(1, 0, Db([TheRow(env, Paused)], Single(env), 1), map[], Idle, None, [])
  {
    run := Starting(env, Anything, 0);
    run := Beginning(env, Anything, run, 0);
    EnqueuedOne(env, Last(run).db, 0);
    run := Enqueuing(env, Anything, run, 0, [DELIVERY], 0, Db([TheRow(env, Enabled)], Single(env), 1));
    Quarantined(env, Enabled, Single(env), 1);
    run := Crashing(env, run, 1);
  }

  lemma Blocking(env: Env, run: seq<State>, item: OutboxItem, w: Write, todo: seq<OutboxItem>) returns (run': seq<State>)
    requires RunOf(env, Anything, run) && TaskOf(Last(run), 0) == Loaded(item, todo)
    requires Examine(env, Last(run).key, item) == Err(w) && w.DoBlock?
    ensures RunOf(env, Anything, run')
    ensures var v := View(Last(run));
            View(Last(run')) == v.(db := Apply(v.db, item.id, w), task := Ready(todo), lock := None)
  {
    run' := Append(env, Anything, run, Open(0));
    run' := Writing(env, Anything, run', item, w, todo);
  }

  /** The worker blocks the row, and the program starts again under key 0. */
  lemma BlockedThenBack(env: Env) returns (run: seq<State>)
    requires SoundEnv(env)
    ensures RunOf(env, Anything, run)
    ensures View(Last(run)) == Scene(0, 0, Db([TheRow(env, Paused)], Stuck(env), 1), map[], Idle, None, [])
  {
    run := Rekeyed(env);
    OneSelected(env);
    run := Choose(env, Anything, run, [Item(env, 0, 0)]);
    assert [Item(env, 0, 0)] == [Item(env, 0, 0)] + [];
    run := Taking(env, Anything, run, Item(env, 0, 0), []);
    PayloadRoundTrip(env, 0, 1, 0, PAYLOAD);
    run := Blocking(env, run, Item(env, 0, 0), DoBlock("payload_decryption_failed"), []);
    Quarantined(env, Paused, Stuck(env), 0);
    run := Crashing(env, run, 0);
  }

  /** The stream gets another audience, and the row is requeued. */
  lemma RequeuedAfterMove(env: Env) returns (run: seq<State>)
    requires SoundEnv(env)
    ensures RunOf(env, Anything, run)
    ensures View(Last(run)) == Scene(0, 0, Db([MovedRow(env)], Single(env), 1), map[], Idle, None, [])
  {
    run := BlockedThenBack(env);
    Moved(env);
    run := Patching(env, Anything, run, MOVE, Db([MovedRow(env)], Stuck(env), 1));
    run := Beginning(env, Anything, run, 0);
    assert RequeueBlocked(Last(run).db, 0).outbox == Single(env);
    run := Requeuing(env, run, 0);
    assert map[0 := 0] - {0} == map[];
  }

  lemma CancelBooked(s: State, item: OutboxItem, todo: seq<OutboxItem>)
    requires item.id in s.db.outbox && s.db.outbox[item.id].status.Pending?
    ensures var fates := DoRecord(s, 0, Recording(item, DoCancel, todo)).h.fates;
            item.id in fates && fates[item.id] == Cancelled
  {}

  lemma Retaken(env: Env, item: OutboxItem) returns (run: seq<State>)
    requires SoundEnv(env) && item == Item(env, 0, 0)
    ensures RunOf(env, Anything, run)
    ensures View(Last(run))
            == Scene(0, 0, Db([MovedRow(env)], Single(env), 1), map[], Loaded(item, []), Some(Worker(0)), [])
  {
    run := RequeuedAfterMove(env);
    OneSelected(env);
    run := Choose(env, Anything, run, [item]);
    assert [item] == [item] + [];
    run := Taking(env, Anything, run, item, []);
  }

  /** A row that was blocked under another key keeps the address it was signed for: the stream is changed while
      it is blocked, the operator requeues it, and the worker cancels it. */
  lemma RequeuedIsCancelled(env: Env) returns (run: seq<State>)
    requires SoundEnv(env)
    ensures RunOf(env, Anything, run) && 0 in Last(run).h.fates && Last(run).h.fates[0] == Cancelled
  {
    var item := Item(env, 0, 0);
    run := Retaken(env, item);
    ItemOpens(env, 0, 0);
    MovedFound(env, item);
    run := Looking(env, Anything, run, item, PAYLOAD, [], Do(DoCancel));
    CancelBooked(Last(run), item, []);
    run := Writing(env, Anything, run, item, DoCancel, []);
  }
}
