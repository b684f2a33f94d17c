/** Every interleaving of the delivery workers, the stream mutators, the webhook and the operators.

    One step is what the program does between two points where another task can run: one database
    transaction, one lock operation, the start or end of a push, or a look at the clock whose reading is
    used by a later transaction. History fields record what happened; no step reads them. */
module Interleaving {
  import opened Wrappers
  import opened Crypto
  import opened Store
  import opened Outbox

  /** Where one call of `deliver_pending` stands. From `Locked` on it holds the stream operation lock. In
      `Choosing` and `Timed` it has read the clock for the query it is about to make. */
  datatype Task =
    | Idle
    | Choosing(now: int)
    | Ready(todo: seq<OutboxItem>)
    | Locked(next: OutboxItem, todo: seq<OutboxItem>)
    | Timed(next: OutboxItem, todo: seq<OutboxItem>, now: int)
    | Loaded(item: OutboxItem, todo: seq<OutboxItem>)
    | Checked(item: OutboxItem, payload: Payload, todo: seq<OutboxItem>)
    | Pushing(item: OutboxItem, payload: Payload, stream: Stream, todo: seq<OutboxItem>)
    | Recording(item: OutboxItem, write: Write, todo: seq<OutboxItem>)

  /** The operations that take the lock. */
  datatype Mutation = Save(stream: Stream) | Update(patch: Patch) | Delete(streamId: string) | DiscardPending

  datatype Owner = Worker(w: nat) | Mutator(m: Mutation)

  datatype Fate = Delivered | Cancelled | Superseded | Discarded

  datatype Entry =
    | Configured(streams: seq<StreamRow>)
    | Left(ids: set<nat>, fate: Fate)
    | PushBegan(id: nat, payload: Payload, stream: Stream, key: Key)
    | PushEnded(id: nat, payload: Payload, stream: Stream, key: Key, outcome: Outcome)

  datatype History = History(
    queued: map<nat, string>,     // every id ever enqueued, with the text it was enqueued with
    fates: map<nat, Fate>,        // what became of each id that is no longer stored
    accepted: map<nat, nat>,      // pushes that returned True
    slips: map<nat, nat>,         // pushes that returned True whose completion was lost
    failed: map<nat, nat>,        // failed pushes since enqueue or the last requeue
    unsaved: map<nat, nat>,       // of those, the ones whose retry could not be recorded
    blocked: set<nat>,            // ids that were blocked at some time
    delivered: seq<nat>,          // completed ids in order
    log: seq<Entry>,
    due: map<nat, set<nat>>)      // the ids that were due when a worker chose its batch

  /** `readings` are the clock readings of enqueues and requeues that have not reached their transaction. */
  datatype State = State(
    db: Db, key: Key, clock: int, lock: Option<Owner>, tasks: map<nat, Task>, readings: map<nat, int>, h: History)

  datatype Action =
    | Tick(now: int)
    | Begin(e: nat)
    | Queue(e: nat, deliveries: seq<Delivery>, nonce: nat)
    | Glance(w: nat)
    | Select(w: nat)
    | Acquire(w: nat)
    | Stop(w: nat)
    | Reread(w: nat)
    | Open(w: nat)
    | Lookup(w: nat)
    | Return(w: nat, outcome: Outcome)
    | Record(w: nat)
    | Abandon(w: nat)
    | Claim(m: Mutation)
    | Commit(nonce: nat)
    | Abort
    | Requeue(e: nat)
    | DiscardBlocked
    | Crash(key': Key)

  // ----- small pieces -----

  function TaskOf(s: State, w: nat): Task {
    if w in s.tasks then s.tasks[w] else Idle
  }

  predicate HoldsLock(t: Task) {
    t.Locked? || t.Timed? || t.Loaded? || t.Checked? || t.Pushing? || t.Recording?
  }

  function Count(m: map<nat, nat>, id: nat): nat {
    if id in m then m[id] else 0
  }

  function Bump(m: map<nat, nat>, id: nat): map<nat, nat> {
    m[id := Count(m, id) + 1]
  }

  function SetTask(s: State, w: nat, t: Task): State {
    s.(tasks := s.tasks[w := t])
  }

  function Release(s: State, w: nat, t: Task): State {
    s.(tasks := s.tasks[w := t], lock := None)
  }

  function Marked(fates: map<nat, Fate>, ids: set<nat>, fate: Fate): map<nat, Fate> {
    fates + map id | id in ids :: fate
  }

  /** Install new tables and book the rows that went missing. */
  function Depart(s: State, db': Db, fate: Fate): State {
    var ids := s.db.outbox.Keys - db'.outbox.Keys;
    s.(db := db',
       h := s.h.(fates := Marked(s.h.fates, ids, fate), log := s.h.log + [Left(ids, fate), Configured(db'.streams)]))
  }

  function Mutate(env: Env, k: Key, nonce: nat, db: Db, m: Mutation): Db {
    match m
    case Save(stream) => SaveStream(env, k, nonce, db, stream)
    case Update(patch) =>
      (match UpdateStream(env, k, nonce, db, patch)
       case Updated(db', _) => db'
       case _ => db)
    case Delete(id) => DeleteStream(db, id)
    case DiscardPending => DeletePending(db)
  }

  /** Deliveries built by `enqueue_events` carry the address of the stream they are for. */
  predicate WellAddressed(ds: seq<Delivery>) {
    forall d :: d in ds ==> PayloadMatches(d.payload, d.stream) && d.stream.status.Enabled?
  }

  lemma EventsAreWellAddressed(sign: Signer, streams: seq<Stream>, events: seq<Event>)
    ensures WellAddressed(Deliveries(sign, streams, events))
  {
    DeliveriesExact(sign, streams, events);
  }

  predicate IsFailure(item: OutboxItem, w: Write) {
    w.DoRetry? && w.attempts == item.attempts + 1
  }

  /** The bookkeeping for a write that did not happen. */
  function LostWrite(h: History, t: Task): History {
    if t.Recording? && t.write.DoComplete? then h.(slips := Bump(h.slips, t.item.id))
    else if t.Recording? && IsFailure(t.item, t.write) then h.(unsaved := Bump(h.unsaved, t.item.id))
    else h
  }

  // ----- the steps -----

  /** The transaction of an enqueue, with the stamp `now` read before it. */
  function DoQueue(env: Env, s: State, now: int, ds: seq<Delivery>, nonce: nat): State {
    match Enqueue(env, s.key, nonce, s.db, now, ds)
    case Err(_) => s
    case Ok(db') => s.(db := db', h := s.h.(queued := s.h.queued + Texts(db'.outbox, s.db.outbox.Keys)))
  }

  /** The reading has been used. */
  function Used(s: State, e: nat): State {
    s.(readings := s.readings - {e})
  }

  function DoGlance(s: State, w: nat, t: Task): State
    requires t.Idle? || t.Locked?
  {
    SetTask(s, w, if t.Idle? then Choosing(s.clock) else Timed(t.next, t.todo, s.clock))
  }

  ghost function DoSelect(s: State, w: nat, t: Task): State
    requires t.Choosing?
  {
    SetTask(s, w, Ready(DueBatch(s.db.outbox, t.now))).(h := s.h.(due := s.h.due[w := DueIds(s.db.outbox, t.now)]))
  }

  function Texts(outbox: Rows, known: set<nat>): map<nat, string> {
    map id | id in outbox && id !in known :: outbox[id].payload
  }

  function AttemptsOf(outbox: Rows): map<nat, nat> {
    map id | id in outbox :: outbox[id].attempts
  }

  function DoReread(s: State, w: nat, t: Task): State
    requires t.Timed?
  {
    match DueItem(s.db.outbox, t.next.id, t.now)
    case None => Release(s, w, Ready(t.todo))
    case Some(item) => SetTask(s, w, Loaded(item, t.todo))
  }

  function DoOpen(env: Env, s: State, w: nat, t: Task): State
    requires t.Loaded?
  {
    match Examine(env, s.key, t.item)
    case Err(write) => SetTask(s, w, Recording(t.item, write, t.todo))
    case Ok(p) => SetTask(s, w, Checked(t.item, p, t.todo))
  }

  function DoLookup(env: Env, s: State, w: nat, t: Task): State
    requires t.Checked?
  {
    match Address(env, s.key, s.db.streams, t.item, t.payload, s.clock)
    case Do(write) => SetTask(s, w, Recording(t.item, write, t.todo))
    case Push(p, stream) =>
      SetTask(s, w, Pushing(t.item, p, stream, t.todo))
      .(h := s.h.(log := s.h.log + [PushBegan(t.item.id, p, stream, s.key)]))
  }

  function DoReturn(s: State, w: nat, t: Task, outcome: Outcome): State
    requires t.Pushing?
  {
    var id := t.item.id;
    var h := s.h.(log := s.h.log + [PushEnded(id, t.payload, t.stream, s.key, outcome)]);
    SetTask(s, w, Recording(t.item, Settle(t.item, outcome, s.clock), t.todo))
    .(h := if outcome.Accepted? then h.(accepted := Bump(h.accepted, id)) else h.(failed := Bump(h.failed, id)))
  }

  function DoRecord(s: State, w: nat, t: Task): State
    requires t.Recording?
  {
    var id := t.item.id;
    var s' := Depart(s, Apply(s.db, id, t.write), if t.write.DoComplete? then Delivered else Cancelled);
    Release(s', w, Ready(t.todo))
    .(h := s'.h.(blocked := if t.write.DoBlock? then s.h.blocked + {id} else s.h.blocked,
                 delivered := if t.write.DoComplete? then s.h.delivered + [id] else s.h.delivered))
  }

  function DoAbandon(s: State, w: nat, t: Task): State {
    s.(tasks := s.tasks[w := Idle], lock := if HoldsLock(t) then None else s.lock, h := LostWrite(s.h, t))
  }

  function DoCommit(env: Env, s: State, m: Mutation, nonce: nat): State {
    Depart(s, Mutate(env, s.key, nonce, s.db, m), if m.DiscardPending? then Discarded else Superseded).(lock := None)
  }

  function DoRequeue(s: State, now: int): State {
    var ids := BlockedIds(s.db.outbox);
    s.(db := RequeueBlocked(s.db, now), h := s.h.(failed := s.h.failed - ids, unsaved := s.h.unsaved - ids))
  }

  /** Every task dies; the process starts again, possibly with another key, and quarantines tokens. */
  function DoCrash(env: Env, s: State, key': Key): State {
    var db' := Quarantine(env, key', s.db);
    State(db', key', s.clock, None, map[], map[],
          (if s.lock.Some? && s.lock.value.Worker? then LostWrite(s.h, TaskOf(s, s.lock.value.w)) else s.h)
          .(log := s.h.log + [Configured(db'.streams)]))
  }

  predicate Possible(s: State, a: Action) {
    match a
    case Tick(_) => true
    case Begin(e) => e !in s.readings
    case Queue(e, ds, _) => e in s.readings && WellAddressed(ds)
    case Glance(w) => TaskOf(s, w).Idle? || TaskOf(s, w).Locked?
    case Select(w) => TaskOf(s, w).Choosing?
    case Acquire(w) => TaskOf(s, w).Ready? && TaskOf(s, w).todo != [] && s.lock.None?
    case Stop(w) => TaskOf(s, w).Ready? || TaskOf(s, w).Locked?
    case Reread(w) => TaskOf(s, w).Timed?
    case Open(w) => TaskOf(s, w).Loaded?
    case Lookup(w) => TaskOf(s, w).Checked?
    case Return(w, _) => TaskOf(s, w).Pushing?
    case Record(w) => TaskOf(s, w).Recording?
    case Abandon(w) => true
    case Claim(_) => s.lock.None?
    case Commit(_) => s.lock.Some? && s.lock.value.Mutator?
    case Abort => s.lock.Some? && s.lock.value.Mutator?
    case Requeue(e) => e in s.readings
    case DiscardBlocked => true
    case Crash(_) => true
  }

  ghost function Step(env: Env, s: State, a: Action): State
    requires Possible(s, a)
  {
    match a
    case Tick(now) => s.(clock := now)
    case Begin(e) => s.(readings := s.readings[e := s.clock])
    case Queue(e, ds, nonce) => Used(DoQueue(env, s, s.readings[e], ds, nonce), e)
    case Glance(w) => DoGlance(s, w, TaskOf(s, w))
    case Select(w) => DoSelect(s, w, TaskOf(s, w))
    case Acquire(w) =>
      var todo := TaskOf(s, w).todo;
      SetTask(s, w, Locked(todo[0], todo[1..])).(lock := Some(Worker(w)))
    case Stop(w) => if TaskOf(s, w).Locked? then Release(s, w, Idle) else SetTask(s, w, Idle)
    case Reread(w) => DoReread(s, w, TaskOf(s, w))
    case Open(w) => DoOpen(env, s, w, TaskOf(s, w))
    case Lookup(w) => DoLookup(env, s, w, TaskOf(s, w))
    case Return(w, outcome) => DoReturn(s, w, TaskOf(s, w), outcome)
    case Record(w) => DoRecord(s, w, TaskOf(s, w))
    case Abandon(w) => DoAbandon(s, w, TaskOf(s, w))
    case Claim(m) => s.(lock := Some(Mutator(m)))
    case Commit(nonce) => DoCommit(env, s, s.lock.value.m, nonce)
    case Abort => s.(lock := None)
    case Requeue(e) => Used(DoRequeue(s, s.readings[e]), e)
    case DiscardBlocked => Depart(s, DeleteBlocked(s.db), Discarded)
    case Crash(key') => DoCrash(env, s, key')
  }

  ghost predicate Next(env: Env, s: State, s': State) {
    exists a :: Possible(s, a) && s' == Step(env, s, a)
  }

  /** Any tables with a correct id counter, and no task running yet. */
  ghost predicate Init(s: State) {
    && (forall id :: id in s.db.outbox ==> id < s.db.nextId)
    && s.lock.None? && s.tasks == map[] && s.readings == map[]
    && s.h == History(
         Texts(s.db.outbox, {}), map[], map[], map[], AttemptsOf(s.db.outbox), map[],
         BlockedIds(s.db.outbox), [], [Configured(s.db.streams)], map[])
  }

  ghost predicate StepAt(env: Env, run: seq<State>, n: nat)
    requires n + 1 < |run|
  {
    Next(env, run[n], run[n + 1])
  }

  ghost predicate IsRun(env: Env, run: seq<State>) {
    run != [] && Init(run[0]) && forall n: nat :: n + 1 < |run| ==> StepAt(env, run, n)
  }
}
