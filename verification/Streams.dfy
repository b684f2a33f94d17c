/** What the stream mutations keep: one stream, usable tokens, addressed rows, bounded queue. */
module Streams {
  import opened Wrappers
  import opened Crypto
  import Text
  import opened Store
  import opened Outbox
  import opened Interleaving
  import opened DeliveryInvariant
  import opened DeliverySafety

  // ----- usable tokens -----

  ghost predicate TokensUsable(env: Env, k: Key, streams: seq<StreamRow>) {
    forall row :: row in streams && row.status.Enabled? ==> TokenUsable(env, k, row.storedToken)
  }

  lemma QuarantineMakesUsable(env: Env, k: Key, db: Db)
    ensures TokensUsable(env, k, Quarantine(env, k, db).streams)
    ensures Quarantine(env, k, db).outbox == db.outbox
    ensures forall i :: 0 <= i < |db.streams| && TokenUsable(env, k, db.streams[i].storedToken)
                        ==> Quarantine(env, k, db).streams[i] == db.streams[i]
  {}

  /** An update never enables a stream whose token cannot be read, and what it returns is what the next
      read of the row returns. */
  lemma UpdateReturnsStored(env: Env, k: Key, nonce: nat, db: Db, p: Patch)
    requires SoundEnv(env) && UpdateStream(env, k, nonce, db, p).Updated?
    ensures var r := UpdateStream(env, k, nonce, db, p);
            var i := Newest(db.streams);
            && |r.db.streams| == |db.streams|
            && RowToStream(env, k, r.db.streams[i]) == r.stream
            && (r.stream.status.Enabled? ==> TokenUsable(env, k, r.db.streams[i].storedToken))
            && (forall j :: 0 <= j < |db.streams| && j != i ==> r.db.streams[j] == db.streams[j])
  {
    var token := ReplacementToken(p);
    if token.Some? {
      TokenRoundTrip(env.cipher, k, k, nonce, token.value);
    }
  }

  /** The only refusal: leaving the stream enabled when its token was stored under another key and the
      patch gives none, or a blank one. */
  lemma UpdateRefusedIff(env: Env, k: Key, nonce: nat, db: Db, p: Patch, k0: Key, n0: nat, token: string)
    requires SoundEnv(env) && db.streams != []
    requires db.streams[Newest(db.streams)].storedToken == EncryptToken(env.cipher, k0, n0, token)
    ensures UpdateStream(env, k, nonce, db, p).Rejected?
            <==> (if p.status.Some? then p.status == Some(Enabled) else db.streams[Newest(db.streams)].status == Enabled)
                 && k0 != k && token != "" && forall given :: TokenGiven(p, given) ==> Text.Blank(given)
  {
    PatchIs(RowToStream(env, k, db.streams[Newest(db.streams)]), p);
    if ReplacementToken(p).Some? {
      Text.StripBlank(ReplacementToken(p).value);
      assert TokenGiven(p, ReplacementToken(p).value);
    }
    TokenRoundTrip(env.cipher, k0, k, n0, token);
  }

  lemma MutateKeepsUsable(env: Env, k: Key, nonce: nat, db: Db, m: Mutation)
    requires SoundEnv(env) && TokensUsable(env, k, db.streams)
    ensures TokensUsable(env, k, Mutate(env, k, nonce, db, m).streams)
  {
    match m
    case Save(stream) => TokenRoundTrip(env.cipher, k, k, nonce, stream.endpointToken);
    case Update(patch) =>
      if UpdateStream(env, k, nonce, db, patch).Updated? {
        UpdateReturnsStored(env, k, nonce, db, patch);
        var streams' := Mutate(env, k, nonce, db, m).streams;
        forall row | row in streams' && row.status.Enabled? ensures TokenUsable(env, k, row.storedToken) {
          var j :| 0 <= j < |streams'| && streams'[j] == row;
        }
      }
    case Delete(_) =>
    case DiscardPending =>
  }

  lemma StepKeepsUsable(env: Env, s: State, s': State)
    requires SoundEnv(env) && TokensUsable(env, s.key, s.db.streams) && Next(env, s, s')
    ensures TokensUsable(env, s'.key, s'.db.streams)
  {
    var a :| Possible(s, a) && s' == Step(env, s, a);
    match a
    case Commit(nonce) => MutateKeepsUsable(env, s.key, nonce, s.db, s.lock.value.m);
    case Crash(key') => QuarantineMakesUsable(env, key', s.db);
    case _ => StreamsOnlyByMutation(env, s, a);
  }

  lemma StreamsOnlyByMutation(env: Env, s: State, a: Action)
    requires Possible(s, a) && !a.Commit? && !a.Crash?
    ensures Step(env, s, a).db.streams == s.db.streams && Step(env, s, a).key == s.key
  {
    match a
    case Queue(e, ds, nonce) => assert DoQueue(env, s, s.readings[e], ds, nonce).db.streams == s.db.streams;
    case Record(w) => assert DoRecord(s, w, TaskOf(s, w)).db.streams == s.db.streams;
    case Requeue(_) =>
    case DiscardBlocked =>
    case _ => TablesOnlyByWrites(env, s, a);
  }

  lemma UsableNext(env: Env, run: seq<State>, n: nat)
    requires SoundEnv(env) && IsRun(env, run) && n + 1 < |run| && TokensUsable(env, run[n].key, run[n].db.streams)
    ensures TokensUsable(env, run[n + 1].key, run[n + 1].db.streams)
  {
    assert StepAt(env, run, n);
    StepKeepsUsable(env, run[n], run[n + 1]);
  }

  /** From a start whose quarantine pass is complete, every enabled stream of every reachable state has an
      empty or decryptable token, whatever mutations, crashes and key changes follow. */
  lemma {:induction false} EnabledTokensUsable(env: Env, run: seq<State>, i: nat)
    requires SoundEnv(env) && IsRun(env, run) && i < |run| && TokensUsable(env, run[0].key, run[0].db.streams)
    ensures TokensUsable(env, run[i].key, run[i].db.streams)
  {
    if i > 0 {
      EnabledTokensUsable(env, run, i - 1);
      UsableNext(env, run, i - 1);
    }
  }

  // ----- one stream, bounded queue, addressed rows -----

  /** Every stored row is addressed to the stream that is stored. */
  ghost predicate AllAddressed(env: Env, k: Key, db: Db) {
    forall id :: id in db.outbox ==> db.outbox[id].status.Pending?
                                     && Matching(env, k, db.streams, db.outbox[id].streamId, db.outbox[id].payload)
  }

  ghost predicate Tidy(env: Env, k: Key, db: Db) {
    |db.streams| <= 1 && AllAddressed(env, k, db)
  }

  predicate WithinLimits(db: Db) {
    |db.streams| <= 1 && |db.outbox| <= MAX_OUTBOX_ITEMS
  }

  lemma SingleFind(streams: seq<StreamRow>, id: string)
    requires |streams| <= 1
    ensures FindStream(streams, id) == if streams != [] && streams[0].streamId == id then Some(streams[0]) else None
  {}

  lemma NewRowsMatch(env: Env, k: Key, nonce: nat, db: Db, now: int, ds: seq<Delivery>, id: nat)
    requires SoundEnv(env) && WellAddressed(ds) && db.nextId <= id < db.nextId + |ds|
    requires forall i :: 0 <= i < |ds| ==> IsCurrent(env, k, db.streams, ds[i].stream)
    ensures var row := NewRow(env, k, nonce + (id - db.nextId), ds[id - db.nextId], now);
            Matching(env, k, db.streams, row.streamId, row.payload)
  {
    var d := ds[id - db.nextId];
    assert d in ds;
    PayloadRoundTrip(env, k, k, nonce + (id - db.nextId), d.payload);
  }

  lemma NewRowsAddressed(env: Env, k: Key, nonce: nat, db: Db, now: int, ds: seq<Delivery>)
    requires SoundEnv(env) && WellAddressed(ds)
    requires forall i :: 0 <= i < |ds| ==> IsCurrent(env, k, db.streams, ds[i].stream)
    ensures AllAddressed(env, k, db.(outbox := NewRows(env, k, nonce, db.nextId, ds, now)))
  {
    NewRowsAt(env, k, nonce, db.nextId, ds, now);
    var rows := NewRows(env, k, nonce, db.nextId, ds, now);
    forall id | id in rows ensures Matching(env, k, db.streams, rows[id].streamId, rows[id].payload) {
      NewRowsMatch(env, k, nonce, db, now, ds, id);
    }
  }

  lemma UnionAddressed(env: Env, k: Key, db: Db, rows: Rows)
    requires AllAddressed(env, k, db) && AllAddressed(env, k, db.(outbox := rows))
    ensures AllAddressed(env, k, db.(outbox := db.outbox + rows))
  {}

  lemma QueueTidy(env: Env, k: Key, nonce: nat, db: Db, now: int, ds: seq<Delivery>)
    requires SoundEnv(env) && Tidy(env, k, db) && WellAddressed(ds) && (forall id :: id in db.outbox ==> id < db.nextId)
    requires Enqueue(env, k, nonce, db, now, ds).Ok?
    ensures Tidy(env, k, Enqueue(env, k, nonce, db, now, ds).value)
  {
    if ds != [] {
      var rows := NewRows(env, k, nonce, db.nextId, ds, now);
      NewRowsAt(env, k, nonce, db.nextId, ds, now);
      NewRowsAddressed(env, k, nonce, db, now, ds);
      UnionAddressed(env, k, db, rows);
    }
  }

  lemma UpdateTidy(env: Env, k: Key, nonce: nat, db: Db, p: Patch)
    requires SoundEnv(env) && Tidy(env, k, db) && UpdateStream(env, k, nonce, db, p).Updated?
    ensures Tidy(env, k, UpdateStream(env, k, nonce, db, p).db)
  {
    var r := UpdateStream(env, k, nonce, db, p);
    UpdateReturnsStored(env, k, nonce, db, p);
    var was := RowToStream(env, k, db.streams[0]);
    forall id | id in r.db.outbox
      ensures r.db.outbox[id].status.Pending?
              && Matching(env, k, r.db.streams, r.db.outbox[id].streamId, r.db.outbox[id].payload)
    {
      SingleFind(db.streams, db.outbox[id].streamId);
      SingleFind(r.db.streams, db.outbox[id].streamId);
      assert id in PendingOf(db.outbox, was.streamId);
      assert SameDelivery(was, r.stream);
    }
  }

  lemma DeleteTidy(env: Env, k: Key, db: Db, streamId: string)
    requires Tidy(env, k, db)
    ensures Tidy(env, k, DeleteStream(db, streamId))
  {
    var db' := DeleteStream(db, streamId);
    forall id | id in db'.outbox
      ensures Matching(env, k, db'.streams, db'.outbox[id].streamId, db'.outbox[id].payload)
    {
      SingleFind(db.streams, db.outbox[id].streamId);
      SingleFind(db.streams, streamId);
    }
  }

  lemma MutateTidy(env: Env, k: Key, nonce: nat, db: Db, m: Mutation)
    requires SoundEnv(env) && Tidy(env, k, db)
    ensures Tidy(env, k, Mutate(env, k, nonce, db, m))
  {
    match m
    case Save(stream) =>
    case Update(patch) => if UpdateStream(env, k, nonce, db, patch).Updated? { UpdateTidy(env, k, nonce, db, patch); }
    case Delete(id) => DeleteTidy(env, k, db, id);
    case DiscardPending =>
  }

  /** Under a tidy state no worker can be about to cancel or block a row. */
  lemma NeverCancelsOrBlocks(env: Env, s: State, w: nat)
    requires Inv(env, s) && Tidy(env, s.key, s.db) && TaskOf(s, w).Recording?
    ensures !TaskOf(s, w).write.DoCancel? && !TaskOf(s, w).write.DoBlock?
  {
    assert Holder(s) == TaskOf(s, w);
  }

  lemma SameAddresses(env: Env, k: Key, db: Db, db': Db)
    requires AllAddressed(env, k, db) && db'.streams == db.streams
    requires forall x :: x in db'.outbox ==>
               x in db.outbox && db'.outbox[x].status.Pending?
               && db'.outbox[x].streamId == db.outbox[x].streamId && db'.outbox[x].payload == db.outbox[x].payload
    ensures AllAddressed(env, k, db')
  {}

  lemma ApplyKeeps(db: Db, id: nat, w: Write)
    requires !w.DoBlock?
    ensures var db' := Apply(db, id, w);
            && db'.streams == db.streams && db'.outbox.Keys <= db.outbox.Keys
            && forall x :: x in db'.outbox ==>
                 && db'.outbox[x].status == db.outbox[x].status
                 && db'.outbox[x].streamId == db.outbox[x].streamId && db'.outbox[x].payload == db.outbox[x].payload
  {}

  lemma ApplyTidy(env: Env, k: Key, db: Db, id: nat, w: Write)
    requires Tidy(env, k, db) && !w.DoBlock?
    ensures Tidy(env, k, Apply(db, id, w))
  {
    var db' := Apply(db, id, w);
    ApplyKeeps(db, id, w);
    SameAddresses(env, k, db, db');
  }

  lemma RecordTidy(env: Env, s: State, w: nat, t: Task)
    requires Inv(env, s) && Tidy(env, s.key, s.db) && TaskOf(s, w) == t && t.Recording?
    ensures Tidy(env, s.key, DoRecord(s, w, t).db)
  {
    NeverCancelsOrBlocks(env, s, w);
    ApplyTidy(env, s.key, s.db, t.item.id, t.write);
  }

  lemma NoBlockedRows(env: Env, s: State, now: int)
    requires AllAddressed(env, s.key, s.db)
    ensures DeleteBlocked(s.db) == s.db && RequeueBlocked(s.db, now) == s.db
  {
    assert BlockedIds(s.db.outbox) == {};
  }

  lemma CrashTidy(env: Env, s: State)
    requires Tidy(env, s.key, s.db)
    ensures Tidy(env, s.key, Quarantine(env, s.key, s.db))
  {
    forall id | id in s.db.outbox
      ensures Matching(env, s.key, Quarantine(env, s.key, s.db).streams, s.db.outbox[id].streamId, s.db.outbox[id].payload)
    {
      QuarantineKeepsMatching(env, s.key, s.key, s.db, s.db.outbox[id].streamId, s.db.outbox[id].payload);
    }
  }

  lemma StepTidy(env: Env, s: State, a: Action)
    requires SoundEnv(env) && Inv(env, s) && Tidy(env, s.key, s.db)
    requires Possible(s, a) && (a.Crash? ==> a.key' == s.key)
    ensures Step(env, s, a).key == s.key && Tidy(env, s.key, Step(env, s, a).db)
  {
    match a
    case Queue(e, ds, nonce) =>
      var now := s.readings[e];
      if Enqueue(env, s.key, nonce, s.db, now, ds).Ok? { QueueTidy(env, s.key, nonce, s.db, now, ds); }
    case Record(w) => RecordTidy(env, s, w, TaskOf(s, w));
    case Commit(nonce) => MutateTidy(env, s.key, nonce, s.db, s.lock.value.m);
    case Requeue(e) => NoBlockedRows(env, s, s.readings[e]);
    case DiscardBlocked => NoBlockedRows(env, s, 0);
    case Crash(_) => CrashTidy(env, s);
    case _ => TablesOnlyByWrites(env, s, a);
  }

  lemma TablesOnlyByWrites(env: Env, s: State, a: Action)
    requires Possible(s, a)
    requires !a.Queue? && !a.Record? && !a.Commit? && !a.Requeue? && !a.DiscardBlocked? && !a.Crash?
    ensures Step(env, s, a).db == s.db && Step(env, s, a).key == s.key
  {}

  ghost predicate FixedKey(env: Env, run: seq<State>) {
    forall i :: 0 <= i < |run| ==> run[i].key == run[0].key
  }

  lemma NextTidy(env: Env, s: State, s': State)
    requires SoundEnv(env) && Inv(env, s) && Tidy(env, s.key, s.db) && Next(env, s, s') && s'.key == s.key
    ensures Tidy(env, s'.key, s'.db)
  {
    var a :| Possible(s, a) && s' == Step(env, s, a);
    StepTidy(env, s, a);
  }

  lemma TidyNext(env: Env, run: seq<State>, n: nat)
    requires SoundEnv(env) && IsRun(env, run) && FixedKey(env, run) && n + 1 < |run|
    requires Tidy(env, run[n].key, run[n].db)
    ensures Tidy(env, run[n + 1].key, run[n + 1].db)
  {
    RunInv(env, run, n);
    assert StepAt(env, run, n);
    NextTidy(env, run[n], run[n + 1]);
  }

  lemma {:induction false} StaysTidy(env: Env, run: seq<State>, i: nat)
    requires SoundEnv(env) && IsRun(env, run) && FixedKey(env, run) && i < |run|
    requires Tidy(env, run[0].key, run[0].db)
    ensures Tidy(env, run[i].key, run[i].db)
    decreases i
  {
    if i > 0 {
      StaysTidy(env, run, i - 1);
      TidyNext(env, run, i - 1);
    }
  }

  /** With a fixed key and from an empty queue every stored row is pending and addressed to the one stored
      stream, and no worker ever cancels or blocks anything. */
  lemma FixedKeyRunsStayTidy(env: Env, run: seq<State>, i: nat, w: nat)
    requires SoundEnv(env) && IsRun(env, run) && FixedKey(env, run) && i < |run|
    requires run[0].db.outbox == map[] && |run[0].db.streams| <= 1
    ensures Tidy(env, run[i].key, run[i].db)
    ensures TaskOf(run[i], w).Recording? ==> !TaskOf(run[i], w).write.DoCancel? && !TaskOf(run[i], w).write.DoBlock?
  {
    StaysTidy(env, run, i);
    RunInv(env, run, i);
    if TaskOf(run[i], w).Recording? {
      NeverCancelsOrBlocks(env, run[i], w);
    }
  }

  // ----- limits -----

  lemma AddRows(a: Rows, b: Rows)
    requires a.Keys !! b.Keys
    ensures |a + b| == |a| + |b|
  {
    assert (a + b).Keys == a.Keys + b.Keys && |a.Keys + b.Keys| == |a.Keys| + |b.Keys|;
  }

  lemma {:induction false} NewRowsSize(env: Env, k: Key, nonce: nat, first: nat, ds: seq<Delivery>, now: int)
    ensures |NewRows(env, k, nonce, first, ds, now)| == |ds|
  {
    if ds != [] {
      var n := |ds| - 1;
      NewRowsSize(env, k, nonce, first, ds[..n], now);
      var rest := NewRows(env, k, nonce, first, ds[..n], now);
      assert first + n !in rest;
      assert NewRows(env, k, nonce, first, ds, now) == rest[first + n := NewRow(env, k, nonce + n, ds[n], now)];
    }
  }

  lemma FewerRows(a: Rows, b: Rows)
    requires a.Keys <= b.Keys
    ensures |a| <= |b|
  {
    assert b.Keys == a.Keys + (b.Keys - a.Keys);
    assert |b.Keys| == |a.Keys| + |b.Keys - a.Keys|;
  }

  lemma QueueWithinLimits(env: Env, k: Key, nonce: nat, db: Db, now: int, ds: seq<Delivery>)
    requires WithinLimits(db) && (forall id :: id in db.outbox ==> id < db.nextId)
    requires Enqueue(env, k, nonce, db, now, ds).Ok?
    ensures WithinLimits(Enqueue(env, k, nonce, db, now, ds).value)
  {
    if ds != [] {
      var rows := NewRows(env, k, nonce, db.nextId, ds, now);
      NewRowsSize(env, k, nonce, db.nextId, ds, now);
      AddRows(db.outbox, rows);
    }
  }

  lemma RecordWithinLimits(db: Db, id: nat, w: Write)
    requires WithinLimits(db)
    ensures WithinLimits(Apply(db, id, w))
  {
    FewerRows(Apply(db, id, w).outbox, db.outbox);
  }

  lemma MutateWithinLimits(env: Env, k: Key, nonce: nat, db: Db, m: Mutation)
    requires WithinLimits(db)
    ensures WithinLimits(Mutate(env, k, nonce, db, m))
  {
    MutateShrinks(env, k, nonce, db, m);
    FewerRows(Mutate(env, k, nonce, db, m).outbox, db.outbox);
  }

  lemma StepWithinLimits(env: Env, s: State, a: Action)
    requires Inv(env, s) && WithinLimits(s.db) && Possible(s, a)
    ensures WithinLimits(Step(env, s, a).db)
  {
    match a
    case Queue(e, ds, nonce) =>
      var now := s.readings[e];
      if Enqueue(env, s.key, nonce, s.db, now, ds).Ok? { QueueWithinLimits(env, s.key, nonce, s.db, now, ds); }
    case Record(w) => RecordWithinLimits(s.db, TaskOf(s, w).item.id, TaskOf(s, w).write);
    case Commit(nonce) => MutateWithinLimits(env, s.key, nonce, s.db, s.lock.value.m);
    case Requeue(e) => FewerRows(RequeueBlocked(s.db, s.readings[e]).outbox, s.db.outbox);
    case DiscardBlocked => FewerRows(DeleteBlocked(s.db).outbox, s.db.outbox);
    case Crash(_) =>
    case _ => TablesOnlyByWrites(env, s, a);
  }

  lemma NextWithinLimits(env: Env, run: seq<State>, n: nat)
    requires IsRun(env, run) && n + 1 < |run| && WithinLimits(run[n].db)
    ensures WithinLimits(run[n + 1].db)
  {
    RunInv(env, run, n);
    assert StepAt(env, run, n);
    var a :| Possible(run[n], a) && run[n + 1] == Step(env, run[n], a);
    StepWithinLimits(env, run[n], a);
  }

  /** Only the token is replaced, by the empty one. */
  predicate ClearsToken(was: Stream, p: Patch) {
    ReplacementToken(p) == Some("") && SameDelivery(was.(endpointToken := ""), PatchedStream(was, p).(endpointToken := ""))
  }

  /** Why the key must stay the same, and exactly when it matters. A pending row is addressed to the stream,
      whose token was stored under key `k0`. An update leaves the row behind, no longer addressed to anything
      once that key is used again, exactly when it runs under another key and clears the token while keeping
      the rest of the delivery configuration: to the program the token already reads as empty, so nothing
      seems to change. */
  lemma RotationStrandsIff(env: Env, k0: Key, k: Key, nonce: nat, n0: nat, db: Db, row: StreamRow, token: string, id: nat, p: Patch)
    requires SoundEnv(env) && db.streams == [row] && token != ""
    requires row.storedToken == EncryptToken(env.cipher, k0, n0, token)
    requires id in PendingOf(db.outbox, row.streamId)
    requires Matching(env, k0, db.streams, db.outbox[id].streamId, db.outbox[id].payload)
    requires UpdateStream(env, k, nonce, db, p).Updated?
    ensures var r := UpdateStream(env, k, nonce, db, p);
            (id in r.db.outbox && !Matching(env, k0, r.db.streams, db.outbox[id].streamId, db.outbox[id].payload))
            <==> k != k0 && ClearsToken(RowToStream(env, k, row), p)
  {
    var r := UpdateStream(env, k, nonce, db, p);
    TokenRoundTrip(env.cipher, k0, k, n0, token);
    if ReplacementToken(p).Some? {
      TokenRoundTrip(env.cipher, k, k0, nonce, ReplacementToken(p).value);
      TokenRoundTrip(env.cipher, k, k, nonce, ReplacementToken(p).value);
    }
    SingleFind(db.streams, row.streamId);
    SingleFind(r.db.streams, row.streamId);
  }

  const CLEAR_TOKEN := Patch("", "", "", Some(""), None, None, None, None)

  /** An input that does it: the token of a paused stream is cleared. */
  lemma RotationStrandsRow(env: Env, k0: Key, k: Key, nonce: nat, n0: nat, db: Db, row: StreamRow, token: string, id: nat)
    requires SoundEnv(env) && db.streams == [row] && row.status.Paused? && token != ""
    requires row.storedToken == EncryptToken(env.cipher, k0, n0, token)
    requires id in PendingOf(db.outbox, row.streamId)
    requires Matching(env, k0, db.streams, db.outbox[id].streamId, db.outbox[id].payload)
    ensures var r := UpdateStream(env, k, nonce, db, CLEAR_TOKEN);
            && r.Updated?
            && (id in r.db.outbox <==> k != k0)
            && (k != k0 ==> r.db.outbox[id] == db.outbox[id]
                            && !Matching(env, k0, r.db.streams, db.outbox[id].streamId, db.outbox[id].payload))
  {
    TokenRoundTrip(env.cipher, k0, k, n0, token);
    assert RowToStream(env, k, row).endpointToken == if k == k0 then token else "";
    RotationStrandsIff(env, k0, k, nonce, n0, db, row, token, id, CLEAR_TOKEN);
  }

  /** In every run, key changes included, at most one stream and at most 10,000 rows are ever stored. */
  lemma {:induction false} LimitsHold(env: Env, run: seq<State>, i: nat)
    requires IsRun(env, run) && i < |run| && WithinLimits(run[0].db)
    ensures WithinLimits(run[i].db)
    decreases i
  {
    if i > 0 {
      LimitsHold(env, run, i - 1);
      NextWithinLimits(env, run, i - 1);
    }
  }

  lemma StepOneStream(env: Env, s: State, a: Action)
    requires Inv(env, s) && |s.db.streams| <= 1 && Possible(s, a)
    ensures |Step(env, s, a).db.streams| <= 1
  {
    match a
    case Commit(nonce) => MutateShrinks(env, s.key, nonce, s.db, s.lock.value.m);
    case Crash(_) =>
    case _ => StreamsOnlyByMutation(env, s, a);
  }

  lemma OneStreamNext(env: Env, run: seq<State>, n: nat)
    requires IsRun(env, run) && n + 1 < |run| && |run[n].db.streams| <= 1
    ensures |run[n + 1].db.streams| <= 1
  {
    RunInv(env, run, n);
    assert StepAt(env, run, n);
    var a :| Possible(run[n], a) && run[n + 1] == Step(env, run[n], a);
    StepOneStream(env, run[n], a);
  }

  lemma {:induction false} OneStream(env: Env, run: seq<State>, i: nat)
    requires IsRun(env, run) && i < |run| && |run[0].db.streams| <= 1
    ensures |run[i].db.streams| <= 1
    decreases i
  {
    if i > 0 {
      OneStream(env, run, i - 1);
      OneStreamNext(env, run, i - 1);
    }
  }
}
