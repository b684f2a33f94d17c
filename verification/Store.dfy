/** The tables of app/database.py as values, and each transaction as a function on them. */
module Store {
  import opened Wrappers
  import opened Crypto
  import Text

  const MAX_OUTBOX_ITEMS: nat := 10_000
  const BATCH_SIZE: nat := 25

  datatype Status = Enabled | Paused | Disabled

  /** A stream as the program sees it, with its receiver token decrypted. */
  datatype Stream = Stream(
    streamId: string, aud: string, endpointUrl: string, endpointToken: string,
    events: seq<string>, status: Status, createdAt: int)

  datatype StreamRow = StreamRow(
    streamId: string, aud: string, endpointUrl: string, storedToken: string,
    events: seq<string>, status: Status, createdAt: int)

  /** The queued JSON object: the addressing of the stream it was signed for, and the signed token. */
  datatype Payload = Payload(
    aud: string, endpointUrl: string, endpointToken: string, events: seq<string>,
    eventUri: string, token: string)

  datatype Loaded = NotJson | NotObject | WrongTypes | Valid(payload: Payload)

  /** Everything outside the model: the cipher and the JSON codec. */
  datatype Env = Env(cipher: Cipher, dump: Payload -> string, load: string -> Loaded)

  ghost predicate SoundEnv(env: Env) {
    Sound(env.cipher) && forall p :: env.load(env.dump(p)) == Valid(p)
  }

  datatype RowStatus = Pending | Blocked

  datatype OutboxRow = OutboxRow(
    streamId: string, payload: string, createdAt: int, attempts: nat, nextAttemptAt: int,
    status: RowStatus, lastError: Option<string>)

  datatype OutboxItem = OutboxItem(
    id: nat, streamId: string, payload: string, createdAt: int, attempts: nat)

  type Rows = map<nat, OutboxRow>

  /** `nextId` is the AUTOINCREMENT counter: ids below it are never handed out again. */
  datatype Db = Db(streams: seq<StreamRow>, outbox: Rows, nextId: nat)

  const EMPTY_DB := Db([], map[], 0)

  // ----- rows and runtime values -----

  function RowToStream(env: Env, k: Key, row: StreamRow): Stream {
    var token := match DecryptToken(env.cipher, k, row.storedToken) case Ok(t) => t case Err(_) => "";
    Stream(row.streamId, row.aud, row.endpointUrl, token, row.events, row.status, row.createdAt)
  }

  function StreamToRow(env: Env, k: Key, nonce: nat, s: Stream): StreamRow {
    StreamRow(s.streamId, s.aud, s.endpointUrl, EncryptToken(env.cipher, k, nonce, s.endpointToken),
              s.events, s.status, s.createdAt)
  }

  lemma StreamRoundTrip(env: Env, k: Key, nonce: nat, s: Stream)
    requires SoundEnv(env)
    ensures RowToStream(env, k, StreamToRow(env, k, nonce, s)) == s
  {
    TokenRoundTrip(env.cipher, k, k, nonce, s.endpointToken);
  }

  datatype Opened = Unreadable | Malformed | Readable(payload: Payload)

  function SealPayload(env: Env, k: Key, nonce: nat, p: Payload): string {
    EncryptData(env.cipher, k, nonce, env.dump(p))
  }

  /** `decrypt_outbox_payload` followed by `_valid_payload`. */
  function OpenPayload(env: Env, k: Key, text: string): Opened {
    match DecryptData(env.cipher, k, text)
    case Err(_) => Unreadable
    case Ok(json) =>
      match env.load(json)
      case NotJson => Unreadable
      case NotObject => Unreadable
      case WrongTypes => Malformed
      case Valid(p) => Readable(p)
  }

  /** A queued payload opens under the key that sealed it, and is unreadable under any other. */
  lemma PayloadRoundTrip(env: Env, k: Key, k': Key, nonce: nat, p: Payload)
    requires SoundEnv(env)
    ensures OpenPayload(env, k', SealPayload(env, k, nonce, p)) == if k == k' then Readable(p) else Unreadable
  {
    DataRoundTrip(env.cipher, k, k', nonce, env.dump(p));
  }

  function FindStream(streams: seq<StreamRow>, id: string): (r: Option<StreamRow>)
    ensures r.Some? ==> r.value in streams && r.value.streamId == id
    ensures r.None? ==> forall row :: row in streams ==> row.streamId != id
  {
    if streams == [] then None
    else if streams[0].streamId == id then Some(streams[0])
    else FindStream(streams[1..], id)
  }

  // ----- stream mutations -----

  function PendingIds(outbox: Rows): set<nat> {
    set id | id in outbox && outbox[id].status.Pending?
  }

  function BlockedIds(outbox: Rows): set<nat> {
    set id | id in outbox && outbox[id].status.Blocked?
  }

  function PendingOf(outbox: Rows, streamId: string): set<nat> {
    set id | id in outbox && outbox[id].status.Pending? && outbox[id].streamId == streamId
  }

  function SaveStream(env: Env, k: Key, nonce: nat, db: Db, s: Stream): Db {
    db.(streams := [StreamToRow(env, k, nonce, s)], outbox := db.outbox - PendingIds(db.outbox))
  }

  /** The keys a PATCH body can carry. A missing URL or audience reads as "", as `or` treats them alike. */
  datatype Patch = Patch(
    aud: string, deliveryUrl: string, bodyUrl: string,
    deliveryToken: Option<string>, bodyToken: Option<string>, authorizationHeader: Option<string>,
    events: Option<seq<string>>, status: Option<Status>)

  function Or(a: string, b: string): string {
    if a != "" then a else b
  }

  function ReplacementToken(p: Patch): Option<string> {
    if p.deliveryToken.Some? then p.deliveryToken
    else if p.bodyToken.Some? then p.bodyToken
    else if p.authorizationHeader.Some? then Some(Text.RemovePrefix(p.authorizationHeader.value, "Bearer "))
    else None
  }

  predicate ReplacementMissing(token: Option<string>) {
    token.None? || Text.Strip(token.value) == ""
  }

  predicate StoredTokenUndecryptable(stored: string, runtime: string) {
    stored != "" && runtime == ""
  }

  /** The row `ORDER BY created_at DESC LIMIT 1` selects. */
  function Newest(streams: seq<StreamRow>): (i: nat)
    requires streams != []
    ensures i < |streams| && forall j :: 0 <= j < |streams| ==> streams[j].createdAt <= streams[i].createdAt
  {
    if |streams| == 1 then 0
    else
      var j := Newest(streams[1..]);
      assert forall n :: 1 <= n < |streams| ==> streams[n] == streams[1..][n - 1];
      if streams[0].createdAt >= streams[1 + j].createdAt then 0 else 1 + j
  }

  datatype UpdateResult = NoStream | Rejected | Updated(db: Db, stream: Stream)

  function PatchedStream(s: Stream, p: Patch): Stream {
    s.(aud := Or(p.aud, s.aud),
       endpointUrl := Or(Or(p.deliveryUrl, p.bodyUrl), s.endpointUrl),
       endpointToken := if ReplacementToken(p).Some? then ReplacementToken(p).value else s.endpointToken,
       events := if p.events.Some? then p.events.value else s.events,
       status := if p.status.Some? then p.status.value else s.status)
  }

  predicate SameDelivery(a: Stream, b: Stream) {
    a.aud == b.aud && a.endpointUrl == b.endpointUrl && a.endpointToken == b.endpointToken && a.events == b.events
  }

  function MakeDue(outbox: Rows, ids: set<nat>): Rows {
    map id | id in outbox :: if id in ids then outbox[id].(nextAttemptAt := 0) else outbox[id]
  }

  function UpdateOutbox(outbox: Rows, was: Stream, now: Stream): Rows {
    if !SameDelivery(was, now) then outbox - PendingOf(outbox, was.streamId)
    else if now.status.Enabled? && !was.status.Enabled? then MakeDue(outbox, PendingOf(outbox, was.streamId))
    else outbox
  }

  function UpdateStream(env: Env, k: Key, nonce: nat, db: Db, p: Patch): UpdateResult {
    if db.streams == [] then NoStream
    else
      var i := Newest(db.streams);
      var row := db.streams[i];
      var was := RowToStream(env, k, row);
      var now := PatchedStream(was, p);
      var token := ReplacementToken(p);
      if now.status.Enabled? && StoredTokenUndecryptable(row.storedToken, was.endpointToken) && ReplacementMissing(token)
      then Rejected
      else
        var stored := if token.Some? then EncryptToken(env.cipher, k, nonce, token.value) else row.storedToken;
        var row' := StreamRow(row.streamId, now.aud, now.endpointUrl, stored, now.events, now.status, row.createdAt);
        Updated(Db(db.streams[i := row'], UpdateOutbox(db.outbox, was, now), db.nextId), now)
  }

  /** The token a patch gives, from the first of its three keys that is present. */
  predicate TokenGiven(p: Patch, token: string) {
    if p.deliveryToken.Some? then token == p.deliveryToken.value
    else if p.bodyToken.Some? then token == p.bodyToken.value
    else
      && p.authorizationHeader.Some?
      && token == (if "Bearer " <= p.authorizationHeader.value then p.authorizationHeader.value[7..] else p.authorizationHeader.value)
  }

  predicate NoTokenGiven(p: Patch) {
    p.deliveryToken.None? && p.bodyToken.None? && p.authorizationHeader.None?
  }

  /** What each key of a patch does: an address in `delivery` wins over one in the body, and an absent or empty
      one keeps the old; a token comes from `delivery`, the body or the header; and the audience, the events and
      the status are the given ones. The stream keeps its identity. */
  predicate PatchedFrom(was: Stream, p: Patch, now: Stream) {
    && now.streamId == was.streamId && now.createdAt == was.createdAt
    && now.endpointUrl == (if p.deliveryUrl != "" then p.deliveryUrl else if p.bodyUrl != "" then p.bodyUrl else was.endpointUrl)
    && (if NoTokenGiven(p) then now.endpointToken == was.endpointToken else TokenGiven(p, now.endpointToken))
    && now.aud == (if p.aud != "" then p.aud else was.aud)
    && now.events == (if p.events.Some? then p.events.value else was.events)
    && now.status == (if p.status.Some? then p.status.value else was.status)
  }

  /** Row `i` is a newest one. */
  predicate IsNewest(streams: seq<StreamRow>, i: nat) {
    i < |streams| && forall j :: 0 <= j < |streams| ==> streams[j].createdAt <= streams[i].createdAt
  }

  /** A completed update leaves a newest stream as the patch says, returns it, and stores it so that it reads
      as returned; an untouched token is not sealed again, and no other stream changes. */
  lemma UpdatePatches(env: Env, k: Key, nonce: nat, db: Db, p: Patch) returns (i: nat)
    requires SoundEnv(env) && UpdateStream(env, k, nonce, db, p).Updated?
    ensures var r := UpdateStream(env, k, nonce, db, p);
            && IsNewest(db.streams, i) && |r.db.streams| == |db.streams| && r.db.streams == db.streams[i := r.db.streams[i]]
            && RowToStream(env, k, r.db.streams[i]) == r.stream
            && PatchedFrom(RowToStream(env, k, db.streams[i]), p, r.stream)
            && (NoTokenGiven(p) ==>
                  r.db.streams[i].storedToken == db.streams[i].storedToken)
  {
    i := Newest(db.streams);
    PatchIs(RowToStream(env, k, db.streams[i]), p);
    TokenRoundTrip(env.cipher, k, k, nonce, if ReplacementToken(p).Some? then ReplacementToken(p).value else "");
  }

  lemma PatchIs(was: Stream, p: Patch)
    ensures PatchedFrom(was, p, PatchedStream(was, p))
    ensures ReplacementToken(p).None? <==> NoTokenGiven(p)
    ensures forall token :: TokenGiven(p, token) <==> ReplacementToken(p) == Some(token)
  {}

  /** The stream's addressing is as it was. */
  predicate KeepsDelivery(was: Stream, now: Stream) {
    now.aud == was.aud && now.endpointUrl == was.endpointUrl && now.endpointToken == was.endpointToken && now.events == was.events
  }

  /** What becomes of a row: one pending for the stream is dropped with the old addressing, and due at once when a
      stream that was not enabled is; every other is as it was. */
  ghost predicate RowAfterUpdate(outbox: Rows, outbox': Rows, was: Stream, now: Stream, id: nat)
    requires id in outbox
  {
    if !outbox[id].status.Pending? || outbox[id].streamId != was.streamId then id in outbox' && outbox'[id] == outbox[id]
    else if !KeepsDelivery(was, now) then id !in outbox'
    else if now.status.Enabled? && !was.status.Enabled? then
      id in outbox' && outbox'[id] == outbox[id].(nextAttemptAt := 0) && forall t: int :: t >= 0 ==> id in DueIds(outbox', t)
    else id in outbox' && outbox'[id] == outbox[id]
  }

  lemma UpdateQueues(env: Env, k: Key, nonce: nat, db: Db, p: Patch)
    requires UpdateStream(env, k, nonce, db, p).Updated?
    ensures db.streams != []
    ensures var r, was := UpdateStream(env, k, nonce, db, p), RowToStream(env, k, db.streams[Newest(db.streams)]);
            && r.db.outbox.Keys <= db.outbox.Keys && r.db.nextId == db.nextId
            && forall id :: id in db.outbox ==> RowAfterUpdate(db.outbox, r.db.outbox, was, r.stream, id)
  {}

  function RemoveStream(streams: seq<StreamRow>, id: string): (r: seq<StreamRow>)
    ensures |r| <= |streams|
    ensures FindStream(r, id).None?
    ensures forall row :: row in r ==> row in streams
  {
    if streams == [] then []
    else if streams[0].streamId == id then RemoveStream(streams[1..], id)
    else [streams[0]] + RemoveStream(streams[1..], id)
  }

  function DeleteStream(db: Db, id: string): Db {
    if FindStream(db.streams, id).Some?
    then db.(streams := RemoveStream(db.streams, id), outbox := db.outbox - PendingOf(db.outbox, id))
    else db
  }

  // ----- the queue -----

  datatype Delivery = Delivery(stream: Stream, payload: Payload)

  datatype EnqueueError = StreamChanged | OutboxFull

  /** The stream is still stored exactly as the caller read it, and enabled. */
  predicate IsCurrent(env: Env, k: Key, streams: seq<StreamRow>, s: Stream) {
    var row := FindStream(streams, s.streamId);
    row.Some? && RowToStream(env, k, row.value) == s && s.status.Enabled?
  }

  function NewRow(env: Env, k: Key, nonce: nat, d: Delivery, now: int): OutboxRow {
    OutboxRow(d.stream.streamId, SealPayload(env, k, nonce, d.payload), now, 0, now, Pending, None)
  }

  function NewRows(env: Env, k: Key, nonce: nat, first: nat, ds: seq<Delivery>, now: int): (rows: Rows)
    ensures forall id :: id in rows ==>
              && first <= id < first + |ds| && rows[id].status.Pending? && rows[id].attempts == 0
              && rows[id].nextAttemptAt == rows[id].createdAt
  {
    if ds == [] then map[]
    else
      var n := |ds| - 1;
      NewRows(env, k, nonce, first, ds[..n], now)[first + n := NewRow(env, k, nonce + n, ds[n], now)]
  }

  lemma {:induction false} NewRowsAt(env: Env, k: Key, nonce: nat, first: nat, ds: seq<Delivery>, now: int)
    ensures forall id: nat :: id in NewRows(env, k, nonce, first, ds, now) <==> first <= id < first + |ds|
    ensures forall id: nat :: id in NewRows(env, k, nonce, first, ds, now)
              ==> NewRows(env, k, nonce, first, ds, now)[id] == NewRow(env, k, nonce + (id - first), ds[id - first], now)
  {
    if ds != [] {
      var n := |ds| - 1;
      NewRowsAt(env, k, nonce, first, ds[..n], now);
      var rest, rows := NewRows(env, k, nonce, first, ds[..n], now), NewRows(env, k, nonce, first, ds, now);
      assert rows == rest[first + n := NewRow(env, k, nonce + n, ds[n], now)];
      assert rows.Keys == rest.Keys + {first + n};
    }
  }

  function Enqueue(env: Env, k: Key, nonce: nat, db: Db, now: int, ds: seq<Delivery>): Result<Db, EnqueueError> {
    if ds == [] then Ok(db)
    else if exists i :: 0 <= i < |ds| && !IsCurrent(env, k, db.streams, ds[i].stream) then Err(StreamChanged)
    else if |db.outbox| + |ds| > MAX_OUTBOX_ITEMS then Err(OutboxFull)
    else Ok(db.(outbox := db.outbox + NewRows(env, k, nonce, db.nextId, ds, now), nextId := db.nextId + |ds|))
  }

  /** The stream is enabled, and stored as its caller read it. */
  ghost predicate StoredAs(env: Env, k: Key, streams: seq<StreamRow>, s: Stream) {
    s.status.Enabled? && exists row :: row in streams && row.streamId == s.streamId && RowToStream(env, k, row) == s
  }

  ghost predicate AllCurrent(env: Env, k: Key, streams: seq<StreamRow>, ds: seq<Delivery>) {
    forall i :: 0 <= i < |ds| ==> StoredAs(env, k, streams, ds[i].stream)
  }

  /** Row `id` holds the delivery, sealed, and is pending, unattempted, stamped `now` and due from then on. */
  predicate RowHolds(env: Env, k: Key, outbox: Rows, id: nat, d: Delivery, now: int) {
    && id in outbox && OpenPayload(env, k, outbox[id].payload) == Readable(d.payload)
    && outbox[id] == OutboxRow(d.stream.streamId, outbox[id].payload, now, 0, now, Pending, None)
  }

  /** One row for each delivery is added, under the next ids and in order, and nothing else changes. */
  ghost predicate RowsStored(env: Env, k: Key, db: Db, db': Db, now: int, ds: seq<Delivery>) {
    && db'.streams == db.streams && db'.nextId == db.nextId + |ds|
    && (forall id: nat :: id in db'.outbox && id !in db.outbox <==> db.nextId <= id < db.nextId + |ds|)
    && (forall id :: id in db.outbox ==> id in db'.outbox && db'.outbox[id] == db.outbox[id])
    && (forall id :: id in db'.outbox && id !in db.outbox ==> RowHolds(env, k, db'.outbox, id, ds[id - db.nextId], now))
  }

  /** An enqueue of something fails exactly when a stream changed, or when the queue would hold more than ten
      thousand rows. */
  lemma EnqueueFailsIff(env: Env, k: Key, nonce: nat, db: Db, now: int, ds: seq<Delivery>)
    requires UniqueStreamIds(db.streams) && ds != []
    ensures var r := Enqueue(env, k, nonce, db, now, ds);
            && (r == Err(StreamChanged) <==> !AllCurrent(env, k, db.streams, ds))
            && (r == Err(OutboxFull) <==> AllCurrent(env, k, db.streams, ds) && |db.outbox| + |ds| > 10000)
  {
    CurrentIff(env, k, db.streams, ds);
  }

  /** Otherwise it stores its rows. */
  lemma EnqueueStores(env: Env, k: Key, nonce: nat, db: Db, now: int, ds: seq<Delivery>)
    requires SoundEnv(env) && Enqueue(env, k, nonce, db, now, ds).Ok?
    requires forall id :: id in db.outbox ==> id < db.nextId
    ensures RowsStored(env, k, db, Enqueue(env, k, nonce, db, now, ds).value, now, ds)
  {
    EnqueueIs(env, k, nonce, db, now, ds);
    NewRowsHold(env, k, nonce, db, now, ds);
  }

  lemma EnqueueIs(env: Env, k: Key, nonce: nat, db: Db, now: int, ds: seq<Delivery>)
    requires Enqueue(env, k, nonce, db, now, ds).Ok?
    ensures Enqueue(env, k, nonce, db, now, ds).value
            == db.(outbox := db.outbox + NewRows(env, k, nonce, db.nextId, ds, now), nextId := db.nextId + |ds|)
  {
    assert db.outbox + map[] == db.outbox;
  }

  lemma NewRowsHold(env: Env, k: Key, nonce: nat, db: Db, now: int, ds: seq<Delivery>)
    requires SoundEnv(env) && forall id :: id in db.outbox ==> id < db.nextId
    ensures RowsStored(env, k, db, db.(outbox := db.outbox + NewRows(env, k, nonce, db.nextId, ds, now), nextId := db.nextId + |ds|), now, ds)
  {
    NewRowsOf(env, k, nonce, db.nextId, ds, now);
    RowsHold(env, k, nonce, db, now, ds, NewRows(env, k, nonce, db.nextId, ds, now));
  }

  /** The rows are those of the deliveries, under the ids from `first` up. */
  ghost predicate RowsOf(env: Env, k: Key, nonce: nat, first: nat, ds: seq<Delivery>, now: int, rows: Rows) {
    && (forall id: nat :: id in rows <==> first <= id < first + |ds|)
    && (forall id: nat :: id in rows ==> rows[id] == NewRow(env, k, nonce + (id - first), ds[id - first], now))
  }

  lemma NewRowsOf(env: Env, k: Key, nonce: nat, first: nat, ds: seq<Delivery>, now: int)
    ensures RowsOf(env, k, nonce, first, ds, now, NewRows(env, k, nonce, first, ds, now))
  {
    NewRowsAt(env, k, nonce, first, ds, now);
  }

  lemma RowsHold(env: Env, k: Key, nonce: nat, db: Db, now: int, ds: seq<Delivery>, rows: Rows)
    requires SoundEnv(env) && RowsOf(env, k, nonce, db.nextId, ds, now, rows)
    requires forall id :: id in db.outbox ==> id < db.nextId
    ensures RowsStored(env, k, db, db.(outbox := db.outbox + rows, nextId := db.nextId + |ds|), now, ds)
  {
    RowsJoin(db.outbox, rows, db.nextId, |ds|);
    forall id | id in rows ensures RowHolds(env, k, db.outbox + rows, id, ds[id - db.nextId], now) {
      NewRowHolds(env, k, nonce + (id - db.nextId), db.outbox + rows, id, ds[id - db.nextId], now);
    }
  }

  lemma RowsJoin(outbox: Rows, rows: Rows, first: nat, n: nat)
    requires (forall id: nat :: id in rows <==> first <= id < first + n) && forall id :: id in outbox ==> id < first
    ensures forall id: nat :: id in outbox + rows <==> id in outbox || first <= id < first + n
    ensures forall id :: id in outbox ==> (outbox + rows)[id] == outbox[id]
    ensures forall id :: id in rows ==> (outbox + rows)[id] == rows[id]
  {}

  lemma NewRowHolds(env: Env, k: Key, nonce: nat, outbox: Rows, id: nat, d: Delivery, now: int)
    requires SoundEnv(env) && id in outbox && outbox[id] == NewRow(env, k, nonce, d, now)
    ensures RowHolds(env, k, outbox, id, d, now)
  {
    PayloadRoundTrip(env, k, k, nonce, d.payload);
  }

  lemma CurrentIff(env: Env, k: Key, streams: seq<StreamRow>, ds: seq<Delivery>)
    requires UniqueStreamIds(streams)
    ensures AllCurrent(env, k, streams, ds) <==> forall i :: 0 <= i < |ds| ==> IsCurrent(env, k, streams, ds[i].stream)
  {
    forall i | 0 <= i < |ds| ensures IsCurrent(env, k, streams, ds[i].stream) <==> StoredAs(env, k, streams, ds[i].stream) {
      var id := ds[i].stream.streamId;
      forall row | row in streams && row.streamId == id ensures FindStream(streams, id) == Some(row) {
        var found := FindStream(streams, id);
        var m, n :| 0 <= m < |streams| && 0 <= n < |streams| && streams[m] == row && Some(streams[n]) == found;
        assert m == n;
      }
    }
  }

  /** Saving a stream leaves it alone, reading as it was given, and drops every pending row and no blocked one. */
  lemma SaveReplaces(env: Env, k: Key, nonce: nat, db: Db, s: Stream)
    requires SoundEnv(env)
    ensures var db' := SaveStream(env, k, nonce, db, s);
            && |db'.streams| == 1 && RowToStream(env, k, db'.streams[0]) == s && db'.nextId == db.nextId
            && (forall id :: id in db'.outbox <==> id in db.outbox && db.outbox[id].status.Blocked?)
            && (forall id :: id in db'.outbox ==> db'.outbox[id] == db.outbox[id])
  {
    StreamRoundTrip(env, k, nonce, s);
  }

  /** Deleting a stream leaves the others and their rows, and its blocked ones; without the stream nothing happens. */
  lemma DeleteRemoves(db: Db, streamId: string)
    ensures var db', known := DeleteStream(db, streamId), exists row :: row in db.streams && row.streamId == streamId;
            && db'.nextId == db.nextId && (!known ==> db' == db)
            && (forall row :: row in db'.streams <==> row in db.streams && row.streamId != streamId)
            && (forall id :: id in db'.outbox <==>
                  id in db.outbox && !(known && db.outbox[id].status.Pending? && db.outbox[id].streamId == streamId))
            && (forall id :: id in db'.outbox ==> db'.outbox[id] == db.outbox[id])
  {
    RemoveStreamExact(db.streams, streamId);
  }

  lemma {:induction false} RemoveStreamExact(streams: seq<StreamRow>, id: string)
    ensures forall row :: row in RemoveStream(streams, id) <==> row in streams && row.streamId != id
  {
    if streams != [] {
      RemoveStreamExact(streams[1..], id);
      assert streams == [streams[0]] + streams[1..];
    }
  }

  /** What the operator's three actions do to a row, and to no more. */
  lemma OperatorActs(db: Db, now: int)
    ensures RequeueBlocked(db, now).outbox.Keys == db.outbox.Keys
    ensures forall id :: id in db.outbox ==>
              RequeueBlocked(db, now).outbox[id]
              == if db.outbox[id].status.Pending? then db.outbox[id]
                 else OutboxRow(db.outbox[id].streamId, db.outbox[id].payload, db.outbox[id].createdAt, 0, now, Pending, None)
    ensures forall id :: id in DeleteBlocked(db).outbox <==> id in db.outbox && db.outbox[id].status.Pending?
    ensures forall id :: id in DeletePending(db).outbox <==> id in db.outbox && db.outbox[id].status.Blocked?
    ensures forall id :: id in DeleteBlocked(db).outbox ==> DeleteBlocked(db).outbox[id] == db.outbox[id]
    ensures forall id :: id in DeletePending(db).outbox ==> DeletePending(db).outbox[id] == db.outbox[id]
    ensures RequeueBlocked(db, now).streams == DeleteBlocked(db).streams == DeletePending(db).streams == db.streams
    ensures RequeueBlocked(db, now).nextId == DeleteBlocked(db).nextId == DeletePending(db).nextId == db.nextId
  {}

  function ItemOf(id: nat, row: OutboxRow): OutboxItem {
    OutboxItem(id, row.streamId, row.payload, row.createdAt, row.attempts)
  }

  predicate IsDue(row: OutboxRow, now: int) {
    row.status.Pending? && row.nextAttemptAt <= now
  }

  function DueIds(outbox: Rows, now: int): set<nat> {
    set id | id in outbox && IsDue(outbox[id], now)
  }

  function DueItem(outbox: Rows, id: nat, now: int): Option<OutboxItem> {
    if id in outbox && IsDue(outbox[id], now) then Some(ItemOf(id, outbox[id])) else None
  }

  /** The order `ORDER BY created_at, id` puts rows in. */
  predicate NotAfter(outbox: Rows, a: nat, b: nat)
    requires a in outbox && b in outbox
  {
    outbox[a].createdAt < outbox[b].createdAt || (outbox[a].createdAt == outbox[b].createdAt && a <= b)
  }

  lemma FirstExists(outbox: Rows, ids: set<nat>)
    requires ids != {} && ids <= outbox.Keys
    ensures exists a :: a in ids && forall b :: b in ids ==> NotAfter(outbox, a, b)
  {
    var x :| x in ids;
    if ids == {x} {
      assert forall b :: b in ids ==> NotAfter(outbox, x, b);
    } else {
      FirstExists(outbox, ids - {x});
      var a :| a in ids - {x} && forall b :: b in ids - {x} ==> NotAfter(outbox, a, b);
      var least := if NotAfter(outbox, x, a) then x else a;
      assert forall b :: b in ids ==> b == x || b in ids - {x};
      assert forall b :: b in ids ==> NotAfter(outbox, least, b);
    }
  }

  ghost function First(outbox: Rows, ids: set<nat>): (a: nat)
    requires ids != {} && ids <= outbox.Keys
    ensures a in ids && forall b :: b in ids ==> NotAfter(outbox, a, b)
  {
    FirstExists(outbox, ids);
    var a :| a in ids && forall b :: b in ids ==> NotAfter(outbox, a, b);
    a
  }

  ghost function Batch(outbox: Rows, ids: set<nat>, limit: nat): (b: seq<OutboxItem>)
    requires ids <= outbox.Keys
    decreases limit
  {
    if limit == 0 || ids == {} then []
    else
      var a := First(outbox, ids);
      [ItemOf(a, outbox[a])] + Batch(outbox, ids - {a}, limit - 1)
  }

  /** How a scan that keeps taking the first row builds a batch. */
  lemma BatchTakesFirst(outbox: Rows, ids: set<nat>, limit: nat, id: nat, taken: seq<OutboxItem>)
    requires limit > 0 && ids <= outbox.Keys
    requires id in ids && forall other :: other in ids ==> NotAfter(outbox, id, other)
    ensures taken + Batch(outbox, ids, limit)
            == taken + [ItemOf(id, outbox[id])] + Batch(outbox, ids - {id}, limit - 1)
  {
    assert NotAfter(outbox, First(outbox, ids), id) && NotAfter(outbox, id, First(outbox, ids));
  }

  ghost function DueBatch(outbox: Rows, now: int): seq<OutboxItem> {
    Batch(outbox, DueIds(outbox, now), BATCH_SIZE)
  }

  function BatchIds(batch: seq<OutboxItem>): set<nat> {
    set i | 0 <= i < |batch| :: batch[i].id
  }

  /** A batch lists distinct selected rows in order, and every row it leaves out comes after all of them. */
  lemma {:induction false} BatchIsSmallest(outbox: Rows, ids: set<nat>, limit: nat)
    requires ids <= outbox.Keys
    ensures var b := Batch(outbox, ids, limit);
            && |b| == (if |ids| < limit then |ids| else limit)
            && (forall i :: 0 <= i < |b| ==> b[i].id in ids && b[i] == ItemOf(b[i].id, outbox[b[i].id]))
            && (forall i, j :: 0 <= i < j < |b| ==> b[i].id != b[j].id && NotAfter(outbox, b[i].id, b[j].id))
            && (forall i, x :: 0 <= i < |b| && x in ids - BatchIds(b) ==> NotAfter(outbox, b[i].id, x))
    decreases limit
  {
    if limit != 0 && ids != {} {
      var a := First(outbox, ids);
      BatchIsSmallest(outbox, ids - {a}, limit - 1);
      var rest, b := Batch(outbox, ids - {a}, limit - 1), Batch(outbox, ids, limit);
      assert b == [ItemOf(a, outbox[a])] + rest;
      assert |ids - {a}| == |ids| - 1;
      assert forall i :: 1 <= i < |b| ==> b[i] == rest[i - 1];
      forall x | x in ids - BatchIds(b) ensures x in (ids - {a}) - BatchIds(rest) {
        assert b[0].id == a;
        assert forall i :: 0 <= i < |rest| ==> rest[i] == b[i + 1];
      }
    }
  }

  function RemovePending(db: Db, id: nat): Db {
    if id in db.outbox && db.outbox[id].status.Pending? then db.(outbox := db.outbox - {id}) else db
  }

  function RetryItem(db: Db, id: nat, attempts: nat, nextAttemptAt: int, reason: string): Db {
    if id in db.outbox && db.outbox[id].status.Pending?
    then db.(outbox := db.outbox[id := db.outbox[id].(attempts := attempts, nextAttemptAt := nextAttemptAt,
                                                      lastError := Some(reason))])
    else db
  }

  function BlockItem(db: Db, id: nat, reason: string): Db {
    if id in db.outbox && db.outbox[id].status.Pending?
    then db.(outbox := db.outbox[id := db.outbox[id].(status := Blocked, lastError := Some(reason))])
    else db
  }

  function RequeueBlocked(db: Db, now: int): Db {
    db.(outbox := map id | id in db.outbox ::
                    if db.outbox[id].status.Blocked?
                    then db.outbox[id].(status := Pending, attempts := 0, nextAttemptAt := now, lastError := None)
                    else db.outbox[id])
  }

  function DeleteBlocked(db: Db): Db {
    db.(outbox := db.outbox - BlockedIds(db.outbox))
  }

  function DeletePending(db: Db): Db {
    db.(outbox := db.outbox - PendingIds(db.outbox))
  }

  // ----- startup -----

  predicate TokenUsable(env: Env, k: Key, stored: string) {
    DecryptToken(env.cipher, k, stored).Ok?
  }

  /** The primary key of the streams table. */
  predicate UniqueStreamIds(streams: seq<StreamRow>) {
    forall i, j :: 0 <= i < j < |streams| ==> streams[i].streamId != streams[j].streamId
  }

  function PauseIf(row: StreamRow, pause: bool): StreamRow {
    if pause then row.(status := Paused) else row
  }

  function QuarantineRow(env: Env, k: Key, row: StreamRow): StreamRow {
    PauseIf(row, !TokenUsable(env, k, row.storedToken))
  }

  function Quarantine(env: Env, k: Key, db: Db): Db {
    db.(streams := seq(|db.streams|, i requires 0 <= i < |db.streams| => QuarantineRow(env, k, db.streams[i])))
  }
}
