/** The mutating operations of app/database.py and app/events/outbox.py, in the form the program has them.

    Each method runs without interruption here; Interleaving.dfy interleaves the same transactions. */
module Database {
  import opened Wrappers
  import opened Crypto
  import opened Store
  import opened Outbox

  lemma OneMoreRow(env: Env, k: Key, nonce: nat, rows: Rows, first: nat, ds: seq<Delivery>, now: int, i: nat)
    requires i < |ds|
    ensures (rows + NewRows(env, k, nonce, first, ds[..i], now))[first + i := NewRow(env, k, nonce + i, ds[i], now)]
            == rows + NewRows(env, k, nonce, first, ds[..i + 1], now)
  {
    assert ds[..i + 1][..i] == ds[..i];
    PlusUpdate(rows, NewRows(env, k, nonce, first, ds[..i], now), first + i, NewRow(env, k, nonce + i, ds[i], now));
  }

  lemma PlusUpdate(rows: Rows, more: Rows, id: nat, row: OutboxRow)
    ensures (rows + more)[id := row] == rows + more[id := row]
  {}

  /** One item's turn in a drain that has attempted `n`. */
  function Attempted(env: Env, key: Key, db: Db, n: nat, id: nat, outcome: Outcome, now: int): (Db, nat) {
    match DueItem(db.outbox, id, now)
    case None => (db, n)
    case Some(item) => (Apply(db, id, Conclude(env, key, db.streams, item, outcome, now)), n + 1)
  }

  lemma DrainNext(env: Env, key: Key, db: Db, items: seq<OutboxItem>, i: nat, outcomes: Outcomes, now: int)
    requires i < |items|
    ensures var (db', n) := Drain(env, key, db, items[..i], outcomes, now);
            Drain(env, key, db, items[..i + 1], outcomes, now)
            == Attempted(env, key, db', n, items[i].id, outcomes(items[i].id), now)
  {
    assert items[..i + 1][..i] == items[..i];
  }

  class Connection {
    const env: Env
    var key: Key
    var streams: seq<StreamRow>
    var outbox: Rows
    var nextId: nat

    ghost function View(): Db
      reads this
    {
      Db(streams, outbox, nextId)
    }

    constructor (env: Env, key: Key)
      ensures View() == EMPTY_DB && this.env == env && this.key == key
    {
      this.env := env;
      this.key := key;
      streams := [];
      outbox := map[];
      nextId := 0;
    }

    method SaveStream(stream: Stream, nonce: nat)
      modifies this`streams, this`outbox
      ensures View() == Store.SaveStream(env, key, nonce, old(View()), stream)
    {
      outbox := outbox - PendingIds(outbox);
      streams := [];
      streams := streams + [StreamToRow(env, key, nonce, stream)];
    }

    method UpdateStream(patch: Patch, nonce: nat) returns (r: Result<Option<Stream>, string>)
      modifies this`streams, this`outbox
      ensures match Store.UpdateStream(env, key, nonce, old(View()), patch)
              case NoStream => r == Ok(None) && View() == old(View())
              case Rejected => r.Err? && View() == old(View())
              case Updated(db, stream) => r == Ok(Some(stream)) && View() == db
    {
      if streams == [] {
        return Ok(None);
      }
      var i := Newest(streams);
      var row := streams[i];
      var stream := RowToStream(env, key, row);
      var endpointUrl := Or(Or(patch.deliveryUrl, patch.bodyUrl), stream.endpointUrl);
      var token := ReplacementToken(patch);
      var storedToken := row.storedToken;
      var runtimeToken := stream.endpointToken;
      if token.Some? {
        storedToken := EncryptToken(env.cipher, key, nonce, token.value);
        runtimeToken := token.value;
      }
      var events := if patch.events.Some? then patch.events.value else stream.events;
      var status := if patch.status.Some? then patch.status.value else stream.status;
      var aud := Or(patch.aud, stream.aud);
      if status.Enabled? && StoredTokenUndecryptable(row.storedToken, stream.endpointToken) && ReplacementMissing(token) {
        return Err("Receiver endpoint token cannot be decrypted");
      }
      if aud != stream.aud || endpointUrl != stream.endpointUrl || runtimeToken != stream.endpointToken
         || events != stream.events {
        outbox := outbox - PendingOf(outbox, stream.streamId);
      } else if status.Enabled? && !stream.status.Enabled? {
        outbox := MakeDue(outbox, PendingOf(outbox, stream.streamId));
      }
      streams := streams[i := StreamRow(row.streamId, aud, endpointUrl, storedToken, events, status, row.createdAt)];
      return Ok(Some(Stream(stream.streamId, aud, endpointUrl, runtimeToken, events, status, stream.createdAt)));
    }

    method DeleteStreamById(streamId: string) returns (deleted: bool)
      modifies this`streams, this`outbox
      ensures View() == Store.DeleteStream(old(View()), streamId)
      ensures deleted == FindStream(old(streams), streamId).Some?
    {
      deleted := FindStream(streams, streamId).Some?;
      if deleted {
        streams := RemoveStream(streams, streamId);
        outbox := outbox - PendingOf(outbox, streamId);
      }
    }

    /** All or nothing: every stream is checked, then the capacity, then every row is inserted. */
    method EnqueueOutbox(deliveries: seq<Delivery>, now: int, nonce: nat) returns (r: Result<nat, EnqueueError>)
      modifies this`outbox, this`nextId
      ensures match Store.Enqueue(env, key, nonce, old(View()), now, deliveries)
              case Ok(db) => r == Ok(|deliveries|) && View() == db
              case Err(e) => r == Err(e) && View() == old(View())
    {
      if deliveries == [] {
        return Ok(0);
      }
      for i := 0 to |deliveries|
        invariant View() == old(View())
        invariant forall j :: 0 <= j < i ==> IsCurrent(env, key, streams, deliveries[j].stream)
      {
        if !IsCurrent(env, key, streams, deliveries[i].stream) {
          return Err(StreamChanged);
        }
      }
      if |outbox| + |deliveries| > MAX_OUTBOX_ITEMS {
        return Err(OutboxFull);
      }
      InsertRows(deliveries, now, nonce);
      return Ok(|deliveries|);
    }

    method InsertRows(deliveries: seq<Delivery>, now: int, nonce: nat)
      modifies this`outbox, this`nextId
      ensures nextId == old(nextId) + |deliveries|
      ensures outbox == old(outbox) + NewRows(env, key, nonce, old(nextId), deliveries, now)
    {
      ghost var rows, first := outbox, nextId;
      for i := 0 to |deliveries|
        invariant nextId == first + i
        invariant outbox == rows + NewRows(env, key, nonce, first, deliveries[..i], now)
      {
        OneMoreRow(env, key, nonce, rows, first, deliveries, now, i);
        outbox := outbox[nextId := NewRow(env, key, nonce + i, deliveries[i], now)];
        nextId := nextId + 1;
      }
      assert deliveries[..|deliveries|] == deliveries;
    }

    /** `enqueue_events`: sign every requested event of every enabled stream, then store them together. */
    method EnqueueEvents(sign: Signer, candidates: seq<Stream>, events: seq<Event>, now: int, nonce: nat)
      returns (r: Result<nat, EnqueueError>)
      modifies this`outbox, this`nextId
      ensures match Store.Enqueue(env, key, nonce, old(View()), now, Deliveries(sign, candidates, events))
              case Ok(db) => r == Ok(|Deliveries(sign, candidates, events)|) && View() == db
              case Err(e) => r == Err(e) && View() == old(View())
    {
      var deliveries := [];
      for i := 0 to |candidates|
        invariant View() == old(View())
        invariant deliveries == Deliveries(sign, candidates[..i], events)
      {
        var stream := candidates[i];
        assert candidates[..i + 1][..i] == candidates[..i];
        if stream.status.Enabled? {
          ghost var before := deliveries;
          for j := 0 to |events|
            invariant View() == old(View())
            invariant deliveries == before + ForStream(sign, stream, events[..j])
          {
            assert events[..j + 1][..j] == events[..j];
            if Requested(stream, events[j]) {
              deliveries := deliveries + [Addressed(sign, stream, events[j])];
            }
          }
          assert events[..|events|] == events;
        }
      }
      assert candidates[..|candidates|] == candidates;
      r := EnqueueOutbox(deliveries, now, nonce);
    }

    method FirstOf(ids: set<nat>) returns (id: nat)
      requires ids != {} && ids <= outbox.Keys
      ensures id in ids && forall other :: other in ids ==> NotAfter(outbox, id, other)
    {
      FirstExists(outbox, ids);
      id :| id in ids && forall other :: other in ids ==> NotAfter(outbox, id, other);
    }

    /** The due rows in delivery order, at most 25 of them. */
    method GetDueOutbox(now: int) returns (items: seq<OutboxItem>)
      ensures items == DueBatch(outbox, now)
    {
      var left := DueIds(outbox, now);
      items := [];
      while left != {} && |items| < BATCH_SIZE
        invariant left <= outbox.Keys && |items| <= BATCH_SIZE
        invariant items + Batch(outbox, left, BATCH_SIZE - |items|) == DueBatch(outbox, now)
        decreases left
      {
        var id := FirstOf(left);
        BatchTakesFirst(outbox, left, BATCH_SIZE - |items|, id, items);
        items := items + [ItemOf(id, outbox[id])];
        left := left - {id};
      }
      assert items + [] == items;
    }

    method RecordWrite(id: nat, w: Write)
      modifies this`outbox
      ensures View() == Apply(old(View()), id, w)
    {
      if id in outbox && outbox[id].status.Pending? {
        match w
        case DoComplete => outbox := outbox - {id};
        case DoCancel => outbox := outbox - {id};
        case DoBlock(reason) => outbox := outbox[id := outbox[id].(status := Blocked, lastError := Some(reason))];
        case DoRetry(attempts, next, reason) =>
          outbox := outbox[id := outbox[id].(attempts := attempts, nextAttemptAt := next, lastError := Some(reason))];
      }
    }

    /** `_deliver_item`, given how the push would end if one is made. */
    method DeliverItem(item: OutboxItem, outcome: Outcome, now: int)
      modifies this`outbox
      ensures View() == Apply(old(View()), item.id, Conclude(env, key, old(streams), item, outcome, now))
    {
      var reading := OpenPayload(env, key, item.payload);
      if reading.Unreadable? {
        RecordWrite(item.id, DoBlock("payload_decryption_failed"));
        return;
      }
      if reading.Malformed? {
        RecordWrite(item.id, DoBlock("payload_invalid"));
        return;
      }
      var row := FindStream(streams, item.streamId);
      if row.None? || !PayloadMatches(reading.payload, RowToStream(env, key, row.value)) {
        RecordWrite(item.id, DoCancel);
        return;
      }
      if !RowToStream(env, key, row.value).status.Enabled? {
        RecordWrite(item.id, DoRetry(item.attempts, now + PAUSED_RECHECK_SECONDS, "stream_paused"));
        return;
      }
      if outcome.Accepted? {
        RecordWrite(item.id, DoComplete);
      } else {
        var reason := if outcome.Refused? then "delivery_failed"
                      else if outcome.TimedOut? then "delivery_timeout" else "delivery_error";
        RecordWrite(item.id, DoRetry(item.attempts + 1, now + RetryDelay(item.attempts + 1), reason));
      }
    }

    /** The re-read of a selected row, and its delivery if it is still due. */
    method DeliverIfDue(id: nat, outcome: Outcome, now: int, n: nat) returns (attempted: nat)
      modifies this`outbox
      ensures (View(), attempted) == Attempted(env, key, old(View()), n, id, outcome, now)
    {
      var current := DueItem(outbox, id, now);
      attempted := n;
      if current.Some? {
        DeliverItem(current.value, outcome, now);
        attempted := n + 1;
      }
    }

    /** `deliver_pending` at one clock reading, with no other task running. */
    method DeliverPending(outcomes: Outcomes, now: int) returns (attempted: nat)
      modifies this`outbox
      ensures (View(), attempted) == Drain(env, key, old(View()), DueBatch(old(outbox), now), outcomes, now)
    {
      var items := GetDueOutbox(now);
      attempted := 0;
      for i := 0 to |items|
        invariant streams == old(streams) && nextId == old(nextId)
        invariant (View(), attempted) == Drain(env, key, old(View()), items[..i], outcomes, now)
      {
        DrainNext(env, key, old(View()), items, i, outcomes, now);
        attempted := DeliverIfDue(items[i].id, outcomes(items[i].id), now, attempted);
      }
      assert items[..|items|] == items;
    }

    method RequeueBlockedOutbox(now: int) returns (count: nat)
      modifies this`outbox
      ensures View() == RequeueBlocked(old(View()), now) && count == |BlockedIds(old(outbox))|
    {
      count := |BlockedIds(outbox)|;
      outbox := map id | id in outbox ::
        if outbox[id].status.Blocked?
        then outbox[id].(status := Pending, attempts := 0, nextAttemptAt := now, lastError := None)
        else outbox[id];
    }

    method DeleteBlockedOutbox() returns (count: nat)
      modifies this`outbox
      ensures View() == DeleteBlocked(old(View())) && count == |BlockedIds(old(outbox))|
    {
      count := |BlockedIds(outbox)|;
      outbox := outbox - BlockedIds(outbox);
    }

    method DeletePendingOutbox() returns (count: nat)
      modifies this`outbox
      ensures View() == DeletePending(old(View())) && count == |PendingIds(old(outbox))|
    {
      count := |PendingIds(outbox)|;
      outbox := outbox - PendingIds(outbox);
    }

    /** The startup pass of app/startup.py: collect the ids of the undecryptable rows, then pause each. */
    method QuarantineUndecryptableTokens()
      requires UniqueStreamIds(streams)
      modifies this`streams
      ensures View() == Quarantine(env, key, old(View()))
    {
      var failures := [];
      for i := 0 to |streams|
        invariant streams == old(streams)
        invariant forall j :: 0 <= j < |streams| ==>
          (streams[j].streamId in failures <==> j < i && !TokenUsable(env, key, streams[j].storedToken))
      {
        if !TokenUsable(env, key, streams[i].storedToken) {
          failures := failures + [streams[i].streamId];
        }
      }
      for n := 0 to |failures|
        invariant |streams| == |old(streams)|
        invariant forall j :: 0 <= j < |streams| ==>
          streams[j] == PauseIf(old(streams)[j], old(streams)[j].streamId in failures[..n])
      {
        assert failures[..n + 1] == failures[..n] + [failures[n]];
        var rows := streams;
        streams := seq(|rows|, j requires 0 <= j < |rows| => PauseIf(rows[j], rows[j].streamId == failures[n]));
      }
      assert failures[..|failures|] == failures;
    }
  }
}
