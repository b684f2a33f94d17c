/** Queueing, retry timing and the decision made for each queued item (app/events/outbox.py). */
module Outbox {
  import opened Wrappers
  import opened Crypto
  import opened Store

  const RETRY_BASE_SECONDS: nat := 5
  const RETRY_MAX_SECONDS: nat := 3600
  const PAUSED_RECHECK_SECONDS: nat := 30

  // ----- queueing events -----

  datatype Event = Event(uri: string, body: string)

  /** Signing is outside the model: any text for an audience and an event. */
  type Signer = (string, Event) -> string

  predicate Requested(s: Stream, e: Event) {
    s.events == [] || e.uri in s.events
  }

  function Addressed(sign: Signer, s: Stream, e: Event): Delivery {
    Delivery(s, Payload(s.aud, s.endpointUrl, s.endpointToken, s.events, e.uri, sign(s.aud, e)))
  }

  function ForStream(sign: Signer, s: Stream, events: seq<Event>): seq<Delivery> {
    if events == [] then []
    else ForStream(sign, s, events[..|events| - 1])
         + if Requested(s, events[|events| - 1]) then [Addressed(sign, s, events[|events| - 1])] else []
  }

  function Deliveries(sign: Signer, streams: seq<Stream>, events: seq<Event>): seq<Delivery> {
    if streams == [] then []
    else
      var s := streams[|streams| - 1];
      Deliveries(sign, streams[..|streams| - 1], events)
      + if s.status.Enabled? then ForStream(sign, s, events) else []
  }

  lemma {:induction false} ForStreamExact(sign: Signer, s: Stream, events: seq<Event>)
    ensures forall d :: d in ForStream(sign, s, events)
                        <==> exists e :: e in events && Requested(s, e) && d == Addressed(sign, s, e)
  {
    if events != [] {
      var init, last := events[..|events| - 1], events[|events| - 1];
      ForStreamExact(sign, s, init);
      assert events == init + [last];
    }
  }

  /** Exactly the requested events of the enabled streams are queued, each carrying its stream's own address. */
  lemma {:induction false} DeliveriesExact(sign: Signer, streams: seq<Stream>, events: seq<Event>)
    ensures forall d :: d in Deliveries(sign, streams, events)
                        <==> exists s, e :: s in streams && s.status.Enabled? && e in events && Requested(s, e)
                                            && d == Addressed(sign, s, e)
  {
    if streams != [] {
      var init, last := streams[..|streams| - 1], streams[|streams| - 1];
      DeliveriesExact(sign, init, events);
      ForStreamExact(sign, last, events);
      assert streams == init + [last];
    }
  }

  /** The order of the two loops: by stream, then by event. */
  predicate Earlier(a: (nat, nat), b: (nat, nat)) {
    a.0 < b.0 || (a.0 == b.0 && a.1 < b.1)
  }

  /** Stream `i` is enabled and asks for event `j`. */
  predicate Wants(streams: seq<Stream>, events: seq<Event>, i: nat, j: nat) {
    && i < |streams| && j < |events| && streams[i].status == Enabled
    && (streams[i].events == [] || events[j].uri in streams[i].events)
  }

  /** The delivery of an event to a stream, signed for its audience. */
  predicate Carries(sign: Signer, d: Delivery, s: Stream, e: Event) {
    && d.stream == s && d.payload.eventUri == e.uri && d.payload.token == sign(s.aud, e)
    && d.payload.aud == s.aud && d.payload.endpointUrl == s.endpointUrl && d.payload.endpointToken == s.endpointToken
    && d.payload.events == s.events
  }

  /** The pairs list, once each and in order, what is wanted, and the deliveries are theirs. */
  ghost predicate ListedBy(sign: Signer, streams: seq<Stream>, events: seq<Event>, pairs: seq<(nat, nat)>, ds: seq<Delivery>) {
    && |pairs| == |ds|
    && (forall k, l :: 0 <= k < l < |pairs| ==> Earlier(pairs[k], pairs[l]))
    && (forall i: nat, j: nat :: (i, j) in pairs <==> Wants(streams, events, i, j))
    && (forall k :: 0 <= k < |pairs| ==>
          Wants(streams, events, pairs[k].0, pairs[k].1) && Carries(sign, ds[k], streams[pairs[k].0], events[pairs[k].1]))
  }

  /** The same for the first `m` events of the last stream, the streams before it being done. */
  ghost predicate Reached(streams: seq<Stream>, events: seq<Event>, n: nat, m: nat, i: nat, j: nat) {
    Wants(streams, events, i, j) && (i < n || (i == n && j < m))
  }

  ghost predicate ListedTo(
    sign: Signer, streams: seq<Stream>, events: seq<Event>, n: nat, m: nat, pairs: seq<(nat, nat)>, ds: seq<Delivery>)
  {
    && |pairs| == |ds|
    && (forall k, l :: 0 <= k < l < |pairs| ==> Earlier(pairs[k], pairs[l]))
    && (forall i: nat, j: nat :: (i, j) in pairs <==> Reached(streams, events, n, m, i, j))
    && (forall k :: 0 <= k < |pairs| ==>
          Wants(streams, events, pairs[k].0, pairs[k].1) && Carries(sign, ds[k], streams[pairs[k].0], events[pairs[k].1]))
  }

  lemma ListedNext(sign: Signer, streams: seq<Stream>, events: seq<Event>, n: nat, m: nat, pairs: seq<(nat, nat)>, ds: seq<Delivery>)
    returns (pairs': seq<(nat, nat)>)
    requires n < |streams| && m < |events| && streams[n].status.Enabled?
    requires ListedTo(sign, streams, events, n, m, pairs, ds)
    ensures ListedTo(sign, streams, events, n, m + 1, pairs',
                     ds + if Requested(streams[n], events[m]) then [Addressed(sign, streams[n], events[m])] else [])
  {
    if Requested(streams[n], events[m]) {
      pairs' := pairs + [(n, m)];
      forall k | 0 <= k < |pairs| ensures Earlier(pairs[k], (n, m)) {
        assert pairs[k] in pairs;
        assert Reached(streams, events, n, m, pairs[k].0, pairs[k].1);
      }
      forall i: nat, j: nat ensures (i, j) in pairs' <==> Reached(streams, events, n, m + 1, i, j) {
        assert (i, j) in pairs' <==> (i, j) in pairs || (i, j) == (n, m);
      }
    } else {
      pairs' := pairs;
    }
  }

  lemma ForStreamNext(sign: Signer, s: Stream, events: seq<Event>, m: nat, ds: seq<Delivery>)
    requires 0 < m <= |events|
    ensures ds + ForStream(sign, s, events[..m])
            == ds + ForStream(sign, s, events[..m - 1]) + if Requested(s, events[m - 1]) then [Addressed(sign, s, events[m - 1])] else []
  {
    assert events[..m][..m - 1] == events[..m - 1];
  }

  lemma {:induction false} ListedEvents(
    sign: Signer, streams: seq<Stream>, events: seq<Event>, n: nat, m: nat, pairs: seq<(nat, nat)>, ds: seq<Delivery>)
    returns (pairs': seq<(nat, nat)>)
    requires n < |streams| && m <= |events| && streams[n].status.Enabled?
    requires ListedTo(sign, streams, events, n, 0, pairs, ds)
    ensures ListedTo(sign, streams, events, n, m, pairs', ds + ForStream(sign, streams[n], events[..m]))
    decreases m
  {
    if m == 0 {
      pairs' := pairs;
      assert ds + ForStream(sign, streams[n], events[..0]) == ds;
    } else {
      pairs' := ListedEvents(sign, streams, events, n, m - 1, pairs, ds);
      var before := ds + ForStream(sign, streams[n], events[..m - 1]);
      pairs' := ListedNext(sign, streams, events, n, m - 1, pairs', before);
      ForStreamNext(sign, streams[n], events, m, ds);
    }
  }

  lemma {:induction false} ListedStreams(sign: Signer, streams: seq<Stream>, events: seq<Event>, n: nat)
    returns (pairs: seq<(nat, nat)>)
    requires n <= |streams|
    ensures ListedTo(sign, streams, events, n, 0, pairs, Deliveries(sign, streams[..n], events))
    decreases n
  {
    if n == 0 {
      pairs := [];
    } else {
      pairs := ListedStreams(sign, streams, events, n - 1);
      var ds := Deliveries(sign, streams[..n - 1], events);
      assert streams[..n][..n - 1] == streams[..n - 1];
      if streams[n - 1].status.Enabled? {
        pairs := ListedEvents(sign, streams, events, n - 1, |events|, pairs, ds);
        assert events[..|events|] == events;
      } else {
        assert ds + [] == ds;
      }
      StreamDone(sign, streams, events, n - 1, pairs, Deliveries(sign, streams[..n], events));
    }
  }

  /** A stream is done when all its events are, or when it is not enabled. */
  lemma StreamDone(sign: Signer, streams: seq<Stream>, events: seq<Event>, n: nat, pairs: seq<(nat, nat)>, ds: seq<Delivery>)
    requires n < |streams|
    requires ListedTo(sign, streams, events, n, if streams[n].status.Enabled? then |events| else 0, pairs, ds)
    ensures ListedTo(sign, streams, events, n + 1, 0, pairs, ds)
  {
    var m := if streams[n].status.Enabled? then |events| else 0;
    forall i: nat, j: nat ensures (i, j) in pairs <==> Reached(streams, events, n + 1, 0, i, j) {
      assert Reached(streams, events, n, m, i, j) <==> Reached(streams, events, n + 1, 0, i, j);
    }
  }

  /** One delivery is queued for each enabled stream and event it asks for, and no other: none twice, in the order
      of the streams and then of the events, each signed for its stream and carrying its addressing. */
  lemma DeliveriesListed(sign: Signer, streams: seq<Stream>, events: seq<Event>) returns (pairs: seq<(nat, nat)>)
    ensures ListedBy(sign, streams, events, pairs, Deliveries(sign, streams, events))
  {
    pairs := ListedStreams(sign, streams, events, |streams|);
    assert streams[..|streams|] == streams;
    forall i: nat, j: nat ensures (i, j) in pairs <==> Wants(streams, events, i, j) {
      assert (i, j) in pairs <==> Reached(streams, events, |streams|, 0, i, j);
    }
  }

  // ----- retry timing -----

  function Pow2(n: nat): (r: nat)
    ensures r >= 1
  {
    if n == 0 then 1 else 2 * Pow2(n - 1)
  }

  function Min(a: nat, b: nat): nat {
    if a <= b then a else b
  }

  /** Seconds to wait after the given number of failed pushes. */
  function RetryDelay(attempts: nat): nat
    requires attempts >= 1
  {
    Min(RETRY_MAX_SECONDS, RETRY_BASE_SECONDS * Pow2(Min(attempts - 1, 10)))
  }

  function TotalDelay(n: nat): nat {
    if n == 0 then 0 else TotalDelay(n - 1) + RetryDelay(n)
  }

  lemma {:induction false} Pow2Large(n: nat)
    requires n >= 10
    ensures Pow2(n) >= 1024
  {
    if n == 10 {
      assert Pow2(5) == 32;
      assert Pow2(10) == 2 * 2 * 2 * 2 * 2 * Pow2(5);
    } else {
      Pow2Large(n - 1);
    }
  }

  /** Clamping the exponent never shows: the delay is the capped exponential for every number of
      failures, and it never decreases. */
  lemma RetryDelayIsCappedExponential(n: nat)
    requires n >= 1
    ensures RetryDelay(n) == Min(3600, 5 * Pow2(n - 1))
    ensures RetryDelay(n) <= RetryDelay(n + 1) <= 2 * RetryDelay(n)
  {
    if n > 10 {
      Pow2Large(n - 1);
      Pow2Large(n);
      Pow2Large(10);
    }
  }

  /** The whole wait behind n failures in closed form, with the cap reached at the eleventh. */
  lemma {:induction false} TotalDelayClosedForm(n: nat)
    ensures n <= 10 ==> TotalDelay(n) == 5 * (Pow2(n) - 1)
    ensures n >= 10 ==> TotalDelay(n) == 5115 + 3600 * (n - 10)
  {
    if n > 0 {
      TotalDelayClosedForm(n - 1);
      RetryDelayIsCappedExponential(n);
      if n > 10 {
        Pow2Large(n - 1);
      } else {
        assert Pow2(5) == 32;
        assert n == 10 ==> Pow2(10) == 2 * 2 * 2 * 2 * 2 * Pow2(5);
        assert Pow2(n - 1) <= 512 by { Pow2Below(n - 1); }
      }
    }
  }

  lemma {:induction false} Pow2Below(n: nat)
    requires n <= 9
    ensures Pow2(n) <= 512
    decreases 9 - n
  {
    if n < 9 {
      Pow2Below(n + 1);
    } else {
      assert Pow2(4) == 16;
      assert Pow2(9) == 2 * 2 * 2 * 2 * 2 * Pow2(4);
    }
  }

  // ----- one item -----

  predicate PayloadMatches(p: Payload, s: Stream) {
    p.aud == s.aud && p.endpointUrl == s.endpointUrl && p.endpointToken == s.endpointToken && p.events == s.events
  }

  datatype Outcome = Accepted | Refused | TimedOut | Raised

  datatype Write =
    | DoComplete
    | DoCancel
    | DoBlock(reason: string)
    | DoRetry(attempts: nat, nextAttemptAt: int, reason: string)

  datatype Decision = Push(payload: Payload, stream: Stream) | Do(write: Write)

  function Examine(env: Env, k: Key, item: OutboxItem): Result<Payload, Write> {
    match OpenPayload(env, k, item.payload)
    case Unreadable => Err(DoBlock("payload_decryption_failed"))
    case Malformed => Err(DoBlock("payload_invalid"))
    case Readable(p) => Ok(p)
  }

  function Address(env: Env, k: Key, streams: seq<StreamRow>, item: OutboxItem, p: Payload, now: int): Decision {
    match FindStream(streams, item.streamId)
    case None => Do(DoCancel)
    case Some(row) =>
      var s := RowToStream(env, k, row);
      if !PayloadMatches(p, s) then Do(DoCancel)
      else if !s.status.Enabled? then Do(DoRetry(item.attempts, now + PAUSED_RECHECK_SECONDS, "stream_paused"))
      else Push(p, s)
  }

  function Retry(item: OutboxItem, now: int, reason: string): Write {
    DoRetry(item.attempts + 1, now + RetryDelay(item.attempts + 1), reason)
  }

  function Settle(item: OutboxItem, outcome: Outcome, now: int): Write {
    match outcome
    case Accepted => DoComplete
    case Refused => Retry(item, now, "delivery_failed")
    case TimedOut => Retry(item, now, "delivery_timeout")
    case Raised => Retry(item, now, "delivery_error")
  }

  function Apply(db: Db, id: nat, w: Write): Db {
    match w
    case DoComplete => RemovePending(db, id)
    case DoCancel => RemovePending(db, id)
    case DoBlock(reason) => BlockItem(db, id, reason)
    case DoRetry(attempts, next, reason) => RetryItem(db, id, attempts, next, reason)
  }

  /** `_deliver_item` when nothing else runs: the row change it ends in. */
  function Conclude(env: Env, k: Key, streams: seq<StreamRow>, item: OutboxItem, outcome: Outcome, now: int): Write {
    match Examine(env, k, item)
    case Err(w) => w
    case Ok(p) =>
      match Address(env, k, streams, item, p, now)
      case Do(w) => w
      case Push(_, _) => Settle(item, outcome, now)
  }

  type Outcomes = nat -> Outcome

  /** The loop of `deliver_pending` over a batch read earlier: rows that are no longer due are skipped. */
  function Drain(env: Env, k: Key, db: Db, items: seq<OutboxItem>, outcomes: Outcomes, now: int): (Db, nat) {
    if items == [] then (db, 0)
    else
      var (db', n) := Drain(env, k, db, items[..|items| - 1], outcomes, now);
      var id := items[|items| - 1].id;
      match DueItem(db'.outbox, id, now)
      case None => (db', n)
      case Some(item) => (Apply(db', id, Conclude(env, k, db'.streams, item, outcomes(id), now)), n + 1)
  }

  // ----- draining -----

  /** Whatever happens to an attempted item, at that clock it is not due again and no other row moved. */
  lemma AttemptLeavesDueSet(env: Env, k: Key, db: Db, id: nat, outcome: Outcome, now: int)
    requires DueItem(db.outbox, id, now).Some?
    ensures var item := DueItem(db.outbox, id, now).value;
            var db' := Apply(db, id, Conclude(env, k, db.streams, item, outcome, now));
            && DueIds(db'.outbox, now) == DueIds(db.outbox, now) - {id}
            && db'.streams == db.streams && db'.nextId == db.nextId
            && db'.outbox - {id} == db.outbox - {id}
  {
    var item := DueItem(db.outbox, id, now).value;
    var w := Conclude(env, k, db.streams, item, outcome, now);
    var db' := Apply(db, id, w);
    assert w.DoRetry? ==> w.nextAttemptAt > now by {
      if item.attempts + 1 >= 1 { RetryDelayIsCappedExponential(item.attempts + 1); }
    }
    assert forall x :: x != id ==> (x in db'.outbox <==> x in db.outbox) && (x in db.outbox ==> db'.outbox[x] == db.outbox[x]);
  }

  /** The payload of a row: its text does not decrypt or is not a JSON object, or it lacks something, or it is this. */
  predicate Opens(env: Env, k: Key, text: string, o: Opened) {
    var plain := if PREFIX <= text then env.cipher.dec(k, text[|PREFIX|..]) else None;
    if plain.None? || env.load(plain.value).NotJson? || env.load(plain.value).NotObject? then o == Unreadable
    else if env.load(plain.value).WrongTypes? then o == Malformed
    else o == Readable(env.load(plain.value).payload)
  }

  /** What a stream row has in common with a payload that is still for it. */
  predicate StillFor(env: Env, k: Key, row: StreamRow, p: Payload) {
    && row.aud == p.aud && row.endpointUrl == p.endpointUrl && row.events == p.events
    && p.endpointToken == (match DecryptToken(env.cipher, k, row.storedToken) case Ok(token) => token case Err(_) => "")
  }

  /** What becomes of a due row, from what is stored and how the push ends. A payload that does not open, or
      lacks something, blocks it; a stream that is gone or addressed otherwise removes it; a stream that is not
      enabled postpones it by thirty seconds; an accepted push removes it; and a failed one is its next attempt,
      after five seconds doubled for each failure before, up to an hour. */
  predicate RowAfterAttempt(env: Env, k: Key, db: Db, outbox': Rows, id: nat, outcome: Outcome, now: int)
    requires id in db.outbox
  {
    var row := db.outbox[id];
    var stream := FindStream(db.streams, row.streamId);
    var o := OpenPayload(env, k, row.payload);
    if o.Unreadable? then outbox' == db.outbox[id := row.(status := Blocked, lastError := Some("payload_decryption_failed"))]
    else if o.Malformed? then outbox' == db.outbox[id := row.(status := Blocked, lastError := Some("payload_invalid"))]
    else if stream.None? || !StillFor(env, k, stream.value, o.payload) then outbox' == db.outbox - {id}
    else if !stream.value.status.Enabled? then
      outbox' == db.outbox[id := row.(nextAttemptAt := now + 30, lastError := Some("stream_paused"))]
    else if outcome.Accepted? then outbox' == db.outbox - {id}
    else outbox' == db.outbox[id := row.(attempts := row.attempts + 1,
                                         nextAttemptAt := now + Min(3600, 5 * Pow2(row.attempts)),
                                         lastError := Some(ReasonOf(outcome)))]
  }

  lemma OpensIs(env: Env, k: Key, text: string)
    ensures Opens(env, k, text, OpenPayload(env, k, text))
  {}

  lemma MatchesIs(env: Env, k: Key, row: StreamRow, p: Payload)
    ensures PayloadMatches(p, RowToStream(env, k, row)) <==> StillFor(env, k, row, p)
  {}

  function ReasonOf(outcome: Outcome): string
    requires !outcome.Accepted?
  {
    if outcome.TimedOut? then "delivery_timeout" else if outcome.Raised? then "delivery_error" else "delivery_failed"
  }

  lemma SettleIs(item: OutboxItem, outcome: Outcome, now: int)
    ensures Settle(item, outcome, now)
            == if outcome.Accepted? then DoComplete
               else DoRetry(item.attempts + 1, now + Min(3600, 5 * Pow2(item.attempts)), ReasonOf(outcome))
  {
    RetryDelayIsCappedExponential(item.attempts + 1);
  }

  lemma UnopenedDoes(env: Env, k: Key, db: Db, id: nat, outcome: Outcome, now: int)
    requires DueItem(db.outbox, id, now).Some? && !OpenPayload(env, k, db.outbox[id].payload).Readable?
    ensures var item := DueItem(db.outbox, id, now).value;
            RowAfterAttempt(env, k, db, Apply(db, id, Conclude(env, k, db.streams, item, outcome, now)).outbox, id, outcome, now)
  {}

  /** The result of an opened payload, from the stream row. */
  lemma OpenedConcludes(env: Env, k: Key, streams: seq<StreamRow>, item: OutboxItem, outcome: Outcome, now: int)
    requires OpenPayload(env, k, item.payload).Readable?
    ensures var stream, p := FindStream(streams, item.streamId), OpenPayload(env, k, item.payload).payload;
            Conclude(env, k, streams, item, outcome, now)
            == if stream.None? || !StillFor(env, k, stream.value, p) then DoCancel
               else if !stream.value.status.Enabled? then DoRetry(item.attempts, now + 30, "stream_paused")
               else Settle(item, outcome, now)
  {
    if FindStream(streams, item.streamId).Some? {
      MatchesIs(env, k, FindStream(streams, item.streamId).value, OpenPayload(env, k, item.payload).payload);
    }
  }

  lemma OpenedDoes(env: Env, k: Key, db: Db, id: nat, outcome: Outcome, now: int)
    requires DueItem(db.outbox, id, now).Some? && OpenPayload(env, k, db.outbox[id].payload).Readable?
    ensures var item := DueItem(db.outbox, id, now).value;
            RowAfterAttempt(env, k, db, Apply(db, id, Conclude(env, k, db.streams, item, outcome, now)).outbox, id, outcome, now)
  {
    var item := DueItem(db.outbox, id, now).value;
    OpenedConcludes(env, k, db.streams, item, outcome, now);
    var stream, p := FindStream(db.streams, item.streamId), OpenPayload(env, k, item.payload).payload;
    if stream.None? || !StillFor(env, k, stream.value, p) {
      assert Apply(db, id, DoCancel).outbox == db.outbox - {id};
    } else if stream.value.status.Enabled? {
      SettleIs(item, outcome, now);
    }
  }

  lemma AttemptDoes(env: Env, k: Key, db: Db, id: nat, outcome: Outcome, now: int)
    requires DueItem(db.outbox, id, now).Some?
    ensures var item := DueItem(db.outbox, id, now).value;
            var db' := Apply(db, id, Conclude(env, k, db.streams, item, outcome, now));
            && RowAfterAttempt(env, k, db, db'.outbox, id, outcome, now)
            && db'.streams == db.streams && db'.nextId == db.nextId
  {
    if OpenPayload(env, k, db.outbox[id].payload).Readable? {
      OpenedDoes(env, k, db, id, outcome, now);
    } else {
      UnopenedDoes(env, k, db, id, outcome, now);
    }
  }

  /** A pass over a duplicate-free list of due rows attempts every one of them once. */
  lemma {:induction false} DrainAttemptsAll(
    env: Env, k: Key, db: Db, items: seq<OutboxItem>, outcomes: Outcomes, now: int)
    requires forall i :: 0 <= i < |items| ==> items[i].id in DueIds(db.outbox, now)
    requires forall i, j :: 0 <= i < j < |items| ==> items[i].id != items[j].id
    ensures var (db', n) := Drain(env, k, db, items, outcomes, now);
            && n == |items|
            && DueIds(db'.outbox, now) == DueIds(db.outbox, now) - BatchIds(items)
            && db'.streams == db.streams
  {
    if items != [] {
      var init, last := items[..|items| - 1], items[|items| - 1];
      DrainAttemptsAll(env, k, db, init, outcomes, now);
      var (mid, n) := Drain(env, k, db, init, outcomes, now);
      assert BatchIds(items) == BatchIds(init) + {last.id} by {
        assert forall i :: 0 <= i < |init| ==> items[i] == init[i];
        assert items[|items| - 1] == last;
      }
      assert last.id in DueIds(mid.outbox, now);
      AttemptLeavesDueSet(env, k, mid, last.id, outcomes(last.id), now);
    }
  }

  function DueCount(db: Db, now: int): nat {
    |DueIds(db.outbox, now)|
  }

  ghost function Pass(env: Env, k: Key, db: Db, outcomes: Outcomes, now: int): (Db, nat) {
    Drain(env, k, db, DueBatch(db.outbox, now), outcomes, now)
  }

  /** One call attempts the 25 oldest due rows, or all that remain, and takes them out of the due set. */
  lemma OneRound(env: Env, k: Key, db: Db, outcomes: Outcomes, now: int)
    ensures var (db', n) := Pass(env, k, db, outcomes, now);
            && n == Min(BATCH_SIZE, DueCount(db, now))
            && DueCount(db', now) == DueCount(db, now) - n
  {
    var due, batch := DueIds(db.outbox, now), DueBatch(db.outbox, now);
    BatchIsSmallest(db.outbox, due, BATCH_SIZE);
    DrainAttemptsAll(env, k, db, batch, outcomes, now);
    assert BatchIds(batch) <= due;
    BatchIdsSize(batch);
    assert |due - BatchIds(batch)| == |due| - |batch|;
  }

  /** What is left of a count after a number of passes that each take up to 25. */
  function Remaining(due: nat, rounds: nat): nat {
    if rounds == 0 then due
    else
      var before := Remaining(due, rounds - 1);
      before - Min(BATCH_SIZE, before)
  }

  lemma {:induction false} RemainingClosedForm(due: nat, rounds: nat)
    ensures Remaining(due, rounds) == if due <= 25 * rounds then 0 else due - 25 * rounds
  {
    if rounds > 0 {
      RemainingClosedForm(due, rounds - 1);
    }
  }

  ghost predicate AfterPass(env: Env, k: Key, now: int, db: Db, db': Db) {
    exists outcomes: Outcomes :: db' == Pass(env, k, db, outcomes, now).0
  }

  lemma PassDrains(env: Env, k: Key, now: int, db: Db, db': Db)
    requires AfterPass(env, k, now, db, db')
    ensures DueCount(db', now) == Remaining(DueCount(db, now), 1)
  {
    var outcomes: Outcomes :| db' == Pass(env, k, db, outcomes, now).0;
    OneRound(env, k, db, outcomes, now);
  }

  /** With the clock held, n due rows are all attempted in exactly ceil(n/25) calls to
      `deliver_pending`, whatever the outcomes of each call. */
  lemma {:induction false} RoundsDrain(env: Env, k: Key, now: int, dbs: seq<Db>, r: nat)
    requires r < |dbs|
    requires forall i :: 0 <= i < |dbs| - 1 ==> AfterPass(env, k, now, dbs[i], dbs[i + 1])
    ensures DueCount(dbs[r], now) == Remaining(DueCount(dbs[0], now), r)
    ensures DueCount(dbs[r], now) == 0 <==> DueCount(dbs[0], now) <= 25 * r
    decreases r
  {
    if r > 0 {
      RoundsDrain(env, k, now, dbs, r - 1);
      PassDrains(env, k, now, dbs[r - 1], dbs[r]);
    }
    RemainingClosedForm(DueCount(dbs[0], now), r);
  }

  lemma {:induction false} BatchIdsSize(items: seq<OutboxItem>)
    requires forall i, j :: 0 <= i < j < |items| ==> items[i].id != items[j].id
    ensures |BatchIds(items)| == |items|
  {
    if items != [] {
      var init, last := items[..|items| - 1], items[|items| - 1];
      BatchIdsSize(init);
      assert BatchIds(items) == BatchIds(init) + {last.id} by {
        assert forall i :: 0 <= i < |init| ==> items[i] == init[i];
        assert items[|items| - 1] == last;
      }
      assert last.id !in BatchIds(init);
    }
  }
}
