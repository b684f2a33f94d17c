/** What holds of every run: safe pushes, conserved rows, bounded repeats, correct backoff. */
module DeliverySafety {
  import opened Wrappers
  import opened Crypto
  import opened Store
  import opened Outbox
  import opened Interleaving
  import opened DeliveryInvariant

  // ----- push safety -----

  /** While a push is in flight the stored stream is enabled and is the one pushed to, the payload is the
      one the row was enqueued with and is addressed to that stream, and the row is pending and unchanged. */
  lemma PushSafety(env: Env, run: seq<State>, i: nat, w: nat)
    requires IsRun(env, run) && i < |run| && TaskOf(run[i], w).Pushing?
    ensures var s, t := run[i], TaskOf(run[i], w);
            && s.lock == Some(Worker(w))
            && Live(s.db, t.item)
            && Targets(env, s.key, s.db.streams, t.item.streamId, t.payload, t.stream)
            && t.item.id in s.h.queued
            && OpenPayload(env, s.key, s.h.queued[t.item.id]) == Readable(t.payload)
  {
    RunInv(env, run, i);
    assert Holder(run[i]) == TaskOf(run[i], w);
  }

  /** No two pushes overlap, and no mutation runs during one. */
  lemma PushExclusive(env: Env, run: seq<State>, i: nat, w: nat, other: nat)
    requires IsRun(env, run) && i < |run| && TaskOf(run[i], w).Pushing? && HoldsLock(TaskOf(run[i], other))
    ensures other == w && !Possible(run[i], Commit(0))
  {
    RunInv(env, run, i);
  }

  lemma {:induction false} LogAt(env: Env, log: seq<Entry>, j: nat)
    requires LogOk(env, log) && j < |log|
    ensures EntryOk(env, log[..j], log[j])
  {
    var init := log[..|log| - 1];
    if j < |init| {
      LogAt(env, init, j);
      assert init[..j] == log[..j];
    }
  }

  lemma {:induction false} LeftIsGone(log: seq<Entry>, i: nat)
    requires i < |log| && log[i].Left?
    ensures log[i].ids <= Gone(log)
  {
    if i < |log| - 1 {
      LeftIsGone(log[..|log| - 1], i);
    }
  }

  /** The last completed mutation in a log, if there is any. */
  ghost predicate LastConfigured(log: seq<Entry>, j: nat, streams: seq<StreamRow>) {
    exists c :: 0 <= c < j <= |log| && log[c] == Configured(streams)
                && forall m :: c < m < j ==> !log[m].Configured?
  }

  lemma {:induction false} ConfigIsLast(log: seq<Entry>, j: nat)
    requires j <= |log| && Config(log[..j]) != []
    ensures LastConfigured(log, j, Config(log[..j]))
  {
    var before := log[..j];
    if before[j - 1].Configured? {
      assert log[j - 1] == Configured(Config(before));
    } else {
      assert before[..j - 1] == log[..j - 1];
      ConfigIsLast(log, j - 1);
      var c :| 0 <= c < j - 1 <= |log| && log[c] == Configured(Config(before))
               && forall m :: c < m < j - 1 ==> !log[m].Configured?;
      assert forall m :: c < m < j ==> !log[m].Configured?;
    }
  }

  predicate IsPush(e: Entry) {
    e.PushBegan? || e.PushEnded?
  }

  /** In the history of every run, each push begins and ends under the configuration set by the last
      completed pause, change, replacement or deletion, and never concerns a row removed earlier. So once
      such an operation or a discard has completed, nothing it superseded is sent. */
  lemma NoStalePush(env: Env, run: seq<State>, n: nat, j: nat)
    requires IsRun(env, run) && n < |run| && j < |run[n].h.log| && IsPush(run[n].h.log[j])
    ensures var log := run[n].h.log;
            var e := log[j];
            && (exists streams :: LastConfigured(log, j, streams)
                                  && Targets(env, e.key, streams, e.stream.streamId, e.payload, e.stream))
            && (forall i :: 0 <= i < j && log[i].Left? ==> e.id !in log[i].ids)
  {
    RunInv(env, run, n);
    var log := run[n].h.log;
    LogAt(env, log, j);
    ConfigIsLast(log, j);
    forall i | 0 <= i < j && log[i].Left? ensures log[j].id !in log[i].ids {
      LeftIsGone(log[..j], i);
    }
  }

  // ----- conservation -----

  function FateIds(h: History, fate: Fate): set<nat> {
    set id | id in h.fates && h.fates[id] == fate
  }

  /** Every id ever enqueued is in exactly one of six places, at every point of every run. */
  lemma Conservation(env: Env, run: seq<State>, i: nat)
    requires IsRun(env, run) && i < |run|
    ensures var s := run[i];
            var gone := FateIds(s.h, Delivered) + FateIds(s.h, Cancelled) + FateIds(s.h, Superseded) + FateIds(s.h, Discarded);
            && s.h.queued.Keys == PendingIds(s.db.outbox) + BlockedIds(s.db.outbox) + gone
            && |s.h.queued| == |PendingIds(s.db.outbox)| + |BlockedIds(s.db.outbox)| + |FateIds(s.h, Delivered)|
                               + |FateIds(s.h, Cancelled)| + |FateIds(s.h, Superseded)| + |FateIds(s.h, Discarded)|
  {
    RunInv(env, run, i);
    var s := run[i];
    var p, b := PendingIds(s.db.outbox), BlockedIds(s.db.outbox);
    assert s.db.outbox.Keys == p + b && |p + b| == |p| + |b|;
    FatesPartition(s.h);
    assert |s.h.queued.Keys| == |s.db.outbox.Keys + s.h.fates.Keys| == |s.db.outbox.Keys| + |s.h.fates.Keys|;
  }

  lemma FatesPartition(h: History)
    ensures var d, c, u, x := FateIds(h, Delivered), FateIds(h, Cancelled), FateIds(h, Superseded), FateIds(h, Discarded);
            h.fates.Keys == d + c + u + x && |h.fates.Keys| == |d| + |c| + |u| + |x|
  {
    var d, c, u, x := FateIds(h, Delivered), FateIds(h, Cancelled), FateIds(h, Superseded), FateIds(h, Discarded);
    assert h.fates.Keys == d + c + u + x by {
      forall id | id in h.fates ensures id in d + c + u + x {
        match h.fates[id] case Delivered => case Cancelled => case Superseded => case Discarded =>
      }
    }
    assert |d + c| == |d| + |c| && |d + c + u| == |d + c| + |u| && |d + c + u + x| == |d + c + u| + |x|;
  }

  /** What the state must have been for a stored row to leave with this fate. */
  predicate Reason(env: Env, s: State, id: nat, fate: Fate) {
    id in s.db.outbox
    && match fate
       case Delivered => Completing(Holder(s), id) && Count(s.h.accepted, id) >= 1
       case Cancelled =>
         var row := s.db.outbox[id];
         && row.status.Pending? && OpenPayload(env, s.key, row.payload).Readable?
         && !Matching(env, s.key, s.db.streams, row.streamId, row.payload)
       case Superseded =>
         s.db.outbox[id].status.Pending? && s.lock.Some? && s.lock.value.Mutator? && !s.lock.value.m.DiscardPending?
       case Discarded =>
         s.db.outbox[id].status.Blocked? || s.lock == Some(Mutator(DiscardPending))
  }

  lemma RecordReason(env: Env, s: State, w: nat, t: Task, id: nat)
    requires Inv(env, s) && TaskOf(s, w) == t && t.Recording?
    requires id !in s.h.fates && id in DoRecord(s, w, t).h.fates
    ensures Reason(env, s, id, DoRecord(s, w, t).h.fates[id])
  {
    assert Holder(s) == t;
    assert Settled(s, id) ==> Count(s.h.accepted, id) >= 1;
  }

  lemma CommitReason(env: Env, s: State, m: Mutation, nonce: nat, id: nat)
    requires s.lock == Some(Mutator(m)) && id !in s.h.fates && id in DoCommit(env, s, m, nonce).h.fates
    ensures Reason(env, s, id, DoCommit(env, s, m, nonce).h.fates[id])
  {
    match m
    case Update(p) => assert UpdateStream(env, s.key, nonce, s.db, p).Updated?;
    case _ =>
  }

  lemma FatesOnlyByDeparture(env: Env, s: State, a: Action)
    requires Possible(s, a) && !a.Record? && !a.Commit? && !a.DiscardBlocked?
    ensures Step(env, s, a).h.fates == s.h.fates
  {
    match a
    case Queue(e, ds, nonce) => assert DoQueue(env, s, s.readings[e], ds, nonce).h.fates == s.h.fates;
    case Glance(w) => assert DoGlance(s, w, TaskOf(s, w)).h == s.h;
    case Select(w) => assert DoSelect(s, w, TaskOf(s, w)).h.fates == s.h.fates;
    case Reread(w) => assert DoReread(s, w, TaskOf(s, w)).h == s.h;
    case Open(w) => assert DoOpen(env, s, w, TaskOf(s, w)).h == s.h;
    case Lookup(w) => assert DoLookup(env, s, w, TaskOf(s, w)).h.fates == s.h.fates;
    case Return(w, outcome) => assert DoReturn(s, w, TaskOf(s, w), outcome).h.fates == s.h.fates;
    case Abandon(w) => assert DoAbandon(s, w, TaskOf(s, w)).h.fates == s.h.fates;
    case Crash(key') => assert DoCrash(env, s, key').h.fates == s.h.fates;
    case _ =>
  }

  lemma DiscardReason(env: Env, s: State, id: nat)
    requires id !in s.h.fates && id in Depart(s, DeleteBlocked(s.db), Discarded).h.fates
    ensures Reason(env, s, id, Depart(s, DeleteBlocked(s.db), Discarded).h.fates[id])
  {}

  lemma StepReason(env: Env, s: State, a: Action, id: nat)
    requires Inv(env, s) && Possible(s, a) && id !in s.h.fates && id in Step(env, s, a).h.fates
    ensures Reason(env, s, id, Step(env, s, a).h.fates[id])
  {
    match a
    case Record(w) => RecordReason(env, s, w, TaskOf(s, w), id);
    case Commit(nonce) => CommitReason(env, s, s.lock.value.m, nonce, id);
    case DiscardBlocked => DiscardReason(env, s, id);
    case _ => FatesOnlyByDeparture(env, s, a);
  }

  /** In every run, a row leaves as delivered only when a push of it returned True; as cancelled only when it
      opened and did not match the stored stream; as superseded only by a locked change of the stream while it
      was pending; and as discarded only when it was blocked or an operator discarded the pending rows. */
  lemma FatesHaveReasons(env: Env, run: seq<State>, n: nat, id: nat)
    requires IsRun(env, run) && n + 1 < |run| && id !in run[n].h.fates && id in run[n + 1].h.fates
    ensures Reason(env, run[n], id, run[n + 1].h.fates[id])
  {
    RunInv(env, run, n);
    assert StepAt(env, run, n);
    var a :| Possible(run[n], a) && run[n + 1] == Step(env, run[n], a);
    StepReason(env, run[n], a, id);
  }

  /** Pausing streams under one key changes nothing about what is addressed to them under another. */
  lemma QuarantineKeepsMatching(env: Env, k: Key, k0: Key, db: Db, streamId: string, text: string)
    ensures Matching(env, k0, Quarantine(env, k, db).streams, streamId, text) <==> Matching(env, k0, db.streams, streamId, text)
  {
    QuarantineFind(env, k, db.streams, Quarantine(env, k, db).streams, streamId);
  }

  lemma {:induction false} QuarantineFind(env: Env, k: Key, streams: seq<StreamRow>, streams': seq<StreamRow>, id: string)
    requires |streams'| == |streams|
    requires forall i :: 0 <= i < |streams| ==> streams'[i] == QuarantineRow(env, k, streams[i])
    ensures FindStream(streams', id)
            == match FindStream(streams, id) case None => None case Some(row) => Some(QuarantineRow(env, k, row))
  {
    if streams != [] && streams[0].streamId != id {
      assert forall i :: 0 <= i < |streams| - 1 ==> streams'[1..][i] == streams'[i + 1] && streams[1..][i] == streams[i + 1];
      QuarantineFind(env, k, streams[1..], streams'[1..], id);
    }
  }

  // ----- repeats and backoff -----

  /** A push of an id returns True at most once more than the number of times its completion was lost to a
      crash or a failed write; with none lost, at most once. A delivered row really was accepted. */
  lemma AtMostOneSuccess(env: Env, run: seq<State>, i: nat, id: nat)
    requires IsRun(env, run) && i < |run|
    ensures var h := run[i].h;
            && Count(h.accepted, id) <= Count(h.slips, id) + 1
            && (id in run[i].db.outbox && !Completing(Holder(run[i]), id) ==> Count(h.accepted, id) <= Count(h.slips, id))
            && (id in h.fates && h.fates[id].Delivered? ==> Count(h.accepted, id) >= 1)
  {
    RunInv(env, run, i);
    assert Settled(run[i], id) ==> Count(run[i].h.accepted, id) >= 1;
    assert Count(run[i].h.accepted, id) <= Count(run[i].h.slips, id) + (if Settled(run[i], id) then 1 else 0);
  }

  /** The stored attempt count of a pending row is the number of failed pushes since it was enqueued or last
      requeued, less those whose retry was lost and the one being recorded. Paused rechecks do not count. */
  lemma AttemptsCountFailures(env: Env, run: seq<State>, i: nat, id: nat)
    requires IsRun(env, run) && i < |run| && id in PendingIds(run[i].db.outbox)
    ensures var s := run[i];
            s.db.outbox[id].attempts
            == Count(s.h.failed, id) - Count(s.h.unsaved, id) - (if Failing(Holder(s), id) then 1 else 0)
  {
    RunInv(env, run, i);
  }
}
