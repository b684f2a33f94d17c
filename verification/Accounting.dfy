/** What a synchronisation guarantees whatever the server answers: every user is counted, and no account is
    written that was reported as somebody else's. */
module Accounting {
  import opened Wrappers
  import opened Text
  import opened Records
  import opened ScimServer
  import opened Listing
  import opened Preflight
  import opened Engine

  // ----- counting -----

  function Tally(r: SyncResult): nat {
    r.created + r.updated + r.noChange + r.conflicts + r.errors
  }

  function Balance(w: World): int {
    Tally(w.result) - w.notes.doubles
  }

  predicate Bounded(r: SyncResult) {
    r.update400 <= r.errors && |r.conflictNames| <= r.conflicts
  }

  /** The call added `k` outcomes, net of doubled writes. */
  predicate Adds(cfg: Config, w: World, w': World, k: int) {
    && Balance(w') == Balance(w) + k
    && (Bounded(w.result) ==> Bounded(w'.result))
    && w'.notes.doubles >= w.notes.doubles && (!cfg.recovery ==> w'.notes.doubles == w.notes.doubles)
  }

  lemma PatchUserAdds(cfg: Config, w: World, h: nat, u: User, d: Diffs)
    requires h < |w.records| && BuildUpdate(u, cfg.mode, w.records[h].id, d).Some?
    ensures var (raised, w') := PatchUser(cfg, w, h, u, d);
            Adds(cfg, w, w', 1 - One(raised))
  {}

  lemma ApplyDiffsAdds(cfg: Config, w: World, h: nat, u: User, d: Diffs, repaired: bool)
    requires h < |w.records| && (repaired ==> cfg.recovery)
    ensures var (raised, w') := ApplyDiffs(cfg, w, h, u, d, repaired);
            Adds(cfg, w, w', 1 - One(raised) - One(repaired))
  {
    var act, w1 := Actionable(d, cfg.mode), NoteStale(w, AnyDiff(Stale(d, cfg.mode)));
    assert Adds(cfg, w, w1, 0);
    if AnyDiff(act) {
      assert BuildUpdate(u, cfg.mode, w.records[h].id, act).Some? by { UpdateBuiltIff(u, cfg.mode, w.records[h].id, d); }
      PatchUserAdds(cfg, NoteDouble(w1, repaired), h, u, act);
    }
  }

  lemma PatchExternalIdAdds(cfg: Config, w: World, h: nat, u: User)
    requires h < |w.records|
    ensures var (repair, w') := PatchExternalId(w, h, u);
            Adds(cfg, w, w', 1 - One(repair.Raised?)) && |w'.records| == |w.records|
  {}

  lemma ReconcileAdds(cfg: Config, w: World, h: nat, u: User, recovered: bool)
    requires h < |w.records|
    ensures var (raised, w') := Reconcile(cfg, w, h, u, recovered);
            Adds(cfg, w, w', 1 - One(raised))
  {
    if !(recovered && !CanRecover(cfg, w.records[h], u)) {
      var d := FieldDiffs(w.records[h], u, true);
      if recovered && d.externalId {
        PatchExternalIdAdds(cfg, w, h, u);
        var (repair, w1) := PatchExternalId(w, h, u);
        if repair.Repaired? {
          ApplyDiffsAdds(cfg, w1, h, u, FieldDiffs(w1.records[h], u, false), true);
        }
      } else {
        ApplyDiffsAdds(cfg, w, h, u, d, false);
      }
    }
  }

  lemma Handle409Adds(cfg: Config, w: World, u: User)
    ensures var (raised, w') := Handle409(cfg, w, u);
            Adds(cfg, w, w', 1 - One(raised))
  {
    var (id, w1) := Identify(w, u);
    if id.Identified? {
      ReconcileAdds(cfg, WithCell(w1, id.user), |w1.records|, u, true);
    }
  }

  lemma AfterPostAdds(cfg: Config, w: World, u: User, verify: bool, reply: Reply)
    ensures var (raised, w') := AfterPost(cfg, w, u, verify, reply);
            Adds(cfg, w, w', 1 - One(raised))
  {
    if reply.Reply? && reply.status == 409 {
      Handle409Adds(cfg, w, u);
    }
  }

  lemma CreateAdds(cfg: Config, w: World, u: User, verify: bool)
    ensures var (raised, w') := Create(cfg, w, u, verify);
            Adds(cfg, w, w', 1 - One(raised))
  {
    var (reply, w1) := Write(w, u, None, CreateUser(u));
    AfterPostAdds(cfg, w1, u, verify, reply);
  }

  lemma SyncOneAdds(cfg: Config, w: World, ix: Index, u: User, filtered: bool)
    ensures Adds(cfg, w, SyncOne(cfg, w, ix, u, filtered), 1)
  {
    match MatchUser(u, w.records, ix.byExt, ix.byUser)
    case Clash =>
    case NoMatch => CreateAdds(cfg, w, u, filtered);
    case Matched(h, byName) => ReconcileAdds(cfg, w, h, u, byName);
  }

  lemma {:induction false} SyncEachAdds(cfg: Config, w: World, ix: Index, source: seq<User>, filtered: bool)
    ensures Adds(cfg, w, SyncEach(cfg, w, ix, source, filtered), |source|)
    decreases |source|
  {
    if source != [] {
      var init := source[..|source| - 1];
      SyncEachAdds(cfg, w, ix, init, filtered);
      SyncOneAdds(cfg, SyncEach(cfg, w, ix, init, filtered), ix, source[|source| - 1], filtered);
    }
  }

  // ----- users updated twice -----

  /** The update calls among the writings. */
  function Updates(ws: seq<Writing>): nat {
    if ws == [] then 0 else Updates(ws[..|ws| - 1]) + One(ws[|ws| - 1].request.UpdateUser?)
  }

  lemma UpdatesSnoc(ws: seq<Writing>, wr: Writing)
    ensures Updates(ws + [wr]) == Updates(ws) + One(wr.request.UpdateUser?)
  {
    assert (ws + [wr])[..|ws|] == ws;
  }

  /** `n` more update calls, and whether a doubled write was noted. */
  predicate Spent(w: World, w': World, n: nat, double: bool) {
    && w.writings <= w'.writings && Updates(w'.writings) == Updates(w.writings) + n
    && w'.notes.doubles == w.notes.doubles + One(double)
  }

  /** At most two more update calls, and a doubled write noted exactly when there are two. */
  predicate SpentByTurn(w: World, w': World) {
    var n := Updates(w'.writings) - Updates(w.writings);
    0 <= n <= 2 && Spent(w, w', n, n == 2)
  }

  lemma PatchUserSpends(cfg: Config, w: World, h: nat, u: User, d: Diffs)
    requires h < |w.records| && BuildUpdate(u, cfg.mode, w.records[h].id, d).Some?
    ensures Spent(w, PatchUser(cfg, w, h, u, d).1, 1, false)
  {
    var t := w.records[h];
    var r := UpdateUser(t.id, BuildUpdate(u, cfg.mode, t.id, d).value);
    UpdatesSnoc(w.writings, Writing(u, Some(t), r, Write(w, u, Some(t), r).0, |w.net.trace|));
  }

  lemma PatchExternalIdSpends(w: World, h: nat, u: User)
    requires h < |w.records|
    ensures var (repair, w') := PatchExternalId(w, h, u);
            Spent(w, w', 1, false) && |w'.records| == |w.records|
  {
    var t := w.records[h];
    var r := UpdateUser(t.id, Patch([SetExternalId(Ext(u))]));
    UpdatesSnoc(w.writings, Writing(u, Some(t), r, Write(w, u, Some(t), r).0, |w.net.trace|));
  }

  lemma ApplyDiffsSpends(cfg: Config, w: World, h: nat, u: User, d: Diffs, repaired: bool)
    requires h < |w.records|
    ensures var act := AnyDiff(Actionable(d, cfg.mode));
            Spent(w, ApplyDiffs(cfg, w, h, u, d, repaired).1, One(act), act && repaired)
  {
    var act, w1 := Actionable(d, cfg.mode), NoteStale(w, AnyDiff(Stale(d, cfg.mode)));
    if AnyDiff(act) {
      assert BuildUpdate(u, cfg.mode, w.records[h].id, act).Some? by { UpdateBuiltIff(u, cfg.mode, w.records[h].id, d); }
      PatchUserSpends(cfg, NoteDouble(w1, repaired), h, u, act);
    }
  }

  /** The repair of a link, and the differences that are left. */
  lemma RecoverySpends(cfg: Config, w: World, h: nat, u: User)
    requires h < |w.records| && CanRecover(cfg, w.records[h], u) && FieldDiffs(w.records[h], u, true).externalId
    ensures SpentByTurn(w, Reconcile(cfg, w, h, u, true).1)
  {
    PatchExternalIdSpends(w, h, u);
    var (repair, w1) := PatchExternalId(w, h, u);
    if repair.Repaired? {
      ApplyDiffsSpends(cfg, w1, h, u, FieldDiffs(w1.records[h], u, false), true);
    }
  }

  lemma ReconcileSpends(cfg: Config, w: World, h: nat, u: User, recovered: bool)
    requires h < |w.records|
    ensures SpentByTurn(w, Reconcile(cfg, w, h, u, recovered).1)
  {
    if !(recovered && !CanRecover(cfg, w.records[h], u)) {
      var d := FieldDiffs(w.records[h], u, true);
      if recovered && d.externalId {
        RecoverySpends(cfg, w, h, u);
      } else {
        ApplyDiffsSpends(cfg, w, h, u, d, false);
      }
    }
  }

  lemma CreateSpends(cfg: Config, w: World, u: User, verify: bool)
    ensures SpentByTurn(w, Create(cfg, w, u, verify).1)
  {
    var (reply, w1) := Write(w, u, None, CreateUser(u));
    UpdatesSnoc(w.writings, Writing(u, None, CreateUser(u), reply, |w.net.trace|));
    assert Spent(w, w1, 0, false);
    AfterPostSpends(cfg, w1, u, verify, reply);
  }

  lemma AfterPostSpends(cfg: Config, w: World, u: User, verify: bool, reply: Reply)
    ensures SpentByTurn(w, AfterPost(cfg, w, u, verify, reply).1)
  {
    if reply.Reply? && reply.status == 409 {
      var (id, w1) := Identify(w, u);
      if id.Identified? {
        ReconcileSpends(cfg, WithCell(w1, id.user), |w1.records|, u, true);
      }
    }
  }

  lemma SyncOneSpends(cfg: Config, w: World, ix: Index, u: User, filtered: bool)
    ensures SpentByTurn(w, SyncOne(cfg, w, ix, u, filtered))
  {
    match MatchUser(u, w.records, ix.byExt, ix.byUser)
    case Clash =>
    case NoMatch => CreateSpends(cfg, w, u, filtered);
    case Matched(h, byName) => ReconcileSpends(cfg, w, h, u, byName);
  }

  /** The users whose turn made two update calls: the repair of the link, and another. */
  function TwiceUpdated(cfg: Config, w: World, ix: Index, source: seq<User>, filtered: bool): nat
    decreases |source|
  {
    if source == [] then 0
    else
      var init := source[..|source| - 1];
      var before, after := SyncEach(cfg, w, ix, init, filtered), SyncEach(cfg, w, ix, source, filtered);
      TwiceUpdated(cfg, w, ix, init, filtered) + One(Updates(after.writings) == Updates(before.writings) + 2)
  }

  lemma {:induction false} SyncEachSpends(cfg: Config, w: World, ix: Index, source: seq<User>, filtered: bool)
    ensures var w' := SyncEach(cfg, w, ix, source, filtered);
            w.writings <= w'.writings && w'.notes.doubles == w.notes.doubles + TwiceUpdated(cfg, w, ix, source, filtered)
    decreases |source|
  {
    if source != [] {
      var init := source[..|source| - 1];
      SyncEachSpends(cfg, w, ix, init, filtered);
      SyncOneSpends(cfg, SyncEach(cfg, w, ix, init, filtered), ix, source[|source| - 1], filtered);
    }
  }

  lemma SyncUnfolds(cfg: Config, n: Net, source: seq<User>) returns (r: Reading, n1: Net)
    requires Sync(cfg, n, source).0.Some?
    ensures ReadServer(n, source) == (Some(r), n1)
    ensures Sync(cfg, n, source).0.value == SyncEach(cfg, StartWorld(n1, r.index), r.index, source, r.filtered)
  {
    r, n1 := ReadServer(n, source).0.value, ReadServer(n, source).1;
  }

  /** `n` users counted once, and `twice` of them once more. */
  predicate Counted(cfg: Config, r: SyncResult, n: nat, twice: nat) {
    && Tally(r) == n + twice && (!cfg.recovery ==> twice == 0)
    && r.update400 <= r.errors && |r.conflictNames| <= r.conflicts
  }

  lemma EachCounted(cfg: Config, w: World, ix: Index, source: seq<User>, filtered: bool)
    requires Balance(w) == 0 && Bounded(w.result) && w.notes.doubles == 0
    ensures Counted(cfg, SyncEach(cfg, w, ix, source, filtered).result, |source|, TwiceUpdated(cfg, w, ix, source, filtered))
  {
    SyncEachAdds(cfg, w, ix, source, filtered);
    SyncEachSpends(cfg, w, ix, source, filtered);
    CountedFrom(cfg, w, SyncEach(cfg, w, ix, source, filtered), |source|, TwiceUpdated(cfg, w, ix, source, filtered));
  }

  lemma StartBalanced(n: Net, ix: Index)
    ensures Balance(StartWorld(n, ix)) == 0
  {}

  lemma StartBounded(n: Net, ix: Index)
    ensures Bounded(StartWorld(n, ix).result)
  {}

  lemma CountedFrom(cfg: Config, w: World, w': World, n: nat, twice: nat)
    requires Balance(w) == 0 && Bounded(w.result) && w.notes.doubles == 0
    requires Adds(cfg, w, w', n) && w'.notes.doubles == twice
    ensures Counted(cfg, w'.result, n, twice)
  {}

  /** Whatever the server answers, a finished run has counted every source user exactly once, plus once more
      for each user whose turn made two update calls; with recovery off, exactly once. Invalid-request errors
      are errors, and every reported name is a conflict. */
  lemma EveryUserCounted(cfg: Config, n: Net, source: seq<User>)
    ensures var run, (reading, n1) := Sync(cfg, n, source).0, ReadServer(n, source);
            run.Some? ==>
              && reading.Some?
              && var ix, filtered := reading.value.index, reading.value.filtered;
                 Counted(cfg, run.value.result, |source|, TwiceUpdated(cfg, StartWorld(n1, ix), ix, source, filtered))
  {
    if Sync(cfg, n, source).0.Some? {
      var r, n1 := SyncUnfolds(cfg, n, source);
      StartBalanced(n1, r.index);
      StartBounded(n1, r.index);
      EachCounted(cfg, StartWorld(n1, r.index), r.index, source, r.filtered);
    }
  }

  // ----- what the counters mean -----

  datatype Kind = UpdateAccepted | UpdateInvalid | UpdateFailed | CreationAccepted | CreationFailed

  predicate Is(wr: Writing, kind: Kind) {
    var status := if wr.reply.Reply? then wr.reply.status else 0;
    match kind
    case UpdateAccepted => wr.request.UpdateUser? && (status == 200 || status == 204)
    case UpdateInvalid => wr.request.UpdateUser? && status == 400
    case UpdateFailed => wr.request.UpdateUser? && status != 200 && status != 204
    case CreationAccepted => wr.request.CreateUser? && (status == 200 || status == 201)
    case CreationFailed => wr.request.CreateUser? && status != 200 && status != 201 && status != 409
  }

  function Tallied(ws: seq<Writing>, kind: Kind): nat {
    if ws == [] then 0 else Tallied(ws[..|ws| - 1], kind) + if Is(ws[|ws| - 1], kind) then 1 else 0
  }

  lemma TalliedSnoc(ws: seq<Writing>, wr: Writing, kind: Kind)
    ensures Tallied(ws + [wr], kind) == Tallied(ws, kind) + if Is(wr, kind) then 1 else 0
  {
    assert (ws + [wr])[..|ws|] == ws;
  }

  lemma TalliedMore(ws: seq<Writing>, wr: Writing)
    ensures forall kind :: Tallied(ws + [wr], kind) == Tallied(ws, kind) + if Is(wr, kind) then 1 else 0
  {
    forall kind ensures Tallied(ws + [wr], kind) == Tallied(ws, kind) + if Is(wr, kind) then 1 else 0 {
      TalliedSnoc(ws, wr, kind);
    }
  }

  /** The counters against the numbers of accepted, invalid and failed updates and creations; `k` failures are
      still to be counted. */
  predicate Agrees(cfg: Config, verify: bool, r: SyncResult, notes: Notes, accepted: nat, invalid: nat, failed: nat, created: nat, k: int) {
    && r.update400 == invalid
    && r.updated + notes.unverified == accepted
    && r.created + notes.unconfirmed == created
    && r.errors + k == failed + notes.unverified + notes.unconfirmed + notes.unresolved
    && (!cfg.recovery ==> notes.unverified == 0) && (!verify ==> notes.unconfirmed == 0)
  }

  predicate Meant(cfg: Config, verify: bool, w: World, k: int) {
    Agrees(cfg, verify, w.result, w.notes, Tallied(w.writings, UpdateAccepted), Tallied(w.writings, UpdateInvalid),
           Tallied(w.writings, UpdateFailed) + Tallied(w.writings, CreationFailed), Tallied(w.writings, CreationAccepted), k)
  }

  /** One more update with this answer, counted as the program counts it. */
  lemma UpdateAgrees(cfg: Config, verify: bool, w: World, a: nat, i: nat, f: nat, c: nat, wr: Writing)
    requires Agrees(cfg, verify, w.result, w.notes, a, i, f, c, 0) && wr.request.UpdateUser?
    ensures var a', i', f' := a + One(Is(wr, UpdateAccepted)), i + One(Is(wr, UpdateInvalid)), f + One(Is(wr, UpdateFailed));
            && (wr.reply.NetworkError? ==> Agrees(cfg, verify, w.result, w.notes, a', i', f', c, 1))
            && (Is(wr, UpdateAccepted) ==>
                  && Agrees(cfg, verify, CountUpdated(w).result, w.notes, a', i', f', c, 0)
                  && (cfg.recovery ==> Agrees(cfg, verify, Unverified(w).result, Unverified(w).notes, a', i', f', c, 0)))
            && (wr.reply.Reply? && !Is(wr, UpdateAccepted) ==>
                  Agrees(cfg, verify, WriteError(w, wr.reply.status).result, w.notes, a', i', f', c, 0))
  {}

  /** The same for the history of a run, with the write added. */
  lemma UpdateAdded(cfg: Config, verify: bool, w: World, w1: World, wr: Writing)
    requires Meant(cfg, verify, w, 0) && wr.request.UpdateUser?
    requires w1.result == w.result && w1.notes == w.notes && w1.writings == w.writings + [wr]
    ensures wr.reply.NetworkError? ==> Meant(cfg, verify, w1, 1)
    ensures Is(wr, UpdateAccepted) ==> Meant(cfg, verify, CountUpdated(w1), 0) && (cfg.recovery ==> Meant(cfg, verify, Unverified(w1), 0))
    ensures wr.reply.Reply? && !Is(wr, UpdateAccepted) ==> Meant(cfg, verify, WriteError(w1, wr.reply.status), 0)
  {
    TalliedMore(w.writings, wr);
    UpdateAgrees(cfg, verify, w, Tallied(w.writings, UpdateAccepted), Tallied(w.writings, UpdateInvalid),
                 Tallied(w.writings, UpdateFailed) + Tallied(w.writings, CreationFailed), Tallied(w.writings, CreationAccepted), wr);
  }

  lemma UpdateWritten(cfg: Config, verify: bool, w: World, u: User, target: User, update: Update)
    requires Meant(cfg, verify, w, 0)
    ensures var (reply, w1) := Write(w, u, Some(target), UpdateUser(target.id, update));
            match reply
            case NetworkError => Meant(cfg, verify, w1, 1)
            case Reply(status, _) =>
              if status == 200 || status == 204
              then Meant(cfg, verify, CountUpdated(w1), 0) && (cfg.recovery ==> Meant(cfg, verify, Unverified(w1), 0))
              else Meant(cfg, verify, WriteError(w1, status), 0)
  {
    var r := UpdateUser(target.id, update);
    var (reply, w1) := Write(w, u, Some(target), r);
    UpdateAdded(cfg, verify, w, w1, Writing(u, Some(target), r, reply, |w.net.trace|));
  }

  lemma PatchUserMeant(cfg: Config, verify: bool, w: World, h: nat, u: User, d: Diffs)
    requires h < |w.records| && BuildUpdate(u, cfg.mode, w.records[h].id, d).Some? && Meant(cfg, verify, w, 0)
    ensures var (raised, w') := PatchUser(cfg, w, h, u, d);
            Meant(cfg, verify, w', One(raised))
  {
    UpdateWritten(cfg, verify, w, u, w.records[h], BuildUpdate(u, cfg.mode, w.records[h].id, d).value);
  }

  lemma PatchExternalIdMeant(cfg: Config, verify: bool, w: World, h: nat, u: User)
    requires h < |w.records| && Meant(cfg, verify, w, 0) && cfg.recovery
    ensures var (repair, w') := PatchExternalId(w, h, u);
            Meant(cfg, verify, w', One(repair.Raised?)) && |w'.records| == |w.records|
  {
    UpdateWritten(cfg, verify, w, u, w.records[h], Patch([SetExternalId(Ext(u))]));
  }

  lemma ApplyDiffsMeant(cfg: Config, verify: bool, w: World, h: nat, u: User, d: Diffs, repaired: bool)
    requires h < |w.records| && Meant(cfg, verify, w, 0)
    ensures var (raised, w') := ApplyDiffs(cfg, w, h, u, d, repaired);
            Meant(cfg, verify, w', One(raised))
  {
    var act, w1 := Actionable(d, cfg.mode), NoteStale(w, AnyDiff(Stale(d, cfg.mode)));
    if AnyDiff(act) {
      assert BuildUpdate(u, cfg.mode, w.records[h].id, act).Some? by { UpdateBuiltIff(u, cfg.mode, w.records[h].id, d); }
      PatchUserMeant(cfg, verify, NoteDouble(w1, repaired), h, u, act);
    }
  }

  lemma ReconcileMeant(cfg: Config, verify: bool, w: World, h: nat, u: User, recovered: bool)
    requires h < |w.records| && Meant(cfg, verify, w, 0)
    ensures var (raised, w') := Reconcile(cfg, w, h, u, recovered);
            Meant(cfg, verify, w', One(raised))
  {
    if !(recovered && !CanRecover(cfg, w.records[h], u)) {
      var d := FieldDiffs(w.records[h], u, true);
      if recovered && d.externalId {
        PatchExternalIdMeant(cfg, verify, w, h, u);
        var (repair, w1) := PatchExternalId(w, h, u);
        if repair.Repaired? {
          ApplyDiffsMeant(cfg, verify, w1, h, u, FieldDiffs(w1.records[h], u, false), true);
        }
      } else {
        ApplyDiffsMeant(cfg, verify, w, h, u, d, false);
      }
    }
  }

  lemma Handle409Meant(cfg: Config, verify: bool, w: World, u: User)
    requires Meant(cfg, verify, w, 0)
    ensures var (raised, w') := Handle409(cfg, w, u);
            Meant(cfg, verify, w', One(raised))
  {
    var (id, w1) := Identify(w, u);
    if id.Identified? {
      ReconcileMeant(cfg, verify, WithCell(w1, id.user), |w1.records|, u, true);
    }
  }

  lemma CreationAdded(cfg: Config, verify: bool, before: World, w: World, wr: Writing)
    requires Meant(cfg, verify, before, 0) && wr.request.CreateUser?
    requires w.result == before.result && w.notes == before.notes && w.writings == before.writings + [wr]
    ensures wr.reply.NetworkError? ==> Meant(cfg, verify, w, 1)
    ensures Is(wr, CreationAccepted) ==> Meant(cfg, verify, CountCreated(w), 0) && (verify ==> Meant(cfg, verify, Unconfirmed(w), 0))
    ensures wr.reply.Reply? && Is(wr, CreationFailed) ==> Meant(cfg, verify, Error(w), 0)
    ensures !Is(wr, CreationAccepted) && !Is(wr, CreationFailed) ==> Meant(cfg, verify, w, 0)
  {
    TalliedMore(before.writings, wr);
  }

  lemma ConfirmMeant(cfg: Config, verify: bool, w: World, u: User, body: Body)
    requires Meant(cfg, verify, CountCreated(w), 0) && (verify ==> Meant(cfg, verify, Unconfirmed(w), 0))
    ensures Meant(cfg, verify, Confirm(w, u, verify, body), 0)
  {
    if verify {
      var (ok, w') := VerifyCreated(w, u, body);
      assert w'.(net := w.net) == w;
    }
  }

  lemma AfterPostMeant(cfg: Config, verify: bool, before: World, w: World, u: User, wr: Writing)
    requires Meant(cfg, verify, before, 0) && wr.request.CreateUser?
    requires w.result == before.result && w.notes == before.notes && w.writings == before.writings + [wr]
    ensures var (raised, w') := AfterPost(cfg, w, u, verify, wr.reply);
            Meant(cfg, verify, w', One(raised))
  {
    CreationAdded(cfg, verify, before, w, wr);
    if Is(wr, CreationAccepted) {
      ConfirmMeant(cfg, verify, w, u, wr.reply.body);
    } else if wr.reply.Reply? && wr.reply.status == 409 {
      Handle409Meant(cfg, verify, w, u);
    }
  }

  lemma CreateMeant(cfg: Config, verify: bool, w: World, u: User)
    requires Meant(cfg, verify, w, 0)
    ensures var (raised, w') := Create(cfg, w, u, verify);
            Meant(cfg, verify, w', One(raised))
  {
    var (reply, w1) := Write(w, u, None, CreateUser(u));
    AfterPostMeant(cfg, verify, w, w1, u, Writing(u, None, CreateUser(u), reply, |w.net.trace|));
  }

  lemma SyncOneMeant(cfg: Config, w: World, ix: Index, u: User, filtered: bool)
    requires Meant(cfg, filtered, w, 0)
    ensures Meant(cfg, filtered, SyncOne(cfg, w, ix, u, filtered), 0)
  {
    match MatchUser(u, w.records, ix.byExt, ix.byUser)
    case Clash =>
    case NoMatch => CreateMeant(cfg, filtered, w, u);
    case Matched(h, byName) => ReconcileMeant(cfg, filtered, w, h, u, byName);
  }

  lemma {:induction false} SyncEachMeant(cfg: Config, w: World, ix: Index, source: seq<User>, filtered: bool)
    requires Meant(cfg, filtered, w, 0)
    ensures Meant(cfg, filtered, SyncEach(cfg, w, ix, source, filtered), 0)
    decreases |source|
  {
    if source != [] {
      var init := source[..|source| - 1];
      SyncEachMeant(cfg, w, ix, init, filtered);
      SyncOneMeant(cfg, SyncEach(cfg, w, ix, init, filtered), ix, source[|source| - 1], filtered);
    }
  }

  /** Whatever the server answers, the counters say exactly what it answered. Invalid requests are the updates
      answered with 400. Accepted updates are those counted and the link repairs that could not be verified;
      accepted creations are those counted and the ones that could not be confirmed. Errors are the other failed
      writes, both of these, and the refused creations that could not be resolved. Without recovery no repair is
      made, and with a complete listing nothing needs confirming. */
  lemma CountersMeanAnswers(cfg: Config, n: Net, source: seq<User>)
    ensures var run, reading := Sync(cfg, n, source).0, ReadServer(n, source).0;
            (run.Some? <==> reading.Some?) && (run.Some? ==> Meant(cfg, reading.value.filtered, run.value, 0))
  {
    if Sync(cfg, n, source).0.Some? {
      var r, n1 := SyncUnfolds(cfg, n, source);
      SyncEachMeant(cfg, StartWorld(n1, r.index), r.index, source, r.filtered);
    }
  }

  // ----- who is written -----

  /** The request for the differences the mode writes, of a record that is linked to the user. */
  predicate ForDifferences(cfg: Config, t: User, u: User, update: Update) {
    var act := Actionable(FieldDiffs(t, u, true), cfg.mode);
    Ext(u) != "" && Ext(t) == Ext(u) && AnyDiff(act) && BuildUpdate(u, cfg.mode, t.id, act) == Some(update)
  }

  /** The repair of the link of an unlinked record of the user's name. */
  predicate ForLink(cfg: Config, t: User, u: User, update: Update) {
    cfg.recovery && Ext(u) != "" && Ext(t) == "" && Name(t) == Name(u) && update == Patch([SetExternalId(Ext(u))])
  }

  predicate Justified(cfg: Config, wr: Writing) {
    match wr.request
    case UpdateUser(id, update) =>
      wr.target.Some? && id == wr.target.value.id
      && (ForDifferences(cfg, wr.target.value, wr.source, update) || ForLink(cfg, wr.target.value, wr.source, update))
    case CreateUser(body) => body == wr.source
    case _ => false
  }

  ghost predicate AllJustified(cfg: Config, w: World) {
    forall i :: 0 <= i < |w.writings| ==> Justified(cfg, w.writings[i])
  }

  /** The indexes still lead to records with the right key, although cells may have been overwritten. */
  ghost predicate CellsOk(records: seq<User>, ix: Index) {
    && (forall k :: k in ix.byExt ==> ix.byExt[k] < |records| && (k != "" ==> Ext(records[ix.byExt[k]]) == k))
    && (forall k :: k in ix.byUser ==> ix.byUser[k] < |records| && Name(records[ix.byUser[k]]) == k)
  }

  /** Cell `h` may be new, or was overwritten with the same name and a link where there was none. */
  predicate CellsFollow(records: seq<User>, records': seq<User>, h: nat) {
    && |records| <= |records'|
    && (forall i :: 0 <= i < |records| && i != h ==> records'[i] == records[i])
    && (h < |records| ==> records'[h] == records[h] || (Ext(records[h]) == "" && Name(records'[h]) == Name(records[h])))
  }

  lemma CellsKept(records: seq<User>, records': seq<User>, ix: Index, h: nat)
    requires CellsOk(records, ix) && CellsFollow(records, records', h)
    ensures CellsOk(records', ix)
  {}

  lemma PatchUserJustified(cfg: Config, w: World, h: nat, u: User)
    requires h < |w.records| && AllJustified(cfg, w) && Ext(w.records[h]) == Ext(u) && Ext(u) != ""
    requires AnyDiff(Actionable(FieldDiffs(w.records[h], u, true), cfg.mode))
    requires BuildUpdate(u, cfg.mode, w.records[h].id, Actionable(FieldDiffs(w.records[h], u, true), cfg.mode)).Some?
    ensures var w' := PatchUser(cfg, w, h, u, Actionable(FieldDiffs(w.records[h], u, true), cfg.mode)).1;
            AllJustified(cfg, w') && w'.records == w.records
  {}

  lemma ApplyDiffsJustified(cfg: Config, w: World, h: nat, u: User, d: Diffs, repaired: bool)
    requires h < |w.records| && AllJustified(cfg, w) && Ext(w.records[h]) == Ext(u) && Ext(u) != ""
    requires d == FieldDiffs(w.records[h], u, true)
    ensures var w' := ApplyDiffs(cfg, w, h, u, d, repaired).1;
            AllJustified(cfg, w') && w'.records == w.records
  {
    var act, w1 := Actionable(d, cfg.mode), NoteStale(w, AnyDiff(Stale(d, cfg.mode)));
    if AnyDiff(act) {
      assert BuildUpdate(u, cfg.mode, w.records[h].id, act).Some? by { UpdateBuiltIff(u, cfg.mode, w.records[h].id, d); }
      PatchUserJustified(cfg, NoteDouble(w1, repaired), h, u);
    }
  }

  lemma PatchExternalIdJustified(cfg: Config, w: World, h: nat, u: User)
    requires h < |w.records| && AllJustified(cfg, w)
    requires cfg.recovery && Ext(u) != "" && Ext(w.records[h]) == "" && Name(w.records[h]) == Name(u)
    ensures var (repair, w') := PatchExternalId(w, h, u);
            && AllJustified(cfg, w') && |w'.records| == |w.records|
            && (forall i :: 0 <= i < |w.records| && i != h ==> w'.records[i] == w.records[i])
            && (!repair.Repaired? ==> w'.records == w.records)
            && (repair.Repaired? ==> Ext(w'.records[h]) == Ext(u) && Name(w'.records[h]) == Name(u))
  {}

  lemma ReconcileJustified(cfg: Config, w: World, h: nat, u: User, recovered: bool)
    requires h < |w.records| && AllJustified(cfg, w)
    requires if recovered then Name(w.records[h]) == Name(u) else Ext(w.records[h]) == Ext(u) && Ext(u) != ""
    ensures var w' := Reconcile(cfg, w, h, u, recovered).1;
            AllJustified(cfg, w') && CellsFollow(w.records, w'.records, h)
  {
    if !(recovered && !CanRecover(cfg, w.records[h], u)) {
      var d := FieldDiffs(w.records[h], u, true);
      if recovered && d.externalId {
        PatchExternalIdJustified(cfg, w, h, u);
        var (repair, w1) := PatchExternalId(w, h, u);
        if repair.Repaired? {
          assert FieldDiffs(w1.records[h], u, false) == FieldDiffs(w1.records[h], u, true);
          ApplyDiffsJustified(cfg, w1, h, u, FieldDiffs(w1.records[h], u, true), true);
        }
      } else {
        ApplyDiffsJustified(cfg, w, h, u, d, false);
      }
    }
  }

  lemma VerifiedHasName(w: World, u: User, found: User)
    requires VerifyFound(w, u, found).0.Some?
    ensures Name(VerifyFound(w, u, found).0.value) == Name(u)
  {
    ListingSound(w.net);
    var (listed, n1) := ListAll(w.net);
    if listed.NeedsLookups? {
      LookupAllSound(n1, [u], listed.sample);
    }
  }

  lemma IdentifiedHasName(w: World, u: User)
    requires Identify(w, u).0.Identified?
    ensures Name(Identify(w, u).0.user) == Name(u)
  {
    var (page, net) := FetchPage(w.net, Filter(ByUserName, u.userName));
    if page.value.start == Num(0) {
      VerifiedHasName(w.(net := net), u, ValidatePage(FromZero(page.value), 1, None).value.0[0]);
    }
  }

  lemma Handle409Justified(cfg: Config, w: World, u: User)
    requires AllJustified(cfg, w)
    ensures var w' := Handle409(cfg, w, u).1;
            AllJustified(cfg, w') && CellsFollow(w.records, w'.records, |w.records|)
  {
    var (id, w1) := Identify(w, u);
    if id.Identified? {
      IdentifiedHasName(w, u);
      ReconcileJustified(cfg, WithCell(w1, id.user), |w1.records|, u, true);
    }
  }

  lemma AfterPostJustified(cfg: Config, w: World, u: User, verify: bool, reply: Reply)
    requires AllJustified(cfg, w)
    ensures var w' := AfterPost(cfg, w, u, verify, reply).1;
            AllJustified(cfg, w') && CellsFollow(w.records, w'.records, |w.records|)
  {
    if reply.Reply? && reply.status == 409 {
      Handle409Justified(cfg, w, u);
    }
  }

  lemma CreateJustified(cfg: Config, w: World, u: User, verify: bool)
    requires AllJustified(cfg, w)
    ensures var w' := Create(cfg, w, u, verify).1;
            AllJustified(cfg, w') && CellsFollow(w.records, w'.records, |w.records|)
  {
    var (reply, w1) := Write(w, u, None, CreateUser(u));
    AfterPostJustified(cfg, w1, u, verify, reply);
  }

  /** The turn of a user with a blank externalId finds a record under the key "", which is kept for blank ones,
      and has something to write. The name of that record may be anything. */
  predicate Misled(cfg: Config, w: World, ix: Index, u: User) {
    var m := MatchUser(u, w.records, ix.byExt, ix.byUser);
    Ext(u) == "" && m.Matched? && !m.byName && AnyDiff(Actionable(FieldDiffs(w.records[m.h], u, true), cfg.mode))
  }

  /** One update call was made, for the user and of the record. */
  predicate UpdatesRecord(w: World, w': World, u: User, t: User) {
    && |w'.writings| == |w.writings| + 1 && w.writings <= w'.writings
    && IsUpdateOf(w'.writings[|w.writings|], u, t)
  }

  predicate IsUpdateOf(wr: Writing, u: User, t: User) {
    wr.source == u && wr.target == Some(t) && wr.request.UpdateUser? && wr.request.id == t.id
  }

  lemma DifferencesWritten(cfg: Config, w: World, h: nat, u: User)
    requires h < |w.records| && AnyDiff(Actionable(FieldDiffs(w.records[h], u, true), cfg.mode))
    ensures UpdatesRecord(w, Reconcile(cfg, w, h, u, false).1, u, w.records[h])
  {
    var d := FieldDiffs(w.records[h], u, true);
    UpdateBuiltIff(u, cfg.mode, w.records[h].id, d);
    PatchWrites(cfg, NoteStale(w, AnyDiff(Stale(d, cfg.mode))), h, u, Actionable(d, cfg.mode));
  }

  lemma PatchWrites(cfg: Config, w: World, h: nat, u: User, d: Diffs)
    requires h < |w.records| && BuildUpdate(u, cfg.mode, w.records[h].id, d).Some?
    ensures UpdatesRecord(w, PatchUser(cfg, w, h, u, d).1, u, w.records[h])
  {}

  /** A misled turn writes to the record under the key "", whosever it is. */
  lemma MisledWrites(cfg: Config, w: World, ix: Index, u: User, filtered: bool)
    requires Misled(cfg, w, ix, u)
    ensures "" in ix.byExt && ix.byExt[""] < |w.records|
    ensures UpdatesRecord(w, SyncOne(cfg, w, ix, u, filtered), u, w.records[ix.byExt[""]])
  {
    DifferencesWritten(cfg, w, ix.byExt[""], u);
  }

  lemma MisledUnjustified(cfg: Config, w: World, ix: Index, u: User, filtered: bool)
    requires Misled(cfg, w, ix, u)
    ensures !AllJustified(cfg, SyncOne(cfg, w, ix, u, filtered))
  {
    MisledWrites(cfg, w, ix, u, filtered);
    assert !Justified(cfg, SyncOne(cfg, w, ix, u, filtered).writings[|w.writings|]);
  }

  lemma BlankJustified(cfg: Config, w: World, h: nat, u: User)
    requires h < |w.records| && AllJustified(cfg, w) && !AnyDiff(Actionable(FieldDiffs(w.records[h], u, true), cfg.mode))
    ensures var w' := Reconcile(cfg, w, h, u, false).1;
            AllJustified(cfg, w') && CellsFollow(w.records, w'.records, h)
  {}

  lemma MatchJustified(cfg: Config, w: World, ix: Index, u: User, filtered: bool)
    requires AllJustified(cfg, w) && CellsOk(w.records, ix) && !Misled(cfg, w, ix, u)
    requires MatchUser(u, w.records, ix.byExt, ix.byUser).Matched?
    ensures var w' := SyncOne(cfg, w, ix, u, filtered);
            AllJustified(cfg, w') && CellsOk(w'.records, ix)
  {
    var w', m := SyncOne(cfg, w, ix, u, filtered), MatchUser(u, w.records, ix.byExt, ix.byUser);
    if Ext(u) == "" && !m.byName {
      BlankJustified(cfg, w, m.h, u);
    } else {
      ReconcileJustified(cfg, w, m.h, u, m.byName);
    }
    CellsKept(w.records, w'.records, ix, m.h);
  }

  lemma SyncOneJustified(cfg: Config, w: World, ix: Index, u: User, filtered: bool)
    requires AllJustified(cfg, w) && CellsOk(w.records, ix) && !Misled(cfg, w, ix, u)
    ensures var w' := SyncOne(cfg, w, ix, u, filtered);
            AllJustified(cfg, w') && CellsOk(w'.records, ix)
  {
    match MatchUser(u, w.records, ix.byExt, ix.byUser)
    case Clash =>
    case NoMatch =>
      CreateJustified(cfg, w, u, filtered);
      CellsKept(w.records, SyncOne(cfg, w, ix, u, filtered).records, ix, |w.records|);
    case Matched(_, _) => MatchJustified(cfg, w, ix, u, filtered);
  }

  /** No turn is misled, each with the records as the turns before it left them. */
  predicate NobodyMisled(cfg: Config, w: World, ix: Index, source: seq<User>, filtered: bool)
    decreases |source|
  {
    source == []
    || (var init := source[..|source| - 1];
        NobodyMisled(cfg, w, ix, init, filtered)
        && !Misled(cfg, SyncEach(cfg, w, ix, init, filtered), ix, source[|source| - 1]))
  }

  lemma JustifiedBefore(cfg: Config, w: World, w': World)
    requires w.writings <= w'.writings && AllJustified(cfg, w')
    ensures AllJustified(cfg, w)
  {
    forall i | 0 <= i < |w.writings| ensures Justified(cfg, w.writings[i]) {
      assert w.writings[i] == w'.writings[i];
    }
  }

  lemma {:induction false} SyncEachJustified(cfg: Config, w: World, ix: Index, source: seq<User>, filtered: bool)
    requires AllJustified(cfg, w) && CellsOk(w.records, ix)
    ensures var w' := SyncEach(cfg, w, ix, source, filtered);
            && (AllJustified(cfg, w') <==> NobodyMisled(cfg, w, ix, source, filtered))
            && (AllJustified(cfg, w') ==> CellsOk(w'.records, ix))
    decreases |source|
  {
    if source != [] {
      var init, u := source[..|source| - 1], source[|source| - 1];
      var w1 := SyncEach(cfg, w, ix, init, filtered);
      SyncEachJustified(cfg, w, ix, init, filtered);
      SyncOneSpends(cfg, w1, ix, u, filtered);
      if AllJustified(cfg, w1) {
        TurnJustified(cfg, w1, ix, u, filtered);
      } else if AllJustified(cfg, SyncOne(cfg, w1, ix, u, filtered)) {
        JustifiedBefore(cfg, w1, SyncOne(cfg, w1, ix, u, filtered));
      }
    }
  }

  lemma TurnJustified(cfg: Config, w: World, ix: Index, u: User, filtered: bool)
    requires AllJustified(cfg, w) && CellsOk(w.records, ix)
    ensures var w' := SyncOne(cfg, w, ix, u, filtered);
            && (AllJustified(cfg, w') <==> !Misled(cfg, w, ix, u))
            && (AllJustified(cfg, w') ==> CellsOk(w'.records, ix))
  {
    if Misled(cfg, w, ix, u) {
      MisledUnjustified(cfg, w, ix, u, filtered);
    } else {
      SyncOneJustified(cfg, w, ix, u, filtered);
    }
  }

  /** Nobody is misled when every source user has an externalId, or no listed record has a blank one. */
  lemma {:induction false} RarelyMisled(cfg: Config, w: World, ix: Index, source: seq<User>, filtered: bool)
    requires "" !in ix.byExt || forall i :: 0 <= i < |source| ==> Ext(source[i]) != ""
    ensures NobodyMisled(cfg, w, ix, source, filtered)
    decreases |source|
  {
    if source != [] {
      RarelyMisled(cfg, w, ix, source[..|source| - 1], filtered);
    }
  }

  const STRANGER := User("1", " ", "a", "", "", [], true)
  const UNNUMBERED := User("", "", "b", "", "", [], true)

  lemma StrangerIndexed()
    ensures IndexAll(EMPTY_INDEX, [STRANGER]) == Some(Index([STRANGER], map["" := 0], map["a" := 0]))
    ensures IndexOk(Index([STRANGER], map["" := 0], map["a" := 0]))
    ensures Name(STRANGER) == "a" && Name(UNNUMBERED) == "b"
  {
    assert Trimmed("a") && Trimmed("b") && Trimmed("1");
    assert Lower("a") == "a" && Lower("b") == "b";
    assert Strip(" ") == Strip(" "[1..]) == "";
    assert Indexable(EMPTY_INDEX, STRANGER);
    assert AddUnchecked(EMPTY_INDEX, STRANGER) == Index([STRANGER], map["" := 0], map["a" := 0]);
    IndexAllOk(EMPTY_INDEX, [STRANGER]);
    assert IndexAll(EMPTY_INDEX, [STRANGER]) == IndexAll(AddUnchecked(EMPTY_INDEX, STRANGER), [STRANGER][1..]);
  }

  /** It happens: a listed account whose externalId is a space, and a source user without one and of another
      name. The account is updated for that user, whatever the server answers. */
  lemma StrangerUpdated(cfg: Config, n: Net)
    requires cfg.mode == PatchAll || cfg.mode == ReplaceAll || cfg.mode == UsernameOnly
    ensures IndexAll(EMPTY_INDEX, [STRANGER]).Some? && IndexOk(IndexAll(EMPTY_INDEX, [STRANGER]).value)
    ensures var ix := IndexAll(EMPTY_INDEX, [STRANGER]).value;
            var w := StartWorld(n, ix);
            && Misled(cfg, w, ix, UNNUMBERED) && Name(STRANGER) != Name(UNNUMBERED)
            && UpdatesRecord(w, SyncEach(cfg, w, ix, [UNNUMBERED], false), UNNUMBERED, STRANGER)
  {
    StrangerIndexed();
    var ix := Index([STRANGER], map["" := 0], map["a" := 0]);
    var w := StartWorld(n, ix);
    assert Misled(cfg, w, ix, UNNUMBERED);
    MisledWrites(cfg, w, ix, UNNUMBERED, false);
    assert [UNNUMBERED][..0] == [] && SyncEach(cfg, w, ix, [], false) == w;
  }

  /** Against any server whatever, nothing is written before the existing users have been read. Every update is
      the mode's request for the differences of a record linked to its user, or, when recovery is opted in, the
      repair of the link of an unlinked record of its user's name, and every creation is of its user, exactly
      when at no turn a user with a blank externalId finds a record under the key "" that differs from it. */
  lemma WritesJustified(cfg: Config, n: Net, source: seq<User>)
    ensures var (w, n'), (r, n1) := Sync(cfg, n, source), ReadServer(n, source);
            && (w.None? ==> OnlyReads(n.trace, n'.trace))
            && (w.Some? ==>
                  && r.Some?
                  && var ix, filtered := r.value.index, r.value.filtered;
                     AllJustified(cfg, w.value) <==> NobodyMisled(cfg, StartWorld(n1, ix), ix, source, filtered))
  {
    ReadServerSound(n, source);
    var r, n1 := ReadServer(n, source).0, ReadServer(n, source).1;
    if r.Some? {
      SyncEachJustified(cfg, StartWorld(n1, r.value.index), r.value.index, source, r.value.filtered);
    }
  }

  lemma ReadServerSound(n: Net, source: seq<User>)
    ensures var (r, n') := ReadServer(n, source);
            OnlyReads(n.trace, n'.trace) && (r.Some? ==> IndexOk(r.value.index))
  {
    ListingSound(n);
    var (listed, n1) := ListAll(n);
    if listed.NeedsLookups? {
      LookupAllSound(n1, source, listed.sample);
      ReadsCompose(n.trace, n1.trace, LookupAll(n1, source, listed.sample).1.trace);
    }
  }
}
