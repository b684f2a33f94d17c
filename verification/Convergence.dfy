/** A synchronisation in which every call succeeds does what was planned from the directory alone, and after one
    without conflicts there is nothing left to write (app/scim/apple.py). */
module Convergence {
  import opened Wrappers
  import opened Text
  import opened Records
  import opened ScimServer
  import opened Listing
  import opened Preflight
  import opened Engine
  import opened Evidence
  import opened DirectoryFacts
  import opened Refinement
  import opened Plans
  import opened Ownership

  // ----- the planned outcome -----

  function CountDiffs(cfg: Config, r: SyncResult, d: Diffs, repaired: bool): SyncResult {
    var r1 := if AnyDiff(Stale(d, cfg.mode)) then r.(outOfScope := r.outOfScope + 1) else r;
    if AnyDiff(Actionable(d, cfg.mode)) then r1.(updated := r1.updated + 1)
    else if repaired then r1
    else r1.(noChange := r1.noChange + 1)
  }

  /** The account a user is compared with: as it was, or as the link repair left it. */
  function Compared(cfg: Config, users: seq<User>, u: User): Option<User> {
    match PlanFor(cfg, users, u)
    case UpdateOf(i) => Some(users[i])
    case LinkOf(i) => Some(Linked(users[i], u))
    case _ => None
  }

  function Count(cfg: Config, users: seq<User>, r: SyncResult, u: User): SyncResult {
    match PlanFor(cfg, users, u)
    case Conflicting => r.(conflicts := r.conflicts + 1, conflictNames := r.conflictNames + if u.userName != "" then [u.userName] else [])
    case Creation => r.(created := r.created + 1)
    case UpdateOf(i) => CountDiffs(cfg, r, FieldDiffs(users[i], u, true), false)
    case LinkOf(i) => CountDiffs(cfg, r.(updated := r.updated + 1), FieldDiffs(Linked(users[i], u), u, true), true)
  }

  function WritesFor(cfg: Config, users: seq<User>, u: User): nat {
    match PlanFor(cfg, users, u)
    case Conflicting => 0
    case Creation => 1
    case UpdateOf(i) => One(AnyDiff(Actionable(FieldDiffs(users[i], u, true), cfg.mode)))
    case LinkOf(i) => 1 + One(AnyDiff(Actionable(FieldDiffs(Linked(users[i], u), u, true), cfg.mode)))
  }

  function PlannedResult(cfg: Config, users: seq<User>, source: seq<User>): SyncResult {
    if source == [] then NO_RESULT
    else Count(cfg, users, PlannedResult(cfg, users, source[..|source| - 1]), source[|source| - 1])
  }

  function PlannedWrites(cfg: Config, users: seq<User>, source: seq<User>): nat {
    if source == [] then 0
    else PlannedWrites(cfg, users, source[..|source| - 1]) + WritesFor(cfg, users, source[|source| - 1])
  }

  // ----- one turn -----

  predicate Counted(cfg: Config, users: seq<User>, u: User, w: World, w': World) {
    w'.result == Count(cfg, users, w.result, u) && |w'.writings| == |w.writings| + WritesFor(cfg, users, u)
  }

  lemma DiffsCounted(cfg: Config, w: World, h: nat, u: User, d: Diffs, repaired: bool, i: nat)
    requires Truthful(w.net) && Calm(w.net)
    requires h < |w.records| && i < |Accounts(w.net)| && w.records[h] == Accounts(w.net)[i]
    requires Ext(w.records[h]) == Ext(u) && d == FieldDiffs(w.records[h], u, true)
    requires AnyDiff(Actionable(d, cfg.mode)) ==> !Taken(Accounts(w.net), Updated(w.records[h], u, cfg.mode), i)
    ensures var (raised, w') := ApplyDiffs(cfg, w, h, u, d, repaired);
            && !raised && w'.result == CountDiffs(cfg, w.result, d, repaired)
            && |w'.writings| == |w.writings| + One(AnyDiff(Actionable(d, cfg.mode)))
  {
    if AnyDiff(Actionable(d, cfg.mode)) {
      var w1 := NoteDouble(NoteStale(w, AnyDiff(Stale(d, cfg.mode))), repaired);
      PatchEffect(cfg, w1, h, u, i);
      WrittenCounted(cfg, w, w1, h, u, d, repaired);
    } else {
      NothingCounted(cfg, w, h, u, d, repaired);
    }
  }

  lemma WrittenCounted(cfg: Config, w: World, w1: World, h: nat, u: User, d: Diffs, repaired: bool)
    requires h < |w.records| && d == FieldDiffs(w.records[h], u, true) && AnyDiff(Actionable(d, cfg.mode))
    requires w1 == NoteDouble(NoteStale(w, AnyDiff(Stale(d, cfg.mode))), repaired)
    requires BuildUpdate(u, cfg.mode, w.records[h].id, Actionable(d, cfg.mode)).Some?
    requires var (raised, w') := PatchUser(cfg, w1, h, u, Actionable(d, cfg.mode));
             !raised && w'.result == CountUpdated(w1).result && |w'.writings| == |w1.writings| + 1
    ensures var (raised, w') := ApplyDiffs(cfg, w, h, u, d, repaired);
            && !raised && w'.result == CountDiffs(cfg, w.result, d, repaired) && |w'.writings| == |w.writings| + 1
  {}

  lemma NothingCounted(cfg: Config, w: World, h: nat, u: User, d: Diffs, repaired: bool)
    requires h < |w.records| && !AnyDiff(Actionable(d, cfg.mode))
    ensures var (raised, w') := ApplyDiffs(cfg, w, h, u, d, repaired);
            && !raised && w'.result == CountDiffs(cfg, w.result, d, repaired) && |w'.writings| == |w.writings|
  {}

  lemma UpdateCounted(cfg: Config, n0: Net, done: seq<User>, w: World, h: nat, u: User, i: nat)
    requires InStep(cfg, n0, done, w) && Fresh(done, u) && h < |w.records| && Calm(w.net)
    requires PlanFor(cfg, Accounts(n0), u) == UpdateOf(i) && w.records[h] == Accounts(n0)[i]
    ensures var (raised, w') := Reconcile(cfg, w, h, u, false);
            !raised && Counted(cfg, Accounts(n0), u, w, w')
  {
    var account := w.records[h];
    Untouched(cfg, Accounts(n0), done, Accounts(w.net), u, i);
    TargetOwned(cfg, account, u);
    if AnyDiff(Actionable(FieldDiffs(account, u, true), cfg.mode)) {
      OwnedFree(cfg, Accounts(n0), done, Accounts(w.net), u, i, Target(cfg, account, u));
    }
    DiffsCounted(cfg, w, h, u, FieldDiffs(account, u, true), false, i);
  }

  lemma RepairCounted(cfg: Config, n0: Net, done: seq<User>, w: World, h: nat, u: User, i: nat)
    requires InStep(cfg, n0, done, w) && Fresh(done, u) && h < |w.records| && Calm(w.net)
    requires PlanFor(cfg, Accounts(n0), u) == LinkOf(i) && i < |Accounts(n0)| && w.records[h] == Accounts(n0)[i]
    ensures var linked := Linked(w.records[h], u);
            var (repair, w1) := PatchExternalId(w, h, u);
            && repair.Repaired? && w1.result == CountUpdated(w).result && |w1.writings| == |w.writings| + 1
            && Truthful(w1.net) && Calm(w1.net) && i < |Accounts(w.net)| && Accounts(w1.net) == Accounts(w.net)[i := linked]
            && w1.records == w.records[h := linked] && Ext(linked) == Ext(u)
            && !Taken(Accounts(w1.net), Updated(linked, u, cfg.mode), i)
  {
    OwnedAccount(cfg, Accounts(n0), u, i);
    Untouched(cfg, Accounts(n0), done, Accounts(w.net), u, i);
    StripIdempotent(u.externalId);
    OwnedFree(cfg, Accounts(n0), done, Accounts(w.net), u, i, Linked(w.records[h], u));
    LinkEffect(w, h, u, i);
    RepairTurn(cfg, n0, done, w, h, u, i);
    RelinkedFree(cfg, n0, done, w, w.records[h], u, i);
  }

  lemma LinkedDiffs(linked: User, u: User)
    requires Ext(linked) == Ext(u)
    ensures FieldDiffs(linked, u, false) == FieldDiffs(linked, u, true)
  {}

  lemma LinkCounted(cfg: Config, n0: Net, done: seq<User>, w: World, h: nat, u: User, i: nat)
    requires InStep(cfg, n0, done, w) && Fresh(done, u) && h < |w.records| && Calm(w.net)
    requires PlanFor(cfg, Accounts(n0), u) == LinkOf(i) && i < |Accounts(n0)| && w.records[h] == Accounts(n0)[i]
    ensures var (raised, w') := Reconcile(cfg, w, h, u, true);
            !raised && Counted(cfg, Accounts(n0), u, w, w')
  {
    OwnedAccount(cfg, Accounts(n0), u, i);
    RepairCounted(cfg, n0, done, w, h, u, i);
    var linked, w1 := Linked(w.records[h], u), PatchExternalId(w, h, u).1;
    RepairedReconcile(cfg, w, h, u, w1);
    LinkedDiffs(linked, u);
    DiffsCounted(cfg, w1, h, u, FieldDiffs(linked, u, true), true, i);
  }

  lemma CreateCounted(cfg: Config, n0: Net, done: seq<User>, w: World, u: User, verify: bool)
    requires InStep(cfg, n0, done, w) && Fresh(done, u) && Calm(w.net) && PlanFor(cfg, Accounts(n0), u) == Creation
    ensures var (raised, w') := Create(cfg, w, u, verify);
            !raised && Counted(cfg, Accounts(n0), u, w, w')
  {
    var created := u.(id := w.net.server.dir.newId(Accounts(w.net)));
    PostTurn(cfg, n0, done, w, u);
    AcceptedCreation(cfg, w, u, verify, created);
    CreationVerified(Write(w, u, None, CreateUser(u)).1, u, created);
  }

  lemma RefusedCounted(cfg: Config, users: seq<User>, w: World, h: nat, u: User, i: nat)
    requires h < |w.records| && i < |users| && w.records[h] == users[i] && !CanRecover(cfg, w.records[h], u)
    requires Find(users, ByExternalId, Ext(u)).None? && Find(users, ByUserName, u.userName) == Some(i)
    ensures var (raised, w') := Reconcile(cfg, w, h, u, true);
            !raised && Counted(cfg, users, u, w, w')
  {}

  lemma RecoveredCounted(cfg: Config, n0: Net, done: seq<User>, w: World, h: nat, u: User, i: nat)
    requires InStep(cfg, n0, done, w) && Fresh(done, u) && h < |w.records| && Calm(w.net)
    requires Find(Accounts(n0), ByExternalId, Ext(u)).None? && Find(Accounts(n0), ByUserName, u.userName) == Some(i)
    requires i < |Accounts(n0)| && w.records[h] == Accounts(n0)[i]
    ensures var (raised, w') := Reconcile(cfg, w, h, u, true);
            !raised && Counted(cfg, Accounts(n0), u, w, w')
  {
    if CanRecover(cfg, w.records[h], u) {
      LinkCounted(cfg, n0, done, w, h, u, i);
    } else {
      RefusedCounted(cfg, Accounts(n0), w, h, u, i);
    }
  }

  lemma ClashCounted(cfg: Config, users: seq<User>, w: World, ix: Index, u: User, filtered: bool)
    requires MatchUser(u, w.records, ix.byExt, ix.byUser) == Clash && PlanFor(cfg, users, u) == Conflicting
    ensures Counted(cfg, users, u, w, SyncOne(cfg, w, ix, u, filtered))
  {}

  lemma NewCounted(cfg: Config, n0: Net, done: seq<User>, w: World, ix: Index, u: User, filtered: bool)
    requires InStep(cfg, n0, done, w) && Fresh(done, u) && Calm(w.net) && PlanFor(cfg, Accounts(n0), u) == Creation
    requires MatchUser(u, w.records, ix.byExt, ix.byUser) == NoMatch
    ensures Counted(cfg, Accounts(n0), u, w, SyncOne(cfg, w, ix, u, filtered))
  {
    CreateCounted(cfg, n0, done, w, u, filtered);
  }

  lemma MatchedCounted(cfg: Config, users: seq<User>, w: World, ix: Index, h: nat, byName: bool, u: User, filtered: bool)
    requires MatchUser(u, w.records, ix.byExt, ix.byUser) == Matched(h, byName) && h < |w.records|
    requires var (raised, w') := Reconcile(cfg, w, h, u, byName); !raised && Counted(cfg, users, u, w, w')
    ensures Counted(cfg, users, u, w, SyncOne(cfg, w, ix, u, filtered))
  {}

  lemma TurnCounted(cfg: Config, n0: Net, done: seq<User>, w: World, ix: Index, u: User, filtered: bool)
    requires InStep(cfg, n0, done, w) && Fresh(done, u) && CellsStay(ix, done, w.records) && Calm(w.net)
    requires IndexOk(ix) && Answers(ix, Accounts(n0), u)
    ensures Counted(cfg, Accounts(n0), u, w, SyncOne(cfg, w, ix, u, filtered))
  {
    var users := Accounts(n0);
    MatchIsPlan(cfg, users, done, ix, w.records, u);
    match MatchUser(u, w.records, ix.byExt, ix.byUser)
    case Clash => ClashCounted(cfg, users, w, ix, u, filtered);
    case NoMatch => NewCounted(cfg, n0, done, w, ix, u, filtered);
    case Matched(h, byName) =>
      if byName {
        RecoveredCounted(cfg, n0, done, w, h, u, Find(users, ByUserName, u.userName).value);
      } else {
        UpdateCounted(cfg, n0, done, w, h, u, Find(users, ByExternalId, Ext(u)).value);
      }
      MatchedCounted(cfg, users, w, ix, h, byName, u, filtered);
  }

  lemma {:induction false} RunCounted(cfg: Config, n0: Net, w: World, ix: Index, source: seq<User>, filtered: bool)
    requires Truthful(n0) && Calm(w.net) && SameDir(n0, w.net) && ValidSource(source) && w.records == ix.users
    requires Covers(ix, Accounts(n0), source) && w.result == NO_RESULT && w.writings == []
    ensures var w' := SyncEach(cfg, w, ix, source, filtered);
            && w'.result == PlannedResult(cfg, Accounts(n0), source)
            && |w'.writings| == PlannedWrites(cfg, Accounts(n0), source)
    decreases |source|
  {
    if source != [] {
      var init, u := source[..|source| - 1], source[|source| - 1];
      ValidInit(source);
      CoversInit(ix, Accounts(n0), source);
      RunCounted(cfg, n0, w, ix, init, filtered);
      RunKeeps(cfg, n0, w, ix, init, filtered);
      TurnCounted(cfg, n0, init, SyncEach(cfg, w, ix, init, filtered), ix, u, filtered);
    }
  }

  /** When every call succeeds, a run always completes, and its counters, its number of writes and the directory
      it leaves are functions of the directory it found: whether the server lists in pages of whatever size or
      a sample that forces the filtered lookups, from zero or from one, makes no difference. */
  lemma SyncFollowsPlan(cfg: Config, n: Net, source: seq<User>)
    requires Truthful(n) && Calm(n) && ValidSource(source)
    ensures var (w, n') := Sync(cfg, n, source);
            && w.Some? && w.value.net == n' && Truthful(n') && Calm(n')
            && w.value.result == PlannedResult(cfg, Accounts(n), source)
            && |w.value.writings| == PlannedWrites(cfg, Accounts(n), source)
            && DirIs(n, n', PlannedAccounts(cfg, Accounts(n), n.server.dir.newId, source))
  {
    ReadServerTruth(n, source);
    SyncKeeps(cfg, n, source);
    var (r, n1) := ReadServer(n, source);
    RunCounted(cfg, n, StartWorld(n1, r.value.index), r.value.index, source, r.value.filtered);
  }

  /** Two directories with the same accounts, listed in any two ways, end with the same accounts and the same
      counters. */
  lemma ListingFormatIrrelevant(cfg: Config, a: Net, b: Net, source: seq<User>)
    requires Truthful(a) && Calm(a) && Truthful(b) && Calm(b) && ValidSource(source)
    requires Accounts(a) == Accounts(b) && a.server.dir.newId == b.server.dir.newId
    ensures var (wa, a') := Sync(cfg, a, source);
            var (wb, b') := Sync(cfg, b, source);
            && a'.server.Live? && b'.server.Live? && Accounts(a') == Accounts(b')
            && wa.Some? && wb.Some? && wa.value.result == wb.value.result
  {
    SyncFollowsPlan(cfg, a, source);
    SyncFollowsPlan(cfg, b, source);
  }

  // ----- nothing left to do -----

  /** The attribute differences outside the mode that the turn reports. */
  predicate OutOfScope(cfg: Config, users: seq<User>, u: User) {
    var account := Compared(cfg, users, u);
    account.Some? && AnyDiff(Stale(FieldDiffs(account.value, u, true), cfg.mode))
  }

  /** Account `p` is the user's, nobody else has its name, and no difference is left that the mode writes. */
  ghost predicate SettledAt(cfg: Config, users: seq<User>, cur: seq<User>, u: User, p: nat) {
    && p < |cur| && Ext(cur[p]) == Ext(u)
    && (forall j :: 0 <= j < |cur| && j != p ==> Name(cur[j]) != Name(u))
    && !AnyDiff(Actionable(FieldDiffs(cur[p], u, true), cfg.mode))
    && (AnyDiff(Stale(FieldDiffs(cur[p], u, true), cfg.mode)) <==> OutOfScope(cfg, users, u))
    && EndedAt(cfg, users, u, p, cur[p])
  }

  /** What the user's turn leaves there, as planned. */
  predicate EndedAt(cfg: Config, users: seq<User>, u: User, p: nat, now: User) {
    match PlanFor(cfg, users, u)
    case Conflicting => false
    case Creation => p >= |users| && now == u.(id := now.id)
    case UpdateOf(i) => p == i < |users| && now == Target(cfg, users[i], u)
    case LinkOf(i) => p == i < |users| && now == Target(cfg, Linked(users[i], u), u)
  }

  ghost predicate Settled(cfg: Config, users: seq<User>, cur: seq<User>, u: User) {
    exists p: nat :: SettledAt(cfg, users, cur, u, p)
  }

  lemma TargetSettled(cfg: Config, account: User, u: User)
    requires Ext(account) == Ext(u)
    ensures var now := Target(cfg, account, u);
            && Ext(now) == Ext(u)
            && !AnyDiff(Actionable(FieldDiffs(now, u, true), cfg.mode))
            && (AnyDiff(Stale(FieldDiffs(now, u, true), cfg.mode)) <==> AnyDiff(Stale(FieldDiffs(account, u, true), cfg.mode)))
  {
    var d := FieldDiffs(account, u, true);
    if AnyDiff(Actionable(d, cfg.mode)) {
      UpdateUndoesDiff(account, u, cfg.mode, true);
      StaleIsRest(d, cfg.mode);
    }
  }

  lemma PlaceSettles(cfg: Config, users: seq<User>, done: seq<User>, cur: seq<User>, newId: seq<User> -> string, u: User)
    requires GoodUsers(users) && Evolved(cfg, users, done, cur) && Fresh(done, u)
    requires forall k :: 0 <= k < |done| ==> Ext(done[k]) != ""
    requires PlanFor(cfg, users, u) != Conflicting
    ensures Settled(cfg, users, Place(cfg, users, cur, newId, u), u)
  {
    var cur' := Place(cfg, users, cur, newId, u);
    match PlanFor(cfg, users, u)
    case Creation =>
      CreationFree(cfg, users, done, cur, u);
      assert SettledAt(cfg, users, cur', u, |cur|);
    case UpdateOf(i) =>
      OwnedAccount(cfg, users, u, i);
      TargetSettled(cfg, users[i], u);
      OthersNamed(cfg, users, done, cur, u, i);
      assert SettledAt(cfg, users, cur', u, i);
    case LinkOf(i) =>
      OwnedAccount(cfg, users, u, i);
      StripIdempotent(u.externalId);
      TargetSettled(cfg, Linked(users[i], u), u);
      OthersNamed(cfg, users, done, cur, u, i);
      assert SettledAt(cfg, users, cur', u, i);
  }

  lemma OthersNamed(cfg: Config, users: seq<User>, done: seq<User>, cur: seq<User>, u: User, i: nat)
    requires GoodUsers(users) && Evolved(cfg, users, done, cur) && Fresh(done, u) && Owns(cfg, users, u, i)
    ensures forall j :: 0 <= j < |cur| && j != i ==> Name(cur[j]) != Name(u)
  {
    forall j | 0 <= j < |cur| && j != i ensures Name(cur[j]) != Name(u) {
      if Name(cur[j]) == Name(u) {
        NameOrigin(cfg, users, done, cur, u, j);
        OthersName(cfg, users, u, i, j);
      }
    }
  }

  /** Another user's turn leaves a settled account alone and takes nobody's name. */
  lemma PlaceKeepsSettled(cfg: Config, users: seq<User>, done: seq<User>, cur: seq<User>, newId: seq<User> -> string, u: User, v: User)
    requires GoodUsers(users) && Evolved(cfg, users, done, cur) && Fresh(done, u) && v in done
    requires forall k :: 0 <= k < |done| ==> Ext(done[k]) != ""
    requires Settled(cfg, users, cur, v)
    ensures Settled(cfg, users, Place(cfg, users, cur, newId, u), v)
  {
    var p: nat :| SettledAt(cfg, users, cur, v, p);
    var plan := PlanFor(cfg, users, u);
    if plan.UpdateOf? || plan.LinkOf? {
      Untouched(cfg, users, done, cur, u, plan.i);
      OwnedAccount(cfg, users, u, plan.i);
      assert p != plan.i;
      PlacedName(cfg, users, u, plan.i);
      var now := if plan.UpdateOf? then Target(cfg, users[plan.i], u) else Target(cfg, Linked(users[plan.i], u), u);
      SettledBeside(cfg, users, cur, v, p, plan.i, now);
    } else if plan.Creation? {
      SettledBefore(cfg, users, cur, v, p, u.(id := newId(cur)));
    }
  }

  lemma SettledBeside(cfg: Config, users: seq<User>, cur: seq<User>, v: User, p: nat, i: nat, now: User)
    requires SettledAt(cfg, users, cur, v, p) && i < |cur| && i != p && Name(now) != Name(v)
    ensures Settled(cfg, users, cur[i := now], v)
  {
    assert SettledAt(cfg, users, cur[i := now], v, p);
  }

  lemma SettledBefore(cfg: Config, users: seq<User>, cur: seq<User>, v: User, p: nat, now: User)
    requires SettledAt(cfg, users, cur, v, p) && Name(now) != Name(v)
    ensures Settled(cfg, users, cur + [now], v)
  {
    assert SettledAt(cfg, users, cur + [now], v, p);
  }

  /** What a turn writes bears the account's old name or the user's. */
  lemma PlacedName(cfg: Config, users: seq<User>, u: User, i: nat)
    requires Owns(cfg, users, u, i) && i < |users|
    ensures PlanFor(cfg, users, u).UpdateOf? ==> Name(Target(cfg, users[i], u)) in {Name(users[i]), Name(u)}
    ensures PlanFor(cfg, users, u).LinkOf? ==> Name(Target(cfg, Linked(users[i], u), u)) in {Name(users[i]), Name(u)}
  {
    OwnedAccount(cfg, users, u, i);
    StripIdempotent(u.externalId);
    var account := if PlanFor(cfg, users, u).UpdateOf? then users[i] else Linked(users[i], u);
    if AnyDiff(Actionable(FieldDiffs(account, u, true), cfg.mode)) {
      UpdateUndoesDiff(account, u, cfg.mode, true);
    }
  }

  predicate NoConflicts(cfg: Config, users: seq<User>, source: seq<User>) {
    forall k :: 0 <= k < |source| ==> PlanFor(cfg, users, source[k]) != Conflicting
  }

  ghost predicate AllSettled(cfg: Config, users: seq<User>, cur: seq<User>, source: seq<User>) {
    forall k :: 0 <= k < |source| ==> Settled(cfg, users, cur, source[k])
  }

  lemma PlanEvolves(cfg: Config, n: Net, source: seq<User>)
    requires Truthful(n) && Calm(n) && ValidSource(source)
    ensures Evolved(cfg, Accounts(n), source, PlannedAccounts(cfg, Accounts(n), n.server.dir.newId, source))
  {
    SyncKeeps(cfg, n, source);
  }

  lemma NoConflictsInit(cfg: Config, users: seq<User>, source: seq<User>)
    requires NoConflicts(cfg, users, source) && source != []
    ensures NoConflicts(cfg, users, source[..|source| - 1]) && PlanFor(cfg, users, source[|source| - 1]) != Conflicting
  {
    assert forall k :: 0 <= k < |source| - 1 ==> PlanFor(cfg, users, source[k]) != Conflicting && source[..|source| - 1][k] == source[k];
  }

  lemma {:induction false} RunSettles(cfg: Config, n: Net, source: seq<User>)
    requires Truthful(n) && Calm(n) && ValidSource(source) && NoConflicts(cfg, Accounts(n), source)
    ensures AllSettled(cfg, Accounts(n), PlannedAccounts(cfg, Accounts(n), n.server.dir.newId, source), source)
    decreases |source|
  {
    if source != [] {
      var init := source[..|source| - 1];
      ValidInit(source);
      NoConflictsInit(cfg, Accounts(n), source);
      RunSettles(cfg, n, init);
      NextSettles(cfg, n, init, source[|source| - 1]);
      assert init + [source[|source| - 1]] == source;
    }
  }

  lemma NextSettles(cfg: Config, n: Net, init: seq<User>, u: User)
    requires Truthful(n) && Calm(n) && ValidSource(init) && Fresh(init, u) && PlanFor(cfg, Accounts(n), u) != Conflicting
    requires AllSettled(cfg, Accounts(n), PlannedAccounts(cfg, Accounts(n), n.server.dir.newId, init), init)
    ensures AllSettled(cfg, Accounts(n), PlannedAccounts(cfg, Accounts(n), n.server.dir.newId, init + [u]), init + [u])
  {
    PlanEvolves(cfg, n, init);
    LastSettles(cfg, Accounts(n), init, PlannedAccounts(cfg, Accounts(n), n.server.dir.newId, init), n.server.dir.newId, u);
    assert (init + [u])[..|init|] == init;
  }

  lemma LastSettles(cfg: Config, users: seq<User>, init: seq<User>, cur: seq<User>, newId: seq<User> -> string, u: User)
    requires GoodUsers(users) && Evolved(cfg, users, init, cur) && Fresh(init, u)
    requires forall k :: 0 <= k < |init| ==> Ext(init[k]) != ""
    requires PlanFor(cfg, users, u) != Conflicting && AllSettled(cfg, users, cur, init)
    ensures AllSettled(cfg, users, Place(cfg, users, cur, newId, u), init + [u])
  {
    var cur', source := Place(cfg, users, cur, newId, u), init + [u];
    PlaceSettles(cfg, users, init, cur, newId, u);
    forall k | 0 <= k < |source| ensures Settled(cfg, users, cur', source[k]) {
      if k < |init| {
        assert Settled(cfg, users, cur, init[k]);
        PlaceKeepsSettled(cfg, users, init, cur, newId, u, init[k]);
      }
    }
  }

  lemma SettledPlan(cfg: Config, users: seq<User>, cur: seq<User>, u: User, p: nat)
    requires GoodUsers(cur) && Ext(u) != "" && SettledAt(cfg, users, cur, u, p)
    ensures PlanFor(cfg, cur, u) == UpdateOf(p)
  {
    OneOwner(cur, ByExternalId, Ext(u), p);
  }

  lemma PlanCounts(cfg: Config, users: seq<User>, cur: seq<User>, u: User, p: nat, r: SyncResult)
    requires p < |cur| && PlanFor(cfg, cur, u) == UpdateOf(p)
    requires !AnyDiff(Actionable(FieldDiffs(cur[p], u, true), cfg.mode))
    requires AnyDiff(Stale(FieldDiffs(cur[p], u, true), cfg.mode)) <==> OutOfScope(cfg, users, u)
    ensures WritesFor(cfg, cur, u) == 0
    ensures Count(cfg, cur, r, u) == r.(noChange := r.noChange + 1, outOfScope := r.outOfScope + One(OutOfScope(cfg, users, u)))
  {}

  lemma PlanPlaces(cfg: Config, cur: seq<User>, newId: seq<User> -> string, u: User, p: nat)
    requires p < |cur| && PlanFor(cfg, cur, u) == UpdateOf(p)
    requires !AnyDiff(Actionable(FieldDiffs(cur[p], u, true), cfg.mode))
    ensures Place(cfg, cur, cur, newId, u) == cur
  {
    assert cur[p := cur[p]] == cur;
  }

  /** A settled user has nothing to write and is reported out of scope exactly as before. */
  lemma SettledCount(cfg: Config, users: seq<User>, cur: seq<User>, newId: seq<User> -> string, u: User, r: SyncResult)
    requires GoodUsers(cur) && Ext(u) != "" && Settled(cfg, users, cur, u)
    ensures WritesFor(cfg, cur, u) == 0
    ensures Count(cfg, cur, r, u) == r.(noChange := r.noChange + 1, outOfScope := r.outOfScope + One(OutOfScope(cfg, users, u)))
    ensures Place(cfg, cur, cur, newId, u) == cur
  {
    var p: nat :| SettledAt(cfg, users, cur, u, p);
    SettledPlan(cfg, users, cur, u, p);
    PlanCounts(cfg, users, cur, u, p, r);
    PlanPlaces(cfg, cur, newId, u, p);
  }

  function ScopeCount(cfg: Config, users: seq<User>, source: seq<User>): nat {
    if source == [] then 0
    else ScopeCount(cfg, users, source[..|source| - 1]) + One(OutOfScope(cfg, users, source[|source| - 1]))
  }

  function ConflictCount(cfg: Config, users: seq<User>, source: seq<User>): nat {
    if source == [] then 0
    else ConflictCount(cfg, users, source[..|source| - 1]) + One(PlanFor(cfg, users, source[|source| - 1]) == Conflicting)
  }

  lemma CountsOf(cfg: Config, users: seq<User>, r: SyncResult, u: User)
    ensures var r' := Count(cfg, users, r, u);
            && r'.outOfScope == r.outOfScope + One(OutOfScope(cfg, users, u)) && r'.errors == r.errors
            && r'.conflicts == r.conflicts + One(PlanFor(cfg, users, u) == Conflicting)
  {}

  lemma {:induction false} FirstCounts(cfg: Config, users: seq<User>, source: seq<User>)
    ensures var r := PlannedResult(cfg, users, source);
            && r.outOfScope == ScopeCount(cfg, users, source) && r.errors == 0
            && r.conflicts == ConflictCount(cfg, users, source)
    decreases |source|
  {
    if source != [] {
      var init := source[..|source| - 1];
      FirstCounts(cfg, users, init);
      CountsOf(cfg, users, PlannedResult(cfg, users, init), source[|source| - 1]);
    }
  }

  lemma {:induction false} ConflictCounted(cfg: Config, users: seq<User>, source: seq<User>, u: User)
    requires u in source && ConflictCount(cfg, users, source) == 0
    ensures PlanFor(cfg, users, u) != Conflicting
    decreases |source|
  {
    var init, last := source[..|source| - 1], source[|source| - 1];
    assert init + [last] == source;
    if u != last {
      ConflictCounted(cfg, users, init, u);
    }
  }

  lemma ConflictsCounted(cfg: Config, users: seq<User>, source: seq<User>)
    requires ConflictCount(cfg, users, source) == 0
    ensures NoConflicts(cfg, users, source)
  {
    forall k | 0 <= k < |source| ensures PlanFor(cfg, users, source[k]) != Conflicting {
      ConflictCounted(cfg, users, source, source[k]);
    }
  }

  ghost predicate Quiet(cfg: Config, users: seq<User>, cur: seq<User>, newId: seq<User> -> string, source: seq<User>) {
    && PlannedWrites(cfg, cur, source) == 0
    && PlannedResult(cfg, cur, source) == NO_RESULT.(noChange := |source|, outOfScope := ScopeCount(cfg, users, source))
    && PlannedAccounts(cfg, cur, newId, source) == cur
  }

  lemma QuietLast(cfg: Config, users: seq<User>, cur: seq<User>, newId: seq<User> -> string, source: seq<User>)
    requires source != [] && GoodUsers(cur)
    requires Ext(source[|source| - 1]) != "" && Settled(cfg, users, cur, source[|source| - 1])
    requires Quiet(cfg, users, cur, newId, source[..|source| - 1])
    ensures Quiet(cfg, users, cur, newId, source)
  {
    SettledCount(cfg, users, cur, newId, source[|source| - 1], PlannedResult(cfg, cur, source[..|source| - 1]));
  }

  ghost predicate AllReady(cfg: Config, users: seq<User>, cur: seq<User>, source: seq<User>) {
    GoodUsers(cur) && forall k :: 0 <= k < |source| ==> Ext(source[k]) != "" && Settled(cfg, users, cur, source[k])
  }

  lemma ReadyInit(cfg: Config, users: seq<User>, cur: seq<User>, source: seq<User>)
    requires AllReady(cfg, users, cur, source) && source != []
    ensures AllReady(cfg, users, cur, source[..|source| - 1])
  {
    var init := source[..|source| - 1];
    forall k | 0 <= k < |init| ensures Ext(init[k]) != "" && Settled(cfg, users, cur, init[k]) {
      assert init[k] == source[k];
    }
  }

  lemma ReadyLast(cfg: Config, users: seq<User>, cur: seq<User>, source: seq<User>)
    requires AllReady(cfg, users, cur, source) && source != []
    ensures GoodUsers(cur) && Ext(source[|source| - 1]) != "" && Settled(cfg, users, cur, source[|source| - 1])
  {}

  lemma {:induction false} SecondCounts(cfg: Config, users: seq<User>, cur: seq<User>, newId: seq<User> -> string, source: seq<User>)
    requires AllReady(cfg, users, cur, source)
    ensures Quiet(cfg, users, cur, newId, source)
    decreases |source|
  {
    if source != [] {
      ReadyInit(cfg, users, cur, source);
      SecondCounts(cfg, users, cur, newId, source[..|source| - 1]);
      ReadyLast(cfg, users, cur, source);
      QuietLast(cfg, users, cur, newId, source);
    }
  }

  /** In every update mode: when every call succeeds and a run reports no conflicts, it reports no errors either,
      and a second run of the same source writes nothing, counts every user unchanged, reports the same number
      of differences outside the mode, and leaves the directory as it is. */
  lemma Converges(cfg: Config, n: Net, source: seq<User>)
    requires Truthful(n) && Calm(n) && ValidSource(source)
    requires var w := Sync(cfg, n, source).0; w.Some? ==> w.value.result.conflicts == 0
    ensures var (first, n1) := Sync(cfg, n, source);
            var (second, n2) := Sync(cfg, n1, source);
            && first.Some? && first.value.result.errors == 0
            && second.Some? && second.value.writings == []
            && second.value.result == NO_RESULT.(noChange := |source|, outOfScope := first.value.result.outOfScope)
            && SameDir(n1, n2) && OnlyReads(n1.trace, n2.trace)
  {
    SyncFollowsPlan(cfg, n, source);
    var n1 := Sync(cfg, n, source).1;
    var users := Accounts(n);
    FirstCounts(cfg, users, source);
    ConflictsCounted(cfg, users, source);
    RunSettles(cfg, n, source);
    SyncFollowsPlan(cfg, n1, source);
    SecondCounts(cfg, users, Accounts(n1), n1.server.dir.newId, source);
    NothingWritten(cfg, n1, source);
  }

  // ----- what the directory ends as, attribute by attribute -----

  /** The account agrees with the user on everything that is compared. */
  ghost predicate Agrees(now: User, u: User) {
    && now.active == u.active && Name(now) == Name(u)
    && Strip(now.givenName) == Strip(u.givenName) && Strip(now.familyName) == Strip(u.familyName) && SameAddress(now, u)
  }

  /** An account that was there: it is the user's now, agrees with the user on what the mode is for, and is otherwise
      as it was. */
  ghost predicate BroughtTo(mode: Mode, was: User, now: User, u: User) {
    && now.id == was.id && Ext(now) == Ext(u)
    && match mode
       case PatchAll => Agrees(now, u)
       case ReplaceAll => Agrees(now, u)
       case ExternalIdOnly => now == was.(externalId := now.externalId)
       case EmailsOnly => SameAddress(now, u) && now == was.(externalId := now.externalId, emails := now.emails)
       case UsernameOnly => Name(now) == Name(u) && now == was.(externalId := now.externalId, userName := now.userName)
  }

  lemma TargetAgrees(cfg: Config, account: User, u: User)
    requires Ext(account) == Ext(u)
    ensures BroughtTo(cfg.mode, account, Target(cfg, account, u), u)
  {
    var now := Target(cfg, account, u);
    TargetSettled(cfg, account, u);
    DifferencesAre(now, u, cfg.mode);
    if AnyDiff(Actionable(FieldDiffs(account, u, true), cfg.mode)) {
      UpdateUndoesDiff(account, u, cfg.mode, true);
    }
  }

  /** Account `p` is the one the user was brought to, or the one created for it. */
  ghost predicate ReconciledAt(mode: Mode, users: seq<User>, cur: seq<User>, u: User, p: nat) {
    && p < |cur| && Ext(cur[p]) == Ext(u)
    && if p < |users| then BroughtTo(mode, users[p], cur[p], u) else cur[p] == u.(id := cur[p].id)
  }

  lemma EndedReconciled(cfg: Config, users: seq<User>, cur: seq<User>, u: User, p: nat)
    requires SettledAt(cfg, users, cur, u, p)
    ensures ReconciledAt(cfg.mode, users, cur, u, p)
  {
    match PlanFor(cfg, users, u)
    case Creation =>
    case UpdateOf(i) =>
      OwnedAccount(cfg, users, u, i);
      TargetAgrees(cfg, users[i], u);
    case LinkOf(i) =>
      StripIdempotent(u.externalId);
      TargetAgrees(cfg, Linked(users[i], u), u);
  }

  /** In every update mode: when every call succeeds and a run reports no conflicts, each source user has an account
      with its externalId. One that was created is the user's record. One that was there agrees with the user on
      the mode's attributes, all of them when the mode patches or replaces all, and is otherwise as it was. */
  lemma SyncReconciles(cfg: Config, n: Net, source: seq<User>, u: User) returns (p: nat)
    requires Truthful(n) && Calm(n) && ValidSource(source) && u in source
    requires var w := Sync(cfg, n, source).0; w.Some? ==> w.value.result.conflicts == 0
    ensures Sync(cfg, n, source).1.server.Live?
    ensures ReconciledAt(cfg.mode, Accounts(n), Accounts(Sync(cfg, n, source).1), u, p)
  {
    SyncFollowsPlan(cfg, n, source);
    FirstCounts(cfg, Accounts(n), source);
    ConflictsCounted(cfg, Accounts(n), source);
    RunSettles(cfg, n, source);
    p := SettledPlace(cfg, n, source, u);
  }

  lemma SettledPlace(cfg: Config, n: Net, source: seq<User>, u: User) returns (p: nat)
    requires Truthful(n) && u in source
    requires AllSettled(cfg, Accounts(n), PlannedAccounts(cfg, Accounts(n), n.server.dir.newId, source), source)
    ensures ReconciledAt(cfg.mode, Accounts(n), PlannedAccounts(cfg, Accounts(n), n.server.dir.newId, source), u, p)
  {
    var cur := PlannedAccounts(cfg, Accounts(n), n.server.dir.newId, source);
    assert Settled(cfg, Accounts(n), cur, u);
    p :| SettledAt(cfg, Accounts(n), cur, u, p);
    EndedReconciled(cfg, Accounts(n), cur, u, p);
  }

  // ----- what the counters count, attribute by attribute -----

  /** The account is the user's by externalId, and nobody else has the name. */
  ghost predicate Mine(users: seq<User>, u: User, i: nat) {
    && i < |users| && Ext(users[i]) == Ext(u)
    && forall j :: 0 <= j < |users| && Name(users[j]) == Name(u) ==> j == i
  }

  /** The account has the name and no externalId, nobody has the user's, and recovery is on. */
  ghost predicate Claimed(cfg: Config, users: seq<User>, u: User, i: nat) {
    && i < |users| && cfg.recovery && Name(users[i]) == Name(u) && Ext(users[i]) == ""
    && forall j :: 0 <= j < |users| ==> Ext(users[j]) != Ext(u)
  }

  ghost predicate Absent(users: seq<User>, u: User) {
    forall j :: 0 <= j < |users| ==> Ext(users[j]) != Ext(u) && Name(users[j]) != Name(u)
  }

  /** An account that was the user's is updated or unchanged as they differ in what the mode writes, and reported if
      they differ otherwise. */
  ghost predicate TalliesOwn(mode: Mode, account: User, u: User, r: SyncResult, r': SyncResult) {
    r' == r.(updated := r.updated + One(!AgreeInside(mode, account, u)),
             noChange := r.noChange + One(AgreeInside(mode, account, u)),
             outOfScope := r.outOfScope + One(!AgreeOutside(mode, account, u)))
  }

  /** A claimed account is updated for the link, and again if they then differ in what the mode writes. */
  ghost predicate TalliesClaim(mode: Mode, linked: User, u: User, r: SyncResult, r': SyncResult) {
    r' == r.(updated := r.updated + 1 + One(!AgreeInside(mode, linked, u)),
             outOfScope := r.outOfScope + One(!AgreeOutside(mode, linked, u)))
  }

  /** One user's share in the counters: a new one is created, and one with neither an account nor a claim to one, though
      its name or externalId is known, is a conflict. */
  ghost predicate Tallies(cfg: Config, users: seq<User>, u: User, r: SyncResult, r': SyncResult) {
    && (Absent(users, u) ==> r' == r.(created := r.created + 1))
    && (forall i: nat :: Mine(users, u, i) ==> TalliesOwn(cfg.mode, users[i], u, r, r'))
    && (forall i: nat :: Claimed(cfg, users, u, i) ==> TalliesClaim(cfg.mode, users[i].(externalId := Ext(u)), u, r, r'))
    && (!Absent(users, u) && (forall i: nat :: !Mine(users, u, i) && !Claimed(cfg, users, u, i)) ==>
          r' == r.(conflicts := r.conflicts + 1, conflictNames := r.conflictNames + if u.userName != "" then [u.userName] else []))
  }

  lemma PlanIs(cfg: Config, users: seq<User>, u: User)
    requires GoodUsers(users) && Ext(u) != ""
    ensures PlanFor(cfg, users, u) == Creation <==> Absent(users, u)
    ensures forall i: nat :: PlanFor(cfg, users, u) == UpdateOf(i) <==> Mine(users, u, i)
    ensures forall i: nat :: PlanFor(cfg, users, u) == LinkOf(i) <==> Claimed(cfg, users, u, i)
  {
    forall i: nat | i < |users| && Ext(users[i]) == Ext(u) ensures Find(users, ByExternalId, Ext(u)) == Some(i) {
      OneOwner(users, ByExternalId, Ext(u), i);
    }
    forall i: nat | i < |users| && Name(users[i]) == Name(u) ensures Find(users, ByUserName, u.userName) == Some(i) {
      OneOwner(users, ByUserName, u.userName, i);
    }
  }

  lemma OwnTallied(cfg: Config, account: User, r: SyncResult, u: User)
    ensures TalliesOwn(cfg.mode, account, u, r, CountDiffs(cfg, r, FieldDiffs(account, u, true), false))
  {
    DifferencesAre(account, u, cfg.mode);
  }

  lemma ClaimTallied(cfg: Config, linked: User, r: SyncResult, u: User)
    ensures TalliesClaim(cfg.mode, linked, u, r, CountDiffs(cfg, r.(updated := r.updated + 1), FieldDiffs(linked, u, true), true))
  {
    DifferencesAre(linked, u, cfg.mode);
  }

  lemma CountTallies(cfg: Config, users: seq<User>, r: SyncResult, u: User)
    requires GoodUsers(users) && Ext(u) != ""
    ensures Tallies(cfg, users, u, r, Count(cfg, users, r, u))
  {
    PlanIs(cfg, users, u);
    var plan := PlanFor(cfg, users, u);
    if plan.UpdateOf? {
      OwnTallied(cfg, users[plan.i], r, u);
    } else if plan.LinkOf? {
      ClaimTallied(cfg, Linked(users[plan.i], u), r, u);
    }
  }

  /** The running results: each user adds its share. */
  ghost predicate TalliedUp(cfg: Config, users: seq<User>, source: seq<User>, rs: seq<SyncResult>) {
    && |rs| == |source| + 1 && rs[0] == NO_RESULT
    && forall k :: 0 <= k < |source| ==> Tallies(cfg, users, source[k], rs[k], rs[k + 1])
  }

  lemma TalliedMore(cfg: Config, users: seq<User>, source: seq<User>, rs: seq<SyncResult>, u: User, r: SyncResult)
    requires TalliedUp(cfg, users, source, rs) && Tallies(cfg, users, u, rs[|source|], r)
    ensures TalliedUp(cfg, users, source + [u], rs + [r])
  {
    var source', rs' := source + [u], rs + [r];
    forall k | 0 <= k < |source'| ensures Tallies(cfg, users, source'[k], rs'[k], rs'[k + 1]) {
      if k < |source| {
        assert source'[k] == source[k] && rs'[k] == rs[k] && rs'[k + 1] == rs[k + 1];
      } else {
        assert source'[k] == u && rs'[k] == rs[|source|] && rs'[k + 1] == r;
      }
    }
  }

  lemma LastTallies(cfg: Config, users: seq<User>, source: seq<User>)
    requires GoodUsers(users) && source != [] && Ext(source[|source| - 1]) != ""
    ensures Tallies(cfg, users, source[|source| - 1], PlannedResult(cfg, users, source[..|source| - 1]), PlannedResult(cfg, users, source))
  {
    CountTallies(cfg, users, PlannedResult(cfg, users, source[..|source| - 1]), source[|source| - 1]);
  }

  lemma NobodyTallied(cfg: Config, users: seq<User>)
    ensures TalliedUp(cfg, users, [], [NO_RESULT]) && PlannedResult(cfg, users, []) == NO_RESULT
  {}

  lemma {:induction false} PlanTallies(cfg: Config, users: seq<User>, source: seq<User>) returns (rs: seq<SyncResult>)
    requires GoodUsers(users) && ValidSource(source)
    ensures TalliedUp(cfg, users, source, rs) && rs[|source|] == PlannedResult(cfg, users, source)
    decreases |source|
  {
    if source == [] {
      NobodyTallied(cfg, users);
      rs := [NO_RESULT];
    } else {
      var init, u := source[..|source| - 1], source[|source| - 1];
      ValidInit(source);
      var before := PlanTallies(cfg, users, init);
      LastTallies(cfg, users, source);
      assert init + [u] == source;
      TalliedMore(cfg, users, init, before, u, PlannedResult(cfg, users, source));
      rs := before + [PlannedResult(cfg, users, source)];
    }
  }

  /** When every call succeeds, the counters are the sum of the users' shares, in the order of the source, and every
      share is fixed by the accounts found at the start. */
  lemma CountersTally(cfg: Config, n: Net, source: seq<User>) returns (rs: seq<SyncResult>)
    requires Truthful(n) && Calm(n) && ValidSource(source)
    ensures Sync(cfg, n, source).0.Some?
    ensures TalliedUp(cfg, Accounts(n), source, rs) && rs[|source|] == Sync(cfg, n, source).0.value.result
  {
    SyncFollowsPlan(cfg, n, source);
    rs := PlanTallies(cfg, Accounts(n), source);
  }
}
