/** Who a synchronisation may touch on a truthful directory, with any calls failing on the way
    (app/scim/apple.py). */
module Ownership {
  import opened Wrappers
  import opened Text
  import opened Records
  import opened ScimServer
  import opened Listing
  import opened Preflight
  import opened Engine
  import opened DirectoryFacts
  import opened Refinement
  import opened Plans

  function Accounts(n: Net): seq<User>
    requires n.server.Live?
  {
    n.server.dir.users
  }

  // ----- one write -----

  lemma LinkIsPatch(account: User, u: User)
    ensures ApplyUpdate(account, Patch([SetExternalId(Ext(u))])) == Linked(account, u)
  {
    ApplyIf(account, true, SetExternalId(Ext(u)));
    assert OpIf(true, SetExternalId(Ext(u))) == [SetExternalId(Ext(u))];
  }

  /** The repair changes nothing but the link, and when it reports success the link is written and the shared
      record says so. */
  lemma LinkEffect(w: World, h: nat, u: User, i: nat)
    requires Truthful(w.net) && h < |w.records| && i < |Accounts(w.net)| && w.records[h] == Accounts(w.net)[i]
    requires Name(w.records[h]) == Name(u) && !Taken(Accounts(w.net), Linked(w.records[h], u), i)
    ensures var users, linked := Accounts(w.net), Linked(w.records[h], u);
            var (repair, w') := PatchExternalId(w, h, u);
            && (DirIs(w.net, w'.net, users) || DirIs(w.net, w'.net, users[i := linked]))
            && (repair.Repaired? ==> DirIs(w.net, w'.net, users[i := linked]) && w'.records == w.records[h := linked])
            && (!repair.Repaired? ==> w'.records == w.records)
            && (Calm(w.net) ==> Calm(w'.net) && repair.Repaired? && w'.result == CountUpdated(w).result
                                && |w'.writings| == |w.writings| + 1)
  {
    var users, linked := Accounts(w.net), Linked(w.records[h], u);
    var update := Patch([SetExternalId(Ext(u))]);
    LinkIsPatch(w.records[h], u);
    UpdateEffect(w.net, i, update, linked);
    var (reply, n1) := Send(w.net, UpdateUser(users[i].id, update));
    if reply.Reply? && (reply.status == 200 || reply.status == 204) {
      SendRead(n1, GetUser(users[i].id));
      IdKept(users, i, linked);
      assert Act(n1.server.dir, GetUser(users[i].id)).0 == Reply(200, UserBody(linked));
    }
  }

  lemma IdKept(users: seq<User>, i: nat, now: User)
    requires UsersOk(users) && i < |users| && now.id == users[i].id
    ensures IndexOf(users[i := now], now.id) == Some(i)
  {
    var users' := users[i := now];
    forall j | 0 <= j < |users'| && j != i ensures users'[j].id != now.id {
      assert users'[j] == users[j];
    }
    assert users'[i].id == now.id;
  }

  lemma PatchEffect(cfg: Config, w: World, h: nat, u: User, i: nat)
    requires Truthful(w.net) && h < |w.records| && i < |Accounts(w.net)| && w.records[h] == Accounts(w.net)[i]
    requires Ext(w.records[h]) == Ext(u) && AnyDiff(Actionable(FieldDiffs(w.records[h], u, true), cfg.mode))
    requires !Taken(Accounts(w.net), Updated(w.records[h], u, cfg.mode), i)
    ensures BuildUpdate(u, cfg.mode, w.records[h].id, Actionable(FieldDiffs(w.records[h], u, true), cfg.mode)).Some?
    ensures var users := Accounts(w.net);
            var users' := users[i := Updated(w.records[h], u, cfg.mode)];
            var (raised, w') := PatchUser(cfg, w, h, u, Actionable(FieldDiffs(w.records[h], u, true), cfg.mode));
            && w'.records == w.records
            && (DirIs(w.net, w'.net, users) || DirIs(w.net, w'.net, users'))
            && (Calm(w.net) ==> Calm(w'.net) && !raised && DirIs(w.net, w'.net, users')
                                && w'.result == CountUpdated(w).result && |w'.writings| == |w.writings| + 1)
  {
    var act := Actionable(FieldDiffs(w.records[h], u, true), cfg.mode);
    UpdateUndoesDiff(w.records[h], u, cfg.mode, true);
    UpdateEffect(w.net, i, BuildUpdate(u, cfg.mode, w.records[h].id, act).value, Updated(w.records[h], u, cfg.mode));
  }

  /** A patch or a replacement for the differences of an account reaches at most that account. */
  lemma DiffsEffect(cfg: Config, w: World, h: nat, u: User, d: Diffs, repaired: bool, i: nat)
    requires Truthful(w.net) && h < |w.records| && i < |Accounts(w.net)| && w.records[h] == Accounts(w.net)[i]
    requires Ext(w.records[h]) == Ext(u) && d == FieldDiffs(w.records[h], u, true)
    requires !Taken(Accounts(w.net), Updated(w.records[h], u, cfg.mode), i)
    ensures var users, act := Accounts(w.net), Actionable(d, cfg.mode);
            var users' := users[i := Updated(w.records[h], u, cfg.mode)];
            var (raised, w') := ApplyDiffs(cfg, w, h, u, d, repaired);
            && w'.records == w.records
            && (DirIs(w.net, w'.net, users) || (AnyDiff(act) && DirIs(w.net, w'.net, users')))
            && (Calm(w.net) ==> Calm(w'.net) && !raised && DirIs(w.net, w'.net, if AnyDiff(act) then users' else users))
  {
    var act := Actionable(d, cfg.mode);
    assert w.net.server.dir == w.net.server.dir.(users := Accounts(w.net));
    if AnyDiff(act) {
      PatchEffect(cfg, NoteDouble(NoteStale(w, AnyDiff(Stale(d, cfg.mode))), repaired), h, u, i);
    }
  }

  // ----- one turn of the loop -----

  /** The directory is the one the run started from but for accounts the handled users own or had created. */
  ghost predicate InStep(cfg: Config, n0: Net, done: seq<User>, w: World) {
    && Truthful(n0) && Truthful(w.net)
    && Evolved(cfg, Accounts(n0), done, Accounts(w.net))
    && forall k :: 0 <= k < |done| ==> Ext(done[k]) != ""
  }

  /** A turn ends in one of these directories, so the run stays in step. */
  lemma TurnKeeps(cfg: Config, n0: Net, done: seq<User>, w: World, u: User, n': Net, i: nat, now: User)
    requires InStep(cfg, n0, done, w) && Fresh(done, u)
    requires i < |Accounts(n0)| && ChangedBy(cfg, Accounts(n0), u, i, now)
    requires Strip(now.userName) != "" && Ext(now) == Ext(u)
    requires DirIs(w.net, n', Accounts(w.net)[i := now])
    ensures Truthful(n') && Evolved(cfg, Accounts(n0), done + [u], Accounts(n'))
  {
    OwnedFree(cfg, Accounts(n0), done, Accounts(w.net), u, i, now);
    Untouched(cfg, Accounts(n0), done, Accounts(w.net), u, i);
    ReplaceGood(Accounts(w.net), i, now);
    EvolvedSet(cfg, Accounts(n0), done, Accounts(w.net), u, i, now);
  }

  lemma TurnIdle(cfg: Config, n0: Net, done: seq<User>, w: World, u: User, n': Net)
    requires InStep(cfg, n0, done, w) && DirIs(w.net, n', Accounts(w.net))
    ensures Truthful(n') && Evolved(cfg, Accounts(n0), done + [u], Accounts(n'))
  {
    EvolvedSame(cfg, Accounts(n0), done, Accounts(w.net), u);
  }

  lemma TargetOwned(cfg: Config, account: User, u: User)
    requires Ext(account) == Ext(u) && Strip(account.userName) != "" && Strip(u.userName) != ""
    ensures var now := Target(cfg, account, u);
            && now.id == account.id && now.externalId == account.externalId
            && (now.userName == account.userName || now.userName == u.userName)
            && Strip(now.userName) != ""
  {
    if AnyDiff(Actionable(FieldDiffs(account, u, true), cfg.mode)) {
      UpdateUndoesDiff(account, u, cfg.mode, true);
    }
  }

  /** Where a turn left the directory: as it was or with one account changed; as planned if nothing failed. */
  ghost predicate TurnOk(cfg: Config, n0: Net, done: seq<User>, w: World, u: User, w': World, planned: seq<User>) {
    && n0.server.Live? && Truthful(w'.net) && Evolved(cfg, Accounts(n0), done + [u], Accounts(w'.net))
    && (Calm(w.net) ==> Calm(w'.net) && DirIs(w.net, w'.net, planned))
  }

  lemma UpdateTurn(cfg: Config, n0: Net, done: seq<User>, w: World, h: nat, u: User, i: nat)
    requires InStep(cfg, n0, done, w) && Fresh(done, u) && h < |w.records|
    requires PlanFor(cfg, Accounts(n0), u) == UpdateOf(i) && w.records[h] == Accounts(n0)[i]
    ensures var w' := Reconcile(cfg, w, h, u, false).1;
            && w'.records == w.records
            && TurnOk(cfg, n0, done, w, u, w', Accounts(w.net)[i := Target(cfg, w.records[h], u)])
  {
    var cur, account := Accounts(w.net), w.records[h];
    Untouched(cfg, Accounts(n0), done, cur, u, i);
    TargetOwned(cfg, account, u);
    var d := FieldDiffs(account, u, true);
    var w' := Reconcile(cfg, w, h, u, false).1;
    assert w' == ApplyDiffs(cfg, w, h, u, d, false).1;
    if AnyDiff(Actionable(d, cfg.mode)) {
      OwnedFree(cfg, Accounts(n0), done, cur, u, i, Target(cfg, account, u));
      DiffsEffect(cfg, w, h, u, d, false, i);
      if DirIs(w.net, w'.net, cur) {
        TurnIdle(cfg, n0, done, w, u, w'.net);
      } else {
        TurnKeeps(cfg, n0, done, w, u, w'.net, i, Target(cfg, account, u));
      }
    } else {
      assert cur[i := account] == cur && w'.net == w.net;
      assert w.net.server.dir == w.net.server.dir.(users := cur);
      TurnIdle(cfg, n0, done, w, u, w'.net);
    }
  }

  lemma StripIdempotent(s: string)
    ensures Strip(Strip(s)) == Strip(s)
  {}

  /** The first half of a recovered turn: the repair of the link. */
  lemma RepairTurn(cfg: Config, n0: Net, done: seq<User>, w: World, h: nat, u: User, i: nat)
    requires InStep(cfg, n0, done, w) && Fresh(done, u) && h < |w.records|
    requires PlanFor(cfg, Accounts(n0), u) == LinkOf(i) && i < |Accounts(n0)| && w.records[h] == Accounts(n0)[i]
    ensures var linked := Linked(w.records[h], u);
            var (repair, w1) := PatchExternalId(w, h, u);
            && Truthful(w1.net) && Evolved(cfg, Accounts(n0), done + [u], Accounts(w1.net))
            && (Calm(w.net) ==> Calm(w1.net) && repair.Repaired?)
            && i < |Accounts(w.net)|
            && (repair.Repaired? ==> DirIs(w.net, w1.net, Accounts(w.net)[i := linked]) && w1.records == w.records[h := linked])
            && (!repair.Repaired? ==> w1.records == w.records)
  {
    var cur, account := Accounts(w.net), w.records[h];
    var linked := Linked(account, u);
    OwnedAccount(cfg, Accounts(n0), u, i);
    StripIdempotent(u.externalId);
    Untouched(cfg, Accounts(n0), done, cur, u, i);
    OwnedFree(cfg, Accounts(n0), done, cur, u, i, linked);
    LinkEffect(w, h, u, i);
    var (repair, w1) := PatchExternalId(w, h, u);
    if DirIs(w.net, w1.net, cur) {
      TurnIdle(cfg, n0, done, w, u, w1.net);
    } else {
      TurnKeeps(cfg, n0, done, w, u, w1.net, i, linked);
    }
  }

  lemma RepairedReconcile(cfg: Config, w: World, h: nat, u: User, w1: World)
    requires h < |w.records| && CanRecover(cfg, w.records[h], u) && Ext(w.records[h]) != Ext(u)
    requires PatchExternalId(w, h, u) == (Repaired, w1) && h < |w1.records|
    ensures Reconcile(cfg, w, h, u, true) == ApplyDiffs(cfg, w1, h, u, FieldDiffs(w1.records[h], u, false), true)
  {}

  lemma FailedReconcile(cfg: Config, w: World, h: nat, u: User)
    requires h < |w.records| && CanRecover(cfg, w.records[h], u) && Ext(w.records[h]) != Ext(u)
    requires !PatchExternalId(w, h, u).0.Repaired?
    ensures Reconcile(cfg, w, h, u, true).1 == PatchExternalId(w, h, u).1
  {}

  lemma LinkTurn(cfg: Config, n0: Net, done: seq<User>, w: World, h: nat, u: User, i: nat)
    requires InStep(cfg, n0, done, w) && Fresh(done, u) && h < |w.records|
    requires PlanFor(cfg, Accounts(n0), u) == LinkOf(i) && i < |Accounts(n0)| && w.records[h] == Accounts(n0)[i]
    ensures i < |Accounts(w.net)|
    ensures var w' := Reconcile(cfg, w, h, u, true).1;
            && (w'.records == w.records || w'.records == w.records[h := Linked(w.records[h], u)])
            && TurnOk(cfg, n0, done, w, u, w', Accounts(w.net)[i := Target(cfg, Linked(w.records[h], u), u)])
  {
    OwnedAccount(cfg, Accounts(n0), u, i);
    RepairTurn(cfg, n0, done, w, h, u, i);
    var (repair, w1) := PatchExternalId(w, h, u);
    if repair.Repaired? {
      RepairedReconcile(cfg, w, h, u, w1);
      RelinkedTurn(cfg, n0, done, w, h, u, i, w1);
    } else {
      FailedReconcile(cfg, w, h, u);
    }
  }

  lemma RelinkedFree(cfg: Config, n0: Net, done: seq<User>, w: World, account: User, u: User, i: nat)
    requires InStep(cfg, n0, done, w) && Fresh(done, u)
    requires PlanFor(cfg, Accounts(n0), u) == LinkOf(i) && i < |Accounts(n0)| && account == Accounts(n0)[i]
    ensures var linked := Linked(account, u);
            && i < |Accounts(w.net)| && Ext(linked) == Ext(u)
            && !Taken(Accounts(w.net)[i := linked], Updated(linked, u, cfg.mode), i)
            && ChangedBy(cfg, Accounts(n0), u, i, Target(cfg, linked, u))
            && Strip(Target(cfg, linked, u).userName) != "" && Ext(Target(cfg, linked, u)) == Ext(u)
  {
    var linked := Linked(account, u);
    OwnedAccount(cfg, Accounts(n0), u, i);
    StripIdempotent(u.externalId);
    TargetOwned(cfg, linked, u);
    OwnedFree(cfg, Accounts(n0), done, Accounts(w.net), u, i, Updated(linked, u, cfg.mode));
  }

  /** The second half: the rest of a turn whose link repair succeeded. */
  lemma RelinkedTurn(cfg: Config, n0: Net, done: seq<User>, w: World, h: nat, u: User, i: nat, w1: World)
    requires InStep(cfg, n0, done, w) && Fresh(done, u) && h < |w.records| && i < |Accounts(w.net)|
    requires PlanFor(cfg, Accounts(n0), u) == LinkOf(i) && i < |Accounts(n0)| && w.records[h] == Accounts(n0)[i]
    requires DirIs(w.net, w1.net, Accounts(w.net)[i := Linked(w.records[h], u)])
    requires Truthful(w1.net) && Evolved(cfg, Accounts(n0), done + [u], Accounts(w1.net))
    requires w1.records == w.records[h := Linked(w.records[h], u)] && (Calm(w.net) ==> Calm(w1.net))
    ensures var w' := ApplyDiffs(cfg, w1, h, u, FieldDiffs(w1.records[h], u, false), true).1;
            && w'.records == w1.records
            && TurnOk(cfg, n0, done, w, u, w', Accounts(w.net)[i := Target(cfg, Linked(w.records[h], u), u)])
  {
    var cur, linked := Accounts(w.net), Linked(w.records[h], u);
    var now := Target(cfg, linked, u);
    RelinkedFree(cfg, n0, done, w, w.records[h], u, i);
    var d := FieldDiffs(linked, u, true);
    assert FieldDiffs(w1.records[h], u, false) == d;
    DiffsEffect(cfg, w1, h, u, d, true, i);
    var w' := ApplyDiffs(cfg, w1, h, u, d, true).1;
    RelinkedEnd(cfg, n0, done, w, u, i, linked, now, w1, w');
  }

  lemma RelinkedEnd(cfg: Config, n0: Net, done: seq<User>, w: World, u: User, i: nat, linked: User, now: User, w1: World, w': World)
    requires InStep(cfg, n0, done, w) && Fresh(done, u) && i < |Accounts(w.net)| && i < |Accounts(n0)|
    requires ChangedBy(cfg, Accounts(n0), u, i, now) && Strip(now.userName) != "" && Ext(now) == Ext(u)
    requires DirIs(w.net, w1.net, Accounts(w.net)[i := linked])
    requires Truthful(w1.net) && Evolved(cfg, Accounts(n0), done + [u], Accounts(w1.net))
    requires DirIs(w1.net, w'.net, Accounts(w1.net)) || DirIs(w1.net, w'.net, Accounts(w1.net)[i := now])
    requires Calm(w.net) ==> Calm(w'.net) && DirIs(w1.net, w'.net, Accounts(w1.net)[i := now])
    ensures TurnOk(cfg, n0, done, w, u, w', Accounts(w.net)[i := now])
  {
    assert Accounts(w.net)[i := linked][i := now] == Accounts(w.net)[i := now];
    if !DirIs(w1.net, w'.net, Accounts(w1.net)) {
      TurnKeeps(cfg, n0, done, w, u, w'.net, i, now);
    }
  }

  // ----- creating -----

  /** A refused creation of a name nobody has writes nothing, and is a conflict once the lookup is answered. */
  lemma RefusedQuiet(cfg: Config, w: World, u: User)
    requires Truthful(w.net) && forall j :: 0 <= j < |Accounts(w.net)| ==> Name(Accounts(w.net)[j]) != Name(u)
    ensures var (raised, w') := Handle409(cfg, w, u);
            && SameDir(w.net, w'.net) && w'.records == w.records && w'.writings == w.writings
            && !raised && w'.result == if FetchPage(w.net, Filter(ByUserName, u.userName)).0.Some?
                                       then Conflict(w, u).result else Error(w).result
  {
    FetchPageTruth(w.net, Filter(ByUserName, u.userName));
    SelectNone(Accounts(w.net), ByUserName, u.userName);
  }

  lemma LastOwns(ix: Index, users: seq<User>, u: User)
    requires GoodUsers(users) && Ext(u) != "" && users != [] && Answers(ix, users, u)
    requires Ext(users[|users| - 1]) == Ext(u) && Name(users[|users| - 1]) == Name(u)
    ensures Sampled(ix.users, ix.byExt, Ext(u)) == Some(users[|users| - 1])
    ensures Sampled(ix.users, ix.byUser, Name(u)) == Some(users[|users| - 1])
  {
    OneOwner(users, ByExternalId, Ext(u), |users| - 1);
    OneOwner(users, ByUserName, u.userName, |users| - 1);
  }

  /** The lookups that confirm a created user only read, and confirm it when they are answered. */
  lemma CreationVerified(w: World, u: User, created: User)
    requires Truthful(w.net) && Ext(u) != "" && Strip(u.userName) != ""
    requires |Accounts(w.net)| > 0 && created == Accounts(w.net)[|Accounts(w.net)| - 1]
    requires Ext(created) == Ext(u) && Name(created) == Name(u)
    ensures var (ok, w') := VerifyCreated(w, u, UserBody(created));
            && SameDir(w.net, w'.net) && w'.(net := w.net) == w
            && (Calm(w.net) ==> Calm(w'.net) && ok)
  {
    LookupAllTruth(w.net, [u], EMPTY_INDEX);
    var (ix, n1) := LookupAll(w.net, [u], EMPTY_INDEX);
    if ix.Some? {
      assert Answers(ix.value, Accounts(w.net), [u][0]);
      LastOwns(ix.value, Accounts(w.net), u);
    }
  }

  lemma AppendKeeps(cfg: Config, n0: Net, done: seq<User>, w: World, u: User, n': Net, created: User)
    requires InStep(cfg, n0, done, w) && Fresh(done, u) && PlanFor(cfg, Accounts(n0), u) == Creation
    requires created == u.(id := w.net.server.dir.newId(Accounts(w.net)))
    requires DirIs(w.net, n', Accounts(w.net) + [created])
    ensures Truthful(n') && Evolved(cfg, Accounts(n0), done + [u], Accounts(n'))
  {
    CreationFree(cfg, Accounts(n0), done, Accounts(w.net), u);
    assert FreshId(Accounts(w.net), created.id);
    AppendGood(Accounts(w.net), created);
    EvolvedAppend(cfg, Accounts(n0), done, Accounts(w.net), u, created);
  }

  lemma PostTurn(cfg: Config, n0: Net, done: seq<User>, w: World, u: User)
    requires InStep(cfg, n0, done, w) && Fresh(done, u) && PlanFor(cfg, Accounts(n0), u) == Creation
    ensures var created := u.(id := w.net.server.dir.newId(Accounts(w.net)));
            var (reply, w1) := Write(w, u, None, CreateUser(u));
            && TurnOk(cfg, n0, done, w, u, w1, Accounts(w.net) + [created])
            && (Calm(w.net) ==> Succeeded(reply))
            && (Succeeded(reply) ==> DirIs(w.net, w1.net, Accounts(w.net) + [created]) && reply == Reply(201, UserBody(created)))
            && (!Succeeded(reply) ==> DirIs(w.net, w1.net, Accounts(w.net)) || reply.NetworkError?)
            && w1.records == w.records
  {
    var created := u.(id := w.net.server.dir.newId(Accounts(w.net)));
    CreationFree(cfg, Accounts(n0), done, Accounts(w.net), u);
    CreateEffect(w.net, u, created);
    var w1 := Write(w, u, None, CreateUser(u)).1;
    if DirIs(w.net, w1.net, Accounts(w.net)) {
      TurnIdle(cfg, n0, done, w, u, w1.net);
    } else {
      AppendKeeps(cfg, n0, done, w, u, w1.net, created);
    }
  }

  lemma TurnOkRead(cfg: Config, n0: Net, done: seq<User>, w: World, u: User, w1: World, w': World, planned: seq<User>)
    requires w.net.server.Live? && TurnOk(cfg, n0, done, w, u, w1, planned) && SameDir(w1.net, w'.net)
    requires Calm(w1.net) ==> Calm(w'.net)
    ensures TurnOk(cfg, n0, done, w, u, w', planned)
  {}

  lemma AcceptedCreation(cfg: Config, w: World, u: User, verify: bool, created: User)
    requires Write(w, u, None, CreateUser(u)).0 == Reply(201, UserBody(created))
    ensures var w1 := Write(w, u, None, CreateUser(u)).1;
            Create(cfg, w, u, verify) == (false, Confirm(w1, u, verify, UserBody(created)))
  {}

  lemma RefusedCreation(cfg: Config, w: World, u: User, verify: bool)
    requires !Succeeded(Write(w, u, None, CreateUser(u)).0)
    ensures var (reply, w1) := Write(w, u, None, CreateUser(u));
            Create(cfg, w, u, verify)
            == if reply.NetworkError? then (true, w1) else if reply.status == 409 then Handle409(cfg, w1, u) else (false, Error(w1))
  {}

  lemma CreateTurn(cfg: Config, n0: Net, done: seq<User>, w: World, u: User, verify: bool)
    requires InStep(cfg, n0, done, w) && Fresh(done, u) && PlanFor(cfg, Accounts(n0), u) == Creation
    ensures var created := u.(id := w.net.server.dir.newId(Accounts(w.net)));
            var w' := Create(cfg, w, u, verify).1;
            && w'.records == w.records
            && TurnOk(cfg, n0, done, w, u, w', Accounts(w.net) + [created])
  {
    var created := u.(id := w.net.server.dir.newId(Accounts(w.net)));
    var planned := Accounts(w.net) + [created];
    PostTurn(cfg, n0, done, w, u);
    var (reply, w1) := Write(w, u, None, CreateUser(u));
    var w' := Create(cfg, w, u, verify).1;
    if Succeeded(reply) {
      AcceptedCreation(cfg, w, u, verify, created);
      CreationVerified(w1, u, created);
      TurnOkRead(cfg, n0, done, w, u, w1, w', planned);
    } else {
      RefusedCreation(cfg, w, u, verify);
      if reply.Reply? && reply.status == 409 {
        CreationFree(cfg, Accounts(n0), done, Accounts(w.net), u);
        RefusedQuiet(cfg, w1, u);
        TurnOkRead(cfg, n0, done, w, u, w1, w', planned);
      }
    }
  }

  // ----- the run -----

  /** The directory after a user's turn in which every call succeeds. */
  function Place(cfg: Config, users: seq<User>, cur: seq<User>, newId: seq<User> -> string, u: User): seq<User> {
    match PlanFor(cfg, users, u)
    case Conflicting => cur
    case Creation => cur + [u.(id := newId(cur))]
    case UpdateOf(i) => if i < |cur| then cur[i := Target(cfg, users[i], u)] else cur
    case LinkOf(i) => if i < |cur| then cur[i := Target(cfg, Linked(users[i], u), u)] else cur
  }

  lemma IdleTurn(cfg: Config, n0: Net, done: seq<User>, w: World, u: User, w': World)
    requires InStep(cfg, n0, done, w) && w'.net == w.net
    ensures TurnOk(cfg, n0, done, w, u, w', Accounts(w.net))
  {
    assert w.net.server.dir == w.net.server.dir.(users := Accounts(w.net));
    TurnIdle(cfg, n0, done, w, u, w'.net);
  }

  lemma RecoveredTurn(cfg: Config, n0: Net, done: seq<User>, w: World, ix: Index, h: nat, u: User, i: nat)
    requires InStep(cfg, n0, done, w) && Fresh(done, u) && CellsStay(ix, done, w.records)
    requires Find(Accounts(n0), ByExternalId, Ext(u)).None? && Find(Accounts(n0), ByUserName, u.userName) == Some(i)
    requires h < |ix.users| && w.records[h] == ix.users[h] == Accounts(n0)[i]
    ensures var w' := Reconcile(cfg, w, h, u, true).1;
            && CellsStay(ix, done + [u], w'.records)
            && TurnOk(cfg, n0, done, w, u, w', Place(cfg, Accounts(n0), Accounts(w.net), w.net.server.dir.newId, u))
  {
    CellsStaySame(ix, done, u, w.records);
    if CanRecover(cfg, w.records[h], u) {
      OwnedAccount(cfg, Accounts(n0), u, i);
      LinkTurn(cfg, n0, done, w, h, u, i);
      CellsStaySet(ix, done, u, w.records, h, Linked(w.records[h], u));
    } else {
      IdleTurn(cfg, n0, done, w, u, Reconcile(cfg, w, h, u, true).1);
    }
  }

  lemma LinkedTurn(cfg: Config, n0: Net, done: seq<User>, w: World, ix: Index, h: nat, u: User, i: nat)
    requires InStep(cfg, n0, done, w) && Fresh(done, u) && CellsStay(ix, done, w.records)
    requires PlanFor(cfg, Accounts(n0), u) == UpdateOf(i)
    requires h < |ix.users| && w.records[h] == Accounts(n0)[i]
    ensures var w' := Reconcile(cfg, w, h, u, false).1;
            && CellsStay(ix, done + [u], w'.records)
            && TurnOk(cfg, n0, done, w, u, w', Place(cfg, Accounts(n0), Accounts(w.net), w.net.server.dir.newId, u))
  {
    CellsStaySame(ix, done, u, w.records);
    OwnedAccount(cfg, Accounts(n0), u, i);
    UpdateTurn(cfg, n0, done, w, h, u, i);
  }

  lemma NewTurn(cfg: Config, n0: Net, done: seq<User>, w: World, ix: Index, u: User, filtered: bool)
    requires InStep(cfg, n0, done, w) && Fresh(done, u) && CellsStay(ix, done, w.records)
    requires PlanFor(cfg, Accounts(n0), u) == Creation
    ensures var w' := Create(cfg, w, u, filtered).1;
            && CellsStay(ix, done + [u], w'.records)
            && TurnOk(cfg, n0, done, w, u, w', Place(cfg, Accounts(n0), Accounts(w.net), w.net.server.dir.newId, u))
  {
    CellsStaySame(ix, done, u, w.records);
    CreateTurn(cfg, n0, done, w, u, filtered);
  }

  /** A network error that ends a turn is only counted. */
  lemma ErrorTurn(cfg: Config, n0: Net, done: seq<User>, w: World, ix: Index, u: User, t: World, w': World, planned: seq<User>)
    requires w.net.server.Live? && TurnOk(cfg, n0, done, w, u, t, planned) && CellsStay(ix, done + [u], t.records)
    requires w' == t || w' == Error(t)
    ensures TurnOk(cfg, n0, done, w, u, w', planned) && CellsStay(ix, done + [u], w'.records)
  {}

  /** A turn, on the cells of a matched account or on none. */
  function Turn(cfg: Config, w: World, u: User, m: Match, filtered: bool): (bool, World)
    requires m.Matched? ==> m.h < |w.records|
  {
    match m
    case Clash => (false, Conflict(w, u))
    case NoMatch => Create(cfg, w, u, filtered)
    case Matched(h, byName) => Reconcile(cfg, w, h, u, byName)
  }

  lemma SyncOneIsTurn(cfg: Config, w: World, ix: Index, u: User, filtered: bool)
    ensures var (raised, t) := Turn(cfg, w, u, MatchUser(u, w.records, ix.byExt, ix.byUser), filtered);
            SyncOne(cfg, w, ix, u, filtered) == if raised then Error(t) else t
  {}

  lemma TurnFollows(cfg: Config, n0: Net, done: seq<User>, w: World, ix: Index, u: User, filtered: bool)
    requires InStep(cfg, n0, done, w) && Fresh(done, u) && CellsStay(ix, done, w.records)
    requires IndexOk(ix) && Answers(ix, Accounts(n0), u)
    ensures var w' := Turn(cfg, w, u, MatchUser(u, w.records, ix.byExt, ix.byUser), filtered).1;
            && CellsStay(ix, done + [u], w'.records)
            && TurnOk(cfg, n0, done, w, u, w', Place(cfg, Accounts(n0), Accounts(w.net), w.net.server.dir.newId, u))
  {
    var users := Accounts(n0);
    MatchIsPlan(cfg, users, done, ix, w.records, u);
    match MatchUser(u, w.records, ix.byExt, ix.byUser)
    case Clash =>
      CellsStaySame(ix, done, u, w.records);
      IdleTurn(cfg, n0, done, w, u, Conflict(w, u));
    case NoMatch => NewTurn(cfg, n0, done, w, ix, u, filtered);
    case Matched(h, byName) =>
      if byName {
        RecoveredTurn(cfg, n0, done, w, ix, h, u, Find(users, ByUserName, u.userName).value);
      } else {
        LinkedTurn(cfg, n0, done, w, ix, h, u, Find(users, ByExternalId, Ext(u)).value);
      }
  }

  lemma SyncOneTurn(cfg: Config, n0: Net, done: seq<User>, w: World, ix: Index, u: User, filtered: bool)
    requires InStep(cfg, n0, done, w) && Fresh(done, u) && CellsStay(ix, done, w.records)
    requires IndexOk(ix) && Answers(ix, Accounts(n0), u)
    ensures var w' := SyncOne(cfg, w, ix, u, filtered);
            && CellsStay(ix, done + [u], w'.records)
            && TurnOk(cfg, n0, done, w, u, w', Place(cfg, Accounts(n0), Accounts(w.net), w.net.server.dir.newId, u))
  {
    var t := Turn(cfg, w, u, MatchUser(u, w.records, ix.byExt, ix.byUser), filtered).1;
    TurnFollows(cfg, n0, done, w, ix, u, filtered);
    SyncOneIsTurn(cfg, w, ix, u, filtered);
    ErrorTurn(cfg, n0, done, w, ix, u, t, SyncOne(cfg, w, ix, u, filtered),
              Place(cfg, Accounts(n0), Accounts(w.net), w.net.server.dir.newId, u));
  }

  lemma ValidInit(source: seq<User>)
    requires ValidSource(source) && source != []
    ensures ValidSource(source[..|source| - 1]) && Fresh(source[..|source| - 1], source[|source| - 1])
  {}

  /** The directory a run leaves when every call succeeds. */
  function PlannedAccounts(cfg: Config, users: seq<User>, newId: seq<User> -> string, source: seq<User>): seq<User> {
    if source == [] then users
    else
      Place(cfg, users, PlannedAccounts(cfg, users, newId, source[..|source| - 1]), newId, source[|source| - 1])
  }

  lemma CoversInit(ix: Index, users: seq<User>, source: seq<User>)
    requires Covers(ix, users, source) && source != []
    ensures Covers(ix, users, source[..|source| - 1]) && Answers(ix, users, source[|source| - 1])
  {
    var init := source[..|source| - 1];
    forall k | 0 <= k < |init| ensures Answers(ix, users, init[k]) {
      assert init[k] == source[k];
    }
  }

  lemma {:induction false} RunKeeps(cfg: Config, n0: Net, w: World, ix: Index, source: seq<User>, filtered: bool)
    requires Truthful(n0) && SameDir(n0, w.net) && ValidSource(source) && w.records == ix.users
    requires Covers(ix, Accounts(n0), source)
    ensures var w' := SyncEach(cfg, w, ix, source, filtered);
            && InStep(cfg, n0, source, w') && CellsStay(ix, source, w'.records)
            && (Calm(w.net) ==>
                  && Calm(w'.net)
                  && DirIs(n0, w'.net, PlannedAccounts(cfg, Accounts(n0), n0.server.dir.newId, source)))
    decreases |source|
  {
    if source == [] {
      assert n0.server.dir == n0.server.dir.(users := Accounts(n0));
    } else {
      var init, u := source[..|source| - 1], source[|source| - 1];
      ValidInit(source);
      CoversInit(ix, Accounts(n0), source);
      RunKeeps(cfg, n0, w, ix, init, filtered);
      SyncOneTurn(cfg, n0, init, SyncEach(cfg, w, ix, init, filtered), ix, u, filtered);
      assert init + [u] == source;
    }
  }

  // ----- the whole synchronisation -----

  lemma SyncKeeps(cfg: Config, n: Net, source: seq<User>)
    requires Truthful(n) && ValidSource(source)
    ensures var (w, n') := Sync(cfg, n, source);
            && Truthful(n') && (Calm(n) ==> Calm(n') && w.Some?)
            && (w.None? ==> SameDir(n, n'))
            && Evolved(cfg, Accounts(n), source, Accounts(n'))
            && (Calm(n) ==> DirIs(n, n', PlannedAccounts(cfg, Accounts(n), n.server.dir.newId, source)))
  {
    ReadServerTruth(n, source);
    var (r, n1) := ReadServer(n, source);
    if r.Some? {
      RunKeeps(cfg, n, StartWorld(n1, r.value.index), r.value.index, source, r.value.filtered);
    }
  }

  /** Who may have changed an account: the user with its externalId, or, when recovery is opted in, the user
      with the name of an unlinked account. */
  predicate RightfulOwner(cfg: Config, account: User, u: User) {
    Ext(u) == Ext(account) || (cfg.recovery && Ext(account) == "" && Name(account) == Name(u))
  }

  /** The account is as it was, or has become what its rightful owner is entitled to: the mode's target, the
      repaired link, or the target after that repair. */
  predicate ChangedFor(cfg: Config, was: User, now: User, u: User) {
    RightfulOwner(cfg, was, u)
    && (if Ext(was) != "" then now == Target(cfg, was, u)
        else now == Linked(was, u) || now == Target(cfg, Linked(was, u), u))
  }

  ghost predicate ChangedForOwner(cfg: Config, was: User, now: User, source: seq<User>) {
    exists k :: 0 <= k < |source| && ChangedFor(cfg, was, now, source[k])
  }

  /** No account had either identity of this user. */
  predicate Newcomer(users: seq<User>, u: User) {
    Find(users, ByExternalId, Ext(u)).None? && Find(users, ByUserName, u.userName).None?
  }

  ghost predicate AddedForNewcomer(users: seq<User>, source: seq<User>, account: User) {
    exists k :: 0 <= k < |source| && Newcomer(users, source[k]) && account == source[k].(id := account.id)
  }

  /** On a truthful directory, for a source with distinct identities and whatever calls fail, a whole run
      removes no account, changes no id and no non-blank externalId, leaves every account as it was or as what
      its rightful owner is entitled to, adds only the records of users none of whose identities existed, and
      leaves the directory well-formed. */
  lemma OwnershipFrame(cfg: Config, n: Net, source: seq<User>)
    requires Truthful(n) && ValidSource(source)
    ensures var n' := Sync(cfg, n, source).1;
            && Truthful(n') && |Accounts(n)| <= |Accounts(n')|
    ensures var users, users' := Accounts(n), Accounts(Sync(cfg, n, source).1);
            && (forall i :: 0 <= i < |users| ==>
                  && users'[i].id == users[i].id
                  && (Ext(users[i]) != "" ==> users'[i].externalId == users[i].externalId)
                  && (users'[i] == users[i] || ChangedForOwner(cfg, users[i], users'[i], source)))
            && (forall i :: |users| <= i < |users'| ==> AddedForNewcomer(users, source, users'[i]))
  {
    SyncKeeps(cfg, n, source);
    FrameOf(cfg, Accounts(n), source, Accounts(Sync(cfg, n, source).1));
  }

  predicate KeepsIdentity(was: User, now: User) {
    now.id == was.id && (Ext(was) != "" ==> now.externalId == was.externalId)
  }

  lemma FrameAt(cfg: Config, users: seq<User>, source: seq<User>, i: nat, now: User)
    requires i < |users| && Kept(cfg, users, source, i, now) && now != users[i]
    requires forall k :: 0 <= k < |source| ==> Ext(source[k]) != ""
    ensures ChangedForOwner(cfg, users[i], now, source) && KeepsIdentity(users[i], now)
  {
    var k :| 0 <= k < |source| && ChangedBy(cfg, users, source[k], i, now);
    OwnedAccount(cfg, users, source[k], i);
    OutcomeIsChange(cfg, users, source[k], i, now);
  }

  lemma OutcomeIsChange(cfg: Config, users: seq<User>, u: User, i: nat, now: User)
    requires i < |users| && ChangedBy(cfg, users, u, i, now)
    ensures ChangedFor(cfg, users[i], now, u) || Ext(u) == ""
  {
    OwnedAccount(cfg, users, u, i);
  }

  lemma FrameOf(cfg: Config, users: seq<User>, source: seq<User>, users': seq<User>)
    requires Evolved(cfg, users, source, users') && forall k :: 0 <= k < |source| ==> Ext(source[k]) != ""
    ensures forall i :: 0 <= i < |users| ==>
              && users'[i].id == users[i].id
              && (Ext(users[i]) != "" ==> users'[i].externalId == users[i].externalId)
              && (users'[i] == users[i] || ChangedForOwner(cfg, users[i], users'[i], source))
    ensures forall i :: |users| <= i < |users'| ==> AddedForNewcomer(users, source, users'[i])
  {
    forall i | 0 <= i < |users| && users'[i] != users[i]
      ensures ChangedForOwner(cfg, users[i], users'[i], source) && KeepsIdentity(users[i], users'[i])
    {
      FrameAt(cfg, users, source, i, users'[i]);
    }
    forall i | |users| <= i < |users'| ensures AddedForNewcomer(users, source, users'[i]) {
      assert Added(cfg, users, source, users'[i]);
    }
  }
}
