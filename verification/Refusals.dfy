/** What a turn that creates an account ends in, whatever the server answers, read off the calls it made
    (app/scim/apple.py): how a refused creation is resolved, and when an accepted one counts. */
module Refusals {
  import opened Wrappers
  import opened Text
  import opened Records
  import opened ScimServer
  import opened Listing
  import opened Preflight
  import opened Engine
  import opened Accounting
  import opened Evidence

  // ----- the answer to the lookup by name -----

  /** The answer is a page from the start that announces `t` users, counts its own rightly, and does not stop before
      the first. */
  predicate Announces(a: Reply, t: nat) {
    && a.Reply? && a.status == 200 && a.body.PageBody?
    && var p := a.body.page;
       && p.total == Num(t) && (p.start.Absent? || p.start == Num(0) || p.start == Num(1))
       && (match p.resources
           case NoResources => t == 0 && (p.perPage.Absent? || p.perPage == Num(0))
           case BadResources => false
           case Users(us) => |us| <= t && (us == [] ==> t == 0) && (p.perPage.Absent? || p.perPage == Num(|us|)))
  }

  /** The answer announces one user, and this is it. */
  predicate AnnouncesOnly(a: Reply, x: User) {
    Announces(a, 1) && a.body.page.resources == Users([x])
  }

  /** The announced user can be the one whose creation was refused: it has a usable id and the user's name. */
  predicate IsNamesake(x: User, u: User) {
    SafeId(x.id) && Strip(x.userName) != "" && Name(x) == Name(u)
  }

  /** The account may be taken for the user's: it is linked to the user, or to nobody with recovery opted in. */
  predicate MayBe(cfg: Config, x: User, u: User) {
    Ext(u) != "" && (Ext(x) == Ext(u) || (Ext(x) == "" && cfg.recovery))
  }

  lemma AnsweredPage(a: Reply, t: nat)
    ensures Announces(a, t)
            <==> a.Reply? && a.status == 200 && a.body.PageBody?
                 && ValidatePage(FromZero(a.body.page), 1, None).Some?
                 && ValidatePage(FromZero(a.body.page), 1, None).value.1 == t
  {}

  lemma AnsweredUsers(a: Reply)
    requires Announces(a, 1)
    ensures exists x :: AnnouncesOnly(a, x)
    ensures forall x :: AnnouncesOnly(a, x) ==> ValidatePage(FromZero(a.body.page), 1, None).value.0 == [x]
  {
    var us := a.body.page.resources.users;
    assert us == [us[0]];
    assert AnnouncesOnly(a, us[0]);
  }

  // ----- what a turn writes -----

  /** The new writings are updates of the account with this id, and the calls go on from where they were. */
  predicate UpdatesOnly(w: World, w': World, id: string) {
    && w.writings <= w'.writings && w.net.trace <= w'.net.trace
    && forall i :: |w.writings| <= i < |w'.writings| ==>
         w'.writings[i].request.UpdateUser? && w'.writings[i].request.id == id
  }

  lemma PatchUserOnly(cfg: Config, w: World, h: nat, u: User, d: Diffs)
    requires h < |w.records| && BuildUpdate(u, cfg.mode, w.records[h].id, d).Some?
    ensures UpdatesOnly(w, PatchUser(cfg, w, h, u, d).1, w.records[h].id)
  {}

  lemma ApplyDiffsOnly(cfg: Config, w: World, h: nat, u: User, d: Diffs, repaired: bool)
    requires h < |w.records|
    ensures UpdatesOnly(w, ApplyDiffs(cfg, w, h, u, d, repaired).1, w.records[h].id)
  {
    var act, w1 := Actionable(d, cfg.mode), NoteStale(w, AnyDiff(Stale(d, cfg.mode)));
    if AnyDiff(act) {
      assert BuildUpdate(u, cfg.mode, w.records[h].id, act).Some? by { UpdateBuiltIff(u, cfg.mode, w.records[h].id, d); }
      PatchUserOnly(cfg, NoteDouble(w1, repaired), h, u, act);
    }
  }

  lemma PatchExternalIdOnly(w: World, h: nat, u: User)
    requires h < |w.records|
    ensures var (repair, w') := PatchExternalId(w, h, u);
            && UpdatesOnly(w, w', w.records[h].id) && |w'.records| == |w.records|
            && (repair.Repaired? ==> w'.records[h].id == w.records[h].id)
  {}

  lemma UpdatesCompose(a: World, b: World, c: World, id: string)
    requires UpdatesOnly(a, b, id) && UpdatesOnly(b, c, id)
    ensures UpdatesOnly(a, c, id)
  {
    forall i | |a.writings| <= i < |c.writings| ensures c.writings[i].request.UpdateUser? && c.writings[i].request.id == id {
      assert i < |b.writings| ==> c.writings[i] == b.writings[i];
    }
  }

  /** Reconciling an account makes no calls about another. */
  lemma ReconcileOnly(cfg: Config, w: World, h: nat, u: User, recovered: bool)
    requires h < |w.records|
    ensures UpdatesOnly(w, Reconcile(cfg, w, h, u, recovered).1, w.records[h].id)
  {
    if !(recovered && !CanRecover(cfg, w.records[h], u)) {
      var d := FieldDiffs(w.records[h], u, true);
      if recovered && d.externalId {
        PatchExternalIdOnly(w, h, u);
        var (repair, w1) := PatchExternalId(w, h, u);
        if repair.Repaired? {
          ApplyDiffsOnly(cfg, w1, h, u, FieldDiffs(w1.records[h], u, false), true);
          UpdatesCompose(w, w1, ApplyDiffs(cfg, w1, h, u, FieldDiffs(w1.records[h], u, false), true).1, w.records[h].id);
        }
      } else {
        ApplyDiffsOnly(cfg, w, h, u, d, false);
      }
    }
  }

  /** Nothing was written, and one conflict or one error was counted. */
  predicate OnlyConflict(w: World, w': World, u: User) {
    && w'.writings == w.writings
    && w'.result == w.result.(conflicts := w.result.conflicts + 1,
                              conflictNames := w.result.conflictNames + if u.userName != "" then [u.userName] else [])
  }

  predicate OnlyError(w: World, w': World) {
    w'.writings == w.writings && w'.result == w.result.(errors := w.result.errors + 1)
  }

  /** How a refused creation ends, from the answer to the lookup of the name. No usable answer is an error; any
      other number of accounts than one is a conflict; one that is not of the name, or has an unusable id, is an
      error; and one that may not be taken for the user's is a conflict, or an error if it cannot be confirmed, while
      one that may is no conflict. Whatever else is written is written to the one announced account. */
  ghost predicate Resolved(cfg: Config, w: World, w': World, u: User, a: Reply) {
    && ((forall t: nat :: !Announces(a, t)) ==> OnlyError(w, w'))
    && (forall t: nat :: Announces(a, t) && t != 1 ==> OnlyConflict(w, w', u))
    && (forall x :: AnnouncesOnly(a, x) ==>
          && (!IsNamesake(x, u) ==> OnlyError(w, w'))
          && (IsNamesake(x, u) && !MayBe(cfg, x, u) ==>
                OnlyConflict(w, w', u) || (a.body.page.start == Num(0) && OnlyError(w, w')))
          && (IsNamesake(x, u) && MayBe(cfg, x, u) ==> w'.result.conflicts == w.result.conflicts)
          && UpdatesOnly(w, w', x.id))
  }

  lemma FoundVerified(w: World, u: User, found: User)
    ensures var (user, w') := VerifyFound(w, u, found);
            && w.net.trace <= w'.net.trace
            && (user.Some? ==> user.value.id == found.id && Ext(user.value) == Ext(found))
  {
    VerifyFoundReported(w, u, found);
  }

  lemma IdentifyOne(w: World, u: User, x: User)
    requires var (reply, net) := Send(w.net, Filter(ByUserName, u.userName)); AnnouncesOnly(reply, x)
    ensures var a, (id, w') := Send(w.net, Filter(ByUserName, u.userName)).0, Identify(w, u);
            && w'.(net := w.net) == w && w.net.trace <= w'.net.trace
            && (!IsNamesake(x, u) ==> id == Unclear)
            && (id.NotOne? ==> false)
            && (id.Unclear? && IsNamesake(x, u) ==> a.body.page.start == Num(0))
            && (id.Identified? ==> id.user.id == x.id && Ext(id.user) == Ext(x))
  {
    var (a, net) := Send(w.net, Filter(ByUserName, u.userName));
    AnsweredPage(a, 1);
    AnsweredUsers(a);
    FoundVerified(w.(net := net), u, x);
  }

  lemma IdentifyMany(w: World, u: User, t: nat)
    requires var (reply, net) := Send(w.net, Filter(ByUserName, u.userName)); Announces(reply, t) && t != 1
    ensures Identify(w, u).0 == NotOne && Identify(w, u).1.(net := w.net) == w
  {
    AnsweredPage(Send(w.net, Filter(ByUserName, u.userName)).0, t);
  }

  lemma IdentifyNone(w: World, u: User)
    requires var (reply, net) := Send(w.net, Filter(ByUserName, u.userName)); forall t: nat :: !Announces(reply, t)
    ensures Identify(w, u).0 == Unclear && Identify(w, u).1.(net := w.net) == w
  {
    var a := Send(w.net, Filter(ByUserName, u.userName)).0;
    if a.Reply? && a.status == 200 && a.body.PageBody? && ValidatePage(FromZero(a.body.page), 1, None).Some? {
      AnsweredPage(a, ValidatePage(FromZero(a.body.page), 1, None).value.1);
    }
  }

  /** Reconciling an account that may be the user's counts no conflict. */
  lemma ReconcileAgrees(cfg: Config, w: World, h: nat, u: User)
    requires h < |w.records| && CanRecover(cfg, w.records[h], u)
    ensures Reconcile(cfg, w, h, u, true).1.result.conflicts == w.result.conflicts
  {
    var d := FieldDiffs(w.records[h], u, true);
    if d.externalId {
      RepairAgrees(w, h, u);
      var (repair, w1) := PatchExternalId(w, h, u);
      if repair.Repaired? {
        ApplyDiffsAgrees(cfg, w1, h, u, FieldDiffs(w1.records[h], u, false), true);
      }
    } else {
      ApplyDiffsAgrees(cfg, w, h, u, d, false);
    }
  }

  lemma RepairAgrees(w: World, h: nat, u: User)
    requires h < |w.records|
    ensures var w' := PatchExternalId(w, h, u).1;
            w'.result.conflicts == w.result.conflicts && |w'.records| == |w.records|
  {}

  lemma ApplyDiffsAgrees(cfg: Config, w: World, h: nat, u: User, d: Diffs, repaired: bool)
    requires h < |w.records|
    ensures ApplyDiffs(cfg, w, h, u, d, repaired).1.result.conflicts == w.result.conflicts
  {
    if AnyDiff(Actionable(d, cfg.mode)) {
      UpdateBuiltIff(u, cfg.mode, w.records[h].id, d);
    }
  }

  /** What reconciling the one identified account adds. */
  lemma IdentifiedEnds(cfg: Config, w: World, u: User, found: User)
    ensures var w' := Reconcile(cfg, WithCell(w, found), |w.records|, u, true).1;
            && UpdatesOnly(w, w', found.id)
            && (!MayBe(cfg, found, u) ==> OnlyConflict(w, w', u))
            && (MayBe(cfg, found, u) ==> w'.result.conflicts == w.result.conflicts)
  {
    var w1 := WithCell(w, found);
    assert w1.records[|w.records|] == found;
    ReconcileOnly(cfg, w1, |w.records|, u, true);
    if CanRecover(cfg, found, u) {
      ReconcileAgrees(cfg, w1, |w.records|, u);
    }
  }

  lemma IdentifiedResolved(cfg: Config, w: World, u: User, x: User)
    requires var (reply, net) := Send(w.net, Filter(ByUserName, u.userName)); AnnouncesOnly(reply, x)
    ensures Resolved(cfg, w, Handle409(cfg, w, u).1, u, Send(w.net, Filter(ByUserName, u.userName)).0)
  {
    var (id, w1) := Identify(w, u);
    IdentifyOne(w, u, x);
    if id.Identified? {
      IdentifiedEnds(cfg, w1, u, id.user);
    }
  }

  /** A network error leaves the function only out of an update. */
  lemma ReconcileRaises(cfg: Config, w: World, h: nat, u: User)
    requires h < |w.records|
    ensures var (raised, w') := Reconcile(cfg, w, h, u, true);
            raised ==> |w'.writings| > |w.writings|
  {
    var d := FieldDiffs(w.records[h], u, true);
    if CanRecover(cfg, w.records[h], u) {
      if d.externalId {
        PatchExternalIdOnly(w, h, u);
        var (repair, w1) := PatchExternalId(w, h, u);
        assert |w1.writings| == |w.writings| + 1;
        if repair.Repaired? {
          ApplyDiffsOnly(cfg, w1, h, u, FieldDiffs(w1.records[h], u, false), true);
        }
      } else {
        ApplyDiffsRaises(cfg, w, h, u, d, false);
      }
    }
  }

  lemma ApplyDiffsRaises(cfg: Config, w: World, h: nat, u: User, d: Diffs, repaired: bool)
    requires h < |w.records|
    ensures var (raised, w') := ApplyDiffs(cfg, w, h, u, d, repaired);
            raised ==> |w'.writings| > |w.writings|
  {
    if AnyDiff(Actionable(d, cfg.mode)) {
      UpdateBuiltIff(u, cfg.mode, w.records[h].id, d);
    }
  }

  /** The lookup by name comes first. */
  lemma Handle409Calls(cfg: Config, w: World, u: User)
    ensures var (raised, w') := Handle409(cfg, w, u);
            && Send(w.net, Filter(ByUserName, u.userName)).1.trace <= w'.net.trace
            && (raised ==> |w'.writings| > |w.writings|)
  {
    var net := Send(w.net, Filter(ByUserName, u.userName)).1;
    var (id, w1) := Identify(w, u);
    assert net.trace <= w1.net.trace by {
      IdentifyCalls(w, u);
    }
    if id.Identified? {
      ReconcileOnly(cfg, WithCell(w1, id.user), |w1.records|, u, true);
      ReconcileRaises(cfg, WithCell(w1, id.user), |w1.records|, u);
    }
  }

  lemma IdentifyCalls(w: World, u: User)
    ensures Send(w.net, Filter(ByUserName, u.userName)).1.trace <= Identify(w, u).1.net.trace
  {
    var (page, net) := FetchPage(w.net, Filter(ByUserName, u.userName));
    if page.Some? && ValidatePage(FromZero(page.value), 1, None).Some? {
      var (users, total) := ValidatePage(FromZero(page.value), 1, None).value;
      if total == 1 {
        FoundVerified(w.(net := net), u, users[0]);
      }
    }
  }

  lemma Handle409Resolves(cfg: Config, w: World, u: User)
    ensures Resolved(cfg, w, Handle409(cfg, w, u).1, u, Send(w.net, Filter(ByUserName, u.userName)).0)
  {
    var a := Send(w.net, Filter(ByUserName, u.userName)).0;
    if Announces(a, 1) {
      AnsweredUsers(a);
      var x :| AnnouncesOnly(a, x);
      IdentifiedResolved(cfg, w, u, x);
    } else if t: nat :| Announces(a, t) {
      IdentifyMany(w, u, t);
    } else {
      IdentifyNone(w, u);
    }
  }

  // ----- an accepted creation -----

  /** The answer has exactly this user. */
  predicate ShowsOnly(a: Reply, x: User) {
    a.Reply? && a.status == 200 && a.body.PageBody? && a.body.page.total == Num(1) && a.body.page.resources == Users([x])
  }

  /** Both lookups and a fresh read show the account the creation answered with, and it is the user's. */
  ghost predicate ConfirmedBy(calls: seq<Call>, u: User, created: Body) {
    && created.UserBody? && SafeId(created.user.id) && |calls| == 3
    && calls[0].request == Filter(ByExternalId, Ext(u)) && calls[1].request == Filter(ByUserName, u.userName)
    && calls[2].request == GetUser(created.user.id)
    && (exists x :: ShowsOnly(calls[0].reply, x) && x.id == created.user.id && Ext(x) == Ext(u))
    && (exists x :: ShowsOnly(calls[1].reply, x) && x.id == created.user.id && Name(x) == Name(u))
    && calls[2].reply.Reply? && calls[2].reply.status == 200 && calls[2].reply.body.UserBody?
    && var x := calls[2].reply.body.user;
       x.id == created.user.id && Ext(x) == Ext(u) && Name(x) == Name(u)
  }

  lemma LookupShows(n: Net, attr: Attr, value: string)
    ensures var (found, n') := Lookup(n, attr, value, None);
            var (reply, n1) := Send(n, Filter(attr, value));
            && n' == n1 && n'.trace == n.trace + [Call(Filter(attr, value), reply)]
            && (found.Some? && found.value.Some? ==> ShowsOnly(reply, found.value.value) && Has(found.value.value, attr, value))
  {
    var (page, n') := FetchPage(n, Filter(attr, value));
    if page.Some? && FilteredUsers(page.value).Some? && |FilteredUsers(page.value).value| == 1 {
      var users := FilteredUsers(page.value).value;
      assert users == [users[0]];
    }
  }

  lemma ReadShows(n: Net, found: User)
    ensures var (ix, n') := VerifyAll(n, [found]);
            var (reply, n1) := Send(n, GetUser(found.id));
            && n' == n1 && n'.trace == n.trace + [Call(GetUser(found.id), reply)]
            && (ix.Some? ==> reply.Reply? && reply.status == 200 && reply.body.UserBody? && ix.value.users == [reply.body.user]
                             && SameIdentity(found, reply.body.user))
  {
    assert [found][..0] == [];
    assert VerifyAll(n, [found][..0]) == (Some(EMPTY_INDEX), n);
  }

  /** What the two lookups of one user leave to be read again, when they found the same account. */
  lemma ProbesOne(n: Net, u: User)
    requires ProbeAll(n, [u], EMPTY_INDEX).0.Some?
    ensures var (e, n1) := Lookup(n, ByExternalId, Ext(u), None);
            var (m, n2) := Lookup(n1, ByUserName, u.userName, None);
            var (ps, n3) := ProbeAll(n, [u], EMPTY_INDEX);
            && e.Some? && m.Some? && n3 == n2 && ps.value.answers == [Probe(u, e.value, m.value)]
            && (e.value.Some? && m.value.Some? && SameIdentity(e.value.value, m.value.value) ==> ps.value.found == [m.value.value])
  {
    assert [u][..0] == [] && ProbeAll(n, [], EMPTY_INDEX) == (Some(Probes([], [])), n);
    var (e, n1) := Lookup(n, ByExternalId, Ext(u), None);
    var (m, n2) := Lookup(n1, ByUserName, u.userName, None);
    if e.value.Some? && m.value.Some? && SameIdentity(e.value.value, m.value.value) {
      assert [] + [e.value.value] == [e.value.value];
      assert IndexOf([e.value.value], m.value.value.id) == Some(0);
      assert [e.value.value][0 := m.value.value] == [m.value.value];
    }
  }

  lemma SameTwice(a: User, b: User, x: User)
    requires SameIdentity(a, x) && SameIdentity(b, x)
    ensures SameIdentity(a, b)
  {}

  /** Three calls with these answers confirm the account. */
  lemma CallsConfirm(before: seq<Call>, a: Call, b: Call, c: Call, u: User, e: User, m: User)
    requires a.request == Filter(ByExternalId, Ext(u)) && ShowsOnly(a.reply, e) && Ext(e) == Ext(u)
    requires b.request == Filter(ByUserName, u.userName) && ShowsOnly(b.reply, m) && Name(m) == Name(u)
    requires SameIdentity(e, m) && SafeId(m.id) && c.request == GetUser(m.id)
    requires c.reply.Reply? && c.reply.status == 200 && c.reply.body.UserBody? && SameIdentity(m, c.reply.body.user)
    ensures ConfirmedBy((before + [a] + [b] + [c])[|before|..], u, UserBody(m))
  {
    assert (before + [a] + [b] + [c])[|before|..] == [a, b, c];
  }

  /** The parts of the lookups of one user. */
  lemma LookupAllParts(n: Net, u: User) returns (e: Option<User>, m: Option<User>, n1: Net, n2: Net)
    requires LookupAll(n, [u], EMPTY_INDEX).0.Some?
    ensures Lookup(n, ByExternalId, Ext(u), None) == (Some(e), n1)
    ensures Lookup(n1, ByUserName, u.userName, None) == (Some(m), n2)
    ensures Consistent([Probe(u, e, m)], LookupAll(n, [u], EMPTY_INDEX).0.value)
    ensures e.Some? && m.Some? && SameIdentity(e.value, m.value) ==> LookupAll(n, [u], EMPTY_INDEX) == VerifyAll(n2, [m.value])
  {
    ProbesOne(n, u);
    var (first, next) := Lookup(n, ByExternalId, Ext(u), None);
    var (second, last) := Lookup(next, ByUserName, u.userName, None);
    e, m, n1, n2 := first.value, second.value, next, last;
  }

  /** The lookups of one user, when its externalId is found and the name leads to the same account. */
  lemma LookupAllShows(n: Net, u: User, x: User)
    requires LookupAll(n, [u], EMPTY_INDEX).0.Some?
    requires var ix := LookupAll(n, [u], EMPTY_INDEX).0.value;
             && IndexOk(ix) && Sampled(ix.users, ix.byExt, Ext(u)) == Some(x)
             && SameIdentityOpt(Some(x), Sampled(ix.users, ix.byUser, Name(u)))
    ensures var n' := LookupAll(n, [u], EMPTY_INDEX).1;
            n.trace <= n'.trace && ConfirmedBy(n'.trace[|n.trace|..], u, UserBody(x))
  {
    var e, m, n1, n2 := LookupAllParts(n, u);
    BothFound(LookupAll(n, [u], EMPTY_INDEX).0.value, u, e, m, x);
    ShownBy(n, n1, n2, u, e.value, m.value);
  }

  lemma ShownBy(n: Net, n1: Net, n2: Net, u: User, e: User, m: User)
    requires Lookup(n, ByExternalId, Ext(u), None) == (Some(Some(e)), n1)
    requires Lookup(n1, ByUserName, u.userName, None) == (Some(Some(m)), n2)
    requires SameIdentity(e, m) && SafeId(m.id) && VerifyAll(n2, [m]).0.Some?
    ensures var n3 := VerifyAll(n2, [m]).1;
            n.trace <= n3.trace && ConfirmedBy(n3.trace[|n.trace|..], u, UserBody(m))
  {
    LookupShows(n, ByExternalId, Ext(u));
    LookupShows(n1, ByUserName, u.userName);
    ReadShows(n2, m);
    var a, b := Call(Filter(ByExternalId, Ext(u)), Send(n, Filter(ByExternalId, Ext(u))).0),
                Call(Filter(ByUserName, u.userName), Send(n1, Filter(ByUserName, u.userName)).0);
    var c := Call(GetUser(m.id), Send(n2, GetUser(m.id)).0);
    CallsConfirm(n.trace, a, b, c, u, e, m);
  }

  lemma BothFound(ix: Index, u: User, e: Option<User>, m: Option<User>, x: User)
    requires IndexOk(ix) && Consistent([Probe(u, e, m)], ix) && Sampled(ix.users, ix.byExt, Ext(u)) == Some(x)
    requires SameIdentityOpt(Some(x), Sampled(ix.users, ix.byUser, Name(u)))
    ensures e.Some? && m.Some? && SameIdentity(e.value, m.value) && m.value.id == x.id && SafeId(x.id)
  {
    var answers := [Probe(u, e, m)];
    assert SameIdentityOpt(answers[0].byExt, Some(x));
    assert SameIdentityOpt(answers[0].byName, Sampled(ix.users, ix.byUser, Name(u)));
  }

  lemma CreatedShown(w: World, u: User, body: Body)
    requires VerifyCreated(w, u, body).0
    ensures var w' := VerifyCreated(w, u, body).1;
            w.net.trace <= w'.net.trace && ConfirmedBy(w'.net.trace[|w.net.trace|..], u, body)
  {
    var ix := LookupAll(w.net, [u], EMPTY_INDEX).0.value;
    var x := Sampled(ix.users, ix.byExt, Ext(u)).value;
    LookupAllSound(w.net, [u], EMPTY_INDEX);
    LookupAllShows(w.net, u, x);
  }

  // ----- the turn of a user nobody matches -----

  predicate OnlyCreated(w: World, w': World) {
    w'.writings == w.writings && w'.result == w.result.(created := w.result.created + 1)
  }

  /** How the turn ends, from the answer to the creation. An accepted one counts at once after a full listing, and
      otherwise only when the lookups and a fresh read confirm it; a refused one is resolved by the lookup of the
      name, which is the next call; and any other answer is an error. */
  ghost predicate CreationEnds(cfg: Config, w: World, w': World, u: User, filtered: bool, a: Reply) {
    var n := |w.net.trace|;
    if a.Reply? && (a.status == 200 || a.status == 201) then
      if !filtered then OnlyCreated(w, w') && w'.net == w.net
      else OnlyError(w, w')
           || (OnlyCreated(w, w') && w.net.trace <= w'.net.trace && ConfirmedBy(w'.net.trace[n..], u, a.body))
    else if a.Reply? && a.status == 409 then
      && n < |w'.net.trace| && w'.net.trace[n].request == Filter(ByUserName, u.userName)
      && Resolved(cfg, w, w', u, w'.net.trace[n].reply)
    else OnlyError(w, w') && w'.net == w.net
  }

  lemma ConfirmEnds(cfg: Config, w: World, u: User, filtered: bool, a: Reply)
    requires a.Reply? && (a.status == 200 || a.status == 201)
    ensures CreationEnds(cfg, w, Confirm(w, u, filtered, a.body), u, filtered, a)
  {
    if filtered && VerifyCreated(w, u, a.body).0 {
      CreatedShown(w, u, a.body);
    }
  }

  lemma ErrorResolved(cfg: Config, w: World, w': World, u: User, a: Reply)
    requires Resolved(cfg, w, w', u, a) && |w'.writings| > |w.writings|
    ensures Resolved(cfg, w, Error(w'), u, a)
  {}

  lemma RefusalEnds(cfg: Config, w: World, u: User, filtered: bool, a: Reply)
    requires a.Reply? && a.status == 409
    ensures var (raised, w') := Handle409(cfg, w, u);
            CreationEnds(cfg, w, if raised then Error(w') else w', u, filtered, a)
  {
    Handle409Resolves(cfg, w, u);
    Handle409Calls(cfg, w, u);
    var (raised, w') := Handle409(cfg, w, u);
    var reply := Send(w.net, Filter(ByUserName, u.userName)).0;
    assert w'.net.trace[|w.net.trace|] == Call(Filter(ByUserName, u.userName), reply);
    if raised {
      ErrorResolved(cfg, w, w', u, reply);
    }
  }

  /** Whatever the server answers, the turn of a user that no listed account matches is one creation of it, which
      ends as its answer says: `w1` is the world with that call made. In particular a refused creation whose name
      several accounts share, or none, is one conflict and nothing more is written. */
  lemma NewUserTurn(cfg: Config, w: World, ix: Index, u: User, filtered: bool)
    requires MatchUser(u, w.records, ix.byExt, ix.byUser) == NoMatch
    ensures var (a, w1), w' := Write(w, u, None, CreateUser(u)), SyncOne(cfg, w, ix, u, filtered);
            && w1.net.trace == w.net.trace + [Call(CreateUser(u), a)] && w1.result == w.result
            && CreationEnds(cfg, w1, w', u, filtered, a)
  {
    var (a, w1) := Write(w, u, None, CreateUser(u));
    if a.Reply? {
      if a.status == 200 || a.status == 201 {
        ConfirmEnds(cfg, w1, u, filtered, a);
      } else if a.status == 409 {
        RefusalEnds(cfg, w1, u, filtered, a);
      }
    }
  }
}
