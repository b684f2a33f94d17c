/** What a synchronisation does for each user is decided by the directory it started from
    (app/scim/apple.py): update one account, link one unlinked account, create one, or report a conflict. */
module Plans {
  import opened Wrappers
  import opened Text
  import opened Records
  import opened ScimServer
  import opened Listing
  import opened Preflight
  import opened Engine
  import opened DirectoryFacts
  import opened Refinement

  datatype Plan = Conflicting | UpdateOf(i: nat) | LinkOf(i: nat) | Creation

  function PlanFor(cfg: Config, users: seq<User>, u: User): Plan {
    var e, n := Find(users, ByExternalId, Ext(u)), Find(users, ByUserName, u.userName);
    if e.Some? then (if n.Some? && n != e then Conflicting else UpdateOf(e.value))
    else if n.None? then Creation
    else if CanRecover(cfg, users[n.value], u) then LinkOf(n.value)
    else Conflicting
  }

  predicate Owns(cfg: Config, users: seq<User>, u: User, i: nat) {
    PlanFor(cfg, users, u) == UpdateOf(i) || PlanFor(cfg, users, u) == LinkOf(i)
  }

  /** An owned account is the user's by externalId, or it is unlinked, has the user's name, and recovery is on. */
  lemma OwnedAccount(cfg: Config, users: seq<User>, u: User, i: nat)
    requires Owns(cfg, users, u, i)
    ensures i < |users|
    ensures PlanFor(cfg, users, u).UpdateOf? ==> Ext(users[i]) == Ext(u)
    ensures PlanFor(cfg, users, u).LinkOf? ==> cfg.recovery && Ext(users[i]) == "" && Name(users[i]) == Name(u)
  {
    if PlanFor(cfg, users, u) == LinkOf(i) {
      assert Ext(users[i]) != Ext(u);
    }
  }

  /** The link repair of an account. */
  function Linked(account: User, u: User): User {
    account.(externalId := Ext(u))
  }

  /** What an account becomes when every call for it succeeds. */
  function Target(cfg: Config, account: User, u: User): User {
    if AnyDiff(Actionable(FieldDiffs(account, u, true), cfg.mode)) then Updated(account, u, cfg.mode) else account
  }

  /** What the owner's turn can leave an account as: the target of an update, or of a link repair and what
      follows it, or the repaired link alone. */
  predicate Outcome(cfg: Config, users: seq<User>, u: User, now: User) {
    match PlanFor(cfg, users, u)
    case UpdateOf(i) => now == Target(cfg, users[i], u)
    case LinkOf(i) => now == Linked(users[i], u) || now == Target(cfg, Linked(users[i], u), u)
    case _ => false
  }

  /** The id never changes, a non-blank externalId never changes, a blank one becomes the owner's or stays, and
      the name is the old one or the owner's. */
  predicate OwnedChange(was: User, now: User, u: User) {
    && now.id == was.id
    && (if Ext(was) != "" then now.externalId == was.externalId else now.externalId == was.externalId || Ext(now) == Ext(u))
    && (Name(now) == Name(was) || Name(now) == Name(u))
  }

  predicate ChangedBy(cfg: Config, users: seq<User>, u: User, i: nat, now: User)
    requires i < |users|
  {
    Owns(cfg, users, u, i) && OwnedChange(users[i], now, u) && Outcome(cfg, users, u, now)
  }

  predicate CreatedFor(cfg: Config, users: seq<User>, u: User, now: User) {
    PlanFor(cfg, users, u) == Creation && now == u.(id := now.id)
  }

  ghost predicate Kept(cfg: Config, users: seq<User>, done: seq<User>, i: nat, now: User)
    requires i < |users|
  {
    now == users[i] || exists k :: 0 <= k < |done| && ChangedBy(cfg, users, done[k], i, now)
  }

  ghost predicate Added(cfg: Config, users: seq<User>, done: seq<User>, now: User) {
    exists k :: 0 <= k < |done| && CreatedFor(cfg, users, done[k], now)
  }

  /** How the accounts `cur` may have come from `users` when the users in `done` have been handled. */
  ghost predicate Evolved(cfg: Config, users: seq<User>, done: seq<User>, cur: seq<User>) {
    && |users| <= |cur|
    && (forall i :: 0 <= i < |users| ==> Kept(cfg, users, done, i, cur[i]))
    && (forall i :: |users| <= i < |cur| ==> Added(cfg, users, done, cur[i]))
  }

  // ----- evolving -----

  lemma KeptMore(cfg: Config, users: seq<User>, done: seq<User>, u: User, i: nat, now: User)
    requires i < |users| && Kept(cfg, users, done, i, now)
    ensures Kept(cfg, users, done + [u], i, now)
  {
    if now != users[i] {
      var k :| 0 <= k < |done| && ChangedBy(cfg, users, done[k], i, now);
      assert (done + [u])[k] == done[k];
    }
  }

  lemma AddedMore(cfg: Config, users: seq<User>, done: seq<User>, u: User, now: User)
    requires Added(cfg, users, done, now)
    ensures Added(cfg, users, done + [u], now)
  {
    var k :| 0 <= k < |done| && CreatedFor(cfg, users, done[k], now);
    assert (done + [u])[k] == done[k];
  }

  lemma EvolvedSame(cfg: Config, users: seq<User>, done: seq<User>, cur: seq<User>, u: User)
    requires Evolved(cfg, users, done, cur)
    ensures Evolved(cfg, users, done + [u], cur)
  {
    forall i | 0 <= i < |users| ensures Kept(cfg, users, done + [u], i, cur[i]) {
      KeptMore(cfg, users, done, u, i, cur[i]);
    }
    forall i | |users| <= i < |cur| ensures Added(cfg, users, done + [u], cur[i]) {
      AddedMore(cfg, users, done, u, cur[i]);
    }
  }

  lemma EvolvedSet(cfg: Config, users: seq<User>, done: seq<User>, cur: seq<User>, u: User, i: nat, now: User)
    requires Evolved(cfg, users, done, cur) && i < |users| && ChangedBy(cfg, users, u, i, now)
    ensures Evolved(cfg, users, done + [u], cur[i := now])
  {
    EvolvedSame(cfg, users, done, cur, u);
    assert (done + [u])[|done|] == u;
    assert Kept(cfg, users, done + [u], i, now);
  }

  lemma EvolvedAppend(cfg: Config, users: seq<User>, done: seq<User>, cur: seq<User>, u: User, now: User)
    requires Evolved(cfg, users, done, cur) && CreatedFor(cfg, users, u, now)
    ensures Evolved(cfg, users, done + [u], cur + [now])
  {
    EvolvedSame(cfg, users, done, cur, u);
    assert (done + [u])[|done|] == u;
    assert Added(cfg, users, done + [u], now);
  }

  // ----- identities stay apart -----

  ghost predicate Fresh(done: seq<User>, u: User) {
    && Ext(u) != "" && Strip(u.userName) != ""
    && forall k :: 0 <= k < |done| ==> Ext(done[k]) != Ext(u) && Name(done[k]) != Name(u)
  }

  lemma AddedAreOthers(cfg: Config, users: seq<User>, done: seq<User>, cur: seq<User>, u: User)
    requires Evolved(cfg, users, done, cur) && Fresh(done, u)
    ensures forall i :: |users| <= i < |cur| ==> Name(cur[i]) != Name(u) && Ext(cur[i]) != Ext(u)
  {
    forall i | |users| <= i < |cur| ensures Name(cur[i]) != Name(u) && Ext(cur[i]) != Ext(u) {
      assert Added(cfg, users, done, cur[i]);
    }
  }

  /** A name that no handled user has belongs to the account that had it at the start. */
  lemma NameOrigin(cfg: Config, users: seq<User>, done: seq<User>, cur: seq<User>, u: User, j: nat)
    requires Evolved(cfg, users, done, cur) && Fresh(done, u) && j < |cur| && Name(cur[j]) == Name(u)
    ensures j < |users| && Name(users[j]) == Name(u)
  {
    AddedAreOthers(cfg, users, done, cur, u);
    assert Kept(cfg, users, done, j, cur[j]);
  }

  lemma ExtOrigin(cfg: Config, users: seq<User>, done: seq<User>, cur: seq<User>, u: User, j: nat)
    requires Evolved(cfg, users, done, cur) && Fresh(done, u) && j < |cur| && Ext(cur[j]) == Ext(u)
    ensures j < |users| && Ext(users[j]) == Ext(u)
  {
    AddedAreOthers(cfg, users, done, cur, u);
    assert Kept(cfg, users, done, j, cur[j]);
  }

  /** Two users with different identities never own the same account. */
  lemma OwnersDiffer(cfg: Config, users: seq<User>, a: User, b: User, i: nat)
    requires Owns(cfg, users, a, i) && Owns(cfg, users, b, i)
    requires Ext(a) != "" && Ext(b) != ""
    ensures Ext(a) == Ext(b) || Name(a) == Name(b)
  {
    OwnedAccount(cfg, users, a, i);
    OwnedAccount(cfg, users, b, i);
  }

  /** The account a user owns is untouched until that user's turn. */
  lemma Untouched(cfg: Config, users: seq<User>, done: seq<User>, cur: seq<User>, u: User, i: nat)
    requires Evolved(cfg, users, done, cur) && Fresh(done, u) && Owns(cfg, users, u, i)
    requires forall k :: 0 <= k < |done| ==> Ext(done[k]) != ""
    ensures i < |users| && cur[i] == users[i]
  {
    OwnedAccount(cfg, users, u, i);
    assert Kept(cfg, users, done, i, cur[i]);
    if cur[i] != users[i] {
      var k :| 0 <= k < |done| && ChangedBy(cfg, users, done[k], i, cur[i]);
      OwnersDiffer(cfg, users, done[k], u, i);
    }
  }

  lemma OthersName(cfg: Config, users: seq<User>, u: User, i: nat, j: nat)
    requires GoodUsers(users) && Owns(cfg, users, u, i) && j < |users| && j != i
    ensures Name(users[j]) != Name(u)
  {
    if Name(users[j]) == Name(u) {
      OneOwner(users, ByUserName, u.userName, j);
    }
  }

  lemma OthersExt(cfg: Config, users: seq<User>, u: User, i: nat, j: nat)
    requires GoodUsers(users) && Owns(cfg, users, u, i) && j < |users| && j != i && Ext(u) != ""
    ensures Ext(users[j]) != Ext(u)
  {
    if Ext(users[j]) == Ext(u) {
      OneOwner(users, ByExternalId, Ext(u), j);
    }
  }

  /** Writing a user's name and link to the account it owns takes nobody's identity. */
  lemma OwnedFree(cfg: Config, users: seq<User>, done: seq<User>, cur: seq<User>, u: User, i: nat, after: User)
    requires GoodUsers(users) && GoodUsers(cur) && Evolved(cfg, users, done, cur) && Fresh(done, u)
    requires Owns(cfg, users, u, i) && forall k :: 0 <= k < |done| ==> Ext(done[k]) != ""
    requires i < |users| && Ext(after) == Ext(u) && (Name(after) == Name(users[i]) || Name(after) == Name(u))
    ensures !Taken(cur, after, i)
  {
    Untouched(cfg, users, done, cur, u, i);
    forall j | 0 <= j < |cur| && j != i ensures Name(cur[j]) != Name(after) && Ext(cur[j]) != Ext(after) {
      if Name(cur[j]) == Name(u) {
        NameOrigin(cfg, users, done, cur, u, j);
        OthersName(cfg, users, u, i, j);
      }
      if Ext(cur[j]) == Ext(u) {
        ExtOrigin(cfg, users, done, cur, u, j);
        OthersExt(cfg, users, u, i, j);
      }
      assert Name(cur[j]) != Name(cur[i]);
    }
  }

  lemma CreationFree(cfg: Config, users: seq<User>, done: seq<User>, cur: seq<User>, u: User)
    requires Evolved(cfg, users, done, cur) && Fresh(done, u) && PlanFor(cfg, users, u) == Creation
    ensures !Taken(cur, u, -1) && forall j :: 0 <= j < |cur| ==> Name(cur[j]) != Name(u)
  {
    forall j | 0 <= j < |cur| ensures Name(cur[j]) != Name(u) && Ext(cur[j]) != Ext(u) {
      if Name(cur[j]) == Name(u) { NameOrigin(cfg, users, done, cur, u, j); }
      if Ext(cur[j]) == Ext(u) { ExtOrigin(cfg, users, done, cur, u, j); }
    }
  }

  // ----- the loop follows the plan -----

  /** The repair gave the cell of an unlinked account to the user of the same name. */
  predicate Relinked(u: User, was: User) {
    Ext(was) == "" && Name(was) == Name(u)
  }

  ghost predicate CellStays(done: seq<User>, was: User, now: User) {
    now.id == was.id && (now == was || exists k :: 0 <= k < |done| && Relinked(done[k], was))
  }

  ghost predicate CellsStay(ix: Index, done: seq<User>, records: seq<User>) {
    |ix.users| <= |records| && forall h :: 0 <= h < |ix.users| ==> CellStays(done, ix.users[h], records[h])
  }

  lemma CellsStaySame(ix: Index, done: seq<User>, u: User, records: seq<User>)
    requires CellsStay(ix, done, records)
    ensures CellsStay(ix, done + [u], records)
  {
    forall h | 0 <= h < |ix.users| ensures CellStays(done + [u], ix.users[h], records[h]) {
      assert CellStays(done, ix.users[h], records[h]);
      if records[h] != ix.users[h] {
        var k :| 0 <= k < |done| && Relinked(done[k], ix.users[h]);
        assert (done + [u])[k] == done[k];
      }
    }
  }

  lemma CellsStaySet(ix: Index, done: seq<User>, u: User, records: seq<User>, h: nat, now: User)
    requires CellsStay(ix, done, records) && h < |ix.users| && now.id == ix.users[h].id && Relinked(u, ix.users[h])
    ensures CellsStay(ix, done + [u], records[h := now])
  {
    CellsStaySame(ix, done, u, records);
    assert (done + [u])[|done|] == u;
    assert CellStays(done + [u], ix.users[h], now);
  }

  /** A cell that is not yet its matched user's has the listed record. */
  lemma CellFresh(ix: Index, done: seq<User>, records: seq<User>, u: User, h: nat)
    requires CellsStay(ix, done, records) && Fresh(done, u) && h < |ix.users|
    requires Ext(ix.users[h]) == Ext(u) || Name(ix.users[h]) == Name(u)
    ensures records[h] == ix.users[h]
  {
    assert CellStays(done, ix.users[h], records[h]);
  }

  /** The match the loop makes, on cells that earlier turns may have overwritten, is the planned one. */
  lemma MatchIsPlan(cfg: Config, users: seq<User>, done: seq<User>, ix: Index, records: seq<User>, u: User)
    requires GoodUsers(users) && IndexOk(ix) && Answers(ix, users, u) && CellsStay(ix, done, records) && Fresh(done, u)
    ensures var m := MatchUser(u, records, ix.byExt, ix.byUser);
            var e, n := Find(users, ByExternalId, Ext(u)), Find(users, ByUserName, u.userName);
            match m
            case Clash => PlanFor(cfg, users, u) == Conflicting
            case NoMatch => PlanFor(cfg, users, u) == Creation
            case Matched(h, false) =>
              && h < |ix.users| && e.Some? && records[h] == ix.users[h] == users[e.value]
              && PlanFor(cfg, users, u) == UpdateOf(e.value)
            case Matched(h, true) =>
              h < |ix.users| && e.None? && n.Some? && records[h] == ix.users[h] == users[n.value]
  {
    var e, n := Find(users, ByExternalId, Ext(u)), Find(users, ByUserName, u.userName);
    if e.Some? {
      CellFresh(ix, done, records, u, ix.byExt[Ext(u)]);
    }
    if n.Some? {
      CellFresh(ix, done, records, u, ix.byUser[Name(u)]);
    }
  }
}
