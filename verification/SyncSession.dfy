/** The synchronisation as the program runs it (app/scim/apple.py): loops and updates of indexes, counters and
    shared records in place, each equal to its specification in Listing, Preflight and Engine. */
module SyncSession {
  import opened Wrappers
  import opened Text
  import opened Records
  import opened ScimServer
  import opened Listing
  import opened Preflight
  import opened Engine

  ghost predicate IdsSeen(users: seq<User>, ids: set<string>) {
    && (forall i :: 0 <= i < |users| ==> users[i].id in ids)
    && (forall id :: id in ids ==> exists i :: 0 <= i < |users| && users[i].id == id)
  }

  lemma IdsGrow(users: seq<User>, ids: set<string>, u: User)
    requires IdsSeen(users, ids)
    ensures IdsSeen(users + [u], ids + {u.id})
  {
    var users', ids' := users + [u], ids + {u.id};
    assert users'[|users|] == u;
    forall id | id in ids' ensures exists i :: 0 <= i < |users'| && users'[i].id == id {
      if id in ids {
        var i :| 0 <= i < |users| && users[i].id == id;
        assert users'[i].id == id;
      }
    }
  }

  lemma SeenIff(ix: Index, ids: set<string>, u: User)
    requires IdsSeen(ix.users, ids)
    ensures Indexable(ix, u)
            <==> SafeId(u.id) && Strip(u.userName) != "" && u.id !in ids && Name(u) !in ix.byUser
                 && (Ext(u) == "" || Ext(u) !in ix.byExt)
  {}

  /** The dictionaries that `_index_unique_user` fills. */
  class UserIndex {
    var users: seq<User>
    var seenIds: set<string>
    var byExt: map<string, nat>
    var byUser: map<string, nat>

    function View(): Index
      reads this
    {
      Index(users, byExt, byUser)
    }

    ghost predicate Valid()
      reads this
    {
      IndexOk(View()) && IdsSeen(users, seenIds)
    }

    constructor ()
      ensures Valid() && View() == EMPTY_INDEX
    {
      users, seenIds, byExt, byUser := [], {}, map[], map[];
    }

    method Add(u: User) returns (ok: bool)
      requires Valid()
      modifies this
      ensures Valid()
      ensures ok == Indexable(old(View()), u)
      ensures View() == if ok then AddUnchecked(old(View()), u) else old(View())
    {
      var name, ext := Name(u), Ext(u);
      SeenIff(View(), seenIds, u);
      if !SafeId(u.id) || Strip(u.userName) == "" || u.id in seenIds || name in byUser || (ext != "" && ext in byExt) {
        return false;
      }
      IndexUserOk(View(), u);
      IdsGrow(users, seenIds, u);
      if u.externalId != "" {
        byExt := byExt[ext := |users|];
      }
      byUser := byUser[name := |users|];
      seenIds := seenIds + {u.id};
      users := users + [u];
      return true;
    }

    /** The loop over the users of a page. */
    method AddAll(page: seq<User>) returns (ok: bool)
      requires Valid()
      modifies this
      ensures Valid()
      ensures IndexAll(old(View()), page) == if ok then Some(View()) else None
    {
      for i := 0 to |page|
        invariant Valid()
        invariant IndexAll(old(View()), page) == IndexAll(View(), page[i..])
      {
        assert page[i..][0] == page[i] && page[i..][1..] == page[i + 1..];
        ok := Add(page[i]);
        if !ok { return; }
      }
      assert page[|page|..] == [];
      return true;
    }
  }

  // ----- loops that stop at the first failure -----

  lemma {:induction false} ProbeAllStops(n: Net, source: seq<User>, sample: Index, k: nat)
    requires k <= |source| && ProbeAll(n, source[..k], sample).0.None?
    ensures ProbeAll(n, source, sample) == ProbeAll(n, source[..k], sample)
    decreases |source|
  {
    if k < |source| {
      assert source[..|source| - 1][..k] == source[..k];
      ProbeAllStops(n, source[..|source| - 1], sample, k);
    } else {
      assert source[..k] == source;
    }
  }

  lemma ProbeAllNext(n: Net, source: seq<User>, sample: Index, k: nat, ps: Probes, n1: Net)
    requires k < |source| && ProbeAll(n, source[..k], sample) == (Some(ps), n1)
    ensures ProbeAll(n, source[..k + 1], sample) == ProbeOne(n1, source[k], sample, ps)
  {
    assert source[..k + 1][..k] == source[..k];
  }

  lemma {:induction false} VerifyAllStops(n: Net, found: seq<User>, k: nat)
    requires k <= |found| && VerifyAll(n, found[..k]).0.None?
    ensures VerifyAll(n, found) == VerifyAll(n, found[..k])
    decreases |found|
  {
    if k < |found| {
      assert found[..|found| - 1][..k] == found[..k];
      VerifyAllStops(n, found[..|found| - 1], k);
    } else {
      assert found[..k] == found;
    }
  }

  lemma {:induction false} RejectedStays(source: seq<User>, k: nat)
    requires k <= |source| && !SourceAccepted(source[..k])
    ensures !SourceAccepted(source)
    decreases |source|
  {
    if k < |source| {
      assert source[..|source| - 1][..k] == source[..k];
      RejectedStays(source[..|source| - 1], k);
    } else {
      assert source[..k] == source;
    }
  }

  lemma AcceptedNext(source: seq<User>, k: nat)
    requires k < |source| && SourceAccepted(source[..k])
    ensures var u := source[k];
            SourceAccepted(source[..k + 1])
            <==> Ext(u) != "" && Strip(u.userName) != ""
                 && Ext(u) !in SourceExts(source[..k]) && Name(u) !in SourceNames(source[..k])
  {
    var next := source[..k + 1];
    assert next[..|next| - 1] == source[..k] && next[|next| - 1] == source[k];
  }

  /** `_source_identities`, with the sets it keeps. */
  method CheckSource(source: seq<User>) returns (ok: bool)
    ensures ok == SourceAccepted(source)
    ensures ok <==> ValidSource(source)
  {
    var seenExts: set<string>, seenNames: set<string> := {}, {};
    SourceAcceptedIff(source);
    for k := 0 to |source|
      invariant SourceAccepted(source[..k])
      invariant seenExts == SourceExts(source[..k]) && seenNames == SourceNames(source[..k])
    {
      var u := source[k];
      AcceptedNext(source, k);
      if Ext(u) == "" || Strip(u.userName) == "" || Ext(u) in seenExts || Name(u) in seenNames {
        RejectedStays(source, k + 1);
        return false;
      }
      assert source[..k + 1] == source[..k] + [u];
      SetsGrow(source[..k], u);
      seenExts := seenExts + {Ext(u)};
      seenNames := seenNames + {Name(u)};
    }
    assert source[..|source|] == source;
    return true;
  }

  lemma SetsGrow(init: seq<User>, u: User)
    ensures SourceExts(init + [u]) == SourceExts(init) + {Ext(u)}
    ensures SourceNames(init + [u]) == SourceNames(init) + {Name(u)}
  {
    var all := init + [u];
    assert all[|init|] == u && forall i :: 0 <= i < |init| ==> all[i] == init[i];
    forall i | 0 <= i < |init| ensures Ext(init[i]) in SourceExts(all) && Name(init[i]) in SourceNames(all) {
      assert all[i] == init[i];
    }
    assert Ext(all[|init|]) in SourceExts(all) && Name(all[|init|]) in SourceNames(all);
  }

  /** The last loop of the preflight. */
  method CheckAnswers(answers: seq<Probe>, ix: Index) returns (ok: bool)
    ensures ok == Consistent(answers, ix)
  {
    for k := 0 to |answers|
      invariant Consistent(answers[..k], ix)
    {
      assert answers[..k + 1] == answers[..k] + [answers[k]];
      var a := answers[k];
      if !SameIdentityOpt(a.byExt, Sampled(ix.users, ix.byExt, Ext(a.source)))
         || !SameIdentityOpt(a.byName, Sampled(ix.users, ix.byUser, Name(a.source))) {
        return false;
      }
    }
    assert answers[..|answers|] == answers;
    return true;
  }

  /** `_index_user_list` of Apple's single page. */
  method IndexSample(users: seq<User>) returns (listed: Listed)
    ensures listed == match IndexAll(EMPTY_INDEX, users) case None => Broken case Some(sample) => NeedsLookups(sample)
  {
    var sample := new UserIndex();
    var ok := sample.AddAll(users);
    listed := if ok then NeedsLookups(sample.View()) else Broken;
  }

  /** One page: either the listing ends, or the users of the page are in the index and another page follows. */
  method ReadPageInto(index: UserIndex, page: Page, start: nat, total: Option<nat>) returns (stop: Option<Listed>)
    requires index.Valid()
    modifies index
    ensures index.Valid()
    ensures match ReadPage(page, start, total, old(index.View()))
            case Stop(listed) => stop == Some(listed)
            case More(next, t, ix) =>
              && stop.None? && index.View() == ix && page.resources.Users? && page.total == Num(t)
              && next == start + |page.resources.users|
  {
    if total.None? {
      var apple := ApplePage(page, COUNT);
      if apple.TooMany? { return Some(Broken); }
      if apple.Sample? {
        var listed := IndexSample(apple.users);
        return Some(listed);
      }
    }
    var valid := ValidatePage(page, start, total);
    if valid.None? { return Some(Broken); }
    var (users, t) := valid.value;
    var ok := index.AddAll(users);
    if !ok { return Some(Broken); }
    if users != [] && start + |users| - 1 < t { return None; }
    return Some(Complete(index.View(), t));
  }

  class Session {
    const cfg: Config
    var net: Net
    var records: seq<User>
    var result: SyncResult
    ghost var notes: Notes
    ghost var writings: seq<Writing>

    ghost function View(): World
      reads this
    {
      World(net, records, result, notes, writings)
    }

    constructor (cfg: Config, net: Net)
      ensures this.cfg == cfg && View() == World(net, [], NO_RESULT, NO_NOTES, [])
    {
      this.cfg, this.net, records, result, notes, writings := cfg, net, [], NO_RESULT, NO_NOTES, [];
    }

    method Ask(r: Request) returns (reply: Reply)
      modifies this`net
      ensures (reply, net) == Send(old(net), r)
    {
      var answer := Send(net, r);
      reply, net := answer.0, answer.1;
    }

    method FetchUsersPage(r: Request) returns (page: Option<Page>)
      modifies this`net
      ensures (page, net) == FetchPage(old(net), r)
    {
      var reply := Ask(r);
      if reply.Reply? && reply.status == 200 && reply.body.PageBody? {
        return Some(reply.body.page);
      }
      return None;
    }

    // ----- reading -----

    /** The page loop of `_get_existing_users`. */
    method GetExistingUsers() returns (listed: Listed)
      modifies this`net
      ensures (listed, net) == ListAll(old(net))
    {
      ghost var whole := ListAll(net);
      var index := new UserIndex();
      var start: nat, total: Option<nat> := 1, None;
      while true
        invariant index.Valid() && fresh(index)
        invariant ListFrom(net, start, total, index.View()) == whole
        decreases total.None?, if total.Some? && start <= total.value then total.value - start + 1 else 0
      {
        var page := FetchUsersPage(ListUsers(start));
        if page.None? { return Broken; }
        var stop := ReadPageInto(index, page.value, start, total);
        if stop.Some? { return stop.value; }
        start, total := start + |page.value.resources.users|, Some(page.value.total.value);
      }
    }

    /** `_get_existing_users_by_filter`. */
    method GetExistingUsersByFilter(source: seq<User>, sample: Index) returns (index: Option<Index>)
      modifies this`net
      ensures (index, net) == LookupAll(old(net), source, sample)
    {
      var accepted := CheckSource(source);
      if !accepted { return None; }
      var probes := ProbeSource(source, sample);
      if probes.None? { return None; }
      index := VerifyFoundUsers(probes.value.found);
      if index.None? { return None; }
      var consistent := CheckAnswers(probes.value.answers, index.value);
      if !consistent { return None; }
    }

    method ProbeSource(source: seq<User>, sample: Index) returns (probes: Option<Probes>)
      modifies this`net
      ensures (probes, net) == ProbeAll(old(net), source, sample)
    {
      var ps := Probes([], []);
      for k := 0 to |source|
        invariant ProbeAll(old(net), source[..k], sample) == (Some(ps), net)
      {
        ProbeAllNext(old(net), source, sample, k, ps, net);
        var (next, n) := ProbeOne(net, source[k], sample, ps);
        net := n;
        if next.None? {
          ProbeAllStops(old(net), source, sample, k + 1);
          return None;
        }
        ps := next.value;
      }
      assert source[..|source|] == source;
      return Some(ps);
    }

    method VerifyFoundUsers(found: seq<User>) returns (index: Option<Index>)
      modifies this`net
      ensures (index, net) == VerifyAll(old(net), found)
    {
      var ix := new UserIndex();
      for k := 0 to |found|
        invariant ix.Valid() && fresh(ix)
        invariant VerifyAll(old(net), found[..k]) == (Some(ix.View()), net)
      {
        var (read, n) := FetchUser(net, found[k].id);
        net := n;
        assert found[..k + 1][..k] == found[..k];
        if read.None? || !SameIdentity(found[k], read.value) {
          VerifyAllStops(old(net), found, k + 1);
          return None;
        }
        var ok := ix.Add(read.value);
        if !ok {
          VerifyAllStops(old(net), found, k + 1);
          return None;
        }
      }
      assert found[..|found|] == found;
      return Some(ix.View());
    }

    // ----- writing -----

    method Put(u: User, ghost target: Option<User>, r: Request) returns (reply: Reply)
      modifies this`net, this`writings
      ensures (reply, View()) == Write(old(View()), u, target, r)
    {
      ghost var at := |net.trace|;
      reply := Ask(r);
      writings := writings + [Writing(u, target, r, reply, at)];
    }

    method CountWriteError(status: int)
      modifies this`result
      ensures View() == WriteError(old(View()), status)
    {
      result := result.(errors := result.errors + 1);
      if status == 400 {
        result := result.(update400 := result.update400 + 1);
      }
    }

    method CountError()
      modifies this`result
      ensures View() == Error(old(View()))
    {
      result := result.(errors := result.errors + 1);
    }

    method RecordConflict(u: User)
      modifies this`result
      ensures View() == Conflict(old(View()), u)
    {
      result := result.(conflicts := result.conflicts + 1);
      if u.userName != "" {
        result := result.(conflictNames := result.conflictNames + [u.userName]);
      }
    }

    /** `_patch_user`. */
    method SendUpdate(h: nat, u: User, d: Diffs) returns (raised: bool)
      requires h < |records| && BuildUpdate(u, cfg.mode, records[h].id, d).Some?
      modifies this`net, this`writings, this`result
      ensures (raised, View()) == PatchUser(cfg, old(View()), h, u, d)
    {
      var target := records[h];
      var reply := Put(u, Some(target), UpdateUser(target.id, BuildUpdate(u, cfg.mode, target.id, d).value));
      if reply.NetworkError? { return true; }
      if reply.status == 200 || reply.status == 204 {
        result := result.(updated := result.updated + 1);
      } else {
        CountWriteError(reply.status);
      }
      return false;
    }

    /** `_patch_external_id`: on success the shared record itself is overwritten. */
    method RepairLink(h: nat, u: User) returns (repair: Repair)
      requires h < |records|
      modifies this`net, this`writings, this`result, this`notes, this`records
      ensures (repair, View()) == PatchExternalId(old(View()), h, u)
    {
      var target := records[h];
      var reply := Put(u, Some(target), UpdateUser(target.id, Patch([SetExternalId(Ext(u))])));
      if reply.NetworkError? { return Raised; }
      if reply.status != 200 && reply.status != 204 {
        CountWriteError(reply.status);
        return Failed;
      }
      var read := Ask(GetUser(target.id));
      if !Verifies(read, target, u) {
        CountError();
        notes := notes.(unverified := notes.unverified + 1);
        return Failed;
      }
      records := records[h := read.body.user];
      result := result.(updated := result.updated + 1);
      return Repaired;
    }

    method WriteDiffs(h: nat, u: User, d: Diffs, repaired: bool) returns (raised: bool)
      requires h < |records|
      modifies this`net, this`writings, this`result, this`notes
      ensures (raised, View()) == ApplyDiffs(cfg, old(View()), h, u, d, repaired)
    {
      var actionable := Actionable(d, cfg.mode);
      NoteDiffs(AnyDiff(Stale(d, cfg.mode)), AnyDiff(actionable) && repaired);
      if AnyDiff(actionable) {
        assert BuildUpdate(u, cfg.mode, records[h].id, actionable).Some? by { UpdateBuiltIff(u, cfg.mode, records[h].id, d); }
        raised := SendUpdate(h, u, actionable);
      } else {
        CountUnlessRepaired(repaired);
        raised := false;
      }
    }

    method NoteDiffs(stale: bool, ghost double: bool)
      modifies this`result, this`notes
      ensures View() == NoteDouble(NoteStale(old(View()), stale), double)
    {
      if stale {
        result := result.(outOfScope := result.outOfScope + 1);
      }
      notes := if double then notes.(doubles := notes.doubles + 1) else notes;
    }

    /** A repaired link was already counted as updated. */
    method CountUnlessRepaired(repaired: bool)
      modifies this`result
      ensures View() == if repaired then old(View()) else CountNoChange(old(View()))
    {
      if !repaired {
        result := result.(noChange := result.noChange + 1);
      }
    }

    /** `_reconcile_diffs`. */
    method ReconcileDiffs(h: nat, u: User, recovered: bool) returns (raised: bool)
      requires h < |records|
      modifies this
      ensures (raised, View()) == Reconcile(cfg, old(View()), h, u, recovered)
    {
      if recovered && !CanRecover(cfg, records[h], u) {
        RecordConflict(u);
        return false;
      }
      var d := FieldDiffs(records[h], u, true);
      if recovered && d.externalId {
        var repair := RepairLink(h, u);
        if repair != Repaired { return repair == Raised; }
        raised := WriteDiffs(h, u, FieldDiffs(records[h], u, false), true);
      } else {
        raised := WriteDiffs(h, u, d, false);
      }
    }

    /** `_verified_filtered_user`. */
    method VerifyFilteredUser(u: User, found: User) returns (user: Option<User>)
      modifies this`net
      ensures (user, View()) == VerifyFound(old(View()), u, found)
    {
      var listed := GetExistingUsers();
      var ix: Option<Index>;
      match listed {
        case Complete(index, _) => ix := Some(index);
        case NeedsLookups(sample) => ix := GetExistingUsersByFilter([u], sample);
        case Broken => ix := None;
      }
      if ix.None? { return None; }
      user := Sampled(ix.value.users, ix.value.byUser, Name(u));
      if user.None? || user.value.id != found.id || Ext(user.value) != Ext(found) {
        user := None;
      }
    }

    method IdentifyUser(u: User) returns (id: Identity)
      modifies this`net
      ensures (id, View()) == Identify(old(View()), u)
    {
      var page := FetchUsersPage(Filter(ByUserName, u.userName));
      if page.None? { return Unclear; }
      var valid := ValidatePage(FromZero(page.value), 1, None);
      if valid.None? { return Unclear; }
      var (users, total) := valid.value;
      if total != 1 { return NotOne; }
      var found := users[0];
      if !SafeId(found.id) || Strip(found.userName) == "" || Name(found) != Name(u) { return Unclear; }
      if page.value.start == Num(0) {
        var verified := VerifyFilteredUser(u, found);
        return if verified.None? then Unclear else Identified(verified.value);
      }
      return Identified(found);
    }

    /** `_handle_409`. */
    method RecoverConflict(u: User) returns (raised: bool)
      modifies this
      ensures (raised, View()) == Handle409(cfg, old(View()), u)
    {
      var id := IdentifyUser(u);
      raised := false;
      match id {
        case Unclear =>
          CountError();
          notes := notes.(unresolved := notes.unresolved + 1);
        case NotOne => RecordConflict(u);
        case Identified(user) =>
          records := records + [user];
          raised := ReconcileDiffs(|records| - 1, u, true);
      }
    }

    /** `_verify_created_user`. */
    method VerifyCreatedUser(u: User, body: Body) returns (ok: bool)
      modifies this`net
      ensures (ok, View()) == VerifyCreated(old(View()), u, body)
    {
      if !body.UserBody? || !SafeId(body.user.id) { return false; }
      var ix := GetExistingUsersByFilter([u], EMPTY_INDEX);
      if ix.None? { return false; }
      var byExt := Sampled(ix.value.users, ix.value.byExt, Ext(u));
      var byName := Sampled(ix.value.users, ix.value.byUser, Name(u));
      ok := byExt.Some? && SameIdentityOpt(byExt, byName) && byExt.value.id == body.user.id;
    }

    method ConfirmCreation(u: User, verify: bool, body: Body)
      modifies this`net, this`result, this`notes
      ensures View() == Confirm(old(View()), u, verify, body)
    {
      var ok := true;
      if verify { ok := VerifyCreatedUser(u, body); }
      if ok {
        result := result.(created := result.created + 1);
      } else {
        CountError();
        notes := notes.(unconfirmed := notes.unconfirmed + 1);
      }
    }

    method FinishCreation(u: User, verify: bool, reply: Reply) returns (raised: bool)
      modifies this
      ensures (raised, View()) == AfterPost(cfg, old(View()), u, verify, reply)
    {
      if reply.NetworkError? { return true; }
      if reply.status == 200 || reply.status == 201 {
        ConfirmCreation(u, verify, reply.body);
        return false;
      }
      if reply.status == 409 {
        raised := RecoverConflict(u);
      } else {
        CountError();
        raised := false;
      }
    }

    /** `_create_user`. */
    method CreateUser(u: User, verify: bool) returns (raised: bool)
      modifies this
      ensures (raised, View()) == Create(cfg, old(View()), u, verify)
    {
      var reply := Put(u, None, Request.CreateUser(u));
      raised := FinishCreation(u, verify, reply);
    }

    // ----- the run -----

    /** The body of the loop of `sync_users`. */
    method SyncUser(ix: Index, u: User, filtered: bool)
      modifies this
      ensures View() == SyncOne(cfg, old(View()), ix, u, filtered)
    {
      var raised := false;
      match MatchUser(u, records, ix.byExt, ix.byUser) {
        case Clash => RecordConflict(u);
        case NoMatch => raised := CreateUser(u, filtered);
        case Matched(h, byName) => raised := ReconcileDiffs(h, u, byName);
      }
      if raised { CountError(); }
    }

    /** `sync_users`; false when the existing users cannot be read, before anything is written. */
    method SyncUsers(source: seq<User>) returns (ok: bool)
      requires View() == World(net, [], NO_RESULT, NO_NOTES, [])
      modifies this
      ensures Sync(cfg, old(net), source) == (if ok then Some(View()) else None, net)
    {
      var ix: Index;
      var filtered := false;
      var listed := GetExistingUsers();
      match listed {
        case Broken => return false;
        case Complete(index, _) => ix := index;
        case NeedsLookups(sample) =>
          var looked := GetExistingUsersByFilter(source, sample);
          if looked.None? { return false; }
          ix, filtered := looked.value, true;
      }
      records := ix.users;
      ghost var start := View();
      assert ReadServer(old(net), source) == (Some(Reading(ix, filtered)), net);
      for k := 0 to |source|
        invariant View() == SyncEach(cfg, start, ix, source[..k], filtered)
      {
        assert source[..k + 1][..k] == source[..k];
        SyncUser(ix, source[k], filtered);
      }
      assert source[..|source|] == source;
      return true;
    }
  }
}
