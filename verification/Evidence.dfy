/** The history a run keeps is the history of its calls, and what it wrote to it had been shown
    (app/scim/apple.py), whatever the server answers. */
module Evidence {
  import opened Wrappers
  import opened Records
  import opened ScimServer
  import opened Listing
  import opened Preflight
  import opened Engine
  import opened Accounting

  /** The answer contains the record. */
  predicate Shows(reply: Reply, u: User) {
    reply.Reply? && reply.status == 200
    && match reply.body
       case UserBody(x) => x == u
       case PageBody(page) => page.resources.Users? && u in page.resources.users
       case NoJson => false
  }

  ghost predicate Reported(trace: seq<Call>, u: User) {
    exists i :: 0 <= i < |trace| && Shows(trace[i].reply, u)
  }

  ghost predicate AllReported(trace: seq<Call>, users: seq<User>) {
    forall i :: 0 <= i < |users| ==> Reported(trace, users[i])
  }

  lemma ReportedMore(trace: seq<Call>, trace': seq<Call>, u: User)
    requires trace <= trace' && Reported(trace, u)
    ensures Reported(trace', u)
  {
    var i :| 0 <= i < |trace| && Shows(trace[i].reply, u);
    assert trace'[i] == trace[i];
  }

  lemma AllReportedMore(trace: seq<Call>, trace': seq<Call>, users: seq<User>)
    requires trace <= trace' && AllReported(trace, users)
    ensures AllReported(trace', users)
  {
    forall i | 0 <= i < |users| ensures Reported(trace', users[i]) {
      ReportedMore(trace, trace', users[i]);
    }
  }

  // ----- reading -----

  lemma FetchedPage(n: Net, r: Request, u: User)
    requires FetchPage(n, r).0.Some?
    requires var page := FetchPage(n, r).0.value; page.resources.Users? && u in page.resources.users
    ensures Reported(FetchPage(n, r).1.trace, u)
  {
    var n' := FetchPage(n, r).1;
    assert Shows(n'.trace[|n.trace|].reply, u);
  }

  lemma FetchedUsers(n: Net, r: Request)
    requires FetchPage(n, r).0.Some? && FetchPage(n, r).0.value.resources.Users?
    ensures AllReported(FetchPage(n, r).1.trace, FetchPage(n, r).0.value.resources.users)
  {
    var users := FetchPage(n, r).0.value.resources.users;
    forall i | 0 <= i < |users| ensures Reported(FetchPage(n, r).1.trace, users[i]) {
      FetchedPage(n, r, users[i]);
    }
  }

  lemma AddReported(trace: seq<Call>, a: seq<User>, b: seq<User>)
    requires AllReported(trace, a) && AllReported(trace, b)
    ensures AllReported(trace, a + b)
  {
    forall i | 0 <= i < |a + b| ensures Reported(trace, (a + b)[i]) {
      if i < |a| { assert (a + b)[i] == a[i]; } else { assert (a + b)[i] == b[i - |a|]; }
    }
  }

  /** What a page leads to has only users that were shown before it or on it. */
  lemma PageReported(trace: seq<Call>, p: Page, start: nat, total: Option<nat>, ix: Index)
    requires AllReported(trace, ix.users)
    requires p.resources.Users? ==> AllReported(trace, p.resources.users)
    ensures match ReadPage(p, start, total, ix)
            case Stop(Complete(ix', _)) => AllReported(trace, ix'.users)
            case Stop(NeedsLookups(sample)) => AllReported(trace, sample.users)
            case Stop(Broken) => true
            case More(_, _, ix') => AllReported(trace, ix'.users)
  {
    var apple := if total.None? then ApplePage(p, COUNT) else NotApple;
    if apple.Sample? {
      if IndexAll(EMPTY_INDEX, apple.users).Some? {
        IndexAllUsers(EMPTY_INDEX, apple.users);
        assert EMPTY_INDEX.users + apple.users == apple.users;
      }
    } else if apple.NotApple? && ValidatePage(p, start, total).Some? {
      var users := ValidatePage(p, start, total).value.0;
      if IndexAll(ix, users).Some? {
        IndexAllUsers(ix, users);
        AddReported(trace, ix.users, users);
      }
    }
  }

  lemma {:induction false} ListFromReported(n: Net, start: nat, total: Option<nat>, ix: Index)
    requires AllReported(n.trace, ix.users)
    ensures var (listed, n') := ListFrom(n, start, total, ix);
            match listed
            case Complete(ix', _) => AllReported(n'.trace, ix'.users)
            case NeedsLookups(sample) => AllReported(n'.trace, sample.users)
            case Broken => true
    decreases total.None?, if total.Some? && start <= total.value then total.value - start + 1 else 0
  {
    var (fetched, n1) := FetchPage(n, ListUsers(start));
    SendReads(n, ListUsers(start));
    if fetched.Some? {
      AllReportedMore(n.trace, n1.trace, ix.users);
      if fetched.value.resources.Users? { FetchedUsers(n, ListUsers(start)); }
      PageReported(n1.trace, fetched.value, start, total, ix);
      match ReadPage(fetched.value, start, total, ix)
      case Stop(_) =>
      case More(next, t, ix') => ListFromReported(n1, next, Some(t), ix');
    }
  }

  lemma FetchedUser(n: Net, id: string)
    requires FetchUser(n, id).0.Some?
    ensures Reported(FetchUser(n, id).1.trace, FetchUser(n, id).0.value)
  {
    var (read, n') := FetchUser(n, id);
    assert Shows(n'.trace[|n.trace|].reply, read.value);
  }

  lemma {:induction false} VerifyAllReported(n: Net, found: seq<User>)
    ensures var (ix, n') := VerifyAll(n, found);
            ix.Some? ==> AllReported(n'.trace, ix.value.users)
    decreases |found|
  {
    if found != [] {
      var init, last := found[..|found| - 1], found[|found| - 1];
      VerifyAllReported(n, init);
      var (ix, n1) := VerifyAll(n, init);
      if ix.Some? {
        SendReads(n1, GetUser(last.id));
        var (read, n2) := FetchUser(n1, last.id);
        if read.Some? {
          AllReportedMore(n1.trace, n2.trace, ix.value.users);
          FetchedUser(n1, last.id);
          AddReported(n2.trace, ix.value.users, [read.value]);
        }
      }
    }
  }

  lemma LookupAllReported(n: Net, source: seq<User>, sample: Index)
    ensures var (ix, n') := LookupAll(n, source, sample);
            ix.Some? ==> AllReported(n'.trace, ix.value.users)
  {
    if SourceAccepted(source) {
      var (ps, n1) := ProbeAll(n, source, sample);
      if ps.Some? {
        VerifyAllReported(n1, ps.value.found);
      }
    }
  }

  lemma ReadServerReported(n: Net, source: seq<User>)
    ensures var (r, n') := ReadServer(n, source);
            r.Some? ==> AllReported(n'.trace, r.value.index.users)
  {
    ListFromReported(n, 1, None, EMPTY_INDEX);
    var (listed, n1) := ListAll(n);
    if listed.NeedsLookups? {
      LookupAllReported(n1, source, listed.sample);
    }
  }

  lemma SampledReported(trace: seq<Call>, users: seq<User>, m: map<string, nat>, key: string)
    requires AllReported(trace, users)
    ensures Sampled(users, m, key).Some? ==> Reported(trace, Sampled(users, m, key).value)
  {}

  lemma VerifyFoundReported(w: World, u: User, found: User)
    ensures var (user, w') := VerifyFound(w, u, found);
            && OnlyReads(w.net.trace, w'.net.trace)
            && (user.Some? ==> Reported(w'.net.trace, user.value))
  {
    ListFromReported(w.net, 1, None, EMPTY_INDEX);
    ListFromReads(w.net, 1, None, EMPTY_INDEX);
    var (listed, n1) := ListAll(w.net);
    if listed.NeedsLookups? {
      LookupAllReported(n1, [u], listed.sample);
      LookupAllSound(n1, [u], listed.sample);
      ReadsCompose(w.net.trace, n1.trace, LookupAll(n1, [u], listed.sample).1.trace);
    }
  }

  lemma IdentifyReported(w: World, u: User)
    ensures var (id, w') := Identify(w, u);
            && OnlyReads(w.net.trace, w'.net.trace)
            && (id.Identified? ==> Reported(w'.net.trace, id.user))
  {
    var r := Filter(ByUserName, u.userName);
    var (page, net) := FetchPage(w.net, r);
    SendReads(w.net, r);
    if page.Some? && ValidatePage(FromZero(page.value), 1, None).Some? {
      var (users, total) := ValidatePage(FromZero(page.value), 1, None).value;
      if total == 1 {
        FetchedPage(w.net, r, users[0]);
        VerifyFoundReported(w.(net := net), u, users[0]);
        ReadsCompose(w.net.trace, net.trace, VerifyFound(w.(net := net), u, users[0]).1.net.trace);
      }
    }
  }

  lemma VerifyCreatedReads(w: World, u: User, body: Body)
    ensures OnlyReads(w.net.trace, VerifyCreated(w, u, body).1.net.trace)
  {
    LookupAllSound(w.net, [u], EMPTY_INDEX);
  }

  // ----- writing -----

  /** The write is the call at its position, and the record it was decided on had been shown by then. */
  ghost predicate Written(trace: seq<Call>, wr: Writing) {
    && wr.at < |trace| && trace[wr.at] == Call(wr.request, wr.reply) && IsWrite(wr.request)
    && (wr.target.Some? ==> Reported(trace[..wr.at], wr.target.value))
  }

  predicate HasWriting(writings: seq<Writing>, p: nat) {
    exists i :: 0 <= i < |writings| && writings[i].at == p
  }

  /** From position `base` on, the writes among the calls are exactly the writings, in order. */
  ghost predicate Recorded(base: nat, trace: seq<Call>, writings: seq<Writing>) {
    && (forall i :: 0 <= i < |writings| ==> base <= writings[i].at && Written(trace, writings[i]))
    && (forall i, j :: 0 <= i < j < |writings| ==> writings[i].at < writings[j].at)
    && (forall p: nat :: base <= p < |trace| && IsWrite(trace[p].request) ==> HasWriting(writings, p))
  }

  ghost predicate Backed(base: seq<Call>, w: World) {
    && base <= w.net.trace && Recorded(|base|, w.net.trace, w.writings)
    && AllReported(w.net.trace, w.records)
  }

  lemma WrittenMore(trace: seq<Call>, trace': seq<Call>, wr: Writing)
    requires trace <= trace' && Written(trace, wr)
    ensures Written(trace', wr)
  {
    assert trace'[..wr.at] == trace[..wr.at];
  }

  lemma RecordedRead(base: nat, trace: seq<Call>, trace': seq<Call>, writings: seq<Writing>)
    requires base <= |trace| && Recorded(base, trace, writings) && OnlyReads(trace, trace')
    ensures Recorded(base, trace', writings)
  {
    forall i | 0 <= i < |writings| ensures Written(trace', writings[i]) {
      WrittenMore(trace, trace', writings[i]);
    }
    forall p: nat | base <= p < |trace'| && IsWrite(trace'[p].request) ensures HasWriting(writings, p) {
      assert p < |trace| && trace[p] == trace'[p];
    }
  }

  lemma BackedRead(base: seq<Call>, w: World, w': World)
    requires Backed(base, w) && OnlyReads(w.net.trace, w'.net.trace)
    requires w'.records == w.records && w'.writings == w.writings
    ensures Backed(base, w')
  {
    RecordedRead(|base|, w.net.trace, w'.net.trace, w.writings);
    AllReportedMore(w.net.trace, w'.net.trace, w.records);
  }

  lemma RecordedWrite(base: nat, trace: seq<Call>, writings: seq<Writing>, wr: Writing)
    requires base <= |trace| && Recorded(base, trace, writings) && IsWrite(wr.request) && wr.at == |trace|
    requires wr.target.Some? ==> Reported(trace, wr.target.value)
    ensures Recorded(base, trace + [Call(wr.request, wr.reply)], writings + [wr])
  {
    var trace', writings' := trace + [Call(wr.request, wr.reply)], writings + [wr];
    assert trace'[..wr.at] == trace && writings'[|writings|] == wr;
    forall i | 0 <= i < |writings'| ensures base <= writings'[i].at && Written(trace', writings'[i]) {
      if i < |writings| {
        WrittenMore(trace, trace', writings[i]);
      }
    }
    forall p: nat | base <= p < |trace'| && IsWrite(trace'[p].request) ensures HasWriting(writings', p) {
      if p < |trace| {
        assert trace[p] == trace'[p] && HasWriting(writings, p);
        var i :| 0 <= i < |writings| && writings[i].at == p;
        assert writings'[i].at == p;
      }
    }
  }

  lemma BackedWrite(base: seq<Call>, w: World, u: User, target: Option<User>, r: Request)
    requires Backed(base, w) && IsWrite(r) && (target.Some? ==> Reported(w.net.trace, target.value))
    ensures Backed(base, Write(w, u, target, r).1)
  {
    var (reply, net) := Send(w.net, r);
    RecordedWrite(|base|, w.net.trace, w.writings, Writing(u, target, r, reply, |w.net.trace|));
    AllReportedMore(w.net.trace, net.trace, w.records);
  }

  lemma PatchUserBacked(base: seq<Call>, cfg: Config, w: World, h: nat, u: User, d: Diffs)
    requires h < |w.records| && BuildUpdate(u, cfg.mode, w.records[h].id, d).Some? && Backed(base, w)
    ensures Backed(base, PatchUser(cfg, w, h, u, d).1)
  {
    var t := w.records[h];
    BackedWrite(base, w, u, Some(t), UpdateUser(t.id, BuildUpdate(u, cfg.mode, t.id, d).value));
  }

  lemma VerifiedBacked(base: seq<Call>, w: World, h: nat, id: string, u: User, apple: User)
    requires h < |w.records| && Backed(base, w)
    ensures var (read, w') := Read(w, GetUser(id));
            Backed(base, w')
            && (Verifies(read, apple, u) ==> Backed(base, w'.(records := w'.records[h := read.body.user])))
  {
    var (read, w') := Read(w, GetUser(id));
    SendReads(w.net, GetUser(id));
    BackedRead(base, w, w');
    if Verifies(read, apple, u) {
      assert Shows(w'.net.trace[|w.net.trace|].reply, read.body.user);
    }
  }

  lemma PatchExternalIdBacked(base: seq<Call>, w: World, h: nat, u: User)
    requires h < |w.records| && Backed(base, w)
    ensures var w' := PatchExternalId(w, h, u).1;
            Backed(base, w') && |w'.records| == |w.records|
  {
    var t := w.records[h];
    var r := UpdateUser(t.id, Patch([SetExternalId(Ext(u))]));
    BackedWrite(base, w, u, Some(t), r);
    VerifiedBacked(base, Write(w, u, Some(t), r).1, h, t.id, u, t);
  }

  lemma ApplyDiffsBacked(base: seq<Call>, cfg: Config, w: World, h: nat, u: User, d: Diffs, repaired: bool)
    requires h < |w.records| && Backed(base, w)
    ensures Backed(base, ApplyDiffs(cfg, w, h, u, d, repaired).1)
  {
    var act, w1 := Actionable(d, cfg.mode), NoteStale(w, AnyDiff(Stale(d, cfg.mode)));
    if AnyDiff(act) {
      assert BuildUpdate(u, cfg.mode, w.records[h].id, act).Some? by { UpdateBuiltIff(u, cfg.mode, w.records[h].id, d); }
      PatchUserBacked(base, cfg, NoteDouble(w1, repaired), h, u, act);
    }
  }

  lemma ReconcileBacked(base: seq<Call>, cfg: Config, w: World, h: nat, u: User, recovered: bool)
    requires h < |w.records| && Backed(base, w)
    ensures Backed(base, Reconcile(cfg, w, h, u, recovered).1)
  {
    if !(recovered && !CanRecover(cfg, w.records[h], u)) {
      var d := FieldDiffs(w.records[h], u, true);
      if recovered && d.externalId {
        PatchExternalIdBacked(base, w, h, u);
        var (repair, w1) := PatchExternalId(w, h, u);
        if repair.Repaired? {
          ApplyDiffsBacked(base, cfg, w1, h, u, FieldDiffs(w1.records[h], u, false), true);
        }
      } else {
        ApplyDiffsBacked(base, cfg, w, h, u, d, false);
      }
    }
  }

  lemma Handle409Backed(base: seq<Call>, cfg: Config, w: World, u: User)
    requires Backed(base, w)
    ensures Backed(base, Handle409(cfg, w, u).1)
  {
    var (id, w1) := Identify(w, u);
    IdentifyReported(w, u);
    BackedRead(base, w, w1);
    if id.Identified? {
      AddReported(w1.net.trace, w1.records, [id.user]);
      ReconcileBacked(base, cfg, WithCell(w1, id.user), |w1.records|, u, true);
    }
  }

  lemma ConfirmBacked(base: seq<Call>, w: World, u: User, verify: bool, body: Body)
    requires Backed(base, w)
    ensures Backed(base, Confirm(w, u, verify, body))
  {
    VerifyCreatedReads(w, u, body);
    BackedRead(base, w, VerifyCreated(w, u, body).1);
  }

  lemma AfterPostBacked(base: seq<Call>, cfg: Config, w: World, u: User, verify: bool, reply: Reply)
    requires Backed(base, w)
    ensures Backed(base, AfterPost(cfg, w, u, verify, reply).1)
  {
    if reply.Reply? {
      if reply.status == 409 {
        Handle409Backed(base, cfg, w, u);
      } else {
        ConfirmBacked(base, w, u, verify, reply.body);
      }
    }
  }

  lemma CreateBacked(base: seq<Call>, cfg: Config, w: World, u: User, verify: bool)
    requires Backed(base, w)
    ensures Backed(base, Create(cfg, w, u, verify).1)
  {
    BackedWrite(base, w, u, None, CreateUser(u));
    var (reply, w1) := Write(w, u, None, CreateUser(u));
    AfterPostBacked(base, cfg, w1, u, verify, reply);
  }

  lemma SyncOneBacked(base: seq<Call>, cfg: Config, w: World, ix: Index, u: User, filtered: bool)
    requires Backed(base, w)
    ensures Backed(base, SyncOne(cfg, w, ix, u, filtered))
  {
    match MatchUser(u, w.records, ix.byExt, ix.byUser)
    case Clash =>
    case NoMatch => CreateBacked(base, cfg, w, u, filtered);
    case Matched(h, byName) => ReconcileBacked(base, cfg, w, h, u, byName);
  }

  lemma {:induction false} SyncEachBacked(base: seq<Call>, cfg: Config, w: World, ix: Index, source: seq<User>, filtered: bool)
    requires Backed(base, w)
    ensures Backed(base, SyncEach(cfg, w, ix, source, filtered))
    decreases |source|
  {
    if source != [] {
      var init := source[..|source| - 1];
      SyncEachBacked(base, cfg, w, ix, init, filtered);
      SyncOneBacked(base, cfg, SyncEach(cfg, w, ix, init, filtered), ix, source[|source| - 1], filtered);
    }
  }

  /** Whatever the server answers, the writings of a run are exactly the writes among its calls, in order and
      with their answers, and every record an update was decided on had been shown by an earlier answer. */
  lemma HistoryIsTrue(cfg: Config, n: Net, source: seq<User>)
    ensures var (w, n') := Sync(cfg, n, source);
            w.Some? ==> w.value.net == n' && n.trace <= n'.trace && Recorded(|n.trace|, n'.trace, w.value.writings)
  {
    ReadServerSound(n, source);
    ReadServerReported(n, source);
    var (r, n1) := ReadServer(n, source);
    if r.Some? {
      var w := StartWorld(n1, r.value.index);
      assert Recorded(|n.trace|, n1.trace, []);
      assert Backed(n.trace, w);
      SyncEachBacked(n.trace, cfg, w, r.value.index, source, r.value.filtered);
    }
  }

  /** A run without writings has only read. */
  lemma NothingWritten(cfg: Config, n: Net, source: seq<User>)
    requires Sync(cfg, n, source).0.Some? && Sync(cfg, n, source).0.value.writings == []
    ensures OnlyReads(n.trace, Sync(cfg, n, source).1.trace)
  {
    HistoryIsTrue(cfg, n, source);
    var trace := Sync(cfg, n, source).1.trace;
    forall p: nat | |n.trace| <= p < |trace| ensures !IsWrite(trace[p].request) {
      assert IsWrite(trace[p].request) ==> HasWriting([], p);
    }
  }
}
