/** What reading the existing users is worth, whatever the server answers, read off the calls made: the pages that
    make up a listing, and the lookups and reads that make up a preflight (app/scim/apple.py). */
module Readings {
  import opened Wrappers
  import opened Text
  import opened Records
  import opened ScimServer
  import opened Listing
  import opened Preflight
  import opened Engine

  // ----- a listing by pages -----

  function UsersIn(a: Reply): seq<User> {
    if a.Reply? && a.body.PageBody? && a.body.page.resources.Users? then a.body.page.resources.users else []
  }

  /** The answer is a page of so many users in all, from this position on, that counts its own users rightly. */
  predicate PageAt(a: Reply, start: nat, total: nat) {
    && a.Reply? && a.status == 200 && a.body.PageBody?
    && var p, us := a.body.page, UsersIn(a);
       && p.total == Num(total) && (p.start.Absent? || p.start == Num(start)) && !p.resources.BadResources?
       && (p.perPage.Absent? || p.perPage == Num(|us|)) && start + |us| <= total + 1 && (us == [] ==> start > total)
  }

  /** The calls ask for one page after another, each from where the one before ended, and the users are those of the
      pages, up to the total that every page announces. */
  ghost predicate PagesFrom(calls: seq<Call>, start: nat, total: nat, users: seq<User>)
    decreases |calls|
  {
    && calls != [] && calls[0].request == ListUsers(start) && PageAt(calls[0].reply, start, total)
    && var us := UsersIn(calls[0].reply);
       if |calls| == 1 then users == us && start + |us| >= total + 1
       else us != [] && start + |us| <= total && us <= users && PagesFrom(calls[1..], start + |us|, total, users[|us|..])
  }

  /** The one page of Apple's own format: its total is its own size, its position one beyond, its page size the one
      asked for, and it has no more users than that. */
  predicate SinglePageOf(c: Call, users: seq<User>) {
    && c.request == ListUsers(1) && c.reply.Reply? && c.reply.status == 200 && c.reply.body.PageBody?
    && c.reply.body.page == Page(Num(|users|), Num(|users| + 1), Num(200), Users(users)) && |users| <= 200
  }

  lemma PageRead(a: Reply, start: nat, total: Option<nat>, ix: Index)
    requires a.Reply? && a.status == 200 && a.body.PageBody? && start >= 1
    ensures match ReadPage(a.body.page, start, total, ix)
            case Stop(Complete(ix', t)) =>
              && PageAt(a, start, t) && start + |UsersIn(a)| >= t + 1 && ix'.users == ix.users + UsersIn(a)
              && (total.Some? ==> t == total.value)
            case Stop(NeedsLookups(sample)) => total.None? && (start == 1 ==> SinglePageOf(Call(ListUsers(1), a), sample.users))
            case Stop(Broken) => true
            case More(next, t, ix') =>
              && PageAt(a, start, t) && next == start + |UsersIn(a)| <= t && UsersIn(a) != []
              && ix'.users == ix.users + UsersIn(a) && (total.Some? ==> t == total.value)
  {
    var page := a.body.page;
    var apple := if total.None? then ApplePage(page, COUNT) else NotApple;
    if apple.Sample? {
      if IndexAll(EMPTY_INDEX, apple.users).Some? {
        IndexAllUsers(EMPTY_INDEX, apple.users);
        assert EMPTY_INDEX.users + apple.users == apple.users;
      }
    } else if apple.NotApple? && ValidatePage(page, start, total).Some? {
      if IndexAll(ix, UsersIn(a)).Some? {
        IndexAllUsers(ix, UsersIn(a));
      }
    }
  }

  lemma PagesOne(c: Call, start: nat, total: nat)
    requires c.request == ListUsers(start) && PageAt(c.reply, start, total) && start + |UsersIn(c.reply)| >= total + 1
    ensures PagesFrom([c], start, total, UsersIn(c.reply))
  {}

  lemma PagesMore(c: Call, rest: seq<Call>, start: nat, total: nat, users: seq<User>)
    requires c.request == ListUsers(start) && PageAt(c.reply, start, total) && UsersIn(c.reply) != []
    requires start + |UsersIn(c.reply)| <= total && PagesFrom(rest, start + |UsersIn(c.reply)|, total, users)
    ensures PagesFrom([c] + rest, start, total, UsersIn(c.reply) + users)
  {
    var us := UsersIn(c.reply);
    assert ([c] + rest)[1..] == rest && (us + users)[|us|..] == users;
  }

  ghost predicate ListedFrom(calls: seq<Call>, start: nat, total: Option<nat>, before: seq<User>, listed: Listed) {
    match listed
    case Complete(ix, t) =>
      && before <= ix.users && PagesFrom(calls, start, t, ix.users[|before|..]) && (total.Some? ==> t == total.value)
    case NeedsLookups(sample) => total.None? && |calls| == 1 && (start == 1 ==> SinglePageOf(calls[0], sample.users))
    case Broken => true
  }

  /** The calls made between the two traces list what is listed. */
  ghost predicate Lists(before: seq<Call>, after: seq<Call>, start: nat, total: Option<nat>, users: seq<User>, listed: Listed) {
    before <= after && ListedFrom(after[|before|..], start, total, users, listed)
  }

  lemma {:induction false} ListFromPages(n: Net, start: nat, total: Option<nat>, ix: Index)
    requires start >= 1
    ensures Lists(n.trace, ListFrom(n, start, total, ix).1.trace, start, total, ix.users, ListFrom(n, start, total, ix).0)
    decreases total.None?, if total.Some? && start <= total.value then total.value - start + 1 else 0
  {
    var (fetched, n1) := FetchPage(n, ListUsers(start));
    PageFetched(n, start);
    if fetched.Some? {
      match ReadPage(fetched.value, start, total, ix)
      case Stop(listed) => PagesStop(n, n1, start, total, ix, fetched.value, listed);
      case More(next, t, ix') =>
        ListFromPages(n1, next, Some(t), ix');
        var (listed, n') := ListFrom(n1, next, Some(t), ix');
        PagesGoOn(n, n1, n'.trace, start, total, ix, fetched.value, next, t, ix', listed);
    }
  }

  lemma PagesStop(n: Net, n1: Net, start: nat, total: Option<nat>, ix: Index, page: Page, listed: Listed)
    requires start >= 1 && n1.trace == n.trace + [Call(ListUsers(start), Reply(200, PageBody(page)))]
    requires ReadPage(page, start, total, ix) == Stop(listed)
    ensures Lists(n.trace, n1.trace, start, total, ix.users, listed)
  {
    StoppedPages(Reply(200, PageBody(page)), start, total, ix, listed);
    assert n1.trace[|n.trace|..] == [Call(ListUsers(start), Reply(200, PageBody(page)))];
  }

  lemma PagesGoOn(n: Net, n1: Net, after: seq<Call>, start: nat, total: Option<nat>, ix: Index, page: Page,
                  next: nat, t: nat, ix': Index, listed: Listed)
    requires start >= 1 && n1.trace == n.trace + [Call(ListUsers(start), Reply(200, PageBody(page)))]
    requires ReadPage(page, start, total, ix) == More(next, t, ix')
    requires Lists(n1.trace, after, next, Some(t), ix'.users, listed)
    ensures Lists(n.trace, after, start, total, ix.users, listed)
  {
    var a := Reply(200, PageBody(page));
    PageRead(a, start, total, ix);
    NextPages(n.trace, a, after, start, total, ix.users, t, listed);
  }

  lemma PageFetched(n: Net, start: nat)
    ensures var (fetched, n1) := FetchPage(n, ListUsers(start));
            var a := Send(n, ListUsers(start)).0;
            && n1.trace == n.trace + [Call(ListUsers(start), a)]
            && (fetched.None? ==> Lists(n.trace, n1.trace, start, None, [], Broken))
            && (fetched.Some? ==> a == Reply(200, PageBody(fetched.value)))
  {}

  lemma CallThenCalls(before: seq<Call>, c: Call, after: seq<Call>)
    requires before + [c] <= after
    ensures before <= after && after[|before|..] == [c] + after[|before + [c]|..]
  {}

  lemma NextPages(before: seq<Call>, a: Reply, after: seq<Call>, start: nat, total: Option<nat>, users: seq<User>, t: nat, listed: Listed)
    requires PageAt(a, start, t) && start + |UsersIn(a)| <= t && UsersIn(a) != [] && (total.Some? ==> t == total.value)
    requires before + [Call(ListUsers(start), a)] <= after
    requires ListedFrom(after[|before + [Call(ListUsers(start), a)]|..], start + |UsersIn(a)|, Some(t), users + UsersIn(a), listed)
    ensures before <= after && ListedFrom(after[|before|..], start, total, users, listed)
  {
    CallThenCalls(before, Call(ListUsers(start), a), after);
    MorePages(a, after[|before + [Call(ListUsers(start), a)]|..], start, total, t, users, listed);
  }

  lemma StoppedPages(a: Reply, start: nat, total: Option<nat>, ix: Index, listed: Listed)
    requires a.Reply? && a.status == 200 && a.body.PageBody? && start >= 1
    requires ReadPage(a.body.page, start, total, ix) == Stop(listed)
    ensures ListedFrom([Call(ListUsers(start), a)], start, total, ix.users, listed)
  {
    PageRead(a, start, total, ix);
    if listed.Complete? {
      PagesOne(Call(ListUsers(start), a), start, listed.total);
      assert listed.index.users[|ix.users|..] == UsersIn(a);
    }
  }

  lemma MorePages(a: Reply, rest: seq<Call>, start: nat, total: Option<nat>, t: nat, before: seq<User>, listed: Listed)
    requires PageAt(a, start, t) && UsersIn(a) != [] && start + |UsersIn(a)| <= t && (total.Some? ==> t == total.value)
    requires ListedFrom(rest, start + |UsersIn(a)|, Some(t), before + UsersIn(a), listed)
    ensures ListedFrom([Call(ListUsers(start), a)] + rest, start, total, before, listed)
  {
    if listed.Complete? {
      var us, all := UsersIn(a), listed.index.users;
      PagesMore(Call(ListUsers(start), a), rest, start, t, all[|before + us|..]);
      assert all[|before|..] == us + all[|before + us|..];
    }
  }

  lemma {:induction false} PagesCount(calls: seq<Call>, start: nat, total: nat, users: seq<User>)
    requires PagesFrom(calls, start, total, users) && start <= total + 1
    ensures start + |users| == total + 1
    decreases |calls|
  {
    if |calls| > 1 {
      var us := UsersIn(calls[0].reply);
      PagesCount(calls[1..], start + |us|, total, users[|us|..]);
    }
  }

  /** Whatever the server answers, a listing that ends well is the users of the pages asked for, in order and without
      a gap, each page consistent with itself and with the total of the first; and a sample is the single page of
      Apple's own format. */
  lemma ListingIsPages(n: Net)
    ensures var (listed, n') := ListAll(n);
            && n.trace <= n'.trace
            && (match listed
                case Complete(ix, total) =>
                  PagesFrom(n'.trace[|n.trace|..], 1, total, ix.users) && |ix.users| == total
                case NeedsLookups(sample) =>
                  |n'.trace| == |n.trace| + 1 && SinglePageOf(n'.trace[|n.trace|], sample.users)
                case Broken => true)
  {
    ListFromPages(n, 1, None, EMPTY_INDEX);
    var (listed, n') := ListAll(n);
    if listed.Complete? {
      assert listed.index.users[0..] == listed.index.users;
      PagesCount(n'.trace[|n.trace|..], 1, listed.total, listed.index.users);
    }
  }

  lemma NotBoth(calls: seq<Call>, total: nat, users: seq<User>, sample: seq<User>)
    requires PagesFrom(calls, 1, total, users)
    ensures !SinglePageOf(calls[0], sample)
  {}

  /** The users a run works from were looked up, and its creations will be confirmed, exactly when the first answer was a
      single page of Apple's own format. */
  lemma FilteredIffSample(n: Net, source: seq<User>)
    requires ReadServer(n, source).0.Some?
    ensures var (r, n') := ReadServer(n, source);
            && n.trace < n'.trace
            && (r.value.filtered <==> exists sample :: SinglePageOf(n'.trace[|n.trace|], sample))
  {
    ListingIsPages(n);
    var (listed, n1) := ListAll(n);
    match listed
    case Complete(ix, total) =>
      forall sample ensures !SinglePageOf(n1.trace[|n.trace|], sample) {
        NotBoth(n1.trace[|n.trace|..], total, ix.users, sample);
      }
    case NeedsLookups(sample) =>
      LookupAllSound(n1, source, sample);
      assert SinglePageOf(n1.trace[|n.trace|], sample.users);
  }

  // ----- the preflight -----

  /** Both are nobody, or records of the same id, name and externalId. */
  predicate Agreeing(a: Option<User>, b: Option<User>) {
    if a.None? || b.None? then a == b
    else a.value.id == b.value.id && Name(a.value) == Name(b.value) && Ext(a.value) == Ext(b.value)
  }

  /** The answer to a lookup is a consistent page of nobody, or of one user with a usable id, a name, and the identity
      that was asked for. */
  predicate FilterShows(a: Reply, attr: Attr, value: string, x: Option<User>) {
    && a.Reply? && a.status == 200 && a.body.PageBody?
    && var p := a.body.page;
       && (p.start.Absent? || p.start == Num(0) || p.start == Num(1))
       && match x
          case None => p.total == Num(0) && UsersIn(a) == [] && !p.resources.BadResources? && (p.perPage.Absent? || p.perPage == Num(0))
          case Some(v) =>
            && p.total == Num(1) && p.resources == Users([v]) && (p.perPage.Absent? || p.perPage == Num(1))
            && SafeId(v.id) && Strip(v.userName) != ""
            && (if attr.ByExternalId? then Ext(v) == value else Name(v) == Normalize(value))
  }

  /** The record an index leads to from a key. */
  function Indexed(users: seq<User>, m: map<string, nat>, key: string): Option<User> {
    if key in m && m[key] < |users| then Some(users[m[key]]) else None
  }

  /** One user's two lookups: what they showed, which the sample does not contradict. */
  predicate Probed(a: Call, b: Call, u: User, sample: Index, byExt: Option<User>, byName: Option<User>) {
    && a.request == Filter(ByExternalId, Ext(u)) && FilterShows(a.reply, ByExternalId, Ext(u), byExt)
    && b.request == Filter(ByUserName, u.userName) && FilterShows(b.reply, ByUserName, u.userName, byName)
    && var e, m := Indexed(sample.users, sample.byExt, Ext(u)), Indexed(sample.users, sample.byUser, Name(u));
       (e.Some? ==> Agreeing(e, byExt)) && (m.Some? ==> Agreeing(m, byName))
  }

  lemma LookupShown(n: Net, attr: Attr, value: string, sampled: Option<User>)
    ensures var (found, n') := Lookup(n, attr, value, sampled);
            var a := Send(n, Filter(attr, value)).0;
            && n'.trace == n.trace + [Call(Filter(attr, value), a)]
            && (found.Some? ==> FilterShows(a, attr, value, found.value) && (sampled.Some? ==> Agreeing(sampled, found.value)))
  {
    var (page, n') := FetchPage(n, Filter(attr, value));
    if page.Some? && FilteredUsers(page.value).Some? {
      var users := FilteredUsers(page.value).value;
      assert users == [] || users == [users[0]];
    }
  }

  lemma ProbeOneShown(n: Net, u: User, sample: Index, ps: Probes)
    requires ProbeOne(n, u, sample, ps).0.Some?
    ensures var (ps', n') := ProbeOne(n, u, sample, ps);
            ProbedNext(n.trace, n'.trace, u, sample, ps.answers, ps'.value.answers)
  {
    LookupShown(n, ByExternalId, Ext(u), Sampled(sample.users, sample.byExt, Ext(u)));
    var (e, n1) := Lookup(n, ByExternalId, Ext(u), Sampled(sample.users, sample.byExt, Ext(u)));
    LookupShown(n1, ByUserName, u.userName, Sampled(sample.users, sample.byUser, Name(u)));
    var (m, n2) := Lookup(n1, ByUserName, u.userName, Sampled(sample.users, sample.byUser, Name(u)));
    var a, b := n1.trace[|n.trace|], n2.trace[|n1.trace|];
    assert n2.trace == n.trace + [a, b];
    assert Probed(a, b, u, sample, e.value, m.value);
  }

  /** Calls `2k` and `2k + 1` are the lookups of user `k`, with this answer. */
  predicate ProbedAt(calls: seq<Call>, source: seq<User>, sample: Index, answers: seq<Probe>, k: nat)
    requires |calls| == 2 * |source| && |answers| == |source| && k < |source|
  {
    && answers[k].source == source[k]
    && Probed(calls[2 * k], calls[2 * k + 1], source[k], sample, answers[k].byExt, answers[k].byName)
  }

  ghost predicate ProbedAll(calls: seq<Call>, source: seq<User>, sample: Index, answers: seq<Probe>) {
    && |calls| == 2 * |source| && |answers| == |source|
    && forall k: nat :: k < |source| ==> ProbedAt(calls, source, sample, answers, k)
  }

  lemma ProbedKept(calls: seq<Call>, source: seq<User>, sample: Index, answers: seq<Probe>, a: Call, b: Call, p: Probe, k: nat)
    requires |calls| == 2 * |source| && |answers| == |source| && k < |source| && ProbedAt(calls, source, sample, answers, k)
    ensures ProbedAt(calls + [a, b], source + [p.source], sample, answers + [p], k)
  {
    assert (calls + [a, b])[2 * k] == calls[2 * k] && (calls + [a, b])[2 * k + 1] == calls[2 * k + 1];
  }

  lemma ProbedMore(calls: seq<Call>, source: seq<User>, sample: Index, answers: seq<Probe>, a: Call, b: Call, p: Probe)
    requires ProbedAll(calls, source, sample, answers) && Probed(a, b, p.source, sample, p.byExt, p.byName)
    ensures ProbedAll(calls + [a, b], source + [p.source], sample, answers + [p])
  {
    forall k: nat | k < |source| + 1 ensures ProbedAt(calls + [a, b], source + [p.source], sample, answers + [p], k) {
      if k < |source| {
        ProbedKept(calls, source, sample, answers, a, b, p, k);
      }
    }
  }

  /** The calls made between the two traces are the lookups of the users, with these answers. */
  ghost predicate LookedUp(before: seq<Call>, after: seq<Call>, source: seq<User>, sample: Index, answers: seq<Probe>)
    decreases |source|
  {
    if source == [] then after == before && answers == []
    else
      && |after| >= 2 && answers != []
      && LookedUp(before, after[..|after| - 2], source[..|source| - 1], sample, answers[..|answers| - 1])
      && var u, p := source[|source| - 1], answers[|answers| - 1];
         p.source == u && Probed(after[|after| - 2], after[|after| - 1], u, sample, p.byExt, p.byName)
  }

  lemma PairJoins(before: seq<Call>, mid: seq<Call>, a: Call, b: Call, init: seq<User>, sample: Index, was: seq<Probe>, p: Probe)
    requires before <= mid && ProbedAll(mid[|before|..], init, sample, was)
    requires Probed(a, b, p.source, sample, p.byExt, p.byName)
    ensures before <= mid + [a, b] && ProbedAll((mid + [a, b])[|before|..], init + [p.source], sample, was + [p])
  {
    ProbedMore(mid[|before|..], init, sample, was, a, b, p);
    assert (mid + [a, b])[|before|..] == mid[|before|..] + [a, b];
  }

  lemma LastOf<T>(s: seq<T>)
    requires s != []
    ensures s[..|s| - 1] + [s[|s| - 1]] == s
  {}

  lemma LastTwo<T>(s: seq<T>)
    requires |s| >= 2
    ensures s[..|s| - 2] + [s[|s| - 2], s[|s| - 1]] == s
  {}

  lemma {:induction false} LookedUpAll(before: seq<Call>, after: seq<Call>, source: seq<User>, sample: Index, answers: seq<Probe>)
    requires LookedUp(before, after, source, sample, answers)
    ensures before <= after && ProbedAll(after[|before|..], source, sample, answers)
    decreases |source|
  {
    if source != [] {
      var mid, init, was := after[..|after| - 2], source[..|source| - 1], answers[..|answers| - 1];
      LookedUpAll(before, mid, init, sample, was);
      PairJoins(before, mid, after[|after| - 2], after[|after| - 1], init, sample, was, answers[|answers| - 1]);
      LastTwo(after);
      LastOf(source);
      LastOf(answers);
    }
  }

  /** One user's lookups after those of the users before. */
  ghost predicate ProbedNext(before: seq<Call>, after: seq<Call>, u: User, sample: Index, was: seq<Probe>, now: seq<Probe>) {
    exists a, b, e, m :: after == before + [a, b] && now == was + [Probe(u, e, m)] && Probed(a, b, u, sample, e, m)
  }

  lemma ProbeLast(n: Net, source: seq<User>, sample: Index)
    requires source != [] && ProbeAll(n, source, sample).0.Some?
    ensures var (ps, n1) := ProbeAll(n, source[..|source| - 1], sample);
            var (ps', n') := ProbeAll(n, source, sample);
            ps.Some? && ProbedNext(n1.trace, n'.trace, source[|source| - 1], sample, ps.value.answers, ps'.value.answers)
  {
    var (ps, n1) := ProbeAll(n, source[..|source| - 1], sample);
    ProbeOneShown(n1, source[|source| - 1], sample, ps.value);
  }

  lemma ProbesJoin(first: seq<Call>, before: seq<Call>, after: seq<Call>, source: seq<User>, sample: Index, was: seq<Probe>, now: seq<Probe>)
    requires source != [] && LookedUp(first, before, source[..|source| - 1], sample, was)
    requires ProbedNext(before, after, source[|source| - 1], sample, was, now)
    ensures LookedUp(first, after, source, sample, now)
  {
    var u := source[|source| - 1];
    var a, b, e, m :| after == before + [a, b] && now == was + [Probe(u, e, m)] && Probed(a, b, u, sample, e, m);
    assert after[..|after| - 2] == before && now[..|now| - 1] == was;
  }

  lemma {:induction false} ProbeAllShown(n: Net, source: seq<User>, sample: Index)
    requires ProbeAll(n, source, sample).0.Some?
    ensures LookedUp(n.trace, ProbeAll(n, source, sample).1.trace, source, sample, ProbeAll(n, source, sample).0.value.answers)
    decreases |source|
  {
    if source != [] {
      var init := source[..|source| - 1];
      ProbeLast(n, source, sample);
      ProbeAllShown(n, init, sample);
      var (ps, n1) := ProbeAll(n, init, sample);
      var (ps', n') := ProbeAll(n, source, sample);
      ProbesJoin(n.trace, n1.trace, n'.trace, source, sample, ps.value.answers, ps'.value.answers);
    }
  }

  /** The calls read every user of the index by its id. */
  predicate ReadBack(calls: seq<Call>, users: seq<User>) {
    && |calls| == |users|
    && forall i :: 0 <= i < |users| ==> calls[i] == Call(GetUser(users[i].id), Reply(200, UserBody(users[i])))
  }

  ghost predicate ReadOn(before: seq<Call>, after: seq<Call>, users: seq<User>) {
    before <= after && ReadBack(after[|before|..], users)
  }

  lemma ReadMore(first: seq<Call>, before: seq<Call>, users: seq<User>, x: User)
    requires ReadOn(first, before, users)
    ensures ReadOn(first, before + [Call(GetUser(x.id), Reply(200, UserBody(x)))], users + [x])
  {
    var c := Call(GetUser(x.id), Reply(200, UserBody(x)));
    assert (before + [c])[|first|..] == before[|first|..] + [c];
  }

  lemma {:induction false} VerifyAllShown(n: Net, found: seq<User>)
    requires VerifyAll(n, found).0.Some?
    ensures ReadOn(n.trace, VerifyAll(n, found).1.trace, VerifyAll(n, found).0.value.users)
    decreases |found|
  {
    if found != [] {
      var init, last := found[..|found| - 1], found[|found| - 1];
      VerifyAllShown(n, init);
      var (ix, n1) := VerifyAll(n, init);
      ReadMore(n.trace, n1.trace, ix.value.users, FetchUser(n1, last.id).0.value);
    }
  }

  /** One user's place in what the preflight accepts: its two lookups agree with the records the index has for it. */
  ghost predicate AnsweredFor(a: Call, b: Call, u: User, sample: Index, ix: Index) {
    exists e, m ::
      && Probed(a, b, u, sample, e, m)
      && Agreeing(e, Indexed(ix.users, ix.byExt, Ext(u))) && Agreeing(m, Indexed(ix.users, ix.byUser, Name(u)))
  }

  predicate AnsweredPlaces(calls: seq<Call>, source: seq<User>, ix: Index) {
    |calls| == 2 * |source| + |ix.users|
  }

  ghost predicate AnsweredAt(calls: seq<Call>, source: seq<User>, sample: Index, ix: Index, k: nat)
    requires AnsweredPlaces(calls, source, ix) && k < |source|
  {
    AnsweredFor(calls[2 * k], calls[2 * k + 1], source[k], sample, ix)
  }

  /** The calls are the two lookups of each user in turn and then the reads, and all agree with the index. */
  ghost predicate AnsweredAll(calls: seq<Call>, source: seq<User>, sample: Index, ix: Index) {
    && AnsweredPlaces(calls, source, ix) && ReadBack(calls[2 * |source|..], ix.users)
    && forall k: nat :: k < |source| ==> AnsweredAt(calls, source, sample, ix, k)
  }

  lemma AnswersJoin(lookups: seq<Call>, rereads: seq<Call>, source: seq<User>, sample: Index, answers: seq<Probe>, ix: Index)
    requires ProbedAll(lookups, source, sample, answers) && ReadBack(rereads, ix.users) && Consistent(answers, ix)
    ensures AnsweredAll(lookups + rereads, source, sample, ix)
  {
    var calls := lookups + rereads;
    assert calls[2 * |source|..] == rereads;
    forall k: nat | k < |source| ensures AnsweredAt(calls, source, sample, ix, k) {
      assert ProbedAt(lookups, source, sample, answers, k);
      ConsistentAt(answers, ix, k);
      assert calls[2 * k] == lookups[2 * k] && calls[2 * k + 1] == lookups[2 * k + 1];
    }
  }

  /** Whatever the server answers, what the preflight accepts it has evidence for: two lookups for each source user, each
      a consistent answer of that identity or of nobody, which the first sample does not contradict and the index
      agrees with, and then one read of every indexed user by its id. */
  lemma PreflightIsAnswered(n: Net, source: seq<User>, sample: Index)
    requires LookupAll(n, source, sample).0.Some?
    ensures var (ix, n') := LookupAll(n, source, sample);
            n.trace <= n'.trace && AnsweredAll(n'.trace[|n.trace|..], source, sample, ix.value)
  {
    var (ix, n') := LookupAll(n, source, sample);
    ProbeAllShown(n, source, sample);
    var (ps, n1) := ProbeAll(n, source, sample);
    LookedUpAll(n.trace, n1.trace, source, sample, ps.value.answers);
    VerifyAllShown(n1, ps.value.found);
    AnswersJoin(n1.trace[|n.trace|..], n'.trace[|n1.trace|..], source, sample, ps.value.answers, ix.value);
    assert n'.trace[|n.trace|..] == n1.trace[|n.trace|..] + n'.trace[|n1.trace|..];
  }

  lemma ConsistentAt(answers: seq<Probe>, ix: Index, k: nat)
    requires Consistent(answers, ix) && k < |answers|
    ensures var p := answers[k];
            && Agreeing(p.byExt, Indexed(ix.users, ix.byExt, Ext(p.source)))
            && Agreeing(p.byName, Indexed(ix.users, ix.byUser, Name(p.source)))
  {
    assert SameIdentityOpt(answers[k].byExt, Sampled(ix.users, ix.byExt, Ext(answers[k].source)));
    assert SameIdentityOpt(answers[k].byName, Sampled(ix.users, ix.byUser, Name(answers[k].source)));
  }
}
