/** What reads and writes give on a truthful directory, with any calls failing on the way
    (the server side of app/scim/apple.py's listing, filters and user requests). */
module DirectoryFacts {
  import opened Wrappers
  import opened Text
  import opened Records
  import opened ScimServer
  import opened Listing
  import opened Preflight

  /** Well-formed users with distinct ids, names and non-blank externalIds. */
  ghost predicate GoodUsers(users: seq<User>) {
    && UsersOk(users)
    && (forall i, j :: 0 <= i < |users| && 0 <= j < |users| && i != j ==>
          Name(users[i]) != Name(users[j]) && (Ext(users[i]) != "" ==> Ext(users[i]) != Ext(users[j])))
  }

  ghost predicate FreshId(users: seq<User>, id: string) {
    SafeId(id) && forall i :: 0 <= i < |users| ==> users[i].id != id
  }

  ghost predicate FreshIds(newId: seq<User> -> string) {
    forall users :: FreshId(users, newId(users))
  }

  ghost predicate Truthful(n: Net) {
    n.server.Live? && GoodUsers(n.server.dir.users) && FreshIds(n.server.dir.newId)
  }

  /** Every call is sent and answered. */
  ghost predicate Calm(n: Net) {
    n.server.Live? && forall k :: n.server.faults(k) == Fine
  }

  ghost predicate SameDir(n: Net, n': Net) {
    n.server.Live? && n'.server.Live? && n'.server.dir == n.server.dir && n'.server.faults == n.server.faults
  }

  // ----- who has an identity -----

  function Find(users: seq<User>, attr: Attr, value: string): (r: Option<nat>)
    ensures r.Some? ==> r.value < |users| && Has(users[r.value], attr, value)
    ensures r.None? ==> forall i :: 0 <= i < |users| ==> !Has(users[i], attr, value)
  {
    if users == [] then None
    else if Has(users[|users| - 1], attr, value) then Some(|users| - 1)
    else Find(users[..|users| - 1], attr, value)
  }

  /** The account with an identity. */
  function Owner(users: seq<User>, attr: Attr, value: string): Option<User> {
    match Find(users, attr, value)
    case None => None
    case Some(i) => Some(users[i])
  }

  predicate Usual(attr: Attr, value: string) {
    attr.ByExternalId? ==> value != ""
  }

  lemma OneOwner(users: seq<User>, attr: Attr, value: string, i: nat)
    requires GoodUsers(users) && Usual(attr, value) && i < |users| && Has(users[i], attr, value)
    ensures Find(users, attr, value) == Some(i)
  {}

  lemma {:induction false} SelectNone(users: seq<User>, attr: Attr, value: string)
    requires forall i :: 0 <= i < |users| ==> !Has(users[i], attr, value)
    ensures Select(users, attr, value) == []
    decreases |users|
  {
    if users != [] {
      SelectNone(users[1..], attr, value);
    }
  }

  lemma {:induction false} SelectOne(users: seq<User>, attr: Attr, value: string, i: nat)
    requires i < |users| && Has(users[i], attr, value)
    requires forall j :: 0 <= j < |users| && j != i ==> !Has(users[j], attr, value)
    ensures Select(users, attr, value) == [users[i]]
    decreases |users|
  {
    if i == 0 {
      SelectNone(users[1..], attr, value);
    } else {
      SelectOne(users[1..], attr, value, i - 1);
    }
  }

  function Listed1(u: Option<User>): seq<User> {
    match u case None => [] case Some(x) => [x]
  }

  /** A filter on a usable identity finds its owner and nobody else. */
  lemma SelectIsOwner(users: seq<User>, attr: Attr, value: string)
    requires GoodUsers(users) && Usual(attr, value)
    ensures Select(users, attr, value) == Listed1(Owner(users, attr, value))
  {
    match Find(users, attr, value)
    case None => SelectNone(users, attr, value);
    case Some(i) => SelectOne(users, attr, value, i);
  }

  lemma IdFound(users: seq<User>, i: nat)
    requires UsersOk(users) && i < |users|
    ensures IndexOf(users, users[i].id) == Some(i)
  {}

  // ----- reads -----

  predicate Succeeded(reply: Reply) {
    reply.Reply? && 200 <= reply.status < 300
  }

  lemma SendRead(n: Net, r: Request)
    requires n.server.Live? && !IsWrite(r)
    ensures var (reply, n') := Send(n, r);
            && SameDir(n, n')
            && (Succeeded(reply) ==> reply == Act(n.server.dir, r).0)
            && (Calm(n) ==> Calm(n') && reply == Act(n.server.dir, r).0)
  {}

  lemma FilterPageTruth(dir: Directory, attr: Attr, value: string)
    requires GoodUsers(dir.users) && Usual(attr, value)
    ensures FilteredUsers(FilterPage(dir, attr, value)) == Some(Listed1(Owner(dir.users, attr, value)))
  {
    SelectIsOwner(dir.users, attr, value);
  }

  lemma FilterTruth(dir: Directory, attr: Attr, value: string)
    requires GoodUsers(dir.users) && Usual(attr, value)
    ensures FilteredUser(FilterPage(dir, attr, value), attr, value) == Some(Owner(dir.users, attr, value))
  {
    FilterPageTruth(dir, attr, value);
    match Find(dir.users, attr, value)
    case None => assert Listed1(None) == [];
    case Some(i) => assert SafeId(dir.users[i].id) && Strip(dir.users[i].userName) != "";
  }

  lemma FetchPageTruth(n: Net, r: Request)
    requires n.server.Live? && (r.ListUsers? || r.Filter?)
    ensures var (page, n') := FetchPage(n, r);
            && SameDir(n, n') && (Calm(n) ==> Calm(n') && page.Some?)
            && (page.Some? ==> page.value == if r.ListUsers? then ListPage(n.server.dir, r.start)
                                             else FilterPage(n.server.dir, r.attr, r.value))
  {
    SendRead(n, r);
  }

  lemma LookupTruth(n: Net, attr: Attr, value: string, sampled: Option<User>)
    requires Truthful(n) && Usual(attr, value)
    requires sampled.Some? ==> sampled == Owner(n.server.dir.users, attr, value)
    ensures var (found, n') := Lookup(n, attr, value, sampled);
            && SameDir(n, n') && (Calm(n) ==> Calm(n') && found.Some?)
            && (found.Some? ==> found.value == Owner(n.server.dir.users, attr, value))
  {
    FetchPageTruth(n, Filter(attr, value));
    FilterTruth(n.server.dir, attr, value);
  }

  lemma FetchUserTruth(n: Net, i: nat)
    requires Truthful(n) && i < |n.server.dir.users|
    ensures var (read, n') := FetchUser(n, n.server.dir.users[i].id);
            && SameDir(n, n') && (Calm(n) ==> Calm(n') && read.Some?)
            && (read.Some? ==> read.value == n.server.dir.users[i])
  {
    SendRead(n, GetUser(n.server.dir.users[i].id));
    IdFound(n.server.dir.users, i);
  }

  // ----- indexes -----

  lemma GoodPrefix(users: seq<User>, k: nat)
    requires GoodUsers(users) && k <= |users|
    ensures GoodUsers(users[..k])
  {}

  lemma NextIndexable(ix: Index, u: User)
    requires IndexOk(ix) && GoodUsers(ix.users + [u])
    ensures Indexable(ix, u)
  {
    var all, n := ix.users + [u], |ix.users|;
    assert all[n] == u;
    forall k | k in ix.byUser ensures k != Name(u) {
      assert all[ix.byUser[k]] == ix.users[ix.byUser[k]] && all[n] == u;
    }
    forall k | k in ix.byExt && k != "" ensures k != Ext(u) {
      assert all[ix.byExt[k]] == ix.users[ix.byExt[k]] && all[n] == u;
    }
    forall i | 0 <= i < n ensures ix.users[i].id != u.id {
      assert all[i] == ix.users[i] && all[n] == u;
    }
  }

  lemma GoodFirst(users: seq<User>, more: seq<User>)
    requires GoodUsers(users + more) && more != []
    ensures GoodUsers(users + [more[0]])
  {
    assert (users + more)[..|users| + 1] == users + [more[0]];
    GoodPrefix(users + more, |users| + 1);
  }

  lemma NextGood(ix: Index, users: seq<User>)
    requires IndexOk(ix) && GoodUsers(ix.users + users) && users != []
    ensures Indexable(ix, users[0])
    ensures IndexOk(AddUnchecked(ix, users[0])) && AddUnchecked(ix, users[0]).users + users[1..] == ix.users + users
  {
    GoodFirst(ix.users, users);
    NextIndexable(ix, users[0]);
    IndexUserOk(ix, users[0]);
  }

  lemma {:induction false} IndexAllGood(ix: Index, users: seq<User>)
    requires IndexOk(ix) && GoodUsers(ix.users + users)
    ensures IndexAll(ix, users).Some?
    decreases |users|
  {
    if users != [] {
      NextGood(ix, users);
      IndexAllGood(AddUnchecked(ix, users[0]), users[1..]);
    }
  }

  /** An index over good users answers with the owner of every usable identity. */
  lemma IndexAnswers(ix: Index, u: User)
    requires IndexOk(ix) && Ext(u) != ""
    ensures Sampled(ix.users, ix.byExt, Ext(u)) == Owner(ix.users, ByExternalId, Ext(u))
    ensures Sampled(ix.users, ix.byUser, Name(u)) == Owner(ix.users, ByUserName, u.userName)
  {
    ExtAnswers(ix.users, ix.byExt, Ext(u));
    NameAnswers(ix.users, ix.byUser, u.userName);
  }

  lemma ExtAnswers(users: seq<User>, m: map<string, nat>, ext: string)
    requires ExtsIndexed(users, m) && ext != ""
    ensures Sampled(users, m, ext) == Owner(users, ByExternalId, ext)
  {
    match Find(users, ByExternalId, ext)
    case None =>
    case Some(i) => assert m[ext] == i;
  }

  lemma NameAnswers(users: seq<User>, m: map<string, nat>, name: string)
    requires NamesIndexed(users, m)
    ensures Sampled(users, m, Normalize(name)) == Owner(users, ByUserName, name)
  {
    match Find(users, ByUserName, name)
    case None =>
    case Some(i) => assert m[Normalize(name)] == i;
  }

  // ----- the listing -----

  lemma PagedPage(dir: Directory, start: nat, total: Option<nat>)
    requires dir.listing.Paged? && 1 <= start <= |dir.users| + 1 && (total.Some? ==> total.value == |dir.users|)
    requires start == |dir.users| + 1 ==> dir.users == []
    ensures var page := ListPage(dir, start);
            && (start == 1 ==> ApplePage(page, COUNT).NotApple?)
            && page.resources.Users?
            && ValidatePage(page, start, total) == Some((page.resources.users, |dir.users|))
            && start - 1 + |page.resources.users| <= |dir.users|
            && page.resources.users == dir.users[start - 1..start - 1 + |page.resources.users|]
            && (page.resources.users == [] ==> dir.users == [])
  {}

  lemma PageIndexed(users: seq<User>, ix: Index, page: seq<User>) returns (ix': Index)
    requires GoodUsers(users) && IndexOk(ix) && ix.users + page <= users
    ensures IndexAll(ix, page) == Some(ix') && IndexOk(ix') && ix'.users == ix.users + page
  {
    assert ix.users + page == users[..|ix.users + page|];
    GoodPrefix(users, |ix.users + page|);
    IndexAllGood(ix, page);
    IndexAllUsers(ix, page);
    IndexAllOk(ix, page);
    ix' := IndexAll(ix, page).value;
  }

  lemma ReadAccepted(p: Page, start: nat, total: Option<nat>, ix: Index, users: seq<User>, t: nat, ix': Index)
    requires total.None? ==> ApplePage(p, COUNT).NotApple?
    requires ValidatePage(p, start, total) == Some((users, t)) && IndexAll(ix, users) == Some(ix')
    ensures ReadPage(p, start, total, ix)
            == if users != [] && start + |users| - 1 < t then More(start + |users|, t, ix') else Stop(Complete(ix', t))
  {}

  /** The index goes on through the accounts, or has them all. */
  ghost predicate Continues(users: seq<User>, r: PageResult) {
    match r
    case Stop(listed) => listed.Complete? && listed.index.users == users
    case More(next, t, ix) =>
      && t == |users| && IndexOk(ix) && 1 < next == |ix.users| + 1 <= |users|
      && ix.users == users[..|ix.users|]
  }

  lemma IndexContinues(users: seq<User>, next: nat, ix: Index, more: bool)
    requires IndexOk(ix) && 1 <= next == |ix.users| + 1 <= |users| + 1 && ix.users == users[..|ix.users|]
    requires if more then 1 < next <= |users| else next == |users| + 1
    ensures Continues(users, if more then More(next, |users|, ix) else Stop(Complete(ix, |users|)))
  {
    assert users[..|users|] == users;
  }

  /** A page of the standard format continues the index, or completes it. */
  lemma NextPage(dir: Directory, start: nat, total: Option<nat>, ix: Index)
    requires GoodUsers(dir.users) && dir.listing.Paged? && IndexOk(ix)
    requires start == |ix.users| + 1 <= |dir.users| + 1 && ix.users == dir.users[..|ix.users|]
    requires total == if start == 1 then None else Some(|dir.users|)
    requires start == |dir.users| + 1 ==> dir.users == []
    ensures Continues(dir.users, ReadPage(ListPage(dir, start), start, total, ix))
  {
    PagedPage(dir, start, total);
    var p := ListPage(dir, start);
    var page, next := p.resources.users, start + |p.resources.users|;
    assert ix.users + page == dir.users[..next - 1];
    var ix' := PageIndexed(dir.users, ix, page);
    IndexContinues(dir.users, next, ix', page != [] && next - 1 < |dir.users|);
    ReadAccepted(p, start, total, ix, page, |dir.users|, ix');
  }

  lemma {:induction false} ListFromTruth(n: Net, start: nat, total: Option<nat>, ix: Index)
    requires Truthful(n) && n.server.dir.listing.Paged? && IndexOk(ix)
    requires start == |ix.users| + 1 <= |n.server.dir.users| + 1 && ix.users == n.server.dir.users[..|ix.users|]
    requires total == if start == 1 then None else Some(|n.server.dir.users|)
    requires start == |n.server.dir.users| + 1 ==> n.server.dir.users == []
    ensures var (listed, n') := ListFrom(n, start, total, ix);
            && SameDir(n, n') && (Calm(n) ==> Calm(n') && !listed.Broken?)
            && !listed.NeedsLookups?
            && (listed.Complete? ==> listed.index.users == n.server.dir.users)
    decreases |n.server.dir.users| + 1 - start
  {
    var users := n.server.dir.users;
    FetchPageTruth(n, ListUsers(start));
    var (fetched, n1) := FetchPage(n, ListUsers(start));
    if fetched.Some? {
      NextPage(n.server.dir, start, total, ix);
      match ReadPage(fetched.value, start, total, ix)
      case Stop(_) =>
      case More(next, t, ix') => ListFromTruth(n1, next, Some(t), ix');
    }
  }

  lemma SampleTruth(n: Net)
    requires Truthful(n) && n.server.dir.listing.SinglePage?
    ensures var (listed, n') := ListAll(n);
            && SameDir(n, n') && (Calm(n) ==> Calm(n') && !listed.Broken?)
            && !listed.Complete?
            && (listed.NeedsLookups? ==> IndexOk(listed.sample) && listed.sample.users <= n.server.dir.users)
  {
    var users := n.server.dir.users;
    FetchPageTruth(n, ListUsers(1));
    var (fetched, n1) := FetchPage(n, ListUsers(1));
    if fetched.Some? {
      var page := ListPage(n.server.dir, 1).resources.users;
      assert ApplePage(fetched.value, COUNT) == Sample(page);
      var sample := PageIndexed(users, EMPTY_INDEX, page);
    }
  }

  /** On a truthful directory the listing fails only when a call fails. A complete listing is exactly the
      directory; a single page is a part of it; and reading changes nothing. */
  lemma ListingTruth(n: Net)
    requires Truthful(n)
    ensures var (listed, n') := ListAll(n);
            && SameDir(n, n') && (Calm(n) ==> Calm(n') && !listed.Broken?)
            && (listed.Complete? ==> IndexOk(listed.index) && listed.index.users == n.server.dir.users)
            && (listed.NeedsLookups? ==> IndexOk(listed.sample) && listed.sample.users <= n.server.dir.users)
  {
    if n.server.dir.listing.Paged? {
      ListFromTruth(n, 1, None, EMPTY_INDEX);
      ListFromSound(n, 1, None, EMPTY_INDEX);
    } else {
      SampleTruth(n);
    }
  }

  // ----- writes -----

  lemma ReplaceGood(users: seq<User>, i: nat, after: User)
    requires GoodUsers(users) && i < |users| && !Taken(users, after, i)
    requires after.id == users[i].id && Strip(after.userName) != ""
    ensures GoodUsers(users[i := after])
  {
    var users' := users[i := after];
    forall j, k | 0 <= j < |users'| && 0 <= k < |users'| && j != k
      ensures Name(users'[j]) != Name(users'[k]) && (Ext(users'[j]) != "" ==> Ext(users'[j]) != Ext(users'[k]))
    {
      assert j != i ==> users'[j] == users[j];
      assert k != i ==> users'[k] == users[k];
    }
  }

  lemma AppendGood(users: seq<User>, created: User)
    requires GoodUsers(users) && !Taken(users, created, -1)
    requires FreshId(users, created.id) && Strip(created.userName) != ""
    ensures GoodUsers(users + [created])
  {
    var users' := users + [created];
    forall j, k | 0 <= j < |users'| && 0 <= k < |users'| && j != k
      ensures Name(users'[j]) != Name(users'[k]) && (Ext(users'[j]) != "" ==> Ext(users'[j]) != Ext(users'[k]))
    {
      assert j < |users| ==> users'[j] == users[j];
      assert k < |users| ==> users'[k] == users[k];
    }
  }

  /** The directory of `n'` is that of `n` with these users. */
  ghost predicate DirIs(n: Net, n': Net, users: seq<User>) {
    && n.server.Live? && n'.server.Live? && n'.server.faults == n.server.faults
    && n'.server.dir == n.server.dir.(users := users)
  }

  lemma ActUpdate(dir: Directory, i: nat, update: Update, after: User)
    requires GoodUsers(dir.users) && i < |dir.users|
    requires after == ApplyUpdate(dir.users[i], update).(id := dir.users[i].id)
    requires !Taken(dir.users, after, i)
    ensures Act(dir, UpdateUser(dir.users[i].id, update)) == (Reply(200, UserBody(after)), dir.(users := dir.users[i := after]))
  {
    IdFound(dir.users, i);
  }

  /** An update that takes nobody else's identity is applied whenever it is acknowledged, and at most to its
      own account. */
  lemma UpdateEffect(n: Net, i: nat, update: Update, after: User)
    requires Truthful(n) && i < |n.server.dir.users|
    requires after == ApplyUpdate(n.server.dir.users[i], update).(id := n.server.dir.users[i].id)
    requires !Taken(n.server.dir.users, after, i)
    ensures var users := n.server.dir.users;
            var (reply, n') := Send(n, UpdateUser(users[i].id, update));
            && (DirIs(n, n', users) || DirIs(n, n', users[i := after]))
            && (Succeeded(reply) ==> DirIs(n, n', users[i := after]))
            && (Calm(n) ==> Calm(n') && reply.Reply? && reply.status == 200)
  {
    ActUpdate(n.server.dir, i, update, after);
    assert n.server.dir == n.server.dir.(users := n.server.dir.users);
  }

  /** A creation that takes nobody's identity is applied whenever it is acknowledged. */
  lemma CreateEffect(n: Net, body: User, created: User)
    requires Truthful(n) && !Taken(n.server.dir.users, body, -1)
    requires created == body.(id := n.server.dir.newId(n.server.dir.users))
    ensures var users := n.server.dir.users;
            var (reply, n') := Send(n, CreateUser(body));
            && (DirIs(n, n', users) || DirIs(n, n', users + [created]))
            && (Succeeded(reply) ==> DirIs(n, n', users + [created]) && reply == Reply(201, UserBody(created)))
            && (Calm(n) ==> Calm(n') && Succeeded(reply))
            && FreshId(users, created.id)
  {
    assert n.server.dir == n.server.dir.(users := n.server.dir.users);
  }
}
