/** Reading and indexing the users the server has (app/scim/apple.py): standard pages, Apple's single page,
    and the indexes by externalId and by userName. */
module Listing {
  import opened Wrappers
  import opened Text
  import opened Records
  import opened ScimServer

  // ----- pages -----

  function NumOr(n: Num, default: nat): Num {
    if n.Absent? then Num(default) else n
  }

  function ResourcesOf(p: Page): Option<seq<User>> {
    match p.resources
    case NoResources => Some([])
    case BadResources => None
    case Users(us) => Some(us)
  }

  /** `_validate_users_page`: the users and the total of an acceptable page. */
  function ValidatePage(p: Page, expectedStart: nat, expectedTotal: Option<nat>): Option<(seq<User>, nat)> {
    if !p.total.Num? || p.total.value < 0 then None
    else if expectedTotal.Some? && p.total.value != expectedTotal.value then None
    else if NumOr(p.start, expectedStart) != Num(expectedStart) then None
    else if ResourcesOf(p).None? then None
    else
      var users, total := ResourcesOf(p).value, p.total.value;
      if NumOr(p.perPage, |users|) != Num(|users|) then None
      else if expectedStart - 1 + |users| > total then None
      else if users == [] && expectedStart <= total then None
      else Some((users, total))
  }

  datatype AppleResult = NotApple | TooMany | Sample(users: seq<User>)

  /** `_apple_single_page`: totals and positions relative to the page itself. */
  function ApplePage(p: Page, count: nat): AppleResult {
    if !p.resources.Users? then NotApple
    else
      var users := p.resources.users;
      if p.total != Num(|users|) || p.start != Num(|users| + 1) || p.perPage != Num(count) then NotApple
      else if |users| > count then TooMany
      else Sample(users)
  }

  /** No page passes for both formats. */
  lemma FormatsExclude(p: Page, total: Option<nat>)
    requires ApplePage(p, COUNT) != NotApple
    ensures ValidatePage(p, 1, total).None?
  {}

  // ----- indexes -----

  /** The listed users in order, and for each key the position of its user. */
  datatype Index = Index(users: seq<User>, byExt: map<string, nat>, byUser: map<string, nat>)

  const EMPTY_INDEX := Index([], map[], map[])

  function AddUnchecked(ix: Index, u: User): Index {
    Index(ix.users + [u],
          if u.externalId != "" then ix.byExt[Ext(u) := |ix.users|] else ix.byExt,
          ix.byUser[Name(u) := |ix.users|])
  }

  predicate Indexable(ix: Index, u: User) {
    && SafeId(u.id) && Strip(u.userName) != ""
    && (forall i :: 0 <= i < |ix.users| ==> ix.users[i].id != u.id)
    && Name(u) !in ix.byUser && (Ext(u) == "" || Ext(u) !in ix.byExt)
  }

  /** `_index_unique_user`. */
  function IndexUser(ix: Index, u: User): Option<Index> {
    if Indexable(ix, u) then Some(AddUnchecked(ix, u)) else None
  }

  function IndexAll(ix: Index, users: seq<User>): Option<Index>
    decreases |users|
  {
    if users == [] then Some(ix)
    else
      match IndexUser(ix, users[0])
      case None => None
      case Some(ix') => IndexAll(ix', users[1..])
  }

  ghost predicate UsersOk(users: seq<User>) {
    && (forall i :: 0 <= i < |users| ==> SafeId(users[i].id) && Strip(users[i].userName) != "")
    && (forall i, j :: 0 <= i < j < |users| ==> users[i].id != users[j].id)
  }

  ghost predicate NamesIndexed(users: seq<User>, m: map<string, nat>) {
    && (forall i :: 0 <= i < |users| ==> Name(users[i]) in m && m[Name(users[i])] == i)
    && (forall k :: k in m ==> m[k] < |users| && Name(users[m[k]]) == k)
  }

  ghost predicate ExtsIndexed(users: seq<User>, m: map<string, nat>) {
    && (forall i :: 0 <= i < |users| && Ext(users[i]) != "" ==> Ext(users[i]) in m && m[Ext(users[i])] == i)
    && (forall k :: k in m ==> m[k] < |users| && Ext(users[m[k]]) == k)
  }

  /** Distinct ids and names, distinct non-blank externalIds, and keys that lead to exactly the right user. A
      blank but non-empty externalId is kept under the key "", where the last one wins. */
  ghost predicate IndexOk(ix: Index) {
    UsersOk(ix.users) && NamesIndexed(ix.users, ix.byUser) && ExtsIndexed(ix.users, ix.byExt)
  }

  lemma NamesGrow(users: seq<User>, m: map<string, nat>, u: User)
    requires NamesIndexed(users, m) && Name(u) !in m
    ensures NamesIndexed(users + [u], m[Name(u) := |users|])
  {
    var users', name := users + [u], Name(u);
    var m' := m[name := |users|];
    forall i | 0 <= i < |users'| ensures Name(users'[i]) in m' && m'[Name(users'[i])] == i {
      assert i < |users| ==> users'[i] == users[i] && Name(users[i]) in m;
    }
    forall k | k in m' ensures m'[k] < |users'| && Name(users'[m'[k]]) == k {
      assert k != name ==> k in m;
    }
  }

  lemma ExtsGrow(users: seq<User>, m: map<string, nat>, u: User)
    requires ExtsIndexed(users, m) && (Ext(u) == "" || Ext(u) !in m)
    ensures ExtsIndexed(users + [u], if u.externalId != "" then m[Ext(u) := |users|] else m)
  {
    var users', ext := users + [u], Ext(u);
    var m' := if u.externalId != "" then m[ext := |users|] else m;
    forall i | 0 <= i < |users'| && Ext(users'[i]) != "" ensures Ext(users'[i]) in m' && m'[Ext(users'[i])] == i {
      assert i < |users| ==> users'[i] == users[i] && Ext(users[i]) in m;
    }
    forall k | k in m' ensures m'[k] < |users'| && Ext(users'[m'[k]]) == k {
      assert (u.externalId == "" || k != ext) ==> k in m;
    }
  }

  lemma IndexUserOk(ix: Index, u: User)
    requires IndexOk(ix) && Indexable(ix, u)
    ensures IndexOk(AddUnchecked(ix, u))
  {
    NamesGrow(ix.users, ix.byUser, u);
    ExtsGrow(ix.users, ix.byExt, u);
    assert UsersOk(ix.users + [u]);
  }

  lemma IndexAllStep(ix: Index, users: seq<User>)
    requires users != [] && IndexAll(ix, users).Some?
    ensures Indexable(ix, users[0]) && IndexAll(ix, users) == IndexAll(AddUnchecked(ix, users[0]), users[1..])
  {}

  lemma FirstMoved(a: seq<User>, b: seq<User>)
    requires b != []
    ensures a + b == (a + [b[0]]) + b[1..]
  {}

  lemma {:induction false} IndexAllUsers(ix: Index, users: seq<User>)
    requires IndexAll(ix, users).Some?
    ensures IndexAll(ix, users).value.users == ix.users + users
    decreases |users|
  {
    if users == [] {
      assert ix.users + users == ix.users;
    } else {
      IndexAllStep(ix, users);
      FirstMoved(ix.users, users);
      IndexAllUsers(AddUnchecked(ix, users[0]), users[1..]);
    }
  }

  lemma {:induction false} IndexAllOk(ix: Index, users: seq<User>)
    requires IndexOk(ix) && IndexAll(ix, users).Some?
    ensures IndexOk(IndexAll(ix, users).value)
    decreases |users|
  {
    if users != [] {
      IndexAllStep(ix, users);
      IndexUserOk(ix, users[0]);
      IndexAllOk(AddUnchecked(ix, users[0]), users[1..]);
    }
  }

  /** The userName index has exactly one entry for each user. */
  lemma {:induction false} NamesCounted(users: seq<User>, m: map<string, nat>)
    requires NamesIndexed(users, m)
    ensures |m| == |users|
    decreases |users|
  {
    if users == [] {
      assert m == map[];
    } else {
      var n := |users| - 1;
      var name := Name(users[n]);
      var m' := m - {name};
      assert m.Keys == m'.Keys + {name};
      forall k | k in m' ensures m'[k] < n && Name(users[..n][m'[k]]) == k {
        assert m[k] != n;
      }
      forall i | 0 <= i < n ensures Name(users[..n][i]) in m' && m'[Name(users[..n][i])] == i {
        assert m[Name(users[i])] == i;
      }
      NamesCounted(users[..n], m');
    }
  }

  // ----- the whole listing -----

  datatype Listed = Complete(index: Index, total: nat) | NeedsLookups(sample: Index) | Broken

  function FetchPage(n: Net, r: Request): (Option<Page>, Net) {
    var (reply, n') := Send(n, r);
    (if reply.Reply? && reply.status == 200 && reply.body.PageBody? then Some(reply.body.page) else None, n')
  }

  datatype PageResult = Stop(listed: Listed) | More(next: nat, total: nat, index: Index)

  /** What the loop makes of one page. */
  function ReadPage(page: Page, start: nat, total: Option<nat>, ix: Index): (r: PageResult)
    ensures r.More? ==> start < r.next <= r.total && (total.Some? ==> r.total == total.value)
  {
    match if total.None? then ApplePage(page, COUNT) else NotApple
    case TooMany => Stop(Broken)
    case Sample(users) =>
      Stop(match IndexAll(EMPTY_INDEX, users) case None => Broken case Some(sample) => NeedsLookups(sample))
    case NotApple =>
      match ValidatePage(page, start, total)
      case None => Stop(Broken)
      case Some((users, t)) =>
        match IndexAll(ix, users)
        case None => Stop(Broken)
        case Some(ix') =>
          if users != [] && start + |users| - 1 < t then More(start + |users|, t, ix') else Stop(Complete(ix', t))
  }

  /** The page loop of `_get_existing_users`, from a given point on. */
  function ListFrom(n: Net, start: nat, total: Option<nat>, ix: Index): (Listed, Net)
    decreases total.None?, if total.Some? && start <= total.value then total.value - start + 1 else 0
  {
    var (fetched, n') := FetchPage(n, ListUsers(start));
    if fetched.None? then (Broken, n')
    else
      match ReadPage(fetched.value, start, total, ix)
      case Stop(listed) => (listed, n')
      case More(next, t, ix') => ListFrom(n', next, Some(t), ix')
  }

  function ListAll(n: Net): (Listed, Net) {
    ListFrom(n, 1, None, EMPTY_INDEX)
  }

  predicate OnlyReads(before: seq<Call>, after: seq<Call>) {
    before <= after && forall i :: |before| <= i < |after| ==> !IsWrite(after[i].request)
  }

  /** The facts about a finished listing, without what the page loop reads on the way. */
  ghost predicate ListedOk(listed: Listed) {
    match listed
    case Complete(ix, total) => IndexOk(ix) && |ix.users| == total
    case NeedsLookups(sample) => IndexOk(sample)
    case Broken => true
  }

  lemma PageSound(p: Page, start: nat, total: Option<nat>, ix: Index)
    requires IndexOk(ix) && start == |ix.users| + 1
    ensures match ReadPage(p, start, total, ix)
            case Stop(listed) => ListedOk(listed)
            case More(next, t, ix') => IndexOk(ix') && next == |ix'.users| + 1
  {
    var apple := if total.None? then ApplePage(p, COUNT) else NotApple;
    if apple.Sample? {
      if IndexAll(EMPTY_INDEX, apple.users).Some? { IndexAllOk(EMPTY_INDEX, apple.users); }
    } else if apple.NotApple? && ValidatePage(p, start, total).Some? {
      var users := ValidatePage(p, start, total).value.0;
      if IndexAll(ix, users).Some? {
        IndexAllOk(ix, users);
        IndexAllUsers(ix, users);
      }
    }
  }

  /** Against any server whatever: the loop ends; if it ends well the pages held exactly the announced total of
      users, all with distinct and well-formed identities. */
  lemma {:induction false} ListFromSound(n: Net, start: nat, total: Option<nat>, ix: Index)
    requires IndexOk(ix) && start == |ix.users| + 1
    ensures ListedOk(ListFrom(n, start, total, ix).0)
    decreases total.None?, if total.Some? && start <= total.value then total.value - start + 1 else 0
  {
    var (fetched, n1) := FetchPage(n, ListUsers(start));
    if fetched.Some? {
      PageSound(fetched.value, start, total, ix);
      match ReadPage(fetched.value, start, total, ix)
      case Stop(_) =>
      case More(next, t, ix') => ListFromSound(n1, next, Some(t), ix');
    }
  }

  lemma ReadsCompose(a: seq<Call>, b: seq<Call>, c: seq<Call>)
    requires OnlyReads(a, b) && OnlyReads(b, c)
    ensures OnlyReads(a, c)
  {}

  lemma SendReads(n: Net, r: Request)
    requires !IsWrite(r)
    ensures OnlyReads(n.trace, Send(n, r).1.trace)
  {}

  lemma {:induction false} ListFromReads(n: Net, start: nat, total: Option<nat>, ix: Index)
    ensures OnlyReads(n.trace, ListFrom(n, start, total, ix).1.trace)
    decreases total.None?, if total.Some? && start <= total.value then total.value - start + 1 else 0
  {
    var (fetched, n1) := FetchPage(n, ListUsers(start));
    SendReads(n, ListUsers(start));
    if fetched.Some? {
      match ReadPage(fetched.value, start, total, ix)
      case Stop(_) =>
      case More(next, t, ix') =>
        ListFromReads(n1, next, Some(t), ix');
        ReadsCompose(n.trace, n1.trace, ListFrom(n, start, total, ix).1.trace);
    }
  }

  /** Against any server whatever, the page loop ends. When it ends well the pages together held exactly the
      announced number of users, with distinct safe ids, distinct names (one index entry each) and distinct
      non-blank externalIds, every key leading to its user. Nothing is written on the way. */
  lemma ListingSound(n: Net)
    ensures var (listed, n') := ListAll(n);
            && ListedOk(listed) && OnlyReads(n.trace, n'.trace)
            && (listed.Complete? ==> |listed.index.byUser| == |listed.index.users| == listed.total)
  {
    ListFromSound(n, 1, None, EMPTY_INDEX);
    ListFromReads(n, 1, None, EMPTY_INDEX);
    var listed := ListAll(n).0;
    if listed.Complete? {
      NamesCounted(listed.index.users, listed.index.byUser);
    }
  }
}
