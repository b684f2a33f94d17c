/** The two servers the synchronisation is run against: an arbitrary responder and a truthful directory. */
module ScimServer {
  import opened Wrappers
  import opened Text
  import opened Records

  datatype Attr = ByExternalId | ByUserName

  datatype Request =
    | ListUsers(start: nat)
    | Filter(attr: Attr, value: string)
    | GetUser(id: string)
    | UpdateUser(id: string, update: Update)
    | CreateUser(body: User)

  predicate IsWrite(r: Request) {
    r.UpdateUser? || r.CreateUser?
  }

  /** A JSON number, an absent key, or a value of another type. */
  datatype Num = Absent | Num(value: int) | NotInt

  datatype Resources = NoResources | BadResources | Users(users: seq<User>)

  datatype Page = Page(total: Num, start: Num, perPage: Num, resources: Resources)

  /** `NoJson` is a body that is not a JSON object. */
  datatype Body = NoJson | PageBody(page: Page) | UserBody(user: User)

  datatype Reply = NetworkError | Reply(status: int, body: Body)

  // ----- the truthful directory -----

  /** What can go wrong with one call: not sent, applied but not answered, or refused. */
  datatype Fault = Fine | Unsent | Unanswered | Refused(status: int)

  /** Standard pages of chosen sizes, or one page of a sample with Apple's page-local metadata. */
  datatype Listing = Paged(size: nat -> nat) | SinglePage(sample: nat)

  datatype Directory = Directory(users: seq<User>, listing: Listing, zeroBased: bool, newId: seq<User> -> string)

  datatype Server =
    | Scripted(script: nat -> Reply, served: nat)
    | Live(dir: Directory, faults: nat -> Fault, served: nat)

  const COUNT: nat := 200

  function Least(a: nat, b: nat): nat {
    if a <= b then a else b
  }

  predicate Has(u: User, attr: Attr, value: string) {
    match attr
    case ByExternalId => Ext(u) == value
    case ByUserName => Name(u) == Normalize(value)
  }

  function Select(users: seq<User>, attr: Attr, value: string): seq<User> {
    if users == [] then []
    else (if Has(users[0], attr, value) then [users[0]] else []) + Select(users[1..], attr, value)
  }

  function IndexOf(users: seq<User>, id: string): (r: Option<nat>)
    ensures r.Some? ==> r.value < |users| && users[r.value].id == id
    ensures r.None? ==> forall i :: 0 <= i < |users| ==> users[i].id != id
  {
    if users == [] then None
    else if users[|users| - 1].id == id then Some(|users| - 1)
    else IndexOf(users[..|users| - 1], id)
  }

  /** Another account already has the name or the non-blank externalId. */
  predicate Taken(users: seq<User>, u: User, except: int) {
    exists i :: 0 <= i < |users| && i != except
                && (Name(users[i]) == Name(u) || (Ext(u) != "" && Ext(users[i]) == Ext(u)))
  }

  function PageSize(size: nat -> nat, start: nat): nat {
    if size(start) == 0 then 1 else Least(size(start), COUNT)
  }

  function ListPage(dir: Directory, start: nat): Page {
    match dir.listing
    case Paged(size) =>
      var from := if start == 0 then 0 else Least(start - 1, |dir.users|);
      var to := Least(from + PageSize(size, start), |dir.users|);
      Page(Num(|dir.users|), Num(start), Num(to - from), Users(dir.users[from..to]))
    case SinglePage(sample) =>
      var n := Least(Least(sample, COUNT), |dir.users|);
      Page(Num(n), Num(n + 1), Num(COUNT), Users(dir.users[..n]))
  }

  function FilterPage(dir: Directory, attr: Attr, value: string): Page {
    var found := Select(dir.users, attr, value);
    Page(Num(|found|), Num(if dir.zeroBased then 0 else 1), Num(|found|), Users(found))
  }

  /** A call that nothing interferes with. A write that would duplicate an identity is refused with 409. */
  function Act(dir: Directory, r: Request): (Reply, Directory) {
    match r
    case ListUsers(start) => (Reply(200, PageBody(ListPage(dir, start))), dir)
    case Filter(attr, value) => (Reply(200, PageBody(FilterPage(dir, attr, value))), dir)
    case GetUser(id) =>
      (match IndexOf(dir.users, id)
       case None => (Reply(404, NoJson), dir)
       case Some(i) => (Reply(200, UserBody(dir.users[i])), dir))
    case UpdateUser(id, update) =>
      (match IndexOf(dir.users, id)
       case None => (Reply(404, NoJson), dir)
       case Some(i) =>
         var after := ApplyUpdate(dir.users[i], update).(id := id);
         if Taken(dir.users, after, i) then (Reply(409, NoJson), dir)
         else (Reply(200, UserBody(after)), dir.(users := dir.users[i := after])))
    case CreateUser(body) =>
      if Taken(dir.users, body, -1) then (Reply(409, NoJson), dir)
      else
        var created := body.(id := dir.newId(dir.users));
        (Reply(201, UserBody(created)), dir.(users := dir.users + [created]))
  }

  function Exchange(s: Server, r: Request): (Reply, Server) {
    match s
    case Scripted(script, served) => (script(served), Scripted(script, served + 1))
    case Live(dir, faults, served) =>
      match faults(served)
      case Fine => var (reply, dir') := Act(dir, r); (reply, Live(dir', faults, served + 1))
      case Unsent => (NetworkError, Live(dir, faults, served + 1))
      case Unanswered => (NetworkError, Live(Act(dir, r).1, faults, served + 1))
      case Refused(status) =>
        (Reply(if 200 <= status < 300 then 500 else status, NoJson), Live(dir, faults, served + 1))
  }

  datatype Call = Call(request: Request, reply: Reply)

  /** The connection as the client sees it: the server and every call made to it. */
  datatype Net = Net(server: Server, trace: seq<Call>)

  function Send(n: Net, r: Request): (Reply, Net) {
    var (reply, server) := Exchange(n.server, r);
    (reply, Net(server, n.trace + [Call(r, reply)]))
  }
}
