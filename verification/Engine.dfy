/** Reconciling the source users with the server, as functions on the connection, the records and the
    counters (app/scim/apple.py). Records are cells: the indexes hold cell numbers, so a repair that overwrites
    a cell is seen through every index, as with the program's shared dictionaries. */
module Engine {
  import opened Wrappers
  import opened Text
  import opened Records
  import opened ScimServer
  import opened Listing
  import opened Preflight

  datatype Config = Config(mode: Mode, recovery: bool)

  /** The counters of a run; `noChange` is the program's `unchanged`. */
  datatype SyncResult = SyncResult(
    created: nat, updated: nat, noChange: nat, conflicts: nat, errors: nat, update400: nat, outOfScope: nat,
    conflictNames: seq<string>)

  const NO_RESULT := SyncResult(0, 0, 0, 0, 0, 0, 0, [])

  /** A write: who it was for, the record it was decided on, its answer, and its position among the calls.
      History only. */
  datatype Writing = Writing(source: User, target: Option<User>, request: Request, reply: Reply, at: nat)

  /** Counts of what the counters do not show. History only: users whose link repair was followed by another
      attempted write, accepted link repairs that could not be verified, accepted creations that could not be
      confirmed, and refused creations that could not be resolved. */
  datatype Notes = Notes(doubles: nat, unverified: nat, unconfirmed: nat, unresolved: nat)

  const NO_NOTES := Notes(0, 0, 0, 0)

  datatype World = World(net: Net, records: seq<User>, result: SyncResult, notes: Notes, writings: seq<Writing>)

  function Read(w: World, r: Request): (Reply, World) {
    var (reply, net) := Send(w.net, r);
    (reply, w.(net := net))
  }

  function Write(w: World, source: User, target: Option<User>, r: Request): (Reply, World) {
    var (reply, net) := Send(w.net, r);
    (reply, w.(net := net, writings := w.writings + [Writing(source, target, r, reply, |w.net.trace|)]))
  }

  function Error(w: World): World {
    w.(result := w.result.(errors := w.result.errors + 1))
  }

  function Unverified(w: World): World {
    Error(w).(notes := w.notes.(unverified := w.notes.unverified + 1))
  }

  function Unconfirmed(w: World): World {
    Error(w).(notes := w.notes.(unconfirmed := w.notes.unconfirmed + 1))
  }

  function Unresolved(w: World): World {
    Error(w).(notes := w.notes.(unresolved := w.notes.unresolved + 1))
  }

  function WriteError(w: World, status: int): World {
    w.(result := w.result.(errors := w.result.errors + 1,
                           update400 := w.result.update400 + if status == 400 then 1 else 0))
  }

  function Conflict(w: World, u: User): World {
    w.(result := w.result.(conflicts := w.result.conflicts + 1,
                           conflictNames := w.result.conflictNames + if u.userName != "" then [u.userName] else []))
  }

  function CountUpdated(w: World): World {
    w.(result := w.result.(updated := w.result.updated + 1))
  }

  function CountNoChange(w: World): World {
    w.(result := w.result.(noChange := w.result.noChange + 1))
  }

  function NoteStale(w: World, stale: bool): World {
    if stale then w.(result := w.result.(outOfScope := w.result.outOfScope + 1)) else w
  }

  function NoteDouble(w: World, double: bool): World {
    if double then w.(notes := w.notes.(doubles := w.notes.doubles + 1)) else w
  }

  // ----- updating an account -----

  /** `_can_recover_by_username`. */
  predicate CanRecover(cfg: Config, apple: User, u: User) {
    Ext(u) != "" && if Ext(apple) != "" then Ext(apple) == Ext(u) else cfg.recovery
  }

  /** True in the first component: a network error left the function. */
  function PatchUser(cfg: Config, w: World, h: nat, u: User, d: Diffs): (bool, World)
    requires h < |w.records| && BuildUpdate(u, cfg.mode, w.records[h].id, d).Some?
  {
    var target := w.records[h];
    var (reply, w1) := Write(w, u, Some(target), UpdateUser(target.id, BuildUpdate(u, cfg.mode, target.id, d).value));
    match reply
    case NetworkError => (true, w1)
    case Reply(status, _) => (false, if status == 200 || status == 204 then CountUpdated(w1) else WriteError(w1, status))
  }

  datatype Repair = Raised | Failed | Repaired

  predicate Verifies(read: Reply, apple: User, u: User) {
    && read.Reply? && read.status == 200 && read.body.UserBody?
    && read.body.user.id == apple.id && Ext(read.body.user) == Ext(u) && Name(read.body.user) == Name(u)
  }

  /** `_patch_external_id`: write the link, read the account back, and overwrite the shared record with it. */
  function PatchExternalId(w: World, h: nat, u: User): (Repair, World)
    requires h < |w.records|
  {
    var target := w.records[h];
    var (reply, w1) := Write(w, u, Some(target), UpdateUser(target.id, Patch([SetExternalId(Ext(u))])));
    match reply
    case NetworkError => (Raised, w1)
    case Reply(status, _) =>
      if status != 200 && status != 204 then (Failed, WriteError(w1, status))
      else
        var (read, w2) := Read(w1, GetUser(target.id));
        if Verifies(read, target, u)
        then (Repaired, CountUpdated(w2.(records := w2.records[h := read.body.user])))
        else (Failed, Unverified(w2))
  }

  /** The part of `_reconcile_diffs` after the link is settled. */
  function ApplyDiffs(cfg: Config, w: World, h: nat, u: User, d: Diffs, repaired: bool): (bool, World)
    requires h < |w.records|
  {
    var act := Actionable(d, cfg.mode);
    var w1 := NoteStale(w, AnyDiff(Stale(d, cfg.mode)));
    if AnyDiff(act) then
      UpdateBuiltIff(u, cfg.mode, w.records[h].id, d);
      PatchUser(cfg, NoteDouble(w1, repaired), h, u, act)
    else (false, if repaired then w1 else CountNoChange(w1))
  }

  function Reconcile(cfg: Config, w: World, h: nat, u: User, recovered: bool): (bool, World)
    requires h < |w.records|
  {
    if recovered && !CanRecover(cfg, w.records[h], u) then (false, Conflict(w, u))
    else
      var d := FieldDiffs(w.records[h], u, true);
      if recovered && d.externalId then
        match PatchExternalId(w, h, u)
        case (Raised, w1) => (true, w1)
        case (Failed, w1) => (false, w1)
        case (Repaired, w1) => ApplyDiffs(cfg, w1, h, u, FieldDiffs(w1.records[h], u, false), true)
      else ApplyDiffs(cfg, w, h, u, d, false)
  }

  // ----- creating an account -----

  /** `_verified_filtered_user`: a fresh listing, or fresh lookups, must agree with the filter's answer. */
  function VerifyFound(w: World, u: User, found: User): (r: (Option<User>, World))
    ensures r.1.(net := w.net) == w
  {
    var (listed, n1) := ListAll(w.net);
    var (ix, n2) := match listed
      case Complete(ix, _) => (Some(ix), n1)
      case NeedsLookups(sample) => LookupAll(n1, [u], sample)
      case Broken => (None, n1);
    var w' := w.(net := n2);
    if ix.None? then (None, w')
    else
      var user := Sampled(ix.value.users, ix.value.byUser, Name(u));
      if user.Some? && user.value.id == found.id && Ext(user.value) == Ext(found) then (user, w') else (None, w')
  }

  /** The page a 409 lookup is judged on: a start index of zero is read as one. */
  function FromZero(p: Page): Page {
    if p.start == Num(0) then p.(start := Num(1)) else p
  }

  /** Who a refused creation collided with: one identified account, no single account, or no usable answer. */
  datatype Identity = Unclear | NotOne | Identified(user: User)

  function Identify(w: World, u: User): (r: (Identity, World))
    ensures r.1.(net := w.net) == w
  {
    var (page, net) := FetchPage(w.net, Filter(ByUserName, u.userName));
    var w1 := w.(net := net);
    if page.None? then (Unclear, w1)
    else
      match ValidatePage(FromZero(page.value), 1, None)
      case None => (Unclear, w1)
      case Some((users, total)) =>
        if total != 1 then (NotOne, w1)
        else if !SafeId(users[0].id) || Strip(users[0].userName) == "" || Name(users[0]) != Name(u) then (Unclear, w1)
        else if page.value.start == Num(0) then
          match VerifyFound(w1, u, users[0])
          case (None, w2) => (Unclear, w2)
          case (Some(user), w2) => (Identified(user), w2)
        else (Identified(users[0]), w1)
  }

  /** A record no index leads to, in a new cell. */
  function WithCell(w: World, user: User): World {
    w.(records := w.records + [user])
  }

  /** `_handle_409`. */
  function Handle409(cfg: Config, w: World, u: User): (bool, World) {
    match Identify(w, u)
    case (Unclear, w1) => (false, Unresolved(w1))
    case (NotOne, w1) => (false, Conflict(w1, u))
    case (Identified(user), w1) => Reconcile(cfg, WithCell(w1, user), |w1.records|, u, true)
  }

  /** `_verify_created_user`. */
  function VerifyCreated(w: World, u: User, body: Body): (r: (bool, World))
    ensures r.1.(net := w.net) == w
  {
    if !body.UserBody? || !SafeId(body.user.id) then (false, w)
    else
      match LookupAll(w.net, [u], EMPTY_INDEX)
      case (None, net) => (false, w.(net := net))
      case (Some(ix), net) =>
        var byExt := Sampled(ix.users, ix.byExt, Ext(u));
        var byName := Sampled(ix.users, ix.byUser, Name(u));
        (byExt.Some? && SameIdentityOpt(byExt, byName) && byExt.value.id == body.user.id, w.(net := net))
  }

  function CountCreated(w: World): World {
    w.(result := w.result.(created := w.result.created + 1))
  }

  /** An accepted creation, confirmed by fresh lookups when the listing could not be trusted. */
  function Confirm(w: World, u: User, verify: bool, body: Body): World {
    if !verify then CountCreated(w)
    else
      var (ok, w') := VerifyCreated(w, u, body);
      if ok then CountCreated(w') else Unconfirmed(w')
  }

  function AfterPost(cfg: Config, w: World, u: User, verify: bool, reply: Reply): (bool, World) {
    match reply
    case NetworkError => (true, w)
    case Reply(status, body) =>
      if status == 200 || status == 201 then (false, Confirm(w, u, verify, body))
      else if status == 409 then Handle409(cfg, w, u)
      else (false, Error(w))
  }

  /** `_create_user`. */
  function Create(cfg: Config, w: World, u: User, verify: bool): (bool, World) {
    var (reply, w1) := Write(w, u, None, CreateUser(u));
    AfterPost(cfg, w1, u, verify, reply)
  }

  // ----- the loop over the source -----

  datatype Match = NoMatch | Clash | Matched(h: nat, byName: bool)

  /** `_match_apple_user`. The ids are read from the cells as they are now. */
  function MatchUser(u: User, records: seq<User>, byExt: map<string, nat>, byUser: map<string, nat>): Match {
    var e := if Ext(u) in byExt && byExt[Ext(u)] < |records| then Some(byExt[Ext(u)]) else None;
    var n := if Name(u) in byUser && byUser[Name(u)] < |records| then Some(byUser[Name(u)]) else None;
    if e.Some? then
      if n.Some? && records[n.value].id != records[e.value].id then Clash else Matched(e.value, false)
    else if n.Some? then Matched(n.value, true)
    else NoMatch
  }

  /** One turn of the loop; a network error that reaches it is counted. */
  function SyncOne(cfg: Config, w: World, ix: Index, u: User, filtered: bool): World {
    match MatchUser(u, w.records, ix.byExt, ix.byUser)
    case Clash => Conflict(w, u)
    case NoMatch => var (raised, w') := Create(cfg, w, u, filtered); if raised then Error(w') else w'
    case Matched(h, byName) => var (raised, w') := Reconcile(cfg, w, h, u, byName); if raised then Error(w') else w'
  }

  function SyncEach(cfg: Config, w: World, ix: Index, source: seq<User>, filtered: bool): World {
    if source == [] then w
    else SyncOne(cfg, SyncEach(cfg, w, ix, source[..|source| - 1], filtered), ix, source[|source| - 1], filtered)
  }

  datatype Reading = Reading(index: Index, filtered: bool)

  /** The index the loop works from: the full listing, or the filtered lookups. */
  function ReadServer(n: Net, source: seq<User>): (Option<Reading>, Net) {
    match ListAll(n)
    case (Complete(ix, _), n1) => (Some(Reading(ix, false)), n1)
    case (Broken, n1) => (None, n1)
    case (NeedsLookups(sample), n1) =>
      match LookupAll(n1, source, sample)
      case (None, n2) => (None, n2)
      case (Some(ix), n2) => (Some(Reading(ix, true)), n2)
  }

  function StartWorld(n: Net, ix: Index): World {
    World(n, ix.users, NO_RESULT, NO_NOTES, [])
  }

  /** `sync_users`; `None` when the existing users cannot be read. */
  function Sync(cfg: Config, n: Net, source: seq<User>): (Option<World>, Net) {
    match ReadServer(n, source)
    case (None, n1) => (None, n1)
    case (Some(r), n1) =>
      var w := SyncEach(cfg, StartWorld(n1, r.index), r.index, source, r.filtered);
      (Some(w), w.net)
  }
}
