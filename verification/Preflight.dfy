/** Looking up every source identity by filter before anything is written, for servers whose listing cannot
    be trusted to be complete (app/scim/apple.py). */
module Preflight {
  import opened Wrappers
  import opened Text
  import opened Records
  import opened ScimServer
  import opened Listing

  // ----- one lookup -----

  /** `_filtered_resources`: no user or one, with consistent counts. */
  function FilteredUsers(p: Page): Option<seq<User>> {
    if !p.total.Num? || p.total.value < 0 then None
    else if NumOr(p.start, 1) != Num(0) && NumOr(p.start, 1) != Num(1) then None
    else if p.resources.BadResources? || (p.resources.NoResources? && p.total.value != 0) then None
    else
      var users := ResourcesOf(p).value;
      if NumOr(p.perPage, |users|) != Num(|users|) || p.total.value != |users| || |users| > 1 then None
      else Some(users)
  }

  /** `_validate_filtered_user`; the inner `None` is a valid answer that nobody matches. */
  function FilteredUser(p: Page, attr: Attr, value: string): Option<Option<User>> {
    match FilteredUsers(p)
    case None => None
    case Some(users) =>
      if users == [] then Some(None)
      else if !SafeId(users[0].id) || Strip(users[0].userName) == "" || !Has(users[0], attr, value) then None
      else Some(Some(users[0]))
  }

  function Lookup(n: Net, attr: Attr, value: string, sampled: Option<User>): (Option<Option<User>>, Net) {
    var (page, n') := FetchPage(n, Filter(attr, value));
    var found := if page.Some? then FilteredUser(page.value, attr, value) else None;
    if found.Some? && sampled.Some? && !SameIdentityOpt(sampled, found.value) then (None, n') else (found, n')
  }

  function FetchUser(n: Net, id: string): (Option<User>, Net) {
    var (reply, n') := Send(n, GetUser(id));
    (if reply.Reply? && reply.status == 200 && reply.body.UserBody? then Some(reply.body.user) else None, n')
  }

  // ----- the source -----

  /** `_source_identities` accepts: no blank and no repeated externalId or name. */
  ghost predicate ValidSource(source: seq<User>) {
    && (forall i :: 0 <= i < |source| ==> Ext(source[i]) != "" && Strip(source[i].userName) != "")
    && (forall i, j :: 0 <= i < j < |source| ==> Ext(source[i]) != Ext(source[j]) && Name(source[i]) != Name(source[j]))
  }

  function SourceExts(source: seq<User>): set<string> {
    set i | 0 <= i < |source| :: Ext(source[i])
  }

  function SourceNames(source: seq<User>): set<string> {
    set i | 0 <= i < |source| :: Name(source[i])
  }

  /** The check as the program makes it, one user after another against what it has seen. */
  function SourceAccepted(source: seq<User>): bool {
    source == []
    || (var init, u := source[..|source| - 1], source[|source| - 1];
        && SourceAccepted(init)
        && Ext(u) != "" && Strip(u.userName) != ""
        && Ext(u) !in SourceExts(init) && Name(u) !in SourceNames(init))
  }

  lemma ValidSnoc(init: seq<User>, u: User)
    ensures ValidSource(init + [u])
            <==> ValidSource(init) && Ext(u) != "" && Strip(u.userName) != ""
                 && Ext(u) !in SourceExts(init) && Name(u) !in SourceNames(init)
  {
    var source := init + [u];
    assert forall i :: 0 <= i < |init| ==> source[i] == init[i];
    assert source[|init|] == u;
    if ValidSource(source) {
      assert forall i :: 0 <= i < |init| ==> Ext(source[i]) != Ext(source[|init|]) && Name(source[i]) != Name(source[|init|]);
    }
  }

  lemma {:induction false} SourceAcceptedIff(source: seq<User>)
    ensures SourceAccepted(source) <==> ValidSource(source)
    decreases |source|
  {
    if source != [] {
      var init, u := source[..|source| - 1], source[|source| - 1];
      SourceAcceptedIff(init);
      assert source == init + [u];
      ValidSnoc(init, u);
    }
  }

  // ----- probing -----

  /** What the two filters said about one source user. */
  datatype Probe = Probe(source: User, byExt: Option<User>, byName: Option<User>)

  /** `_record_filtered_identity` on the insertion-ordered dictionary of found users. */
  function RecordFound(found: seq<User>, u: Option<User>): Option<seq<User>> {
    if u.None? then Some(found)
    else
      match IndexOf(found, u.value.id)
      case None => Some(found + [u.value])
      case Some(i) => if SameIdentity(found[i], u.value) then Some(found[i := u.value]) else None
  }

  function Sampled(users: seq<User>, m: map<string, nat>, key: string): Option<User> {
    if key in m && m[key] < |users| then Some(users[m[key]]) else None
  }

  datatype Probes = Probes(found: seq<User>, answers: seq<Probe>)

  function ProbeOne(n: Net, u: User, sample: Index, ps: Probes): (Option<Probes>, Net) {
    var (byExt, n1) := Lookup(n, ByExternalId, Ext(u), Sampled(sample.users, sample.byExt, Ext(u)));
    if byExt.None? then (None, n1)
    else
      var (byName, n2) := Lookup(n1, ByUserName, u.userName, Sampled(sample.users, sample.byUser, Name(u)));
      if byName.None? then (None, n2)
      else
        match RecordFound(ps.found, byExt.value)
        case None => (None, n2)
        case Some(found1) =>
          match RecordFound(found1, byName.value)
          case None => (None, n2)
          case Some(found2) => (Some(Probes(found2, ps.answers + [Probe(u, byExt.value, byName.value)])), n2)
  }

  function ProbeAll(n: Net, source: seq<User>, sample: Index): (Option<Probes>, Net) {
    if source == [] then (Some(Probes([], [])), n)
    else
      match ProbeAll(n, source[..|source| - 1], sample)
      case (None, n1) => (None, n1)
      case (Some(ps), n1) => ProbeOne(n1, source[|source| - 1], sample, ps)
  }

  // ----- verifying -----

  /** Each found user is read again, must be the same, and must not clash with another. */
  function VerifyAll(n: Net, found: seq<User>): (Option<Index>, Net) {
    if found == [] then (Some(EMPTY_INDEX), n)
    else
      match VerifyAll(n, found[..|found| - 1])
      case (None, n1) => (None, n1)
      case (Some(ix), n1) =>
        var last := found[|found| - 1];
        var (read, n2) := FetchUser(n1, last.id);
        if read.None? || !SameIdentity(last, read.value) then (None, n2)
        else (IndexUser(ix, read.value), n2)
  }

  predicate Consistent(answers: seq<Probe>, ix: Index) {
    forall i :: 0 <= i < |answers| ==>
      && SameIdentityOpt(answers[i].byExt, Sampled(ix.users, ix.byExt, Ext(answers[i].source)))
      && SameIdentityOpt(answers[i].byName, Sampled(ix.users, ix.byUser, Name(answers[i].source)))
  }

  /** `_get_existing_users_by_filter`. */
  function LookupAll(n: Net, source: seq<User>, sample: Index): (Option<Index>, Net) {
    if !SourceAccepted(source) then (None, n)
    else
      match ProbeAll(n, source, sample)
      case (None, n1) => (None, n1)
      case (Some(ps), n1) =>
        match VerifyAll(n1, ps.found)
        case (None, n2) => (None, n2)
        case (Some(ix), n2) => (if Consistent(ps.answers, ix) then Some(ix) else None, n2)
  }

  // ----- against any server -----

  lemma {:induction false} VerifyAllOk(n: Net, found: seq<User>)
    ensures VerifyAll(n, found).0.Some? ==> IndexOk(VerifyAll(n, found).0.value)
  {
    if found != [] {
      VerifyAllOk(n, found[..|found| - 1]);
      var (ix, n1) := VerifyAll(n, found[..|found| - 1]);
      if ix.Some? {
        var (read, n2) := FetchUser(n1, found[|found| - 1].id);
        if read.Some? && Indexable(ix.value, read.value) {
          IndexUserOk(ix.value, read.value);
        }
      }
    }
  }

  lemma {:induction false} VerifyAllReads(n: Net, found: seq<User>)
    ensures OnlyReads(n.trace, VerifyAll(n, found).1.trace)
  {
    if found != [] {
      VerifyAllReads(n, found[..|found| - 1]);
      var (ix, n1) := VerifyAll(n, found[..|found| - 1]);
      if ix.Some? {
        SendReads(n1, GetUser(found[|found| - 1].id));
        ReadsCompose(n.trace, n1.trace, VerifyAll(n, found).1.trace);
      }
    }
  }

  lemma ProbeOneReads(n: Net, u: User, sample: Index, ps: Probes)
    ensures OnlyReads(n.trace, ProbeOne(n, u, sample, ps).1.trace)
  {
    SendReads(n, Filter(ByExternalId, Ext(u)));
    var n1 := Send(n, Filter(ByExternalId, Ext(u))).1;
    SendReads(n1, Filter(ByUserName, u.userName));
  }

  lemma {:induction false} ProbeAllReads(n: Net, source: seq<User>, sample: Index)
    ensures OnlyReads(n.trace, ProbeAll(n, source, sample).1.trace)
  {
    if source != [] {
      var init := source[..|source| - 1];
      ProbeAllReads(n, init, sample);
      var (ps, n1) := ProbeAll(n, init, sample);
      if ps.Some? {
        ProbeOneReads(n1, source[|source| - 1], sample, ps.value);
        ReadsCompose(n.trace, n1.trace, ProbeAll(n, source, sample).1.trace);
      }
    }
  }

  /** Against any server whatever, the preflight writes nothing, rejects every source with a blank or repeated
      identity, and what it accepts is a well-formed index. */
  lemma LookupAllSound(n: Net, source: seq<User>, sample: Index)
    ensures var (ix, n') := LookupAll(n, source, sample);
            && OnlyReads(n.trace, n'.trace)
            && (ix.Some? ==> ValidSource(source) && IndexOk(ix.value))
  {
    SourceAcceptedIff(source);
    if SourceAccepted(source) {
      ProbeAllReads(n, source, sample);
      var (ps, n1) := ProbeAll(n, source, sample);
      if ps.Some? {
        VerifyAllReads(n1, ps.value.found);
        VerifyAllOk(n1, ps.value.found);
        ReadsCompose(n.trace, n1.trace, VerifyAll(n1, ps.value.found).1.trace);
      }
    }
  }
}
