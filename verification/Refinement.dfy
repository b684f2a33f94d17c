/** The filtered preflight is as good as a full listing (app/scim/apple.py): on a truthful directory it accepts
    every valid source and answers, for each source user, exactly what the full index answers. */
module Refinement {
  import opened Wrappers
  import opened Text
  import opened Records
  import opened ScimServer
  import opened Listing
  import opened Preflight
  import opened Engine
  import opened DirectoryFacts

  /** The index names the directory's account for both identities of a user. */
  predicate Answers(ix: Index, users: seq<User>, u: User) {
    && Sampled(ix.users, ix.byExt, Ext(u)) == Owner(users, ByExternalId, Ext(u))
    && Sampled(ix.users, ix.byUser, Name(u)) == Owner(users, ByUserName, u.userName)
  }

  /** A well-formed index of directory accounts that answers for a whole source. */
  ghost predicate Covers(ix: Index, users: seq<User>, source: seq<User>) {
    && IndexOk(ix)
    && (forall h :: 0 <= h < |ix.users| ==> ix.users[h] in users)
    && (forall k :: 0 <= k < |source| ==> Answers(ix, users, source[k]))
  }

  // ----- probing -----

  ghost predicate FoundOk(found: seq<User>, users: seq<User>) {
    && (forall j :: 0 <= j < |found| ==> found[j] in users)
    && (forall i, j :: 0 <= i < j < |found| ==> found[i].id != found[j].id)
  }

  function PositionOf(users: seq<User>, u: User): (i: nat)
    requires u in users
    ensures i < |users| && users[i] == u
  {
    if users[0] == u then 0 else 1 + PositionOf(users[1..], u)
  }

  lemma SameIdSame(users: seq<User>, a: User, b: User)
    requires UsersOk(users) && a in users && b in users && a.id == b.id
    ensures a == b
  {
    assert PositionOf(users, a) == PositionOf(users, b);
  }

  lemma RecordFoundTruth(found: seq<User>, u: Option<User>, users: seq<User>)
    requires UsersOk(users) && FoundOk(found, users) && (u.Some? ==> u.value in users)
    ensures var r := RecordFound(found, u);
            && r.Some? && FoundOk(r.value, users) && found <= r.value
            && (u.Some? ==> u.value in r.value)
  {
    if u.Some? {
      match IndexOf(found, u.value.id)
      case None =>
        var found' := found + [u.value];
        assert found'[|found|] == u.value;
        assert forall j :: 0 <= j < |found| ==> found'[j] == found[j];
      case Some(i) =>
        SameIdSame(users, found[i], u.value);
        assert found[i := u.value] == found;
    }
  }

  predicate Held(u: Option<User>, found: seq<User>) {
    u.Some? ==> u.value in found
  }

  predicate ProbeOk(p: Probe, found: seq<User>, users: seq<User>) {
    && p.byExt == Owner(users, ByExternalId, Ext(p.source)) && Held(p.byExt, found)
    && p.byName == Owner(users, ByUserName, p.source.userName) && Held(p.byName, found)
  }

  ghost predicate ProbesOk(ps: Probes, users: seq<User>, source: seq<User>) {
    && FoundOk(ps.found, users) && |ps.answers| == |source|
    && (forall k :: 0 <= k < |source| ==> ps.answers[k].source == source[k] && ProbeOk(ps.answers[k], ps.found, users))
  }

  lemma HeldMore(p: Probe, found: seq<User>, found': seq<User>, users: seq<User>)
    requires ProbeOk(p, found, users) && found <= found'
    ensures ProbeOk(p, found', users)
  {
    assert forall x :: x in found ==> x in found';
  }

  lemma SampleAnswers(sample: Index, users: seq<User>, u: User)
    requires IndexOk(sample) && GoodUsers(users) && Ext(u) != ""
    requires forall h :: 0 <= h < |sample.users| ==> sample.users[h] in users
    ensures var e := Sampled(sample.users, sample.byExt, Ext(u));
            e.Some? ==> e == Owner(users, ByExternalId, Ext(u))
    ensures var n := Sampled(sample.users, sample.byUser, Name(u));
            n.Some? ==> n == Owner(users, ByUserName, u.userName)
  {
    var e, n := Sampled(sample.users, sample.byExt, Ext(u)), Sampled(sample.users, sample.byUser, Name(u));
    if e.Some? {
      OneOwner(users, ByExternalId, Ext(u), PositionOf(users, e.value));
    }
    if n.Some? {
      OneOwner(users, ByUserName, u.userName, PositionOf(users, n.value));
    }
  }

  lemma ProbesGrow(ps: Probes, users: seq<User>, init: seq<User>, p: Probe, found': seq<User>)
    requires ProbesOk(ps, users, init) && ps.found <= found' && FoundOk(found', users) && ProbeOk(p, found', users)
    ensures ProbesOk(Probes(found', ps.answers + [p]), users, init + [p.source])
  {
    var source, answers := init + [p.source], ps.answers + [p];
    forall k | 0 <= k < |source| ensures answers[k].source == source[k] && ProbeOk(answers[k], found', users) {
      if k < |init| {
        HeldMore(ps.answers[k], ps.found, found', users);
      }
    }
  }

  lemma BothRecorded(ps: Probes, users: seq<User>, init: seq<User>, u: User)
    requires GoodUsers(users) && ProbesOk(ps, users, init)
    ensures var e, m := Owner(users, ByExternalId, Ext(u)), Owner(users, ByUserName, u.userName);
            var found1 := RecordFound(ps.found, e);
            found1.Some?
            && var found2 := RecordFound(found1.value, m);
               found2.Some? && ProbesOk(Probes(found2.value, ps.answers + [Probe(u, e, m)]), users, init + [u])
  {
    var e, m := Owner(users, ByExternalId, Ext(u)), Owner(users, ByUserName, u.userName);
    RecordFoundTruth(ps.found, e, users);
    var found1 := RecordFound(ps.found, e).value;
    RecordFoundTruth(found1, m, users);
    var found2 := RecordFound(found1, m).value;
    assert Held(e, found2);
    ProbesGrow(ps, users, init, Probe(u, e, m), found2);
  }

  lemma BothLookedUp(n: Net, u: User, sample: Index)
    requires Truthful(n) && IndexOk(sample) && Ext(u) != ""
    requires forall h :: 0 <= h < |sample.users| ==> sample.users[h] in n.server.dir.users
    ensures var users := n.server.dir.users;
            var (e, n1) := Lookup(n, ByExternalId, Ext(u), Sampled(sample.users, sample.byExt, Ext(u)));
            var (m, n2) := Lookup(n1, ByUserName, u.userName, Sampled(sample.users, sample.byUser, Name(u)));
            && SameDir(n, n1) && SameDir(n, n2) && (Calm(n) ==> Calm(n2) && e.Some? && m.Some?)
            && (e.Some? ==> e.value == Owner(users, ByExternalId, Ext(u)))
            && (m.Some? ==> m.value == Owner(users, ByUserName, u.userName))
  {
    var sampledExt, sampledName := Sampled(sample.users, sample.byExt, Ext(u)), Sampled(sample.users, sample.byUser, Name(u));
    SampleAnswers(sample, n.server.dir.users, u);
    LookupTruth(n, ByExternalId, Ext(u), sampledExt);
    LookupTruth(Lookup(n, ByExternalId, Ext(u), sampledExt).1, ByUserName, u.userName, sampledName);
  }

  lemma ProbeOneTruth(n: Net, u: User, sample: Index, ps: Probes, init: seq<User>)
    requires Truthful(n) && IndexOk(sample) && Ext(u) != "" && ProbesOk(ps, n.server.dir.users, init)
    requires forall h :: 0 <= h < |sample.users| ==> sample.users[h] in n.server.dir.users
    ensures var (r, n') := ProbeOne(n, u, sample, ps);
            && SameDir(n, n') && (Calm(n) ==> Calm(n') && r.Some?)
            && (r.Some? ==> ProbesOk(r.value, n.server.dir.users, init + [u]))
  {
    BothLookedUp(n, u, sample);
    var (e, n1) := Lookup(n, ByExternalId, Ext(u), Sampled(sample.users, sample.byExt, Ext(u)));
    if e.Some? {
      var (m, n2) := Lookup(n1, ByUserName, u.userName, Sampled(sample.users, sample.byUser, Name(u)));
      if m.Some? {
        BothRecorded(ps, n.server.dir.users, init, u);
      }
    }
  }

  lemma {:induction false} ProbeAllTruth(n: Net, source: seq<User>, sample: Index)
    requires Truthful(n) && IndexOk(sample)
    requires forall h :: 0 <= h < |sample.users| ==> sample.users[h] in n.server.dir.users
    requires forall k :: 0 <= k < |source| ==> Ext(source[k]) != ""
    ensures var (r, n') := ProbeAll(n, source, sample);
            && SameDir(n, n') && (Calm(n) ==> Calm(n') && r.Some?)
            && (r.Some? ==> ProbesOk(r.value, n.server.dir.users, source))
    decreases |source|
  {
    if source != [] {
      var init, u := source[..|source| - 1], source[|source| - 1];
      ProbeAllTruth(n, init, sample);
      var (ps, n1) := ProbeAll(n, init, sample);
      if ps.Some? {
        ProbeOneTruth(n1, u, sample, ps.value, init);
        assert init + [u] == source;
      }
    }
  }

  // ----- verifying -----

  lemma FoundGood(found: seq<User>, users: seq<User>)
    requires GoodUsers(users) && FoundOk(found, users)
    ensures GoodUsers(found)
  {
    forall j | 0 <= j < |found| ensures SafeId(found[j].id) && Strip(found[j].userName) != "" {
      var i := PositionOf(users, found[j]);
    }
    forall j, k | 0 <= j < |found| && 0 <= k < |found| && j != k
      ensures Name(found[j]) != Name(found[k]) && (Ext(found[j]) != "" ==> Ext(found[j]) != Ext(found[k]))
    {
      var a, b := PositionOf(users, found[j]), PositionOf(users, found[k]);
      assert found[j].id != found[k].id;
      assert a != b;
    }
  }

  lemma LastIndexable(ix: Index, found: seq<User>, users: seq<User>)
    requires GoodUsers(users) && FoundOk(found, users) && found != []
    requires IndexOk(ix) && ix.users == found[..|found| - 1]
    ensures IndexUser(ix, found[|found| - 1]) == Some(AddUnchecked(ix, found[|found| - 1]))
    ensures AddUnchecked(ix, found[|found| - 1]).users == found
  {
    assert ix.users + [found[|found| - 1]] == found;
    FoundGood(found, users);
    NextIndexable(ix, found[|found| - 1]);
  }

  lemma {:induction false} VerifyAllTruth(n: Net, found: seq<User>)
    requires Truthful(n) && FoundOk(found, n.server.dir.users)
    ensures var (ix, n') := VerifyAll(n, found);
            && SameDir(n, n') && (Calm(n) ==> Calm(n') && ix.Some?)
            && (ix.Some? ==> ix.value.users == found)
    decreases |found|
  {
    if found != [] {
      var init, last := found[..|found| - 1], found[|found| - 1];
      VerifyAllTruth(n, init);
      VerifyAllOk(n, init);
      var (ix, n1) := VerifyAll(n, init);
      if ix.Some? {
        FetchUserTruth(n1, PositionOf(n.server.dir.users, last));
        LastIndexable(ix.value, found, n.server.dir.users);
      }
    }
  }

  /** Identities of the source are answered the same from the accounts found for it and from all accounts. */
  lemma FoundAnswers(ix: Index, users: seq<User>, p: Probe)
    requires GoodUsers(users) && IndexOk(ix) && Ext(p.source) != "" && ProbeOk(p, ix.users, users)
    requires FoundOk(ix.users, users)
    ensures Answers(ix, users, p.source)
  {
    SampleAnswers(ix, users, p.source);
    if p.byExt.Some? {
      assert ix.byExt[Ext(p.source)] == PositionOf(ix.users, p.byExt.value);
    }
    if p.byName.Some? {
      assert ix.byUser[Name(p.source)] == PositionOf(ix.users, p.byName.value);
    }
  }

  lemma SameIdentityRefl(u: Option<User>)
    ensures SameIdentityOpt(u, u)
  {}

  lemma AllAnswered(ix: Index, users: seq<User>, source: seq<User>, ps: Probes)
    requires GoodUsers(users) && IndexOk(ix) && ProbesOk(ps, users, source) && ix.users == ps.found
    requires forall k :: 0 <= k < |source| ==> Ext(source[k]) != ""
    ensures Covers(ix, users, source) && Consistent(ps.answers, ix)
  {
    forall k | 0 <= k < |source| ensures Answers(ix, users, source[k]) {
      FoundAnswers(ix, users, ps.answers[k]);
    }
    forall i | 0 <= i < |ps.answers|
      ensures SameIdentityOpt(ps.answers[i].byExt, Sampled(ix.users, ix.byExt, Ext(ps.answers[i].source)))
              && SameIdentityOpt(ps.answers[i].byName, Sampled(ix.users, ix.byUser, Name(ps.answers[i].source)))
    {
      assert Answers(ix, users, source[i]);
      SameIdentityRefl(ps.answers[i].byExt);
      SameIdentityRefl(ps.answers[i].byName);
    }
  }

  /** On a truthful directory, with any truthful sample, the preflight of a valid source fails only when a call
      fails, and what it accepts answers for the whole source. */
  lemma LookupAllTruth(n: Net, source: seq<User>, sample: Index)
    requires Truthful(n) && IndexOk(sample) && ValidSource(source)
    requires forall h :: 0 <= h < |sample.users| ==> sample.users[h] in n.server.dir.users
    ensures var (ix, n') := LookupAll(n, source, sample);
            && SameDir(n, n') && (Calm(n) ==> Calm(n') && ix.Some?)
            && (ix.Some? ==> Covers(ix.value, n.server.dir.users, source))
  {
    SourceAcceptedIff(source);
    ProbeAllTruth(n, source, sample);
    var (ps, n1) := ProbeAll(n, source, sample);
    if ps.Some? {
      VerifyAllTruth(n1, ps.value.found);
      VerifyAllOk(n1, ps.value.found);
      var (ix, n2) := VerifyAll(n1, ps.value.found);
      if ix.Some? {
        AllAnswered(ix.value, n.server.dir.users, source, ps.value);
      }
    }
  }

  lemma FullCovers(ix: Index, source: seq<User>)
    requires IndexOk(ix) && GoodUsers(ix.users) && ValidSource(source)
    ensures Covers(ix, ix.users, source)
  {
    forall k | 0 <= k < |source| ensures Answers(ix, ix.users, source[k]) {
      IndexAnswers(ix, source[k]);
    }
  }

  /** However the server lists, what the loop works from answers for the whole source. */
  lemma ReadServerTruth(n: Net, source: seq<User>)
    requires Truthful(n) && ValidSource(source)
    ensures var (r, n') := ReadServer(n, source);
            && SameDir(n, n') && (Calm(n) ==> Calm(n') && r.Some?)
            && (r.Some? ==> Covers(r.value.index, n.server.dir.users, source))
  {
    ListingTruth(n);
    var (listed, n1) := ListAll(n);
    if listed.Complete? {
      FullCovers(listed.index, source);
    } else if listed.NeedsLookups? {
      LookupAllTruth(n1, source, listed.sample);
    }
  }

  // ----- matching -----

  /** The match as the loop's first look at a record finds it: which account, and by which key. */
  function Found(u: User, ix: Index): (Match, Option<User>) {
    var m := MatchUser(u, ix.users, ix.byExt, ix.byUser);
    if m.Matched? then (Matched(0, m.byName), Some(ix.users[m.h])) else (m, None)
  }

  lemma SameAnswersSameMatch(u: User, a: Index, b: Index, users: seq<User>)
    requires Answers(a, users, u) && Answers(b, users, u)
    ensures Found(u, a) == Found(u, b)
  {}

  lemma CoversSame(a: Index, b: Index, users: seq<User>, source: seq<User>)
    requires Covers(a, users, source) && Covers(b, users, source)
    ensures forall k :: 0 <= k < |source| ==> Found(source[k], a) == Found(source[k], b)
  {
    forall k | 0 <= k < |source| ensures Found(source[k], a) == Found(source[k], b) {
      SameAnswersSameMatch(source[k], a, b, users);
    }
  }

  lemma FullIndex(empty: Index, users: seq<User>, full: Index)
    requires empty.users == [] && IndexOk(empty) && IndexAll(empty, users) == Some(full)
    ensures IndexOk(full) && full.users == users
  {
    IndexAllUsers(empty, users);
    IndexAllOk(empty, users);
  }

  lemma FullIndexCovers(users: seq<User>, source: seq<User>, full: Index)
    requires GoodUsers(users) && ValidSource(source) && IndexAll(EMPTY_INDEX, users) == Some(full)
    ensures Covers(full, users, source)
  {
    FullIndex(EMPTY_INDEX, users, full);
    FullCovers(full, source);
  }

  /** On a truthful directory every valid source passes the filtered preflight, whatever truthful sample it
      starts from, and each of its users is matched to the same account, by the same key, with the same
      verdict on conflicting keys, as with the index of the full listing. */
  lemma FallbackRefinesListing(n: Net, source: seq<User>, sample: Index, full: Index)
    requires Truthful(n) && Calm(n) && ValidSource(source)
    requires IndexOk(sample) && forall h :: 0 <= h < |sample.users| ==> sample.users[h] in n.server.dir.users
    requires IndexAll(EMPTY_INDEX, n.server.dir.users) == Some(full)
    ensures var ix := LookupAll(n, source, sample).0;
            ix.Some? && forall k :: 0 <= k < |source| ==> Found(source[k], ix.value) == Found(source[k], full)
  {
    LookupAllTruth(n, source, sample);
    FullIndexCovers(n.server.dir.users, source, full);
    CoversSame(LookupAll(n, source, sample).0.value, full, n.server.dir.users, source);
  }
}
