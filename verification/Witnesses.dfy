/** The laws assumed of the world outside the model can be met: a codec and a cipher for the queue, and a
    truthful directory with any well-formed accounts. */
module Witnesses {
  import opened Wrappers
  import opened Text
  import opened Crypto
  import opened Store
  import opened Records
  import S = ScimServer
  import D = DirectoryFacts

  // ----- a codec -----

  function EncStr(s: string): string {
    if s == "" then "0" else "1" + [s[0]] + EncStr(s[1..])
  }

  function DecStr(t: string): (r: Option<(string, string)>)
    ensures r.Some? ==> |r.value.1| < |t|
    decreases |t|
  {
    if t == "" then None
    else if t[0] == '0' then Some(("", t[1..]))
    else if |t| == 1 then None
    else
      match DecStr(t[2..])
      case None => None
      case Some((s, rest)) => Some(([t[1]] + s, rest))
  }

  function EncList(l: seq<string>): string {
    if l == [] then "0" else "1" + EncStr(l[0]) + EncList(l[1..])
  }

  function DecList(t: string): Option<(seq<string>, string)>
    decreases |t|
  {
    if t == "" then None
    else if t[0] == '0' then Some(([], t[1..]))
    else
      match DecStr(t[1..])
      case None => None
      case Some((s, rest)) =>
        match DecList(rest)
        case None => None
        case Some((l, rest')) => Some(([s] + l, rest'))
  }

  lemma {:induction false} StrRoundTrip(s: string, rest: string)
    ensures DecStr(EncStr(s) + rest) == Some((s, rest))
    decreases |s|
  {
    var t := EncStr(s) + rest;
    if s == "" {
      assert t[1..] == rest;
    } else {
      StrRoundTrip(s[1..], rest);
      assert t[2..] == EncStr(s[1..]) + rest;
      assert [s[0]] + s[1..] == s;
    }
  }

  lemma {:induction false} ListRoundTrip(l: seq<string>, rest: string)
    ensures DecList(EncList(l) + rest) == Some((l, rest))
    decreases |l|
  {
    var t := EncList(l) + rest;
    if l == [] {
      assert t[1..] == rest;
    } else {
      assert t[1..] == EncStr(l[0]) + (EncList(l[1..]) + rest);
      StrRoundTrip(l[0], EncList(l[1..]) + rest);
      ListRoundTrip(l[1..], rest);
      assert [l[0]] + l[1..] == l;
    }
  }

  function Dump(p: Payload): string {
    EncList([p.aud, p.endpointUrl, p.endpointToken, p.eventUri, p.token]) + EncList(p.events)
  }

  function Load(t: string): Loaded {
    match DecList(t)
    case None => NotJson
    case Some((fields, rest)) =>
      match DecList(rest)
      case None => NotObject
      case Some((events, _)) =>
        if |fields| != 5 then WrongTypes
        else Valid(Payload(fields[0], fields[1], fields[2], events, fields[3], fields[4]))
  }

  /** There is a codec and a cipher with the laws that every theorem about the queue assumes. */
  lemma SoundEnvExists() returns (env: Env)
    ensures SoundEnv(env)
  {
    var cipher := SoundCipherExists();
    env := Env(cipher, Dump, Load);
    forall p ensures env.load(env.dump(p)) == Valid(p) {
      ListRoundTrip([p.aud, p.endpointUrl, p.endpointToken, p.eventUri, p.token], EncList(p.events));
      ListRoundTrip(p.events, "");
      assert EncList(p.events) + "" == EncList(p.events);
    }
  }

  // ----- a directory -----

  /** Longer than every id in use. */
  function LongId(users: seq<User>): (r: string)
    ensures |r| > 0 && (forall c :: c in r ==> c == '1')
    ensures forall i :: 0 <= i < |users| ==> |users[i].id| < |r|
  {
    if users == [] then "1"
    else
      var rest, id := LongId(users[..|users| - 1]), users[|users| - 1].id;
      if |id| < |rest| then rest else Repeat(|id| + 1)
  }

  /** Any well-formed accounts are those of a truthful directory whose calls all succeed, in either listing
      format and counting from zero or from one. */
  lemma TruthfulExists(users: seq<User>, listing: S.Listing, zeroBased: bool) returns (n: S.Net)
    requires D.GoodUsers(users)
    ensures D.Truthful(n) && D.Calm(n) && n.server.dir == S.Directory(users, listing, zeroBased, LongId)
  {
    n := S.Net(S.Live(S.Directory(users, listing, zeroBased, LongId), _ => S.Fine, 0), []);
    forall others ensures D.FreshId(others, LongId(others)) {
      var id := LongId(others);
      assert !IsSpace('1') && id[0] in id && id[|id| - 1] in id;
      assert id[0] == '1' && id[|id| - 1] == '1' && Trimmed(id);
      assert id != "." && id != "..";
    }
  }
}
