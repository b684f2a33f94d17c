/** The single stored token row and its refresh under the token lock (app/scim/token.py). */
module TokenStore {
  import opened Wrappers

  datatype Tokens = Tokens(access: string, refresh: Option<string>, expiresAt: int)

  function SafetyMargin(expiresIn: nat): nat {
    if expiresIn / 2 < 60 then expiresIn / 2 else 60
  }

  /** The upsert: a save without a refresh token keeps the stored one (COALESCE). */
  function Save(row: Option<Tokens>, access: string, refresh: Option<string>, expiresIn: nat, now: int): Tokens {
    var kept := if refresh.Some? then refresh else if row.Some? then row.value.refresh else None;
    Tokens(access, kept, now + expiresIn - SafetyMargin(expiresIn))
  }

  /** The lifetime the program works with: a missing, malformed or non-positive `expires_in` reads as 3600. */
  function Lifetime(expiresIn: Option<int>): (r: nat)
    ensures r >= 1
  {
    if expiresIn.Some? && expiresIn.value > 0 then expiresIn.value else 3600
  }

  /** What the token endpoint answers a refresh with; anything unusable is `Failed`. */
  datatype Answer = Failed | Granted(access: string, refresh: Option<string>, expiresIn: Option<int>)

  /** One call of `get_valid_access_token`, or the save after a code exchange. `now` is when the lock is
      taken and `later` when the answer is saved. */
  datatype Call =
    | Get(now: int, later: int, answer: Answer)
    | Exchange(access: string, refresh: Option<string>, expiresIn: Option<int>, later: int)

  datatype Effect = Effect(row: Option<Tokens>, result: Option<string>, presented: Option<string>)

  function Serve(row: Option<Tokens>, c: Call): Effect {
    match c
    case Exchange(access, refresh, expiresIn, later) =>
      Effect(Some(Save(row, access, refresh, Lifetime(expiresIn), later)), Some(access), None)
    case Get(now, later, answer) =>
      if row.None? then Effect(row, None, None)
      else if now < row.value.expiresAt then Effect(row, Some(row.value.access), None)
      else if row.value.refresh.None? || row.value.refresh.value == "" then Effect(row, None, None)
      else
        match answer
        case Failed => Effect(row, None, row.value.refresh)
        case Granted(access, refresh, expiresIn) =>
          Effect(Some(Save(row, access, refresh, Lifetime(expiresIn), later)), Some(access), row.value.refresh)
  }

  /** The calls hold one lock from the read to the save, so they run one after another. */
  function Row(calls: seq<Call>): Option<Tokens> {
    if calls == [] then None else Serve(Row(calls[..|calls| - 1]), calls[|calls| - 1]).row
  }

  /** The refresh token given by the latest save that had one, which is what a receiver of it expects. */
  function LatestRefresh(calls: seq<Call>): Option<string> {
    if calls == [] then None
    else
      var init, last := calls[..|calls| - 1], calls[|calls| - 1];
      var given := match last
        case Exchange(_, refresh, _, _) => refresh
        case Get(_, _, answer) =>
          if Serve(Row(init), last).presented.Some? && answer.Granted? then answer.refresh else None;
      if given.Some? then given else LatestRefresh(init)
  }

  /** The saved expiry is still ahead of the save and never beyond the real one. */
  lemma ExpiryWithinLifetime(row: Option<Tokens>, access: string, refresh: Option<string>, expiresIn: nat, now: int)
    requires expiresIn >= 1
    ensures var saved := Save(row, access, refresh, expiresIn, now).expiresAt;
            && now < saved <= now + expiresIn
            && saved >= now + expiresIn - 60 && 2 * (saved - now) >= expiresIn
  {}

  /** The expiry that goes with an answer: its own lifetime if that is positive and an hour if not, less a minute,
      or less half of it when that is shorter. */
  predicate ExpiresFor(expiresAt: int, expiresIn: Option<int>, later: int) {
    var life := if expiresIn.Some? && expiresIn.value >= 1 then expiresIn.value else 3600;
    && expiresAt == later + life - (if life >= 120 then 60 else life / 2)
    && later < expiresAt <= later + life && expiresAt >= later + life - 60
  }

  /** The row holds what an answer granted: its access token and expiry, and its refresh token or else the old one. */
  predicate Holds(row: Option<Tokens>, was: Option<Tokens>, access: string, refresh: Option<string>, expiresIn: Option<int>, later: int) {
    && row.Some? && row.value.access == access && ExpiresFor(row.value.expiresAt, expiresIn, later)
    && row.value.refresh == (if refresh.Some? || was.None? then refresh else was.value.refresh)
  }

  /** What a call leaves stored, from the answer it got: an exchange and a granted refresh store the grant, and
      every other call stores nothing. */
  lemma SavedFromAnswer(row: Option<Tokens>, c: Call)
    ensures var after := Serve(row, c).row;
            match c
            case Exchange(access, refresh, expiresIn, later) => Holds(after, row, access, refresh, expiresIn, later)
            case Get(now, later, Granted(access, refresh, expiresIn)) =>
              if Serve(row, c).presented.Some? then Holds(after, row, access, refresh, expiresIn, later) else after == row
            case Get(_, _, Failed) => after == row
  {}

  /** A request is made exactly for an expired token with something to refresh it by, which it presents; and a call
      returns the stored token while it is valid, a granted one, and nothing otherwise. */
  lemma AnswersOf(row: Option<Tokens>, c: Call)
    requires c.Get?
    ensures var e, valid := Serve(row, c), row.Some? && c.now < row.value.expiresAt;
            && (e.presented.Some? <==> row.Some? && !valid && row.value.refresh.Some? && row.value.refresh != Some(""))
            && (e.presented.Some? ==> e.presented == row.value.refresh)
            && e.result == (if valid then Some(row.value.access)
                            else if e.presented.Some? && c.answer.Granted? then Some(c.answer.access) else None)
  {}

  /** Call `i` stored the token. */
  ghost predicate StoredBy(calls: seq<Call>, i: nat, t: Tokens)
    requires i < |calls|
  {
    match calls[i]
    case Exchange(access, _, expiresIn, later) => t.access == access && ExpiresFor(t.expiresAt, expiresIn, later)
    case Get(_, later, Granted(access, _, expiresIn)) =>
      Serve(Row(calls[..i]), calls[i]).presented.Some? && t.access == access && ExpiresFor(t.expiresAt, expiresIn, later)
    case Get(_, _, Failed) => false
  }

  lemma {:induction false} TokenOrigin(calls: seq<Call>)
    requires Row(calls).Some?
    ensures exists i: nat :: i < |calls| && StoredBy(calls, i, Row(calls).value)
    decreases |calls|
  {
    if calls != [] {
      var n := |calls| - 1;
      SavedFromAnswer(Row(calls[..n]), calls[n]);
      if Row(calls) == Row(calls[..n]) && !StoredBy(calls, n, Row(calls).value) {
        TokenOrigin(calls[..n]);
        var i: nat :| i < n && StoredBy(calls[..n], i, Row(calls).value);
        assert calls[..n][..i] == calls[..i];
        assert StoredBy(calls, i, Row(calls).value);
      } else {
        assert StoredBy(calls, n, Row(calls).value);
      }
    }
  }

  /** A token returned without a request is the one some earlier answer granted, within the lifetime that answer
      gave it. */
  lemma ReturnedIsAlive(calls: seq<Call>, c: Call)
    requires c.Get? && Serve(Row(calls), c).presented.None? && Serve(Row(calls), c).result.Some?
    ensures exists i: nat, t: Tokens ::
              i < |calls| && StoredBy(calls, i, t) && Serve(Row(calls), c).result == Some(t.access) && c.now < t.expiresAt
  {
    TokenOrigin(calls);
    var i: nat :| i < |calls| && StoredBy(calls, i, Row(calls).value);
  }

  /** Every refresh presents the latest refresh token saved, whatever saves without one came since. */
  lemma {:induction false} RefreshPresentsLatest(calls: seq<Call>, c: Call)
    ensures Row(calls).Some? ==> Row(calls).value.refresh == LatestRefresh(calls)
    ensures Row(calls).None? ==> LatestRefresh(calls) == None
    ensures Serve(Row(calls), c).presented.Some? ==> Serve(Row(calls), c).presented == LatestRefresh(calls)
    decreases |calls|
  {
    if calls != [] {
      RefreshPresentsLatest(calls[..|calls| - 1], calls[|calls| - 1]);
    }
  }

  function Refreshes(row: Option<Tokens>, calls: seq<Call>): nat
    decreases |calls|
  {
    if calls == [] then 0
    else (if Serve(row, calls[0]).presented.Some? then 1 else 0) + Refreshes(Serve(row, calls[0]).row, calls[1..])
  }

  lemma {:induction false} ValidTokenIsShared(row: Option<Tokens>, calls: seq<Call>)
    requires row.Some?
    requires forall i :: 0 <= i < |calls| ==> calls[i].Get? && calls[i].now < row.value.expiresAt
    ensures Refreshes(row, calls) == 0
    ensures forall i :: 0 <= i < |calls| ==> Serve(row, calls[i]) == Effect(row, Some(row.value.access), None)
    decreases |calls|
  {
    if calls != [] {
      ValidTokenIsShared(row, calls[1..]);
      assert forall i :: 1 <= i < |calls| ==> calls[i] == calls[1..][i - 1];
    }
  }

  /** However many callers find the token expired at once, one refresh serves them all: if the first succeeds
      and the others get the lock while the new token is valid, they return it without a request. */
  lemma OneRefreshServesAll(row: Option<Tokens>, first: Call, others: seq<Call>)
    requires row.Some? && first.Get? && first.now >= row.value.expiresAt && first.answer.Granted?
    requires row.value.refresh.Some? && row.value.refresh.value != ""
    requires forall i :: 0 <= i < |others| ==>
               others[i].Get? && others[i].now < Serve(row, first).row.value.expiresAt
    ensures first.later < Serve(row, first).row.value.expiresAt
    ensures Refreshes(row, [first] + others) == 1
    ensures forall i :: 0 <= i < |others| ==>
              Serve(Serve(row, first).row, others[i]).result == Some(first.answer.access)
  {
    assert ([first] + others)[1..] == others;
    ValidTokenIsShared(Serve(row, first).row, others);
  }

  /** The stored row as the program keeps it. */
  class TokenTable {
    var row: Option<Tokens>

    constructor ()
      ensures row == None
    {
      row := None;
    }

    method SaveTokens(access: string, refresh: Option<string>, expiresIn: nat, now: int)
      modifies this
      ensures row == Some(Save(old(row), access, refresh, expiresIn, now))
    {
      var margin := if expiresIn / 2 < 60 then expiresIn / 2 else 60;
      var expiresAt := now + expiresIn - margin;
      match row {
        case None => row := Some(Tokens(access, refresh, expiresAt));
        case Some(was) => row := Some(Tokens(access, if refresh.Some? then refresh else was.refresh, expiresAt));
      }
    }

    method GetValidAccessToken(now: int, later: int, answer: Answer)
      returns (token: Option<string>, presented: Option<string>)
      modifies this
      ensures Effect(row, token, presented) == Serve(old(row), Get(now, later, answer))
    {
      token, presented := None, None;
      if row.Some? {
        if now < row.value.expiresAt {
          token := Some(row.value.access);
        } else if row.value.refresh.Some? && row.value.refresh.value != "" {
          presented := row.value.refresh;
          if answer.Granted? {
            SaveTokens(answer.access, answer.refresh, Lifetime(answer.expiresIn), later);
            token := Some(answer.access);
          }
        }
      }
    }
  }
}
