/** The bounded record of failed management logins (app/auth.py), against an unbounded log. */
module FailureWindow {

  const LIMIT: nat := 10
  const WINDOW := 60.0

  // ----- the deque of one client -----

  /** `popleft` while the oldest entry is out of the window. */
  function Expire(d: seq<real>, now: real): seq<real> {
    if d != [] && now - d[0] >= WINDOW then Expire(d[1..], now) else d
  }

  /** `append` on a deque of at most LIMIT + 1 entries. */
  function Append(d: seq<real>, now: real): seq<real> {
    if |d| > LIMIT then d[|d| - LIMIT..] + [now] else d + [now]
  }

  /** What one client's deque holds after failures at the given times. */
  function Deque(times: seq<real>): seq<real> {
    if times == [] then []
    else
      var now := times[|times| - 1];
      Append(Expire(Deque(times[..|times| - 1]), now), now)
  }

  // ----- the specification -----

  function Recent(times: seq<real>, now: real): nat {
    if times == [] then 0
    else Recent(times[..|times| - 1], now) + if now - times[|times| - 1] < 60.0 then 1 else 0
  }

  predicate Monotone(times: seq<real>) {
    forall i, j :: 0 <= i < j < |times| ==> times[i] <= times[j]
  }

  lemma ExpireIsSuffix(d: seq<real>, now: real) returns (n: nat)
    ensures n <= |d| && Expire(d, now) == d[n..]
    ensures forall i :: 0 <= i < n ==> now - d[i] >= WINDOW
    ensures n < |d| ==> now - d[n] < WINDOW
  {
    if d != [] && now - d[0] >= WINDOW {
      n := ExpireIsSuffix(d[1..], now);
      assert forall i :: 1 <= i < |d| ==> d[i] == d[1..][i - 1];
      n := n + 1;
    } else {
      n := 0;
    }
  }

  lemma {:induction false} RecentOfSuffix(times: seq<real>, k: nat, now: real)
    requires k <= |times|
    requires forall i :: 0 <= i < k ==> now - times[i] >= WINDOW
    requires forall i :: k <= i < |times| ==> now - times[i] < WINDOW
    ensures Recent(times, now) == |times| - k
  {
    if times != [] {
      var init := times[..|times| - 1];
      RecentOfSuffix(init, if k < |times| then k else k - 1, now);
    }
  }

  lemma {:induction false} RecentAtLeast(times: seq<real>, k: nat, now: real)
    requires k <= |times|
    requires forall i :: k <= i < |times| ==> now - times[i] < WINDOW
    ensures Recent(times, now) >= |times| - k
  {
    if |times| > k {
      RecentAtLeast(times[..|times| - 1], k, now);
    }
  }

  /** The deque is the newest part of the log; what it dropped has expired, unless it is full. */
  predicate Tracks(d: seq<real>, times: seq<real>, now: real) {
    && |d| <= LIMIT + 1 && |d| <= |times| && d == times[|times| - |d|..]
    && (|d| <= LIMIT ==> forall i :: 0 <= i < |times| - |d| ==> now - times[i] >= WINDOW)
    && (forall i :: 0 <= i < |d| ==> now - d[i] < WINDOW)
  }

  lemma AppendTracks(times: seq<real>, lo: nat, now: real)
    requires lo <= |times| && |times| - lo <= LIMIT + 1
    requires forall i :: lo <= i < |times| ==> now - times[i] < WINDOW
    requires |times| - lo <= LIMIT ==> forall i :: 0 <= i < lo ==> now - times[i] >= WINDOW
    ensures Tracks(Append(times[lo..], now), times + [now], now)
  {
    var all, from := times + [now], if |times| - lo > LIMIT then lo + 1 else lo;
    assert Append(times[lo..], now) == all[from..];
    assert forall i :: 0 <= i < |all| - from ==> all[from..][i] == all[from + i];
  }

  /** Expiring keeps a newest part of the log, and only what is out of the window is dropped by it. */
  lemma ExpireTracks(d: seq<real>, times: seq<real>, was: real, now: real) returns (lo: nat)
    requires Tracks(d, times, was) && was <= now && Monotone(times)
    ensures lo <= |times| && Expire(d, now) == times[lo..] && |times| - lo <= LIMIT + 1
    ensures forall i :: lo <= i < |times| ==> now - times[i] < WINDOW
    ensures |times| - lo <= LIMIT ==> forall i :: 0 <= i < lo ==> now - times[i] >= WINDOW
  {
    var k := ExpireIsSuffix(d, now);
    var first := |times| - |d|;
    lo := first + k;
    assert forall i :: first <= i < |times| ==> times[i] == d[i - first];
    if k < |d| {
      assert now - times[lo] < WINDOW;
    }
    if k > 0 {
      assert now - times[lo - 1] >= WINDOW;
      assert forall i :: 0 <= i < lo ==> times[i] <= times[lo - 1];
    }
  }

  lemma TracksStep(d: seq<real>, times: seq<real>, was: real, now: real)
    requires Tracks(d, times, was) && was <= now && Monotone(times)
    ensures Tracks(Append(Expire(d, now), now), times + [now], now)
  {
    var lo := ExpireTracks(d, times, was, now);
    AppendTracks(times, lo, now);
  }

  lemma DequeOne(now: real)
    ensures Tracks(Deque([now]), [now], now)
  {
    assert [now][..0] == [];
    assert Deque([]) == [] && Deque([now]) == [now];
  }

  lemma {:induction false} DequeTracks(times: seq<real>)
    requires Monotone(times) && times != []
    ensures Tracks(Deque(times), times, times[|times| - 1])
    decreases |times|
  {
    var n := |times| - 1;
    var init, now := times[..n], times[n];
    assert times == init + [now];
    if init != [] {
      DequeTracks(init);
      TracksStep(Deque(init), init, init[n - 1], now);
    } else {
      assert times == [now];
      DequeOne(now);
    }
  }

  /** Under a clock that never goes back, the bounded deque and the full log agree on every decision. */
  lemma WindowRefinesLog(times: seq<real>)
    requires Monotone(times) && times != []
    ensures var now := times[|times| - 1];
            && |Deque(times)| == (if Recent(times, now) <= 10 then Recent(times, now) else 11)
            && (|Deque(times)| > LIMIT <==> Recent(times, now) > 10)
  {
    DequeTracks(times);
    var d, now := Deque(times), times[|times| - 1];
    assert forall i :: 0 <= i < |d| ==> d[i] == times[|times| - |d| + i];
    if |d| <= LIMIT {
      RecentOfSuffix(times, |times| - |d|, now);
    } else {
      RecentAtLeast(times, |times| - |d|, now);
    }
  }

  // ----- every client -----

  datatype Failure = Failure(client: string, at: real)

  function TimesOf(log: seq<Failure>, client: string): seq<real> {
    if log == [] then []
    else
      var last := log[|log| - 1];
      TimesOf(log[..|log| - 1], client) + if last.client == client then [last.at] else []
  }

  predicate MonotoneLog(log: seq<Failure>) {
    forall i, j :: 0 <= i < j < |log| ==> log[i].at <= log[j].at
  }

  lemma {:induction false} TimesOfMonotone(log: seq<Failure>, client: string)
    requires MonotoneLog(log)
    ensures Monotone(TimesOf(log, client))
    ensures forall t :: t in TimesOf(log, client) ==> log != [] && t <= log[|log| - 1].at
  {
    if log != [] {
      var init, last := log[..|log| - 1], log[|log| - 1];
      TimesOfMonotone(init, client);
      forall t | t in TimesOf(init, client) ensures t <= last.at {
        assert init[|init| - 1].at <= last.at;
      }
      var before := TimesOf(init, client);
      assert forall i :: 0 <= i < |before| ==> before[i] in before;
    }
  }

  lemma TimesOfSnoc(log: seq<Failure>, e: Failure, c: string)
    ensures TimesOf(log + [e], c) == TimesOf(log, c) + if c == e.client then [e.at] else []
    ensures c != e.client ==> TimesOf(log + [e], c) == TimesOf(log, c)
    ensures e.client == c ==> Deque(TimesOf(log + [e], c)) == Append(Expire(Deque(TimesOf(log, c)), e.at), e.at)
  {
    assert (log + [e])[..|log|] == log;
    assert (TimesOf(log, c) + [e.at])[..|TimesOf(log, c)|] == TimesOf(log, c);
  }

  lemma MonotoneSnoc(log: seq<Failure>, e: Failure)
    requires MonotoneLog(log) && (log != [] ==> log[|log| - 1].at <= e.at)
    ensures MonotoneLog(log + [e])
  {
    forall i | 0 <= i < |log| ensures log[i].at <= e.at {
      assert log[i].at <= log[|log| - 1].at;
    }
  }

  type Table = map<string, seq<real>>

  function Held(table: Table, c: string): seq<real> {
    if c in table then table[c] else []
  }

  ghost predicate TableOf(table: Table, log: seq<Failure>) {
    forall c :: Held(table, c) == Deque(TimesOf(log, c))
  }

  lemma TableSnoc(table: Table, log: seq<Failure>, e: Failure)
    requires TableOf(table, log)
    ensures TableOf(table[e.client := Append(Expire(Held(table, e.client), e.at), e.at)], log + [e])
  {
    forall c { TimesOfSnoc(log, e, c); }
  }

  lemma OverLimit(log: seq<Failure>, e: Failure)
    requires MonotoneLog(log + [e])
    ensures |Deque(TimesOf(log + [e], e.client))| > LIMIT <==> Recent(TimesOf(log + [e], e.client), e.at) > LIMIT
  {
    TimesOfSnoc(log, e, e.client);
    TimesOfMonotone(log + [e], e.client);
    WindowRefinesLog(TimesOf(log + [e], e.client));
  }

  /** The loop that pops from the left. */
  method DropExpired(attempts: seq<real>, now: real) returns (d: seq<real>)
    ensures d == Expire(attempts, now)
  {
    d := attempts;
    while d != [] && now - d[0] >= WINDOW
      invariant Expire(d, now) == Expire(attempts, now)
      decreases |d|
    {
      d := d[1..];
    }
  }

  class Limiter {
    var attempts: Table
    ghost var log: seq<Failure>

    ghost predicate Valid()
      reads this
    {
      MonotoneLog(log) && TableOf(attempts, log)
    }

    constructor ()
      ensures Valid() && log == []
    {
      attempts := map[];
      log := [];
    }

    /** Records a failure and says whether the client is over the limit: exactly when more than ten of its
        failures, this one included, are less than 60 seconds old. */
    method Record(client: string, now: real) returns (exceeded: bool)
      requires Valid() && (log != [] ==> log[|log| - 1].at <= now)
      modifies this
      ensures Valid() && log == old(log) + [Failure(client, now)]
      ensures exceeded <==> Recent(TimesOf(log, client), now) > LIMIT
    {
      var d := DropExpired(Held(attempts, client), now);
      ghost var entry := Failure(client, now);
      MonotoneSnoc(log, entry);
      TableSnoc(attempts, log, entry);
      OverLimit(log, entry);
      if d == [] {
        attempts := attempts - {client};
      }
      d := Append(d, now);
      attempts := attempts[client := d];
      exceeded := |d| > LIMIT;
      assert attempts == old(attempts)[client := d];
      log := log + [entry];
    }
  }
}
