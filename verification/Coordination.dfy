/** The gate around the Apple connection (app/scim/coordination.py) and the one-time OAuth states that pass
    through it (app/routes/apple_scim.py), for any number of tasks. */
module Coordination {
  import opened Wrappers

  type TaskId = nat

  /** `Parked` waits on the idle event; `Woken` has been released by it and will test the flag again. */
  datatype Place = Parked | Woken | Inside

  datatype Gate = Gate(busy: bool, idle: bool, tasks: map<TaskId, Place>)

  datatype Entry = Entered | Refused | Waiting

  const OPEN_GATE := Gate(false, true, map[])

  // ----- the steps -----

  /** One pass of the `while self._busy` loop: enter, give up, or wait for the event. */
  function Attempt(g: Gate, t: TaskId, wait: bool): (Gate, Entry) {
    if !g.busy then (Gate(true, false, g.tasks[t := Inside]), Entered)
    else if !wait then (g.(tasks := g.tasks - {t}), Refused)
    else (g.(tasks := g.tasks[t := if g.idle then Woken else Parked]), Waiting)
  }

  /** The `finally` block: clear the flag and set the event, which releases every parked task. */
  function Leave(g: Gate, t: TaskId): Gate {
    Gate(false, true, map x | x in g.tasks && x != t :: if g.tasks[x].Parked? then Woken else g.tasks[x])
  }

  datatype Move = Enter(t: TaskId, wait: bool) | Resume(t: TaskId) | Exit(t: TaskId) | Cancel(t: TaskId)

  predicate Possible(g: Gate, m: Move) {
    match m
    case Enter(t, _) => t !in g.tasks
    case Resume(t) => t in g.tasks && g.tasks[t].Woken?
    case Exit(t) => t in g.tasks && g.tasks[t].Inside?
    case Cancel(t) => t in g.tasks
  }

  function Step(g: Gate, m: Move): Gate
    requires Possible(g, m)
  {
    match m
    case Enter(t, wait) => Attempt(g, t, wait).0
    case Resume(t) => Attempt(g, t, true).0
    case Exit(t) => Leave(g, t)
    case Cancel(t) => if g.tasks[t].Inside? then Leave(g, t) else g.(tasks := g.tasks - {t})
  }

  function Run(moves: seq<Move>): Option<Gate> {
    if moves == [] then Some(OPEN_GATE)
    else
      match Run(moves[..|moves| - 1])
      case None => None
      case Some(g) => if Possible(g, moves[|moves| - 1]) then Some(Step(g, moves[|moves| - 1])) else None
  }

  // ----- what every run keeps -----

  ghost predicate Holders(g: Gate, t: TaskId) {
    t in g.tasks && g.tasks[t].Inside?
  }

  ghost predicate GateInv(g: Gate) {
    && (forall a, b :: Holders(g, a) && Holders(g, b) ==> a == b)
    && (g.busy <==> exists t :: Holders(g, t))
    && (g.idle <==> !g.busy)
    && (forall t :: t in g.tasks && g.tasks[t].Parked? ==> g.busy)
  }

  lemma StepKeepsGate(g: Gate, m: Move)
    requires GateInv(g) && Possible(g, m)
    ensures GateInv(Step(g, m))
  {
    var g' := Step(g, m);
    var leaves := m.Exit? || (m.Cancel? && g.tasks[m.t].Inside?);
    if leaves {
      assert Holders(g, m.t);
      forall x ensures !Holders(g', x) {
        assert Holders(g', x) ==> Holders(g, x) && x != m.t;
      }
    } else if !g.busy && !m.Cancel? {
      forall x ensures Holders(g', x) <==> x == m.t {
        assert !Holders(g, x);
      }
      assert Holders(g', m.t);
    } else {
      forall x ensures Holders(g', x) <==> Holders(g, x) {}
    }
  }

  /** At every point of every run there is at most one holder, the flag and the event say whether there is
      one, and nobody is parked at a free gate. */
  lemma {:induction false} GateSafe(moves: seq<Move>)
    requires Run(moves).Some?
    ensures GateInv(Run(moves).value)
  {
    if moves != [] {
      var init := moves[..|moves| - 1];
      GateSafe(init);
      StepKeepsGate(Run(init).value, moves[|moves| - 1]);
    }
  }

  /** Whenever the gate is free each waiting task is already released, and its next step takes the gate. A
      call that does not wait is refused exactly when somebody holds the gate. */
  lemma NoLostWakeup(moves: seq<Move>, t: TaskId, wait: bool)
    requires Run(moves).Some?
    ensures var g := Run(moves).value;
            && (!g.busy && t in g.tasks ==> Possible(g, Resume(t)) && Holders(Step(g, Resume(t)), t))
            && (t !in g.tasks ==> (Attempt(g, t, wait).1.Entered? <==> forall x :: !Holders(g, x)))
            && (t !in g.tasks ==> (Attempt(g, t, wait).1.Refused? <==> !wait && exists x :: Holders(g, x)))
  {
    GateSafe(moves);
    var g := Run(moves).value;
    if !g.busy && t in g.tasks {
      assert !Holders(g, t);
    }
  }

  /** A released gate is taken by nobody until somebody asks, and the holder that leaves was the only one. */
  lemma ExitFrees(moves: seq<Move>, t: TaskId)
    requires Run(moves).Some? && Possible(Run(moves).value, Exit(t))
    ensures var g' := Step(Run(moves).value, Exit(t));
            !g'.busy && (forall x :: !Holders(g', x))
            && g'.tasks.Keys == Run(moves).value.tasks.Keys - {t}
            && forall x :: x in g'.tasks ==> g'.tasks[x].Woken?
  {
    GateSafe(moves);
    var g := Run(moves).value;
    assert Holders(g, t);
    assert forall x :: x in g.tasks && x != t ==> !Holders(g, x);
  }

  /** The object itself. `parked` stands for the futures held by the event. */
  class Coordinator {
    var busy: bool
    var idle: bool
    var tasks: map<TaskId, Place>

    ghost function View(): Gate
      reads this
    {
      Gate(busy, idle, tasks)
    }

    constructor ()
      ensures View() == OPEN_GATE
    {
      busy := false;
      idle := true;
      tasks := map[];
    }

    method TryEnter(t: TaskId, wait: bool) returns (entry: Entry)
      modifies this
      ensures (View(), entry) == Attempt(old(View()), t, wait)
    {
      if busy {
        if !wait {
          tasks := tasks - {t};
          return Refused;
        }
        tasks := tasks[t := if idle then Woken else Parked];
        return Waiting;
      }
      busy := true;
      idle := false;
      tasks := tasks[t := Inside];
      return Entered;
    }

    method Release(t: TaskId)
      modifies this
      ensures View() == Leave(old(View()), t)
    {
      busy := false;
      idle := true;
      tasks := tasks - {t};
      tasks := map x | x in tasks :: if tasks[x].Parked? then Woken else tasks[x];
    }
  }

  // ----- one-time OAuth states -----

  const STATE_TTL := 600.0

  type States = map<string, real>

  function Cleanup(states: States, now: real): States {
    map s | s in states && now - states[s] <= STATE_TTL :: states[s]
  }

  /** `check` and `enter` are the clock readings before the gate and inside it. */
  datatype Request =
    | Authorize(state: string, now: real)
    | Callback(state: string, gateBusy: bool, check: real, enter: real)

  datatype Reply = Started | Invalid | Busy | Exchanged

  /** `callback`: a first test that consumes nothing, then the gate, then the test that consumes. */
  function Serve(states: States, r: Request): (States, Reply) {
    match r
    case Authorize(s, now) => (Cleanup(states, now)[s := now], Started)
    case Callback(s, gateBusy, check, enter) =>
      var seen := Cleanup(states, check);
      if s !in seen then (seen, Invalid)
      else if gateBusy then (seen, Busy)
      else
        var left := Cleanup(seen, enter);
        if s in left then (left - {s}, Exchanged) else (left, Invalid)
  }

  function Serving(rs: seq<Request>): States {
    if rs == [] then map[] else Serve(Serving(rs[..|rs| - 1]), rs[|rs| - 1]).0
  }

  function ReplyAt(rs: seq<Request>, i: nat): Reply
    requires i < |rs|
  {
    Serve(Serving(rs[..i]), rs[i]).1
  }

  function Issued(rs: seq<Request>, s: string): nat {
    if rs == [] then 0
    else Issued(rs[..|rs| - 1], s) + if rs[|rs| - 1].Authorize? && rs[|rs| - 1].state == s then 1 else 0
  }

  function Exchanges(rs: seq<Request>, s: string): nat {
    if rs == [] then 0
    else
      var last := |rs| - 1;
      Exchanges(rs[..last], s)
      + if rs[last].state == s && Serve(Serving(rs[..last]), rs[last]).1.Exchanged? then 1 else 0
  }

  /** A state leads to at most as many code exchanges as times it was issued, so a fresh one to at most one;
      while it is still stored, to strictly fewer. */
  lemma {:induction false} ExchangedAtMostOncePerIssue(rs: seq<Request>, s: string)
    ensures Exchanges(rs, s) + (if s in Serving(rs) then 1 else 0) <= Issued(rs, s)
  {
    if rs != [] {
      ExchangedAtMostOncePerIssue(rs[..|rs| - 1], s);
    }
  }

  /** A stored time is when the state was last issued, and nothing has consumed it since. */
  lemma {:induction false} StoredSinceIssue(rs: seq<Request>, s: string)
    requires s in Serving(rs)
    ensures exists i :: 0 <= i < |rs| && rs[i] == Authorize(s, Serving(rs)[s])
                        && forall j :: i < j < |rs| && rs[j].state == s ==> rs[j].Callback? && !ReplyAt(rs, j).Exchanged?
  {
    var last := |rs| - 1;
    var init := rs[..last];
    if rs[last].Authorize? && rs[last].state == s {
      assert rs[last] == Authorize(s, Serving(rs)[s]);
    } else {
      StoredSinceIssue(init, s);
      var i :| 0 <= i < |init| && init[i] == Authorize(s, Serving(init)[s])
               && forall j :: i < j < |init| && init[j].state == s ==> init[j].Callback? && !ReplyAt(init, j).Exchanged?;
      assert rs[i] == Authorize(s, Serving(rs)[s]);
      forall j | i < j < |rs| && rs[j].state == s ensures rs[j].Callback? && !ReplyAt(rs, j).Exchanged? {
        if j < last {
          assert init[j] == rs[j] && init[..j] == rs[..j];
        }
      }
    }
  }

  /** A code is exchanged exactly for a state issued at most 600 seconds before, at both clock readings, while the gate
      is free; a busy gate leaves the state stored, so that the same callback can be retried. Other states that are
      no older stay as they are. */
  lemma CallbackOutcomes(rs: seq<Request>, s: string, gateBusy: bool, check: real, enter: real)
    ensures var before := Serving(rs);
            var (after, reply) := Serve(before, Callback(s, gateBusy, check, enter));
            && (reply.Exchanged? <==> !gateBusy && s in before && check - before[s] <= 600.0 && enter - before[s] <= 600.0)
            && (reply.Exchanged? ==> s !in after)
            && (reply.Busy? <==> gateBusy && s in before && check - before[s] <= 600.0)
            && (reply.Busy? ==> s in after && after[s] == before[s])
            && (reply.Invalid? && s in before ==> check - before[s] > 600.0 || enter - before[s] > 600.0)
            && (forall x :: x != s && x in after ==> x in before && after[x] == before[x])
            && (forall x :: x != s && x in before && check - before[x] <= 600.0 && enter - before[x] <= 600.0 ==> x in after)
  {}

  /** Issuing a state stores it with its time and drops exactly the others that are older than 600 seconds. */
  lemma IssueStores(states: States, s: string, now: real)
    ensures var (after, reply) := Serve(states, Authorize(s, now));
            && reply.Started? && s in after && after[s] == now
            && (forall x :: x != s ==> (x in after <==> x in states && now - states[x] <= 600.0))
            && (forall x :: x != s && x in after ==> after[x] == states[x])
  {}

  /** The dictionary of pending states. */
  class PendingStates {
    var pending: States

    constructor ()
      ensures pending == map[]
    {
      pending := map[];
    }

    method CleanupExpired(now: real)
      modifies this
      ensures pending == Cleanup(old(pending), now)
    {
      ghost var all := set s | s in pending && now - pending[s] > STATE_TTL;
      var expired := set s | s in pending && now - pending[s] > STATE_TTL;
      while expired != {}
        invariant expired <= all && pending == old(pending) - (all - expired)
        decreases expired
      {
        var state :| state in expired;
        pending := pending - {state};
        expired := expired - {state};
      }
    }

    method AddState(state: string, now: real)
      modifies this
      ensures pending == Serve(old(pending), Authorize(state, now)).0
    {
      CleanupExpired(now);
      pending := pending[state := now];
    }

    method ConsumeState(state: string, now: real) returns (valid: bool)
      modifies this
      ensures valid == (state in Cleanup(old(pending), now))
      ensures pending == if valid then Cleanup(old(pending), now) - {state} else Cleanup(old(pending), now)
    {
      CleanupExpired(now);
      valid := state in pending;
      if valid {
        pending := pending - {state};
      }
    }

    method IsValidState(state: string, now: real) returns (valid: bool)
      modifies this
      ensures valid == (state in pending) && pending == Cleanup(old(pending), now)
    {
      CleanupExpired(now);
      valid := state in pending;
    }

    /** The order of `callback`: test, enter the gate, consume, exchange. */
    method HandleCallback(state: string, gateBusy: bool, check: real, enter: real) returns (reply: Reply)
      modifies this
      ensures (pending, reply) == Serve(old(pending), Callback(state, gateBusy, check, enter))
    {
      var valid := IsValidState(state, check);
      if !valid { return Invalid; }
      if gateBusy { return Busy; }
      valid := ConsumeState(state, enter);
      return if valid then Exchanged else Invalid;
    }
  }
}
