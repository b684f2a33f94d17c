/** The token row under its lock, for any number of tasks, one step at a time (app/scim/token.py and the code
    exchange of app/routes/apple_scim.py): the lock is a field, and that the calls behave as if each ran alone
    is a theorem. */
module TokenLock {
  import opened Wrappers
  import opened TokenStore

  type TaskId = nat

  /** Where a task stands. From `Locked` on it holds the lock. */
  datatype Stage =
    | Queued(exchange: bool)
    | Locked(exchange: bool)
    | Asking(presented: string, now: int)
    | Answered(presented: string, now: int, answer: Answer)

  /** How a call ended. A cancellation can land before the answer is saved or after. */
  datatype Ending = Returned(result: Option<string>) | Cancelled

  /** `finished` are the calls that have asked or ended, in that order, with how they ended; `asked` the refresh
      tokens presented. Both are history. */
  datatype Desk = Desk(
    row: Option<Tokens>, lock: Option<TaskId>, tasks: map<TaskId, Stage>,
    finished: seq<Call>, endings: seq<Ending>, asked: seq<string>)

  const EMPTY_DESK := Desk(None, None, map[], [], [], [])

  /** `cut` is a cancellation that lands after the row was written and before the call has returned. */
  datatype Move =
    | Come(t: TaskId, exchange: bool)
    | Acquire(t: TaskId)
    | Look(t: TaskId, now: int)
    | Hear(t: TaskId, answer: Answer)
    | Finish(t: TaskId, later: int, cut: bool)
    | Trade(t: TaskId, access: string, refresh: Option<string>, expiresIn: Option<int>, later: int, cut: bool)
    | Cancel(t: TaskId)

  predicate HasLock(s: Stage) {
    !s.Queued?
  }

  predicate Possible(d: Desk, m: Move) {
    if m.Come? then m.t !in d.tasks
    else
      m.t in d.tasks
      && match m
         case Acquire(t) => d.tasks[t].Queued? && d.lock.None?
         case Look(t, _) => d.tasks[t] == Locked(false)
         case Hear(t, _) => d.tasks[t].Asking?
         case Finish(t, _, _) => d.tasks[t].Answered?
         case Trade(t, _, _, _, _, _) => d.tasks[t] == Locked(true)
         case _ => true
  }

  function SetStage(d: Desk, t: TaskId, s: Stage): Desk {
    d.(tasks := d.tasks[t := s])
  }

  /** The task is gone, and so is its hold on the lock. */
  function Leave(d: Desk, t: TaskId): Desk {
    d.(tasks := d.tasks - {t}, lock := if d.lock == Some(t) then None else d.lock)
  }

  /** The task leaves, and its call is on record. */
  function End(d: Desk, t: TaskId, row: Option<Tokens>, c: Call, e: Ending): Desk {
    Leave(d, t).(row := row, finished := d.finished + [c], endings := d.endings + [e])
  }

  /** `get_valid_access_token` up to the request: return what is there, give up, or ask. */
  function DoLook(d: Desk, t: TaskId, now: int): Desk {
    var nothing := Get(now, now, Failed);
    if d.row.None? then End(d, t, d.row, nothing, Returned(None))
    else if now < d.row.value.expiresAt then End(d, t, d.row, nothing, Returned(Some(d.row.value.access)))
    else if d.row.value.refresh.None? || d.row.value.refresh.value == "" then End(d, t, d.row, nothing, Returned(None))
    else SetStage(d, t, Asking(d.row.value.refresh.value, now)).(asked := d.asked + [d.row.value.refresh.value])
  }

  function Ended(cut: bool, result: Option<string>): Ending {
    if cut then Cancelled else Returned(result)
  }

  /** The answer is used: a refusal changes nothing, a grant is saved over the row as it is now. */
  function DoFinish(d: Desk, t: TaskId, s: Stage, later: int, cut: bool): Desk
    requires s.Answered?
  {
    match s.answer
    case Failed => End(d, t, d.row, Get(s.now, later, Failed), Ended(cut, None))
    case Granted(access, refresh, expiresIn) =>
      End(d, t, Some(Save(d.row, access, refresh, Lifetime(expiresIn), later)), Get(s.now, later, s.answer),
          Ended(cut, Some(access)))
  }

  /** A task cancelled before the save that had asked has asked in vain. */
  function DoCancel(d: Desk, t: TaskId, s: Stage): Desk {
    match s
    case Asking(_, now) => End(d, t, d.row, Get(now, now, Failed), Cancelled)
    case Answered(_, now, _) => End(d, t, d.row, Get(now, now, Failed), Cancelled)
    case _ => Leave(d, t)
  }

  function Step(d: Desk, m: Move): Desk
    requires Possible(d, m)
  {
    match m
    case Come(t, exchange) => SetStage(d, t, Queued(exchange))
    case Acquire(t) => SetStage(d, t, Locked(d.tasks[t].exchange)).(lock := Some(t))
    case Look(t, now) => DoLook(d, t, now)
    case Hear(t, answer) => SetStage(d, t, Answered(d.tasks[t].presented, d.tasks[t].now, answer))
    case Finish(t, later, cut) => DoFinish(d, t, d.tasks[t], later, cut)
    case Trade(t, access, refresh, expiresIn, later, cut) =>
      End(d, t, Some(Save(d.row, access, refresh, Lifetime(expiresIn), later)),
          Exchange(access, refresh, expiresIn, later), Ended(cut, Some(access)))
    case Cancel(t) => DoCancel(d, t, d.tasks[t])
  }

  function Run(moves: seq<Move>): Option<Desk> {
    if moves == [] then Some(EMPTY_DESK)
    else
      match Run(moves[..|moves| - 1])
      case None => None
      case Some(d) => if Possible(d, moves[|moves| - 1]) then Some(Step(d, moves[|moves| - 1])) else None
  }

  // ----- what every run keeps -----

  /** A task is in its locked section exactly when the lock names it. */
  ghost predicate LockInv(d: Desk) {
    && (forall t :: t in d.tasks ==> (HasLock(d.tasks[t]) <==> d.lock == Some(t)))
    && (d.lock.Some? ==> d.lock.value in d.tasks)
  }

  predicate InFlight(s: Stage) {
    s.Asking? || s.Answered?
  }

  /** The task that waits for an answer presented the refresh token that is still stored, and found the access
      token expired. */
  predicate AskedRightly(row: Option<Tokens>, s: Stage) {
    InFlight(s) ==>
      row.Some? && row.value.refresh == Some(s.presented) && s.presented != "" && s.now >= row.value.expiresAt
  }

  ghost predicate AskInv(d: Desk) {
    forall t :: t in d.tasks ==> AskedRightly(d.row, d.tasks[t])
  }

  /** The refresh requests the calls make when each runs alone. */
  function Requests(calls: seq<Call>): seq<string> {
    if calls == [] then []
    else
      var init := calls[..|calls| - 1];
      var presented := Serve(Row(init), calls[|calls| - 1]).presented;
      Requests(init) + if presented.Some? then [presented.value] else []
  }

  function Pending(d: Desk): seq<string> {
    if d.lock.Some? && d.lock.value in d.tasks && InFlight(d.tasks[d.lock.value]) then [d.tasks[d.lock.value].presented] else []
  }

  /** The row, the requests and the results are those of the finished calls run one after another. */
  ghost predicate SerialInv(d: Desk) {
    && d.row == Row(d.finished) && d.asked == Requests(d.finished) + Pending(d)
    && |d.endings| == |d.finished|
    && (forall i :: 0 <= i < |d.finished| ==> EndsAlone(d.finished, d.endings, i))
  }

  /** The call returned what it returns alone, or it was cancelled, which no call is that neither asked nor
      exchanged a code. */
  predicate EndsAlone(calls: seq<Call>, endings: seq<Ending>, i: nat)
    requires i < |calls| && |endings| == |calls|
  {
    EndsAs(Row(calls[..i]), calls[i], endings[i])
  }

  predicate EndsAs(row: Option<Tokens>, c: Call, e: Ending) {
    if e.Cancelled? then c.Exchange? || Serve(row, c).presented.Some? else e.result == Serve(row, c).result
  }

  ghost predicate DeskInv(d: Desk) {
    LockInv(d) && AskInv(d) && SerialInv(d)
  }

  lemma Snoc(calls: seq<Call>, c: Call)
    ensures Row(calls + [c]) == Serve(Row(calls), c).row
    ensures var presented := Serve(Row(calls), c).presented;
            Requests(calls + [c]) == Requests(calls) + if presented.Some? then [presented.value] else []
  {
    assert (calls + [c])[..|calls|] == calls;
  }

  lemma EndedSnoc(calls: seq<Call>, endings: seq<Ending>, c: Call, e: Ending)
    requires |endings| == |calls| && forall i :: 0 <= i < |calls| ==> EndsAlone(calls, endings, i)
    requires EndsAs(Row(calls), c, e)
    ensures forall i :: 0 <= i <= |calls| ==> EndsAlone(calls + [c], endings + [e], i)
  {
    var calls', endings' := calls + [c], endings + [e];
    forall i | 0 <= i <= |calls| ensures EndsAlone(calls', endings', i) {
      if i < |calls| {
        assert EndsAlone(calls, endings, i);
        assert calls'[..i] == calls[..i];
      } else {
        assert calls'[..i] == calls;
      }
    }
  }

  /** A call that changes the row as it would have alone keeps the books. */
  lemma EndKeeps(d: Desk, t: TaskId, c: Call, e: Ending)
    requires DeskInv(d) && t in d.tasks && d.lock == Some(t) && EndsAs(d.row, c, e)
    requires var presented := Serve(d.row, c).presented;
             (if presented.Some? then [presented.value] else []) == Pending(d)
    ensures DeskInv(End(d, t, Serve(d.row, c).row, c, e))
  {
    Snoc(d.finished, c);
    EndedSnoc(d.finished, d.endings, c, e);
    var d' := End(d, t, Serve(d.row, c).row, c, e);
    assert d'.finished == d.finished + [c] && d'.endings == d.endings + [e];
    assert Pending(d') == [] && Requests(d'.finished) + [] == Requests(d'.finished);
    assert d'.asked == Requests(d'.finished);
  }

  lemma LookKeeps(d: Desk, t: TaskId, now: int)
    requires DeskInv(d) && t in d.tasks && d.tasks[t] == Locked(false)
    ensures DeskInv(DoLook(d, t, now))
  {
    var c := Get(now, now, Failed);
    if Serve(d.row, c).presented.None? {
      EndKeeps(d, t, c, Returned(Serve(d.row, c).result));
    } else {
      assert Pending(d) == [] && Requests(d.finished) + [] == Requests(d.finished);
    }
  }

  lemma StepKeeps(d: Desk, m: Move)
    requires DeskInv(d) && Possible(d, m)
    ensures DeskInv(Step(d, m))
  {
    match m
    case Come(t, exchange) =>
    case Acquire(t) =>
    case Look(t, now) => LookKeeps(d, t, now);
    case Hear(t, answer) =>
    case Finish(t, later, cut) =>
      var c := Get(d.tasks[t].now, later, d.tasks[t].answer);
      EndKeeps(d, t, c, Ended(cut, Serve(d.row, c).result));
    case Trade(t, access, refresh, expiresIn, later, cut) =>
      var c := Exchange(access, refresh, expiresIn, later);
      EndKeeps(d, t, c, Ended(cut, Some(access)));
    case Cancel(t) =>
      if InFlight(d.tasks[t]) {
        var c := Get(d.tasks[t].now, d.tasks[t].now, Failed);
        EndKeeps(d, t, c, Cancelled);
      }
  }

  lemma {:induction false} RunKeeps(moves: seq<Move>)
    requires Run(moves).Some?
    ensures DeskInv(Run(moves).value)
    decreases |moves|
  {
    if moves != [] {
      RunKeeps(moves[..|moves| - 1]);
      StepKeeps(Run(moves[..|moves| - 1]).value, moves[|moves| - 1]);
    }
  }

  /** For any tasks that ask, are refused, granted or cancelled at any point, before the save or after, in any
      order: at most one holds the lock and at most one request is under way. What is stored, what was asked and
      what every call returned that was not cancelled are what the finished calls give when they run one after
      another, and the request under way presents the latest refresh token saved. */
  lemma ConcurrentIsSerial(moves: seq<Move>)
    requires Run(moves).Some?
    ensures var d := Run(moves).value;
            && (forall a, b :: a in d.tasks && b in d.tasks && HasLock(d.tasks[a]) && HasLock(d.tasks[b]) ==> a == b)
            && d.row == Row(d.finished) && |d.endings| == |d.finished|
            && (forall i :: 0 <= i < |d.finished| ==> EndsAlone(d.finished, d.endings, i))
            && Requests(d.finished) <= d.asked && |d.asked| <= |Requests(d.finished)| + 1
            && (forall t :: t in d.tasks && InFlight(d.tasks[t]) ==>
                  Some(d.tasks[t].presented) == LatestRefresh(d.finished) && d.asked == Requests(d.finished) + [d.tasks[t].presented])
  {
    RunKeeps(moves);
    var d := Run(moves).value;
    RefreshPresentsLatest(d.finished, Get(0, 0, Failed));
    forall t | t in d.tasks && InFlight(d.tasks[t])
      ensures Some(d.tasks[t].presented) == LatestRefresh(d.finished) && d.asked == Requests(d.finished) + [d.tasks[t].presented]
    {
      assert AskedRightly(d.row, d.tasks[t]);
    }
  }

  /** The steps that write the row, cancelled after it or not, write what their answer granted. No other does. */
  lemma SavingSteps(d: Desk, m: Move)
    requires Possible(d, m)
    ensures var row := Step(d, m).row;
            match m
            case Trade(_, access, refresh, expiresIn, later, _) => Holds(row, d.row, access, refresh, expiresIn, later)
            case Finish(t, later, _) =>
              (match d.tasks[t].answer
               case Granted(access, refresh, expiresIn) => Holds(row, d.row, access, refresh, expiresIn, later)
               case Failed => row == d.row)
            case _ => row == d.row
  {}

  // ----- one refresh for all -----

  lemma {:induction false} RequestsAdd(before: seq<Call>, more: seq<Call>)
    ensures |Requests(before + more)| == |Requests(before)| + Refreshes(Row(before), more)
    decreases |more|
  {
    if more == [] {
      assert before + more == before;
    } else {
      Snoc(before, more[0]);
      RequestsAdd(before + [more[0]], more[1..]);
      assert before + more == before + [more[0]] + more[1..];
    }
  }

  /** However many tasks find the token expired at the same time, and however their steps interleave: if the
      first to get the lock is granted a new token, and the others get the lock while that token is valid, then
      one request is made for all of them and every other returns the new token; so does the first, unless it
      was cancelled after saving it. */
  lemma ConcurrentRefreshShared(moves: seq<Move>, before: seq<Call>, first: Call, others: seq<Call>)
    requires Run(moves).Some? && Run(moves).value.finished == before + [first] + others && Run(moves).value.lock.None?
    requires Row(before).Some? && first.Get? && first.now >= Row(before).value.expiresAt && first.answer.Granted?
    requires Row(before).value.refresh.Some? && Row(before).value.refresh.value != ""
    requires forall i :: 0 <= i < |others| ==>
               others[i].Get? && others[i].now < Serve(Row(before), first).row.value.expiresAt
    ensures var d := Run(moves).value;
            && |d.asked| == |Requests(before)| + 1 && |d.endings| == |before| + 1 + |others|
            && (forall i :: |before| < i < |d.endings| ==> d.endings[i] == Returned(Some(first.answer.access)))
            && (d.endings[|before|] == Returned(Some(first.answer.access)) || d.endings[|before|] == Cancelled)
  {
    var d := Run(moves).value;
    RunKeeps(moves);
    RequestedOnce(before, first, others);
    assert |d.asked| == |Requests(d.finished)|;
    SharedEndings(d.finished, d.endings, before, first, others);
  }

  lemma SharedEndings(calls: seq<Call>, endings: seq<Ending>, before: seq<Call>, first: Call, others: seq<Call>)
    requires calls == before + [first] + others && |endings| == |calls|
    requires forall i :: 0 <= i < |calls| ==> EndsAlone(calls, endings, i)
    requires Row(before).Some? && first.Get? && first.now >= Row(before).value.expiresAt && first.answer.Granted?
    requires Row(before).value.refresh.Some? && Row(before).value.refresh.value != ""
    requires forall i :: 0 <= i < |others| ==>
               others[i].Get? && others[i].now < Serve(Row(before), first).row.value.expiresAt
    ensures forall i :: |before| < i < |calls| ==> endings[i] == Returned(Some(first.answer.access))
    ensures endings[|before|] == Returned(Some(first.answer.access)) || endings[|before|] == Cancelled
  {
    forall i: nat | |before| <= i < |calls|
      ensures endings[i] == Returned(Some(first.answer.access)) || (i == |before| && endings[i] == Cancelled)
    {
      assert EndsAlone(calls, endings, i);
      SharedReturn(calls, before, first, others, i);
      SharedEnding(calls, endings, i, first.answer.access, i > |before|);
    }
  }

  /** Alone, the call returns the token, and a later one without asking. */
  predicate Shares(row: Option<Tokens>, c: Call, access: string, later: bool) {
    c.Get? && Serve(row, c).result == Some(access) && (later ==> Serve(row, c).presented.None?)
  }

  lemma SharedEnding(calls: seq<Call>, endings: seq<Ending>, i: nat, access: string, later: bool)
    requires i < |calls| == |endings| && EndsAlone(calls, endings, i)
    requires Shares(Row(calls[..i]), calls[i], access, later)
    ensures endings[i] == Returned(Some(access)) || (!later && endings[i] == Cancelled)
  {}

  lemma RequestedOnce(before: seq<Call>, first: Call, others: seq<Call>)
    requires Row(before).Some? && first.Get? && first.now >= Row(before).value.expiresAt && first.answer.Granted?
    requires Row(before).value.refresh.Some? && Row(before).value.refresh.value != ""
    requires forall i :: 0 <= i < |others| ==>
               others[i].Get? && others[i].now < Serve(Row(before), first).row.value.expiresAt
    ensures |Requests(before + [first] + others)| == |Requests(before)| + 1
  {
    OneRefreshServesAll(Row(before), first, others);
    assert before + [first] + others == before + ([first] + others);
    RequestsAdd(before, [first] + others);
  }

  lemma {:induction false} ValidRowStays(calls: seq<Call>, others: seq<Call>)
    requires Row(calls).Some? && forall i :: 0 <= i < |others| ==> others[i].Get? && others[i].now < Row(calls).value.expiresAt
    ensures Row(calls + others) == Row(calls)
    decreases |others|
  {
    if others == [] {
      assert calls + others == calls;
    } else {
      var init, last := others[..|others| - 1], others[|others| - 1];
      ValidRowStays(calls, init);
      Snoc(calls + init, last);
      assert calls + others == calls + init + [last];
    }
  }

  lemma SharedReturn(calls: seq<Call>, before: seq<Call>, first: Call, others: seq<Call>, at: nat)
    requires calls == before + [first] + others && |before| <= at < |calls|
    requires Row(before).Some? && first.Get? && first.now >= Row(before).value.expiresAt && first.answer.Granted?
    requires Row(before).value.refresh.Some? && Row(before).value.refresh.value != ""
    requires forall j :: 0 <= j < |others| ==>
               others[j].Get? && others[j].now < Serve(Row(before), first).row.value.expiresAt
    ensures Shares(Row(calls[..at]), calls[at], first.answer.access, at > |before|)
  {
    if at == |before| {
      assert calls[..at] == before;
    } else {
      var n := at - |before| - 1;
      Snoc(before, first);
      ValidRowStays(before + [first], others[..n]);
      assert calls[..at] == before + [first] + others[..n];
      assert calls[at] == others[n];
    }
  }
}
