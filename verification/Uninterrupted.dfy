/** The steps of the interleaved model, when nothing comes between them, are the attempt of `deliver_pending` as one
    piece (app/events/outbox.py). */
module Uninterrupted {
  import opened Wrappers
  import opened Crypto
  import opened Store
  import opened Outbox
  import opened Interleaving

  ghost predicate Reaches(env: Env, s: State, actions: seq<Action>, s': State)
    decreases |actions|
  {
    if actions == [] then s' == s
    else Possible(s, actions[0]) && Reaches(env, Step(env, s, actions[0]), actions[1..], s')
  }

  lemma ReachesFirst(env: Env, s: State, a: Action, more: seq<Action>, s': State)
    requires Possible(s, a) && Reaches(env, Step(env, s, a), more, s')
    ensures Reaches(env, s, [a] + more, s')
  {
    assert ([a] + more)[1..] == more;
  }

  /** What the attempt ended in: these tables, the lock free, and the worker at the rest of its list. */
  predicate Ended(s: State, s': State, w: nat, db: Db, todo: seq<OutboxItem>) {
    s'.db == db && s'.key == s.key && s'.clock == s.clock && s'.lock.None? && TaskOf(s', w) == Ready(todo)
  }

  lemma Recorded(env: Env, s: State, w: nat, item: OutboxItem, write: Write, todo: seq<OutboxItem>)
    returns (actions: seq<Action>, s': State)
    requires TaskOf(s, w) == Recording(item, write, todo)
    ensures Reaches(env, s, actions, s') && Ended(s, s', w, Apply(s.db, item.id, write), todo)
  {
    actions, s' := [Record(w)], Step(env, s, Record(w));
    assert actions[1..] == [];
  }

  lemma Settled(env: Env, s: State, w: nat, item: OutboxItem, p: Payload, stream: Stream, todo: seq<OutboxItem>, outcome: Outcome)
    returns (actions: seq<Action>, s': State)
    requires TaskOf(s, w) == Pushing(item, p, stream, todo)
    ensures Reaches(env, s, actions, s') && Ended(s, s', w, Apply(s.db, item.id, Settle(item, outcome, s.clock)), todo)
  {
    var s1 := Step(env, s, Return(w, outcome));
    var more, last := Recorded(env, s1, w, item, Settle(item, outcome, s.clock), todo);
    actions, s' := [Return(w, outcome)] + more, last;
    ReachesFirst(env, s, Return(w, outcome), more, s');
  }

  lemma Addressed(env: Env, s: State, w: nat, item: OutboxItem, p: Payload, todo: seq<OutboxItem>, outcome: Outcome)
    returns (actions: seq<Action>, s': State)
    requires TaskOf(s, w) == Checked(item, p, todo)
    ensures Reaches(env, s, actions, s')
    ensures Ended(s, s', w, Apply(s.db, item.id, match Address(env, s.key, s.db.streams, item, p, s.clock)
                                                 case Do(write) => write
                                                 case Push(_, _) => Settle(item, outcome, s.clock)), todo)
  {
    var s1 := Step(env, s, Lookup(w));
    var more: seq<Action>, last: State;
    match Address(env, s.key, s.db.streams, item, p, s.clock)
    case Do(write) =>
      more, last := Recorded(env, s1, w, item, write, todo);
      actions, s' := [Lookup(w)] + more, last;
      ReachesFirst(env, s, Lookup(w), more, s');
    case Push(payload, stream) =>
      more, last := Settled(env, s1, w, item, payload, stream, todo, outcome);
      actions, s' := [Lookup(w)] + more, last;
      ReachesFirst(env, s, Lookup(w), more, s');
  }

  lemma Concluded(env: Env, s: State, w: nat, item: OutboxItem, todo: seq<OutboxItem>, outcome: Outcome)
    returns (actions: seq<Action>, s': State)
    requires TaskOf(s, w) == Loaded(item, todo)
    ensures Reaches(env, s, actions, s')
    ensures Ended(s, s', w, Apply(s.db, item.id, Conclude(env, s.key, s.db.streams, item, outcome, s.clock)), todo)
  {
    var s1 := Step(env, s, Open(w));
    var more: seq<Action>, last: State;
    match Examine(env, s.key, item)
    case Err(write) =>
      more, last := Recorded(env, s1, w, item, write, todo);
      actions, s' := [Open(w)] + more, last;
      ReachesFirst(env, s, Open(w), more, s');
    case Ok(p) =>
      more, last := Addressed(env, s1, w, item, p, todo, outcome);
      actions, s' := [Open(w)] + more, last;
      ReachesFirst(env, s, Open(w), more, s');
  }

  lemma ReadAgain(env: Env, s: State, w: nat, next: OutboxItem, todo: seq<OutboxItem>, outcome: Outcome)
    returns (actions: seq<Action>, s': State)
    requires TaskOf(s, w) == Timed(next, todo, s.clock)
    ensures Reaches(env, s, actions, s')
    ensures match DueItem(s.db.outbox, next.id, s.clock)
            case None => Ended(s, s', w, s.db, todo)
            case Some(item) => Ended(s, s', w, Apply(s.db, item.id, Conclude(env, s.key, s.db.streams, item, outcome, s.clock)), todo)
  {
    var s1 := Step(env, s, Reread(w));
    match DueItem(s.db.outbox, next.id, s.clock)
    case None =>
      actions, s' := [Reread(w)], s1;
      assert actions[1..] == [];
    case Some(item) =>
      var more, last := Concluded(env, s1, w, item, todo, outcome);
      actions, s' := [Reread(w)] + more, last;
      ReachesFirst(env, s, Reread(w), more, s');
  }

  /** A worker that is let through its next row, with the push ending as given, does to the tables what the loop of
      `deliver_pending` does in one turn: a row that is not due any more is left, and one that is gets its result. */
  lemma TurnIsAttempt(env: Env, s: State, w: nat, next: OutboxItem, todo: seq<OutboxItem>, outcome: Outcome)
    returns (actions: seq<Action>, s': State)
    requires TaskOf(s, w) == Ready([next] + todo) && s.lock.None?
    ensures Reaches(env, s, actions, s')
    ensures Ended(s, s', w, Drain(env, s.key, s.db, [next], _ => outcome, s.clock).0, todo)
  {
    assert ([next] + todo)[1..] == todo;
    var s1 := Step(env, s, Acquire(w));
    var s2 := Step(env, s1, Glance(w));
    var more, last := ReadAgain(env, s2, w, next, todo, outcome);
    ReachesFirst(env, s1, Glance(w), more, last);
    ReachesFirst(env, s, Acquire(w), [Glance(w)] + more, last);
    actions, s' := [Acquire(w)] + ([Glance(w)] + more), last;
    DrainOne(env, s.key, s.db, next, outcome, s.clock);
  }

  lemma DrainOne(env: Env, k: Key, db: Db, next: OutboxItem, outcome: Outcome, now: int)
    ensures Drain(env, k, db, [next], _ => outcome, now)
            == match DueItem(db.outbox, next.id, now)
               case None => (db, 0)
               case Some(item) => (Apply(db, next.id, Conclude(env, k, db.streams, item, outcome, now)), 1)
  {
    assert [next][..0] == [];
  }
}
