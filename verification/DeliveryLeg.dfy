/** The courier-neutral vocabulary of a delivery leg: which events move it
    where, and which events catch it up with a courier that is ahead. */
module DeliveryLeg {
  import opened Wrappers

  /** When an event applies (`from`) and where it leads (`to`). */
  datatype Rule<S> = Rule(from: seq<S>, to: S)

  /** A finite transition table: the event list in the order it is enumerated,
      and the rule of each event. */
  datatype Table<S(==,!new), !E(==,!new)> = Table(events: seq<E>, rule: E -> Rule<S>) {

    function Next(current: S, event: E): Option<S> {
      if event in events && current in rule(event).from then Some(rule(event).to) else None
    }

    /** Where a whole path of events leads, None if one of them does not apply. */
    function Replay(from: S, path: seq<E>): Option<S> {
      if path == [] then Some(from)
      else match Next(from, path[0])
        case None => None
        case Some(next) => Replay(next, path[1..])
    }

    ghost predicate Reaches(from: S, path: seq<E>, to: S) {
      Replay(from, path) == Some(to)
    }

    /** `path` is a shortest way from `from` to `to`. */
    ghost predicate Shortest(from: S, path: seq<E>, to: S) {
      && Reaches(from, path, to)
      && forall q :: Reaches(from, q, to) ==> |path| <= |q|
    }

    /** Every status that `n` events can lead to is in `seen`. */
    ghost predicate Within(from: S, n: nat, seen: set<S>) {
      forall q, x :: Reaches(from, q, x) && |q| <= n ==> x in seen
    }

    /** So far (the first `k` events) the successors of `x` are in `seen`. */
    ghost predicate ExpandedUpTo(x: S, k: nat, seen: set<S>)
      requires k <= |events|
    {
      forall j :: 0 <= j < k && Next(x, events[j]).Some? ==> Next(x, events[j]).value in seen
    }

    /** The successors of everything in `done` are in `seen`. */
    ghost predicate Expanded(done: set<S>, seen: set<S>) {
      forall x, e :: x in done && Next(x, e).Some? ==> Next(x, e).value in seen
    }
  }

  lemma {:induction false} ReplaySnoc<S(!new), E(!new)>(t: Table<S, E>, from: S, path: seq<E>, e: E)
    ensures t.Replay(from, path + [e]) ==
            match t.Replay(from, path) case None => None case Some(x) => t.Next(x, e)
  {
    if path == [] {
      assert [e][1..] == [];
    } else {
      assert (path + [e])[1..] == path[1..] + [e];
      if t.Next(from, path[0]).Some? {
        ReplaySnoc(t, t.Next(from, path[0]).value, path[1..], e);
      }
    }
  }

  lemma {:induction false} ReplayInClosedSet<S(!new), E(!new)>(t: Table<S, E>, from: S, path: seq<E>, seen: set<S>)
    requires from in seen && t.Expanded(seen, seen)
    ensures t.Replay(from, path).Some? ==> t.Replay(from, path).value in seen
  {
    if path != [] && t.Next(from, path[0]).Some? {
      ReplayInClosedSet(t, t.Next(from, path[0]).value, path[1..], seen);
    }
  }

  /** One breadth-first level further: once everything reached in `n` events has
      been expanded, everything reached in `n + 1` events has been seen. */
  lemma {:induction false} NextLevel<S(!new), E(!new)>(t: Table<S, E>, from: S, n: nat, done: set<S>, seen: set<S>)
    requires t.Within(from, n, seen)
    requires t.Expanded(done, seen)
    requires forall q, x :: t.Reaches(from, q, x) && |q| <= n ==> x in done
    ensures t.Within(from, n + 1, seen)
  {
    forall q, x | t.Reaches(from, q, x) && |q| <= n + 1
      ensures x in seen
    {
      if |q| == n + 1 {
        var p, e := q[..n], q[n];
        assert q == p + [e];
        ReplaySnoc(t, from, p, e);
        var y := t.Replay(from, p).value;
        assert t.Reaches(from, p, y);
      }
    }
  }

  datatype Visit<S, E> = Visit(status: S, path: seq<E>)

  /** The search frontier: `done` has been visited, `queue` is waiting (shallow
      first, at depth `level` or one more), and `seen` is the two together. */
  ghost predicate Frontier<S(!new), E(!new)>(t: Table<S, E>, from: S, queue: seq<Visit<S, E>>,
                                             seen: set<S>, done: set<S>, level: nat)
  {
    && from in seen
    && (forall v :: v in queue ==> v.status in seen && t.Shortest(from, v.path, v.status))
    && (forall v :: v in queue ==> level <= |v.path| <= level + 1)
    && (forall i, j :: 0 <= i < j < |queue| ==> |queue[i].path| <= |queue[j].path|)
    && done <= seen
    && (forall x :: x in seen && x !in done ==> exists v :: v in queue && v.status == x)
    && t.Within(from, level, seen)
  }

  lemma HeadIsNext<S(!new), E(!new)>(t: Table<S, E>, from: S, queue: seq<Visit<S, E>>, seen: set<S>, done: set<S>,
                                     level: nat)
    requires Frontier(t, from, queue, seen, done, level) && queue != []
    ensures t.Shortest(from, queue[0].path, queue[0].status) && level <= |queue[0].path| <= level + 1
  {
    assert queue[0] in queue;
  }

  /** When only deeper visits are left in the queue, the search is one level on. */
  lemma {:induction false} LevelUp<S(!new), E(!new)>(t: Table<S, E>, from: S, queue: seq<Visit<S, E>>,
                                                     seen: set<S>, done: set<S>, level: nat)
    requires Frontier(t, from, queue, seen, done, level) && t.Expanded(done, seen)
    requires queue != [] && |queue[0].path| == level + 1
    ensures Frontier(t, from, queue, seen, done, level + 1)
  {
    forall v | v in queue
      ensures level + 1 <= |v.path|
    {
      var i :| 0 <= i < |queue| && queue[i] == v;
      assert |queue[0].path| <= |queue[i].path|;
    }
    assert forall v, q :: v in queue && t.Reaches(from, q, v.status) ==> level < |q|;
    NextLevel(t, from, level, done, seen);
  }

  /** A status not seen yet joins the queue one event further than the visit. */
  lemma {:induction false} Discover<S(!new), E(!new)>(t: Table<S, E>, from: S, queue: seq<Visit<S, E>>,
                                                      seen: set<S>, done: set<S>, level: nat,
                                                      visit: Visit<S, E>, e: E, next: S)
    requires Frontier(t, from, queue, seen, done, level)
    requires t.Shortest(from, visit.path, visit.status) && |visit.path| == level
    requires t.Next(visit.status, e) == Some(next) && next !in seen
    ensures t.Shortest(from, visit.path + [e], next)
    ensures Frontier(t, from, queue + [Visit(next, visit.path + [e])], seen + {next}, done, level)
  {
    ReplaySnoc(t, from, visit.path, e);
    assert t.Reaches(from, visit.path + [e], next);
    var found := Visit(next, visit.path + [e]);
    var queue', seen' := queue + [found], seen + {next};
    forall x | x in seen' && x !in done
      ensures exists v :: v in queue' && v.status == x
    {
      if x == next {
        assert found in queue';
      } else {
        var v :| v in queue && v.status == x;
        assert v in queue';
      }
    }
  }

  /** The head of the queue moves from waiting to visited. */
  lemma {:induction false} Pop<S(!new), E(!new)>(t: Table<S, E>, from: S, queue: seq<Visit<S, E>>,
                                                 seen: set<S>, done: set<S>, level: nat)
    requires Frontier(t, from, queue, seen, done, level) && queue != []
    ensures Frontier(t, from, queue[1..], seen, done + {queue[0].status}, level)
  {
    var rest := queue[1..];
    assert queue == [queue[0]] + rest;
    forall x | x in seen && x !in done + {queue[0].status}
      ensures exists v :: v in rest && v.status == x
    {
      var v :| v in queue && v.status == x;
      assert v in rest;
    }
  }

  lemma ExpandNext<S(!new), E(!new)>(t: Table<S, E>, x: S, k: nat, seen: set<S>, seen': set<S>)
    requires k < |t.events| && t.ExpandedUpTo(x, k, seen) && seen <= seen'
    requires t.Next(x, t.events[k]).None? || t.Next(x, t.events[k]).value in seen'
    ensures t.ExpandedUpTo(x, k + 1, seen')
  {
  }

  lemma ExpandAll<S(!new), E(!new)>(t: Table<S, E>, x: S, done: set<S>, seen: set<S>)
    requires t.ExpandedUpTo(x, |t.events|, seen) && t.Expanded(done, seen)
    ensures t.Expanded(done + {x}, seen)
  {
  }

  /** An empty queue means that everything reachable has been seen. */
  lemma {:induction false} Exhausted<S(!new), E(!new)>(t: Table<S, E>, from: S, seen: set<S>, done: set<S>,
                                                       level: nat, to: S)
    requires Frontier(t, from, [], seen, done, level) && t.Expanded(done, seen) && to !in seen
    ensures forall q :: !t.Reaches(from, q, to)
  {
    assert seen == done;
    forall q
      ensures !t.Reaches(from, q, to)
    {
      ReplayInClosedSet(t, from, q, seen);
    }
  }

  lemma {:induction false} StartOf<S(!new), E(!new)>(t: Table<S, E>, from: S)
    ensures Frontier(t, from, [Visit(from, [])], {from}, {}, 0)
  {
    assert t.Reaches(from, [], from);
  }

  /** All the statuses there are to see. */
  lemma Universe<S(!new), E(!new)>(t: Table<S, E>, from: S) returns (universe: set<S>)
    ensures from in universe
    ensures forall x, e :: t.Next(x, e).Some? ==> t.Next(x, e).value in universe
  {
    universe := {from} + set e | e in t.events :: t.rule(e).to;
  }

  /** The events that take `from` to `to`, shortest path first: a breadth-first
      search over any finite table. Empty exactly when there is nothing to do
      (already there) or nothing that can be done (unreachable, a stale report). */
  method EventsToReach<S(==,!new), E(==,!new)>(t: Table<S, E>, from: S, to: S) returns (path: seq<E>)
    ensures path == [] <==> from == to || forall q :: !t.Reaches(from, q, to)
    ensures path != [] ==> t.Shortest(from, path, to)
  {
    if from == to {
      return [];
    }
    ghost var universe := Universe(t, from);
    var queue := [Visit(from, [])];
    var seen := {from};
    ghost var done: set<S> := {};
    ghost var level := 0;
    StartOf(t, from);
    while queue != []
      invariant Frontier(t, from, queue, seen, done, level) && t.Expanded(done, seen)
      invariant to !in seen && seen <= universe
      decreases universe - seen, |queue|
    {
      HeadIsNext(t, from, queue, seen, done, level);
      if |queue[0].path| != level {
        LevelUp(t, from, queue, seen, done, level);
        level := level + 1;
      }
      var visit := queue[0];
      ghost var seenBefore, waiting := seen, |queue|;
      Pop(t, from, queue, seen, done, level);
      queue := queue[1..];
      ghost var done' := done + {visit.status};
      for k := 0 to |t.events|
        invariant to !in seen && seenBefore <= seen <= universe
        invariant seen == seenBefore ==> |queue| < waiting
        invariant Frontier(t, from, queue, seen, done', level) && t.Expanded(done, seen)
        invariant t.ExpandedUpTo(visit.status, k, seen)
      {
        var event := t.events[k];
        var next := t.Next(visit.status, event);
        if next.None? || next.value in seen {
          ExpandNext(t, visit.status, k, seen, seen);
          continue;
        }
        Discover(t, from, queue, seen, done', level, visit, event, next.value);
        if next.value == to {
          return visit.path + [event];
        }
        ExpandNext(t, visit.status, k, seen, seen + {next.value});
        seen := seen + {next.value};
        queue := queue + [Visit(next.value, visit.path + [event])];
      }
      ExpandAll(t, visit.status, done, seen);
      done := done';
    }
    Exhausted(t, from, seen, done, level, to);
    return [];
  }

  datatype LegStatus = Requested | Assigned | PickedUp | Delivered | Returning | Returned | Cancelled

  datatype LegEvent =
    | CourierAssigned
    | CourierReleased
    | ParcelPickedUp
    | AttemptFailed
    | ParcelDelivered
    | ReturnStarted
    | ParcelReturned
    | LegCancelled

  predicate IsTerminal(status: LegStatus) {
    status !in [Requested, Assigned, PickedUp, Returning]
  }

  function RuleFor(event: LegEvent): Rule<LegStatus> {
    match event
    case CourierAssigned => Rule([Requested], Assigned)
    case CourierReleased => Rule([Assigned], Requested)
    case ParcelPickedUp => Rule([Assigned], PickedUp)
    case AttemptFailed => Rule([PickedUp], PickedUp)
    case ParcelDelivered => Rule([PickedUp], Delivered)
    case ReturnStarted => Rule([PickedUp], Returning)
    case ParcelReturned => Rule([Returning], Returned)
    case LegCancelled => Rule([Requested, Assigned], Cancelled)
  }

  const LEG_TABLE: Table<LegStatus, LegEvent> :=
    Table([CourierAssigned, CourierReleased, ParcelPickedUp, AttemptFailed,
           ParcelDelivered, ReturnStarted, ParcelReturned, LegCancelled], RuleFor)

  /** The status `event` moves a leg to, None if it does not apply from here. */
  function NextLegStatus(current: LegStatus, event: LegEvent): Option<LegStatus> {
    if current in RuleFor(event).from then Some(RuleFor(event).to) else None
  }

  /** What a leg has left to go through to get from `from` to `to`; [] when it is
      there already or `to` is out of reach. */
  function CatchUp(from: LegStatus, to: LegStatus): seq<LegEvent> {
    match (from, to)
    case (Requested, Assigned) => [CourierAssigned]
    case (Requested, PickedUp) => [CourierAssigned, ParcelPickedUp]
    case (Requested, Delivered) => [CourierAssigned, ParcelPickedUp, ParcelDelivered]
    case (Requested, Returning) => [CourierAssigned, ParcelPickedUp, ReturnStarted]
    case (Requested, Returned) => [CourierAssigned, ParcelPickedUp, ReturnStarted, ParcelReturned]
    case (Requested, Cancelled) => [LegCancelled]
    case (Assigned, Requested) => [CourierReleased]
    case (Assigned, PickedUp) => [ParcelPickedUp]
    case (Assigned, Delivered) => [ParcelPickedUp, ParcelDelivered]
    case (Assigned, Returning) => [ParcelPickedUp, ReturnStarted]
    case (Assigned, Returned) => [ParcelPickedUp, ReturnStarted, ParcelReturned]
    case (Assigned, Cancelled) => [LegCancelled]
    case (PickedUp, Delivered) => [ParcelDelivered]
    case (PickedUp, Returning) => [ReturnStarted]
    case (PickedUp, Returned) => [ReturnStarted, ParcelReturned]
    case (Returning, Returned) => [ParcelReturned]
    case _ => []
  }

  lemma NextIsTableNext(current: LegStatus, event: LegEvent)
    ensures LEG_TABLE.Next(current, event) == NextLegStatus(current, event)
  {
    assert event in LEG_TABLE.events;
  }

  /** One event cannot gain more than one step on CatchUp. */
  lemma CatchUpGainsOne(from: LegStatus, event: LegEvent, to: LegStatus)
    requires NextLegStatus(from, event).Some?
    ensures var next := NextLegStatus(from, event).value;
            next == to || CatchUp(next, to) != [] ==>
              && |CatchUp(from, to)| <= 1 + |CatchUp(next, to)|
              && (|CatchUp(from, to)| == 1 + |CatchUp(next, to)| ==> CatchUp(from, to) == [event] + CatchUp(next, to))
              && (from != to ==> CatchUp(from, to) != [])
  {
  }

  /** Any events that lead from one status to another are at least as many as
      CatchUp's, and are exactly CatchUp's when they are no more. */
  lemma {:induction false} CatchUpIsShortest(from: LegStatus, path: seq<LegEvent>, to: LegStatus)
    requires LEG_TABLE.Reaches(from, path, to)
    ensures |CatchUp(from, to)| <= |path|
    ensures |path| == |CatchUp(from, to)| ==> path == CatchUp(from, to)
    ensures from != to ==> CatchUp(from, to) != []
    decreases |path|
  {
    if path != [] {
      var next := LEG_TABLE.Next(from, path[0]).value;
      NextIsTableNext(from, path[0]);
      CatchUpIsShortest(next, path[1..], to);
      CatchUpGainsOne(from, path[0], to);
      assert path == [path[0]] + path[1..];
      hide CatchUp, NextLegStatus;
    }
  }

  /** The first of CatchUp's events applies, and the rest catch up from there. */
  lemma CatchUpUnfolds(from: LegStatus, to: LegStatus)
    requires CatchUp(from, to) != []
    ensures NextLegStatus(from, CatchUp(from, to)[0]).Some?
    ensures var next := NextLegStatus(from, CatchUp(from, to)[0]).value;
            CatchUp(from, to)[1..] == CatchUp(next, to) && (CatchUp(next, to) == [] <==> next == to)
  {
  }

  /** CatchUp's events, one after the other, do lead to where it says. */
  lemma {:induction false} CatchUpArrives(from: LegStatus, to: LegStatus)
    requires from == to || CatchUp(from, to) != []
    ensures LEG_TABLE.Reaches(from, CatchUp(from, to), to)
    decreases |CatchUp(from, to)|
  {
    if from != to {
      CatchUpUnfolds(from, to);
      var event := CatchUp(from, to)[0];
      NextIsTableNext(from, event);
      CatchUpArrives(NextLegStatus(from, event).value, to);
    }
  }

  /** On the leg table, the breadth-first search computes CatchUp. */
  method CatchUpEvents(from: LegStatus, to: LegStatus) returns (steps: seq<LegEvent>)
    ensures steps == CatchUp(from, to)
  {
    steps := EventsToReach(LEG_TABLE, from, to);
    if CatchUp(from, to) != [] {
      CatchUpArrives(from, to);
    }
    if steps != [] {
      CatchUpIsShortest(from, steps, to);
    }
  }
}
