/** An order's statuses, the graph it moves in, its event log, and what the
    public tracking page makes of both. */
module OrderRules {
  import opened Wrappers

  datatype OrderStatus =
    | AwaitingDropOff
    | ReceivedAtOrigin
    | RiderAssigned
    | InTransit
    | ArrivedAtDestination
    | ReadyForCollection
    | Completed
    | ReturnInitiated
    | ReturnInTransit
    | ReturnedToOrigin
    | ReadyForSenderCollection
    | ReturnCompleted
    | OrderCancelled
    | Disputed

  datatype OrderEvent =
    | LogPlaced
    | LogReceived
    | LogRiderAssigned
    | LogCourierReleased
    | LogPickedUp
    | LogArrived
    | LogReady
    | LogCollected
    | LogReturnInitiated
    | LogReturnInTransit
    | LogReturned
    | LogReadyForSender
    | LogCollectedBySender

  /** The order graph, one row per status. */
  function NextStatuses(from: OrderStatus): seq<OrderStatus> {
    match from
    case AwaitingDropOff => [ReceivedAtOrigin]
    case ReceivedAtOrigin => [RiderAssigned]
    case RiderAssigned => [InTransit, ReceivedAtOrigin]
    case InTransit => [ArrivedAtDestination, ReturnInitiated]
    case ArrivedAtDestination => [ReadyForCollection]
    case ReadyForCollection => [Completed]
    case ReturnInitiated => [ReturnInTransit]
    case ReturnInTransit => [ReturnedToOrigin]
    case ReturnedToOrigin => [ReadyForSenderCollection]
    case ReadyForSenderCollection => [ReturnCompleted]
    case _ => []
  }

  predicate LegalTransition(from: OrderStatus, to: OrderStatus) {
    to in NextStatuses(from)
  }

  /** The status that an event in the log says the order has entered. */
  function EnteredBy(event: OrderEvent): OrderStatus {
    match event
    case LogPlaced => AwaitingDropOff
    case LogReceived => ReceivedAtOrigin
    case LogRiderAssigned => RiderAssigned
    case LogCourierReleased => ReceivedAtOrigin
    case LogPickedUp => InTransit
    case LogArrived => ArrivedAtDestination
    case LogReady => ReadyForCollection
    case LogCollected => Completed
    case LogReturnInitiated => ReturnInitiated
    case LogReturnInTransit => ReturnInTransit
    case LogReturned => ReturnedToOrigin
    case LogReadyForSender => ReadyForSenderCollection
    case LogCollectedBySender => ReturnCompleted
  }

  /** The status an order must be in for the event to be logged; LogPlaced starts
      the log instead. */
  function LeftBy(event: OrderEvent): Option<OrderStatus> {
    match event
    case LogPlaced => None
    case LogReceived => Some(AwaitingDropOff)
    case LogRiderAssigned => Some(ReceivedAtOrigin)
    case LogCourierReleased => Some(RiderAssigned)
    case LogPickedUp => Some(RiderAssigned)
    case LogArrived => Some(InTransit)
    case LogReady => Some(ArrivedAtDestination)
    case LogCollected => Some(ReadyForCollection)
    case LogReturnInitiated => Some(InTransit)
    case LogReturnInTransit => Some(ReturnInitiated)
    case LogReturned => Some(ReturnInTransit)
    case LogReadyForSender => Some(ReturnedToOrigin)
    case LogCollectedBySender => Some(ReadyForSenderCollection)
  }

  /** Replays a log in append order: the status it ends at, None unless it starts
      with the order being placed and every event leaves the status the one before
      it entered, along an edge of the order graph. */
  function ReplayLog(log: seq<OrderEvent>): Option<OrderStatus> {
    if log == [] then None
    else if |log| == 1 then (if log[0] == LogPlaced then Some(AwaitingDropOff) else None)
    else
      var last := log[|log| - 1];
      match ReplayLog(log[..|log| - 1])
      case None => None
      case Some(from) =>
        if LeftBy(last) == Some(from) && LegalTransition(from, EnteredBy(last)) then Some(EnteredBy(last)) else None
  }

  datatype PublicStatus =
    | PublicAwaitingDropOff
    | PublicAtOrigin
    | PublicOnTheWay
    | PublicArrived
    | PublicReady
    | PublicCollected
    | PublicReturning
    | PublicReturned
    | PublicReturnCompleted
    | PublicOrderPlaced // a timeline entry only

  function ToPublicStatus(status: OrderStatus): Option<PublicStatus> {
    match status
    case AwaitingDropOff => Some(PublicAwaitingDropOff)
    case ReceivedAtOrigin => Some(PublicAtOrigin)
    case RiderAssigned => Some(PublicAtOrigin)
    case InTransit => Some(PublicOnTheWay)
    case ArrivedAtDestination => Some(PublicArrived)
    case ReadyForCollection => Some(PublicReady)
    case Completed => Some(PublicCollected)
    case ReturnInitiated => Some(PublicReturning)
    case ReturnInTransit => Some(PublicReturning)
    case ReturnedToOrigin => Some(PublicReturned)
    case ReadyForSenderCollection => Some(PublicReturned)
    case ReturnCompleted => Some(PublicReturnCompleted)
    case OrderCancelled => None
    case Disputed => None
  }

  /** The public timeline entry of a logged event; courier releases have none. */
  function TimelineEntryFor(event: OrderEvent): Option<PublicStatus> {
    match event
    case LogPlaced => Some(PublicOrderPlaced)
    case LogReceived => Some(PublicAtOrigin)
    case LogRiderAssigned => Some(PublicAtOrigin)
    case LogCourierReleased => None
    case LogPickedUp => Some(PublicOnTheWay)
    case LogArrived => Some(PublicArrived)
    case LogReady => Some(PublicReady)
    case LogCollected => Some(PublicCollected)
    case LogReturnInitiated => Some(PublicReturning)
    case LogReturnInTransit => Some(PublicReturning)
    case LogReturned => Some(PublicReturned)
    case LogReadyForSender => Some(PublicReturned)
    case LogCollectedBySender => Some(PublicReturnCompleted)
  }

  /** The public timeline: the log in order, events without an entry left out. */
  function Timeline(log: seq<OrderEvent>): seq<PublicStatus> {
    if log == [] then []
    else
      (match TimelineEntryFor(log[0]) case Some(entry) => [entry] case None => [])
      + Timeline(log[1..])
  }

  /** How an order's current status shows up as a timeline entry. */
  function AsEntry(status: OrderStatus): Option<PublicStatus> {
    if status == AwaitingDropOff then Some(PublicOrderPlaced) else ToPublicStatus(status)
  }

  lemma ReplayAppend(log: seq<OrderEvent>, event: OrderEvent)
    requires ReplayLog(log).Some? && LeftBy(event) == ReplayLog(log)
    requires LegalTransition(ReplayLog(log).value, EnteredBy(event))
    ensures ReplayLog(log + [event]) == Some(EnteredBy(event))
  {
    assert (log + [event])[..|log|] == log;
  }

  lemma {:induction false} TimelineAppend(log: seq<OrderEvent>, event: OrderEvent)
    ensures Timeline(log + [event]) ==
            Timeline(log) + (match TimelineEntryFor(event) case Some(entry) => [entry] case None => [])
  {
    if log != [] {
      assert (log + [event])[1..] == log[1..] + [event];
      TimelineAppend(log[1..], event);
    }
  }

  /** An event's entry, if it has one, says what the status it enters does; an event without
      one enters a status that says the same as the one it leaves. */
  lemma EntrySaysStatus(event: OrderEvent)
    requires LeftBy(event).Some?
    ensures match TimelineEntryFor(event)
            case Some(entry) => AsEntry(EnteredBy(event)) == Some(entry)
            case None => AsEntry(EnteredBy(event)) == AsEntry(LeftBy(event).value)
  {
  }

  /** Whatever happened to the order, courier releases included, the last entry of
      its public timeline says what its current status says. */
  lemma {:induction false} TimelineEndsAtStatus(log: seq<OrderEvent>)
    requires ReplayLog(log).Some?
    ensures Timeline(log) != []
    ensures Some(Timeline(log)[|Timeline(log)| - 1]) == AsEntry(ReplayLog(log).value)
  {
    var before, last := log[..|log| - 1], log[|log| - 1];
    assert log == before + [last];
    if before == [] {
      assert Timeline(before) == [] && last == LogPlaced;
    } else {
      assert LeftBy(last) == ReplayLog(before) && ReplayLog(log) == Some(EnteredBy(last));
      hide ReplayLog, TimelineEntryFor, AsEntry, EnteredBy, LeftBy, LegalTransition;
      TimelineEndsAtStatus(before);
      EntrySaysStatus(last);
    }
    hide TimelineEntryFor;
    TimelineAppend(before, last);
  }

  /** The status a log replays to is the one its last event entered. */
  lemma ReplayIsLastEntered(log: seq<OrderEvent>)
    requires ReplayLog(log).Some?
    ensures ReplayLog(log).value == EnteredBy(log[|log| - 1])
  {
  }

  /** A legal log that holds one of these events has come that far, and only then does it
      hold them: no counter step is ever behind an order that has been through it. */
  lemma {:induction false} LogSaysHowFar(log: seq<OrderEvent>)
    requires ReplayLog(log).Some?
    ensures var status := ReplayLog(log).value;
            && (LogReceived in log <==> status != AwaitingDropOff)
            && (LogReady in log <==> status in {ReadyForCollection, Completed})
            && (LogCollected in log <==> status == Completed)
            && (LogReadyForSender in log <==> status in {ReadyForSenderCollection, ReturnCompleted})
            && (LogCollectedBySender in log <==> status == ReturnCompleted)
  {
    if |log| > 1 {
      LogSaysHowFar(log[..|log| - 1]);
      assert log == log[..|log| - 1] + [log[|log| - 1]];
    }
  }

  /** The events that the public timeline shows: all but a courier's release. */
  function Shown(log: seq<OrderEvent>): seq<OrderEvent> {
    if log == [] then [] else (if log[0] == LogCourierReleased then [] else [log[0]]) + Shown(log[1..])
  }

  /** Line by line the timeline says what the status was after each event shown. */
  lemma {:induction false} TimelineLineByLine(log: seq<OrderEvent>)
    ensures |Timeline(log)| == |Shown(log)|
    ensures forall k :: 0 <= k < |Shown(log)| ==> Some(Timeline(log)[k]) == AsEntry(EnteredBy(Shown(log)[k]))
  {
    if log != [] {
      TimelineLineByLine(log[1..]);
      EntryIsStatus(log[0]);
      hide TimelineEntryFor, AsEntry, EnteredBy;
    }
  }

  lemma EntryIsStatus(event: OrderEvent)
    ensures TimelineEntryFor(event) == if event == LogCourierReleased then None else AsEntry(EnteredBy(event))
    ensures TimelineEntryFor(event).None? <==> event == LogCourierReleased
  {
  }

  /** The order graph has exactly the edges that some event takes. */
  lemma EdgesAreEvents(from: OrderStatus, to: OrderStatus)
    ensures LegalTransition(from, to) <==> exists event :: LeftBy(event) == Some(from) && EnteredBy(event) == to
  {
    if LegalTransition(from, to) {
      var event := match (from, to)
        case (AwaitingDropOff, _) => LogReceived
        case (ReceivedAtOrigin, _) => LogRiderAssigned
        case (RiderAssigned, InTransit) => LogPickedUp
        case (RiderAssigned, _) => LogCourierReleased
        case (InTransit, ArrivedAtDestination) => LogArrived
        case (InTransit, _) => LogReturnInitiated
        case (ArrivedAtDestination, _) => LogReady
        case (ReadyForCollection, _) => LogCollected
        case (ReturnInitiated, _) => LogReturnInTransit
        case (ReturnInTransit, _) => LogReturned
        case (ReturnedToOrigin, _) => LogReadyForSender
        case (_, _) => LogCollectedBySender;
      assert LeftBy(event) == Some(from) && EnteredBy(event) == to;
    }
  }
}
