/** The outbox under overlapping dispatchers: any number of submissions dispatch the event
    they enqueued while the one worker posts a due batch, and answers arrive in any order. */
module DeliveryRuns {
  import opened Contracts
  import opened Callbacks

  type DispatchId = nat

  /** A POST without its answer. */
  datatype Flight = Flight(event: EventId, due: bool)

  datatype Entry = Posted(event: EventId, due: bool) | Answered(event: EventId, accepted: bool) | Restarted

  datatype Outbox = Outbox(
    events: Events,
    flights: map<DispatchId, Flight>,
    batch: seq<EventId>,                 // what the worker still has to post
    log: seq<Entry>)

  datatype Act =
    | Enqueue(id: DispatchId, event: EventId, now: int)
    | Select(now: int, batch: seq<EventId>)
    | PostDue(id: DispatchId)
    | Answer(id: DispatchId, accepted: bool, retryAt: Option<int>)
    | Restart

  /** The worker waits for an answer. */
  predicate Posting(s: Outbox)
  {
    exists id | id in s.flights :: s.flights[id].due
  }

  ghost predicate Step(s: Outbox, a: Act, s': Outbox)
  {
    match a
    case Enqueue(id, event, now) =>
      && id !in s.flights
      && s' == s.(events := Enqueued(s.events, event, now), flights := s.flights[id := Flight(event, false)],
                  log := s.log + [Posted(event, false)])
    case Select(now, batch) =>
      && s.batch == [] && !Posting(s) && DueBatch(s.events, 20, now, batch)
      && s' == s.(batch := batch)
    case PostDue(id) =>
      && id !in s.flights && s.batch != [] && !Posting(s)
      && s' == s.(flights := s.flights[id := Flight(s.batch[0], true)], batch := s.batch[1..],
                  log := s.log + [Posted(s.batch[0], true)])
    case Answer(id, accepted, retryAt) =>
      && id in s.flights
      && s' == s.(events := Marked(s.events, s.flights[id].event, accepted, retryAt), flights := s.flights - {id},
                  log := s.log + [Answered(s.flights[id].event, accepted)])
    case Restart =>
      s' == s.(flights := map[], batch := [], log := s.log + [Restarted])
  }

  datatype Run = Run(states: seq<Outbox>, acts: seq<Act>)

  ghost predicate IsRun(run: Run)
  {
    && |run.states| == |run.acts| + 1
    && run.states[0] == Outbox(map[], map[], [], [])
    && forall i :: 0 <= i < |run.acts| ==> Step(run.states[i], run.acts[i], run.states[i + 1])
  }

  // ---------------------------------------------------------------- counting

  function Posts(log: seq<Entry>, event: EventId, due: bool): nat
  {
    if log == [] then 0
    else Posts(log[..|log| - 1], event, due) + if log[|log| - 1] == Posted(event, due) then 1 else 0
  }

  function Restarts(log: seq<Entry>): nat
  {
    if log == [] then 0
    else Restarts(log[..|log| - 1]) + if log[|log| - 1].Restarted? then 1 else 0
  }

  lemma CountEntry(log: seq<Entry>, entry: Entry)
    ensures forall event, due ::
      Posts(log + [entry], event, due) == Posts(log, event, due) + (if entry == Posted(event, due) then 1 else 0)
    ensures Restarts(log + [entry]) == Restarts(log) + if entry.Restarted? then 1 else 0
  {
    assert (log + [entry])[..|log|] == log;
  }

  predicate InFlight(flights: map<DispatchId, Flight>, event: EventId)
  {
    exists id | id in flights :: flights[id] == Flight(event, true)
  }

  function Attempts(events: Events, event: EventId): nat
  {
    if event in events then events[event].attempts else 0
  }

  // ---------------------------------------------------------------- the invariant

  /** A waiting event has tries left; a delivered one was accepted. */
  ghost predicate RowsOk(events: Events, log: seq<Entry>)
  {
    forall event :: event in events ==>
      && (events[event].delivery.Waiting? ==> events[event].attempts < MAX_POSTS)
      && (events[event].delivery.Exhausted? ==> events[event].attempts >= MAX_POSTS)
      && (events[event].delivery.Delivered? ==> Answered(event, true) in log)
  }

  ghost predicate OneWorker(flights: map<DispatchId, Flight>)
  {
    forall a, b :: a in flights && b in flights && flights[a].due && flights[b].due ==> a == b
  }

  ghost predicate BatchOk(s: Outbox)
  {
    && (forall i, j :: 0 <= i < j < |s.batch| ==> s.batch[i] != s.batch[j])
    && forall event :: event in s.batch ==>
         !InFlight(s.flights, event) && Posts(s.log, event, true) < MAX_POSTS + Restarts(s.log)
  }

  /** The worker's posts of an event are paid for by attempts, restarts and the answer due. */
  ghost predicate PostsPaid(s: Outbox)
  {
    forall event ::
      && Posts(s.log, event, true) <= Attempts(s.events, event) + Restarts(s.log) + (if InFlight(s.flights, event) then 1 else 0)
      && Posts(s.log, event, true) <= MAX_POSTS + Restarts(s.log)
  }

  ghost predicate FlightsKnown(s: Outbox)
  {
    && (forall id :: id in s.flights ==> s.flights[id].event in s.events)
    && (forall event :: event in s.batch ==> event in s.events)
  }

  ghost predicate OutboxOk(s: Outbox)
  {
    RowsOk(s.events, s.log) && OneWorker(s.flights) && BatchOk(s) && PostsPaid(s) && FlightsKnown(s)
  }

  lemma EnqueueKeeps(s: Outbox, a: Act, s': Outbox)
    requires OutboxOk(s) && Step(s, a, s') && a.Enqueue?
    ensures OutboxOk(s')
  {
    CountEntry(s.log, Posted(a.event, false));
    TakeOff(s.flights, a.id, Flight(a.event, false));
    hide InFlight, Posts, Restarts;
    RowsEnqueued(s.events, s.log, a.event, a.now, Posted(a.event, false));
    hide RowsOk, Enqueued;
    FlightsEnqueued(s, a, s');
    hide FlightsKnown, OneWorker;
    PostsEnqueued(s, a, s');
  }

  lemma RowsEnqueued(events: Events, log: seq<Entry>, event: EventId, now: int, entry: Entry)
    requires RowsOk(events, log)
    ensures RowsOk(Enqueued(events, event, now), log + [entry])
    ensures forall o :: Attempts(Enqueued(events, event, now), o) == Attempts(events, o)
    ensures events.Keys <= Enqueued(events, event, now).Keys && event in Enqueued(events, event, now)
  {
  }

  lemma FlightsEnqueued(s: Outbox, a: Act, s': Outbox)
    requires FlightsKnown(s) && OneWorker(s.flights) && Step(s, a, s') && a.Enqueue?
    requires s.events.Keys <= s'.events.Keys && a.event in s'.events
    ensures FlightsKnown(s') && OneWorker(s'.flights)
  {
  }

  lemma PostsEnqueued(s: Outbox, a: Act, s': Outbox)
    requires PostsPaid(s) && BatchOk(s) && Step(s, a, s') && a.Enqueue?
    requires forall o :: Attempts(s'.events, o) == Attempts(s.events, o)
    requires forall o :: InFlight(s'.flights, o) <==> InFlight(s.flights, o)
    requires forall o :: Posts(s'.log, o, true) == Posts(s.log, o, true)
    requires Restarts(s'.log) == Restarts(s.log)
    ensures PostsPaid(s') && BatchOk(s')
  {
    hide InFlight, Posts, Restarts, Attempts, Enqueued;
  }

  lemma TakeOff(flights: map<DispatchId, Flight>, id: DispatchId, flight: Flight)
    requires id !in flights && !flight.due
    ensures forall o :: InFlight(flights[id := flight], o) <==> InFlight(flights, o)
  {
    forall o | InFlight(flights, o)
      ensures InFlight(flights[id := flight], o)
    {
      var k :| k in flights && flights[k] == Flight(o, true);
      assert flights[id := flight][k] == Flight(o, true);
    }
    forall o | InFlight(flights[id := flight], o)
      ensures InFlight(flights, o)
    {
      var k :| k in flights[id := flight] && flights[id := flight][k] == Flight(o, true);
      assert flights[k] == Flight(o, true);
    }
  }

  lemma SelectKeeps(s: Outbox, a: Act, s': Outbox)
    requires OutboxOk(s) && Step(s, a, s') && a.Select?
    ensures OutboxOk(s')
  {
    forall event | event in s'.batch
      ensures !InFlight(s.flights, event) && Posts(s.log, event, true) < MAX_POSTS + Restarts(s.log)
    {
      assert event in s.events && s.events[event].attempts < MAX_POSTS;
    }
  }

  lemma PostKeeps(s: Outbox, a: Act, s': Outbox)
    requires OutboxOk(s) && Step(s, a, s') && a.PostDue?
    ensures OutboxOk(s')
  {
    var posted := s.batch[0];
    CountEntry(s.log, Posted(posted, true));
    assert posted in s.batch && posted !in s'.batch;
    assert s'.flights[a.id] == Flight(posted, true);
    assert InFlight(s'.flights, posted);
    forall event
      ensures !InFlight(s.flights, event) && (InFlight(s'.flights, event) <==> event == posted)
    {
    }
    forall event | event in s'.batch
      ensures event in s.batch
    {
    }
  }

  lemma AnswerKeeps(s: Outbox, a: Act, s': Outbox)
    requires OutboxOk(s) && Step(s, a, s') && a.Answer?
    ensures OutboxOk(s')
  {
    var event := s.flights[a.id].event;
    CountEntry(s.log, Answered(event, a.accepted));
    LandOne(s.flights, a.id);
  }

  lemma LandOne(flights: map<DispatchId, Flight>, id: DispatchId)
    requires id in flights
    ensures forall o :: InFlight(flights - {id}, o) ==> InFlight(flights, o)
    ensures forall o :: InFlight(flights, o) && flights[id] != Flight(o, true) ==> InFlight(flights - {id}, o)
  {
    forall o | InFlight(flights - {id}, o)
      ensures InFlight(flights, o)
    {
      var k :| k in flights - {id} && (flights - {id})[k] == Flight(o, true);
      assert flights[k] == Flight(o, true);
    }
    forall o | InFlight(flights, o) && flights[id] != Flight(o, true)
      ensures InFlight(flights - {id}, o)
    {
      var k :| k in flights && flights[k] == Flight(o, true);
      assert k in flights - {id};
    }
  }

  lemma RestartKeeps(s: Outbox, a: Act, s': Outbox)
    requires OutboxOk(s) && Step(s, a, s') && a.Restart?
    ensures OutboxOk(s')
  {
    CountEntry(s.log, Restarted);
  }

  lemma {:induction false} RunsKeepOutbox(run: Run, n: nat)
    requires IsRun(run) && n < |run.states|
    ensures OutboxOk(run.states[n])
  {
    if n > 0 {
      RunsKeepOutbox(run, n - 1);
      var s, a, s' := run.states[n - 1], run.acts[n - 1], run.states[n];
      assert Step(s, a, s');
      hide OutboxOk, Step;
      match a {
        case Enqueue(_, _, _) => EnqueueKeeps(s, a, s');
        case Select(_, _) => SelectKeeps(s, a, s');
        case PostDue(_) => PostKeeps(s, a, s');
        case Answer(_, _, _) => AnswerKeeps(s, a, s');
        case Restart => RestartKeeps(s, a, s');
      }
    }
  }

  // ---------------------------------------------------------------- what every run keeps

  /** However dispatchers overlap: a waiting event has tries left, a delivered one was
      accepted by the receiver, and the worker posts an event at most eight times, plus
      once for every restart that lost an answer. */
  lemma DeliveryIsBounded(run: Run, n: nat, event: EventId)
    requires IsRun(run) && n < |run.states|
    ensures var s := run.states[n];
      && (event in s.events && s.events[event].delivery.Waiting? ==> s.events[event].attempts < MAX_POSTS)
      && (event in s.events && s.events[event].delivery.Delivered? ==> Answered(event, true) in s.log)
      && Posts(s.log, event, true) <= MAX_POSTS + Restarts(s.log)
      && (Posts(s.log, event, false) <= 1 && Restarts(s.log) == 0 ==>
            Posts(s.log, event, true) + Posts(s.log, event, false) <= MAX_POSTS + 1)
  {
    RunsKeepOutbox(run, n);
  }

  /** An accepted event stays delivered, except that a refused answer to another POST of it
      that was still in flight takes that back. */
  lemma DeliveredIsFinal(s: Outbox, a: Act, s': Outbox, event: EventId)
    requires OutboxOk(s) && Step(s, a, s') && event in s.events && s.events[event].delivery.Delivered?
    ensures s'.events[event].delivery.Delivered? <==>
              !(a.Answer? && s.flights[a.id].event == event && !a.accepted)
  {
  }

  /** Nobody posts a delivered event again but a caller that enqueues it again, or a worker
      that selected it before. */
  lemma DeliveredIsNotPosted(s: Outbox, a: Act, s': Outbox, event: EventId)
    requires OutboxOk(s) && Step(s, a, s') && event in s.events && !s.events[event].delivery.Waiting?
    requires event !in s.batch && !(a.Enqueue? && a.event == event)
    ensures event !in s'.batch
    ensures Posts(s'.log, event, true) == Posts(s.log, event, true)
    ensures Posts(s'.log, event, false) == Posts(s.log, event, false)
    ensures !(exists id :: id in s.flights && s.flights[id].event == event) ==>
              s'.events[event] == s.events[event] && !(exists id :: id in s'.flights && s'.flights[id].event == event)
  {
    match a {
      case Enqueue(_, other, _) => CountEntry(s.log, Posted(other, false));
      case PostDue(_) => CountEntry(s.log, Posted(s.batch[0], true));
      case Answer(id, accepted, _) => CountEntry(s.log, Answered(s.flights[id].event, accepted));
      case Restart => CountEntry(s.log, Restarted);
      case Select(_, _) =>
    }
  }

  // ---------------------------------------------------------------- a delivery taken back

  const ROW := EventRow(Waiting, 0, None, 0)

  const POSTED := [Posted("event", false), Posted("event", true)]

  /** A submission's POST is still in flight when the worker posts the same event, and each
      gets its answer. */
  function Overlap(n: nat): Outbox
  {
    if n == 0 then Outbox(map[], map[], [], [])
    else if n == 1 then Outbox(map["event" := ROW], map[0 := Flight("event", false)], [], POSTED[..1])
    else if n == 2 then Outbox(map["event" := ROW], map[0 := Flight("event", false)], ["event"], POSTED[..1])
    else if n == 3 then
      Outbox(map["event" := ROW], map[0 := Flight("event", false), 1 := Flight("event", true)], [], POSTED)
    else if n == 4 then
      Outbox(map["event" := MarkedRow(ROW, true, None)], map[0 := Flight("event", false)], [], POSTED + [Answered("event", true)])
    else
      Outbox(map["event" := MarkedRow(MarkedRow(ROW, true, None), false, None)], map[], [],
             POSTED + [Answered("event", true)] + [Answered("event", false)])
  }

  lemma OverlapPosts()
    ensures Step(Overlap(0), Enqueue(0, "event", 0), Overlap(1))
    ensures Step(Overlap(1), Select(0, ["event"]), Overlap(2))
    ensures Step(Overlap(2), PostDue(1), Overlap(3))
  {
    assert Overlap(2).batch[1..] == [];
    assert POSTED == POSTED[..1] + [POSTED[1]];
  }

  lemma OverlapAnswers()
    ensures Step(Overlap(3), Answer(1, true, None), Overlap(4))
    ensures Step(Overlap(4), Answer(0, false, None), Overlap(5))
  {
    assert Overlap(3).flights - {1} == Overlap(4).flights;
    assert Overlap(4).flights - {0} == Overlap(5).flights;
  }

  /** The worker's POST is accepted first; the refused answer to the submission's own POST then
      takes the delivery back. */
  lemma DeliveryIsTakenBack() returns (run: Run)
    ensures IsRun(run) && |run.states| == 6
    ensures "event" in run.states[4].events && run.states[4].events["event"].delivery.Delivered?
    ensures "event" in run.states[5].events && run.states[5].events["event"].delivery.Waiting?
    ensures Answered("event", true) in run.states[5].log
  {
    OverlapPosts();
    OverlapAnswers();
    assert Overlap(5).log[2] == Answered("event", true);
    hide Step;
    run := Run([Overlap(0), Overlap(1), Overlap(2), Overlap(3), Overlap(4), Overlap(5)],
               [Enqueue(0, "event", 0), Select(0, ["event"]), PostDue(1), Answer(1, true, None), Answer(0, false, None)]);
  }
}
