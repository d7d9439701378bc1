/** The callback outbox: its table, the store's three operations on it, and the dispatcher. */
module Callbacks {
  import opened Contracts
  import opened Queries
  import Tables

  type EventId = string

  const MAX_POSTS := 8

  /** The `delivered` column: 0, 1 and -1. */
  datatype Delivery = Waiting | Delivered | Exhausted

  datatype EventRow = EventRow(delivery: Delivery, attempts: nat, nextRetryAt: Option<int>, createdAt: int)

  type Events = map<EventId, EventRow>

  predicate Postable(row: EventRow, t: int)
  {
    row.delivery.Waiting? && row.attempts < MAX_POSTS && (row.nextRetryAt.None? || row.nextRetryAt.value <= t)
  }

  /** INSERT OR IGNORE: a known event stays as it is. */
  function Enqueued(events: Events, event: EventId, t: int): Events
  {
    if event in events then events else events[event := EventRow(Waiting, 0, None, t)]
  }

  function MarkedRow(row: EventRow, delivered: bool, retryAt: Option<int>): EventRow
  {
    var exhausted := row.attempts + 1 >= MAX_POSTS && !delivered;
    row.(delivery := if delivered then Delivered else if exhausted then Exhausted else Waiting,
         attempts := row.attempts + 1,
         nextRetryAt := if exhausted then None else retryAt)
  }

  function Marked(events: Events, event: EventId, delivered: bool, retryAt: Option<int>): Events
  {
    if event in events then events[event := MarkedRow(events[event], delivered, retryAt)] else events
  }

  /** A batch of the due query: at most `limit` due events, oldest first, and all of them
      when they are fewer. */
  ghost predicate DueBatch(events: Events, limit: nat, t: int, batch: seq<EventId>)
  {
    && |batch| <= limit
    && (forall i :: 0 <= i < |batch| ==> batch[i] in events && Postable(events[batch[i]], t))
    && (forall i, j :: 0 <= i < j < |batch| ==>
          batch[i] != batch[j] && events[batch[i]].createdAt <= events[batch[j]].createdAt)
    && (forall event :: event in events && Postable(events[event], t) && event !in batch ==>
          |batch| == limit && forall i :: 0 <= i < |batch| ==> events[batch[i]].createdAt <= events[event].createdAt)
  }

  class CallbackStore {
    var events: Events

    constructor ()
      ensures events == map[]
    {
      events := map[];
    }

    method EnqueueCallback(event: EventId, t: int)
      modifies this
      ensures events == Enqueued(old(events), event, t)
    {
      if event !in events {
        events := events[event := EventRow(Waiting, 0, None, t)];
      }
    }

    method DueCallbacks(limit: nat, t: int) returns (batch: seq<EventId>)
      ensures DueBatch(events, limit, t, batch)
    {
      var items := set event | event in events
                               && events[event].delivery.Waiting? && events[event].attempts < 8
                               && (events[event].nextRetryAt.None? || events[event].nextRetryAt.value <= t);
      var rank: map<EventId, int> := map event | event in items :: 0 - events[event].createdAt;
      assert forall event :: event in items <==> event in events && Postable(events[event], t);
      var rows := Descending(items, rank);
      hide Falling, DueBatch, Postable;
      OldestFirst(events, limit, t, items, rank, rows);
      batch := if |rows| <= limit then rows else rows[..limit];
    }

    method MarkCallback(event: EventId, delivered: bool, retryAt: Option<int>)
      modifies this
      ensures events == Marked(old(events), event, delivered, retryAt)
    {
      if event in events {
        var row := events[event];
        var exhausted := row.attempts + 1 >= 8 && !delivered;
        var next := if retryAt.Some? && !exhausted then retryAt else None;
        events := events[event := row.(delivery := if delivered then Delivered else if exhausted then Exhausted else Waiting,
                                       attempts := row.attempts + 1, nextRetryAt := next)];
      }
    }
  }

  /** The first due events in the order of their creation are a batch. */
  lemma OldestFirst(events: Events, limit: nat, t: int, items: set<EventId>, rank: map<EventId, int>, rows: seq<EventId>)
    requires forall event :: event in items <==> event in events && Postable(events[event], t)
    requires forall event :: event in items ==> event in rank && event in events && rank[event] == 0 - events[event].createdAt
    requires Falling(items, rank, rows)
    ensures DueBatch(events, limit, t, if |rows| <= limit then rows else rows[..limit])
  {
    hide Postable;
    if |rows| > limit {
      var batch := rows[..limit];
      forall event | event in items && event !in batch
        ensures forall i :: 0 <= i < |batch| ==> events[batch[i]].createdAt <= events[event].createdAt
      {
        var n :| 0 <= n < |rows| && rows[n] == event;
        PrefixMember(rows, limit, n);
      }
    }
  }

  lemma PrefixMember<T>(rows: seq<T>, n: nat, i: nat)
    requires n <= |rows| && i < |rows|
    ensures rows[i] in rows[..n] || i >= n
  {
    if i < n {
      assert rows[..n][i] == rows[i];
    }
  }

  /** What a POST to the receiver comes to. */
  datatype Response = Status(code: int) | TransportError

  predicate Accepts(response: Response)
  {
    response.Status? && response.code in {200, 202, 204, 409}
  }

  class CallbackDispatcher {
    const store: CallbackStore
    const url: bool                       // whether a receiver is configured
    const answers: (nat, EventId) -> Response
    var posts: seq<EventId>

    constructor (store: CallbackStore, url: bool, answers: (nat, EventId) -> Response)
      ensures this.store == store && this.url == url && this.answers == answers && posts == []
    {
      this.store, this.url, this.answers, posts := store, url, answers, [];
    }

    /** One POST, and its mark whatever came of it. */
    method Dispatch(event: EventId, attempts: nat, t: int) returns (delivered: bool)
      modifies this, store
      ensures posts == old(posts) + if url then [event] else []
      ensures delivered <==> url && Accepts(answers(|old(posts)|, event))
      ensures store.events == Marked(old(store.events), event, delivered, NextTry(url, delivered, attempts, t))
      ensures event in old(store.events) && !delivered && old(store.events)[event].attempts < 7 ==>
        && store.events[event].delivery.Waiting?
        && store.events[event].nextRetryAt == Some(t + if url then Wait(attempts) else 60)
    {
      if !url {
        store.MarkCallback(event, false, Some(t + 60));
        return false;
      }
      var response := answers(|posts|, event);
      posts := posts + [event];
      delivered := response.Status? && (response.code == 200 || response.code == 202 || response.code == 204 || response.code == 409);
      var exponent := if attempts + 1 < 8 then attempts + 1 else 8;
      var wait := Tables.Power2(exponent);
      store.MarkCallback(event, delivered, if delivered then None else Some(t + if wait < 300 then wait else 300));

    }

    method EnqueueAndDispatch(event: EventId, t: int) returns (delivered: bool)
      modifies this, store
      ensures posts == old(posts) + if url then [event] else []
      ensures delivered <==> url && Accepts(answers(|old(posts)|, event))
      ensures store.events == Marked(Enqueued(old(store.events), event, t), event, delivered, NextTry(url, delivered, 0, t))
    {
      store.EnqueueCallback(event, t);
      delivered := Dispatch(event, 0, t);
    }

    /** Whether the dispatch that made the `n`-th POST delivered the event. */
    predicate DeliveredAt(n: nat, event: EventId)
    {
      url && Accepts(answers(n, event))
    }

    /** Every event of the due batch is dispatched once, in order, and marked with its own
        answer and the next try for its own attempts; no other event is touched. */
    method DispatchDue(t: int) returns (batch: seq<EventId>)
      modifies this, store
      ensures DueBatch(old(store.events), 20, t, batch)
      ensures posts == old(posts) + if url then batch else []
      ensures store.events.Keys == old(store.events).Keys
      ensures forall event :: event in old(store.events) && event !in batch ==> store.events[event] == old(store.events)[event]
      ensures forall i :: 0 <= i < |batch| ==>
        && batch[i] in old(store.events)
        && var row, delivered := old(store.events)[batch[i]], DeliveredAt(|old(posts)| + i, batch[i]);
           store.events[batch[i]] == MarkedRow(row, delivered, NextTry(url, delivered, row.attempts, t))
    {
      hide Marked, MarkedRow, NextTry, Accepts, DueBatch, Dispatched, DeliveredAt;
      batch := store.DueCallbacks(20, t);
      var selected := store.events;
      BatchKnown(selected, t, batch);
      ghost var sent := |posts|;
      ghost var results := seq(|batch|, i requires 0 <= i < |batch| && batch[i] in selected =>
        AfterDispatch(selected[batch[i]], sent + i, batch[i], t));
      NothingDispatched(selected, batch, results);
      var n := 0;
      while n < |batch|
        invariant 0 <= n <= |batch|
        invariant posts == old(posts) + if url then batch[..n] else []
        invariant Dispatched(selected, store.events, batch, n, results)
      {
        ghost var before := store.events;
        NextPost(old(posts), batch, n);
        var delivered := Dispatch(batch[n], selected[batch[n]].attempts, t);
        SentBy(sent + n, |old(posts) + if url then batch[..n] else []|, batch[n], delivered);
        AfterMark(selected, before, batch, n, results, delivered, t);
        OneMoreDispatched(selected, before, batch, n, results);
        n := n + 1;
      }
      assert batch[..n] == batch;
      AllDispatched(selected, store.events, batch, results);
    }

    lemma SentBy(n: nat, m: nat, event: EventId, delivered: bool)
      requires delivered <==> url && Accepts(answers(m, event))
      requires url ==> m == n
      ensures delivered == DeliveredAt(n, event)
    {
    }

    /** Marking the next event of the batch leaves its result. */
    lemma AfterMark(selected: Events, events: Events, batch: seq<EventId>, n: nat, results: seq<EventRow>, delivered: bool, t: int)
      requires n < |batch| == |results| && Dispatched(selected, events, batch, n, results) && batch[n] in selected
      requires forall i, j :: 0 <= i < j < |batch| ==> batch[i] != batch[j]
      requires var row := selected[batch[n]];
        results[n] == MarkedRow(row, delivered, NextTry(url, delivered, row.attempts, t))
      ensures Marked(events, batch[n], delivered, NextTry(url, delivered, selected[batch[n]].attempts, t)) == events[batch[n] := results[n]]
    {
      NextInBatch(batch, n);
      hide MarkedRow, NextTry;
    }

    /** An event's row after the dispatch that made the `n`-th POST. */
    function AfterDispatch(row: EventRow, n: nat, event: EventId, t: int): EventRow
    {
      var delivered := DeliveredAt(n, event);
      MarkedRow(row, delivered, NextTry(url, delivered, row.attempts, t))
    }
  }

  /** The first `n` events of the batch have their results, and nothing else changed. */
  ghost predicate Dispatched(selected: Events, events: Events, batch: seq<EventId>, n: nat, results: seq<EventRow>)
    requires n <= |batch| == |results|
  {
    && events.Keys == selected.Keys
    && (forall event :: event in selected && event !in batch[..n] ==> events[event] == selected[event])
    && forall i :: 0 <= i < n ==> batch[i] in selected && events[batch[i]] == results[i]
  }

  lemma NothingDispatched(selected: Events, batch: seq<EventId>, results: seq<EventRow>)
    requires |batch| == |results|
    ensures Dispatched(selected, selected, batch, 0, results)
  {
  }

  lemma OneMoreDispatched(selected: Events, events: Events, batch: seq<EventId>, n: nat, results: seq<EventRow>)
    requires n < |batch| == |results| && Dispatched(selected, events, batch, n, results) && batch[n] in selected
    requires forall i, j :: 0 <= i < j < |batch| ==> batch[i] != batch[j]
    ensures Dispatched(selected, events[batch[n] := results[n]], batch, n + 1, results)
  {
    NextInBatch(batch, n);
  }

  lemma AllDispatched(selected: Events, events: Events, batch: seq<EventId>, results: seq<EventRow>)
    requires |batch| == |results| && Dispatched(selected, events, batch, |batch|, results)
    ensures events.Keys == selected.Keys
    ensures forall event :: event in selected && event !in batch ==> events[event] == selected[event]
    ensures forall i :: 0 <= i < |batch| ==> batch[i] in selected && events[batch[i]] == results[i]
  {
    assert batch[..|batch|] == batch;
  }

  lemma NextPost(posts: seq<EventId>, batch: seq<EventId>, n: nat)
    requires n < |batch|
    ensures posts + batch[..n + 1] == posts + batch[..n] + [batch[n]] && |posts + batch[..n]| == |posts| + n
  {
  }

  lemma NextInBatch(batch: seq<EventId>, n: nat)
    requires n < |batch| && forall i, j :: 0 <= i < j < |batch| ==> batch[i] != batch[j]
    ensures batch[..n + 1] == batch[..n] + [batch[n]] && batch[n] !in batch[..n]
    ensures forall i :: 0 <= i < n ==> batch[i] in batch[..n] && batch[i] != batch[n]
  {
    forall i | 0 <= i < n
      ensures batch[i] in batch[..n]
    {
      assert batch[..n][i] == batch[i];
    }
  }

  lemma BatchKnown(events: Events, t: int, batch: seq<EventId>)
    requires DueBatch(events, 20, t, batch)
    ensures forall i :: 0 <= i < |batch| ==> batch[i] in events
    ensures forall i, j :: 0 <= i < j < |batch| ==> batch[i] != batch[j]
  {
  }

  /** When an event that was not delivered is due again. */
  function NextTry(url: bool, delivered: bool, attempts: nat, t: int): Option<int>
  {
    if delivered then None else Some(t + if url then Wait(attempts) else 60)
  }

  /** The schedule of tries: two seconds, doubled each time up to 256, that is on the eighth. */
  lemma WaitDoubles(attempts: nat)
    ensures Wait(0) == 2
    ensures Wait(attempts + 1) == if attempts < 7 then 2 * Wait(attempts) else 256
  {
    Powers();
  }

  lemma Powers()
    ensures Tables.Power2(1) == 2 && Tables.Power2(2) == 4 && Tables.Power2(3) == 8 && Tables.Power2(4) == 16
    ensures Tables.Power2(5) == 32 && Tables.Power2(6) == 64 && Tables.Power2(7) == 128 && Tables.Power2(8) == 256
  {
    assert Tables.Power2(2) == 4;
    assert Tables.Power2(4) == 16;
    assert Tables.Power2(6) == 64;
  }

  /** Seconds to the next try. */
  function Wait(attempts: nat): (seconds: nat)
    ensures 2 <= seconds <= 300
    ensures seconds == 256 <==> attempts >= 7
  {
    var exponent := if attempts + 1 <= 8 then attempts + 1 else 8;
    assert Tables.Power2(4) == 16 && Tables.Power2(8) == 256;
    var wait := Tables.Power2(exponent);
    if wait <= 300 then wait else 300
  }
}
