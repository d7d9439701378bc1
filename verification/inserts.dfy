/** Inserting the steps of a request one by one, up to the first refusal. */
module Inserts {
  import opened Contracts
  import opened Tables
  import opened Frontier
  import opened Queries

  /** The step table's constraints: identifier, idempotency key, place in the request. */
  predicate Clashes(held: Command, command: Command)
  {
    held.key == command.key || (held.request == command.request && held.sequence == command.sequence)
  }

  predicate Accepts(steps: Steps, command: Command)
  {
    command.stepId !in steps && forall s | s in steps :: !Clashes(steps[s].command, command)
  }

  /** `queue` is `commands` in the order `order`. */
  ghost predicate Ordered(commands: seq<Command>, order: seq<int>, queue: seq<Command>)
  {
    && |queue| == |order|
    && (forall n :: 0 <= n < |order| ==> 0 <= order[n] < |commands| && queue[n] == commands[order[n]])
    && (forall i :: 0 <= i < |commands| ==> i in order)
    && (forall m, n :: 0 <= m < n < |order| ==> order[m] != order[n])
  }

  lemma FallingOrdered(commands: seq<Command>, rank: map<int, int>, order: seq<int>, queue: seq<Command>)
    requires rank.Keys == (set i | i in rank && 0 <= i < |commands|) && Falling(rank.Keys, rank, order)
    requires forall i :: 0 <= i < |commands| ==> i in rank
    requires |queue| == |order| && forall n :: 0 <= n < |order| ==> 0 <= order[n] < |commands| && queue[n] == commands[order[n]]
    ensures Ordered(commands, order, queue)
  {
  }

  lemma NothingInserted(steps: Steps, none: seq<Command>, t: Time)
    requires none == []
    ensures InsertRows(steps, none, t) == steps && Unclashing(steps, none)
  {
  }

  lemma PlaceOf(commands: seq<Command>, order: seq<int>, queue: seq<Command>, i: nat) returns (n: nat)
    requires Ordered(commands, order, queue) && i < |commands|
    ensures n < |queue| && order[n] == i && queue[n] == commands[i]
  {
    assert i in order;
    n :| 0 <= n < |order| && order[n] == i;
  }

  lemma OrderedUnclashing(steps: Steps, commands: seq<Command>, order: seq<int>, queue: seq<Command>)
    requires Ordered(commands, order, queue)
    ensures Unclashing(steps, queue) <==> Unclashing(steps, commands)
  {
    if Unclashing(steps, queue) {
      forall i | 0 <= i < |commands|
        ensures commands[i].stepId !in steps
        ensures forall s :: s in steps ==> steps[s].command.key != commands[i].key
      {
        var n := PlaceOf(commands, order, queue, i);
      }
      forall i, j | 0 <= i < j < |commands|
        ensures commands[i].stepId != commands[j].stepId && commands[i].key != commands[j].key
      {
        var m := PlaceOf(commands, order, queue, i);
        var n := PlaceOf(commands, order, queue, j);
        assert m < n || n < m;
      }
    }
  }

  /** The sequence numbers of a validated submission differ along its queue. */
  lemma QueueOrdered(submission: Submission, order: seq<int>, queue: seq<Command>)
    requires WellFormed(submission) && Ordered(submission.steps, order, queue)
    ensures forall m, n :: 0 <= m < n < |queue| ==> queue[m].sequence != queue[n].sequence
    ensures forall n :: 0 <= n < |queue| ==> queue[n].request == submission.request
  {
    forall m, n | 0 <= m < n < |queue|
      ensures queue[m].sequence != queue[n].sequence
    {
      assert order[m] < order[n] || order[n] < order[m];
    }
  }

  lemma OrderedIds(commands: seq<Command>, order: seq<int>, queue: seq<Command>)
    requires Ordered(commands, order, queue)
    ensures StepIds(queue) == StepIds(commands)
  {
    forall i | 0 <= i < |commands|
      ensures commands[i].stepId in StepIds(queue)
    {
      var n := PlaceOf(commands, order, queue, i);
    }
  }

  /** The order of insertion leaves no trace in the table. */
  lemma InsertedInAnyOrder(steps: Steps, commands: seq<Command>, order: seq<int>, queue: seq<Command>, t: Time)
    requires Ordered(commands, order, queue) && Unclashing(steps, queue)
    ensures InsertRows(steps, queue, t) == InsertRows(steps, commands, t)
  {
    hide InsertRows;
    OrderedUnclashing(steps, commands, order, queue);
    OrderedIds(commands, order, queue);
    InsertRowsAre(steps, queue, t);
    InsertRowsAre(steps, commands, t);
    var a, b := InsertRows(steps, queue, t), InsertRows(steps, commands, t);
    forall s | s in a
      ensures a[s] == b[s]
    {
      if s in StepIds(commands) {
        var i :| 0 <= i < |commands| && commands[i].stepId == s;
        var n := PlaceOf(commands, order, queue, i);
      }
    }
    assert a.Keys == b.Keys;
  }

  /** One more insertion succeeds exactly when the longer prefix is free of clashes. */
  lemma InsertOneMore(steps: Steps, queue: seq<Command>, n: nat, t: Time)
    requires n < |queue| && Unclashing(steps, queue[..n])
    requires forall s :: s in steps ==> steps[s].command.request != queue[n].request
    requires forall i :: 0 <= i < n ==> queue[i].sequence != queue[n].sequence
    ensures Accepts(InsertRows(steps, queue[..n], t), queue[n]) <==> Unclashing(steps, queue[..n + 1])
    ensures InsertRows(steps, queue[..n + 1], t) == InsertRows(steps, queue[..n], t)[queue[n].stepId := FreshRow(queue[n], t)]
  {
    assert queue[..n + 1] == queue[..n] + [queue[n]] && queue[..n + 1][..n] == queue[..n];
    assert InsertRows(steps, queue[..n + 1], t) == InsertRows(steps, queue[..n], t)[queue[n].stepId := FreshRow(queue[n], t)];
    InsertChecks(steps, queue[..n], queue[n], t);
  }

  lemma InsertChecks(steps: Steps, done: seq<Command>, command: Command, t: Time)
    requires Unclashing(steps, done)
    requires forall s :: s in steps ==> steps[s].command.request != command.request
    requires forall i :: 0 <= i < |done| ==> done[i].sequence != command.sequence
    ensures Accepts(InsertRows(steps, done, t), command) <==> Unclashing(steps, done + [command])
  {
    hide InsertRows;
    InsertRowsAre(steps, done, t);
    var rows, longer := InsertRows(steps, done, t), done + [command];
    if Accepts(rows, command) {
      forall i | 0 <= i < |done|
        ensures done[i].stepId != command.stepId && done[i].key != command.key
      {
        assert done[i].stepId in StepIds(done);
        assert rows[done[i].stepId].command == done[i];
      }
      forall s | s in steps
        ensures s != command.stepId && steps[s].command.key != command.key
      {
        assert s in rows;
      }
    }
    if Unclashing(steps, longer) {
      forall s | s in rows
        ensures s != command.stepId && !Clashes(rows[s].command, command)
      {
        assert longer[|done|] == command;
        if s in StepIds(done) {
          var i :| 0 <= i < |done| && done[i].stepId == s;
          assert longer[i] == done[i];
        }
      }
    }
  }

  lemma PrefixUnclashing(steps: Steps, queue: seq<Command>, n: nat)
    requires n <= |queue|
    ensures Unclashing(steps, queue) ==> Unclashing(steps, queue[..n])
  {
  }
}
