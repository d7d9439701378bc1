/** Attempt accounting over whole runs: how often a step was claimed, released, executed
    and recovered, read off the log, against the attempt counter in its row. */
module Accounting {
  import opened Contracts
  import opened Tables
  import opened Frontier
  import opened Protocol
  import opened Isolation
  import opened History
  import Schedule

  function Claims(log: Log, command: Command): nat
  {
    multiset(log)[Claimed(command)]
  }

  function Releases(log: Log, command: Command): nat
  {
    multiset(log)[Released(command)]
  }

  /** Calls of the adapter by the claim loop. */
  function Executions(log: Log, command: Command): nat
  {
    multiset(log)[Started(Execution, command, command.operation)]
  }

  /** Restarts that found the step orphaned. */
  function Recoveries(log: Log, s: StepId): nat
  {
    if log == [] then 0
    else
      var last := log[|log| - 1];
      Recoveries(log[..|log| - 1], s) + if last.Restarted? && s in last.recovered then 1 else 0
  }

  /** Claims less releases since the last restart that found the step orphaned, if one did. */
  function Spent(log: Log, command: Command): Option<int>
  {
    if log == [] then None else SpentAfter(Spent(log[..|log| - 1], command), log[|log| - 1], command)
  }

  function SpentAfter(spent: Option<int>, event: Event, command: Command): Option<int>
  {
    if event.Restarted? && command.stepId in event.recovered then Some(0)
    else if spent.None? then None
    else if event == Claimed(command) then Some(spent.value + 1)
    else if event == Released(command) then Some(spent.value - 1)
    else spent
  }

  /** The counter is claims minus releases; it bounds executions and is bounded by the
      attempt limit plus the crashes that orphaned the step. A step that waits with its
      attempts used up was recovered, and gave back every claim since. */
  ghost predicate RowCounted(row: StepRow, log: Log)
  {
    var command := row.command;
    var limit := command.maxAttempts + Recoveries(log, command.stepId);
    && row.attempts == Claims(log, command) - Releases(log, command)
    && Executions(log, command) <= row.attempts <= limit
    && (Waiting(row.state) ==> row.attempts < limit)
    && (Waiting(row.state) && row.attempts >= command.maxAttempts ==> Spent(log, command) == Some(0))
  }

  /** A claimed step was not executed on this claim yet; beyond its limit, it is the only
      claim since a recovery that was not given back. */
  ghost predicate GateCounted(row: StepRow, log: Log)
  {
    && Executions(log, row.command) < row.attempts
    && (row.attempts > row.command.maxAttempts ==> Spent(log, row.command) == Some(1))
  }

  ghost predicate AttemptsOk(steps: Steps, log: Log)
  {
    forall s :: s in steps ==> RowCounted(steps[s], log)
  }

  ghost predicate GatesOk(tasks: map<TaskId, Task>, steps: Steps, log: Log)
  {
    forall t :: t in tasks && tasks[t].pc.Gated? && tasks[t].pc.step in steps ==>
      GateCounted(steps[tasks[t].pc.step], log)
  }

  ghost predicate CountsOk(s: State)
  {
    AttemptsOk(s.db.steps, s.log) && GatesOk(s.tasks, s.db.steps, s.log)
  }

  /** The event changes one of the command's counts. */
  predicate CountsFor(event: Event, command: Command)
  {
    event == Claimed(command) || event == Released(command) || event == Started(Execution, command, command.operation)
  }

  lemma CountedCommand(event: Event, command: Command)
    ensures CountsFor(event, command) ==> CommandOf(event) == Some(command)
  {
  }

  lemma CountEvent(log: Log, event: Event, command: Command)
    ensures Claims(log + [event], command) == Claims(log, command) + if event == Claimed(command) then 1 else 0
    ensures Releases(log + [event], command) == Releases(log, command) + if event == Released(command) then 1 else 0
    ensures Executions(log + [event], command) ==
              Executions(log, command) + if event == Started(Execution, command, command.operation) then 1 else 0
    ensures Recoveries(log + [event], command.stepId) ==
              Recoveries(log, command.stepId) + if event.Restarted? && command.stepId in event.recovered then 1 else 0
    ensures Spent(log + [event], command) == SpentAfter(Spent(log, command), event, command)
  {
    assert (log + [event])[..|log|] == log;
  }

  predicate Uncounted(events: seq<Event>, command: Command)
  {
    forall i :: 0 <= i < |events| ==> !events[i].Restarted? && !CountsFor(events[i], command)
  }

  lemma {:induction false} UncountedKeeps(log: Log, events: seq<Event>, command: Command)
    requires Uncounted(events, command)
    ensures Claims(log + events, command) == Claims(log, command)
    ensures Releases(log + events, command) == Releases(log, command)
    ensures Executions(log + events, command) == Executions(log, command)
    ensures Recoveries(log + events, command.stepId) == Recoveries(log, command.stepId)
    ensures Spent(log + events, command) == Spent(log, command)
  {
    if events == [] {
      assert log + events == log;
    } else {
      var init, last := events[..|events| - 1], events[|events| - 1];
      UncountedKeeps(log, init, command);
      CountEvent(log + init, last, command);
      assert log + events == (log + init) + [last];
    }
  }

  lemma RowStaysCounted(row: StepRow, log: Log, events: seq<Event>)
    requires RowCounted(row, log) && Uncounted(events, row.command)
    ensures RowCounted(row, log + events)
  {
    UncountedKeeps(log, events, row.command);
  }

  /** At most one row changed, and the events count for that row only. */
  ghost predicate RowMove(steps: Steps, steps': Steps, s: StepId, events: seq<Event>)
  {
    && s in steps && s in steps' && steps' == steps[s := steps'[s]]
    && steps'[s].command == steps[s].command
    && forall i :: 0 <= i < |events| ==>
         !events[i].Restarted? && forall o :: o in steps && o != s ==> !CountsFor(events[i], steps[o].command)
  }

  lemma RowMoveKeepsAttempts(steps: Steps, steps': Steps, s: StepId, log: Log, events: seq<Event>)
    requires AttemptsOk(steps, log) && RowMove(steps, steps', s, events)
    requires RowCounted(steps'[s], log + events)
    ensures AttemptsOk(steps', log + events)
  {
    forall o | o in steps'
      ensures RowCounted(steps'[o], log + events)
    {
      if o != s {
        RowStaysCounted(steps[o], log, events);
      }
    }
  }

  lemma SameRowsKeepAttempts(steps: Steps, log: Log, events: seq<Event>)
    requires AttemptsOk(steps, log)
    requires forall s :: s in steps ==> Uncounted(events, steps[s].command)
    ensures AttemptsOk(steps, log + events)
  {
    forall s | s in steps
      ensures RowCounted(steps[s], log + events)
    {
      RowStaysCounted(steps[s], log, events);
    }
  }

  // ---------------------------------------------------------------- the counted moves

  lemma ClaimCounted(row: StepRow, log: Log, now: Time)
    requires RowCounted(row, log) && Waiting(row.state)
    ensures RowCounted(ClaimedRow(row, now), log + [Claimed(row.command)])
    ensures GateCounted(ClaimedRow(row, now), log + [Claimed(row.command)])
  {
    CountEvent(log, Claimed(row.command), row.command);
  }

  /** Releasing an activation gives its attempt back; the counter never has to be clamped. */
  lemma ReleaseCounted(row: StepRow, log: Log, now: Time)
    requires RowCounted(row, log) && GateCounted(row, log)
    ensures ReleasedRow(row, now).attempts == row.attempts - 1
    ensures RowCounted(ReleasedRow(row, now), log + [Released(row.command)])
  {
    CountEvent(log, Released(row.command), row.command);
  }

  lemma StartCounted(row: StepRow, log: Log)
    requires RowCounted(row, log) && GateCounted(row, log)
    ensures RowCounted(row, log + [Started(Execution, row.command, row.command.operation)])
  {
    CountEvent(log, Started(Execution, row.command, row.command.operation), row.command);
  }

  lemma FailCounted(row: StepRow, log: Log, error: string, retry: RetryClass, retryAt: Option<Time>, now: Time, events: seq<Event>)
    requires RowCounted(row, log) && Uncounted(events, row.command)
    ensures RowCounted(FailedRow(row, error, retry, retryAt, now), log + events)
  {
    UncountedKeeps(log, events, row.command);
  }

  lemma CompleteCounted(row: StepRow, log: Log, state: StepState, evidence: string, now: Time, events: seq<Event>)
    requires RowCounted(row, log) && Uncounted(events, row.command) && Finished(state)
    ensures RowCounted(CompletedRow(row, state, evidence, now), log + events)
  {
    UncountedKeeps(log, events, row.command);
  }

  lemma RescheduleCounted(row: StepRow, log: Log, now: Time, events: seq<Event>)
    requires RowCounted(row, log) && Retryable(row) && Uncounted(events, row.command)
    ensures RowCounted(RescheduledRow(row, now), log + events)
  {
    UncountedKeeps(log, events, row.command);
  }

  lemma RecoverCounted(row: StepRow, log: Log, now: Time, recovered: set<StepId>)
    requires RowCounted(row, log)
    ensures row.command.stepId in recovered ==> RowCounted(RecoveredRow(row, now), log + [Restarted(recovered)])
    ensures row.command.stepId !in recovered ==> RowCounted(row, log + [Restarted(recovered)])
  {
    CountEvent(log, Restarted(recovered), row.command);
  }

  /** A command the store does not know was never counted. */
  lemma {:induction false} UnknownUncounted(steps: Steps, log: Log, command: Command)
    requires CommandsStored(steps, log) && command.stepId !in steps
    ensures Claims(log, command) == 0 && Releases(log, command) == 0 && Executions(log, command) == 0
  {
    forall i | 0 <= i < |log|
      ensures !CountsFor(log[i], command)
    {
      CountedCommand(log[i], command);
    }
  }

  lemma FreshCounted(steps: Steps, log: Log, command: Command, now: Time, events: seq<Event>)
    requires CommandsStored(steps, log) && command.stepId !in steps && command.maxAttempts >= 1
    requires Uncounted(events, command)
    ensures RowCounted(FreshRow(command, now), log + events)
  {
    UnknownUncounted(steps, log, command);
    UncountedKeeps(log, events, command);
  }

  // ---------------------------------------------------------------- each move

  lemma OneStepEvents(steps: Steps, s: StepId, events: seq<Event>)
    requires OwnIds(steps) && s in steps
    requires forall i :: 0 <= i < |events| ==>
               !events[i].Restarted? && (CommandOf(events[i]).Some? ==> CommandOf(events[i]).value == steps[s].command)
    ensures forall i, o :: 0 <= i < |events| && o in steps && o != s ==> !CountsFor(events[i], steps[o].command)
  {
    forall i, o | 0 <= i < |events| && o in steps && o != s
      ensures !CountsFor(events[i], steps[o].command)
    {
      CountedCommand(events[i], steps[o].command);
    }
  }

  /** What the counting of one task's move needs. */
  ghost predicate Countable(db: Db, task: Task, log: Log)
  {
    && TablesOk(db) && TaskOk(db, task)
    && CommandsStored(db.steps, log) && AttemptsOk(db.steps, log)
    && (task.pc.Gated? && task.pc.step in db.steps ==>
          GateCounted(db.steps[task.pc.step], log))
  }

  /** ... and what it gives. */
  ghost predicate Counted(db': Db, pc: Pc, log': Log)
  {
    && AttemptsOk(db'.steps, log')
    && (pc.Gated? && pc.step in db'.steps ==>
          GateCounted(db'.steps[pc.step], log'))
  }

  lemma CountableRow(db: Db, task: Task, log: Log, s: StepId)
    requires Countable(db, task, log) && s in db.steps
    ensures RowCounted(db.steps[s], log) && OwnIds(db.steps) && db.steps[s].command.stepId == s && RowOk(db.steps[s])
    ensures task.pc.Gated? && task.pc.step == s ==> GateCounted(db.steps[s], log)
    ensures (task.pc.Gated? || task.pc.Calling?) && task.pc.step == s ==> db.steps[s].state.Running?
  {
  }

  lemma RowMoveCounts(db: Db, db': Db, task: Task, log: Log, s: StepId, events: seq<Event>, pc: Pc)
    requires Countable(db, task, log) && s in db.steps && s in db'.steps && db'.steps == db.steps[s := db'.steps[s]]
    requires db'.steps[s].command == db.steps[s].command
    requires forall i :: 0 <= i < |events| ==>
               !events[i].Restarted? && (CommandOf(events[i]).Some? ==> CommandOf(events[i]).value == db.steps[s].command)
    requires RowCounted(db'.steps[s], log + events)
    requires pc.Gated? ==> pc.step == s && GateCounted(db'.steps[s], log + events)
    ensures Counted(db', pc, log + events)
  {
    hide TablesOk, TaskOk, RowCounted, AttemptsOk, CommandsStored;
    CountableRow(db, task, log, s);
    OneStepEvents(db.steps, s, events);
    RowMoveKeepsAttempts(db.steps, db'.steps, s, log, events);
  }

  lemma SameRowsCount(db: Db, db': Db, task: Task, log: Log, events: seq<Event>, pc: Pc)
    requires Countable(db, task, log) && db'.steps == db.steps && !pc.Gated?
    requires forall i :: 0 <= i < |events| ==>
               && !events[i].Restarted? && !events[i].Claimed? && !events[i].Released?
               && (events[i].Started? ==> !events[i].kind.Execution?)
    ensures Counted(db', pc, log + events)
  {
    hide TablesOk, TaskOk, RowCounted, CommandsStored;
    SameRowsKeepAttempts(db.steps, log, events);
  }

  lemma BeginCounts(db: Db, task: Task, log: Log, submission: Submission, now: Time, pc: Pc)
    requires Countable(db, task, log) && Insertable(db, submission) && WellFormed(submission) && !pc.Gated?
    ensures Counted(Begin(db, submission, now), pc, log + [Created(submission)])
  {
    hide TablesOk, TaskOk, RowCounted, Insertable, WellFormed, Begin, CommandsStored;
    var events := [Created(submission)];
    var steps' := Begin(db, submission, now).steps;
    NewRows(db, submission, now);
    forall s | s in steps'
      ensures RowCounted(steps'[s], log + events)
    {
      if s in db.steps {
        RowStaysCounted(db.steps[s], log, events);
      } else {
        FreshCounted(db.steps, log, steps'[s].command, now, events);
      }
    }
  }

  lemma NewRows(db: Db, submission: Submission, now: Time)
    requires Insertable(db, submission) && WellFormed(submission)
    ensures var steps' := Begin(db, submission, now).steps;
      forall s :: s in steps' ==>
        if s in db.steps then steps'[s] == db.steps[s]
        else steps'[s] == FreshRow(steps'[s].command, now) && steps'[s].command.stepId == s && steps'[s].command.maxAttempts >= 1
  {
    BeginAddsRows(db, submission, now);
    hide InsertRows, Insertable, WellFormed;
  }

  lemma CancelCounts(db: Db, task: Task, log: Log, r: RequestId, now: Time, pc: Pc)
    requires Countable(db, task, log) && !pc.Gated?
    ensures Counted(MarkCancelled(CancelPending(db, r, now), r, now), pc, log + [CancelledRequest(r)])
  {
    hide TablesOk, TaskOk, CommandsStored;
    var events := [CancelledRequest(r)];
    var steps' := CancelPending(db, r, now).steps;
    forall s | s in steps'
      ensures RowCounted(steps'[s], log + events)
    {
      UncountedKeeps(log, events, db.steps[s].command);
      assert RowCounted(db.steps[s], log);
    }
  }

  lemma RetryCounts(db: Db, task: Task, log: Log, pick: Option<StepId>, now: Time, pc: Pc, db': Db, events: seq<Event>)
    requires Countable(db, task, log) && RetriesRequest(db, task, pick, now, pc, db', events)
    ensures Counted(db', pc, log + events)
  {
    hide Countable, RowCounted, RetryPick, Counted;
    if pick.Some? {
      var s := pick.value;
      RetryPickFacts(db.steps, task.request, s);
      CountableRow(db, task, log, s);
      RescheduleCounted(db.steps[s], log, now, events);
      RowMoveCounts(db, db', task, log, s, events, pc);
    } else {
      RefreshSteps(db, task.request, now);
      SameRowsCount(db, db', task, log, events, pc);
    }
  }

  lemma ClaimCounts(db: Db, task: Task, log: Log, pick: Option<StepId>, now: Time, pc: Pc, db': Db, events: seq<Event>)
    requires Countable(db, task, log) && ClaimsNext(db, task, pick, now, pc, db', events)
    ensures Counted(db', pc, log + events)
  {
    hide Countable, RowCounted, Claimable, Blocked, Counted;
    if pick.Some? {
      var s := pick.value;
      ClaimableFacts(db.steps, task.request, s, now);
      CountableRow(db, task, log, s);
      ClaimCounted(db.steps[s], log, now);
      RowMoveCounts(db, db', task, log, s, events, pc);
    } else {
      SameRowsCount(db, db', task, log, events, pc);
    }
  }

  lemma DispatchCounts(db: Db, adapters: set<TargetSystem>, task: Task, log: Log, now: Time, pc: Pc, db': Db, events: seq<Event>)
    requires Countable(db, task, log) && task.pc.Gated? && task.pc.step in db.steps
    requires Dispatches(db, adapters, task, now, pc, db', events)
    ensures Counted(db', pc, log + events)
  {
    hide Countable, RowCounted, GateCounted, ActivationReady, CompensationTargets, Counted;
    var s := task.pc.step;
    CountableRow(db, task, log, s);
    if pc.Leaving? {
      ReleaseCounted(db.steps[s], log, now);
    } else if pc.Compensating? {
      FailCounted(db.steps[s], log, "adapter_not_registered", Permanent, None, now, events);
    } else {
      StartCounted(db.steps[s], log);
      assert db'.steps == db'.steps[s := db'.steps[s]];
    }
    RowMoveCounts(db, db', task, log, s, events, pc);
  }

  lemma ReturnCounts(db: Db, task: Task, log: Log, outcome: Outcome, now: Time, pc: Pc, db': Db, events: seq<Event>)
    requires Countable(db, task, log) && task.pc.Calling? && task.pc.step in db.steps
    requires Returns(db, task, outcome, now, pc, db', events)
    ensures Counted(db', pc, log + events)
  {
    hide Countable, RowCounted, CompensationTargets, Counted;
    var s := task.pc.step;
    CountableRow(db, task, log, s);
    match outcome {
      case Success(evidence) =>
        CompleteCounted(db.steps[s], log, SuccessState(db.steps[s].command.operation), evidence, now, events);
      case AdapterError(code, retry, retryAt) =>
        FailCounted(db.steps[s], log, code, retry, retryAt, now, events);
    }
    RowMoveCounts(db, db', task, log, s, events, pc);
  }

  lemma CountableJob(db: Db, task: Task, log: Log)
    requires Countable(db, task, log) && task.job.Submit?
    ensures WellFormed(task.job.submission)
  {
  }

  lemma SubmitCounts(db: Db, task: Task, log: Log, now: Time, pc: Pc, db': Db, events: seq<Event>)
    requires Countable(db, task, log) && task.job.Submit? && BeginsRequest(db, task, now, pc, db', events)
    ensures Counted(db', pc, log + events)
  {
    hide Countable, ActivationReady, AccessSystems, StoredUnder, Insertable, Counted, WellFormed, Begin, Refresh;
    CountableJob(db, task, log);
    if pc.Claiming? {
      BeginCounts(db, task, log, task.job.submission, now, pc);
    } else {
      RefreshSteps(db, task.job.submission.request, now);
      SameRowsCount(db, db', task, log, events, pc);
    }
  }

  lemma MoveCounts(db: Db, adapters: set<TargetSystem>, task: Task, log: Log, move: Move, now: Time,
                   pc: Pc, db': Db, events: seq<Event>)
    requires Countable(db, task, log) && Acts(db, adapters, task, move, now, pc, db', events)
    ensures Counted(db', pc, log + events)
  {
    hide Countable, Counted, BeginsRequest, RetriesRequest, ClaimsNext, Dispatches, Returns, Superseded, Candidate,
         CompensationTargets, VerificationTargets;
    match move {
      case BeginRequest => SubmitCounts(db, task, log, now, pc, db', events);
      case RetryRequest(pick) => RetryCounts(db, task, log, pick, now, pc, db', events);
      case CancelRequest => CancelCounts(db, task, log, task.request, now, pc);
      case ClaimNext(pick) => ClaimCounts(db, task, log, pick, now, pc, db', events);
      case Dispatch => DispatchCounts(db, adapters, task, log, now, pc, db', events);
      case Return(outcome) => ReturnCounts(db, task, log, outcome, now, pc, db', events);
      case _ => SameRowsCount(db, db', task, log, events, pc);
    }
  }

  // ---------------------------------------------------------------- the whole run

  /** Other tasks at a gate keep what they know: their step belongs to another employee. */
  lemma OtherGate(s: State, o: TaskId, db': Db, e: EmployeeId, events: seq<Event>)
    requires SystemOk(s) && CountsOk(s) && o in s.tasks && s.tasks[o].pc.Gated? && s.tasks[o].employee != e
    requires StepsOnlyOf(s.db.steps, db'.steps, e)
    requires forall i :: 0 <= i < |events| ==>
               !events[i].Restarted? && (CommandOf(events[i]).Some? ==> CommandOf(events[i]).value.employee == e)
    ensures var x := s.tasks[o].pc.step;
            x in db'.steps && GateCounted(db'.steps[x], s.log + events)
  {
    var x := s.tasks[o].pc.step;
    TaskFacts(s, o);
    TaskStep(s.db, s.tasks[o], x);
    hide SystemOk, TablesOk, TaskOk, AttemptsOk;
    var command := s.db.steps[x].command;
    forall i | 0 <= i < |events|
      ensures !CountsFor(events[i], command)
    {
      CountedCommand(events[i], command);
    }
    UncountedKeeps(s.log, events, command);
  }

  /** The commands a move logs belong to the task's employee. */
  lemma EventsOwned(db: Db, adapters: set<TargetSystem>, task: Task, move: Move, now: Time,
                    pc: Pc, db': Db, events: seq<Event>)
    requires TablesOk(db) && TaskOk(db, task) && Acts(db, adapters, task, move, now, pc, db', events)
    ensures forall i :: 0 <= i < |events| ==>
              !events[i].Restarted? && (CommandOf(events[i]).Some? ==> CommandOf(events[i]).value.employee == task.employee)
  {
    forall s | InRequest(db.steps, task.request, s) && Known(db, task)
      ensures db.steps[s].command.employee == task.employee
    {
      TaskStep(db, task, s);
    }
    hide TablesOk;
    if move.CompensateStep? || move.CompensationReturn? || move.CheckStep? || move.CheckReturn? {
      LoggedCallsOwned(db, adapters, task, move, now, pc, db', events);
    } else {
      RunEventsOwned(db, adapters, task, move, now, pc, db', events);
    }
  }

  ghost predicate Owned(events: seq<Event>, e: EmployeeId)
  {
    forall i :: 0 <= i < |events| ==>
      !events[i].Restarted? && (CommandOf(events[i]).Some? ==> CommandOf(events[i]).value.employee == e)
  }

  lemma LoggedCallsOwned(db: Db, adapters: set<TargetSystem>, task: Task, move: Move, now: Time,
                         pc: Pc, db': Db, events: seq<Event>)
    requires TaskOk(db, task) && Acts(db, adapters, task, move, now, pc, db', events)
    requires move.CompensateStep? || move.CompensationReturn? || move.CheckStep? || move.CheckReturn?
    requires forall s :: InRequest(db.steps, task.request, s) && Known(db, task) ==> db.steps[s].command.employee == task.employee
    ensures Owned(events, task.employee)
  {
    hide Superseded, Candidate, RecordCompensation, RecordVerification, JobOk, AllFinishedIn;
    if move.CompensateStep? || move.CheckStep? {
      FinishedMember(db.steps, task.request, task.pc.todo, move.target);
    }
  }

  lemma RunEventsOwned(db: Db, adapters: set<TargetSystem>, task: Task, move: Move, now: Time,
                       pc: Pc, db': Db, events: seq<Event>)
    requires TaskOk(db, task) && Acts(db, adapters, task, move, now, pc, db', events)
    requires !move.CompensateStep? && !move.CompensationReturn? && !move.CheckStep? && !move.CheckReturn?
    requires forall s :: InRequest(db.steps, task.request, s) && Known(db, task) ==> db.steps[s].command.employee == task.employee
    ensures Owned(events, task.employee)
  {
    hide ActivationReady, CompensationTargets, VerificationTargets, Claimable, RetryPick, Candidate,
         Blocked, StoredUnder, Insertable, AccessSystems, JobOk, AllFinishedIn,
         Claim, Release, Reschedule, Fail, Complete, Refresh, CancelPending, MarkCancelled, Begin;
    match move {
      case RetryRequest(pick) =>
        if pick.Some? {
          RetryPickFacts(db.steps, task.request, pick.value);
        }
      case ClaimNext(pick) =>
        if pick.Some? {
          ClaimableFacts(db.steps, task.request, pick.value, now);
        }
      case _ =>
    }
  }

  lemma FinishedMember(steps: Steps, r: RequestId, todo: set<StepId>, x: StepId)
    requires AllFinishedIn(steps, r, todo)
    ensures x in todo ==> FinishedIn(steps, r, x)
  {
  }

  lemma ActKeepsCounts(s: State, t: TaskId, move: Move, now: Time, pc: Pc, db': Db, events: seq<Event>)
    requires SystemOk(s) && HistoryOk(s) && CountsOk(s) && t in s.tasks && now > s.db.clock
    requires Acts(s.db, s.adapters, s.tasks[t], move, now, pc, db', events)
    ensures CountsOk(Moved(s, t, pc).(db := db', log := s.log + events))
  {
    hide SystemOk, HistoryOk, Acts, AttemptsOk, Evolves, TablesOk, TaskOk, LocksOk, StepsOnlyOf, PcOk, JobOk;
    TaskFacts(s, t);
    HistoryFacts(s);
    MoveCounts(s.db, s.adapters, s.tasks[t], s.log, move, now, pc, db', events);
    ActKeepsTasks(s, t, move, now, pc, db', events);
    EventsOwned(s.db, s.adapters, s.tasks[t], move, now, pc, db', events);
    SystemLocks(s);
    MovesStayInside(s.db, s.adapters, s.tasks[t], move, now, pc, db', events);
    forall o | o in s.tasks && o != t && s.tasks[o].pc.Gated?
      ensures var x := s.tasks[o].pc.step;
              x in db'.steps && GateCounted(db'.steps[x], s.log + events)
    {
      if s.tasks[o].employee == s.tasks[t].employee {
        OneHolder(s, t, o);
      }
      OtherGate(s, o, db', s.tasks[t].employee, events);
    }
  }

  lemma HistoryFacts(s: State)
    requires HistoryOk(s)
    ensures CommandsStored(s.db.steps, s.log)
  {
  }

  lemma SystemLocks(s: State)
    requires SystemOk(s)
    ensures LocksOk(s) && TablesOk(s.db)
  {
  }

  lemma RestartKeepsCounts(s: State, timeout: nat, now: Time, s': State)
    requires SystemOk(s) && CountsOk(s) && Step(s, Restart(timeout, now), s')
    ensures CountsOk(s')
  {
    var recovered := StaleSteps(s.db.steps, timeout, now);
    SystemLocks(s);
    TablesOwnIds(s.db);
    hide SystemOk, TablesOk, LocksOk, RowCounted;
    forall x | x in s'.db.steps
      ensures RowCounted(s'.db.steps[x], s'.log)
    {
      assert RowCounted(s.db.steps[x], s.log);
      RecoverCounted(s.db.steps[x], s.log, now, recovered);
    }
  }

  lemma StepKeepsCounts(s: State, a: Action, s': State)
    requires SystemOk(s) && HistoryOk(s) && CountsOk(s) && Step(s, a, s')
    ensures CountsOk(s')
  {
    hide SystemOk, HistoryOk, Acts, MaySpawn, AttemptsOk, RecoverStale, StaleSteps;
    match a {
      case Act(t, move, now, pc, db, events) => ActKeepsCounts(s, t, move, now, pc, db, events);
      case Restart(timeout, now) => RestartKeepsCounts(s, timeout, now, s');
      case Read(r, now) => RefreshSteps(s.db, r, now);
      case _ =>
    }
  }

  lemma InitCountsOk(s: State)
    requires Init(s)
    ensures CountsOk(s)
  {
  }

  lemma {:induction false} RunsKeepCounts(run: Run, n: nat)
    requires IsRun(run) && n < |run.states|
    ensures CountsOk(run.states[n])
  {
    hide SystemOk, HistoryOk, CountsOk, Step, Init;
    if n == 0 {
      InitCountsOk(run.states[0]);
    } else {
      RunsKeepCounts(run, n - 1);
      RunsKeepAll(run, n - 1);
      StepKeepsCounts(run.states[n - 1], run.actions[n - 1], run.states[n]);
    }
  }

  /** However many manual retries are issued, the adapter executes a step at most as often
      as its attempt limit plus the number of crashes that orphaned it. */
  lemma ExecutionsBounded(run: Run, n: nat, s: StepId)
    requires IsRun(run) && n < |run.states| && s in run.states[n].db.steps
    ensures var log, row := run.states[n].log, run.states[n].db.steps[s];
            && row.attempts == Claims(log, row.command) - Releases(log, row.command)
            && Executions(log, row.command) <= row.attempts
            && row.attempts <= row.command.maxAttempts + Recoveries(log, s)
  {
    hide IsRun;
    RunsKeepCounts(run, n);
    RunsKeepAll(run, n);
    assert RowCounted(run.states[n].db.steps[s], run.states[n].log);
  }

  // ---------------------------------------------------------------- beyond the limit

  /** The action claims the step. */
  predicate ClaimsStep(a: Action, s: StepId)
  {
    a.Act? && a.move == ClaimNext(Some(s))
  }

  /** In every run, a claim takes a step beyond its attempt limit exactly when its row waits
      with the attempts used up, and such a row had been recovered after a crash and had given
      back every claim since. */
  lemma LimitExceededAfterRecovery(run: Run, k: nat, s: StepId)
    requires IsRun(run) && k < |run.actions| && ClaimsStep(run.actions[k], s)
    ensures s in run.states[k].db.steps && s in run.states[k + 1].db.steps
    ensures var log, row, row' := run.states[k].log, run.states[k].db.steps[s], run.states[k + 1].db.steps[s];
      && row'.attempts == row.attempts + 1 && Waiting(row.state)
      && (row'.attempts > row.command.maxAttempts <==> row.attempts >= row.command.maxAttempts)
      && (row'.attempts > row.command.maxAttempts ==> Recoveries(log, s) > 0 && Spent(log, row.command) == Some(0))
  {
    var state, a := run.states[k], run.actions[k];
    RunsKeepCounts(run, k);
    RunsKeepAll(run, k);
    TablesOwnIds(state.db);
    assert Step(state, a, run.states[k + 1]);
    hide IsRun, SystemOk, HistoryOk, TablesOk, Step, Blocked, RowCounted;
    ClaimActs(state, a, run.states[k + 1], s);
    RowRecovered(state.db.steps[s], state.log);
    assert RowCounted(state.db.steps[s], state.log);
  }

  lemma ClaimActs(s: State, a: Action, s': State, x: StepId)
    requires Step(s, a, s') && ClaimsStep(a, x)
    ensures x in s.db.steps && Waiting(s.db.steps[x].state)
    ensures x in s'.db.steps && s'.db.steps[x].attempts == s.db.steps[x].attempts + 1
  {
    hide Blocked;
  }

  lemma RowRecovered(row: StepRow, log: Log)
    ensures RowCounted(row, log) && Waiting(row.state) && row.attempts >= row.command.maxAttempts ==>
              Recoveries(log, row.command.stepId) > 0 && Spent(log, row.command) == Some(0)
  {
  }

  /** A stale step whose attempts are used up is claimed beyond its limit. */
  lemma RecoveryExceedsLimit(db: Db, timeout: nat, s: StepId, t: Time, later: Time)
    requires TablesOk(db) && Stale(db.steps, s, timeout, t) && db.clock < t <= later
    requires db.steps[s].attempts == db.steps[s].command.maxAttempts
    ensures var recovered := RecoverStale(db, timeout, t);
      && Claimable(recovered.steps, db.steps[s].command.request, s, later)
      && Claim(recovered, s, later).steps[s].attempts == db.steps[s].command.maxAttempts + 1
  {
    Schedule.AfterRecovery(db, timeout, s, t, s, later);
    hide TablesOk, Claimable;
  }
}
