/** Requests over whole runs: a key creates one request with all of its steps, a cancelled
    request stays asleep until it is retried or recovered, and verification evidence never
    gives way to older evidence. */
module Requests {
  import opened Contracts
  import opened Tables
  import opened Frontier
  import opened Protocol
  import opened Isolation
  import opened History

  // ---------------------------------------------------------------- what a move touches

  /** Rows of other requests stay as they are; new rows belong to the request. */
  ghost predicate StepsOnlyOfRequest(steps: Steps, steps': Steps, r: RequestId)
  {
    && (forall s :: s in steps && steps[s].command.request != r ==> s in steps' && steps'[s] == steps[s])
    && (forall s :: s in steps' && s !in steps ==> steps'[s].command.request == r)
  }

  /** Nothing is added, and only steps of `r` change. */
  ghost predicate Within(db: Db, db': Db, r: RequestId)
  {
    && db'.executions.Keys == db.executions.Keys
    && db'.steps.Keys == db.steps.Keys
    && StepsOnlyOfRequest(db.steps, db'.steps, r)
  }

  lemma SameStepsWithin(db: Db, db': Db, r: RequestId)
    requires db'.steps == db.steps && db'.executions.Keys == db.executions.Keys
    ensures Within(db, db', r)
  {
  }

  lemma RowWithin(db: Db, db': Db, s: StepId, row: StepRow)
    requires s in db.steps && db'.steps == db.steps[s := row] && row.command == db.steps[s].command
    requires db'.executions.Keys == db.executions.Keys
    ensures Within(db, db', db.steps[s].command.request)
  {
  }

  lemma ClaimWithin(db: Db, s: StepId, t: Time)
    requires s in db.steps
    ensures Within(db, Claim(db, s, t), db.steps[s].command.request)
  {
    hide Within, ClaimedRow;
    assert ClaimedRow(db.steps[s], t).command == db.steps[s].command by {
      ClaimedCommand(db.steps[s], t);
    }
    RowWithin(db, Claim(db, s, t), s, ClaimedRow(db.steps[s], t));
  }

  lemma ClaimedCommand(row: StepRow, t: Time)
    ensures ClaimedRow(row, t).command == row.command
  {
  }

  lemma ReleaseWithin(db: Db, s: StepId, t: Time)
    requires s in db.steps
    ensures Within(db, Release(db, s, t), db.steps[s].command.request)
  {
    hide Within;
    if db.steps[s].state.Running? {
      RowWithin(db, Release(db, s, t), s, ReleasedRow(db.steps[s], t));
    } else {
      SameStepsWithin(db, Release(db, s, t), db.steps[s].command.request);
    }
  }

  lemma RescheduleWithin(db: Db, s: StepId, t: Time)
    requires s in db.steps
    ensures Within(db, Reschedule(db, s, t), db.steps[s].command.request)
  {
    hide Within;
    RowWithin(db, Reschedule(db, s, t), s, RescheduledRow(db.steps[s], t));
  }

  lemma FailWithin(db: Db, s: StepId, error: string, retry: RetryClass, retryAt: Option<Time>, t: Time)
    requires s in db.steps
    ensures Within(db, Fail(db, s, error, retry, retryAt, t), db.steps[s].command.request)
  {
    hide Within;
    RowWithin(db, Fail(db, s, error, retry, retryAt, t), s, FailedRow(db.steps[s], error, retry, retryAt, t));
  }

  lemma CompleteWithin(db: Db, s: StepId, state: StepState, evidence: string, t: Time)
    requires s in db.steps
    ensures Within(db, Complete(db, s, state, evidence, t), db.steps[s].command.request)
  {
    hide Within;
    RowWithin(db, Complete(db, s, state, evidence, t), s, CompletedRow(db.steps[s], state, evidence, t));
  }

  lemma CancelWithin(db: Db, r: RequestId, t: Time)
    ensures Within(db, MarkCancelled(CancelPending(db, r, t), r, t), r)
  {
  }

  lemma RefreshWithin(db: Db, r: RequestId, t: Time)
    ensures Within(db, Refresh(db, r, t), r)
  {
    hide Within, Summary;
    SameStepsWithin(db, Refresh(db, r, t), r);
  }

  /** Only a submission adds requests or steps; every move changes steps of its own request. */
  lemma MoveWithin(db: Db, adapters: set<TargetSystem>, task: Task, move: Move, now: Time,
                   pc: Pc, db': Db, events: seq<Event>)
    requires TaskOk(db, task) && !move.BeginRequest? && Acts(db, adapters, task, move, now, pc, db', events)
    ensures Within(db, db', task.request)
  {
    hide ActivationReady, Superseded, Candidate, CompensationTargets, VerificationTargets, Claimable, RetryPick, Blocked,
         AllFinishedIn, Known, JobOk, Within, Claim, Release, Reschedule, Fail, Complete, Refresh, CancelPending, MarkCancelled;
    match move {
      case RetryRequest(pick) =>
        RefreshWithin(db, task.request, now);
        if pick.Some? {
          RetryPickFacts(db.steps, task.request, pick.value);
          RescheduleWithin(db, pick.value, now);
        }
      case CancelRequest =>
        CancelWithin(db, task.request, now);
      case ClaimNext(pick) =>
        SameStepsWithin(db, db, task.request);
        if pick.Some? {
          ClaimableFacts(db.steps, task.request, pick.value, now);
          ClaimWithin(db, pick.value, now);
        }
      case Dispatch =>
        SameStepsWithin(db, db, task.request);
        ReleaseWithin(db, task.pc.step, now);
        FailWithin(db, task.pc.step, "adapter_not_registered", Permanent, None, now);
      case Return(outcome) =>
        ReturnWithin(db, task, outcome, now, pc, db', events);
      case _ =>
        SameStepsWithin(db, db', task.request);
    }
  }

  lemma ReturnWithin(db: Db, task: Task, outcome: Outcome, now: Time, pc: Pc, db': Db, events: seq<Event>)
    requires TaskOk(db, task) && task.pc.Calling? && task.pc.step in db.steps
    requires Returns(db, task, outcome, now, pc, db', events)
    ensures Within(db, db', task.request)
  {
    hide CompensationTargets, Known, JobOk, Within, Fail, Complete;
    match outcome {
      case Success(evidence) =>
        CompleteWithin(db, task.pc.step, SuccessState(db.steps[task.pc.step].command.operation), evidence, now);
      case AdapterError(code, retry, retryAt) =>
        FailWithin(db, task.pc.step, code, retry, retryAt, now);
    }
  }

  lemma BeginTouchesRequest(db: Db, submission: Submission, now: Time)
    requires Insertable(db, submission) && WellFormed(submission)
    ensures StepsOnlyOfRequest(db.steps, Begin(db, submission, now).steps, submission.request)
  {
    BeginAddsRows(db, submission, now);
  }

  /** What a move logs: creations only with a submission. */
  lemma MoveLogsNoCreation(db: Db, adapters: set<TargetSystem>, task: Task, move: Move, now: Time,
                           pc: Pc, db': Db, events: seq<Event>)
    requires !move.BeginRequest? && Acts(db, adapters, task, move, now, pc, db', events)
    ensures forall i :: 0 <= i < |events| ==> !events[i].Created?
  {
    hide ActivationReady, Superseded, Candidate, CompensationTargets, VerificationTargets, Claimable, RetryPick, Blocked,
         Claim, Release, Reschedule, Fail, Complete, Refresh, CancelPending, MarkCancelled, RecordCompensation, RecordVerification;
  }

  // ---------------------------------------------------------------- one key, one request

  /** Every request is stored with all of its steps and no others. */
  ghost predicate Whole(executions: Executions, steps: Steps)
  {
    && (forall r, i :: r in executions && 0 <= i < |executions[r].submission.steps| ==>
          Stored(steps, executions[r].submission.steps[i]))
    && (forall s :: s in steps && steps[s].command.request in executions ==>
          steps[s].command in executions[steps[s].command.request].submission.steps)
  }

  ghost predicate CreatedStored(executions: Executions, log: Log)
  {
    forall i :: 0 <= i < |log| && log[i].Created? ==>
      && log[i].submission.request in executions
      && executions[log[i].submission.request].submission == log[i].submission
  }

  /** No two creations share their request or their idempotency key. */
  ghost predicate CreatedOnce(log: Log)
  {
    forall i, j :: 0 <= i < j < |log| && log[i].Created? && log[j].Created? ==>
      && log[i].submission.request != log[j].submission.request
      && log[i].submission.key != log[j].submission.key
  }

  ghost predicate CreationsOk(s: State)
  {
    Whole(s.db.executions, s.db.steps) && CreatedStored(s.db.executions, s.log) && CreatedOnce(s.log)
  }

  /** Steps and submissions as before, and nothing created. */
  lemma CreationsStay(executions: Executions, executions': Executions, steps: Steps, steps': Steps, log: Log, events: seq<Event>)
    requires Whole(executions, steps) && CreatedStored(executions, log) && CreatedOnce(log)
    requires executions'.Keys == executions.Keys && ExecutionsStay(executions, executions')
    requires steps'.Keys == steps.Keys && StepsStay(steps, steps')
    requires forall i :: 0 <= i < |events| ==> !events[i].Created?
    ensures Whole(executions', steps') && CreatedStored(executions', log + events) && CreatedOnce(log + events)
  {
    forall s | s in steps' && steps'[s].command.request in executions'
      ensures steps'[s].command in executions'[steps'[s].command.request].submission.steps
    {
      assert steps'[s].command == steps[s].command;
    }
  }

  lemma BeginStoresAll(db: Db, submission: Submission, now: Time, r: RequestId, i: nat)
    requires Whole(db.executions, db.steps) && Insertable(db, submission)
    requires r in Begin(db, submission, now).executions
    requires i < |Begin(db, submission, now).executions[r].submission.steps|
    ensures Stored(Begin(db, submission, now).steps, Begin(db, submission, now).executions[r].submission.steps[i])
  {
    InsertRowsAre(db.steps, submission.steps, now);
    hide InsertRows;
    if r == submission.request {
      assert Begin(db, submission, now).steps[submission.steps[i].stepId] == FreshRow(submission.steps[i], now);
    } else {
      assert Stored(db.steps, db.executions[r].submission.steps[i]);
    }
  }

  lemma BeginStoresOnly(db: Db, submission: Submission, now: Time, s: StepId)
    requires Whole(db.executions, db.steps) && Keyed(db.executions, db.steps)
    requires Insertable(db, submission) && WellFormed(submission)
    requires s in Begin(db, submission, now).steps
    ensures var db' := Begin(db, submission, now);
            && db'.steps[s].command.request in db'.executions
            && db'.steps[s].command in db'.executions[db'.steps[s].command.request].submission.steps
  {
    BeginAddsRows(db, submission, now);
    hide InsertRows, Insertable, WellFormed;
  }

  lemma BeginIsWhole(db: Db, submission: Submission, now: Time)
    requires Whole(db.executions, db.steps) && Keyed(db.executions, db.steps)
    requires Insertable(db, submission) && WellFormed(submission)
    ensures var db' := Begin(db, submission, now); Whole(db'.executions, db'.steps)
  {
    hide Keyed, Insertable, WellFormed, InsertRows;
    var db' := Begin(db, submission, now);
    forall r, i | r in db'.executions && 0 <= i < |db'.executions[r].submission.steps|
      ensures Stored(db'.steps, db'.executions[r].submission.steps[i])
    {
      BeginStoresAll(db, submission, now, r, i);
    }
    forall s | s in db'.steps && db'.steps[s].command.request in db'.executions
      ensures db'.steps[s].command in db'.executions[db'.steps[s].command.request].submission.steps
    {
      BeginStoresOnly(db, submission, now, s);
    }
  }

  lemma BeginCreatesOnce(db: Db, submission: Submission, now: Time, log: Log)
    requires CreatedStored(db.executions, log) && CreatedOnce(log) && Insertable(db, submission)
    ensures CreatedStored(Begin(db, submission, now).executions, log + [Created(submission)])
    ensures CreatedOnce(log + [Created(submission)])
  {
  }

  lemma SubmitKeepsCreations(s: State, t: TaskId, now: Time, pc: Pc, db': Db, events: seq<Event>)
    requires SystemOk(s) && CreationsOk(s) && t in s.tasks && s.tasks[t].job.Submit? && now > s.db.clock
    requires BeginsRequest(s.db, s.tasks[t], now, pc, db', events)
    ensures CreationsOk(Moved(s, t, pc).(db := db', log := s.log + events))
  {
    hide SystemOk, ActivationReady, AccessSystems, StoredUnder, Insertable, TablesOk, TaskOk, WellFormed, Whole, CreatedStored,
         CreatedOnce, StepsStay;
    TaskFacts(s, t);
    var submission := s.tasks[t].job.submission;
    if pc.Claiming? {
      TablesKeyed(s.db);
      hide Keyed;
      BeginIsWhole(s.db, submission, now);
      BeginCreatesOnce(s.db, submission, now, s.log);
    } else {
      RefreshKeeps(s.db, submission.request, now);
      NothingTouched(s.db, "");
      RefreshSteps(s.db, submission.request, now);
      CreationsStay(s.db.executions, db'.executions, s.db.steps, db'.steps, s.log, events);
    }
  }

  lemma TablesKeyed(db: Db)
    requires TablesOk(db)
    ensures Keyed(db.executions, db.steps)
  {
  }

  lemma StepKeepsCreations(s: State, a: Action, s': State)
    requires SystemOk(s) && CreationsOk(s) && Step(s, a, s')
    ensures CreationsOk(s')
  {
    hide SystemOk, Acts, MaySpawn, Whole, CreatedStored, CreatedOnce, StaleSteps, StepsStay, ExecutionsStay, TaskOk, TablesOk,
         PcOk, JobOk, StepsOnlyOfRequest;
    StepKeepsSystem(s, a, s');
    match a {
      case Act(t, move, now, pc, db, events) =>
        if move.BeginRequest? {
          SubmitMove(s.db, s.adapters, s.tasks[t], now, pc, db, events);
          SubmitKeepsCreations(s, t, now, pc, db, events);
        } else {
          TaskFacts(s, t);
          MoveWithin(s.db, s.adapters, s.tasks[t], move, now, pc, db, events);
          MoveLogsNoCreation(s.db, s.adapters, s.tasks[t], move, now, pc, db, events);
          CreationsStay(s.db.executions, db.executions, s.db.steps, db.steps, s.log, events);
        }
      case Restart(timeout, now) =>
        CreationsStay(s.db.executions, s'.db.executions, s.db.steps, s'.db.steps, s.log,
                      [Restarted(StaleSteps(s.db.steps, timeout, now))]);
      case Read(r, now) =>
        RefreshSteps(s.db, r, now);
        CreationsStay(s.db.executions, s'.db.executions, s.db.steps, s'.db.steps, s.log, []);
        assert s.log + [] == s.log;
      case _ =>
    }
  }

  lemma SubmitMove(db: Db, adapters: set<TargetSystem>, task: Task, now: Time, pc: Pc, db': Db, events: seq<Event>)
    requires Acts(db, adapters, task, BeginRequest, now, pc, db', events)
    ensures task.job.Submit? && BeginsRequest(db, task, now, pc, db', events)
  {
  }

  lemma InitCreationsOk(s: State)
    requires Init(s)
    ensures CreationsOk(s)
  {
  }

  lemma {:induction false} RunsKeepCreations(run: Run, n: nat)
    requires IsRun(run) && n < |run.states|
    ensures CreationsOk(run.states[n])
  {
    hide SystemOk, HistoryOk, CreationsOk, Step, Init;
    if n == 0 {
      InitCreationsOk(run.states[0]);
    } else {
      RunsKeepCreations(run, n - 1);
      RunsKeepAll(run, n - 1);
      StepKeepsCreations(run.states[n - 1], run.actions[n - 1], run.states[n]);
    }
  }

  /** Whatever duplicates were submitted in whatever interleaving: a key created at most one
      request, and every stored request has exactly the steps it was submitted with. */
  lemma SubmissionsAreIdempotent(run: Run, n: nat)
    requires IsRun(run) && n < |run.states|
    ensures CreatedOnce(run.states[n].log)
    ensures Whole(run.states[n].db.executions, run.states[n].db.steps)
    ensures CreatedStored(run.states[n].db.executions, run.states[n].log)
  {
    hide IsRun, CreatedOnce, Whole, CreatedStored;
    RunsKeepCreations(run, n);
  }

  /** A submission under a stored key calls no adapter and changes no step; with another
      content it changes nothing at all. */
  lemma DuplicatesAreInert(db: Db, task: Task, now: Time, pc: Pc, db': Db, events: seq<Event>, r: RequestId)
    requires TablesOk(db) && task.job.Submit? && StoredUnder(db, task.job.submission.key, r)
    requires BeginsRequest(db, task, now, pc, db', events)
    ensures pc == Leaving && events == []
    ensures db'.steps == db.steps && db'.verifications == db.verifications && db'.compensations == db.compensations
    ensures db.executions[r].submission != task.job.submission ==> db' == db
  {
    assert KeysUnique(db.executions);
    hide TablesOk, ActivationReady, Insertable, AccessSystems;
  }

  // ---------------------------------------------------------------- cancelled requests

  /** A manual retry of the request, or a restart that finds one of its steps orphaned. */
  ghost predicate Wakes(steps: Steps, event: Event, r: RequestId)
  {
    || (event.Rescheduled? && event.command.request == r)
    || (event.Restarted? && exists s :: s in event.recovered && InRequest(steps, r, s))
  }

  ghost predicate WokenBetween(steps: Steps, log: Log, i: nat, k: nat, r: RequestId)
  {
    exists m :: i < m < k && m < |log| && Wakes(steps, log[m], r)
  }

  ghost predicate NothingWaits(steps: Steps, r: RequestId)
  {
    forall s :: InRequest(steps, r, s) ==> !Waiting(steps[s].state)
  }

  /** No task is about to execute, or executes, a step of `r`. */
  ghost predicate NobodyExecutes(tasks: map<TaskId, Task>, r: RequestId)
  {
    forall t :: t in tasks && tasks[t].request == r ==> !tasks[t].pc.Gated? && !tasks[t].pc.Calling?
  }

  ghost predicate Asleep(s: State, r: RequestId)
  {
    NothingWaits(s.db.steps, r) && NobodyExecutes(s.tasks, r) && r in s.db.executions
  }

  /** Unless woken since, a cancelled request is asleep. */
  ghost predicate CancelledAsleep(s: State)
  {
    forall i :: 0 <= i < |s.log| && s.log[i].CancelledRequest?
                && !WokenBetween(s.db.steps, s.log, i, |s.log|, s.log[i].request) ==>
      Asleep(s, s.log[i].request)
  }

  /** A step of a cancelled request is claimed only after the request was woken. */
  ghost predicate ClaimsWoken(steps: Steps, log: Log)
  {
    forall i, k :: 0 <= i < k < |log| && log[i].CancelledRequest? && log[k].Claimed?
                   && log[k].command.request == log[i].request ==>
      WokenBetween(steps, log, i, k, log[i].request)
  }

  ghost predicate CancellationsOk(s: State)
  {
    CancelledAsleep(s) && ClaimsWoken(s.db.steps, s.log)
  }

  lemma WokenGrows(steps: Steps, steps': Steps, log: Log, events: seq<Event>, i: nat, k: nat, r: RequestId)
    requires StepsStay(steps, steps') && k <= |log|
    ensures WokenBetween(steps, log, i, k, r) ==> WokenBetween(steps', log + events, i, k, r)
    ensures WokenBetween(steps, log, i, k, r) ==> WokenBetween(steps', log + events, i, |log + events|, r)
  {
    var log' := log + events;
    if m :| i < m < k && m < |log| && Wakes(steps, log[m], r) {
      assert Wakes(steps', log'[m], r);
    }
  }

  lemma WokenNow(steps: Steps, log: Log, events: seq<Event>, i: nat, r: RequestId)
    requires i < |log| && |events| == 1 && Wakes(steps, events[0], r)
    ensures WokenBetween(steps, log + events, i, |log + events|, r)
  {
    assert (log + events)[|log|] == events[0];
  }

  lemma ClaimsWokenGrow(steps: Steps, steps': Steps, log: Log, events: seq<Event>)
    requires ClaimsWoken(steps, log) && StepsStay(steps, steps')
    requires |events| == 1 || forall j :: 0 <= j < |events| ==> !events[j].Claimed? && !events[j].CancelledRequest?
    requires |events| == 1 && events[0].Claimed? ==>
               forall i :: 0 <= i < |log| && log[i] == CancelledRequest(events[0].command.request) ==>
                 WokenBetween(steps, log, i, |log|, events[0].command.request)
    ensures ClaimsWoken(steps', log + events)
  {
    var log' := log + events;
    forall i, k | 0 <= i < k < |log'| && log'[i].CancelledRequest? && log'[k].Claimed?
                  && log'[k].command.request == log'[i].request
      ensures WokenBetween(steps', log', i, k, log'[i].request)
    {
      if k < |log| {
        WokenGrows(steps, steps', log, events, i, k, log[i].request);
      } else {
        assert log'[k] == events[k - |log|];
        WokenGrows(steps, steps', log, events, i, |log|, log[i].request);
      }
    }
  }

  // Moves on a request that sleeps.

  lemma SleepingSubmit(db: Db, task: Task, now: Time, pc: Pc, db': Db, events: seq<Event>)
    requires task.job.Submit? && JobOk(task) && task.request in db.executions
    requires BeginsRequest(db, task, now, pc, db', events)
    ensures db'.steps == db.steps && pc == Leaving && events == []
  {
    assert !Insertable(db, task.job.submission);
    hide ActivationReady, AccessSystems, StoredUnder, Insertable, WellFormed;
    RefreshSteps(db, task.job.submission.request, now);
  }

  /** A move on a sleeping request wakes it or leaves it asleep. */
  lemma SleepingMove(db: Db, adapters: set<TargetSystem>, task: Task, move: Move, now: Time,
                     pc: Pc, db': Db, events: seq<Event>)
    requires JobOk(task) && NothingWaits(db.steps, task.request) && task.request in db.executions
    requires !task.pc.Gated? && !task.pc.Calling?
    requires Acts(db, adapters, task, move, now, pc, db', events)
    ensures (|events| == 1 && Wakes(db'.steps, events[0], task.request))
            || (NothingWaits(db'.steps, task.request) && !pc.Gated? && !pc.Calling?)
    ensures !(|events| == 1 && events[0].Claimed?)
  {
    hide ActivationReady, Superseded, Candidate, CompensationTargets, VerificationTargets, Claimable, RetryPick,
         Blocked, BeginsRequest, JobOk;
    match move {
      case BeginRequest => SleepingSubmit(db, task, now, pc, db', events);
      case RetryRequest(pick) =>
        if pick.Some? {
          RetryPickFacts(db.steps, task.request, pick.value);
        } else {
          RefreshSteps(db, task.request, now);
        }
      case ClaimNext(pick) =>
        if pick.Some? {
          ClaimableFacts(db.steps, task.request, pick.value, now);
        }
      case _ =>
    }
  }

  lemma MoveTouchesRequest(db: Db, adapters: set<TargetSystem>, task: Task, move: Move, now: Time,
                           pc: Pc, db': Db, events: seq<Event>)
    requires TaskOk(db, task) && Acts(db, adapters, task, move, now, pc, db', events)
    ensures StepsOnlyOfRequest(db.steps, db'.steps, task.request)
  {
    hide ActivationReady, AccessSystems, StoredUnder, Insertable, WellFormed, Acts;
    if move.BeginRequest? {
      SubmitMove(db, adapters, task, now, pc, db', events);
      if pc.Claiming? {
        hide StepsOnlyOfRequest;
        BeginTouchesRequest(db, task.job.submission, now);
      } else {
        RefreshSteps(db, task.job.submission.request, now);
      }
    } else {
      MoveWithin(db, adapters, task, move, now, pc, db', events);
    }
  }

  /** Two tasks on one request work for one employee, so only one of them is past its locks. */
  lemma OneWorker(s: State, t: TaskId, o: TaskId)
    requires SystemOk(s) && t in s.tasks && o in s.tasks && s.tasks[t].request == s.tasks[o].request
    requires HoldsEmployee(s.tasks[t]) && Known(s.db, s.tasks[t]) && Working(s.tasks[o].pc)
    ensures t == o
  {
    TaskFacts(s, o);
    hide TablesOk, TasksOk;
    OneHolder(s, t, o);
  }

  lemma CancelSleeps(s: State, t: TaskId, now: Time, pc: Pc, db': Db, events: seq<Event>)
    requires SystemOk(s) && t in s.tasks && s.tasks[t].pc.Entered? && s.tasks[t].job.Cancel?
    requires CancelsRequest(s.db, s.tasks[t], now, pc, db', events)
    ensures Asleep(Moved(s, t, pc).(db := db', log := s.log + events), s.tasks[t].request)
  {
    hide SystemOk, CompensationTargets, TablesOk, TaskOk, PcOk, JobOk;
    TaskFacts(s, t);
    forall o | o in s.tasks && o != t && s.tasks[o].request == s.tasks[t].request
      ensures !s.tasks[o].pc.Gated? && !s.tasks[o].pc.Calling?
    {
      if Working(s.tasks[o].pc) {
        OneWorker(s, t, o);
      }
    }
  }

  /** A request asleep before a move of another task, or of its own, is asleep or woken after. */
  lemma SleepKept(s: State, t: TaskId, move: Move, now: Time, pc: Pc, db': Db, events: seq<Event>, r: RequestId)
    requires SystemOk(s) && t in s.tasks && Asleep(s, r) && Evolves(s.db, db')
    requires Acts(s.db, s.adapters, s.tasks[t], move, now, pc, db', events)
    ensures (|events| == 1 && Wakes(db'.steps, events[0], r))
            || Asleep(Moved(s, t, pc).(db := db', log := s.log + events), r)
    ensures |events| == 1 && events[0].Claimed? ==> s.tasks[t].request != r
  {
    hide SystemOk, Acts, TablesOk, TaskOk, PcOk, JobOk, Wakes;
    TaskFacts(s, t);
    if s.tasks[t].request == r {
      SleepingMove(s.db, s.adapters, s.tasks[t], move, now, pc, db', events);
    } else {
      MoveTouchesRequest(s.db, s.adapters, s.tasks[t], move, now, pc, db', events);
    }
  }

  /** What a move logs about cancelling and claiming. */
  lemma MoveLogs(db: Db, adapters: set<TargetSystem>, task: Task, move: Move, now: Time,
                 pc: Pc, db': Db, events: seq<Event>)
    requires TaskOk(db, task) && Acts(db, adapters, task, move, now, pc, db', events)
    ensures |events| == 1 || forall j :: 0 <= j < |events| ==> !events[j].Claimed? && !events[j].CancelledRequest?
    ensures |events| == 1 && events[0].Claimed? ==> events[0].command.request == task.request
    ensures |events| == 1 && events[0].CancelledRequest? ==> move.CancelRequest? && events[0].request == task.request
  {
    hide ActivationReady, Superseded, Candidate, CompensationTargets, VerificationTargets, Claimable, RetryPick, Blocked,
         StoredUnder, Insertable, AccessSystems, JobOk, AllFinishedIn, Known,
         Claim, Release, Reschedule, Fail, Complete, Refresh, CancelPending, MarkCancelled, RecordCompensation, RecordVerification;
    match move {
      case ClaimNext(pick) =>
        if pick.Some? {
          ClaimableFacts(db.steps, task.request, pick.value, now);
        }
      case _ =>
    }
  }

  lemma ActKeepsCancellations(s: State, t: TaskId, move: Move, now: Time, pc: Pc, db': Db, events: seq<Event>)
    requires SystemOk(s) && CancellationsOk(s) && t in s.tasks && Evolves(s.db, db')
    requires Acts(s.db, s.adapters, s.tasks[t], move, now, pc, db', events)
    ensures CancellationsOk(Moved(s, t, pc).(db := db', log := s.log + events))
  {
    hide SystemOk, Acts, TablesOk, TaskOk, PcOk, JobOk, StepsStay, Wakes, Asleep, WokenBetween;
    TaskFacts(s, t);
    MoveLogs(s.db, s.adapters, s.tasks[t], move, now, pc, db', events);
    var s' := Moved(s, t, pc).(db := db', log := s.log + events);
    forall i | 0 <= i < |s'.log| && s'.log[i].CancelledRequest?
               && !WokenBetween(db'.steps, s'.log, i, |s'.log|, s'.log[i].request)
      ensures Asleep(s', s'.log[i].request)
    {
      if i < |s.log| {
        CancelledStaysAsleep(s, t, move, now, pc, db', events, i);
      } else {
        assert s'.log[i] == events[0];
        CancelMove(s.db, s.adapters, s.tasks[t], move, now, pc, db', events);
        CancelSleeps(s, t, now, pc, db', events);
      }
    }
    if |events| == 1 && events[0].Claimed? {
      forall i | 0 <= i < |s.log| && s.log[i] == CancelledRequest(events[0].command.request)
        ensures WokenBetween(s.db.steps, s.log, i, |s.log|, events[0].command.request)
      {
        if !WokenBetween(s.db.steps, s.log, i, |s.log|, events[0].command.request) {
          SleepKept(s, t, move, now, pc, db', events, events[0].command.request);
        }
      }
    }
    ClaimsWokenGrow(s.db.steps, db'.steps, s.log, events);
  }

  lemma CancelMove(db: Db, adapters: set<TargetSystem>, task: Task, move: Move, now: Time,
                   pc: Pc, db': Db, events: seq<Event>)
    requires move.CancelRequest? && Acts(db, adapters, task, move, now, pc, db', events)
    ensures task.pc.Entered? && task.job.Cancel? && CancelsRequest(db, task, now, pc, db', events)
  {
  }

  lemma CancelledStaysAsleep(s: State, t: TaskId, move: Move, now: Time, pc: Pc, db': Db, events: seq<Event>, i: nat)
    requires SystemOk(s) && CancelledAsleep(s) && t in s.tasks && Evolves(s.db, db')
    requires Acts(s.db, s.adapters, s.tasks[t], move, now, pc, db', events)
    requires i < |s.log| && s.log[i].CancelledRequest?
    requires !WokenBetween(db'.steps, s.log + events, i, |s.log + events|, s.log[i].request)
    ensures Asleep(Moved(s, t, pc).(db := db', log := s.log + events), s.log[i].request)
  {
    hide SystemOk, Acts, StepsStay, Wakes, Asleep, WokenBetween;
    var r := s.log[i].request;
    WokenGrows(s.db.steps, db'.steps, s.log, events, i, |s.log|, r);
    SleepKept(s, t, move, now, pc, db', events, r);
    if |events| == 1 && Wakes(db'.steps, events[0], r) {
      WokenNow(db'.steps, s.log, events, i, r);
    }
  }

  lemma RestartSleeps(s: State, timeout: nat, now: Time, r: RequestId)
    requires Asleep(s, r)
    ensures var event := Restarted(StaleSteps(s.db.steps, timeout, now));
            var steps' := RecoverStale(s.db, timeout, now).steps;
            Wakes(steps', event, r) || NothingWaits(steps', r)
  {
  }

  lemma RestartKeepsCancellations(s: State, timeout: nat, now: Time, s': State)
    requires CancellationsOk(s) && Step(s, Restart(timeout, now), s') && Evolves(s.db, s'.db)
    ensures CancellationsOk(s')
  {
    hide StaleSteps, WokenBetween, Wakes, NothingWaits, StepsStay, RecoverStale;
    var events := [Restarted(StaleSteps(s.db.steps, timeout, now))];
    forall i | 0 <= i < |s'.log| && s'.log[i].CancelledRequest?
               && !WokenBetween(s'.db.steps, s'.log, i, |s'.log|, s'.log[i].request)
      ensures Asleep(s', s'.log[i].request)
    {
      WokenGrows(s.db.steps, s'.db.steps, s.log, events, i, |s.log|, s.log[i].request);
      RestartSleeps(s, timeout, now, s.log[i].request);
      if Wakes(s'.db.steps, events[0], s.log[i].request) {
        WokenNow(s'.db.steps, s.log, events, i, s.log[i].request);
      }
    }
    ClaimsWokenGrow(s.db.steps, s'.db.steps, s.log, events);
  }

  lemma StepKeepsCancellations(s: State, a: Action, s': State)
    requires SystemOk(s) && CancellationsOk(s) && Step(s, a, s')
    ensures CancellationsOk(s')
  {
    hide SystemOk, Acts, MaySpawn, Evolves, NothingWaits, ClaimsWoken, WokenBetween;
    StepKeepsSystem(s, a, s');
    match a {
      case Act(t, move, now, pc, db, events) => ActKeepsCancellations(s, t, move, now, pc, db, events);
      case Restart(timeout, now) => RestartKeepsCancellations(s, timeout, now, s');
      case Read(r, now) => RefreshSteps(s.db, r, now);
      case _ =>
    }
  }

  lemma InitCancellationsOk(s: State)
    requires Init(s)
    ensures CancellationsOk(s)
  {
  }

  lemma {:induction false} RunsKeepCancellations(run: Run, n: nat)
    requires IsRun(run) && n < |run.states|
    ensures CancellationsOk(run.states[n])
  {
    hide SystemOk, HistoryOk, CancellationsOk, Step, Init;
    if n == 0 {
      InitCancellationsOk(run.states[0]);
    } else {
      RunsKeepCancellations(run, n - 1);
      RunsKeepAll(run, n - 1);
      StepKeepsCancellations(run.states[n - 1], run.actions[n - 1], run.states[n]);
    }
  }

  /** In every run, no step of a cancelled request is claimed again before a manual retry of
      the request or a restart that finds one of its steps orphaned. */
  lemma CancelledRequestsStayQuiet(run: Run, n: nat)
    requires IsRun(run) && n < |run.states|
    ensures ClaimsWoken(run.states[n].db.steps, run.states[n].log)
  {
    hide IsRun, ClaimsWoken;
    RunsKeepCancellations(run, n);
  }

  // ---------------------------------------------------------------- verification evidence

  /** Records are only replaced by records of steps that finished later. */
  ghost predicate EvidenceAdvances(db: Db, db': Db)
  {
    forall e, sys :: (e, sys) in db.verifications ==>
      && (e, sys) in db'.verifications
      && var from, to := db.verifications[(e, sys)].source, db'.verifications[(e, sys)].source;
         && from in db'.steps && to in db'.steps
         && db'.steps[from].updatedAt <= db'.steps[to].updatedAt
  }

  lemma SameRecordsAdvance(db: Db, db': Db)
    requires RecordsOk(db.steps, db.verifications) && StepsStay(db.steps, db'.steps) && db'.verifications == db.verifications
    ensures EvidenceAdvances(db, db')
  {
    forall e, sys | (e, sys) in db.verifications
      ensures db.verifications[(e, sys)].source in db'.steps
    {
      assert Provisioning(db.steps, e, sys, db.verifications[(e, sys)].source);
    }
  }

  lemma RecordingAdvances(db: Db, e: EmployeeId, sys: TargetSystem, s: StepId, evidence: string, t: Time)
    requires RecordsOk(db.steps, db.verifications) && Candidate(db.steps, e, sys, s)
    ensures EvidenceAdvances(db, RecordVerification(db, e, sys, s, evidence, t))
  {
    forall f, other | (f, other) in db.verifications
      ensures Provisioning(db.steps, f, other, db.verifications[(f, other)].source)
    {
    }
  }

  lemma RowOperationsKeepRecords(db: Db, s: StepId, error: string, retry: RetryClass, retryAt: Option<Time>, t: Time)
    requires s in db.steps
    ensures Claim(db, s, t).verifications == db.verifications
    ensures Release(db, s, t).verifications == db.verifications
    ensures Reschedule(db, s, t).verifications == db.verifications
    ensures Fail(db, s, error, retry, retryAt, t).verifications == db.verifications
  {
    hide ClaimedRow, ReleasedRow, RescheduledRow, FailedRow, FailureState;
  }

  lemma ReturnKeepsRecords(db: Db, task: Task, outcome: Outcome, now: Time, pc: Pc, db': Db, events: seq<Event>)
    requires task.pc.Calling? && task.pc.step in db.steps && Returns(db, task, outcome, now, pc, db', events)
    ensures db'.verifications == db.verifications
  {
    hide CompensationTargets, FailedRow, FailureState, CompletedRow;
  }

  lemma CompensationKeepsRecords(db: Db, key: CompensationKey, state: CompensationState, delay: Option<nat>, t: Time)
    ensures RecordCompensation(db, key, state, delay, t).verifications == db.verifications
  {
  }

  /** Only a confirmed check changes the verification records. */
  lemma MoveKeepsRecords(db: Db, adapters: set<TargetSystem>, task: Task, move: Move, now: Time,
                         pc: Pc, db': Db, events: seq<Event>)
    requires Acts(db, adapters, task, move, now, pc, db', events) && !move.CheckReturn?
    ensures db'.verifications == db.verifications
  {
    hide ActivationReady, Superseded, CompensationTargets, VerificationTargets, Claimable, RetryPick, Blocked,
         StoredUnder, Insertable, AccessSystems, InsertRows, Candidate,
         Claim, Release, Reschedule, Fail, Complete, RecordCompensation, Returns, CancelPending;
    match move {
      case RetryRequest(pick) =>
        if pick.Some? {
          RetryPickFacts(db.steps, task.request, pick.value);
          RowOperationsKeepRecords(db, pick.value, "", Permanent, None, now);
        }
      case ClaimNext(pick) =>
        if pick.Some? {
          ClaimableFacts(db.steps, task.request, pick.value, now);
          RowOperationsKeepRecords(db, pick.value, "", Permanent, None, now);
        }
      case CancelRequest => CancelKeepsRecords(db, task.request, now);
      case Dispatch => RowOperationsKeepRecords(db, task.pc.step, "adapter_not_registered", Permanent, None, now);
      case Return(outcome) => ReturnKeepsRecords(db, task, outcome, now, pc, db', events);
      case CompensateStep(x, delay) =>
        CompensationKeepsRecords(db, CompensationOf(db, task, x), CompSuperseded, None, now);
        CompensationKeepsRecords(db, CompensationOf(db, task, x), CompFailed, Some(delay), now);
      case CompensationReturn(ok, delay) =>
        CompensationKeepsRecords(db, CompensationOf(db, task, task.pc.step), CompSucceeded, None, now);
        CompensationKeepsRecords(db, CompensationOf(db, task, task.pc.step), CompFailed, Some(delay), now);
      case _ =>
    }
  }

  lemma CancelKeepsRecords(db: Db, r: RequestId, t: Time)
    ensures CancelPending(db, r, t).verifications == db.verifications
  {
  }

  lemma CheckAdvances(db: Db, adapters: set<TargetSystem>, task: Task, verdict: Verdict, now: Time,
                      pc: Pc, db': Db, events: seq<Event>)
    requires RecordsOk(db.steps, db.verifications) && StepsStay(db.steps, db'.steps)
    requires task.pc.CallingCheck? && task.pc.step in db.steps && CheckReturns(db, task, verdict, now, pc, db', events)
    ensures EvidenceAdvances(db, db')
  {
    hide Candidate, RecordsOk, StepsStay, EvidenceAdvances;
    if db' == db {
      SameRecordsAdvance(db, db');
    } else {
      RecordingAdvances(db, task.employee, db.steps[task.pc.step].command.system, task.pc.step, verdict.evidence, now);
    }
  }

  lemma MoveAdvances(db: Db, adapters: set<TargetSystem>, task: Task, move: Move, now: Time,
                     pc: Pc, db': Db, events: seq<Event>)
    requires RecordsOk(db.steps, db.verifications) && StepsStay(db.steps, db'.steps)
    requires Acts(db, adapters, task, move, now, pc, db', events)
    ensures EvidenceAdvances(db, db')
  {
    hide BeginsRequest, RetriesRequest, CancelsRequest, BeginsChecks, ClaimsNext, Dispatches, Returns, CompensatesStep,
         CompensationReturns, ChecksStep, CheckReturns, RecordsOk, StepsStay, EvidenceAdvances;
    if move.CheckReturn? {
      CheckAdvances(db, adapters, task, move.verdict, now, pc, db', events);
    } else {
      MoveKeepsRecords(db, adapters, task, move, now, pc, db', events);
      SameRecordsAdvance(db, db');
    }
  }

  lemma StepAdvances(s: State, a: Action, s': State)
    requires SystemOk(s) && Step(s, a, s')
    ensures EvidenceAdvances(s.db, s'.db)
  {
    hide SystemOk, Acts, MaySpawn, RecordsOk, StepsStay, EvidenceAdvances, StaleSteps, TablesOk;
    StepKeepsSystem(s, a, s');
    SystemTables(s);
    match a {
      case Act(t, move, now, pc, db, events) =>
        MoveAdvances(s.db, s.adapters, s.tasks[t], move, now, pc, db, events);
      case Read(r, now) =>
        RefreshSteps(s.db, r, now);
        SameRecordsAdvance(s.db, s'.db);
      case _ =>
        SameRecordsAdvance(s.db, s'.db);
    }
  }

  lemma SystemTables(s: State)
    requires SystemOk(s)
    ensures TablesOk(s.db) && RecordsOk(s.db.steps, s.db.verifications)
  {
  }

  lemma AdvanceTransitive(a: Db, b: Db, c: Db)
    requires EvidenceAdvances(a, b) && EvidenceAdvances(b, c) && StepsStay(b.steps, c.steps)
    requires RecordsOk(a.steps, a.verifications) && StepsStay(a.steps, b.steps)
    requires RecordsOk(b.steps, b.verifications)
    ensures EvidenceAdvances(a, c)
  {
    forall e, sys | (e, sys) in a.verifications
      ensures (e, sys) in c.verifications
      ensures var from, to := a.verifications[(e, sys)].source, c.verifications[(e, sys)].source;
              from in c.steps && to in c.steps && c.steps[from].updatedAt <= c.steps[to].updatedAt
    {
      assert Provisioning(a.steps, e, sys, a.verifications[(e, sys)].source);
      assert Provisioning(b.steps, e, sys, b.verifications[(e, sys)].source);
    }
  }

  /** A later table state: rows final, records valid and never older. */
  ghost predicate Later(db: Db, db': Db)
  {
    && Evolves(db, db') && EvidenceAdvances(db, db')
    && RecordsOk(db.steps, db.verifications) && RecordsOk(db'.steps, db'.verifications)
  }

  lemma LaterTransitive(a: Db, b: Db, c: Db)
    requires Later(a, b) && Later(b, c)
    ensures Later(a, c)
  {
    hide EvidenceAdvances, StepsStay, ExecutionsStay, RecordsOk;
    AdvanceTransitive(a, b, c);
    EvolvesTransitive(a, b, c);
  }

  lemma StepIsLater(s: State, a: Action, s': State)
    requires SystemOk(s) && Step(s, a, s')
    ensures Later(s.db, s'.db) && Later(s.db, s.db)
  {
    hide SystemOk, Step, EvidenceAdvances, RecordsOk, StepsStay, ExecutionsStay;
    StepKeepsSystem(s, a, s');
    StepAdvances(s, a, s');
    SystemTables(s);
    SystemTables(s');
    NothingTouched(s.db, "");
    SameRecordsAdvance(s.db, s.db);
  }

  lemma SameIsLater(s: State)
    requires SystemOk(s)
    ensures Later(s.db, s.db)
  {
    hide SystemOk, EvidenceAdvances, RecordsOk, StepsStay, ExecutionsStay;
    SystemTables(s);
    NothingTouched(s.db, "");
    SameRecordsAdvance(s.db, s.db);
  }

  /** Along any run, every record names a finished provisioning step of its employee and
      system, and is only ever replaced by one of a step that finished later; steps and
      submissions are never lost or changed, and finished rows are final. */
  lemma {:induction false} EvidenceNeverRegresses(run: Run, m: nat, n: nat)
    requires IsRun(run) && m <= n < |run.states|
    ensures Later(run.states[m].db, run.states[n].db)
    decreases n - m
  {
    hide SystemOk, HistoryOk, Step, Init, Later;
    RunsKeepAll(run, m);
    if m == n {
      SameIsLater(run.states[m]);
    } else {
      RunsKeepAll(run, n - 1);
      EvidenceNeverRegresses(run, m, n - 1);
      StepIsLater(run.states[n - 1], run.actions[n - 1], run.states[n]);
      LaterTransitive(run.states[m].db, run.states[n - 1].db, run.states[n].db);
    }
  }
}
