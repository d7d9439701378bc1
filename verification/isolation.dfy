/** What one task may assume while it holds its employee's lock: the table invariant is
    kept by every step, and only the lock holder changes the employee's rows. */
module Isolation {
  import opened Contracts
  import opened Tables
  import opened Frontier
  import opened Protocol

  // ---------------------------------------------------------------- locks

  ghost predicate EmployeeLocksOk(tasks: map<TaskId, Task>, locks: map<EmployeeId, TaskId>)
  {
    && (forall t :: t in tasks && HoldsEmployee(tasks[t]) ==>
          tasks[t].employee in locks && locks[tasks[t].employee] == t)
    && (forall e :: e in locks ==>
          locks[e] in tasks && HoldsEmployee(tasks[locks[e]]) && tasks[locks[e]].employee == e)
  }

  ghost predicate RequestLocksOk(tasks: map<TaskId, Task>, locks: map<RequestId, TaskId>)
  {
    && (forall t :: t in tasks && HoldsRequest(tasks[t]) ==>
          tasks[t].request in locks && locks[tasks[t].request] == t)
    && (forall r :: r in locks ==>
          locks[r] in tasks && HoldsRequest(tasks[locks[r]]) && tasks[locks[r]].request == r)
  }

  /** Only a job that takes the request lock waits for it. */
  ghost predicate WaitersOk(tasks: map<TaskId, Task>)
  {
    forall t :: t in tasks && tasks[t].pc.AwaitRequest? ==> TakesRequest(tasks[t].job)
  }

  ghost predicate LocksOk(s: State)
  {
    && EmployeeLocksOk(s.tasks, s.employeeLocks)
    && RequestLocksOk(s.tasks, s.requestLocks)
    && WaitersOk(s.tasks)
  }

  /** Moves start and end under the locks. */
  lemma MovesStayInside(db: Db, adapters: set<TargetSystem>, task: Task, move: Move, now: Time,
                        pc: Pc, db': Db, events: seq<Event>)
    ensures Acts(db, adapters, task, move, now, pc, db', events) ==>
              && !task.pc.AwaitEmployee? && !task.pc.AwaitRequest? && !task.pc.Leaving?
              && !pc.AwaitEmployee? && !pc.AwaitRequest? && !pc.Entered?
  {
  }

  lemma GoneKeepsLocks(s: State, t: TaskId)
    requires LocksOk(s) && t in s.tasks
    ensures LocksOk(Gone(s, t))
  {
  }

  lemma MovedKeepsLocks(s: State, t: TaskId, pc: Pc)
    requires LocksOk(s) && t in s.tasks
    requires !s.tasks[t].pc.AwaitEmployee? && !s.tasks[t].pc.AwaitRequest?
    requires !pc.AwaitEmployee? && !pc.AwaitRequest?
    ensures LocksOk(Moved(s, t, pc))
  {
  }

  lemma SpawnKeepsLocks(s: State, t: TaskId, body: Task)
    requires LocksOk(s) && t !in s.tasks && body.pc.AwaitEmployee?
    ensures LocksOk(s.(tasks := s.tasks[t := body]))
  {
  }

  lemma TakeEmployeeKeepsLocks(s: State, t: TaskId, pc: Pc)
    requires LocksOk(s) && t in s.tasks && s.tasks[t].pc.AwaitEmployee? && s.tasks[t].employee !in s.employeeLocks
    requires pc == if TakesRequest(s.tasks[t].job) then AwaitRequest else Entered
    ensures LocksOk(Moved(s, t, pc).(employeeLocks := s.employeeLocks[s.tasks[t].employee := t]))
  {
  }

  lemma TakeRequestKeepsLocks(s: State, t: TaskId)
    requires LocksOk(s) && t in s.tasks && s.tasks[t].pc.AwaitRequest? && s.tasks[t].request !in s.requestLocks
    ensures LocksOk(Moved(s, t, Entered).(requestLocks := s.requestLocks[s.tasks[t].request := t]))
  {
  }

  lemma DataIsNoLock(s: State, db: Db, log: Log)
    ensures LocksOk(s.(db := db, log := log)) <==> LocksOk(s)
  {
  }

  lemma LocksKept(s: State, a: Action, s': State)
    requires LocksOk(s) && Step(s, a, s')
    ensures LocksOk(s')
  {
    hide Acts, MaySpawn, RecoverStale, Refresh, LocksOk;
    match a {
      case Spawn(t, body) =>
        SpawnKeepsLocks(s, t, body);
      case TakeEmployee(t) =>
        TakeEmployeeKeepsLocks(s, t, s'.tasks[t].pc);
      case TakeRequest(t) =>
        TakeRequestKeepsLocks(s, t);
      case SkipBusy(t) =>
        GoneKeepsLocks(s, t);
      case Act(t, move, now, pc, db, events) =>
        MovesStayInside(s.db, s.adapters, s.tasks[t], move, now, pc, db, events);
        MovedKeepsLocks(s, t, pc);
        DataIsNoLock(Moved(s, t, pc), db, s'.log);
      case Leave(t) =>
        GoneKeepsLocks(s, t);
      case Restart(timeout, now) =>
        NoLocksAreOk(s');
      case Read(r, now) =>
        DataIsNoLock(s, s'.db, s.log);
    }
  }

  lemma NoLocksAreOk(s: State)
    requires s.tasks == map[] && s.employeeLocks == map[] && s.requestLocks == map[]
    ensures LocksOk(s)
  {
  }

  /** Two tasks never hold the same employee's lock. */
  lemma OneHolder(s: State, t: TaskId, o: TaskId)
    requires LocksOk(s) && t in s.tasks && o in s.tasks
    requires HoldsEmployee(s.tasks[t]) && HoldsEmployee(s.tasks[o]) && s.tasks[t].employee == s.tasks[o].employee
    ensures t == o
  {
  }

  /** Two submissions, retries, cancellations, worker turns or due rounds past their locks
      never work on one request. */
  lemma OneRequestHolder(s: State, t: TaskId, o: TaskId)
    requires LocksOk(s) && t in s.tasks && o in s.tasks && s.tasks[t].request == s.tasks[o].request
    requires forall x :: x in {t, o} ==>
      && (s.tasks[x].job.Submit? || s.tasks[x].job.Retry? || s.tasks[x].job.Cancel? || s.tasks[x].job.Work? || s.tasks[x].job.Settle?)
      && s.tasks[x].pc != AwaitEmployee && s.tasks[x].pc != AwaitRequest
    ensures t == o
  {
    assert t in {t, o} && o in {t, o};
  }

  // ---------------------------------------------------------------- what a task relies on

  predicate Working(pc: Pc)
  {
    !pc.AwaitEmployee? && !pc.AwaitRequest? && !pc.Entered? && !pc.Leaving?
  }

  predicate RunningIn(steps: Steps, r: RequestId, s: StepId)
  {
    InRequest(steps, r, s) && steps[s].state.Running?
  }

  predicate FinishedIn(steps: Steps, r: RequestId, s: StepId)
  {
    InRequest(steps, r, s) && Finished(steps[s].state)
  }

  ghost predicate AllFinishedIn(steps: Steps, r: RequestId, todo: set<StepId>)
  {
    forall s :: s in todo ==> FinishedIn(steps, r, s)
  }

  /** The step a task claimed is still running; steps it compensates or verifies are finished. */
  ghost predicate PcOk(steps: Steps, r: RequestId, pc: Pc)
  {
    match pc
    case Gated(s) => RunningIn(steps, r, s)
    case Calling(s) => RunningIn(steps, r, s)
    case Compensating(todo) => AllFinishedIn(steps, r, todo)
    case CallingCompensation(s, todo) => FinishedIn(steps, r, s) && AllFinishedIn(steps, r, todo)
    case Verifying(todo) => AllFinishedIn(steps, r, todo)
    case CallingCheck(s, todo) => FinishedIn(steps, r, s) && AllFinishedIn(steps, r, todo)
    case _ => true
  }

  ghost predicate JobOk(task: Task)
  {
    task.job.Submit? ==>
      && task.request == task.job.submission.request
      && task.employee == task.job.submission.employee
      && WellFormed(task.job.submission)
  }

  ghost predicate TaskOk(db: Db, task: Task)
  {
    && JobOk(task)
    && (!task.job.Submit? || Working(task.pc) ==> Known(db, task))
    && PcOk(db.steps, task.request, task.pc)
  }

  /** Rows of other employees, and their evidence, are left alone. */
  ghost predicate StepsOnlyOf(steps: Steps, steps': Steps, e: EmployeeId)
  {
    && (forall s :: s in steps && steps[s].command.employee != e ==> s in steps' && steps'[s] == steps[s])
    && (forall s :: s in steps' && s !in steps ==> steps'[s].command.employee == e)
  }

  ghost predicate RecordsOnlyOf(verifications: Verifications, verifications': Verifications, e: EmployeeId)
  {
    forall o, sys :: o != e ==>
      && ((o, sys) in verifications <==> (o, sys) in verifications')
      && ((o, sys) in verifications ==> verifications'[(o, sys)] == verifications[(o, sys)])
  }

  ghost predicate OnlyTouches(db: Db, db': Db, e: EmployeeId)
  {
    StepsOnlyOf(db.steps, db'.steps, e) && RecordsOnlyOf(db.verifications, db'.verifications, e)
  }

  /** What every move of a task guarantees to itself and to the other tasks. */
  ghost predicate Kept(db: Db, db': Db, task: Task, pc: Pc)
  {
    && TablesOk(db') && Evolves(db, db')
    && OnlyTouches(db, db', task.employee)
    && TaskOk(db', task.(pc := pc))
  }

  lemma NothingTouched(db: Db, e: EmployeeId)
    ensures OnlyTouches(db, db, e) && Evolves(db, db)
  {
  }

  lemma SameTablesTouch(db: Db, db': Db, e: EmployeeId)
    requires db'.steps == db.steps && db'.verifications == db.verifications
    ensures OnlyTouches(db, db', e)
  {
  }

  /** A change of one row touches only the row's employee. */
  lemma RowTouches(db: Db, db': Db, s: StepId, row: StepRow)
    requires s in db.steps && row.command == db.steps[s].command
    requires db'.steps == db.steps[s := row] && db'.verifications == db.verifications
    ensures OnlyTouches(db, db', db.steps[s].command.employee)
  {
  }

  lemma KnownStays(db: Db, db': Db, task: Task)
    requires Known(db, task) && Evolves(db, db')
    ensures Known(db', task)
  {
  }

  /** A step of the task's request is a step of the task's employee. */
  lemma TaskStep(db: Db, task: Task, s: StepId)
    requires TablesOk(db) && Known(db, task) && InRequest(db.steps, task.request, s)
    ensures db.steps[s].command.employee == task.employee && db.steps[s].command.request == task.request
    ensures db.steps[s].command.stepId == s
  {
  }

  lemma TargetsFinished(steps: Steps, r: RequestId)
    ensures AllFinishedIn(steps, r, CompensationTargets(steps, r))
    ensures AllFinishedIn(steps, r, VerificationTargets(steps, r))
  {
  }

  // ---------------------------------------------------------------- the moves

  lemma BeginsRequestKeeps(db: Db, task: Task, now: Time, pc: Pc, db': Db, events: seq<Event>)
    requires TablesOk(db) && TaskOk(db, task) && task.job.Submit? && now > db.clock
    requires BeginsRequest(db, task, now, pc, db', events)
    ensures Kept(db, db', task, pc)
  {
    hide TablesOk, Evolves, OnlyTouches, Insertable, StoredUnder, ActivationReady, WellFormed, AccessSystems;
    var submission := task.job.submission;
    if pc == Claiming {
      BeginKeeps(db, submission, now);
      BeginTouches(db, submission, now);
      BeginMakesKnown(db, submission, now, task);
    } else {
      RefreshKeeps(db, submission.request, now);
      SameTablesTouch(db, db', task.employee);
      NothingTouched(db, task.employee);
    }
    assert JobOk(task.(pc := pc));
  }

  lemma BeginMakesKnown(db: Db, submission: Submission, now: Time, task: Task)
    requires task.request == submission.request && task.employee == submission.employee
    ensures Known(Begin(db, submission, now), task)
  {
  }

  lemma BeginTouches(db: Db, submission: Submission, now: Time)
    requires Insertable(db, submission) && WellFormed(submission)
    ensures OnlyTouches(db, Begin(db, submission, now), submission.employee)
  {
    BeginAddsRows(db, submission, now);
  }

  lemma RetriesRequestKeeps(db: Db, task: Task, pick: Option<StepId>, now: Time, pc: Pc, db': Db, events: seq<Event>)
    requires TablesOk(db) && TaskOk(db, task) && !task.job.Submit? && now > db.clock
    requires RetriesRequest(db, task, pick, now, pc, db', events)
    ensures Kept(db, db', task, pc)
  {
    hide TablesOk, Evolves, OnlyTouches, RetryPick, JobOk;
    JobFixed(task, pc);
    if pick.Some? {
      var s := pick.value;
      RetryPickFacts(db.steps, task.request, s);
      TaskStep(db, task, s);
      RescheduleKeeps(db, s, now);
      RowTouches(db, db', s, RescheduledRow(db.steps[s], now));
    } else {
      RefreshKeeps(db, task.request, now);
      SameTablesTouch(db, db', task.employee);
    }
    KnownStays(db, db', task);
  }

  lemma RetryPickFacts(steps: Steps, r: RequestId, s: StepId)
    requires RetryPick(steps, r, s)
    ensures InRequest(steps, r, s) && Retryable(steps[s])
  {
  }

  lemma CancelsRequestKeeps(db: Db, task: Task, now: Time, pc: Pc, db': Db, events: seq<Event>)
    requires TablesOk(db) && TaskOk(db, task) && !task.job.Submit? && now > db.clock
    requires CancelsRequest(db, task, now, pc, db', events)
    ensures Kept(db, db', task, pc)
  {
    hide TablesOk, Evolves, OnlyTouches, JobOk, AllFinishedIn, CompensationTargets;
    var r := task.request;
    var cancelled := CancelPending(db, r, now);
    CancelPendingKeeps(db, r, now);
    MarkCancelledKeeps(cancelled, r, now);
    EvolvesTransitive(db, cancelled, db');
    CancelTouches(db, task, now);
    KnownStays(db, db', task);
    TargetsFinished(db'.steps, r);
    assert JobOk(task.(pc := pc)) by {
      JobFixed(task, pc);
    }
  }

  lemma JobFixed(task: Task, pc: Pc)
    requires JobOk(task)
    ensures JobOk(task.(pc := pc))
  {
  }

  lemma CancelTouches(db: Db, task: Task, now: Time)
    requires TablesOk(db) && Known(db, task)
    ensures OnlyTouches(db, MarkCancelled(CancelPending(db, task.request, now), task.request, now), task.employee)
  {
    hide TablesOk, Known;
    forall s | s in db.steps && Cancellable(db.steps, task.request, s)
      ensures db.steps[s].command.employee == task.employee
    {
      TaskStep(db, task, s);
    }
    CancelLeaves(db, task.request, task.employee, now);
  }

  lemma CancelLeaves(db: Db, r: RequestId, e: EmployeeId, now: Time)
    requires forall s :: s in db.steps && Cancellable(db.steps, r, s) ==> db.steps[s].command.employee == e
    ensures OnlyTouches(db, MarkCancelled(CancelPending(db, r, now), r, now), e)
  {
    hide CancelledRow;
  }

  lemma BeginsChecksKeeps(db: Db, task: Task, pc: Pc, db': Db, events: seq<Event>)
    requires TablesOk(db) && TaskOk(db, task) && !task.job.Submit?
    requires BeginsChecks(db, task, pc, db', events)
    ensures Kept(db, db', task, pc)
  {
    hide TablesOk, Evolves, OnlyTouches, AllFinishedIn, VerificationTargets, Candidate;
    TargetsFinished(db.steps, task.request);
    NothingTouched(db, task.employee);
    JobFixed(task, pc);
  }

  lemma BeginsSettlingKeeps(db: Db, task: Task)
    requires TablesOk(db) && TaskOk(db, task) && !task.job.Submit?
    ensures Kept(db, db, task, Compensating(CompensationTargets(db.steps, task.request)))
  {
    hide TablesOk, Evolves, OnlyTouches, AllFinishedIn, CompensationTargets;
    TargetsFinished(db.steps, task.request);
    NothingTouched(db, task.employee);
    JobFixed(task, Compensating(CompensationTargets(db.steps, task.request)));
  }

  lemma ClaimsNextKeeps(db: Db, task: Task, pick: Option<StepId>, now: Time, pc: Pc, db': Db, events: seq<Event>)
    requires TablesOk(db) && TaskOk(db, task) && task.pc.Claiming? && now > db.clock
    requires ClaimsNext(db, task, pick, now, pc, db', events)
    ensures Kept(db, db', task, pc)
  {
    hide TablesOk, Evolves, OnlyTouches, JobOk, Blocked, Claimable;
    JobFixed(task, pc);
    if pick.Some? {
      var s := pick.value;
      ClaimableFacts(db.steps, task.request, s, now);
      TaskStep(db, task, s);
      ClaimKeeps(db, task.request, s, now);
      RowTouches(db, db', s, ClaimedRow(db.steps[s], now));
    } else {
      NothingTouched(db, task.employee);
    }
    KnownStays(db, db', task);
  }

  lemma ClaimableFacts(steps: Steps, r: RequestId, s: StepId, t: Time)
    requires Claimable(steps, r, s, t)
    ensures InRequest(steps, r, s) && Waiting(steps[s].state)
  {
  }

  lemma FailingKeeps(db: Db, task: Task, s: StepId, error: string, retry: RetryClass, retryAt: Option<Time>, now: Time, pc: Pc)
    requires TablesOk(db) && TaskOk(db, task) && Working(task.pc) && now > db.clock
    requires RunningIn(db.steps, task.request, s)
    requires pc == Compensating(CompensationTargets(Fail(db, s, error, retry, retryAt, now).steps, task.request)) || pc == Leaving
    ensures Kept(db, Fail(db, s, error, retry, retryAt, now), task, pc)
  {
    hide TablesOk, Evolves, OnlyTouches, JobOk, AllFinishedIn, CompensationTargets;
    var db' := Fail(db, s, error, retry, retryAt, now);
    JobFixed(task, pc);
    TaskStep(db, task, s);
    FailKeeps(db, s, error, retry, retryAt, now);
    RowTouches(db, db', s, FailedRow(db.steps[s], error, retry, retryAt, now));
    KnownStays(db, db', task);
    TargetsFinished(db'.steps, task.request);
  }

  lemma DispatchesKeeps(db: Db, adapters: set<TargetSystem>, task: Task, now: Time, pc: Pc, db': Db, events: seq<Event>)
    requires TablesOk(db) && TaskOk(db, task) && task.pc.Gated? && now > db.clock
    requires task.pc.step in db.steps && Dispatches(db, adapters, task, now, pc, db', events)
    ensures Kept(db, db', task, pc)
  {
    hide TablesOk, Evolves, OnlyTouches, JobOk, AllFinishedIn, CompensationTargets, ActivationReady, Fail;
    var s := task.pc.step;
    JobFixed(task, pc);
    TaskStep(db, task, s);
    if pc.Leaving? {
      ReleaseKeeps(db, s, now);
      RowTouches(db, db', s, ReleasedRow(db.steps[s], now));
      KnownStays(db, db', task);
    } else if pc.Compensating? {
      FailingKeeps(db, task, s, "adapter_not_registered", Permanent, None, now, pc);
    } else {
      NothingTouched(db, task.employee);
    }
  }

  lemma ReturnsKeeps(db: Db, task: Task, outcome: Outcome, now: Time, pc: Pc, db': Db, events: seq<Event>)
    requires TablesOk(db) && TaskOk(db, task) && task.pc.Calling? && now > db.clock
    requires task.pc.step in db.steps && Returns(db, task, outcome, now, pc, db', events)
    ensures Kept(db, db', task, pc)
  {
    hide TablesOk, Evolves, OnlyTouches, JobOk, AllFinishedIn, CompensationTargets, Fail;
    var s := task.pc.step;
    match outcome {
      case Success(evidence) =>
        JobFixed(task, pc);
        TaskStep(db, task, s);
        var state := SuccessState(db.steps[s].command.operation);
        CompleteKeeps(db, s, state, evidence, now);
        RowTouches(db, db', s, CompletedRow(db.steps[s], state, evidence, now));
        KnownStays(db, db', task);
      case AdapterError(code, retry, retryAt) =>
        FailingKeeps(db, task, s, code, retry, retryAt, now, pc);
    }
  }

  /** Recording an attempt, or nothing, on the tables of the task's employee. */
  lemma LoggingKeeps(db: Db, db': Db, task: Task, pc: Pc)
    requires TablesOk(db) && TaskOk(db, task) && Working(task.pc)
    requires PcOk(db.steps, task.request, pc)
    requires db' == db.(compensations := db'.compensations, clock := db'.clock) && db.clock <= db'.clock
    ensures Kept(db, db', task, pc)
  {
    hide TablesOk, Evolves, OnlyTouches, JobOk;
    JobFixed(task, pc);
    SameStepsKeeps(db, db');
    SameTablesTouch(db, db', task.employee);
    KnownStays(db, db', task);
  }

  lemma CompensatesStepKeeps(db: Db, adapters: set<TargetSystem>, task: Task, s: StepId, delay: nat, now: Time,
                             pc: Pc, db': Db, events: seq<Event>)
    requires TablesOk(db) && TaskOk(db, task) && task.pc.Compensating? && now > db.clock
    requires CompensatesStep(db, adapters, task, s, delay, now, pc, db', events)
    ensures Kept(db, db', task, pc)
  {
    hide TablesOk, Kept, Superseded;
    LoggingKeeps(db, db', task, pc);
  }

  lemma CompensationReturnsKeeps(db: Db, task: Task, succeeded: bool, delay: nat, now: Time,
                                 pc: Pc, db': Db, events: seq<Event>)
    requires TablesOk(db) && TaskOk(db, task) && task.pc.CallingCompensation? && now > db.clock
    requires task.pc.step in db.steps && CompensationReturns(db, task, succeeded, delay, now, pc, db', events)
    ensures Kept(db, db', task, pc)
  {
    hide TablesOk, Kept, AllFinishedIn;
    LoggingKeeps(db, db', task, pc);
  }

  lemma ChecksStepKeeps(db: Db, adapters: set<TargetSystem>, task: Task, s: StepId, pc: Pc, db': Db, events: seq<Event>)
    requires TablesOk(db) && TaskOk(db, task) && task.pc.Verifying?
    requires ChecksStep(db, adapters, task, s, pc, db', events)
    ensures Kept(db, db', task, pc)
  {
    hide TablesOk, Kept;
    LoggingKeeps(db, db', task, pc);
  }

  lemma CheckReturnsKeeps(db: Db, task: Task, verdict: Verdict, now: Time, pc: Pc, db': Db, events: seq<Event>)
    requires TablesOk(db) && TaskOk(db, task) && task.pc.CallingCheck? && now > db.clock
    requires task.pc.step in db.steps && CheckReturns(db, task, verdict, now, pc, db', events)
    ensures Kept(db, db', task, pc)
  {
    hide TablesOk, Evolves, OnlyTouches, JobOk, AllFinishedIn, Candidate;
    if db' == db {
      LoggingKeeps(db, db', task, pc);
    } else {
      var s := task.pc.step;
      JobFixed(task, pc);
      RecordVerificationKeeps(db, task.employee, db.steps[s].command.system, s, verdict.evidence, now);
      RecordTouches(db, db', task.employee, db.steps[s].command.system);
      KnownStays(db, db', task);
    }
  }

  lemma RecordTouches(db: Db, db': Db, e: EmployeeId, sys: TargetSystem)
    requires db'.steps == db.steps && (e, sys) in db'.verifications
    requires db'.verifications == db.verifications[(e, sys) := db'.verifications[(e, sys)]]
    ensures OnlyTouches(db, db', e)
  {
  }

  /** Every move keeps the table invariant and what its task relies on, and changes rows of
      the task's own employee only. */
  lemma MoveKeeps(db: Db, adapters: set<TargetSystem>, task: Task, move: Move, now: Time,
                  pc: Pc, db': Db, events: seq<Event>)
    requires TablesOk(db) && TaskOk(db, task) && now > db.clock
    requires Acts(db, adapters, task, move, now, pc, db', events)
    ensures Kept(db, db', task, pc)
  {
    hide TablesOk, TaskOk, Kept, BeginsRequest, RetriesRequest, CancelsRequest, BeginsChecks, ClaimsNext, Dispatches,
         Returns, CompensatesStep, CompensationReturns, ChecksStep, CheckReturns;
    match move {
      case BeginRequest => BeginsRequestKeeps(db, task, now, pc, db', events);
      case RetryRequest(pick) => RetriesRequestKeeps(db, task, pick, now, pc, db', events);
      case CancelRequest => CancelsRequestKeeps(db, task, now, pc, db', events);
      case BeginChecks => BeginsChecksKeeps(db, task, pc, db', events);
      case BeginRun => NothingKeeps(db, task, pc);
      case BeginSettling => BeginsSettlingKeeps(db, task);
      case ClaimNext(pick) => ClaimsNextKeeps(db, task, pick, now, pc, db', events);
      case Dispatch => DispatchesKeeps(db, adapters, task, now, pc, db', events);
      case Return(outcome) => ReturnsKeeps(db, task, outcome, now, pc, db', events);
      case CompensateStep(s, delay) => CompensatesStepKeeps(db, adapters, task, s, delay, now, pc, db', events);
      case CompensationReturn(ok, delay) => CompensationReturnsKeeps(db, task, ok, delay, now, pc, db', events);
      case CheckStep(s) => ChecksStepKeeps(db, adapters, task, s, pc, db', events);
      case CheckReturn(verdict) => CheckReturnsKeeps(db, task, verdict, now, pc, db', events);
      case Finish => NothingKeeps(db, task, pc);
    }
  }

  lemma NothingKeeps(db: Db, task: Task, pc: Pc)
    requires TablesOk(db) && TaskOk(db, task)
    requires (!task.job.Submit? && pc.Claiming?) || pc.Leaving?
    ensures Kept(db, db, task, pc)
  {
    hide TablesOk, Evolves, OnlyTouches;
    NothingTouched(db, task.employee);
  }

  // ---------------------------------------------------------------- the whole system

  ghost predicate TasksOk(db: Db, tasks: map<TaskId, Task>)
  {
    forall t :: t in tasks ==> TaskOk(db, tasks[t])
  }

  ghost predicate SystemOk(s: State)
  {
    LocksOk(s) && TablesOk(s.db) && TasksOk(s.db, s.tasks)
  }

  /** The steps a task relies on belong to its employee. */
  lemma PcOkStays(steps: Steps, steps': Steps, r: RequestId, e: EmployeeId, owner: EmployeeId, pc: Pc)
    requires PcOk(steps, r, pc) && StepsStay(steps, steps') && StepsOnlyOf(steps, steps', owner) && e != owner
    requires forall s :: InRequest(steps, r, s) ==> steps[s].command.employee == e
    ensures PcOk(steps', r, pc)
  {
  }

  /** Rely: a task that waits, or holds another employee's lock, is not disturbed. */
  lemma OthersUndisturbed(db: Db, db': Db, owner: EmployeeId, task: Task)
    requires TablesOk(db) && TaskOk(db, task) && Evolves(db, db') && StepsOnlyOf(db.steps, db'.steps, owner)
    requires HoldsEmployee(task) ==> task.employee != owner
    ensures TaskOk(db', task)
  {
    if Working(task.pc) {
      forall s | InRequest(db.steps, task.request, s)
        ensures db.steps[s].command.employee == task.employee
      {
        TaskStep(db, task, s);
      }
      hide TablesOk, StepsOnlyOf, StepsStay;
      PcOkStays(db.steps, db'.steps, task.request, task.employee, owner, task.pc);
    }
  }

  lemma ActKeepsTasks(s: State, t: TaskId, move: Move, now: Time, pc: Pc, db': Db, events: seq<Event>)
    requires SystemOk(s) && t in s.tasks && now > s.db.clock
    requires Acts(s.db, s.adapters, s.tasks[t], move, now, pc, db', events)
    ensures Kept(s.db, db', s.tasks[t], pc)
    ensures TasksOk(db', Moved(s, t, pc).tasks)
  {
    hide TablesOk, TaskOk, LocksOk, Acts, OnlyTouches, Evolves;
    MoveKeeps(s.db, s.adapters, s.tasks[t], move, now, pc, db', events);
    MovesStayInside(s.db, s.adapters, s.tasks[t], move, now, pc, db', events);
    forall o | o in s.tasks && o != t
      ensures TaskOk(db', s.tasks[o])
    {
      if HoldsEmployee(s.tasks[o]) && s.tasks[o].employee == s.tasks[t].employee {
        OneHolder(s, t, o);
      }
      TouchesSteps(s.db, db', s.tasks[t].employee);
      OthersUndisturbed(s.db, db', s.tasks[t].employee, s.tasks[o]);
    }
  }

  lemma TouchesSteps(db: Db, db': Db, e: EmployeeId)
    requires OnlyTouches(db, db', e)
    ensures StepsOnlyOf(db.steps, db'.steps, e)
  {
  }

  lemma WaitingTaskOk(db: Db, task: Task)
    requires MaySpawn(db, task) && task.pc.AwaitEmployee?
    ensures TaskOk(db, task)
  {
  }

  lemma LockingKeepsTask(db: Db, task: Task, pc: Pc)
    requires TaskOk(db, task) && !Working(pc)
    ensures TaskOk(db, task.(pc := pc))
  {
  }

  lemma ReadKeepsTasks(db: Db, db': Db, tasks: map<TaskId, Task>)
    requires TasksOk(db, tasks) && Evolves(db, db') && db'.steps == db.steps
    ensures TasksOk(db', tasks)
  {
    forall t | t in tasks
      ensures TaskOk(db', tasks[t])
    {
      assert TaskOk(db, tasks[t]);
    }
  }

  /** The invariant holds in every state of every run. */
  lemma StepKeepsSystem(s: State, a: Action, s': State)
    requires SystemOk(s) && Step(s, a, s')
    ensures SystemOk(s') && Evolves(s.db, s'.db)
  {
    hide TablesOk, LocksOk, TaskOk, Evolves, Acts, MaySpawn, OnlyTouches, RecoverStale, Refresh;
    LocksKept(s, a, s');
    NothingTouched(s.db, "");
    match a {
      case Spawn(t, body) => WaitingTaskOk(s.db, body);
      case TakeEmployee(t) => LockingKeepsTask(s.db, s.tasks[t], s'.tasks[t].pc);
      case TakeRequest(t) => LockingKeepsTask(s.db, s.tasks[t], Entered);
      case SkipBusy(t) =>
      case Act(t, move, now, pc, db, events) => ActKeepsTasks(s, t, move, now, pc, db, events);
      case Leave(t) =>
      case Restart(timeout, now) => RecoverStaleKeeps(s.db, timeout, now);
      case Read(r, now) =>
        RefreshKeeps(s.db, r, now);
        assert s'.db.steps == s.db.steps by {
          RefreshSteps(s.db, r, now);
        }
        ReadKeepsTasks(s.db, s'.db, s.tasks);
    }
  }

  lemma RefreshSteps(db: Db, r: RequestId, t: Time)
    ensures Refresh(db, r, t).steps == db.steps && Refresh(db, r, t).verifications == db.verifications
  {
  }

  lemma InitOk(s: State)
    requires Init(s)
    ensures SystemOk(s)
  {
  }
}
