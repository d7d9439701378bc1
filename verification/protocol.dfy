/** The provisioning engine as a state machine of asyncio tasks over the tables.

    A task suspends only while it waits for a lock or for an adapter; here every store
    operation is a step of its own, so tasks interleave at least as finely as they do in
    the program. Adapter outcomes, the choice of the next action and crashes are arbitrary.
    A ghost log records what happened. */
module Protocol {
  import opened Contracts
  import opened Tables

  type TaskId = nat

  datatype Job =
    | Submit(submission: Submission)
    | Retry
    | Cancel
    | VerifyNow
    | Recover      // run after a restart: takes the employee lock only
    | Work         // one round of the background worker
    | Settle       // a due compensation round

  datatype Pc =
    | AwaitEmployee
    | AwaitRequest
    | Entered
    | Claiming
    | Gated(step: StepId)
    | Calling(step: StepId)
    | Compensating(todo: set<StepId>)
    | CallingCompensation(step: StepId, todo: set<StepId>)
    | Verifying(todo: set<StepId>)
    | CallingCheck(step: StepId, todo: set<StepId>)
    | Leaving

  datatype Task = Task(job: Job, employee: EmployeeId, request: RequestId, pc: Pc)

  datatype Kind = Execution | Compensation | Check

  datatype Event =
    | Created(submission: Submission)
    | Claimed(command: Command)
    | Released(command: Command)
    | Rescheduled(command: Command)
    | CancelledRequest(request: RequestId)
    | Started(kind: Kind, command: Command, operation: Operation)   // what the adapter is asked to do
    | Ended(kind: Kind, command: Command)
    | Completed(command: Command)
    | Accepted(command: Command)
    | Restarted(recovered: set<StepId>)

  type Log = seq<Event>

  datatype State = State(
    db: Db,
    tasks: map<TaskId, Task>,
    employeeLocks: map<EmployeeId, TaskId>,
    requestLocks: map<RequestId, TaskId>,
    adapters: set<TargetSystem>,
    log: Log)

  datatype Outcome =
    | Success(evidence: string)
    | AdapterError(code: string, retry: RetryClass, retryAt: Option<Time>)

  datatype Verdict = Confirmed(evidence: string) | NotConfirmed | Raised

  /** What a task that holds its employee's lock does next. */
  datatype Move =
    | BeginRequest
    | RetryRequest(pick: Option<StepId>)
    | CancelRequest
    | BeginChecks
    | BeginRun
    | BeginSettling
    | ClaimNext(pick: Option<StepId>)
    | Dispatch
    | Return(outcome: Outcome)
    | CompensateStep(target: StepId, delay: nat)
    | CompensationReturn(succeeded: bool, delay: nat)
    | CheckStep(target: StepId)
    | CheckReturn(verdict: Verdict)
    | Finish

  datatype Action =
    | Spawn(task: TaskId, body: Task)
    | TakeEmployee(task: TaskId)
    | TakeRequest(task: TaskId)
    | SkipBusy(task: TaskId)
    | Act(task: TaskId, move: Move, now: Time, pc: Pc, db: Db, events: seq<Event>)
    | Leave(task: TaskId)
    | Restart(timeout: nat, now: Time)
    | Read(request: RequestId, now: Time)

  predicate TakesRequest(job: Job)
  {
    !job.VerifyNow? && !job.Recover?
  }

  predicate HoldsEmployee(task: Task)
  {
    !task.pc.AwaitEmployee?
  }

  predicate HoldsRequest(task: Task)
  {
    TakesRequest(task.job) && !task.pc.AwaitEmployee? && !task.pc.AwaitRequest?
  }

  /** The request exists and belongs to the employee whose lock the task takes. */
  predicate Known(db: Db, task: Task)
  {
    task.request in db.executions && db.executions[task.request].submission.employee == task.employee
  }

  /** What an entry point checks before it waits for the locks. */
  ghost predicate MaySpawn(db: Db, task: Task)
  {
    match task.job
    case Submit(submission) =>
      && task.request == submission.request && task.employee == submission.employee
      && WellFormed(submission) && UnmixedAccess(submission)
    case Retry => Known(db, task) && db.executions[task.request].cancelledAt.None?
    case _ => Known(db, task)
  }

  // ---------------------------------------------------------------- moves under the lock

  /** submit(): replay or reject a known key, check access gates, insert the request. */
  ghost predicate BeginsRequest(db: Db, task: Task, now: Time, pc: Pc, db': Db, events: seq<Event>)
    requires task.job.Submit?
  {
    var submission := task.job.submission;
    if r :| StoredUnder(db, submission.key, r) then
      && pc == Leaving && events == []
      && db' == if db.executions[r].submission == submission && db.executions[r].result.None?
                then Refresh(db, submission.request, now) else db
    else if (AccessSystems(submission) != {} && !ActivationReady(db.steps, db.verifications, task.employee, AccessSystems(submission)))
            || !Insertable(db, submission) then
      pc == Leaving && events == [] && db' == db
    else
      pc == Claiming && events == [Created(submission)] && db' == Begin(db, submission, now)
  }

  ghost predicate RetriesRequest(db: Db, task: Task, pick: Option<StepId>, now: Time, pc: Pc, db': Db, events: seq<Event>)
  {
    if pick.Some? then
      && RetryPick(db.steps, task.request, pick.value)
      && pc == Claiming
      && db' == Reschedule(db, pick.value, now)
      && events == [Rescheduled(db.steps[pick.value].command)]
    else
      && (forall s :: !RetryPick(db.steps, task.request, s))
      && pc == Leaving && events == [] && db' == Refresh(db, task.request, now)
  }

  ghost predicate CancelsRequest(db: Db, task: Task, now: Time, pc: Pc, db': Db, events: seq<Event>)
  {
    && db' == MarkCancelled(CancelPending(db, task.request, now), task.request, now)
    && pc == Compensating(CompensationTargets(db'.steps, task.request))
    && events == [CancelledRequest(task.request)]
  }

  ghost predicate BeginsChecks(db: Db, task: Task, pc: Pc, db': Db, events: seq<Event>)
  {
    var targets := VerificationTargets(db.steps, task.request);
    && db' == db && events == []
    && pc == if forall s :: s in targets ==> Candidate(db.steps, task.employee, db.steps[s].command.system, s)
             then Verifying(targets) else Leaving
  }

  ghost predicate ClaimsNext(db: Db, task: Task, pick: Option<StepId>, now: Time, pc: Pc, db': Db, events: seq<Event>)
  {
    if pick.Some? then
      && !Blocked(db.steps, task.request) && Claimable(db.steps, task.request, pick.value, now)
      && pc == Gated(pick.value)
      && db' == Claim(db, pick.value, now)
      && events == [Claimed(db.steps[pick.value].command)]
    else
      && (Blocked(db.steps, task.request) || forall s :: !Claimable(db.steps, task.request, s, now))
      && pc == Leaving && db' == db && events == []
  }

  /** The gates between a claim and the adapter call. */
  ghost predicate Dispatches(db: Db, adapters: set<TargetSystem>, task: Task, now: Time, pc: Pc, db': Db, events: seq<Event>)
    requires task.pc.Gated? && task.pc.step in db.steps
  {
    var s := task.pc.step;
    var command := db.steps[s].command;
    if GrantsAccess(command.operation)
       && !ActivationReady(db.steps, db.verifications, command.employee, {command.system}) then
      && pc == Leaving && db' == Release(db, s, now) && events == [Released(command)]
    else if command.system !in adapters then
      && db' == Fail(db, s, "adapter_not_registered", Permanent, None, now)
      && pc == Compensating(CompensationTargets(db'.steps, task.request)) && events == []
    else
      && pc == Calling(s) && db' == db && events == [Started(Execution, command, command.operation)]
  }

  ghost predicate Returns(db: Db, task: Task, outcome: Outcome, now: Time, pc: Pc, db': Db, events: seq<Event>)
    requires task.pc.Calling? && task.pc.step in db.steps
  {
    var s := task.pc.step;
    var command := db.steps[s].command;
    match outcome
    case Success(evidence) =>
      && db' == Complete(db, s, SuccessState(command.operation), evidence, now)
      && pc == Claiming
      && events == [Ended(Execution, command), Completed(command)]
    case AdapterError(code, retry, retryAt) =>
      && db' == Fail(db, s, code, retry, retryAt, now)
      && pc == (if db'.steps[s].state.DeadLetter?
                then Compensating(CompensationTargets(db'.steps, task.request)) else Leaving)
      && events == [Ended(Execution, command)]
  }

  function CompensationOf(db: Db, task: Task, s: StepId): CompensationKey
    requires s in db.steps
  {
    CompensationKey(task.request, s, CompensatingAction(db.steps[s].command.system))
  }

  ghost predicate CompensatesStep(db: Db, adapters: set<TargetSystem>, task: Task, s: StepId, delay: nat, now: Time,
                                  pc: Pc, db': Db, events: seq<Event>)
    requires task.pc.Compensating?
  {
    && s in task.pc.todo && s in db.steps
    && var rest := task.pc.todo - {s};
       if Superseded(db.steps, task.employee, task.request, s) then
         && pc == Compensating(rest) && events == []
         && db' == RecordCompensation(db, CompensationOf(db, task, s), CompSuperseded, None, now)
       else if db.steps[s].command.system !in adapters then
         && pc == Compensating(rest) && events == []
         && db' == RecordCompensation(db, CompensationOf(db, task, s), CompFailed, Some(delay), now)
       else
         && pc == CallingCompensation(s, rest) && db' == db
         && events == [Started(Compensation, db.steps[s].command, CompensatingAction(db.steps[s].command.system))]
  }

  ghost predicate CompensationReturns(db: Db, task: Task, succeeded: bool, delay: nat, now: Time,
                                      pc: Pc, db': Db, events: seq<Event>)
    requires task.pc.CallingCompensation? && task.pc.step in db.steps
  {
    var s := task.pc.step;
    && pc == Compensating(task.pc.todo)
    && events == [Ended(Compensation, db.steps[s].command)]
    && db' == if succeeded then RecordCompensation(db, CompensationOf(db, task, s), CompSucceeded, None, now)
              else RecordCompensation(db, CompensationOf(db, task, s), CompFailed, Some(delay), now)
  }

  ghost predicate ChecksStep(db: Db, adapters: set<TargetSystem>, task: Task, s: StepId, pc: Pc, db': Db, events: seq<Event>)
    requires task.pc.Verifying?
  {
    && s in task.pc.todo && s in db.steps && db' == db
    && if db.steps[s].command.system !in adapters then pc == Leaving && events == []
       else pc == CallingCheck(s, task.pc.todo - {s}) && events == [Started(Check, db.steps[s].command, Verify)]
  }

  ghost predicate CheckReturns(db: Db, task: Task, verdict: Verdict, now: Time, pc: Pc, db': Db, events: seq<Event>)
    requires task.pc.CallingCheck? && task.pc.step in db.steps
  {
    var s := task.pc.step;
    var command := db.steps[s].command;
    if verdict.NotConfirmed? then
      && pc == Verifying(task.pc.todo) && db' == db && events == [Ended(Check, command)]
    else if verdict.Raised? || !Candidate(db.steps, task.employee, command.system, s) then
      && pc == Leaving && db' == db && events == [Ended(Check, command)]
    else
      && pc == Verifying(task.pc.todo)
      && db' == RecordVerification(db, task.employee, command.system, s, verdict.evidence, now)
      && events == [Ended(Check, command), Accepted(command)]
  }

  ghost predicate Acts(db: Db, adapters: set<TargetSystem>, task: Task, move: Move, now: Time,
                       pc: Pc, db': Db, events: seq<Event>)
  {
    match move
    case BeginRequest => task.pc.Entered? && task.job.Submit? && BeginsRequest(db, task, now, pc, db', events)
    case RetryRequest(pick) => task.pc.Entered? && task.job.Retry? && RetriesRequest(db, task, pick, now, pc, db', events)
    case CancelRequest => task.pc.Entered? && task.job.Cancel? && CancelsRequest(db, task, now, pc, db', events)
    case BeginChecks => task.pc.Entered? && task.job.VerifyNow? && BeginsChecks(db, task, pc, db', events)
    case BeginRun =>
      && task.pc.Entered? && (task.job.Recover? || task.job.Work?)
      && pc == Claiming && db' == db && events == []
    case BeginSettling =>
      && task.pc.Entered? && task.job.Settle?
      && pc == Compensating(CompensationTargets(db.steps, task.request)) && db' == db && events == []
    case ClaimNext(pick) => task.pc.Claiming? && ClaimsNext(db, task, pick, now, pc, db', events)
    case Dispatch => task.pc.Gated? && task.pc.step in db.steps && Dispatches(db, adapters, task, now, pc, db', events)
    case Return(outcome) =>
      task.pc.Calling? && task.pc.step in db.steps && Returns(db, task, outcome, now, pc, db', events)
    case CompensateStep(s, delay) =>
      task.pc.Compensating? && CompensatesStep(db, adapters, task, s, delay, now, pc, db', events)
    case CompensationReturn(succeeded, delay) =>
      && task.pc.CallingCompensation? && task.pc.step in db.steps
      && CompensationReturns(db, task, succeeded, delay, now, pc, db', events)
    case CheckStep(s) => task.pc.Verifying? && ChecksStep(db, adapters, task, s, pc, db', events)
    case CheckReturn(verdict) =>
      task.pc.CallingCheck? && task.pc.step in db.steps && CheckReturns(db, task, verdict, now, pc, db', events)
    case Finish =>
      && (task.pc == Compensating({}) || task.pc == Verifying({}))
      && pc == Leaving && db' == db && events == []
  }

  // ---------------------------------------------------------------- steps of the system

  function Moved(s: State, t: TaskId, pc: Pc): State
    requires t in s.tasks
  {
    s.(tasks := s.tasks[t := s.tasks[t].(pc := pc)])
  }

  /** The task ends and the locks it holds are released. */
  function Gone(s: State, t: TaskId): State
  {
    s.(tasks := s.tasks - {t},
       employeeLocks := map e | e in s.employeeLocks && s.employeeLocks[e] != t :: s.employeeLocks[e],
       requestLocks := map r | r in s.requestLocks && s.requestLocks[r] != t :: s.requestLocks[r])
  }

  ghost predicate Step(s: State, a: Action, s': State)
  {
    match a
    case Spawn(t, body) =>
      t !in s.tasks && body.pc.AwaitEmployee? && MaySpawn(s.db, body) && s' == s.(tasks := s.tasks[t := body])
    case TakeEmployee(t) =>
      && t in s.tasks && s.tasks[t].pc.AwaitEmployee? && s.tasks[t].employee !in s.employeeLocks
      && s' == Moved(s, t, if TakesRequest(s.tasks[t].job) then AwaitRequest else Entered)
               .(employeeLocks := s.employeeLocks[s.tasks[t].employee := t])
    case TakeRequest(t) =>
      && t in s.tasks && s.tasks[t].pc.AwaitRequest? && s.tasks[t].request !in s.requestLocks
      && s' == Moved(s, t, Entered).(requestLocks := s.requestLocks[s.tasks[t].request := t])
    case SkipBusy(t) =>
      && t in s.tasks && s.tasks[t].job.Work? && s.tasks[t].pc.AwaitRequest? && s.tasks[t].request in s.requestLocks
      && s' == Gone(s, t)
    case Act(t, move, now, pc, db, events) =>
      && t in s.tasks && now > s.db.clock
      && Acts(s.db, s.adapters, s.tasks[t], move, now, pc, db, events)
      && s' == Moved(s, t, pc).(db := db, log := s.log + events)
    case Leave(t) =>
      t in s.tasks && s.tasks[t].pc.Leaving? && s' == Gone(s, t)
    case Restart(timeout, now) =>
      && now > s.db.clock
      && s' == s.(tasks := map[], employeeLocks := map[], requestLocks := map[],
                  db := RecoverStale(s.db, timeout, now),
                  log := s.log + [Restarted(StaleSteps(s.db.steps, timeout, now))])
    case Read(r, now) =>
      now > s.db.clock && s' == s.(db := Refresh(s.db, r, now))
  }

  ghost predicate Init(s: State)
  {
    && s.db == EMPTY_DB && s.tasks == map[] && s.employeeLocks == map[] && s.requestLocks == map[] && s.log == []
  }

  /** A run of the service: any interleaving of any number of requests and crashes. */
  datatype Run = Run(states: seq<State>, actions: seq<Action>)

  ghost predicate IsRun(run: Run)
  {
    && |run.states| == |run.actions| + 1
    && Init(run.states[0])
    && forall i :: 0 <= i < |run.actions| ==> Step(run.states[i], run.actions[i], run.states[i + 1])
  }
}
