/** The durable tables and the effect of every store operation on them.

    Step rows keep the submitted command; the columns copied from it at insertion
    (request, sequence, attempt limit, idempotency key) are read from the command.
    Every operation is given the instant `t` its timestamps are taken from, later than
    every instant handed out before. */
module Tables {
  import opened Contracts

  /** Microseconds. */
  type Time = int

  const SECOND: Time := 1_000_000

  datatype RetryClass = Transient | Permanent

  datatype StepRow = StepRow(
    command: Command,
    state: StepState,
    attempts: nat,
    retryClass: Option<RetryClass>,
    evidence: Option<string>,
    error: Option<string>,
    nextRetryAt: Option<Time>,
    claimedAt: Option<Time>,
    updatedAt: Time)

  datatype RequestState = ReqPending | ReqRunning | ReqRetryWait | ReqDeadLetter | ReqCompleted

  datatype ExecutionRow = ExecutionRow(
    submission: Submission,
    state: RequestState,
    result: Option<RequestState>,
    cancelledAt: Option<Time>)

  datatype DeadLetterRow = DeadLetterRow(error: string, resolvedAt: Option<Time>)

  datatype CompensationState = CompSucceeded | CompFailed | CompSuperseded

  datatype CompensationRow = CompensationRow(
    state: CompensationState,
    attempts: nat,
    maxAttempts: nat,
    nextRetryAt: Option<Time>)

  datatype CompensationKey = CompensationKey(request: RequestId, step: StepId, action: Operation)

  datatype VerificationRow = VerificationRow(source: StepId, evidence: string)

  type Executions = map<RequestId, ExecutionRow>
  type Steps = map<StepId, StepRow>
  type Verifications = map<(EmployeeId, TargetSystem), VerificationRow>

  datatype Db = Db(
    executions: Executions,
    steps: Steps,
    deadLetters: map<StepId, DeadLetterRow>,
    compensations: map<CompensationKey, CompensationRow>,
    verifications: Verifications,
    clock: Time)

  const EMPTY_DB := Db(map[], map[], map[], map[], map[], 0)

  // ---------------------------------------------------------------- reading

  predicate InRequest(steps: Steps, r: RequestId, s: StepId)
  {
    s in steps && steps[s].command.request == r
  }

  predicate OfEmployee(steps: Steps, e: EmployeeId, s: StepId)
  {
    s in steps && steps[s].command.employee == e
  }

  /** `p` comes before `s` in the same request. */
  predicate Before(steps: Steps, p: StepId, s: StepId)
  {
    && p in steps && s in steps
    && steps[p].command.request == steps[s].command.request
    && steps[p].command.sequence < steps[s].command.sequence
  }

  predicate Due(at: Option<Time>, t: Time)
  {
    at.None? || at.value <= t
  }

  /** A step of `r` is running, dead-lettered or failed. */
  ghost predicate Blocked(steps: Steps, r: RequestId)
  {
    exists s :: InRequest(steps, r, s) && !Done(steps[s].state) && !Waiting(steps[s].state)
  }

  /** The claim query's row condition. */
  ghost predicate Claimable(steps: Steps, r: RequestId, s: StepId, t: Time)
  {
    && InRequest(steps, r, s)
    && Waiting(steps[s].state)
    && Due(steps[s].nextRetryAt, t)
    && forall p :: Before(steps, p, s) ==> Done(steps[p].state)
  }

  /** The row condition of a manual retry. */
  predicate Retryable(row: StepRow)
  {
    (row.state.Failed? || row.state.DeadLetter? || row.state.RetryWait?) && row.attempts < row.command.maxAttempts
  }

  /** The row a manual retry picks: the first retryable one. */
  ghost predicate RetryPick(steps: Steps, r: RequestId, s: StepId)
  {
    && InRequest(steps, r, s) && Retryable(steps[s])
    && forall p :: InRequest(steps, r, p) && Retryable(steps[p]) ==>
         steps[s].command.sequence <= steps[p].command.sequence
  }

  /** A provisioning step of `e` on `sys` in force: any state but compensated. */
  predicate Provisioning(steps: Steps, e: EmployeeId, sys: TargetSystem, s: StepId)
  {
    && OfEmployee(steps, e, s)
    && steps[s].command.system == sys
    && Provisions(steps[s].command.operation)
    && !steps[s].state.Compensated?
  }

  /** The newest finished provisioning step of `e` on `sys`: the only step whose
      verification counts. */
  ghost predicate Candidate(steps: Steps, e: EmployeeId, sys: TargetSystem, s: StepId)
  {
    && Provisioning(steps, e, sys, s) && Finished(steps[s].state)
    && forall o :: Provisioning(steps, e, sys, o) && Finished(steps[o].state) && o != s ==>
         steps[o].updatedAt < steps[s].updatedAt
  }

  /** Why access to one system may not be granted yet. */
  datatype Gap = CreatedDisabledMissing | VerificationMissing | ProvisioningIncomplete

  datatype Blocker = NothingProvisioned | Blocker(system: TargetSystem, gap: Gap)

  ghost predicate CreatedDisabled(steps: Steps, e: EmployeeId, sys: TargetSystem)
  {
    exists s :: Provisioning(steps, e, sys, s) && steps[s].command.operation.CreateDisabled? && Finished(steps[s].state)
  }

  /** Nothing stands against granting access on `sys`: the account was created disabled,
      the current candidate is verified, and nothing unfinished is newer than it. */
  ghost predicate Cleared(steps: Steps, verifications: Verifications, e: EmployeeId, sys: TargetSystem)
  {
    && CreatedDisabled(steps, e, sys)
    && (e, sys) in verifications
    && var source := verifications[(e, sys)].source;
       && Candidate(steps, e, sys, source)
       && forall o :: Provisioning(steps, e, sys, o) && !Finished(steps[o].state) ==>
            steps[o].updatedAt < steps[source].updatedAt
  }

  ghost predicate Touched(steps: Steps, e: EmployeeId, sys: TargetSystem)
  {
    exists s :: Provisioning(steps, e, sys, s)
  }

  /** Every system the employee is provisioned on, and every required one, is cleared. */
  ghost predicate ActivationReady(steps: Steps, verifications: Verifications, e: EmployeeId, required: set<TargetSystem>)
  {
    && (required != {} || exists sys :: Touched(steps, e, sys))
    && forall sys :: sys in required || Touched(steps, e, sys) ==> Cleared(steps, verifications, e, sys)
  }

  /** A later finished state-changing step `o` of the employee on the same system, in
      another request, makes the compensation of `s` stale. */
  predicate Supersedes(steps: Steps, e: EmployeeId, r: RequestId, s: StepId, o: StepId)
    requires s in steps
  {
    && OfEmployee(steps, e, o)
    && steps[o].command.request != r
    && steps[o].updatedAt > steps[s].updatedAt
    && Finished(steps[o].state)
    && steps[o].command.system == steps[s].command.system
    && StateChanging(steps[o].command.operation)
  }

  ghost predicate Superseded(steps: Steps, e: EmployeeId, r: RequestId, s: StepId)
  {
    InRequest(steps, r, s) ==> exists o :: Supersedes(steps, e, r, s, o)
  }

  /** The last finished step of `r` on its system among those `counts` selects. */
  ghost predicate LastFinished(steps: Steps, r: RequestId, counts: Operation -> bool, s: StepId)
  {
    && InRequest(steps, r, s) && Finished(steps[s].state) && counts(steps[s].command.operation)
    && forall o :: InRequest(steps, r, o) && Finished(steps[o].state) && counts(steps[o].command.operation)
                   && steps[o].command.system == steps[s].command.system ==>
         steps[o].command.sequence <= steps[s].command.sequence
  }

  /** The steps a compensation round acts on: per system, the last finished creation,
      update or activation of the request. */
  ghost function CompensationTargets(steps: Steps, r: RequestId): set<StepId>
  {
    set s | s in steps && LastFinished(steps, r, Compensable, s)
  }

  /** The steps an external verification checks: per system, the last finished creation
      or update of the request. */
  ghost function VerificationTargets(steps: Steps, r: RequestId): set<StepId>
  {
    set s | s in steps && LastFinished(steps, r, Provisions, s)
  }

  // ---------------------------------------------------------------- writing

  function At(db: Db, t: Time): Db
  {
    db.(clock := t)
  }

  function PutRow(db: Db, s: StepId, row: StepRow): Db
  {
    db.(steps := db.steps[s := row])
  }

  function SetRequestState(db: Db, r: RequestId, state: RequestState): Db
  {
    if r in db.executions then
      db.(executions := db.executions[r := db.executions[r].(state := state)])
    else db
  }

  function ClaimedRow(row: StepRow, t: Time): StepRow
  {
    row.(state := Running, attempts := row.attempts + 1, claimedAt := Some(t), updatedAt := t)
  }

  function Claim(db: Db, s: StepId, t: Time): Db
    requires s in db.steps
  {
    At(SetRequestState(PutRow(db, s, ClaimedRow(db.steps[s], t)), db.steps[s].command.request, ReqRunning), t)
  }

  function CompletedRow(row: StepRow, state: StepState, evidence: string, t: Time): StepRow
  {
    row.(state := state, evidence := Some(evidence), error := None,
         nextRetryAt := None, claimedAt := None, updatedAt := t)
  }

  function Complete(db: Db, s: StepId, state: StepState, evidence: string, t: Time): Db
  {
    if s in db.steps then At(PutRow(db, s, CompletedRow(db.steps[s], state, evidence, t)), t) else At(db, t)
  }

  /** A failed attempt is final when attempts ran out or the error is permanent. */
  function FailureState(row: StepRow, retry: RetryClass): StepState
  {
    if row.attempts >= row.command.maxAttempts || retry.Permanent? then DeadLetter else RetryWait
  }

  function FailedRow(row: StepRow, error: string, retry: RetryClass, retryAt: Option<Time>, t: Time): StepRow
  {
    var state := FailureState(row, retry);
    row.(state := state, retryClass := Some(retry), error := Some(error),
         nextRetryAt := if state.RetryWait? then retryAt else None, claimedAt := None, updatedAt := t)
  }

  /** INSERT OR IGNORE: an earlier dead letter of the step stays as it is. */
  function AddDeadLetter(db: Db, s: StepId, error: string): Db
  {
    if s in db.deadLetters then db
    else db.(deadLetters := db.deadLetters[s := DeadLetterRow(error, None)])
  }

  function Fail(db: Db, s: StepId, error: string, retry: RetryClass, retryAt: Option<Time>, t: Time): Db
    requires s in db.steps
  {
    var put := At(PutRow(db, s, FailedRow(db.steps[s], error, retry, retryAt, t)), t);
    if FailureState(db.steps[s], retry).DeadLetter? then AddDeadLetter(put, s, error) else put
  }

  function RescheduledRow(row: StepRow, t: Time): StepRow
  {
    row.(state := RetryWait, nextRetryAt := Some(t), claimedAt := None, updatedAt := t)
  }

  function ResolveDeadLetter(db: Db, s: StepId, t: Time): Db
  {
    if s in db.deadLetters then
      db.(deadLetters := db.deadLetters[s := db.deadLetters[s].(resolvedAt := Some(t))])
    else db
  }

  function Reschedule(db: Db, s: StepId, t: Time): Db
    requires s in db.steps
  {
    ResolveDeadLetter(At(PutRow(db, s, RescheduledRow(db.steps[s], t)), t), s, t)
  }

  const ACTIVATION_DELAY: Time := 30 * SECOND

  function ReleasedRow(row: StepRow, t: Time): StepRow
  {
    row.(state := RetryWait, attempts := if row.attempts > 0 then row.attempts - 1 else 0,
         error := Some("mandatory_verification_incomplete"),
         nextRetryAt := Some(t + ACTIVATION_DELAY), claimedAt := None, updatedAt := t)
  }

  function ResetRequest(db: Db, r: RequestId): Db
  {
    if r in db.executions then
      db.(executions := db.executions[r := db.executions[r].(state := ReqRetryWait, result := None)])
    else db
  }

  /** A claimed activation goes back to waiting without using up an attempt. */
  function Release(db: Db, s: StepId, t: Time): Db
    requires s in db.steps
  {
    var put := if db.steps[s].state.Running? then PutRow(db, s, ReleasedRow(db.steps[s], t)) else db;
    At(ResetRequest(put, db.steps[s].command.request), t)
  }

  function CancelledRow(row: StepRow, t: Time): StepRow
  {
    row.(state := Compensated, error := Some("request_cancelled"),
         nextRetryAt := None, claimedAt := None, updatedAt := t)
  }

  predicate Cancellable(steps: Steps, r: RequestId, s: StepId)
  {
    InRequest(steps, r, s) && Waiting(steps[s].state)
  }

  function CancelPending(db: Db, r: RequestId, t: Time): Db
  {
    At(db.(steps := map s | s in db.steps ::
      if Cancellable(db.steps, r, s) then CancelledRow(db.steps[s], t) else db.steps[s]), t)
  }

  function MarkCancelled(db: Db, r: RequestId, t: Time): Db
  {
    At(if r in db.executions then
         db.(executions := db.executions[r := db.executions[r].(cancelledAt := Some(t))])
       else db, t)
  }

  function RecoveredRow(row: StepRow, t: Time): StepRow
  {
    row.(state := RetryWait, nextRetryAt := Some(t), claimedAt := None,
         error := Some("worker_restart_recovery"), updatedAt := t)
  }

  /** Claimed longer than `timeout` seconds ago and still running. */
  predicate Stale(steps: Steps, s: StepId, timeout: nat, t: Time)
  {
    && s in steps && steps[s].state.Running?
    && steps[s].claimedAt.Some? && steps[s].claimedAt.value < t - timeout * SECOND
  }

  function StaleSteps(steps: Steps, timeout: nat, t: Time): set<StepId>
  {
    set s | s in steps && Stale(steps, s, timeout, t)
  }

  function RecoverStale(db: Db, timeout: nat, t: Time): Db
  {
    At(db.(steps := map s | s in db.steps ::
      if Stale(db.steps, s, timeout, t) then RecoveredRow(db.steps[s], t) else db.steps[s]), t)
  }

  function RecordVerification(db: Db, e: EmployeeId, sys: TargetSystem, s: StepId, evidence: string, t: Time): Db
  {
    At(db.(verifications := db.verifications[(e, sys) := VerificationRow(s, evidence)]), t)
  }

  const COMPENSATION_ATTEMPTS := 3

  function CompensationAttempts(db: Db, key: CompensationKey): nat
  {
    if key in db.compensations then db.compensations[key].attempts else 0
  }

  function Power2(n: nat): nat
  {
    if n == 0 then 1 else 2 * Power2(n - 1)
  }

  function Backoff(delay: nat, attempt: nat): nat
  {
    var seconds := delay * Power2(if attempt > 0 then attempt - 1 else 0);
    if seconds <= 300 then seconds else 300
  }

  /** One more attempt of a compensating action; a failure with a delay is tried again
      after a bounded exponential wait. */
  function RecordCompensation(db: Db, key: CompensationKey, state: CompensationState,
                              delay: Option<nat>, t: Time): Db
  {
    var attempts := CompensationAttempts(db, key) + 1;
    var retryAt := if state.CompFailed? && delay.Some? then Some(t + Backoff(delay.value, attempts) * SECOND) else None;
    var limit := if key in db.compensations then db.compensations[key].maxAttempts else COMPENSATION_ATTEMPTS;
    At(db.(compensations := db.compensations[key := CompensationRow(state, attempts, limit, retryAt)]), t)
  }

  function FreshRow(command: Command, t: Time): StepRow
  {
    StepRow(command, Pending, 0, None, None, None, None, None, t)
  }

  /** No uniqueness constraint stands against inserting rows for the commands. */
  ghost predicate Unclashing(steps: Steps, commands: seq<Command>)
  {
    && (forall i :: 0 <= i < |commands| ==> commands[i].stepId !in steps)
    && (forall i, s :: 0 <= i < |commands| && s in steps ==> steps[s].command.key != commands[i].key)
    && (forall i, j :: 0 <= i < j < |commands| ==>
          commands[i].stepId != commands[j].stepId && commands[i].key != commands[j].key)
  }

  /** No uniqueness constraint of the tables stands against inserting the submission. */
  ghost predicate Insertable(db: Db, submission: Submission)
  {
    && submission.request !in db.executions
    && (forall r :: r in db.executions ==> db.executions[r].submission.correlation != submission.correlation)
    && (forall r :: r in db.executions ==> db.executions[r].submission.key != submission.key)
    && Unclashing(db.steps, submission.steps)
  }

  function StepIds(commands: seq<Command>): set<StepId>
  {
    set i | 0 <= i < |commands| :: commands[i].stepId
  }

  /** The rows inserted for a submission. */
  function InsertRows(steps: Steps, commands: seq<Command>, t: Time): Steps
  {
    if commands == [] then steps
    else
      var last := commands[|commands| - 1];
      InsertRows(steps, commands[..|commands| - 1], t)[last.stepId := FreshRow(last, t)]
  }

  function Begin(db: Db, submission: Submission, t: Time): Db
  {
    At(db.(executions := db.executions[submission.request := ExecutionRow(submission, ReqPending, None, None)],
           steps := InsertRows(db.steps, submission.steps, t)), t)
  }

  /** The execution stored under an idempotency key. */
  ghost predicate StoredUnder(db: Db, key: Key, r: RequestId)
  {
    r in db.executions && db.executions[r].submission.key == key
  }

  // ---------------------------------------------------------------- request summary

  function StatesOf(steps: Steps, r: RequestId): set<StepState>
  {
    set s | s in steps && InRequest(steps, r, s) :: steps[s].state
  }

  /** The request state as a summary of the set of its steps' states. */
  function Summary(states: set<StepState>): RequestState
  {
    if states <= {Succeeded, Verified, Compensated} then ReqCompleted
    else if DeadLetter in states then ReqDeadLetter
    else if RetryWait in states then ReqRetryWait
    else if Running in states then ReqRunning
    else ReqPending
  }

  /** Reading a request stores its summary. */
  function Refresh(db: Db, r: RequestId, t: Time): Db
  {
    var state := Summary(StatesOf(db.steps, r));
    At(if r in db.executions then
         db.(executions := db.executions[r := db.executions[r].(state := state, result := Some(state))])
       else db, t)
  }
}
