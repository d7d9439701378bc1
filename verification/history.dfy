/** The log of a run: which adapter calls are in flight, in what order steps finished and
    verifications were accepted, and the two promises about access stated on the log
    alone: verified before active, and compensation never undoes newer work. */
module History {
  import opened Contracts
  import opened Tables
  import opened Frontier
  import opened Protocol
  import opened Isolation

  // ---------------------------------------------------------------- calls in flight

  /** A call ends when its adapter returns or the process dies. */
  predicate Closes(event: Event, start: Event)
    requires start.Started?
  {
    event.Restarted? || event == Ended(start.kind, start.command)
  }

  /** The call started at `i` ended before position `k`. */
  ghost predicate ClosedBy(log: Log, i: nat, k: nat)
    requires i < |log| && log[i].Started?
  {
    exists m :: i < m < k && m < |log| && Closes(log[m], log[i])
  }

  predicate CallOf(event: Event, e: EmployeeId)
  {
    event.Started? && event.command.employee == e
  }

  /** No adapter call for `e` is in flight at the end of the log. */
  ghost predicate Quiet(log: Log, e: EmployeeId)
  {
    forall i :: 0 <= i < |log| && CallOf(log[i], e) ==> ClosedBy(log, i, |log|)
  }

  /** The adapter calls of one employee never overlap. */
  ghost predicate CallsSerial(log: Log)
  {
    forall i, j :: 0 <= i < j < |log| && log[i].Started? && CallOf(log[j], log[i].command.employee) ==>
      ClosedBy(log, i, j)
  }

  // ---------------------------------------------------------------- verified before active

  /** A provisioning step of `e` on `sys` finished. */
  predicate ProvisionedAt(event: Event, e: EmployeeId, sys: TargetSystem)
  {
    && event.Completed? && event.command.employee == e && event.command.system == sys
    && Provisions(event.command.operation)
  }

  /** No provisioning step on `sys` finishes from position `c` until the call at `i` ended. */
  ghost predicate NoneSince(log: Log, i: nat, c: nat, e: EmployeeId, sys: TargetSystem)
    requires i < |log| ==> log[i].Started?
  {
    forall k :: c < k < |log| && ProvisionedAt(log[k], e, sys) ==> i < k && i < |log| && ClosedBy(log, i, k)
  }

  /** A provisioning step on `sys` finished at `c`, its verification was accepted at `j`, and
      an account was created disabled at `d`, all before `i`. */
  predicate VerifiedAt(log: Log, i: nat, e: EmployeeId, sys: TargetSystem, c: int, j: int, d: int)
  {
    && 0 <= c < j < i && 0 <= d < i && i <= |log|
    && ProvisionedAt(log[c], e, sys)
    && log[j] == Accepted(log[c].command)
    && ProvisionedAt(log[d], e, sys) && log[d].command.operation.CreateDisabled?
  }

  /** Before the call at `i` an account on `sys` was created disabled, and the verification
      of a finished provisioning step was accepted; no other provisioning step on `sys`
      finished from that step's completion on until the call ended. */
  ghost predicate VerifiedOn(log: Log, i: nat, e: EmployeeId, sys: TargetSystem)
    requires i < |log| ==> log[i].Started?
  {
    exists c, j, d :: VerifiedAt(log, i, e, sys, c, j, d) && NoneSince(log, i, c, e, sys)
  }

  /** Every system the employee had been provisioned on before position `i`. */
  ghost predicate ProvisionedBefore(log: Log, i: nat, e: EmployeeId, sys: TargetSystem)
  {
    exists k :: 0 <= k < i && k < |log| && ProvisionedAt(log[k], e, sys)
  }

  /** Any adapter call, of whatever kind, that asks for access to be granted. */
  predicate IsActivation(event: Event)
  {
    event.Started? && (event.operation.Activate? || event.operation.Reactivate?)
  }

  ghost predicate VerifiedBeforeActive(log: Log)
  {
    forall i, sys ::
      (&& 0 <= i < |log| && IsActivation(log[i])
       && (sys == log[i].command.system || ProvisionedBefore(log, i, log[i].command.employee, sys))) ==>
        VerifiedOn(log, i, log[i].command.employee, sys)
  }

  // ---------------------------------------------------------------- compensation

  predicate IsCompensation(event: Event)
  {
    event.Started? && event.kind.Compensation?
  }

  /** Another request of the employee changed the state of the command's system. */
  predicate NewerWork(event: Event, command: Command)
  {
    && event.Completed? && event.command.employee == command.employee
    && event.command.system == command.system && event.command.request != command.request
    && StateChanging(event.command.operation)
  }

  /** The step compensated by the call at `i` had finished, and no newer work of another
      request finishes on its system from then on until the call ended. */
  ghost predicate NotStale(log: Log, i: nat, command: Command)
    requires i < |log| ==> log[i].Started?
  {
    exists c :: 0 <= c < i && i <= |log| && log[c] == Completed(command)
      && forall k :: c < k < |log| && NewerWork(log[k], command) ==> i < k && ClosedBy(log, i, k)
  }

  ghost predicate CompensationNeverUndoesNewer(log: Log)
  {
    forall i :: 0 <= i < |log| && IsCompensation(log[i]) ==> NotStale(log, i, log[i].command)
  }

  ghost predicate PromisesKept(log: Log)
  {
    CallsSerial(log) && VerifiedBeforeActive(log) && CompensationNeverUndoesNewer(log)
  }

  // ---------------------------------------------------------------- one more event

  lemma ClosedByGrows(log: Log, event: Event, i: nat, k: nat)
    requires i < |log| && log[i].Started? && k <= |log|
    ensures ClosedBy(log + [event], i, k) <==> ClosedBy(log, i, k)
  {
    var log' := log + [event];
    if m :| i < m < k && m < |log'| && Closes(log'[m], log'[i]) {
      assert Closes(log[m], log[i]);
    }
    if m :| i < m < k && m < |log| && Closes(log[m], log[i]) {
      assert Closes(log'[m], log'[i]);
    }
  }

  lemma SerialGrows(log: Log, event: Event)
    requires CallsSerial(log)
    requires event.Started? ==> Quiet(log, event.command.employee)
    ensures CallsSerial(log + [event])
  {
    var log' := log + [event];
    forall i, j | 0 <= i < j < |log'| && log'[i].Started? && CallOf(log'[j], log'[i].command.employee)
      ensures ClosedBy(log', i, j)
    {
      ClosedByGrows(log, event, i, j);
    }
  }

  lemma VerifiedOnGrows(log: Log, event: Event, i: nat, e: EmployeeId, sys: TargetSystem)
    requires i <= |log| && (i < |log| ==> CallOf(log[i], e)) && VerifiedOn(log, i, e, sys)
    requires i == |log| ==> event.Started?
    requires event.Completed? && event.command.employee == e ==> Quiet(log, e)
    ensures VerifiedOn(log + [event], i, e, sys)
  {
    var log' := log + [event];
    var c, j, d :| VerifiedAt(log, i, e, sys, c, j, d) && NoneSince(log, i, c, e, sys);
    assert VerifiedAt(log', i, e, sys, c, j, d);
    forall k | c < k < |log'| && ProvisionedAt(log'[k], e, sys)
      ensures i < k && ClosedBy(log', i, k)
    {
      if k < |log| {
        assert ProvisionedAt(log[k], e, sys);
      }
      ClosedByGrows(log, event, i, k);
    }
    assert NoneSince(log', i, c, e, sys);
  }

  lemma VerifiedGrows(log: Log, event: Event)
    requires VerifiedBeforeActive(log)
    requires event.Completed? ==> Quiet(log, event.command.employee)
    requires IsActivation(event) ==>
               forall sys :: sys == event.command.system || ProvisionedBefore(log, |log|, event.command.employee, sys) ==>
                 VerifiedOn(log, |log|, event.command.employee, sys)
    ensures VerifiedBeforeActive(log + [event])
  {
    var log' := log + [event];
    forall i, sys | 0 <= i < |log'| && IsActivation(log'[i])
                    && (sys == log'[i].command.system || ProvisionedBefore(log', i, log'[i].command.employee, sys))
      ensures VerifiedOn(log', i, log'[i].command.employee, sys)
    {
      var e := log'[i].command.employee;
      if k :| 0 <= k < i && k < |log'| && ProvisionedAt(log'[k], e, sys) {
        assert ProvisionedAt(log[k], e, sys);
        assert ProvisionedBefore(log, i, e, sys);
      }
      VerifiedOnGrows(log, event, i, e, sys);
    }
  }

  lemma NotStaleGrows(log: Log, event: Event, i: nat, command: Command)
    requires i <= |log| && (i < |log| ==> CallOf(log[i], command.employee)) && NotStale(log, i, command)
    requires i == |log| ==> event.Started?
    requires event.Completed? && event.command.employee == command.employee ==> Quiet(log, command.employee)
    ensures NotStale(log + [event], i, command)
  {
    var log' := log + [event];
    var c :| 0 <= c < i && log[c] == Completed(command)
      && forall k :: c < k < |log| && NewerWork(log[k], command) ==> i < k && ClosedBy(log, i, k);
    assert log'[c] == Completed(command);
    forall k | c < k < |log'| && NewerWork(log'[k], command)
      ensures i < k && ClosedBy(log', i, k)
    {
      if k < |log| {
        assert NewerWork(log[k], command);
      }
      ClosedByGrows(log, event, i, k);
    }
  }

  lemma CompensationGrows(log: Log, event: Event)
    requires CompensationNeverUndoesNewer(log)
    requires event.Completed? ==> Quiet(log, event.command.employee)
    requires IsCompensation(event) ==> NotStale(log, |log|, event.command)
    ensures CompensationNeverUndoesNewer(log + [event])
  {
    var log' := log + [event];
    forall i | 0 <= i < |log'| && IsCompensation(log'[i])
      ensures NotStale(log', i, log'[i].command)
    {
      NotStaleGrows(log, event, i, log'[i].command);
    }
  }

  lemma PromisesGrow(log: Log, event: Event)
    requires PromisesKept(log)
    requires event.Started? || event.Completed? ==> Quiet(log, event.command.employee)
    requires IsActivation(event) ==>
               forall sys :: sys == event.command.system || ProvisionedBefore(log, |log|, event.command.employee, sys) ==>
                 VerifiedOn(log, |log|, event.command.employee, sys)
    requires IsCompensation(event) ==> NotStale(log, |log|, event.command)
    ensures PromisesKept(log + [event])
  {
    hide CallsSerial, VerifiedBeforeActive, CompensationNeverUndoesNewer, Quiet, NotStale, VerifiedOn, ProvisionedBefore;
    SerialGrows(log, event);
    VerifiedGrows(log, event);
    CompensationGrows(log, event);
  }

  // ---------------------------------------------------------------- the log and the tables

  function CommandOf(event: Event): Option<Command>
  {
    match event
    case Claimed(command) => Some(command)
    case Released(command) => Some(command)
    case Rescheduled(command) => Some(command)
    case Started(kind, command, operation) => Some(command)
    case Ended(kind, command) => Some(command)
    case Completed(command) => Some(command)
    case Accepted(command) => Some(command)
    case _ => None
  }

  predicate Stored(steps: Steps, command: Command)
  {
    command.stepId in steps && steps[command.stepId].command == command
  }

  ghost predicate CommandsStored(steps: Steps, log: Log)
  {
    forall i :: 0 <= i < |log| && CommandOf(log[i]).Some? ==> Stored(steps, CommandOf(log[i]).value)
  }

  ghost predicate CompletedFinished(steps: Steps, log: Log)
  {
    forall i :: 0 <= i < |log| && log[i].Completed? ==>
      log[i].command.stepId in steps && Finished(steps[log[i].command.stepId].state)
  }

  /** Completions are logged in the order of their timestamps. */
  ghost predicate CompletedInOrder(steps: Steps, log: Log)
  {
    forall i, j :: (0 <= i < j < |log| && log[i].Completed? && log[j].Completed?
                    && log[i].command.stepId in steps && log[j].command.stepId in steps) ==>
      steps[log[i].command.stepId].updatedAt < steps[log[j].command.stepId].updatedAt
  }

  ghost predicate LoggedCompletion(log: Log, command: Command)
  {
    exists i :: 0 <= i < |log| && log[i] == Completed(command)
  }

  ghost predicate FinishedLogged(steps: Steps, log: Log)
  {
    forall s :: s in steps && Finished(steps[s].state) ==> LoggedCompletion(log, steps[s].command)
  }

  /** The step finished, and later its verification was accepted. */
  ghost predicate LoggedVerification(log: Log, command: Command)
  {
    exists c, j :: 0 <= c < j < |log| && log[c] == Completed(command) && log[j] == Accepted(command)
  }

  ghost predicate RecordsLogged(steps: Steps, verifications: Verifications, log: Log)
  {
    forall e, sys :: (e, sys) in verifications && verifications[(e, sys)].source in steps ==>
      LoggedVerification(log, steps[verifications[(e, sys)].source].command)
  }

  ghost predicate LogFacts(steps: Steps, verifications: Verifications, log: Log)
  {
    && CommandsStored(steps, log)
    && CompletedFinished(steps, log)
    && CompletedInOrder(steps, log)
    && FinishedLogged(steps, log)
    && RecordsLogged(steps, verifications, log)
  }

  ghost predicate NoNewFinish(steps: Steps, steps': Steps)
  {
    forall s :: s in steps' && Finished(steps'[s].state) ==> s in steps && Finished(steps[s].state)
  }

  lemma FactsStay(steps: Steps, steps': Steps, verifications: Verifications, log: Log)
    requires LogFacts(steps, verifications, log) && RecordsOk(steps, verifications)
    requires StepsStay(steps, steps') && NoNewFinish(steps, steps')
    ensures LogFacts(steps', verifications, log)
  {
    forall e, sys | (e, sys) in verifications
      ensures LoggedVerification(log, steps'[verifications[(e, sys)].source].command)
    {
      assert Provisioning(steps, e, sys, verifications[(e, sys)].source);
      hide LoggedVerification;
    }
    hide LoggedVerification, LoggedCompletion, RecordsOk;
    forall i, j | 0 <= i < j < |log| && log[i].Completed? && log[j].Completed?
      ensures log[i].command.stepId in steps' && log[j].command.stepId in steps'
      ensures steps'[log[i].command.stepId].updatedAt < steps'[log[j].command.stepId].updatedAt
    {
      assert Finished(steps[log[i].command.stepId].state) && Finished(steps[log[j].command.stepId].state);
    }
  }

  lemma LoggedGrows(log: Log, event: Event, command: Command)
    ensures LoggedCompletion(log, command) ==> LoggedCompletion(log + [event], command)
    ensures LoggedVerification(log, command) ==> LoggedVerification(log + [event], command)
  {
    var log' := log + [event];
    if i :| 0 <= i < |log| && log[i] == Completed(command) {
      assert log'[i] == Completed(command);
    }
    if c, j :| 0 <= c < j < |log| && log[c] == Completed(command) && log[j] == Accepted(command) {
      assert log'[c] == Completed(command) && log'[j] == Accepted(command);
    }
  }

  lemma FactsGrow(steps: Steps, verifications: Verifications, log: Log, event: Event)
    requires LogFacts(steps, verifications, log) && !event.Completed?
    requires CommandOf(event).Some? ==> Stored(steps, CommandOf(event).value)
    ensures LogFacts(steps, verifications, log + [event])
  {
    hide LoggedVerification, LoggedCompletion;
    forall command {
      LoggedGrows(log, event, command);
    }
  }

  lemma OrderGrows(steps: Steps, log: Log, s: StepId, row: StepRow, now: Time)
    requires CompletedFinished(steps, log) && CompletedInOrder(steps, log) && Stamped(steps, now)
    requires s in steps && !Finished(steps[s].state) && row.command.stepId == s && row.updatedAt > now
    ensures CompletedInOrder(steps[s := row], log + [Completed(row.command)])
  {
    var steps', log' := steps[s := row], log + [Completed(row.command)];
    forall i, j | 0 <= i < j < |log'| && log'[i].Completed? && log'[j].Completed?
      ensures log'[i].command.stepId in steps' && log'[j].command.stepId in steps'
      ensures steps'[log'[i].command.stepId].updatedAt < steps'[log'[j].command.stepId].updatedAt
    {
      assert log[i].command.stepId != s;
      assert j < |log| ==> log[j].command.stepId != s;
    }
  }

  lemma StoredGrows(steps: Steps, log: Log, s: StepId, row: StepRow)
    requires CommandsStored(steps, log) && CompletedFinished(steps, log)
    requires s in steps && steps[s].command.stepId == s && row.command == steps[s].command && Finished(row.state)
    ensures CommandsStored(steps[s := row], log + [Completed(row.command)])
    ensures CompletedFinished(steps[s := row], log + [Completed(row.command)])
  {
  }

  lemma LoggedFinishGrows(steps: Steps, verifications: Verifications, log: Log, s: StepId, row: StepRow)
    requires FinishedLogged(steps, log) && RecordsLogged(steps, verifications, log)
    requires s in steps && row.command == steps[s].command
    ensures FinishedLogged(steps[s := row], log + [Completed(row.command)])
    ensures RecordsLogged(steps[s := row], verifications, log + [Completed(row.command)])
  {
    var event := Completed(row.command);
    var log' := log + [event];
    forall command {
      LoggedGrows(log, event, command);
    }
    assert log'[|log|] == event;
    assert LoggedCompletion(log', row.command);
    hide LoggedVerification, LoggedCompletion;
  }

  /** A completion, stamped later than everything before, extends the log in order. */
  lemma FactsComplete(steps: Steps, verifications: Verifications, log: Log, s: StepId, row: StepRow, now: Time)
    requires LogFacts(steps, verifications, log) && Stamped(steps, now)
    requires s in steps && !Finished(steps[s].state) && steps[s].command.stepId == s
    requires row.command == steps[s].command && Finished(row.state) && row.updatedAt > now
    ensures LogFacts(steps[s := row], verifications, log + [Completed(row.command)])
  {
    hide CommandsStored, CompletedFinished, CompletedInOrder, FinishedLogged, RecordsLogged, Stamped;
    OrderGrows(steps, log, s, row, now);
    StoredGrows(steps, log, s, row);
    LoggedFinishGrows(steps, verifications, log, s, row);
  }

  lemma FactsAccept(steps: Steps, verifications: Verifications, log: Log, e: EmployeeId, sys: TargetSystem,
                    s: StepId, evidence: string)
    requires LogFacts(steps, verifications, log)
    requires s in steps && Finished(steps[s].state) && steps[s].command.stepId == s
    ensures LogFacts(steps, verifications[(e, sys) := VerificationRow(s, evidence)], log + [Accepted(steps[s].command)])
  {
    var event := Accepted(steps[s].command);
    var log' := log + [event];
    FactsGrow(steps, verifications, log, event);
    var c :| 0 <= c < |log| && log[c] == Completed(steps[s].command);
    assert log'[c] == Completed(steps[s].command) && log'[|log|] == event;
    assert LoggedVerification(log', steps[s].command);
    hide CommandsStored, CompletedFinished, CompletedInOrder, FinishedLogged, LoggedVerification;
  }

  // ---------------------------------------------------------------- what the gates imply

  ghost predicate OwnIds(steps: Steps)
  {
    forall s :: s in steps ==> steps[s].command.stepId == s
  }

  /** A cleared system is verified on the log, with nothing since. */
  lemma ClearedIsVerified(steps: Steps, verifications: Verifications, log: Log, e: EmployeeId, sys: TargetSystem)
    requires OwnIds(steps)
    requires LogFacts(steps, verifications, log) && Cleared(steps, verifications, e, sys)
    ensures VerifiedOn(log, |log|, e, sys)
  {
    var s := verifications[(e, sys)].source;
    assert LoggedVerification(log, steps[s].command);
    var c, j :| 0 <= c < j < |log| && log[c] == Completed(steps[s].command) && log[j] == Accepted(steps[s].command);
    var o :| Provisioning(steps, e, sys, o) && steps[o].command.operation.CreateDisabled? && Finished(steps[o].state);
    assert LoggedCompletion(log, steps[o].command);
    var d :| 0 <= d < |log| && log[d] == Completed(steps[o].command);
    assert VerifiedAt(log, |log|, e, sys, c, j, d);
    NoneSinceCandidate(steps, verifications, log, e, sys, s, c);
  }

  lemma NoneSinceCandidate(steps: Steps, verifications: Verifications, log: Log, e: EmployeeId, sys: TargetSystem,
                           s: StepId, c: nat)
    requires LogFacts(steps, verifications, log) && Candidate(steps, e, sys, s) && steps[s].command.stepId == s
    requires c < |log| && log[c] == Completed(steps[s].command)
    ensures NoneSince(log, |log|, c, e, sys)
  {
    assert Stored(steps, CommandOf(log[c]).value);
    forall k | c < k < |log|
      ensures !ProvisionedAt(log[k], e, sys)
    {
      ProvisionedRow(steps, log, e, sys, k);
    }
  }

  lemma ProvisionedRow(steps: Steps, log: Log, e: EmployeeId, sys: TargetSystem, k: nat)
    requires CommandsStored(steps, log) && CompletedFinished(steps, log) && k < |log|
    ensures ProvisionedAt(log[k], e, sys) ==>
              && Provisioning(steps, e, sys, log[k].command.stepId)
              && Finished(steps[log[k].command.stepId].state)
  {
    if ProvisionedAt(log[k], e, sys) {
      assert Stored(steps, CommandOf(log[k]).value);
    }
  }

  lemma ProvisionedIsTouched(steps: Steps, verifications: Verifications, log: Log, e: EmployeeId, sys: TargetSystem)
    requires LogFacts(steps, verifications, log) && ProvisionedBefore(log, |log|, e, sys)
    ensures Touched(steps, e, sys)
  {
    hide CompletedInOrder, FinishedLogged, RecordsLogged;
    var k :| 0 <= k < |log| && ProvisionedAt(log[k], e, sys);
    ProvisionedRow(steps, log, e, sys, k);
  }

  /** Passing the activation gate means every system is verified on the log. */
  lemma ReadyIsVerified(steps: Steps, verifications: Verifications, log: Log, e: EmployeeId, target: TargetSystem)
    requires OwnIds(steps)
    requires LogFacts(steps, verifications, log) && ActivationReady(steps, verifications, e, {target})
    ensures forall sys :: sys == target || ProvisionedBefore(log, |log|, e, sys) ==> VerifiedOn(log, |log|, e, sys)
  {
    forall sys | sys == target || ProvisionedBefore(log, |log|, e, sys)
      ensures VerifiedOn(log, |log|, e, sys)
    {
      if sys != target {
        ProvisionedIsTouched(steps, verifications, log, e, sys);
      }
      hide LogFacts;
      ClearedIsVerified(steps, verifications, log, e, sys);
    }
  }

  lemma NotSupersededIsNotStale(steps: Steps, verifications: Verifications, log: Log, e: EmployeeId, r: RequestId, s: StepId)
    requires LogFacts(steps, verifications, log) && FinishedIn(steps, r, s) && steps[s].command.employee == e
    requires !Superseded(steps, e, r, s) && steps[s].command.stepId == s
    ensures NotStale(log, |log|, steps[s].command)
  {
    var command := steps[s].command;
    assert LoggedCompletion(log, command);
    var c :| 0 <= c < |log| && log[c] == Completed(command);
    assert Stored(steps, CommandOf(log[c]).value);
    forall k | c < k < |log|
      ensures !NewerWork(log[k], command)
    {
      NewerRow(steps, log, e, r, s, c, k);
    }
  }

  lemma NewerRow(steps: Steps, log: Log, e: EmployeeId, r: RequestId, s: StepId, c: nat, k: nat)
    requires CommandsStored(steps, log) && CompletedFinished(steps, log) && CompletedInOrder(steps, log)
    requires c < k < |log| && FinishedIn(steps, r, s) && steps[s].command.stepId == s
    requires steps[s].command.employee == e && log[c] == Completed(steps[s].command)
    ensures NewerWork(log[k], steps[s].command) ==> Supersedes(steps, e, r, s, log[k].command.stepId)
  {
    if NewerWork(log[k], steps[s].command) {
      assert Stored(steps, CommandOf(log[k]).value);
    }
  }

  // ---------------------------------------------------------------- tasks and calls

  /** The adapter call a task is waiting for. */
  function FlightOf(pc: Pc): Option<(Kind, StepId)>
  {
    match pc
    case Calling(s) => Some((Execution, s))
    case CallingCompensation(s, todo) => Some((Compensation, s))
    case CallingCheck(s, todo) => Some((Check, s))
    case _ => None
  }

  predicate WaitsFor(task: Task, start: Event)
    requires start.Started?
  {
    task.employee == start.command.employee && FlightOf(task.pc) == Some((start.kind, start.command.stepId))
  }

  ghost predicate Awaited(tasks: map<TaskId, Task>, start: Event)
    requires start.Started?
  {
    exists t :: t in tasks && WaitsFor(tasks[t], start)
  }

  /** Every call that did not end yet has a task waiting for it. */
  ghost predicate OpenAwaited(tasks: map<TaskId, Task>, log: Log)
  {
    forall i :: 0 <= i < |log| && log[i].Started? && !ClosedBy(log, i, |log|) ==> Awaited(tasks, log[i])
  }

  lemma ClosedStays(log: Log, event: Event, i: nat)
    requires i < |log| && log[i].Started?
    ensures ClosedBy(log, i, |log|) ==> ClosedBy(log + [event], i, |log| + 1)
    ensures Closes(event, log[i]) ==> ClosedBy(log + [event], i, |log| + 1)
  {
    var log' := log + [event];
    assert log'[|log|] == event && log'[i] == log[i];
    if m :| i < m < |log| && Closes(log[m], log[i]) {
      assert Closes(log'[m], log'[i]);
    }
  }

  /** A holder of the employee's lock that waits for no adapter knows that no call for the
      employee is in flight. */
  lemma QuietBetweenCalls(s: State, t: TaskId)
    requires LocksOk(s) && OpenAwaited(s.tasks, s.log)
    requires t in s.tasks && HoldsEmployee(s.tasks[t]) && FlightOf(s.tasks[t].pc).None?
    ensures Quiet(s.log, s.tasks[t].employee)
  {
    forall i | 0 <= i < |s.log| && CallOf(s.log[i], s.tasks[t].employee)
      ensures ClosedBy(s.log, i, |s.log|)
    {
      if !ClosedBy(s.log, i, |s.log|) {
        assert Awaited(s.tasks, s.log[i]);
        var o :| o in s.tasks && WaitsFor(s.tasks[o], s.log[i]);
        OneHolder(s, t, o);
        assert false;
      }
    }
  }

  /** So does the task whose call just returned. */
  lemma QuietAfterReturn(s: State, t: TaskId, kind: Kind, x: StepId)
    requires LocksOk(s) && OpenAwaited(s.tasks, s.log) && CommandsStored(s.db.steps, s.log)
    requires t in s.tasks && FlightOf(s.tasks[t].pc) == Some((kind, x)) && x in s.db.steps
    ensures Quiet(s.log + [Ended(kind, s.db.steps[x].command)], s.tasks[t].employee)
  {
    var event := Ended(kind, s.db.steps[x].command);
    var log' := s.log + [event];
    forall i | 0 <= i < |log'| && CallOf(log'[i], s.tasks[t].employee)
      ensures ClosedBy(log', i, |log'|)
    {
      assert i < |s.log| && log'[i] == s.log[i];
      if !ClosedBy(s.log, i, |s.log|) {
        assert Awaited(s.tasks, s.log[i]);
        var o :| o in s.tasks && WaitsFor(s.tasks[o], s.log[i]);
        OneHolder(s, t, o);
        assert Stored(s.db.steps, CommandOf(s.log[i]).value);
      }
      ClosedStays(s.log, event, i);
    }
  }

  lemma AwaitedStays(tasks: map<TaskId, Task>, t: TaskId, pc: Pc, start: Event)
    requires t in tasks && start.Started? && Awaited(tasks, start)
    ensures Awaited(tasks[t := tasks[t].(pc := pc)], start) || WaitsFor(tasks[t], start)
  {
    var o :| o in tasks && WaitsFor(tasks[o], start);
    var tasks' := tasks[t := tasks[t].(pc := pc)];
    if o != t {
      assert tasks'[o] == tasks[o];
    }
  }

  /** An event that starts no call keeps every open call awaited, as long as the task that
      moved was not waiting. */
  lemma AwaitedGrows(tasks: map<TaskId, Task>, t: TaskId, pc: Pc, log: Log, event: Event)
    requires OpenAwaited(tasks, log) && t in tasks && FlightOf(tasks[t].pc).None? && !event.Started?
    ensures OpenAwaited(tasks[t := tasks[t].(pc := pc)], log)
    ensures OpenAwaited(tasks[t := tasks[t].(pc := pc)], log + [event])
  {
    var tasks', log' := tasks[t := tasks[t].(pc := pc)], log + [event];
    forall i | 0 <= i < |log| && log[i].Started? && !ClosedBy(log, i, |log|)
      ensures Awaited(tasks', log[i])
    {
      AwaitedStays(tasks, t, pc, log[i]);
    }
    forall i | 0 <= i < |log'| && log'[i].Started? && !ClosedBy(log', i, |log'|)
      ensures Awaited(tasks', log'[i])
    {
      ClosedStays(log, event, i);
    }
  }

  lemma AwaitedStart(tasks: map<TaskId, Task>, t: TaskId, pc: Pc, log: Log, event: Event)
    requires OpenAwaited(tasks, log) && t in tasks && FlightOf(tasks[t].pc).None? && event.Started?
    requires WaitsFor(tasks[t].(pc := pc), event)
    ensures OpenAwaited(tasks[t := tasks[t].(pc := pc)], log + [event])
  {
    var tasks', log' := tasks[t := tasks[t].(pc := pc)], log + [event];
    forall i | 0 <= i < |log'| && log'[i].Started? && !ClosedBy(log', i, |log'|)
      ensures Awaited(tasks', log'[i])
    {
      if i == |log| {
        assert WaitsFor(tasks'[t], event);
      } else {
        ClosedStays(log, event, i);
        AwaitedStays(tasks, t, pc, log[i]);
      }
    }
  }

  lemma AwaitedReturn(steps: Steps, tasks: map<TaskId, Task>, t: TaskId, pc: Pc, log: Log, kind: Kind, x: StepId)
    requires OpenAwaited(tasks, log) && CommandsStored(steps, log)
    requires t in tasks && FlightOf(tasks[t].pc) == Some((kind, x)) && x in steps
    ensures OpenAwaited(tasks[t := tasks[t].(pc := pc)], log + [Ended(kind, steps[x].command)])
  {
    var event := Ended(kind, steps[x].command);
    var tasks', log' := tasks[t := tasks[t].(pc := pc)], log + [event];
    forall i | 0 <= i < |log'| && log'[i].Started? && !ClosedBy(log', i, |log'|)
      ensures Awaited(tasks', log'[i])
    {
      assert i < |log| && log'[i] == log[i];
      ClosedStays(log, event, i);
      AwaitedStays(tasks, t, pc, log[i]);
      assert Stored(steps, CommandOf(log[i]).value);
    }
  }

  // ---------------------------------------------------------------- the history invariant

  ghost predicate HistoryOk(s: State)
  {
    && LogFacts(s.db.steps, s.db.verifications, s.log)
    && OpenAwaited(s.tasks, s.log)
    && PromisesKept(s.log)
  }

  predicate Neutral(event: Event)
  {
    !event.Started? && !event.Ended? && !event.Completed? && !event.Accepted?
  }

  /** A move that finishes no step and starts or ends no call. */
  ghost predicate QuietMove(db: Db, db': Db, from: Pc, to: Pc, events: seq<Event>)
  {
    && FlightOf(from).None? && FlightOf(to).None?
    && NoNewFinish(db.steps, db'.steps) && db'.verifications == db.verifications
    && (events == [] ||
        (|events| == 1 && Neutral(events[0])
         && (CommandOf(events[0]).Some? ==> Stored(db'.steps, CommandOf(events[0]).value))))
  }

  lemma QuietMoveKeeps(s: State, t: TaskId, pc: Pc, db': Db, events: seq<Event>)
    requires SystemOk(s) && HistoryOk(s) && t in s.tasks && Evolves(s.db, db')
    requires QuietMove(s.db, db', s.tasks[t].pc, pc, events)
    ensures HistoryOk(Moved(s, t, pc).(db := db', log := s.log + events))
  {
    hide LocksOk, TasksOk, CommandsStored, CompletedFinished, CompletedInOrder, FinishedLogged, RecordsLogged,
         CallsSerial, VerifiedBeforeActive, CompensationNeverUndoesNewer, OpenAwaited, NoNewFinish, StepsStay, StepsOk;
    FactsStay(s.db.steps, db'.steps, s.db.verifications, s.log);
    var event := if events == [] then Restarted({}) else events[0];
    AwaitedGrows(s.tasks, t, pc, s.log, event);
    if events == [] {
      assert s.log + events == s.log;
    } else {
      FactsGrow(db'.steps, db'.verifications, s.log, event);
      PromisesGrow(s.log, event);
      assert events == [event];
    }
  }

  /** A move that passes its gates and calls an adapter. */
  ghost predicate StartMove(db: Db, task: Task, to: Pc, event: Event)
  {
    && HoldsEmployee(task) && FlightOf(task.pc).None?
    && event.Started? && Stored(db.steps, event.command) && event.command.employee == task.employee
    && FlightOf(to) == Some((event.kind, event.command.stepId))
    && (IsActivation(event) ==>
          ActivationReady(db.steps, db.verifications, task.employee, {event.command.system}))
    && (IsCompensation(event) ==>
          && FinishedIn(db.steps, task.request, event.command.stepId)
          && !Superseded(db.steps, task.employee, task.request, event.command.stepId))
  }

  lemma StartMoveKeeps(s: State, t: TaskId, pc: Pc, event: Event)
    requires SystemOk(s) && HistoryOk(s) && t in s.tasks && StartMove(s.db, s.tasks[t], pc, event)
    ensures HistoryOk(Moved(s, t, pc).(log := s.log + [event]))
  {
    hide TasksOk, TablesOk, LocksOk, CallsSerial, VerifiedBeforeActive, CompensationNeverUndoesNewer, OpenAwaited, Quiet,
         ActivationReady, Superseded, LogFacts, VerifiedOn, ProvisionedBefore, NotStale, OwnIds;
    var e := s.tasks[t].employee;
    QuietBetweenCalls(s, t);
    FactsGrow(s.db.steps, s.db.verifications, s.log, event);
    AwaitedStart(s.tasks, t, pc, s.log, event);
    if IsActivation(event) {
      TablesOwnIds(s.db);
      ReadyIsVerified(s.db.steps, s.db.verifications, s.log, e, event.command.system);
    }
    if IsCompensation(event) {
      NotSupersededIsNotStale(s.db.steps, s.db.verifications, s.log, e, s.tasks[t].request, event.command.stepId);
    }
    PromisesGrow(s.log, event);
  }

  lemma TablesOwnIds(db: Db)
    requires TablesOk(db)
    ensures OwnIds(db.steps)
  {
  }

  /** The log right after the adapter call of task `t` on step `x` ended. */
  lemma ReturnKeeps(s: State, t: TaskId, pc: Pc, kind: Kind, x: StepId)
    requires SystemOk(s) && HistoryOk(s) && t in s.tasks
    requires FlightOf(s.tasks[t].pc) == Some((kind, x)) && x in s.db.steps && s.db.steps[x].command.stepId == x
    ensures var log := s.log + [Ended(kind, s.db.steps[x].command)];
            && LogFacts(s.db.steps, s.db.verifications, log)
            && OpenAwaited(Moved(s, t, pc).tasks, log)
            && PromisesKept(log)
            && Quiet(log, s.tasks[t].employee)
  {
    hide TasksOk, TablesOk, LocksOk, CallsSerial, VerifiedBeforeActive, CompensationNeverUndoesNewer, OpenAwaited, Quiet,
         CompletedFinished, CompletedInOrder, FinishedLogged, RecordsLogged, CommandsStored;
    var event := Ended(kind, s.db.steps[x].command);
    QuietAfterReturn(s, t, kind, x);
    AwaitedReturn(s.db.steps, s.tasks, t, pc, s.log, kind, x);
    FactsGrow(s.db.steps, s.db.verifications, s.log, event);
    PromisesGrow(s.log, event);
  }

  /** A call that returned without finishing its step or accepting a verification. */
  lemma ReturnMoveKeeps(s: State, t: TaskId, pc: Pc, db': Db, kind: Kind, x: StepId)
    requires SystemOk(s) && HistoryOk(s) && t in s.tasks && Evolves(s.db, db')
    requires FlightOf(s.tasks[t].pc) == Some((kind, x)) && x in s.db.steps && s.db.steps[x].command.stepId == x
    requires NoNewFinish(s.db.steps, db'.steps) && db'.verifications == s.db.verifications
    ensures HistoryOk(Moved(s, t, pc).(db := db', log := s.log + [Ended(kind, s.db.steps[x].command)]))
  {
    hide TasksOk, LocksOk, LogFacts, PromisesKept, OpenAwaited, Quiet, NoNewFinish, StepsStay, StepsOk, RecordsOk;
    ReturnKeeps(s, t, pc, kind, x);
    FactsStay(s.db.steps, db'.steps, s.db.verifications, s.log + [Ended(kind, s.db.steps[x].command)]);
  }

  lemma AwaitedIgnores(tasks: map<TaskId, Task>, log: Log, event: Event)
    requires OpenAwaited(tasks, log) && !event.Started?
    ensures OpenAwaited(tasks, log + [event])
  {
    var log' := log + [event];
    forall i | 0 <= i < |log'| && log'[i].Started? && !ClosedBy(log', i, |log'|)
      ensures Awaited(tasks, log'[i])
    {
      assert i < |log| && log'[i] == log[i];
      ClosedStays(log, event, i);
    }
  }

  lemma CompleteMoveKeeps(s: State, t: TaskId, pc: Pc, x: StepId, row: StepRow, now: Time)
    requires SystemOk(s) && HistoryOk(s) && t in s.tasks && FlightOf(s.tasks[t].pc) == Some((Execution, x))
    requires x in s.db.steps && s.db.steps[x].command.stepId == x && !Finished(s.db.steps[x].state)
    requires s.db.steps[x].command.employee == s.tasks[t].employee
    requires row.command == s.db.steps[x].command && Finished(row.state) && row.updatedAt == now && now > s.db.clock
    ensures var command := row.command;
            HistoryOk(Moved(s, t, pc).(db := At(PutRow(s.db, x, row), now),
                                       log := s.log + [Ended(Execution, command), Completed(command)]))
  {
    hide TasksOk, LocksOk, LogFacts, PromisesKept, OpenAwaited, Quiet, StepsOk, RecordsOk, Stamped, Keyed;
    var command := row.command;
    var log := s.log + [Ended(Execution, command)];
    ReturnKeeps(s, t, pc, Execution, x);
    FactsComplete(s.db.steps, s.db.verifications, log, x, row, s.db.clock);
    AwaitedIgnores(Moved(s, t, pc).tasks, log, Completed(command));
    PromisesGrow(log, Completed(command));
    assert log + [Completed(command)] == s.log + [Ended(Execution, command), Completed(command)];
  }

  lemma AcceptMoveKeeps(s: State, t: TaskId, pc: Pc, x: StepId, evidence: string, now: Time)
    requires SystemOk(s) && HistoryOk(s) && t in s.tasks && FlightOf(s.tasks[t].pc) == Some((Check, x))
    requires x in s.db.steps && s.db.steps[x].command.stepId == x && Finished(s.db.steps[x].state)
    ensures var command := s.db.steps[x].command;
            HistoryOk(Moved(s, t, pc).(db := RecordVerification(s.db, s.tasks[t].employee, command.system, x, evidence, now),
                                       log := s.log + [Ended(Check, command), Accepted(command)]))
  {
    hide TasksOk, LocksOk, LogFacts, PromisesKept, OpenAwaited, Quiet, TablesOk;
    var command := s.db.steps[x].command;
    var log := s.log + [Ended(Check, command)];
    ReturnKeeps(s, t, pc, Check, x);
    FactsAccept(s.db.steps, s.db.verifications, log, s.tasks[t].employee, command.system, x, evidence);
    AwaitedIgnores(Moved(s, t, pc).tasks, log, Accepted(command));
    PromisesGrow(log, Accepted(command));
    assert log + [Accepted(command)] == s.log + [Ended(Check, command), Accepted(command)];
  }

  // ---------------------------------------------------------------- each move

  lemma RowMoveIsQuiet(db: Db, db': Db, s: StepId, row: StepRow, from: Pc, to: Pc, events: seq<Event>)
    requires s in db.steps && db'.steps == db.steps[s := row] && db'.verifications == db.verifications
    requires row.command == db.steps[s].command && !Finished(row.state) && db.steps[s].command.stepId == s
    requires FlightOf(from).None? && FlightOf(to).None?
    requires events == [] || (|events| == 1 && Neutral(events[0])
                              && (CommandOf(events[0]).Some? ==> CommandOf(events[0]).value == row.command))
    ensures QuietMove(db, db', from, to, events)
  {
  }

  lemma SameRowsIsQuiet(db: Db, db': Db, from: Pc, to: Pc, events: seq<Event>)
    requires db'.steps == db.steps && db'.verifications == db.verifications
    requires FlightOf(from).None? && FlightOf(to).None? && events == []
    ensures QuietMove(db, db', from, to, events)
  {
  }

  lemma BeginIsQuiet(db: Db, task: Task, now: Time, pc: Pc, db': Db, events: seq<Event>)
    requires task.job.Submit? && task.pc.Entered? && JobOk(task)
    requires BeginsRequest(db, task, now, pc, db', events)
    ensures QuietMove(db, db', task.pc, pc, events)
  {
    hide ActivationReady, StoredUnder, Insertable, WellFormed, AccessSystems;
    if pc.Claiming? {
      BeginFinishesNothing(db, task.job.submission, now);
    } else {
      RefreshSteps(db, task.job.submission.request, now);
    }
  }

  lemma BeginFinishesNothing(db: Db, submission: Submission, now: Time)
    requires Insertable(db, submission) && WellFormed(submission)
    ensures NoNewFinish(db.steps, Begin(db, submission, now).steps)
  {
    BeginAddsRows(db, submission, now);
  }

  lemma CancelIsQuiet(db: Db, task: Task, now: Time, pc: Pc, db': Db, events: seq<Event>)
    requires task.pc.Entered? && CancelsRequest(db, task, now, pc, db', events)
    ensures QuietMove(db, db', task.pc, pc, events)
  {
    hide CompensationTargets;
  }

  lemma RetryIsQuiet(db: Db, task: Task, pick: Option<StepId>, now: Time, pc: Pc, db': Db, events: seq<Event>)
    requires TablesOk(db) && Known(db, task) && task.pc.Entered?
    requires RetriesRequest(db, task, pick, now, pc, db', events)
    ensures QuietMove(db, db', task.pc, pc, events)
  {
    hide TablesOk, RetryPick, QuietMove;
    if pick.Some? {
      RetryPickFacts(db.steps, task.request, pick.value);
      TaskStep(db, task, pick.value);
      RowMoveIsQuiet(db, db', pick.value, RescheduledRow(db.steps[pick.value], now), task.pc, pc, events);
    } else {
      RefreshSteps(db, task.request, now);
      SameRowsIsQuiet(db, db', task.pc, pc, events);
    }
  }

  lemma ClaimIsQuiet(db: Db, task: Task, pick: Option<StepId>, now: Time, pc: Pc, db': Db, events: seq<Event>)
    requires TablesOk(db) && Known(db, task) && task.pc.Claiming?
    requires ClaimsNext(db, task, pick, now, pc, db', events)
    ensures QuietMove(db, db', task.pc, pc, events)
  {
    hide TablesOk, Claimable, Blocked, QuietMove;
    if pick.Some? {
      ClaimableFacts(db.steps, task.request, pick.value, now);
      TaskStep(db, task, pick.value);
      RowMoveIsQuiet(db, db', pick.value, ClaimedRow(db.steps[pick.value], now), task.pc, pc, events);
    } else {
      SameRowsIsQuiet(db, db', task.pc, pc, events);
    }
  }

  lemma DispatchKeepsHistory(s: State, t: TaskId, now: Time, pc: Pc, db': Db, events: seq<Event>)
    requires SystemOk(s) && HistoryOk(s) && t in s.tasks && Evolves(s.db, db')
    requires s.tasks[t].pc.Gated? && s.tasks[t].pc.step in s.db.steps
    requires Dispatches(s.db, s.adapters, s.tasks[t], now, pc, db', events)
    ensures HistoryOk(Moved(s, t, pc).(db := db', log := s.log + events))
  {
    hide SystemOk, HistoryOk, ActivationReady, CompensationTargets, Evolves, QuietMove, TaskOk, TablesOk;
    TaskFacts(s, t);
    var task := s.tasks[t];
    var x := task.pc.step;
    TaskStep(s.db, task, x);
    var row := s.db.steps[x];
    if pc.Leaving? {
      RowMoveIsQuiet(s.db, db', x, ReleasedRow(row, now), task.pc, pc, events);
      QuietMoveKeeps(s, t, pc, db', events);
    } else if pc.Compensating? {
      RowMoveIsQuiet(s.db, db', x, FailedRow(row, "adapter_not_registered", Permanent, None, now), task.pc, pc, events);
      QuietMoveKeeps(s, t, pc, db', events);
    } else {
      StartMoveKeeps(s, t, pc, Started(Execution, row.command, row.command.operation));
      StateUnchanged(s, t, pc, events);
    }
  }

  lemma StateUnchanged(s: State, t: TaskId, pc: Pc, events: seq<Event>)
    requires t in s.tasks
    ensures Moved(s, t, pc).(db := s.db, log := s.log + events) == Moved(s, t, pc).(log := s.log + events)
  {
  }

  lemma TaskFacts(s: State, t: TaskId)
    requires SystemOk(s) && t in s.tasks
    ensures TablesOk(s.db) && TaskOk(s.db, s.tasks[t])
    ensures Working(s.tasks[t].pc) || !s.tasks[t].job.Submit? ==> Known(s.db, s.tasks[t])
    ensures PcOk(s.db.steps, s.tasks[t].request, s.tasks[t].pc) && JobOk(s.tasks[t])
  {
  }

  lemma ReturnKeepsHistory(s: State, t: TaskId, outcome: Outcome, now: Time, pc: Pc, db': Db, events: seq<Event>)
    requires SystemOk(s) && HistoryOk(s) && t in s.tasks && Evolves(s.db, db') && now > s.db.clock
    requires s.tasks[t].pc.Calling? && s.tasks[t].pc.step in s.db.steps
    requires Returns(s.db, s.tasks[t], outcome, now, pc, db', events)
    ensures HistoryOk(Moved(s, t, pc).(db := db', log := s.log + events))
  {
    hide SystemOk, HistoryOk, CompensationTargets, Evolves, TaskOk, TablesOk, NoNewFinish;
    TaskFacts(s, t);
    var x := s.tasks[t].pc.step;
    var row := s.db.steps[x];
    TaskStep(s.db, s.tasks[t], x);
    match outcome {
      case Success(evidence) =>
        CompleteMoveKeeps(s, t, pc, x, CompletedRow(row, SuccessState(row.command.operation), evidence, now), now);
      case AdapterError(code, retry, retryAt) =>
        RowFinishesNothing(s.db.steps, x, FailedRow(row, code, retry, retryAt, now));
        ReturnMoveKeeps(s, t, pc, db', Execution, x);
    }
  }

  lemma RowFinishesNothing(steps: Steps, s: StepId, row: StepRow)
    requires s in steps && !Finished(row.state)
    ensures NoNewFinish(steps, steps[s := row])
  {
  }

  lemma CompensateKeepsHistory(s: State, t: TaskId, x: StepId, delay: nat, now: Time, pc: Pc, db': Db, events: seq<Event>)
    requires SystemOk(s) && HistoryOk(s) && t in s.tasks && Evolves(s.db, db') && s.tasks[t].pc.Compensating?
    requires CompensatesStep(s.db, s.adapters, s.tasks[t], x, delay, now, pc, db', events)
    ensures HistoryOk(Moved(s, t, pc).(db := db', log := s.log + events))
  {
    hide SystemOk, HistoryOk, Superseded, Evolves, TaskOk, TablesOk, QuietMove;
    TaskFacts(s, t);
    TaskStep(s.db, s.tasks[t], x);
    if pc.Compensating? {
      SameRowsIsQuiet(s.db, db', s.tasks[t].pc, pc, events);
      QuietMoveKeeps(s, t, pc, db', events);
    } else {
      StartMoveKeeps(s, t, pc, Started(Compensation, s.db.steps[x].command, CompensatingAction(s.db.steps[x].command.system)));
      StateUnchanged(s, t, pc, events);
    }
  }

  lemma CompensatedKeepsHistory(s: State, t: TaskId, ok: bool, delay: nat, now: Time, pc: Pc, db': Db, events: seq<Event>)
    requires SystemOk(s) && HistoryOk(s) && t in s.tasks && Evolves(s.db, db')
    requires s.tasks[t].pc.CallingCompensation? && s.tasks[t].pc.step in s.db.steps
    requires CompensationReturns(s.db, s.tasks[t], ok, delay, now, pc, db', events)
    ensures HistoryOk(Moved(s, t, pc).(db := db', log := s.log + events))
  {
    hide SystemOk, HistoryOk, Evolves, TaskOk, TablesOk, AllFinishedIn;
    TaskFacts(s, t);
    TaskStep(s.db, s.tasks[t], s.tasks[t].pc.step);
    ReturnMoveKeeps(s, t, pc, db', Compensation, s.tasks[t].pc.step);
  }

  lemma CheckKeepsHistory(s: State, t: TaskId, x: StepId, pc: Pc, db': Db, events: seq<Event>)
    requires SystemOk(s) && HistoryOk(s) && t in s.tasks && Evolves(s.db, db') && s.tasks[t].pc.Verifying?
    requires ChecksStep(s.db, s.adapters, s.tasks[t], x, pc, db', events)
    ensures HistoryOk(Moved(s, t, pc).(db := db', log := s.log + events))
  {
    hide SystemOk, HistoryOk, Evolves, TaskOk, TablesOk, QuietMove;
    TaskFacts(s, t);
    TaskStep(s.db, s.tasks[t], x);
    if pc.Leaving? {
      SameRowsIsQuiet(s.db, db', s.tasks[t].pc, pc, events);
      QuietMoveKeeps(s, t, pc, db', events);
    } else {
      StartMoveKeeps(s, t, pc, Started(Check, s.db.steps[x].command, Verify));
      StateUnchanged(s, t, pc, events);
    }
  }

  lemma CheckedKeepsHistory(s: State, t: TaskId, verdict: Verdict, now: Time, pc: Pc, db': Db, events: seq<Event>)
    requires SystemOk(s) && HistoryOk(s) && t in s.tasks && Evolves(s.db, db')
    requires s.tasks[t].pc.CallingCheck? && s.tasks[t].pc.step in s.db.steps
    requires CheckReturns(s.db, s.tasks[t], verdict, now, pc, db', events)
    ensures HistoryOk(Moved(s, t, pc).(db := db', log := s.log + events))
  {
    hide SystemOk, HistoryOk, Evolves, TaskOk, TablesOk, AllFinishedIn, Candidate;
    TaskFacts(s, t);
    var x := s.tasks[t].pc.step;
    TaskStep(s.db, s.tasks[t], x);
    if |events| == 1 {
      ReturnMoveKeeps(s, t, pc, db', Check, x);
    } else {
      AcceptMoveKeeps(s, t, pc, x, verdict.evidence, now);
    }
  }

  lemma ActKeepsHistory(s: State, t: TaskId, move: Move, now: Time, pc: Pc, db': Db, events: seq<Event>)
    requires SystemOk(s) && HistoryOk(s) && t in s.tasks && now > s.db.clock && Evolves(s.db, db')
    requires Acts(s.db, s.adapters, s.tasks[t], move, now, pc, db', events)
    ensures HistoryOk(Moved(s, t, pc).(db := db', log := s.log + events))
  {
    hide SystemOk, HistoryOk, Evolves, TaskOk, TablesOk, PcOk, JobOk, QuietMove, BeginsRequest, RetriesRequest, CancelsRequest,
         ClaimsNext, Dispatches, Returns, CompensatesStep, CompensationReturns, ChecksStep, CheckReturns, CompensationTargets;
    TaskFacts(s, t);
    match move {
      case BeginRequest =>
        BeginIsQuiet(s.db, s.tasks[t], now, pc, db', events);
        QuietMoveKeeps(s, t, pc, db', events);
      case RetryRequest(pick) =>
        RetryIsQuiet(s.db, s.tasks[t], pick, now, pc, db', events);
        QuietMoveKeeps(s, t, pc, db', events);
      case CancelRequest =>
        CancelIsQuiet(s.db, s.tasks[t], now, pc, db', events);
        QuietMoveKeeps(s, t, pc, db', events);
      case ClaimNext(pick) =>
        ClaimIsQuiet(s.db, s.tasks[t], pick, now, pc, db', events);
        QuietMoveKeeps(s, t, pc, db', events);
      case Dispatch => DispatchKeepsHistory(s, t, now, pc, db', events);
      case Return(outcome) => ReturnKeepsHistory(s, t, outcome, now, pc, db', events);
      case CompensateStep(x, delay) => CompensateKeepsHistory(s, t, x, delay, now, pc, db', events);
      case CompensationReturn(ok, delay) => CompensatedKeepsHistory(s, t, ok, delay, now, pc, db', events);
      case CheckStep(x) => CheckKeepsHistory(s, t, x, pc, db', events);
      case CheckReturn(verdict) => CheckedKeepsHistory(s, t, verdict, now, pc, db', events);
      case BeginChecks =>
        SameRowsIsQuiet(s.db, db', s.tasks[t].pc, pc, events);
        QuietMoveKeeps(s, t, pc, db', events);
      case BeginRun =>
        SameRowsIsQuiet(s.db, db', s.tasks[t].pc, pc, events);
        QuietMoveKeeps(s, t, pc, db', events);
      case BeginSettling =>
        SameRowsIsQuiet(s.db, db', s.tasks[t].pc, pc, events);
        QuietMoveKeeps(s, t, pc, db', events);
      case Finish =>
        SameRowsIsQuiet(s.db, db', s.tasks[t].pc, pc, events);
        QuietMoveKeeps(s, t, pc, db', events);
    }
  }

  // ---------------------------------------------------------------- every step

  lemma AwaitedWithout(tasks: map<TaskId, Task>, t: TaskId, log: Log)
    requires OpenAwaited(tasks, log) && t in tasks && FlightOf(tasks[t].pc).None?
    ensures OpenAwaited(tasks - {t}, log)
  {
    forall i | 0 <= i < |log| && log[i].Started? && !ClosedBy(log, i, |log|)
      ensures Awaited(tasks - {t}, log[i])
    {
      assert Awaited(tasks, log[i]);
      var o :| o in tasks && WaitsFor(tasks[o], log[i]);
      assert o in tasks - {t} && (tasks - {t})[o] == tasks[o];
    }
  }

  lemma AwaitedWith(tasks: map<TaskId, Task>, t: TaskId, task: Task, log: Log)
    requires OpenAwaited(tasks, log) && t !in tasks
    ensures OpenAwaited(tasks[t := task], log)
  {
    forall i | 0 <= i < |log| && log[i].Started? && !ClosedBy(log, i, |log|)
      ensures Awaited(tasks[t := task], log[i])
    {
      assert Awaited(tasks, log[i]);
      var o :| o in tasks && WaitsFor(tasks[o], log[i]);
      assert tasks[t := task][o] == tasks[o];
    }
  }

  /** A crash ends every call. */
  lemma CrashClosesAll(log: Log, recovered: set<StepId>)
    ensures OpenAwaited(map[], log + [Restarted(recovered)])
  {
    var log' := log + [Restarted(recovered)];
    forall i | 0 <= i < |log'| && log'[i].Started?
      ensures ClosedBy(log', i, |log'|)
    {
      assert Closes(log'[|log|], log'[i]);
    }
  }

  lemma RecoveryFinishesNothing(db: Db, timeout: nat, now: Time)
    ensures NoNewFinish(db.steps, RecoverStale(db, timeout, now).steps)
  {
  }

  lemma RestartKeepsHistory(s: State, timeout: nat, now: Time, s': State)
    requires SystemOk(s) && HistoryOk(s) && Step(s, Restart(timeout, now), s') && Evolves(s.db, s'.db)
    ensures HistoryOk(s')
  {
    hide LogFacts, PromisesKept, OpenAwaited, NoNewFinish, StepsOk, RecordsOk, LocksOk, TasksOk, StepsStay;
    RecoveryFinishesNothing(s.db, timeout, now);
    FactsStay(s.db.steps, s'.db.steps, s.db.verifications, s.log);
    var event := Restarted(StaleSteps(s.db.steps, timeout, now));
    FactsGrow(s'.db.steps, s'.db.verifications, s.log, event);
    CrashClosesAll(s.log, StaleSteps(s.db.steps, timeout, now));
    PromisesGrow(s.log, event);
  }

  lemma LockKeepsHistory(s: State, t: TaskId, pc: Pc, s': State)
    requires HistoryOk(s) && t in s.tasks && FlightOf(s.tasks[t].pc).None?
    requires s'.tasks == s.tasks[t := s.tasks[t].(pc := pc)] && s'.db == s.db && s'.log == s.log
    ensures HistoryOk(s')
  {
    hide LogFacts, PromisesKept, OpenAwaited;
    AwaitedGrows(s.tasks, t, pc, s.log, Restarted({}));
  }

  lemma StepKeepsHistory(s: State, a: Action, s': State)
    requires SystemOk(s) && HistoryOk(s) && Step(s, a, s')
    ensures HistoryOk(s')
  {
    hide SystemOk, Acts, MaySpawn, LogFacts, PromisesKept, OpenAwaited, Evolves, RecoverStale, StaleSteps;
    StepKeepsSystem(s, a, s');
    match a {
      case Spawn(t, body) => AwaitedWith(s.tasks, t, body, s.log);
      case TakeEmployee(t) => LockKeepsHistory(s, t, s'.tasks[t].pc, s');
      case TakeRequest(t) => LockKeepsHistory(s, t, Entered, s');
      case SkipBusy(t) => AwaitedWithout(s.tasks, t, s.log);
      case Act(t, move, now, pc, db, events) => ActKeepsHistory(s, t, move, now, pc, db, events);
      case Leave(t) => AwaitedWithout(s.tasks, t, s.log);
      case Restart(timeout, now) => RestartKeepsHistory(s, timeout, now, s');
      case Read(r, now) => RefreshSteps(s.db, r, now);
    }
  }

  lemma InitHistoryOk(s: State)
    requires Init(s)
    ensures HistoryOk(s)
  {
  }

  /** Every reachable state keeps the table invariant, the lock discipline and the log's
      promises. */
  lemma {:induction false} RunsKeepAll(run: Run, n: nat)
    requires IsRun(run) && n < |run.states|
    ensures SystemOk(run.states[n]) && HistoryOk(run.states[n])
  {
    hide SystemOk, HistoryOk, Step, Init;
    if n == 0 {
      InitOk(run.states[0]);
      InitHistoryOk(run.states[0]);
    } else {
      RunsKeepAll(run, n - 1);
      StepKeepsSystem(run.states[n - 1], run.actions[n - 1], run.states[n]);
      StepKeepsHistory(run.states[n - 1], run.actions[n - 1], run.states[n]);
    }
  }

  // ---------------------------------------------------------------- the promises

  /** In every run, each activation or reactivation call is preceded, on its own system and
      on every system the employee was provisioned on, by an accepted verification of the
      provisioning step that finished last; and no other one finishes there before the call
      has ended. */
  lemma ActivationsAreVerified(run: Run, n: nat)
    requires IsRun(run) && n < |run.states|
    ensures VerifiedBeforeActive(run.states[n].log)
  {
    hide IsRun, SystemOk, VerifiedBeforeActive;
    RunsKeepAll(run, n);
  }

  /** In every run, a compensation call acts on a finished step, and no other request of the
      employee changes its system between that step's completion and the end of the call. */
  lemma CompensationsAreCurrent(run: Run, n: nat)
    requires IsRun(run) && n < |run.states|
    ensures CompensationNeverUndoesNewer(run.states[n].log)
  {
    hide IsRun, SystemOk, CompensationNeverUndoesNewer;
    RunsKeepAll(run, n);
  }

  /** In every run, the execution, verification and compensation calls of one employee never
      overlap. */
  lemma CallsNeverOverlap(run: Run, n: nat)
    requires IsRun(run) && n < |run.states|
    ensures CallsSerial(run.states[n].log)
  {
    hide IsRun, SystemOk, CallsSerial;
    RunsKeepAll(run, n);
  }
}
