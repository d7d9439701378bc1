/** The durable store as a mutable object: its fields are the tables, its methods the
    transactions. Every method is proved against the operation or the query predicate of
    `Tables` it performs; those are what the run-wide theorems reason about. */
module Repository {
  import opened Contracts
  import opened Tables
  import opened Frontier
  import opened Queries
  import opened Inserts
  import opened Views
  import Payloads

  class StateRepository {
    var executions: Executions
    var steps: Steps
    var deadLetters: map<StepId, DeadLetterRow>
    var compensations: map<CompensationKey, CompensationRow>
    var verifications: Verifications
    var clock: Time

    ghost function View(): Db
      reads this
    {
      Db(executions, steps, deadLetters, compensations, verifications, clock)
    }

    constructor ()
      ensures View() == EMPTY_DB
    {
      executions, steps, deadLetters, compensations, verifications := map[], map[], map[], map[], map[];
      clock := 0;
    }

    // -------------------------------------------------------------- submission

    method ExistingExecution(submission: Submission) returns (answer: Stored)
      requires KeysUnique(executions)
      ensures Answers(View(), submission, answer) && !answer.Refused?
    {
      if r :| r in executions && executions[r].submission.key == submission.key {
        assert StoredUnder(View(), submission.key, r);
        if executions[r].submission != submission {
          return Conflict;
        }
        return Replayed(executions[r].result);
      }
      return Fresh;
    }

    method InsertExecution(submission: Submission) returns (inserted: bool)
      modifies this`executions
      ensures inserted <==> (submission.request !in old(executions) && forall r :: r in old(executions) ==>
        && old(executions)[r].submission.correlation != submission.correlation
        && old(executions)[r].submission.key != submission.key)
      ensures executions == if inserted
        then old(executions)[submission.request := ExecutionRow(submission, ReqPending, None, None)] else old(executions)
    {
      inserted := submission.request !in executions
        && forall r | r in executions ::
             executions[r].submission.correlation != submission.correlation && executions[r].submission.key != submission.key;
      if inserted {
        executions := executions[submission.request := ExecutionRow(submission, ReqPending, None, None)];
      }
    }

    method InsertStep(command: Command, t: Time) returns (inserted: bool)
      modifies this`steps
      ensures inserted <==> Accepts(old(steps), command)
      ensures steps == if inserted then old(steps)[command.stepId := FreshRow(command, t)] else old(steps)
    {
      inserted := command.stepId !in steps
        && (forall s | s in steps :: steps[s].command.key != command.key)
        && forall s | s in steps ::
             steps[s].command.request != command.request || steps[s].command.sequence != command.sequence;
      if inserted {
        steps := steps[command.stepId := StepRow(command, Pending, 0, None, None, None, None, None, t)];
      }
    }

    /** The step inserts of a submission, by sequence, up to the first refusal. */
    method InsertSteps(submission: Submission, t: Time) returns (inserted: bool)
      requires WellFormed(submission)
      requires forall s :: s in steps ==> steps[s].command.request != submission.request
      modifies this`steps
      ensures inserted <==> Unclashing(old(steps), submission.steps)
      ensures inserted ==> steps == InsertRows(old(steps), submission.steps, t)
    {
      hide InsertRows, Unclashing, Ordered, Accepts, WellFormed;
      var commands := submission.steps;
      ghost var before := steps;
      var order, queue := SortBySequence(submission);
      NothingInserted(before, queue[..0], t);
      inserted := true;
      var n := 0;
      while n < |queue|
        invariant 0 <= n <= |queue|
        invariant steps == InsertRows(before, queue[..n], t) && Unclashing(before, queue[..n])
      {
        InsertOneMore(before, queue, n, t);
        inserted := InsertStep(queue[n], t);
        if !inserted {
          PrefixUnclashing(before, queue, n + 1);
          OrderedUnclashing(before, commands, order, queue);
          return;
        }
        n := n + 1;
      }
      assert queue[..n] == queue;
      OrderedUnclashing(before, commands, order, queue);
      InsertedInAnyOrder(before, commands, order, queue, t);
    }

    method SortBySequence(submission: Submission) returns (order: seq<int>, queue: seq<Command>)
      requires WellFormed(submission)
      ensures Ordered(submission.steps, order, queue)
      ensures forall m, n :: 0 <= m < n < |queue| ==> queue[m].sequence != queue[n].sequence
      ensures forall n :: 0 <= n < |queue| ==> queue[n].request == submission.request
    {
      var commands := submission.steps;
      var rank := map i | 0 <= i < |commands| :: 0 - commands[i].sequence;
      order := Descending(rank.Keys, rank);
      queue := seq(|order|, n requires 0 <= n < |order| => commands[order[n]]);
      FallingOrdered(commands, rank, order, queue);
      QueueOrdered(submission, order, queue);
    }

    /** Store a request with all of its steps, or nothing at all. */
    method BeginExecution(submission: Submission, t: Time) returns (answer: Stored)
      requires KeysUnique(executions) && Keyed(executions, steps) && WellFormed(submission)
      modifies this
      ensures Answers(old(View()), submission, answer)
      ensures answer.Fresh? ==> Insertable(old(View()), submission)
      ensures answer.Refused? ==> !Insertable(old(View()), submission)
      ensures View() == if answer.Fresh? then Begin(old(View()), submission, t) else old(View())
    {
      hide InsertRows, WellFormed, Unclashing;
      answer := ExistingExecution(submission);
      if !answer.Fresh? {
        return;
      }
      var savedExecutions, savedSteps := executions, steps;
      var inserted := InsertExecution(submission);
      if inserted {
        inserted := InsertSteps(submission, t);
      }
      if !inserted {
        executions, steps := savedExecutions, savedSteps;
        return Refused;
      }
      clock := t;
    }

    // -------------------------------------------------------------- steps

    /** The first runnable step of a request, marked running; nothing when a step of the
        request is stuck, or none is due. */
    method ClaimNext(r: RequestId, t: Time) returns (claimed: Option<Command>)
      requires Keyed(executions, steps)
      modifies this
      ensures claimed.None? ==> View() == old(View())
      ensures claimed.None? <==>
        (Blocked(old(steps), r) || forall s :: !Claimable(old(steps), r, s, t))
      ensures claimed.Some? ==>
        var s := claimed.value.stepId;
        && Claimable(old(steps), r, s, t)
        && claimed.value == old(steps)[s].command
        && (forall o :: Claimable(old(steps), r, o, t) ==> claimed.value.sequence <= old(steps)[o].command.sequence)
        && View() == Claim(old(View()), s, t)
    {
      var blocked := HasStuckStep(r);
      if blocked {
        return None;
      }
      var rows := RunnableSteps(r, t);
      hide Claimable, Blocked, Claim, Keyed;
      if rows == {} {
        return None;
      }
      var s := Highest(rows, map s | s in rows :: 0 - steps[s].command.sequence);
      claimed := Some(steps[s].command);
      ClaimableRow(steps, r, s, t);
      MarkClaimed(r, s, t);
    }

    method MarkClaimed(r: RequestId, s: StepId, t: Time)
      requires s in steps && steps[s].command.request == r
      modifies this
      ensures View() == Claim(old(View()), s, t)
    {
      steps := steps[s := steps[s].(state := Running, attempts := steps[s].attempts + 1, claimedAt := Some(t), updatedAt := t)];
      if r in executions {
        executions := executions[r := executions[r].(state := ReqRunning)];
      }
      clock := t;
    }

    /** A step of the request is neither done nor waiting. */
    method HasStuckStep(r: RequestId) returns (blocked: bool)
      ensures blocked <==> Blocked(steps, r)
    {
      blocked := exists s | s in steps ::
        && steps[s].command.request == r
        && !(steps[s].state.Succeeded? || steps[s].state.Verified? || steps[s].state.Compensated?)
        && !(steps[s].state.Pending? || steps[s].state.RetryWait?);
    }

    method RunnableSteps(r: RequestId, t: Time) returns (rows: set<StepId>)
      ensures rows <= steps.Keys
      ensures forall s :: s in rows <==> Claimable(steps, r, s, t)
    {
      rows := set s | s in steps && steps[s].command.request == r
                      && (steps[s].state.Pending? || steps[s].state.RetryWait?)
                      && (steps[s].nextRetryAt.None? || steps[s].nextRetryAt.value <= t)
                      && !exists p | p in steps ::
                           && steps[p].command.request == steps[s].command.request
                           && steps[p].command.sequence < steps[s].command.sequence
                           && !(steps[p].state.Succeeded? || steps[p].state.Verified? || steps[p].state.Compensated?);
      forall s
        ensures s in rows <==> Claimable(steps, r, s, t)
      {
        if s in rows {
          forall p | Before(steps, p, s)
            ensures Done(steps[p].state)
          {
          }
        }
      }
    }

    method CompleteStep(s: StepId, state: StepState, evidence: string, t: Time) returns (accepted: bool)
      modifies this
      ensures accepted <==> Done(state)
      ensures View() == if accepted then Complete(old(View()), s, state, evidence, t) else old(View())
    {
      if !(state.Succeeded? || state.Verified? || state.Compensated?) {
        return false;
      }
      if s in steps {
        steps := steps[s := steps[s].(state := state, evidence := Some(evidence), error := None, nextRetryAt := None,
                                      claimedAt := None, updatedAt := t)];
      }
      clock := t;
      return true;
    }

    method FailStep(s: StepId, error: string, retry: RetryClass, retryAt: Option<Time>, t: Time) returns (state: StepState)
      requires s in steps
      modifies this
      ensures View() == Fail(old(View()), s, error, retry, retryAt, t)
      ensures state == steps[s].state
    {
      var row := steps[s];
      var exhausted := row.attempts >= row.command.maxAttempts;
      state := if exhausted || retry.Permanent? then DeadLetter else RetryWait;
      steps := steps[s := row.(state := state, retryClass := Some(retry), error := Some(error), claimedAt := None,
                               nextRetryAt := if state.RetryWait? then retryAt else None, updatedAt := t)];
      if state.DeadLetter? && s !in deadLetters {
        deadLetters := deadLetters[s := DeadLetterRow(error, None)];
      }
      clock := t;
    }

    /** A manual retry puts the first retryable step back to waiting and resolves its
        dead letter. */
    method ScheduleStepRetry(r: RequestId, t: Time) returns (picked: Option<StepId>)
      modifies this
      ensures picked.None? ==> View() == old(View()) && forall s :: !RetryPick(old(steps), r, s)
      ensures picked.Some? ==>
        RetryPick(old(steps), r, picked.value) && View() == Reschedule(old(View()), picked.value, t)
    {
      var rows := set s | s in steps && steps[s].command.request == r
                          && (steps[s].state.Failed? || steps[s].state.DeadLetter? || steps[s].state.RetryWait?)
                          && steps[s].attempts < steps[s].command.maxAttempts;
      if rows == {} {
        assert forall s :: RetryPick(steps, r, s) ==> s in rows;
        return None;
      }
      var s := Highest(rows, map s | s in rows :: 0 - steps[s].command.sequence);
      assert forall p :: InRequest(steps, r, p) && Retryable(steps[p]) ==> p in rows;
      steps := steps[s := steps[s].(state := RetryWait, nextRetryAt := Some(t), claimedAt := None, updatedAt := t)];
      if s in deadLetters {
        deadLetters := deadLetters[s := deadLetters[s].(resolvedAt := Some(t))];
      }
      clock := t;
      return Some(s);
    }

    method ReleaseActivationClaim(s: StepId, t: Time)
      requires s in steps
      modifies this
      ensures View() == Release(old(View()), s, t)
    {
      var row := steps[s];
      var r := row.command.request;
      if row.state.Running? {
        steps := steps[s := row.(state := RetryWait, attempts := if row.attempts - 1 > 0 then row.attempts - 1 else 0,
                                 error := Some("mandatory_verification_incomplete"), nextRetryAt := Some(t + 30 * 1_000_000),
                                 claimedAt := None, updatedAt := t)];
      }
      if r in executions {
        executions := executions[r := executions[r].(state := ReqRetryWait, result := None)];
      }
      clock := t;
    }

    method CancelWaiting(r: RequestId, t: Time) returns (cancelled: nat)
      modifies this
      ensures View() == CancelPending(old(View()), r, t)
      ensures cancelled == |set s | s in old(steps) && Cancellable(old(steps), r, s)|
    {
      var rows := set s | s in steps && steps[s].command.request == r && (steps[s].state.Pending? || steps[s].state.RetryWait?);
      assert rows == set s | s in steps && Cancellable(steps, r, s);
      steps := map s | s in steps ::
        if s in rows then
          steps[s].(state := Compensated, error := Some("request_cancelled"), nextRetryAt := None, claimedAt := None, updatedAt := t)
        else steps[s];
      clock := t;
      return |rows|;
    }

    method MarkRequestCancelled(r: RequestId, t: Time)
      modifies this
      ensures View() == MarkCancelled(old(View()), r, t)
    {
      if r in executions {
        executions := executions[r := executions[r].(cancelledAt := Some(t))];
      }
      clock := t;
    }

    method RecoverStaleClaims(timeout: nat, t: Time) returns (recovered: nat)
      modifies this
      ensures View() == RecoverStale(old(View()), timeout, t)
      ensures steps.Keys == old(steps).Keys
      ensures forall s :: s in old(steps) ==>
        var row := old(steps)[s];
        if row.state.Running? && row.claimedAt.Some? && row.claimedAt.value + timeout * 1_000_000 < t then
          steps[s] == row.(state := RetryWait, nextRetryAt := Some(t), claimedAt := None,
                           error := Some("worker_restart_recovery"), updatedAt := t)
        else steps[s] == row
      ensures recovered == |set s | s in old(steps) && old(steps)[s].state.Running? && old(steps)[s].claimedAt.Some?
                                    && old(steps)[s].claimedAt.value + timeout * 1_000_000 < t|
    {
      var cutoff := t - timeout * 1_000_000;
      var rows := set s | s in steps && steps[s].state.Running? && steps[s].claimedAt.Some? && steps[s].claimedAt.value < cutoff;
      assert rows == set s | s in steps && steps[s].state.Running? && steps[s].claimedAt.Some?
                             && steps[s].claimedAt.value + timeout * 1_000_000 < t;
      steps := map s | s in steps ::
        if s in rows then
          steps[s].(state := RetryWait, nextRetryAt := Some(t), claimedAt := None, error := Some("worker_restart_recovery"), updatedAt := t)
        else steps[s];
      clock := t;
      return |rows|;
    }

    // -------------------------------------------------------------- reading

    /** The join of steps with the employee's requests. */
    function EmployeeSteps(e: EmployeeId): (rows: set<StepId>)
      reads this
      ensures rows <= steps.Keys
      ensures Keyed(executions, steps) ==> forall s :: s in rows <==> OfEmployee(steps, e, s)
    {
      set s | s in steps && steps[s].command.request in executions
              && executions[steps[s].command.request].submission.employee == e
    }

    method FinishedNewestFirst(e: EmployeeId) returns (rows: seq<StepId>)
      requires Keyed(executions, steps) && FinishTimesUnique(steps)
      ensures forall s :: s in rows <==> OfEmployee(steps, e, s) && Finished(steps[s].state)
      ensures forall i :: 0 <= i < |rows| ==> rows[i] in steps
      ensures forall i, j :: 0 <= i < j < |rows| ==> steps[rows[i]].updatedAt > steps[rows[j]].updatedAt
    {
      var items := set s | s in EmployeeSteps(e) && (steps[s].state.Succeeded? || steps[s].state.Verified?);
      rows := Descending(items, map s | s in items :: steps[s].updatedAt);
    }

    /** The newest finished provisioning step on a system, by walking newest first. */
    method CurrentCandidate(e: EmployeeId, sys: TargetSystem) returns (current: Option<StepId>)
      requires Keyed(executions, steps) && FinishTimesUnique(steps)
      ensures forall s :: Candidate(steps, e, sys, s) <==> current == Some(s)
    {
      var rows := FinishedNewestFirst(e);
      var i := 0;
      while i < |rows|
        invariant 0 <= i <= |rows|
        invariant forall j :: 0 <= j < i ==> !Provisioning(steps, e, sys, rows[j])
      {
        var command := steps[rows[i]].command;
        if command.system == sys && (command.operation.CreateDisabled? || command.operation.Update?) {
          return Some(rows[i]);
        }
        i := i + 1;
      }
      return None;
    }

    method IsCurrentVerificationCandidate(e: EmployeeId, sys: TargetSystem, s: StepId) returns (current: bool)
      requires Keyed(executions, steps) && FinishTimesUnique(steps)
      ensures current <==> Candidate(steps, e, sys, s)
    {
      var candidate := CurrentCandidate(e, sys);
      return candidate == Some(s);
    }

    /** Evidence is stored for the current candidate only. */
    method RecordEvidence(e: EmployeeId, sys: TargetSystem, s: StepId, evidence: string, t: Time) returns (accepted: bool)
      requires Keyed(executions, steps) && FinishTimesUnique(steps)
      modifies this
      ensures accepted <==> Candidate(old(steps), e, sys, s)
      ensures View() == if accepted then RecordVerification(old(View()), e, sys, s, evidence, t) else old(View())
    {
      accepted := IsCurrentVerificationCandidate(e, sys, s);
      if accepted {
        verifications := verifications[(e, sys) := VerificationRow(s, evidence)];
        clock := t;
      }
    }

    method FinishedSteps(r: RequestId) returns (items: set<StepId>)
      requires Keyed(executions, steps)
      ensures items <= steps.Keys
      ensures forall s :: s in items <==> FinishedStep(steps, r, s)
      ensures forall s :: s in items ==> steps[s].command.stepId == s
    {
      items := set s | s in steps && steps[s].command.request == r && (steps[s].state.Succeeded? || steps[s].state.Verified?);
    }

    /** The last finished step per system, by walking the request backwards and keeping
        the first step seen on each system. */
    method LatestPerSystem(r: RequestId, counts: Operation -> bool) returns (latest: seq<Command>)
      requires Keyed(executions, steps) && SequencesUnique(steps)
      ensures StepIds(latest) == set s | s in steps && LastFinished(steps, r, counts, s)
      ensures OnePerSystem(steps, latest)
    {
      hide LastFinished, Walked, OnePerSystem, Falling, SystemsOf, StepIds, SequencesUnique;
      var items := FinishedSteps(r);
      hide FinishedStep, Keyed;
      var rank: map<StepId, int> := map s | s in items :: steps[s].command.sequence;
      var rows := Descending(items, rank);
      latest := [];
      var seen: set<TargetSystem> := {};
      NothingWalked(steps, r, counts, Taken(rows, 0));
      var n := 0;
      while n < |rows|
        invariant 0 <= n <= |rows|
        invariant seen == SystemsOf(latest) && Walked(steps, r, counts, Taken(rows, n), latest)
      {
        TakeNext(items, rank, rows, n);
        var s := rows[n];
        var command := steps[s].command;
        WalkOn(steps, r, counts, Taken(rows, n), latest, s);
        SystemsSnoc(latest, command);
        if counts(command.operation) && command.system !in seen {
          latest, seen := latest + [command], seen + {command.system};
        }
        n := n + 1;
      }
      TakenAll(items, rank, rows);
      WalkedAll(steps, r, counts, items, latest);
    }

    method SuccessfulCommands(r: RequestId) returns (latest: seq<Command>)
      requires Keyed(executions, steps) && SequencesUnique(steps)
      ensures StepIds(latest) == CompensationTargets(steps, r) && OnePerSystem(steps, latest)
    {
      var counts := (operation: Operation) => operation.CreateDisabled? || operation.Update? || operation.Activate?;
      latest := LatestPerSystem(r, counts);
      SameLastFinished(steps, r, counts, Compensable);
    }

    method VerificationCommands(r: RequestId) returns (latest: seq<Command>)
      requires Keyed(executions, steps) && SequencesUnique(steps)
      ensures StepIds(latest) == VerificationTargets(steps, r) && OnePerSystem(steps, latest)
    {
      var counts := (operation: Operation) => operation.CreateDisabled? || operation.Update?;
      latest := LatestPerSystem(r, counts);
      SameLastFinished(steps, r, counts, Provisions);
    }

    /** Whether later work on the system makes compensating the step stale; an unknown step
        always is. */
    method CompensationSuperseded(r: RequestId, s: StepId, system: TargetSystem) returns (superseded: bool)
      requires Keyed(executions, steps) && r in executions
      ensures superseded <==>
        (InRequest(steps, r, s) ==> exists o :: NewerOn(steps, executions[r].submission.employee, r, s, system, o))
      ensures InRequest(steps, r, s) && steps[s].command.system == system ==>
        (superseded <==> Superseded(steps, executions[r].submission.employee, r, s))
    {
      if s !in steps || steps[s].command.request != r {
        return true;
      }
      var e, source := executions[r].submission.employee, steps[s];
      var rows := set o | o in EmployeeSteps(e) && steps[o].command.request != r
                          && steps[o].updatedAt > source.updatedAt && (steps[o].state.Succeeded? || steps[o].state.Verified?);
      var changing := set o | o in rows && steps[o].command.system == system
                              && var operation := steps[o].command.operation;
                                 operation.CreateDisabled? || operation.Update? || operation.Activate?
                                 || operation.Suspend? || operation.Reactivate? || operation.Terminate?;
      superseded := changing != {};
      assert forall o :: NewerOn(steps, e, r, s, system, o) <==> o in changing;
      NewerSupersedes(steps, e, r, s);
    }

    // -------------------------------------------------------------- the activation gate

    method SystemBlockers(e: EmployeeId, required: set<TargetSystem>, sys: TargetSystem, latest: map<TargetSystem, StepId>,
                          latestState: map<TargetSystem, StepState>, created: set<TargetSystem>)
        returns (blockers: set<Blocker>)
      requires FinishTimesUnique(steps)
      requires sys in required || Touched(steps, e, sys)
      requires sys in latest <==> Touched(steps, e, sys)
      requires sys in latest ==> Newest(steps, e, sys, latest[sys])
      requires sys in latest ==> sys in latestState && latestState[sys] == steps[latest[sys]].state
      requires sys in created <==> CreatedDisabled(steps, e, sys)
      ensures forall b :: b in blockers <==> b.Blocker? && b.system == sys && Stands(steps, verifications, e, required, b)
    {
      hide Stands, Newest, CreatedDisabled, Touched, FinishTimesUnique;
      if sys !in latest {
        StandsUntouched(steps, verifications, e, required, sys);
        return {Blocker(sys, CreatedDisabledMissing), Blocker(sys, VerificationMissing)};
      }
      StandsByNewest(steps, verifications, e, required, sys, latest[sys]);
      blockers := if sys !in created then {Blocker(sys, CreatedDisabledMissing)} else {};
      if !(latestState[sys].Succeeded? || latestState[sys].Verified?) {
        blockers := blockers + {Blocker(sys, ProvisioningIncomplete)};
      } else if (e, sys) !in verifications || verifications[(e, sys)].source != latest[sys] {
        blockers := blockers + {Blocker(sys, VerificationMissing)};
      }
    }

    /** Exactly what stands against granting access on the required systems. */
    method ActivationBlockers(e: EmployeeId, required: set<TargetSystem>) returns (blockers: set<Blocker>)
      requires Keyed(executions, steps) && FinishTimesUnique(steps)
      ensures forall b :: b in blockers <==> Stands(steps, verifications, e, required, b)
      ensures blockers == {} <==> ActivationReady(steps, verifications, e, required)
    {
      hide FinishTimesUnique, Stands, ActivationReady, Newest, CreatedDisabled, Touched;
      NoBlockersMeansReady(steps, verifications, e, required);
      var latest, latestState, created := FoldNewestFirst(e);
      blockers := GatherBlockers(e, required, latest, latestState, created);
    }

    /** The newest provisioning step in force on each system with its state, and the systems
        with a finished creation, by walking newest first. */
    method FoldNewestFirst(e: EmployeeId)
        returns (latest: map<TargetSystem, StepId>, latestState: map<TargetSystem, StepState>, created: set<TargetSystem>)
      requires Keyed(executions, steps)
      ensures latestState.Keys == latest.Keys
      ensures forall sys :: sys in latest <==> Touched(steps, e, sys)
      ensures forall sys :: sys in latest ==> Newest(steps, e, sys, latest[sys]) && latestState[sys] == steps[latest[sys]].state
      ensures forall sys :: sys in created <==> CreatedDisabled(steps, e, sys)
    {
      hide Falling, Folded, Keyed;
      var items := EmployeeSteps(e);
      var rank: map<StepId, Time> := map s | s in items :: steps[s].updatedAt;
      var rows := Descending(items, rank);
      latest, latestState, created := map[], map[], {};
      NothingFolded(steps, e, Taken(rows, 0));
      var n := 0;
      while n < |rows|
        invariant 0 <= n <= |rows|
        invariant Folded(steps, e, Taken(rows, n), latest, created)
        invariant latestState.Keys == latest.Keys
        invariant forall sys :: sys in latest ==> latest[sys] in steps && latestState[sys] == steps[latest[sys]].state
      {
        TakeNext(items, rank, rows, n);
        var s := rows[n];
        var row := steps[s];
        var system := row.command.system;
        FoldOn(steps, e, Taken(rows, n), latest, created, s);
        if !row.state.Compensated? {
          if row.command.operation.CreateDisabled? && (row.state.Succeeded? || row.state.Verified?) {
            created := created + {system};
          }
          if (row.command.operation.CreateDisabled? || row.command.operation.Update?) && system !in latest {
            latest, latestState := latest[system := s], latestState[system := row.state];
          }
        }
        n := n + 1;
      }
      TakenAll(items, rank, rows);
      forall sys
        ensures sys in latest <==> Touched(steps, e, sys)
        ensures sys in latest ==> Newest(steps, e, sys, latest[sys])
        ensures sys in created <==> CreatedDisabled(steps, e, sys)
      {
        FoldedAll(steps, e, items, latest, created, sys);
      }
    }

    method GatherBlockers(e: EmployeeId, required: set<TargetSystem>, latest: map<TargetSystem, StepId>,
                          latestState: map<TargetSystem, StepState>, created: set<TargetSystem>)
        returns (blockers: set<Blocker>)
      requires FinishTimesUnique(steps) && latestState.Keys == latest.Keys
      requires forall sys :: sys in latest <==> Touched(steps, e, sys)
      requires forall sys :: sys in latest ==> Newest(steps, e, sys, latest[sys]) && latestState[sys] == steps[latest[sys]].state
      requires forall sys :: sys in created <==> CreatedDisabled(steps, e, sys)
      ensures forall b :: b in blockers <==> Stands(steps, verifications, e, required, b)
    {
      hide Stands, Newest, CreatedDisabled, Touched;
      StandsWhere(steps, verifications, e, required, latest.Keys + required);
      if latest.Keys == {} && required == {} {
        assert latest.Keys + required == {};
        return {NothingProvisioned};
      }
      blockers := {};
      var systems := latest.Keys + required;
      var pending := systems;
      while pending != {}
        invariant pending <= systems
        invariant forall b :: b in blockers <==>
          b.Blocker? && b.system in systems && b.system !in pending && Stands(steps, verifications, e, required, b)
        decreases |pending|
      {
        var sys :| sys in pending;
        var found := SystemBlockers(e, required, sys, latest, latestState, created);
        blockers, pending := blockers + found, pending - {sys};
      }
    }

    // -------------------------------------------------------------- compensation log

    method RecordCompensationAttempt(key: CompensationKey, state: CompensationState, delay: Option<nat>, t: Time)
      modifies this
      ensures View() == RecordCompensation(old(View()), key, state, delay, t)
    {
      var attempts := if key in compensations then compensations[key].attempts + 1 else 1;
      var retryAt: Option<Time> := None;
      if state.CompFailed? && delay.Some? {
        var wait := delay.value * Power2(attempts - 1);
        retryAt := Some(t + (if wait < 300 then wait else 300) * 1_000_000);
      }
      if key in compensations {
        compensations := compensations[key := compensations[key].(state := state, attempts := attempts, nextRetryAt := retryAt)];
      } else {
        compensations := compensations[key := CompensationRow(state, 1, 3, retryAt)];
      }
      clock := t;
    }

    method DueCompensationRequests(t: Time) returns (due: set<RequestId>)
      ensures forall r :: r in due <==> CompensationDue(View(), r, t)
    {
      due := set key | key in compensations && key.request in executions
                       && compensations[key].state.CompFailed? && compensations[key].attempts < compensations[key].maxAttempts
                       && (compensations[key].nextRetryAt.None? || compensations[key].nextRetryAt.value <= t)
                       && (executions[key.request].cancelledAt.Some?
                           || exists s | s in steps :: steps[s].command.request == key.request && steps[s].state.DeadLetter?)
                     :: key.request;
      DueWrittenOut(View(), t);
    }

    // -------------------------------------------------------------- results

    method RequestResult(r: RequestId, t: Time) returns (result: Option<ExecutionView>)
      requires Keyed(executions, steps) && SequencesUnique(steps)
      modifies this`executions, this`clock
      ensures result.Some? <==> r in old(executions)
      ensures result.None? ==> View() == old(View())
      ensures result.Some? ==>
        && View() == Refresh(old(View()), r, t)
        && result.value.request == r && result.value.employee == old(executions)[r].submission.employee
        && result.value.state == Summary(StatesOf(steps, r))
        && Listed(steps, r, result.value.steps)
      ensures result.Some? ==> forall i :: 0 <= i < |result.value.steps| ==>
        var view := result.value.steps[i];
        && view.step in steps
        && var row := steps[view.step];
           && view.system == row.command.system && view.operation == row.command.operation
           && view.state == row.state && view.attempts == row.attempts
           && view.error == row.error && view.retryAt == row.nextRetryAt
      ensures result.Some? ==>
        result.value.state == Summary(set i | 0 <= i < |result.value.steps| :: result.value.steps[i].state)
      ensures result.Some? ==> executions[r].state == result.value.state && executions[r].result == Some(result.value.state)
    {
      if r !in executions {
        return None;
      }
      var views, states := ListSteps(r);
      ListedStates(steps, r, views);
      ListedColumns(steps, r, views);
      hide Listed, StatesOf, Summary;
      var state := Summarize(states);
      executions := executions[r := executions[r].(state := state, result := Some(state))];
      clock := t;
      return Some(ExecutionView(r, executions[r].submission.employee, state, views));
    }

    method Summarize(states: set<StepState>) returns (state: RequestState)
      ensures state == Summary(states)
    {
      if states <= {Succeeded, Verified, Compensated} {
        return ReqCompleted;
      }
      if DeadLetter in states {
        return ReqDeadLetter;
      }
      if RetryWait in states {
        return ReqRetryWait;
      }
      return if Running in states then ReqRunning else ReqPending;
    }

    method ListSteps(r: RequestId) returns (views: seq<StepView>, states: set<StepState>)
      requires Keyed(executions, steps) && SequencesUnique(steps)
      ensures Listed(steps, r, views) && states == StatesOf(steps, r)
    {
      var items := set s | s in steps && InRequest(steps, r, s);
      var rank: map<StepId, int> := map s | s in items :: 0 - steps[s].command.sequence;
      var rows := Descending(items, rank);
      TakenAll(items, rank, rows);
      views, states := ViewRows(rows);
      StatesTaken(steps, r, items, states);
      ListedInOrder(steps, r, items, rank, rows, views);
    }

    method ViewRows(rows: seq<StepId>) returns (views: seq<StepView>, states: set<StepState>)
      requires forall i :: 0 <= i < |rows| ==> rows[i] in steps && steps[rows[i]].command.stepId == rows[i]
      ensures |views| == |rows| && forall i :: 0 <= i < |rows| ==> views[i] == ViewOf(steps[rows[i]])
      ensures forall state :: state in states <==> exists s :: s in Taken(rows, |rows|) && s in steps && steps[s].state == state
    {
      views, states := [], {};
      var n := 0;
      while n < |rows|
        invariant 0 <= n <= |rows| && |views| == n
        invariant forall i :: 0 <= i < n ==> views[i] == ViewOf(steps[rows[i]])
        invariant forall state :: state in states <==> exists i :: 0 <= i < n && steps[rows[i]].state == state
      {
        var row := steps[rows[n]];
        var view := StepView(rows[n], row.command.system, row.command.operation, row.state, row.attempts, row.error, row.nextRetryAt);
        views, states := views + [view], states + {row.state};
        n := n + 1;
      }
      forall i | 0 <= i < n
        ensures rows[i] in Taken(rows, n)
      {
      }
    }

    method FinishedOldestFirst(e: EmployeeId) returns (rows: seq<StepId>)
      requires Keyed(executions, steps) && FinishTimesUnique(steps)
      ensures Timeline(steps, e, rows)
      ensures forall i :: 0 <= i < |rows| ==> rows[i] in steps
    {
      var items := set s | s in EmployeeSteps(e) && (steps[s].state.Succeeded? || steps[s].state.Verified?);
      rows := Descending(items, map s | s in items :: 0 - steps[s].updatedAt);
      assert forall s :: OfEmployee(steps, e, s) && Finished(steps[s].state) ==> s in items;
    }

    /** The commands an employee's accounts are bound by, payloads merged oldest first. */
    method EmployeeCommands(e: EmployeeId) returns (commands: seq<Command>)
      requires Keyed(executions, steps) && FinishTimesUnique(steps)
      ensures exists timeline :: Timeline(steps, e, timeline) && ReadBack(steps, timeline, commands)
    {
      hide FinishTimesUnique, Timeline, Payloads.Merge, BoundAfter, FirstSeen, ReadBack;
      var rows := FinishedOldestFirst(e);
      NothingBound(steps);
      assert rows[..0] == [];
      var current: map<TargetSystem, Command> := map[];
      var order: seq<TargetSystem> := [];
      var n := 0;
      while n < |rows|
        invariant 0 <= n <= |rows|
        invariant BoundAfter(steps, rows[..n], current) && order == FirstSeen(steps, rows[..n])
      {
        var s := rows[n];
        var command := steps[s].command;
        BindNext(steps, rows[..n], current, s);
        FirstSeenNext(steps, rows[..n], s);
        SeenIsBound(steps, rows[..n], current, command.system);
        if command.system in current || command.operation.CreateDisabled? {
          if command.system !in current {
            order := order + [command.system];
          }
          var held := if command.system in current then current[command.system].payload else Payloads.Object(map[]);
          var payload := Payloads.MergedEntry(held, command.payload);
          current := current[command.system := command.(payload := payload)];
        }
        assert rows[..n + 1] == rows[..n] + [s];
        n := n + 1;
      }
      assert rows[..n] == rows;
      AllSeenAreBound(steps, rows, current);
      commands := seq(|order|, i requires 0 <= i < |order| && order[i] in current => current[order[i]]);
      BoundIsReadBack(steps, rows, current, commands);
    }
  }
}
