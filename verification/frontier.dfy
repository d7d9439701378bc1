/** The table invariant every run keeps, its preservation by each store operation, and
    what it makes of the claim, retry and summary queries: they all look at one step, the
    first one of the request that is not done (the frontier). */
module Frontier {
  import opened Contracts
  import opened Tables

  // ---------------------------------------------------------------- the invariant

  ghost predicate SubmissionsOk(executions: Executions)
  {
    forall r :: r in executions ==>
      executions[r].submission.request == r && WellFormed(executions[r].submission)
  }

  ghost predicate KeysUnique(executions: Executions)
  {
    forall a, b :: a in executions && b in executions && a != b ==>
      executions[a].submission.key != executions[b].submission.key
  }

  /** Each step belongs to a stored request of its employee. */
  ghost predicate Keyed(executions: Executions, steps: Steps)
  {
    forall s :: s in steps ==>
      var command := steps[s].command;
      && command.stepId == s
      && command.maxAttempts >= 1
      && command.request in executions
      && executions[command.request].submission.employee == command.employee
  }

  ghost predicate SequencesUnique(steps: Steps)
  {
    forall a, b :: a in steps && b in steps && a != b
                   && steps[a].command.request == steps[b].command.request ==>
      steps[a].command.sequence != steps[b].command.sequence
  }

  predicate Untouched(row: StepRow)
  {
    row.attempts == 0 && (row.state.Pending? || row.state.Compensated?)
  }

  /** Steps after one that is not done were never attempted ... */
  ghost predicate TailUntouched(steps: Steps)
  {
    forall p, s :: Before(steps, p, s) && !Done(steps[p].state) ==> Untouched(steps[s])
  }

  /** ... and are all pending or all compensated. */
  ghost predicate TailUniform(steps: Steps)
  {
    forall p, s, o :: Before(steps, p, s) && Before(steps, p, o) && !Done(steps[p].state) ==>
      steps[s].state == steps[o].state
  }

  predicate RowOk(row: StepRow)
  {
    && (row.claimedAt.Some? <==> row.state.Running?)
    && !row.state.Failed?
    && (row.state.Pending? ==> row.attempts == 0 && row.nextRetryAt.None?)
    && (row.state.Running? || row.state.DeadLetter? || Finished(row.state) ==> row.attempts > 0)
  }

  ghost predicate RowsOk(steps: Steps)
  {
    forall s :: s in steps ==> RowOk(steps[s])
  }

  ghost predicate Stamped(steps: Steps, now: Time)
  {
    forall s :: s in steps ==> steps[s].updatedAt <= now
  }

  /** No other row carries the timestamp of a finished step. */
  ghost predicate FinishTimesUnique(steps: Steps)
  {
    forall a, b :: a in steps && b in steps && a != b && Finished(steps[a].state) ==>
      steps[a].updatedAt != steps[b].updatedAt
  }

  ghost predicate StepsOk(steps: Steps)
  {
    && SequencesUnique(steps)
    && TailUntouched(steps)
    && TailUniform(steps)
    && RowsOk(steps)
    && FinishTimesUnique(steps)
  }

  ghost predicate DeadLettersOk(steps: Steps, deadLetters: map<StepId, DeadLetterRow>)
  {
    forall s :: s in deadLetters && deadLetters[s].resolvedAt.None? ==>
      s in steps && steps[s].state.DeadLetter?
  }

  /** Every verification record names a finished provisioning step of its employee and system. */
  ghost predicate RecordsOk(steps: Steps, verifications: Verifications)
  {
    forall e, sys :: (e, sys) in verifications ==>
      var s := verifications[(e, sys)].source;
      Provisioning(steps, e, sys, s) && Finished(steps[s].state)
  }

  ghost predicate TablesOk(db: Db)
  {
    && SubmissionsOk(db.executions)
    && KeysUnique(db.executions)
    && Keyed(db.executions, db.steps)
    && StepsOk(db.steps)
    && Stamped(db.steps, db.clock)
    && DeadLettersOk(db.steps, db.deadLetters)
    && RecordsOk(db.steps, db.verifications)
  }

  /** Executions stay, with their submission and their cancellation. */
  ghost predicate ExecutionsStay(executions: Executions, executions': Executions)
  {
    forall r :: r in executions ==>
      && r in executions' && executions'[r].submission == executions[r].submission
      && (executions[r].cancelledAt.Some? ==> executions'[r].cancelledAt.Some?)
  }

  /** Steps stay, with their command; a finished step's row is final. */
  ghost predicate StepsStay(steps: Steps, steps': Steps)
  {
    forall s :: s in steps ==>
      && s in steps' && steps'[s].command == steps[s].command
      && (Finished(steps[s].state) ==> steps'[s] == steps[s])
  }

  ghost predicate Evolves(db: Db, db': Db)
  {
    && db.clock <= db'.clock
    && ExecutionsStay(db.executions, db'.executions)
    && StepsStay(db.steps, db'.steps)
  }

  lemma EvolvesTransitive(a: Db, b: Db, c: Db)
    requires Evolves(a, b) && Evolves(b, c)
    ensures Evolves(a, c)
  {
  }

  // ---------------------------------------------------------------- one row changes

  /** Everything before `s` in its request is done. */
  ghost predicate AtFrontier(steps: Steps, s: StepId)
  {
    forall p :: Before(steps, p, s) ==> Done(steps[p].state)
  }

  /** A step that left its first state stands at the frontier. */
  lemma TouchedIsAtFrontier(steps: Steps, s: StepId)
    requires TailUntouched(steps) && s in steps && !Untouched(steps[s])
    ensures AtFrontier(steps, s)
  {
  }

  /** `row`, stamped `t`, may replace the unfinished frontier row of `s`. */
  ghost predicate RowUpdate(steps: Steps, s: StepId, row: StepRow, t: Time)
  {
    && s in steps
    && !Done(steps[s].state)
    && AtFrontier(steps, s)
    && row.command == steps[s].command
    && row.updatedAt == t
    && RowOk(row)
  }

  lemma RowUpdateTailUntouched(steps: Steps, s: StepId, row: StepRow, t: Time)
    requires TailUntouched(steps) && RowUpdate(steps, s, row, t)
    ensures TailUntouched(steps[s := row])
  {
    var steps' := steps[s := row];
    forall p, o | Before(steps', p, o) && !Done(steps'[p].state)
      ensures Untouched(steps'[o])
    {
      assert Before(steps, p, o);
    }
  }

  lemma RowUpdateTailUniform(steps: Steps, s: StepId, row: StepRow, t: Time)
    requires TailUniform(steps) && RowUpdate(steps, s, row, t)
    ensures TailUniform(steps[s := row])
  {
    var steps' := steps[s := row];
    forall p, o, q | Before(steps', p, o) && Before(steps', p, q) && !Done(steps'[p].state)
      ensures steps'[o].state == steps'[q].state
    {
      assert Before(steps, p, o) && Before(steps, p, q);
    }
  }

  lemma RowUpdateKeepsSteps(steps: Steps, s: StepId, row: StepRow, t: Time, now: Time)
    requires StepsOk(steps) && Stamped(steps, now) && RowUpdate(steps, s, row, t) && t > now
    ensures StepsOk(steps[s := row]) && Stamped(steps[s := row], t)
  {
    RowUpdateTailUntouched(steps, s, row, t);
    RowUpdateTailUniform(steps, s, row, t);
  }

  lemma RowUpdateKeepsRecords(steps: Steps, verifications: Verifications, s: StepId, row: StepRow, t: Time)
    requires RecordsOk(steps, verifications) && RowUpdate(steps, s, row, t)
    ensures RecordsOk(steps[s := row], verifications)
  {
  }

  lemma RowUpdateKeepsKeys(executions: Executions, steps: Steps, s: StepId, row: StepRow, t: Time)
    requires Keyed(executions, steps) && RowUpdate(steps, s, row, t)
    ensures Keyed(executions, steps[s := row]) && StepsStay(steps, steps[s := row])
  {
  }

  lemma RowUpdateKeepsDeadLetters(steps: Steps, deadLetters: map<StepId, DeadLetterRow>, s: StepId, row: StepRow)
    requires DeadLettersOk(steps, deadLetters) && s in steps
    requires s in deadLetters && deadLetters[s].resolvedAt.None? ==> row.state.DeadLetter?
    ensures DeadLettersOk(steps[s := row], deadLetters)
  {
  }

  lemma RowUpdateKeeps(db: Db, s: StepId, row: StepRow, t: Time)
    requires TablesOk(db) && RowUpdate(db.steps, s, row, t) && t > db.clock
    requires s in db.deadLetters && db.deadLetters[s].resolvedAt.None? ==> row.state.DeadLetter?
    ensures TablesOk(At(PutRow(db, s, row), t))
    ensures Evolves(db, At(PutRow(db, s, row), t))
  {
    assert s in db.steps;
    RowUpdateKeepsSteps(db.steps, s, row, t, db.clock);
    RowUpdateKeepsRecords(db.steps, db.verifications, s, row, t);
    RowUpdateKeepsKeys(db.executions, db.steps, s, row, t);
    RowUpdateKeepsDeadLetters(db.steps, db.deadLetters, s, row);
    hide StepsOk, RecordsOk, Keyed, DeadLettersOk, StepsStay, Stamped, RowUpdate, SubmissionsOk, KeysUnique;
  }

  // ---------------------------------------------------------------- the operations

  /** Only request states, the compensation log or the clock moved. */
  lemma SameStepsKeeps(db: Db, db': Db)
    requires TablesOk(db)
    requires db'.steps == db.steps && db'.deadLetters == db.deadLetters && db'.verifications == db.verifications
    requires db'.executions.Keys == db.executions.Keys && ExecutionsStay(db.executions, db'.executions)
    requires db.clock <= db'.clock
    ensures TablesOk(db') && Evolves(db, db')
  {
  }

  lemma RequestStateKeeps(db: Db, r: RequestId, state: RequestState)
    requires TablesOk(db)
    ensures TablesOk(SetRequestState(db, r, state)) && Evolves(db, SetRequestState(db, r, state))
  {
    hide TablesOk, Evolves;
    SameStepsKeeps(db, SetRequestState(db, r, state));
  }

  lemma DeadLettersKeeps(db: Db, deadLetters: map<StepId, DeadLetterRow>)
    requires TablesOk(db) && DeadLettersOk(db.steps, deadLetters)
    ensures TablesOk(db.(deadLetters := deadLetters)) && Evolves(db, db.(deadLetters := deadLetters))
  {
  }

  lemma WaitingStep(db: Db, s: StepId)
    requires TablesOk(db) && s in db.steps && Waiting(db.steps[s].state)
    ensures RowOk(db.steps[s])
    ensures s in db.deadLetters ==> db.deadLetters[s].resolvedAt.Some?
  {
  }

  /** A running step stands at the frontier and has no open dead letter. */
  lemma RunningStep(db: Db, s: StepId)
    requires TablesOk(db) && s in db.steps && db.steps[s].state.Running?
    ensures AtFrontier(db.steps, s) && RowOk(db.steps[s])
    ensures s in db.deadLetters ==> db.deadLetters[s].resolvedAt.Some?
  {
    TouchedIsAtFrontier(db.steps, s);
  }

  /** So does a step that waits for a retry or was dead-lettered. */
  lemma RetriedStep(db: Db, s: StepId)
    requires TablesOk(db) && s in db.steps && (db.steps[s].state.DeadLetter? || db.steps[s].state.RetryWait?)
    ensures AtFrontier(db.steps, s) && RowOk(db.steps[s])
  {
    TouchedIsAtFrontier(db.steps, s);
  }

  lemma NeverFailed(db: Db, s: StepId)
    requires TablesOk(db) && s in db.steps
    ensures !db.steps[s].state.Failed?
  {
    assert RowOk(db.steps[s]);
  }

  lemma ClaimKeeps(db: Db, r: RequestId, s: StepId, t: Time)
    requires TablesOk(db) && Claimable(db.steps, r, s, t) && t > db.clock
    ensures TablesOk(Claim(db, s, t)) && Evolves(db, Claim(db, s, t))
  {
    WaitingStep(db, s);
    var row := ClaimedRow(db.steps[s], t);
    assert RowUpdate(db.steps, s, row, t) by {
      hide TablesOk;
    }
    hide TablesOk, RowUpdate, Claimable, Evolves, RowOk;
    var request := db.steps[s].command.request;
    var marked := SetRequestState(db, request, ReqRunning);
    RequestStateKeeps(db, request, ReqRunning);
    RowUpdateKeeps(marked, s, row, t);
    EvolvesTransitive(db, marked, Claim(db, s, t));
  }

  lemma CompleteKeeps(db: Db, s: StepId, state: StepState, evidence: string, t: Time)
    requires TablesOk(db) && s in db.steps && db.steps[s].state.Running? && Finished(state) && t > db.clock
    ensures TablesOk(Complete(db, s, state, evidence, t)) && Evolves(db, Complete(db, s, state, evidence, t))
  {
    hide TablesOk, Evolves, AtFrontier;
    RunningStep(db, s);
    RowUpdateKeeps(db, s, CompletedRow(db.steps[s], state, evidence, t), t);
  }

  lemma FailKeeps(db: Db, s: StepId, error: string, retry: RetryClass, retryAt: Option<Time>, t: Time)
    requires TablesOk(db) && s in db.steps && db.steps[s].state.Running? && t > db.clock
    ensures TablesOk(Fail(db, s, error, retry, retryAt, t)) && Evolves(db, Fail(db, s, error, retry, retryAt, t))
  {
    hide TablesOk, Evolves, AtFrontier, DeadLettersOk;
    RunningStep(db, s);
    var row := FailedRow(db.steps[s], error, retry, retryAt, t);
    var put := At(PutRow(db, s, row), t);
    RowUpdateKeeps(db, s, row, t);
    if row.state.DeadLetter? {
      AddDeadLetterKeeps(put, s, error);
      EvolvesTransitive(db, put, AddDeadLetter(put, s, error));
    }
  }

  lemma AddDeadLetterKeeps(db: Db, s: StepId, error: string)
    requires TablesOk(db) && s in db.steps && db.steps[s].state.DeadLetter?
    ensures TablesOk(AddDeadLetter(db, s, error)) && Evolves(db, AddDeadLetter(db, s, error))
  {
    LettersAreOk(db);
    hide TablesOk, Evolves, DeadLettersOk;
    LettersChange(db.steps, db.deadLetters, s, error, 0);
    NothingEvolves(db);
    if s !in db.deadLetters {
      DeadLettersKeeps(db, db.deadLetters[s := DeadLetterRow(error, None)]);
    }
  }

  lemma LettersAreOk(db: Db)
    requires TablesOk(db)
    ensures DeadLettersOk(db.steps, db.deadLetters)
  {
  }

  lemma NothingEvolves(db: Db)
    ensures Evolves(db, db)
  {
  }

  lemma LettersChange(steps: Steps, deadLetters: map<StepId, DeadLetterRow>, s: StepId, error: string, t: Time)
    requires DeadLettersOk(steps, deadLetters)
    ensures s in steps && steps[s].state.DeadLetter? ==> DeadLettersOk(steps, deadLetters[s := DeadLetterRow(error, None)])
    ensures s in deadLetters ==> DeadLettersOk(steps, deadLetters[s := deadLetters[s].(resolvedAt := Some(t))])
  {
  }

  lemma ResolveDeadLetterKeeps(db: Db, s: StepId, t: Time)
    requires TablesOk(db)
    ensures TablesOk(ResolveDeadLetter(db, s, t)) && Evolves(db, ResolveDeadLetter(db, s, t))
  {
    LettersAreOk(db);
    hide TablesOk, Evolves, DeadLettersOk;
    LettersChange(db.steps, db.deadLetters, s, "", t);
    NothingEvolves(db);
    if s in db.deadLetters {
      DeadLettersKeeps(db, db.deadLetters[s := db.deadLetters[s].(resolvedAt := Some(t))]);
    }
  }

  lemma RescheduleKeeps(db: Db, s: StepId, t: Time)
    requires TablesOk(db) && s in db.steps && Retryable(db.steps[s]) && t > db.clock
    ensures TablesOk(Reschedule(db, s, t)) && Evolves(db, Reschedule(db, s, t))
  {
    hide TablesOk, AtFrontier, Evolves;
    NeverFailed(db, s);
    RetriedStep(db, s);
    var resolved := ResolveDeadLetter(db, s, t);
    ResolveDeadLetterKeeps(db, s, t);
    RowUpdateKeeps(resolved, s, RescheduledRow(db.steps[s], t), t);
    EvolvesTransitive(db, resolved, Reschedule(db, s, t));
  }

  lemma ReleaseKeeps(db: Db, s: StepId, t: Time)
    requires TablesOk(db) && s in db.steps && db.steps[s].state.Running? && t > db.clock
    ensures TablesOk(Release(db, s, t)) && Evolves(db, Release(db, s, t))
  {
    hide TablesOk, AtFrontier, Evolves;
    RunningStep(db, s);
    var reset := ResetRequest(db, db.steps[s].command.request);
    SameStepsKeeps(db, reset);
    RowUpdateKeeps(reset, s, ReleasedRow(db.steps[s], t), t);
    EvolvesTransitive(db, reset, Release(db, s, t));
  }

  // Operations on many rows.

  /** Some unfinished rows were replaced, all stamped `t`. */
  ghost predicate RowsReplaced(steps: Steps, steps': Steps, t: Time)
  {
    && steps'.Keys == steps.Keys
    && forall s :: s in steps && steps'[s] != steps[s] ==>
         && steps'[s].command == steps[s].command
         && steps'[s].updatedAt == t
         && !Done(steps[s].state) && !Finished(steps'[s].state) && RowOk(steps'[s])
  }

  lemma RowsReplacedKeeps(steps: Steps, steps': Steps, t: Time, now: Time)
    requires SequencesUnique(steps) && RowsOk(steps) && FinishTimesUnique(steps) && Stamped(steps, now)
    requires RowsReplaced(steps, steps', t) && t > now
    ensures SequencesUnique(steps') && RowsOk(steps') && FinishTimesUnique(steps') && Stamped(steps', t)
    ensures StepsStay(steps, steps')
  {
  }

  lemma RowsReplacedKeepsKeys(executions: Executions, steps: Steps, steps': Steps, t: Time)
    requires Keyed(executions, steps) && RowsReplaced(steps, steps', t)
    ensures Keyed(executions, steps')
  {
  }

  lemma RowsReplacedKeepsRecords(steps: Steps, steps': Steps, verifications: Verifications, t: Time)
    requires RecordsOk(steps, verifications) && RowsReplaced(steps, steps', t)
    ensures RecordsOk(steps', verifications)
  {
    forall e, sys | (e, sys) in verifications
      ensures var s := verifications[(e, sys)].source;
              Provisioning(steps', e, sys, s) && Finished(steps'[s].state)
    {
      assert Provisioning(steps, e, sys, verifications[(e, sys)].source);
    }
  }

  lemma CancelTail(steps: Steps, steps': Steps, r: RequestId, t: Time)
    requires TailUntouched(steps) && TailUniform(steps) && steps'.Keys == steps.Keys
    requires forall s :: s in steps ==>
               steps'[s] == if Cancellable(steps, r, s) then CancelledRow(steps[s], t) else steps[s]
    ensures TailUntouched(steps') && TailUniform(steps')
  {
    forall p, o | Before(steps', p, o) && !Done(steps'[p].state)
      ensures Untouched(steps'[o])
    {
      assert Before(steps, p, o);
    }
    forall p, o, q | Before(steps', p, o) && Before(steps', p, q) && !Done(steps'[p].state)
      ensures steps'[o].state == steps'[q].state
    {
      assert Before(steps, p, o) && Before(steps, p, q);
      hide Before;
      assert steps[o].state == steps[q].state;
    }
  }

  lemma RecoverTail(steps: Steps, steps': Steps, timeout: nat, t: Time)
    requires TailUntouched(steps) && TailUniform(steps) && steps'.Keys == steps.Keys
    requires forall s :: s in steps ==>
               steps'[s] == if Stale(steps, s, timeout, t) then RecoveredRow(steps[s], t) else steps[s]
    ensures TailUntouched(steps') && TailUniform(steps')
  {
    forall p, o | Before(steps', p, o) && !Done(steps'[p].state)
      ensures Untouched(steps'[o]) && steps'[o] == steps[o]
    {
      assert Before(steps, p, o);
    }
    forall p, o, q | Before(steps', p, o) && Before(steps', p, q) && !Done(steps'[p].state)
      ensures steps'[o].state == steps'[q].state
    {
      assert Before(steps, p, o) && Before(steps, p, q);
    }
  }

  lemma BulkKeeps(db: Db, db': Db, t: Time)
    requires TablesOk(db) && db' == At(db.(steps := db'.steps), t) && t > db.clock
    requires RowsReplaced(db.steps, db'.steps, t)
    requires TailUntouched(db'.steps) && TailUniform(db'.steps)
    requires DeadLettersOk(db'.steps, db'.deadLetters)
    ensures TablesOk(db') && Evolves(db, db')
  {
    RowsReplacedKeeps(db.steps, db'.steps, t, db.clock);
    RowsReplacedKeepsKeys(db.executions, db.steps, db'.steps, t);
    RowsReplacedKeepsRecords(db.steps, db'.steps, db.verifications, t);
    hide RowsReplaced, RecordsOk, Keyed, TailUntouched, TailUniform, DeadLettersOk, StepsStay, Stamped,
         SubmissionsOk, KeysUnique, SequencesUnique, RowsOk, FinishTimesUnique;
  }

  lemma CancelReplaces(db: Db, r: RequestId, t: Time)
    requires RowsOk(db.steps) && DeadLettersOk(db.steps, db.deadLetters)
    ensures RowsReplaced(db.steps, CancelPending(db, r, t).steps, t)
    ensures DeadLettersOk(CancelPending(db, r, t).steps, db.deadLetters)
  {
  }

  lemma CancelPendingKeeps(db: Db, r: RequestId, t: Time)
    requires TablesOk(db) && t > db.clock
    ensures TablesOk(CancelPending(db, r, t)) && Evolves(db, CancelPending(db, r, t))
  {
    var db' := CancelPending(db, r, t);
    CancelReplaces(db, r, t);
    CancelTail(db.steps, db'.steps, r, t);
    hide TablesOk, Evolves, RowsReplaced, TailUntouched, TailUniform, DeadLettersOk;
    BulkKeeps(db, db', t);
  }

  lemma RecoverReplaces(db: Db, timeout: nat, t: Time)
    requires RowsOk(db.steps) && DeadLettersOk(db.steps, db.deadLetters)
    ensures RowsReplaced(db.steps, RecoverStale(db, timeout, t).steps, t)
    ensures DeadLettersOk(RecoverStale(db, timeout, t).steps, db.deadLetters)
  {
  }

  lemma RecoverStaleKeeps(db: Db, timeout: nat, t: Time)
    requires TablesOk(db) && t > db.clock
    ensures TablesOk(RecoverStale(db, timeout, t)) && Evolves(db, RecoverStale(db, timeout, t))
  {
    var db' := RecoverStale(db, timeout, t);
    RecoverReplaces(db, timeout, t);
    RecoverTail(db.steps, db'.steps, timeout, t);
    hide TablesOk, Evolves, RowsReplaced, TailUntouched, TailUniform, DeadLettersOk;
    BulkKeeps(db, db', t);
  }

  lemma MarkCancelledKeeps(db: Db, r: RequestId, t: Time)
    requires TablesOk(db) && t >= db.clock
    ensures TablesOk(MarkCancelled(db, r, t)) && Evolves(db, MarkCancelled(db, r, t))
  {
    hide TablesOk, Evolves;
    SameStepsKeeps(db, MarkCancelled(db, r, t));
  }

  lemma RefreshKeeps(db: Db, r: RequestId, t: Time)
    requires TablesOk(db) && t >= db.clock
    ensures TablesOk(Refresh(db, r, t)) && Evolves(db, Refresh(db, r, t))
  {
    hide TablesOk, Evolves, Summary;
    SameStepsKeeps(db, Refresh(db, r, t));
  }

  lemma RecordVerificationKeeps(db: Db, e: EmployeeId, sys: TargetSystem, s: StepId, evidence: string, t: Time)
    requires TablesOk(db) && Candidate(db.steps, e, sys, s) && t >= db.clock
    ensures TablesOk(RecordVerification(db, e, sys, s, evidence, t))
    ensures Evolves(db, RecordVerification(db, e, sys, s, evidence, t))
  {
    hide StepsOk, Keyed, DeadLettersOk, SubmissionsOk, KeysUnique;
  }

  // A new request.

  predicate DistinctIds(commands: seq<Command>)
  {
    forall i, j :: 0 <= i < j < |commands| ==> commands[i].stepId != commands[j].stepId
  }

  /** Distinct fresh commands become fresh rows, and nothing else changes. */
  lemma {:induction false} InsertRowsAre(steps: Steps, commands: seq<Command>, t: Time)
    requires DistinctIds(commands)
    ensures InsertRows(steps, commands, t).Keys == steps.Keys + StepIds(commands)
    ensures forall i :: 0 <= i < |commands| ==> InsertRows(steps, commands, t)[commands[i].stepId] == FreshRow(commands[i], t)
    ensures forall s :: s in steps && s !in StepIds(commands) ==> InsertRows(steps, commands, t)[s] == steps[s]
  {
    if commands != [] {
      var init, last := commands[..|commands| - 1], commands[|commands| - 1];
      InsertRowsAre(steps, init, t);
      StepIdsSnoc(commands);
      var rows := InsertRows(steps, commands, t);
      forall i | 0 <= i < |commands|
        ensures commands[i].stepId in rows && rows[commands[i].stepId] == FreshRow(commands[i], t)
      {
        if i < |init| {
          assert init[i] == commands[i];
        }
      }
    }
  }

  lemma StepIdsSnoc(commands: seq<Command>)
    requires commands != []
    ensures StepIds(commands) == StepIds(commands[..|commands| - 1]) + {commands[|commands| - 1].stepId}
  {
    var init, last := commands[..|commands| - 1], commands[|commands| - 1];
    forall i | 0 <= i < |commands|
      ensures commands[i].stepId in StepIds(init) + {last.stepId}
    {
      assert i < |init| ==> init[i] == commands[i];
    }
    forall i | 0 <= i < |init|
      ensures init[i].stepId in StepIds(commands)
    {
      assert commands[i] == init[i];
    }
  }

  /** The rows of a new request: pending, of that request, stamped `t`. */
  ghost predicate RowsAdded(executions: Executions, steps: Steps, steps': Steps, submission: Submission, t: Time)
  {
    && submission.request !in executions
    && (forall s :: s in steps ==> s in steps' && steps'[s] == steps[s])
    && (forall s :: s in steps' && s !in steps ==>
          && steps'[s] == FreshRow(steps'[s].command, t)
          && steps'[s].command in submission.steps
          && steps'[s].command.stepId == s
          && steps'[s].command.request == submission.request
          && steps'[s].command.employee == submission.employee
          && steps'[s].command.maxAttempts >= 1)
    && (forall a, b :: a in steps' && b in steps' && a !in steps && b !in steps && a != b ==>
          steps'[a].command.sequence != steps'[b].command.sequence)
  }

  lemma BeginAddsRows(db: Db, submission: Submission, t: Time)
    requires Insertable(db, submission) && WellFormed(submission)
    ensures RowsAdded(db.executions, db.steps, Begin(db, submission, t).steps, submission, t)
  {
    hide InsertRows;
    var commands := submission.steps;
    InsertRowsAre(db.steps, commands, t);
    var steps' := InsertRows(db.steps, commands, t);
    forall s | s in steps' && s !in db.steps
      ensures steps'[s] == FreshRow(steps'[s].command, t) && steps'[s].command in commands && steps'[s].command.stepId == s
      ensures steps'[s].command.request == submission.request && steps'[s].command.employee == submission.employee
      ensures steps'[s].command.maxAttempts >= 1
    {
      var i := AddedRow(db.steps, commands, t, s);
    }
    forall a, b | a in steps' && b in steps' && a !in db.steps && b !in db.steps && a != b
      ensures steps'[a].command.sequence != steps'[b].command.sequence
    {
      var i := AddedRow(db.steps, commands, t, a);
      var j := AddedRow(db.steps, commands, t, b);
      assert i < j || j < i;
    }
  }

  lemma AddedRow(steps: Steps, commands: seq<Command>, t: Time, s: StepId) returns (i: nat)
    requires DistinctIds(commands) && s in InsertRows(steps, commands, t) && s !in steps
    ensures i < |commands| && commands[i].stepId == s && InsertRows(steps, commands, t)[s] == FreshRow(commands[i], t)
  {
    hide InsertRows;
    InsertRowsAre(steps, commands, t);
    i :| 0 <= i < |commands| && commands[i].stepId == s;
  }

  /** Steps of stored requests and steps of the new one never share a request. */
  lemma RowsAddedApart(executions: Executions, steps: Steps, steps': Steps, submission: Submission, t: Time, a: StepId, b: StepId)
    requires Keyed(executions, steps) && RowsAdded(executions, steps, steps', submission, t)
    requires a in steps' && b in steps' && steps'[a].command.request == steps'[b].command.request
    ensures a in steps <==> b in steps
  {
  }

  lemma RowsAddedTail(executions: Executions, steps: Steps, steps': Steps, submission: Submission, t: Time)
    requires Keyed(executions, steps) && RowsAdded(executions, steps, steps', submission, t)
    requires TailUntouched(steps) && TailUniform(steps)
    ensures TailUntouched(steps') && TailUniform(steps')
  {
    forall p, o | Before(steps', p, o) && !Done(steps'[p].state)
      ensures Untouched(steps'[o])
    {
      RowsAddedApart(executions, steps, steps', submission, t, p, o);
      assert p in steps ==> Before(steps, p, o);
    }
    forall p, o, q | Before(steps', p, o) && Before(steps', p, q) && !Done(steps'[p].state)
      ensures steps'[o].state == steps'[q].state
    {
      RowsAddedApart(executions, steps, steps', submission, t, p, o);
      RowsAddedApart(executions, steps, steps', submission, t, p, q);
      assert p in steps ==> Before(steps, p, o) && Before(steps, p, q);
    }
  }

  lemma RowsAddedSequences(executions: Executions, steps: Steps, steps': Steps, submission: Submission, t: Time)
    requires Keyed(executions, steps) && RowsAdded(executions, steps, steps', submission, t)
    requires SequencesUnique(steps)
    ensures SequencesUnique(steps')
  {
    forall a, b | a in steps' && b in steps' && a != b && steps'[a].command.request == steps'[b].command.request
      ensures steps'[a].command.sequence != steps'[b].command.sequence
    {
      RowsAddedApart(executions, steps, steps', submission, t, a, b);
    }
  }

  lemma RowsAddedStamps(executions: Executions, steps: Steps, steps': Steps, submission: Submission, t: Time, now: Time)
    requires RowsAdded(executions, steps, steps', submission, t)
    requires RowsOk(steps) && FinishTimesUnique(steps) && Stamped(steps, now) && t > now
    ensures RowsOk(steps') && FinishTimesUnique(steps') && Stamped(steps', t) && StepsStay(steps, steps')
  {
  }

  lemma RowsAddedKeeps(executions: Executions, steps: Steps, steps': Steps, submission: Submission, t: Time, now: Time)
    requires Keyed(executions, steps) && RowsAdded(executions, steps, steps', submission, t)
    requires StepsOk(steps) && Stamped(steps, now) && t > now
    ensures StepsOk(steps') && Stamped(steps', t) && StepsStay(steps, steps')
  {
    hide Keyed, RowsAdded, TailUntouched, TailUniform, SequencesUnique, RowsOk, FinishTimesUnique, Stamped, StepsStay;
    RowsAddedTail(executions, steps, steps', submission, t);
    RowsAddedSequences(executions, steps, steps', submission, t);
    RowsAddedStamps(executions, steps, steps', submission, t, now);
  }

  lemma RowsAddedKeepsKeys(executions: Executions, executions': Executions, steps: Steps, steps': Steps,
                           submission: Submission, t: Time)
    requires Keyed(executions, steps) && RowsAdded(executions, steps, steps', submission, t)
    requires executions' == executions[submission.request := ExecutionRow(submission, ReqPending, None, None)]
    ensures Keyed(executions', steps')
  {
  }

  lemma RowsAddedKeepsRest(db: Db, steps': Steps, submission: Submission, t: Time)
    requires RowsAdded(db.executions, db.steps, steps', submission, t)
    requires DeadLettersOk(db.steps, db.deadLetters) && RecordsOk(db.steps, db.verifications)
    ensures DeadLettersOk(steps', db.deadLetters) && RecordsOk(steps', db.verifications)
  {
    forall e, sys | (e, sys) in db.verifications
      ensures var s := db.verifications[(e, sys)].source;
              Provisioning(steps', e, sys, s) && Finished(steps'[s].state)
    {
      assert Provisioning(db.steps, e, sys, db.verifications[(e, sys)].source);
    }
  }

  lemma BeginKeepsExecutions(db: Db, submission: Submission, t: Time)
    requires SubmissionsOk(db.executions) && KeysUnique(db.executions)
    requires Insertable(db, submission) && WellFormed(submission)
    ensures var executions' := Begin(db, submission, t).executions;
            SubmissionsOk(executions') && KeysUnique(executions') && ExecutionsStay(db.executions, executions')
  {
  }

  lemma BeginKeeps(db: Db, submission: Submission, t: Time)
    requires TablesOk(db) && Insertable(db, submission) && WellFormed(submission) && t > db.clock
    ensures TablesOk(Begin(db, submission, t)) && Evolves(db, Begin(db, submission, t))
  {
    hide RowsAdded, StepsOk, RecordsOk, Keyed, DeadLettersOk, StepsStay, Stamped, WellFormed, Insertable,
         SubmissionsOk, KeysUnique, ExecutionsStay, InsertRows;
    var db' := Begin(db, submission, t);
    BeginAddsRows(db, submission, t);
    BeginKeepsExecutions(db, submission, t);
    RowsAddedKeeps(db.executions, db.steps, db'.steps, submission, t, db.clock);
    RowsAddedKeepsKeys(db.executions, db'.executions, db.steps, db'.steps, submission, t);
    RowsAddedKeepsRest(db, db'.steps, submission, t);
  }

  // ---------------------------------------------------------------- what the queries see

  /** The first step of `r` that is not done. */
  ghost predicate IsFrontier(steps: Steps, r: RequestId, s: StepId)
  {
    InRequest(steps, r, s) && !Done(steps[s].state) && AtFrontier(steps, s)
  }

  /** At most one step of a request is both attempted and not done. */
  lemma OneAttemptedUnfinished(steps: Steps, a: StepId, b: StepId)
    requires StepsOk(steps) && a in steps && b in steps
    requires steps[a].command.request == steps[b].command.request
    requires !Done(steps[a].state) && steps[a].attempts > 0
    requires !Done(steps[b].state) && steps[b].attempts > 0
    ensures a == b
  {
    assert Before(steps, a, b) || Before(steps, b, a) || a == b;
  }

  lemma FrontierUnique(steps: Steps, r: RequestId, a: StepId, b: StepId)
    requires SequencesUnique(steps) && IsFrontier(steps, r, a) && IsFrontier(steps, r, b)
    ensures a == b
  {
    assert Before(steps, a, b) || Before(steps, b, a) || a == b;
  }

  lemma {:induction false} FrontierExists(steps: Steps, r: RequestId, s: StepId) returns (frontier: StepId)
    requires InRequest(steps, r, s) && !Done(steps[s].state)
    ensures IsFrontier(steps, r, frontier)
    decreases steps[s].command.sequence
  {
    if p :| Before(steps, p, s) && !Done(steps[p].state) {
      frontier := FrontierExists(steps, r, p);
    } else {
      frontier := s;
    }
  }

  /** The claim query returns the frontier step when it waits and is due, and nothing
      else; the separate query for a blocking step never changes its answer. */
  lemma ClaimSeesFrontier(steps: Steps, r: RequestId, s: StepId, t: Time)
    requires StepsOk(steps)
    ensures Claimable(steps, r, s, t) <==>
              IsFrontier(steps, r, s) && Waiting(steps[s].state) && Due(steps[s].nextRetryAt, t)
    ensures Claimable(steps, r, s, t) ==> !Blocked(steps, r)
  {
    if Claimable(steps, r, s, t) {
      forall o | InRequest(steps, r, o)
        ensures Done(steps[o].state) || Waiting(steps[o].state)
      {
        assert Before(steps, o, s) || Before(steps, s, o) || o == s;
      }
    }
  }

  /** A manual retry can only pick the frontier step. */
  lemma RetrySeesFrontier(steps: Steps, r: RequestId, s: StepId)
    requires StepsOk(steps)
    ensures RetryPick(steps, r, s) <==> IsFrontier(steps, r, s) && Retryable(steps[s])
  {
    if InRequest(steps, r, s) && Retryable(steps[s]) {
      assert RowOk(steps[s]);
      TouchedIsAtFrontier(steps, s);
      forall p | InRequest(steps, r, p) && Retryable(steps[p])
        ensures p == s
      {
        assert RowOk(steps[p]);
        assert Before(steps, p, s) || Before(steps, s, p) || p == s;
      }
    }
  }

  function StateSummary(state: StepState): RequestState
  {
    match state
    case DeadLetter => ReqDeadLetter
    case RetryWait => ReqRetryWait
    case Running => ReqRunning
    case _ => ReqPending
  }

  /** The summary by set of states is the state of the frontier step, or completed when
      there is none. */
  lemma SummarySeesFrontier(steps: Steps, r: RequestId)
    requires StepsOk(steps)
    ensures Summary(StatesOf(steps, r)).ReqCompleted? <==> forall s :: !IsFrontier(steps, r, s)
    ensures forall s :: IsFrontier(steps, r, s) ==> Summary(StatesOf(steps, r)) == StateSummary(steps[s].state)
  {
    var states := StatesOf(steps, r);
    forall s | IsFrontier(steps, r, s)
      ensures Summary(states) == StateSummary(steps[s].state) && !Summary(states).ReqCompleted?
    {
      SummaryAtFrontier(steps, r, s);
    }
    if !(states <= {Succeeded, Verified, Compensated}) {
      var s :| InRequest(steps, r, s) && !Done(steps[s].state);
      var frontier := FrontierExists(steps, r, s);
    }
  }

  lemma SummaryAtFrontier(steps: Steps, r: RequestId, s: StepId)
    requires StepsOk(steps) && IsFrontier(steps, r, s)
    ensures Summary(StatesOf(steps, r)) == StateSummary(steps[s].state)
    ensures !Summary(StatesOf(steps, r)).ReqCompleted?
  {
    var states := StatesOf(steps, r);
    assert steps[s].state in states;
    assert RowOk(steps[s]);
    forall state | state in states
      ensures Done(state) || state == steps[s].state || state.Pending?
    {
      var o :| o in steps && InRequest(steps, r, o) && steps[o].state == state;
      assert Before(steps, o, s) || Before(steps, s, o) || o == s;
    }
  }

  /** Cancelling leaves nothing of the request to claim or to retry. */
  lemma NothingWaitsAfterCancel(db: Db, r: RequestId, t: Time, s: StepId, later: Time)
    ensures !Claimable(CancelPending(db, r, t).steps, r, s, later)
    ensures InRequest(db.steps, r, s) && !Waiting(db.steps[s].state) ==>
              CancelPending(db, r, t).steps[s] == db.steps[s]
  {
  }

  // ---------------------------------------------------------------- the dead-letter log

  /** A dead-lettered step has an open entry exactly when no earlier entry of it was resolved
      before: the insert ignores a step it already knows. */
  lemma DeadLetterOpens(db: Db, s: StepId, error: string, retry: RetryClass, retryAt: Option<Time>, t: Time)
    requires s in db.steps
    ensures var db' := Fail(db, s, error, retry, retryAt, t);
      db'.steps[s].state.DeadLetter? ==>
        && s in db'.deadLetters
        && (db'.deadLetters[s].resolvedAt.None? <==> (s in db.deadLetters ==> db.deadLetters[s].resolvedAt.None?))
  {
  }
}
