/** What a task may rely on while it waits for an adapter under its employee's lock: the
    rest of the system leaves that employee's rows, evidence and compensations alone. */
module Rely {
  import opened Contracts
  import opened Tables
  import opened Frontier
  import opened Protocol
  import opened Isolation

  ghost predicate SameRows(steps: Steps, steps': Steps, e: EmployeeId)
  {
    && (forall s :: OfEmployee(steps, e, s) ==> s in steps' && steps'[s] == steps[s])
    && (forall s :: OfEmployee(steps', e, s) ==> OfEmployee(steps, e, s))
  }

  ghost predicate SameRecords(verifications: Verifications, verifications': Verifications, e: EmployeeId)
  {
    forall sys ::
      && ((e, sys) in verifications <==> (e, sys) in verifications')
      && ((e, sys) in verifications ==> verifications'[(e, sys)] == verifications[(e, sys)])
  }

  predicate OwnedBy(executions: Executions, e: EmployeeId, r: RequestId)
  {
    r in executions && executions[r].submission.employee == e
  }

  ghost predicate SameCompensations(db: Db, db': Db, e: EmployeeId)
  {
    forall key: CompensationKey :: OwnedBy(db.executions, e, key.request) ==>
      && (key in db.compensations <==> key in db'.compensations)
      && (key in db.compensations ==> db'.compensations[key] == db.compensations[key])
  }

  /** The tables went on, and nothing of the employee's changed. */
  ghost predicate Undisturbed(db: Db, db': Db, e: EmployeeId)
  {
    && TablesOk(db') && Evolves(db, db')
    && SameRows(db.steps, db'.steps, e)
    && SameRecords(db.verifications, db'.verifications, e)
    && SameCompensations(db, db', e)
  }

  lemma UndisturbedTransitive(a: Db, b: Db, c: Db, e: EmployeeId)
    requires Undisturbed(a, b, e) && Undisturbed(b, c, e)
    ensures Undisturbed(a, c, e)
  {
    hide TablesOk;
    EvolvesTransitive(a, b, c);
    forall key: CompensationKey | OwnedBy(a.executions, e, key.request)
      ensures OwnedBy(b.executions, e, key.request)
    {
    }
  }

  // ---------------------------------------------------------------- what the others do

  ghost predicate CompensationsOnlyOf(db: Db, db': Db, r: RequestId)
  {
    forall key: CompensationKey :: key.request != r ==>
      && (key in db.compensations <==> key in db'.compensations)
      && (key in db.compensations ==> db'.compensations[key] == db.compensations[key])
  }

  lemma StepOperationsCompensateNothing(db: Db, s: StepId, error: string, retry: RetryClass, retryAt: Option<Time>,
                                        state: StepState, evidence: string, t: Time)
    requires s in db.steps
    ensures Claim(db, s, t).compensations == db.compensations
    ensures Complete(db, s, state, evidence, t).compensations == db.compensations
    ensures Fail(db, s, error, retry, retryAt, t).compensations == db.compensations
    ensures Reschedule(db, s, t).compensations == db.compensations
    ensures Release(db, s, t).compensations == db.compensations
  {
  }

  lemma RequestOperationsCompensateNothing(db: Db, r: RequestId, e: EmployeeId, sys: TargetSystem, s: StepId, evidence: string, t: Time)
    ensures Refresh(db, r, t).compensations == db.compensations
    ensures CancelPending(db, r, t).compensations == db.compensations
    ensures MarkCancelled(db, r, t).compensations == db.compensations
    ensures RecordVerification(db, e, sys, s, evidence, t).compensations == db.compensations
  {
  }

  lemma BeginCompensatesNothing(db: Db, submission: Submission, t: Time)
    ensures Begin(db, submission, t).compensations == db.compensations
  {
  }

  lemma RecordingCompensates(db: Db, key: CompensationKey, state: CompensationState, delay: Option<nat>, t: Time)
    ensures CompensationsOnlyOf(db, RecordCompensation(db, key, state, delay, t), key.request)
  {
  }

  lemma EntryCompensatesNothing(db: Db, adapters: set<TargetSystem>, task: Task, move: Move, now: Time,
                                pc: Pc, db': Db, events: seq<Event>)
    requires Acts(db, adapters, task, move, now, pc, db', events) && task.pc.Entered?
    ensures db'.compensations == db.compensations
  {
    hide ActivationReady, Insertable, Candidate, CompensationTargets, VerificationTargets, StoredUnder, Begin, Refresh, Reschedule,
         MarkCancelled, CancelPending, RetryPick;
    RequestOperationsCompensateNothing(db, task.request, "", Odoo, "", "", now);
    RequestOperationsCompensateNothing(CancelPending(db, task.request, now), task.request, "", Odoo, "", "", now);
    if task.job.Submit? {
      BeginCompensatesNothing(db, task.job.submission, now);
      RequestOperationsCompensateNothing(db, task.job.submission.request, "", Odoo, "", "", now);
    }
    if move.RetryRequest? && move.pick.Some? {
      assert move.pick.value in db.steps by {
        RetryPickFacts(db.steps, task.request, move.pick.value);
      }
      StepOperationsCompensateNothing(db, move.pick.value, "", Permanent, None, Pending, "", now);
    }
  }

  lemma WorkCompensates(db: Db, adapters: set<TargetSystem>, task: Task, move: Move, now: Time,
                        pc: Pc, db': Db, events: seq<Event>)
    requires Acts(db, adapters, task, move, now, pc, db', events)
    requires move.ClaimNext? || move.Dispatch? || move.Return?
    ensures db'.compensations == db.compensations
  {
    hide ActivationReady, Blocked, Claimable, CompensationTargets, Claim, Fail, Release, Complete;
    match move {
      case ClaimNext(pick) =>
        if pick.Some? {
          ClaimableFacts(db.steps, task.request, pick.value, now);
          StepOperationsCompensateNothing(db, pick.value, "", Permanent, None, Pending, "", now);
        }
      case Dispatch =>
        StepOperationsCompensateNothing(db, task.pc.step, "adapter_not_registered", Permanent, None, Pending, "", now);
      case Return(outcome) =>
        match outcome {
          case Success(evidence) =>
            StepOperationsCompensateNothing(db, task.pc.step, "", Permanent, None,
              SuccessState(db.steps[task.pc.step].command.operation), evidence, now);
          case AdapterError(code, retry, retryAt) =>
            StepOperationsCompensateNothing(db, task.pc.step, code, retry, retryAt, Pending, "", now);
        }
      case _ =>
    }
  }

  /** Compensations are recorded for the task's own request. */
  lemma MoveCompensates(db: Db, adapters: set<TargetSystem>, task: Task, move: Move, now: Time,
                        pc: Pc, db': Db, events: seq<Event>)
    requires Acts(db, adapters, task, move, now, pc, db', events)
    ensures CompensationsOnlyOf(db, db', task.request)
    ensures task.pc.Entered? ==> db'.compensations == db.compensations
  {
    if task.pc.Entered? {
      EntryCompensatesNothing(db, adapters, task, move, now, pc, db', events);
    } else if move.ClaimNext? || move.Dispatch? || move.Return? {
      WorkCompensates(db, adapters, task, move, now, pc, db', events);
    } else if move.CompensateStep? || move.CompensationReturn? {
      CompensationCompensates(db, adapters, task, move, now, pc, db', events);
    } else {
      ChecksCompensateNothing(db, adapters, task, move, now, pc, db', events);
    }
  }

  lemma CompensationCompensates(db: Db, adapters: set<TargetSystem>, task: Task, move: Move, now: Time,
                                pc: Pc, db': Db, events: seq<Event>)
    requires Acts(db, adapters, task, move, now, pc, db', events)
    requires move.CompensateStep? || move.CompensationReturn?
    ensures CompensationsOnlyOf(db, db', task.request)
  {
    hide Superseded, RecordCompensation, CompensationsOnlyOf;
    var s := if move.CompensateStep? then move.target else task.pc.step;
    var delay := Some(move.delay);
    RecordingCompensates(db, CompensationOf(db, task, s), CompSuperseded, None, now);
    RecordingCompensates(db, CompensationOf(db, task, s), CompSucceeded, None, now);
    RecordingCompensates(db, CompensationOf(db, task, s), CompFailed, delay, now);
    SameCompensate(db, task.request);
  }

  lemma SameCompensate(db: Db, r: RequestId)
    ensures CompensationsOnlyOf(db, db, r)
  {
  }

  lemma ChecksCompensateNothing(db: Db, adapters: set<TargetSystem>, task: Task, move: Move, now: Time,
                                pc: Pc, db': Db, events: seq<Event>)
    requires Acts(db, adapters, task, move, now, pc, db', events) && !task.pc.Entered?
    requires move.CheckStep? || move.CheckReturn? || move.Finish? || move.BeginRequest? || move.RetryRequest?
             || move.CancelRequest? || move.BeginChecks? || move.BeginRun? || move.BeginSettling?
    ensures db'.compensations == db.compensations
  {
    hide Candidate, BeginsRequest, RetriesRequest, CancelsRequest, BeginsChecks;
  }

  lemma OthersStayOut(db: Db, db': Db, task: Task, pc: Pc, e: EmployeeId)
    requires Kept(db, db', task, pc) && CompensationsOnlyOf(db, db', task.request)
    requires Known(db, task) || db'.compensations == db.compensations
    requires task.employee != e
    ensures Undisturbed(db, db', e)
  {
    hide TablesOk;
  }

  lemma RecoveringOrReading(db: Db, r: RequestId, now: Time, e: EmployeeId)
    requires TablesOk(db) && now > db.clock
    ensures Undisturbed(db, Refresh(db, r, now), e)
  {
    hide TablesOk, Evolves, Refresh;
    RefreshKeeps(db, r, now);
    RefreshSteps(db, r, now);
    RequestOperationsCompensateNothing(db, r, e, Odoo, "", "", now);
  }

  predicate ActsFor(s: State, a: Action, e: EmployeeId)
  {
    a.Act? && a.task in s.tasks && s.tasks[a.task].employee == e
  }

  /** Any step but a restart or a move for the employee leaves the employee alone. */
  lemma StepLeavesAlone(s: State, a: Action, s': State, e: EmployeeId)
    requires SystemOk(s) && Step(s, a, s')
    requires !a.Restart? && !ActsFor(s, a, e)
    ensures Undisturbed(s.db, s'.db, e)
  {
    hide TablesOk, LocksOk, Acts, Kept, Undisturbed, MaySpawn, Refresh;
    NothingIfTables(s.db, e);
    match a {
      case Act(t, move, now, pc, db, events) =>
        MoveKeeps(s.db, s.adapters, s.tasks[t], move, now, pc, db, events);
        MoveCompensates(s.db, s.adapters, s.tasks[t], move, now, pc, db, events);
        assert TaskOk(s.db, s.tasks[t]);
        TaskKnown(s.db, s.tasks[t]);
        MovesFrom(s.db, s.adapters, s.tasks[t], move, now, pc, db, events);
        OthersStayOut(s.db, db, s.tasks[t], pc, e);
      case Read(r, now) => RecoveringOrReading(s.db, r, now, e);
      case _ =>
    }
  }

  lemma MovesFrom(db: Db, adapters: set<TargetSystem>, task: Task, move: Move, now: Time,
                  pc: Pc, db': Db, events: seq<Event>)
    requires Acts(db, adapters, task, move, now, pc, db', events)
    ensures Working(task.pc) || task.pc.Entered?
  {
  }

  lemma NothingIfTables(db: Db, e: EmployeeId)
    ensures TablesOk(db) ==> Undisturbed(db, db, e)
  {
  }

  lemma TaskKnown(db: Db, task: Task)
    requires TaskOk(db, task)
    ensures Known(db, task) || task.pc.Entered? || !Working(task.pc)
  {
  }

  // ---------------------------------------------------------------- over a stretch of a run

  /** While a task holds its employee's lock nobody else moves for the employee. */
  lemma HolderMovesAlone(s: State, t: TaskId, a: Action, s': State)
    requires SystemOk(s) && Step(s, a, s') && t in s.tasks && HoldsEmployee(s.tasks[t])
    requires ActsFor(s, a, s.tasks[t].employee)
    ensures a.task == t
  {
    MovesFrom(s.db, s.adapters, s.tasks[a.task], a.move, a.now, a.pc, a.db, a.events);
    hide TablesOk, Acts;
    OneHolder(s, t, a.task);
  }

  /** In step `i` of the run the task keeps its employee's lock, and waits. */
  predicate Awaits(run: Run, i: nat, t: TaskId, e: EmployeeId)
    requires i < |run.states| && i < |run.actions|
  {
    && t in run.states[i].tasks && HoldsEmployee(run.states[i].tasks[t]) && run.states[i].tasks[t].employee == e
    && !run.actions[i].Restart? && (run.actions[i].Act? ==> run.actions[i].task != t)
  }

  /** Whatever the other tasks do while a task waits under its employee's lock, the
      employee's rows, evidence and compensations stand still. */
  lemma {:induction false} AwaitIsUndisturbed(run: Run, m: nat, n: nat, t: TaskId, e: EmployeeId)
    requires IsRun(run) && m <= n < |run.states|
    requires forall i :: m <= i < n ==> Awaits(run, i, t, e)
    requires SystemOk(run.states[m])
    ensures SystemOk(run.states[n]) && Undisturbed(run.states[m].db, run.states[n].db, e)
  {
    if m == n {
      NothingIfTables(run.states[m].db, e);
    } else {
      AwaitIsUndisturbed(run, m, n - 1, t, e);
      hide SystemOk, Undisturbed, Init;
      var s, a, s' := run.states[n - 1], run.actions[n - 1], run.states[n];
      assert Step(s, a, s') && Awaits(run, n - 1, t, e);
      hide Step;
      if ActsFor(s, a, e) {
        HolderMovesAlone(s, t, a, s');
      }
      hide ActsFor;
      StepLeavesAlone(s, a, s', e);
      StepKeepsSystem(s, a, s');
      UndisturbedTransitive(run.states[m].db, s.db, s'.db, e);
    }
  }
}
