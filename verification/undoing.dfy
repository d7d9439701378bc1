/** What compensation does, over whole runs: it removes excess access on Odoo and suspends every
    other account, and never asks for anything else. */
module Undoing {
  import opened Contracts
  import opened Tables
  import opened Frontier
  import opened Protocol
  import opened Isolation
  import opened History
  import opened Rely

  /** Every row of the compensation log is of a step of its request, under the action of the
      step's system, with three tries at first. */
  ghost predicate RowsUndo(steps: Steps, compensations: map<CompensationKey, CompensationRow>)
  {
    forall key :: key in compensations ==>
      && key.step in steps && steps[key.step].command.request == key.request
      && key.action == (if steps[key.step].command.system.Odoo? then Update else Suspend)
      && compensations[key].maxAttempts == 3 && compensations[key].attempts >= 1
  }

  /** What adapters are asked to do: the claim loop sends the step's own operation, a
      verification asks to verify, a compensation to update on Odoo and to suspend elsewhere. */
  ghost predicate CallsAsk(log: seq<Event>)
  {
    forall i :: 0 <= i < |log| && log[i].Started? ==>
      match log[i].kind
      case Execution => log[i].operation == log[i].command.operation
      case Check => log[i].operation.Verify?
      case Compensation => log[i].operation == if log[i].command.system.Odoo? then Update else Suspend
  }

  lemma RowsStay(steps: Steps, steps': Steps, compensations: map<CompensationKey, CompensationRow>)
    requires RowsUndo(steps, compensations) && StepsStay(steps, steps')
    ensures RowsUndo(steps', compensations)
  {
  }

  lemma RecordUndoes(db: Db, key: CompensationKey, state: CompensationState, delay: Option<nat>, t: Time)
    requires RowsUndo(db.steps, db.compensations) && InRequest(db.steps, key.request, key.step)
    requires key.action == CompensatingAction(db.steps[key.step].command.system)
    ensures var db' := RecordCompensation(db, key, state, delay, t); RowsUndo(db'.steps, db'.compensations)
  {
  }

  lemma CompensationUndoes(db: Db, adapters: set<TargetSystem>, task: Task, move: Move, now: Time,
                           pc: Pc, db': Db, events: seq<Event>)
    requires Acts(db, adapters, task, move, now, pc, db', events) && PcOk(db.steps, task.request, task.pc)
    requires move.CompensateStep? || move.CompensationReturn?
    requires RowsUndo(db.steps, db.compensations)
    ensures RowsUndo(db'.steps, db'.compensations)
  {
    hide Superseded, RecordCompensation, RowsUndo;
    var s := if move.CompensateStep? then move.target else task.pc.step;
    assert InRequest(db.steps, task.request, s);
    RecordUndoes(db, CompensationOf(db, task, s), CompSuperseded, None, now);
    RecordUndoes(db, CompensationOf(db, task, s), CompSucceeded, None, now);
    RecordUndoes(db, CompensationOf(db, task, s), CompFailed, Some(move.delay), now);
  }

  lemma MoveUndoes(db: Db, adapters: set<TargetSystem>, task: Task, move: Move, now: Time,
                   pc: Pc, db': Db, events: seq<Event>)
    requires Acts(db, adapters, task, move, now, pc, db', events) && PcOk(db.steps, task.request, task.pc)
    requires RowsUndo(db.steps, db.compensations) && StepsStay(db.steps, db'.steps)
    ensures RowsUndo(db'.steps, db'.compensations)
  {
    hide RowsUndo, Acts, PcOk, StepsStay;
    if move.CompensateStep? || move.CompensationReturn? {
      CompensationUndoes(db, adapters, task, move, now, pc, db', events);
    } else {
      if task.pc.Entered? {
        EntryCompensatesNothing(db, adapters, task, move, now, pc, db', events);
      } else if move.ClaimNext? || move.Dispatch? || move.Return? {
        WorkCompensates(db, adapters, task, move, now, pc, db', events);
      } else {
        ChecksCompensateNothing(db, adapters, task, move, now, pc, db', events);
      }
      RowsStay(db.steps, db'.steps, db.compensations);
    }
  }

  lemma MoveAsks(db: Db, adapters: set<TargetSystem>, task: Task, move: Move, now: Time,
                 pc: Pc, db': Db, events: seq<Event>)
    requires Acts(db, adapters, task, move, now, pc, db', events)
    ensures CallsAsk(events)
  {
    hide ActivationReady, Superseded, Candidate, CompensationTargets, VerificationTargets, Claimable, RetryPick, Blocked,
         StoredUnder, Insertable, AccessSystems, Claim, Release, Reschedule, Fail, Complete, Refresh, CancelPending, MarkCancelled,
         RecordCompensation, RecordVerification, Begin;
  }

  lemma AsksMore(log: seq<Event>, events: seq<Event>)
    requires CallsAsk(log) && CallsAsk(events)
    ensures CallsAsk(log + events)
  {
    forall i | |log| <= i < |log + events|
      ensures (log + events)[i] == events[i - |log|]
    {
    }
  }

  ghost predicate UndoingOk(s: State)
  {
    RowsUndo(s.db.steps, s.db.compensations) && CallsAsk(s.log)
  }

  lemma StepUndoes(s: State, a: Action, s': State)
    requires SystemOk(s) && UndoingOk(s) && Step(s, a, s')
    ensures UndoingOk(s')
  {
    hide SystemOk, TablesOk, Acts, MaySpawn, RowsUndo, CallsAsk, RecoverStale, Refresh, StepsStay, Evolves, StaleSteps;
    StepKeepsSystem(s, a, s');
    match a {
      case Act(t, move, now, pc, db, events) =>
        TaskFacts(s, t);
        EvolvingSteps(s.db, db);
        MoveUndoes(s.db, s.adapters, s.tasks[t], move, now, pc, db, events);
        MoveAsks(s.db, s.adapters, s.tasks[t], move, now, pc, db, events);
        AsksMore(s.log, events);
      case Restart(timeout, now) =>
        EvolvingSteps(s.db, s'.db);
        RecoveryLeaves(s.db, timeout, now);
        RowsStay(s.db.steps, s'.db.steps, s.db.compensations);
        AsksNothing(Restarted(StaleSteps(s.db.steps, timeout, now)));
        AsksMore(s.log, [Restarted(StaleSteps(s.db.steps, timeout, now))]);
      case Read(r, now) =>
        RefreshSteps(s.db, r, now);
        RequestOperationsCompensateNothing(s.db, r, "", Odoo, "", "", now);
      case _ =>
    }
  }

  lemma EvolvingSteps(db: Db, db': Db)
    requires Evolves(db, db')
    ensures StepsStay(db.steps, db'.steps)
  {
  }

  lemma RecoveryLeaves(db: Db, timeout: nat, t: Time)
    ensures RecoverStale(db, timeout, t).compensations == db.compensations
  {
  }

  lemma AsksNothing(event: Event)
    requires !event.Started?
    ensures CallsAsk([event])
  {
  }

  lemma {:induction false} RunsUndo(run: Run, n: nat)
    requires IsRun(run) && n < |run.states|
    ensures UndoingOk(run.states[n])
  {
    hide SystemOk, HistoryOk, UndoingOk, Step, Init;
    if n == 0 {
      StartUndoes(run.states[0]);
    } else {
      RunsUndo(run, n - 1);
      RunsKeepAll(run, n - 1);
      StepUndoes(run.states[n - 1], run.actions[n - 1], run.states[n]);
    }
  }

  lemma StartUndoes(s: State)
    requires Init(s)
    ensures UndoingOk(s)
  {
  }

  /** In every run, each compensation on record is an update on Odoo and a suspension on every
      other system, of a step of its request, with three tries. */
  lemma RecordsUndo(run: Run, n: nat, key: CompensationKey)
    requires IsRun(run) && n < |run.states| && key in run.states[n].db.compensations
    ensures var db := run.states[n].db;
      && InRequest(db.steps, key.request, key.step)
      && key.action == (if db.steps[key.step].command.system.Odoo? then Update else Suspend)
      && db.compensations[key].maxAttempts == 3
  {
    hide IsRun;
    RunsUndo(run, n);
  }

  /** In every run, no compensation call and no verification asks for access to be granted; only
      the claim loop does, for the step's own operation. */
  lemma OnlyStepsGrantAccess(run: Run, n: nat, i: nat)
    requires IsRun(run) && n < |run.states| && i < |run.states[n].log| && run.states[n].log[i].Started?
    ensures var call := run.states[n].log[i];
      && (call.kind.Compensation? ==> call.operation == if call.command.system.Odoo? then Update else Suspend)
      && (call.operation.Activate? || call.operation.Reactivate? ==>
            call.kind.Execution? && call.operation == call.command.operation)
  {
    hide IsRun;
    RunsUndo(run, n);
  }
}
