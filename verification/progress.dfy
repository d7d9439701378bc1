/** No reachable state is deadlocked: whoever waits for a lock, at most two locks further a
    task can move. */
module Progress {
  import opened Contracts
  import opened Tables
  import opened Frontier
  import opened Protocol
  import opened Isolation
  import opened History

  predicate ActionOf(a: Action, t: TaskId)
  {
    (a.TakeEmployee? || a.TakeRequest? || a.Act? || a.Leave?) && a.task == t
  }

  /** The task can make a step of its own. */
  ghost predicate CanMove(s: State, t: TaskId)
  {
    exists a, s' :: ActionOf(a, t) && Step(s, a, s')
  }

  ghost predicate HasMove(db: Db, adapters: set<TargetSystem>, task: Task, now: Time)
  {
    exists move, pc, db', events :: Acts(db, adapters, task, move, now, pc, db', events)
  }

  lemma MoveFound(db: Db, adapters: set<TargetSystem>, task: Task, move: Move, now: Time, pc: Pc, db': Db, events: seq<Event>)
    requires Acts(db, adapters, task, move, now, pc, db', events)
    ensures HasMove(db, adapters, task, now)
  {
  }

  lemma SubmitMoves(db: Db, task: Task, now: Time) returns (pc: Pc, db': Db, events: seq<Event>)
    requires task.job.Submit? && KeysUnique(db.executions)
    ensures BeginsRequest(db, task, now, pc, db', events)
  {
    var submission := task.job.submission;
    if r :| StoredUnder(db, submission.key, r) {
      pc, events := Leaving, [];
      db' := if db.executions[r].submission == submission && db.executions[r].result.None?
             then Refresh(db, submission.request, now) else db;
    } else if (AccessSystems(submission) != {} && !ActivationReady(db.steps, db.verifications, task.employee, AccessSystems(submission)))
              || !Insertable(db, submission) {
      pc, db', events := Leaving, db, [];
    } else {
      pc, db', events := Claiming, Begin(db, submission, now), [Created(submission)];
    }
  }

  lemma EnteredHasMove(db: Db, adapters: set<TargetSystem>, task: Task, now: Time)
    requires task.pc.Entered? && KeysUnique(db.executions)
    ensures HasMove(db, adapters, task, now)
  {
    hide HasMove, BeginsRequest, ActivationReady, RetryPick, CompensationTargets, VerificationTargets, Candidate;
    var r := task.request;
    match task.job {
      case Submit(submission) =>
        var pc, db', events := SubmitMoves(db, task, now);
        MoveFound(db, adapters, task, BeginRequest, now, pc, db', events);
      case Retry =>
        if s :| RetryPick(db.steps, r, s) {
          RetryPickFacts(db.steps, r, s);
          MoveFound(db, adapters, task, RetryRequest(Some(s)), now, Claiming, Reschedule(db, s, now),
                    [Rescheduled(db.steps[s].command)]);
        } else {
          MoveFound(db, adapters, task, RetryRequest(None), now, Leaving, Refresh(db, r, now), []);
        }
      case Cancel =>
        var db' := MarkCancelled(CancelPending(db, r, now), r, now);
        MoveFound(db, adapters, task, CancelRequest, now, Compensating(CompensationTargets(db'.steps, r)), db',
                  [CancelledRequest(r)]);
      case VerifyNow =>
        var pc := ChecksBegin(db, task);
        MoveFound(db, adapters, task, BeginChecks, now, pc, db, []);
      case Settle =>
        MoveFound(db, adapters, task, BeginSettling, now, Compensating(CompensationTargets(db.steps, r)), db, []);
      case _ =>
        MoveFound(db, adapters, task, BeginRun, now, Claiming, db, []);
    }
  }

  lemma ChecksBegin(db: Db, task: Task) returns (pc: Pc)
    ensures BeginsChecks(db, task, pc, db, [])
  {
    var targets := VerificationTargets(db.steps, task.request);
    if forall s :: s in targets ==> Candidate(db.steps, task.employee, db.steps[s].command.system, s) {
      pc := Verifying(targets);
    } else {
      pc := Leaving;
    }
  }

  lemma ClaimingHasMove(db: Db, adapters: set<TargetSystem>, task: Task, now: Time)
    requires task.pc.Claiming? && StepsOk(db.steps)
    ensures HasMove(db, adapters, task, now)
  {
    hide HasMove, Claimable, Blocked, StepsOk;
    var r := task.request;
    if s :| Claimable(db.steps, r, s, now) {
      ClaimSeesFrontier(db.steps, r, s, now);
      ClaimableFacts(db.steps, r, s, now);
      MoveFound(db, adapters, task, ClaimNext(Some(s)), now, Gated(s), Claim(db, s, now), [Claimed(db.steps[s].command)]);
    } else {
      MoveFound(db, adapters, task, ClaimNext(None), now, Leaving, db, []);
    }
  }

  lemma GatedHasMove(db: Db, adapters: set<TargetSystem>, task: Task, now: Time)
    requires task.pc.Gated? && task.pc.step in db.steps
    ensures HasMove(db, adapters, task, now)
  {
    hide HasMove, ActivationReady, CompensationTargets;
    var s := task.pc.step;
    var command := db.steps[s].command;
    if GrantsAccess(command.operation)
       && !ActivationReady(db.steps, db.verifications, command.employee, {command.system}) {
      MoveFound(db, adapters, task, Dispatch, now, Leaving, Release(db, s, now), [Released(command)]);
    } else if command.system !in adapters {
      var db' := Fail(db, s, "adapter_not_registered", Permanent, None, now);
      MoveFound(db, adapters, task, Dispatch, now, Compensating(CompensationTargets(db'.steps, task.request)), db', []);
    } else {
      MoveFound(db, adapters, task, Dispatch, now, Calling(s), db, [Started(Execution, command, command.operation)]);
    }
  }

  lemma CompensatingHasMove(db: Db, adapters: set<TargetSystem>, task: Task, now: Time)
    requires task.pc.Compensating? && AllFinishedIn(db.steps, task.request, task.pc.todo)
    ensures HasMove(db, adapters, task, now)
  {
    hide HasMove, Superseded;
    if task.pc.todo == {} {
      MoveFound(db, adapters, task, Finish, now, Leaving, db, []);
    } else {
      var s :| s in task.pc.todo;
      var rest := task.pc.todo - {s};
      assert FinishedIn(db.steps, task.request, s);
      var key := CompensationOf(db, task, s);
      if Superseded(db.steps, task.employee, task.request, s) {
        MoveFound(db, adapters, task, CompensateStep(s, 0), now, Compensating(rest),
                  RecordCompensation(db, key, CompSuperseded, None, now), []);
      } else if db.steps[s].command.system !in adapters {
        MoveFound(db, adapters, task, CompensateStep(s, 0), now, Compensating(rest),
                  RecordCompensation(db, key, CompFailed, Some(0), now), []);
      } else {
        MoveFound(db, adapters, task, CompensateStep(s, 0), now, CallingCompensation(s, rest), db,
                  [Started(Compensation, db.steps[s].command, CompensatingAction(db.steps[s].command.system))]);
      }
    }
  }

  lemma VerifyingHasMove(db: Db, adapters: set<TargetSystem>, task: Task, now: Time)
    requires task.pc.Verifying? && AllFinishedIn(db.steps, task.request, task.pc.todo)
    ensures HasMove(db, adapters, task, now)
  {
    hide HasMove;
    if task.pc.todo == {} {
      MoveFound(db, adapters, task, Finish, now, Leaving, db, []);
    } else {
      var s :| s in task.pc.todo;
      assert FinishedIn(db.steps, task.request, s);
      if db.steps[s].command.system !in adapters {
        MoveFound(db, adapters, task, CheckStep(s), now, Leaving, db, []);
      } else {
        MoveFound(db, adapters, task, CheckStep(s), now, CallingCheck(s, task.pc.todo - {s}), db,
                  [Started(Check, db.steps[s].command, Verify)]);
      }
    }
  }

  /** A task that waits for an adapter moves when the adapter returns. */
  lemma CallingHasMove(db: Db, adapters: set<TargetSystem>, task: Task, now: Time)
    requires FlightOf(task.pc).Some? && FlightOf(task.pc).value.1 in db.steps
    ensures HasMove(db, adapters, task, now)
  {
    hide HasMove, Complete;
    var s := FlightOf(task.pc).value.1;
    var command := db.steps[s].command;
    match task.pc {
      case Calling(_) =>
        MoveFound(db, adapters, task, Return(Success("")), now, Claiming,
                  Complete(db, s, SuccessState(command.operation), "", now), [Ended(Execution, command), Completed(command)]);
      case CallingCompensation(_, todo) =>
        MoveFound(db, adapters, task, CompensationReturn(true, 0), now, Compensating(todo),
                  RecordCompensation(db, CompensationOf(db, task, s), CompSucceeded, None, now), [Ended(Compensation, command)]);
      case CallingCheck(_, todo) =>
        MoveFound(db, adapters, task, CheckReturn(NotConfirmed), now, Verifying(todo), db, [Ended(Check, command)]);
    }
  }

  lemma WorkingHasMove(s: State, t: TaskId, now: Time)
    requires SystemOk(s) && t in s.tasks && HoldsEmployee(s.tasks[t])
    requires !s.tasks[t].pc.AwaitRequest? && !s.tasks[t].pc.Leaving?
    ensures HasMove(s.db, s.adapters, s.tasks[t], now)
  {
    TaskFacts(s, t);
    assert KeysUnique(s.db.executions) && StepsOk(s.db.steps);
    hide SystemOk, TablesOk, TaskOk, KeysUnique, StepsOk, HasMove, JobOk, AllFinishedIn;
    var task := s.tasks[t];
    match task.pc {
      case Entered => EnteredHasMove(s.db, s.adapters, task, now);
      case Claiming => ClaimingHasMove(s.db, s.adapters, task, now);
      case Gated(x) => GatedHasMove(s.db, s.adapters, task, now);
      case Compensating(todo) => CompensatingHasMove(s.db, s.adapters, task, now);
      case Verifying(todo) => VerifyingHasMove(s.db, s.adapters, task, now);
      case _ => CallingHasMove(s.db, s.adapters, task, now);
    }
  }

  lemma MovesWithinLocks(s: State, t: TaskId)
    requires SystemOk(s) && t in s.tasks && HoldsEmployee(s.tasks[t]) && !s.tasks[t].pc.AwaitRequest?
    ensures CanMove(s, t)
  {
    hide SystemOk, Acts;
    if s.tasks[t].pc.Leaving? {
      assert Step(s, Leave(t), Gone(s, t)) && ActionOf(Leave(t), t);
    } else {
      var now := s.db.clock + 1;
      WorkingHasMove(s, t, now);
      var move, pc, db', events :| Acts(s.db, s.adapters, s.tasks[t], move, now, pc, db', events);
      var a := Act(t, move, now, pc, db', events);
      assert Step(s, a, Moved(s, t, pc).(db := db', log := s.log + events)) && ActionOf(a, t);
    }
  }

  /** The task whose lock `t` waits for, or `t` itself. */
  function Blocking(s: State, t: TaskId): TaskId
    requires t in s.tasks
  {
    var task := s.tasks[t];
    if task.pc.AwaitEmployee? && task.employee in s.employeeLocks then s.employeeLocks[task.employee]
    else if task.pc.AwaitRequest? && task.request in s.requestLocks then s.requestLocks[task.request]
    else t
  }

  /** Following the locks a task waits for leads, in at most two steps, to a task that can
      move: employee locks are always taken before request locks. */
  lemma LocksLeadToAMove(s: State, t: TaskId)
    requires SystemOk(s) && t in s.tasks
    ensures Blocking(s, t) in s.tasks
    ensures Blocking(s, Blocking(s, t)) in s.tasks
    ensures CanMove(s, Blocking(s, Blocking(s, t)))
  {
    LocksOnly(s);
    var o := Blocking(s, t);
    var last := Blocking(s, o);
    hide SystemOk, LocksOk, TablesOk, TasksOk, CanMove;
    if HoldsEmployee(s.tasks[last]) && !s.tasks[last].pc.AwaitRequest? {
      MovesWithinLocks(s, last);
    } else {
      FreeLockMoves(s, last);
    }
  }

  lemma LocksOnly(s: State)
    requires SystemOk(s)
    ensures EmployeeLocksOk(s.tasks, s.employeeLocks) && RequestLocksOk(s.tasks, s.requestLocks) && WaitersOk(s.tasks)
  {
  }

  lemma FreeLockMoves(s: State, t: TaskId)
    requires t in s.tasks
    requires (s.tasks[t].pc.AwaitEmployee? && s.tasks[t].employee !in s.employeeLocks)
             || (s.tasks[t].pc.AwaitRequest? && s.tasks[t].request !in s.requestLocks)
    ensures CanMove(s, t)
  {
    if s.tasks[t].pc.AwaitEmployee? {
      var s' := Moved(s, t, if TakesRequest(s.tasks[t].job) then AwaitRequest else Entered)
                .(employeeLocks := s.employeeLocks[s.tasks[t].employee := t]);
      assert Step(s, TakeEmployee(t), s') && ActionOf(TakeEmployee(t), t);
    } else {
      var s' := Moved(s, t, Entered).(requestLocks := s.requestLocks[s.tasks[t].request := t]);
      assert Step(s, TakeRequest(t), s') && ActionOf(TakeRequest(t), t);
    }
  }

  /** No reachable state is deadlocked. */
  lemma NoDeadlock(run: Run, n: nat, t: TaskId)
    requires IsRun(run) && n < |run.states| && t in run.states[n].tasks
    ensures Blocking(run.states[n], t) in run.states[n].tasks
    ensures CanMove(run.states[n], Blocking(run.states[n], Blocking(run.states[n], t)))
  {
    hide IsRun, HistoryOk, SystemOk, CanMove;
    RunsKeepAll(run, n);
    LocksLeadToAMove(run.states[n], t);
  }
}
