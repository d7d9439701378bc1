/** The engine's coroutines, run by one task that holds its employee's and its request's
    lock. What adapters answer, and what the rest of the system does to the tables during
    each wait, is arbitrary within what `Rely` guarantees. Every method is proved to take
    protocol moves only, so whatever holds of all runs of the protocol holds of it. */
module Engine {
  import opened Contracts
  import opened Tables
  import opened Frontier
  import opened Protocol
  import opened Isolation
  import opened History
  import opened Rely
  import opened Paths
  import opened Views
  import opened Rounds
  import opened Repository
  import Payloads

  /** How an adapter call ends: a result, a retryable or permanent adapter error, or any
      other exception. */
  datatype Reply = Succeeds(evidence: string) | FailsForNow(code: string) | FailsForGood(code: string) | Crashes

  /** What adapters answer to a command, how the others disturb the tables, and how long things
      take; each of them may differ from one turn to the next. */
  datatype World = World(
    reply: (nat, Command) -> Reply,
    verdict: (nat, Command) -> Verdict,
    disturb: (nat, Db) -> Db,
    pause: nat -> nat)

  /** During a wait the others leave the employee's rows alone. */
  ghost predicate Fair(world: World, e: EmployeeId)
  {
    forall n, db :: TablesOk(db) ==> Undisturbed(db, world.disturb(n, db), e)
  }

  function Unfinished(steps: Steps, r: RequestId): set<StepId>
  {
    set s | s in steps && InRequest(steps, r, s) && !Done(steps[s].state)
  }

  /** The request is done, or its first unfinished step waits for a retry, is dead, or is
      left running by a crashed task. */
  ghost predicate Settled(steps: Steps, r: RequestId)
  {
    forall s :: IsFrontier(steps, r, s) ==>
      steps[s].state.RetryWait? || steps[s].state.DeadLetter? || steps[s].state.Running?
  }

  /** No step of the request runs that was not already running in `steps`. */
  ghost predicate NoneStray(steps: Steps, steps': Steps, r: RequestId)
  {
    forall s :: RunningIn(steps', r, s) ==> RunningIn(steps, r, s)
  }

  lemma NothingToClaim(steps: Steps, r: RequestId, t: Time)
    requires StepsOk(steps)
    requires Blocked(steps, r) || forall s :: !Claimable(steps, r, s, t)
    ensures Settled(steps, r)
  {
    forall s | IsFrontier(steps, r, s)
      ensures !steps[s].state.Pending? && !steps[s].state.Failed?
    {
      assert RowOk(steps[s]);
      ClaimSeesFrontier(steps, r, s, t);
    }
  }

  /** Once an attempted step waits or is dead, the request is settled and nothing runs. */
  lemma AttemptSettles(steps: Steps, r: RequestId, s: StepId)
    requires StepsOk(steps) && InRequest(steps, r, s)
    requires steps[s].state.RetryWait? || steps[s].state.DeadLetter?
    ensures Settled(steps, r) && forall o :: !RunningIn(steps, r, o)
  {
    TouchedIsAtFrontier(steps, s);
    forall o | IsFrontier(steps, r, o)
      ensures o == s
    {
      FrontierUnique(steps, r, o, s);
    }
    forall o | RunningIn(steps, r, o)
      ensures false
    {
      TouchedIsAtFrontier(steps, o);
      FrontierUnique(steps, r, o, s);
    }
  }

  /** While a claimed step runs, nothing else of the request does. */
  lemma ClaimRunsAlone(steps: Steps, r: RequestId, s: StepId)
    requires StepsOk(steps) && RunningIn(steps, r, s)
    ensures forall o :: RunningIn(steps, r, o) ==> o == s
  {
    forall o | RunningIn(steps, r, o)
      ensures o == s
    {
      TouchedIsAtFrontier(steps, o);
      TouchedIsAtFrontier(steps, s);
      FrontierUnique(steps, r, o, s);
    }
  }

  class ProvisioningEngine {
    const repository: StateRepository
    const adapters: set<TargetSystem>
    const retryBase: nat
    const world: World
    var turn: nat

    ghost var course: Course
    ghost var path: seq<Hop>
    ghost var pc: Pc

    constructor (repository: StateRepository, adapters: set<TargetSystem>, retryBase: nat, world: World)
      ensures this.repository == repository && this.adapters == adapters
      ensures this.retryBase == retryBase && this.world == world
    {
      this.repository, this.adapters, this.retryBase, this.world := repository, adapters, retryBase, world;
      turn := 0;
    }

    ghost predicate At(at: Pc)
      reads this`course, this`path, this`pc, repository
    {
      && pc == at && course.adapters == adapters
      && OnCourse(course, path, at, repository.View())
      && Fair(world, course.task.employee)
    }

    ghost predicate For(r: RequestId)
      reads this
    {
      course.task.request == r
    }

    method Instant() returns (t: Time)
      modifies this`turn
      ensures t > repository.clock && t == repository.clock + 1 + world.pause(old(turn)) && turn == old(turn) + 1
    {
      t := repository.clock + 1 + world.pause(turn);
      turn := turn + 1;
    }

    /** An await: the rest of the system goes on. */
    method Yield()
      requires At(pc)
      modifies this`turn, repository
      ensures At(pc) && Undisturbed(old(repository.View()), repository.View(), course.task.employee)
      ensures turn == old(turn) + 1
    {
      hide OnCourse, Undisturbed;
      ghost var before := repository.View();
      CourseFacts(course, path, pc, before);
      var db := world.disturb(turn, Db(repository.executions, repository.steps, repository.deadLetters,
                                       repository.compensations, repository.verifications, repository.clock));
      assert Undisturbed(before, db, course.task.employee);
      Wait(course, path, pc, before, db);
      repository.executions, repository.steps, repository.deadLetters := db.executions, db.steps, db.deadLetters;
      repository.compensations, repository.verifications, repository.clock := db.compensations, db.verifications, db.clock;
      turn := turn + 1;
      assert repository.View() == db;
    }

    /** The task took a move of the protocol. */
    ghost method Take(hop: Hop)
      requires OnCourse(course, path, hop.from, hop.before) && course.adapters == adapters
      requires Fair(world, course.task.employee) && hop.after == repository.View() && hop.now > hop.before.clock
      requires Acts(hop.before, adapters, TaskAt(course, hop.from), hop.move, hop.now, hop.to, hop.after, hop.events)
      modifies this`path, this`pc
      ensures At(hop.to) && path == old(path) + [hop] && Evolves(hop.before, hop.after)
      ensures Claims(path) == Claims(old(path)) + if hop.move.ClaimNext? && hop.move.pick.Some? then 1 else 0
    {
      hide OnCourse, Acts, Claims, Fair, Evolves;
      Advance(course, path, hop);
      path, pc := path + [hop], hop.to;
    }

    // -------------------------------------------------------------- running a request

    /** claim_next(), as one move. */
    method Claim(r: RequestId) returns (claimed: Option<Command>)
      requires At(Claiming) && For(r)
      modifies this, repository
      ensures course == old(course) && old(path) <= path
      ensures claimed.None? ==>
        && At(Leaving) && repository.View() == old(repository.View()) && Claims(path) == Claims(old(path))
        && Settled(repository.steps, r) && Known(repository.View(), course.task)
      ensures claimed.Some? ==>
        var s := claimed.value.stepId;
        && At(Gated(s)) && Claims(path) == Claims(old(path)) + 1
        && s in Unfinished(old(repository.steps), r)
        && s in repository.steps && claimed.value == repository.steps[s].command
        && Unfinished(repository.steps, r) == Unfinished(old(repository.steps), r)
        && RunningIn(repository.steps, r, s)
    {
      hide OnCourse, Acts, Claimable, Blocked, TablesOk, StepsOk, Tables.Claim, Settled, Keyed;
      ghost var before := repository.View();
      CourseFacts(course, path, pc, before);
      var t := Instant();
      claimed := repository.ClaimNext(r, t);
      ghost var after := repository.View();
      ghost var pick: Option<StepId> := if claimed.None? then None else Some(claimed.value.stepId);
      ClaimMoves(before, adapters, TaskAt(course, pc), pick, t, after);
      ghost var hop := Hop(before, pc, ClaimNext(pick), t, after, if pick.None? then Leaving else Gated(pick.value),
                           if pick.None? then [] else [Claimed(before.steps[pick.value].command)]);
      Take(hop);
    }

    /** The gates between a claim and the adapter call. */
    method Dispatch(r: RequestId, command: Command) returns (next: Next)
      requires At(Gated(command.stepId)) && For(r)
      requires command.stepId in repository.steps && command == repository.steps[command.stepId].command
      modifies this, repository
      ensures course == old(course) && old(path) <= path && Claims(path) == Claims(old(path))
      ensures next.Stop? <==> Ungranted(old(repository.View()), command)
      ensures next.Undo? <==> !Ungranted(old(repository.View()), command) && command.system !in adapters
      ensures next.Call? ==> At(Calling(command.stepId)) && repository.View() == old(repository.View())
      ensures !next.Call? ==> At(After(next, repository.steps, r)) && AtRest(repository.steps, r)
      ensures next.Stop? ==> Known(repository.View(), course.task)
      ensures !next.Call? ==> InRequest(repository.steps, r, command.stepId)
      ensures !next.Call? ==> (repository.steps[command.stepId].state.DeadLetter? <==> next.Undo?)
    {
      hide OnCourse, Acts, TablesOk, StepsOk, Release, Fail, ActivationReady, AtRest, Keyed, FinishTimesUnique, Stands;
      ghost var before := repository.View();
      CourseFacts(course, path, pc, before);
      var s := command.stepId;
      var blocked := Blocks(command);
      hide Ungranted, FinishTimesUnique;
      var t := Instant();
      if blocked {
        repository.ReleaseActivationClaim(s, t);
        next := Stop;
      } else if command.system !in adapters {
        var state := repository.FailStep(s, "adapter_not_registered", Permanent, None, t);
        next := Undo;
      } else {
        next := Call;
      }
      ghost var after := repository.View();
      DispatchMoves(before, adapters, TaskAt(course, pc), s, next, t, after);
      ghost var hop := Hop(before, pc, Protocol.Dispatch, t, after,
                           if next.Call? then Calling(s) else After(next, after.steps, r),
                           match next case Stop => [Released(command)] case Undo => [] case Call => [Started(Execution, command, command.operation)]);
      Take(hop);
      CourseFacts(course, path, pc, after);
      Rests(after.steps, r, s);
    }

    /** The activation gate for one command. */
    method Blocks(command: Command) returns (blocked: bool)
      requires Keyed(repository.executions, repository.steps) && FinishTimesUnique(repository.steps)
      ensures blocked <==> Ungranted(repository.View(), command)
    {
      hide Keyed, FinishTimesUnique, ActivationReady, Stands;
      if !(command.operation.Activate? || command.operation.Reactivate?) {
        return false;
      }
      var blockers := repository.ActivationBlockers(command.employee, {command.system});
      return blockers != {};
    }

    /** The adapter call, and when to try again if it failed for now: an exponential wait
        bounded by five minutes, counted from the attempts read back from the store. */
    method Execute(r: RequestId, command: Command) returns (outcome: Outcome)
      requires At(Calling(command.stepId)) && For(r)
      modifies this`turn, repository
      ensures At(Calling(command.stepId))
      ensures SameSteps(old(repository.steps), repository.steps, r)
      ensures Reported(world.reply(old(turn), command), outcome)
      ensures outcome.AdapterError? && outcome.retry.Transient? ==>
        command.stepId in repository.steps &&
        outcome.retryAt == Some(WaitUntil(repository.clock + 1 + world.pause(old(turn) + 2), retryBase,
                                          repository.steps[command.stepId].attempts))
    {
      hide At, SameSteps, WaitUntil;
      var reply := AwaitAdapter(r, command);
      match reply {
        case Succeeds(evidence) => outcome := Success(evidence);
        case FailsForGood(code) => outcome := AdapterError(code, Permanent, None);
        case Crashes => outcome := AdapterError("adapter_unclassified_failure", Permanent, None);
        case FailsForNow(code) =>
          var at := RetryTime(r, command);
          outcome := AdapterError(code, Transient, Some(at));
      }
    }

    method AwaitAdapter(r: RequestId, command: Command) returns (reply: Reply)
      requires At(Calling(command.stepId)) && For(r)
      modifies this`turn, repository
      ensures At(Calling(command.stepId)) && reply == world.reply(old(turn), command) && turn == old(turn) + 1
      ensures SameSteps(old(repository.steps), repository.steps, r)
    {
      hide OnCourse, Undisturbed, Refresh, TablesOk, Keyed, StepsOk, SequencesUnique;
      ghost var began := repository.View();
      CourseFacts(course, path, pc, began);
      reply := world.reply(turn, command);
      Yield();
      UndisturbedRequest(began, repository.View(), TaskAt(course, pc));
    }

    method RetryTime(r: RequestId, command: Command) returns (at: Time)
      requires At(Calling(command.stepId)) && For(r)
      modifies this`turn, repository
      ensures At(Calling(command.stepId)) && repository.steps == old(repository.steps)
      ensures command.stepId in repository.steps
      ensures at == WaitUntil(repository.clock + 1 + world.pause(old(turn) + 1), retryBase, repository.steps[command.stepId].attempts)
    {
      hide At, Listed, Summary, StatesOf, For, Power2;
      CallingStep(command.stepId);
      var current := Report(r);
      var attempts := if command.stepId in repository.steps then repository.steps[command.stepId].attempts else 1;
      at := Instant();
      var exponent := if attempts - 1 > 0 then attempts - 1 else 0;
      var wait := retryBase * Power2(exponent);
      at := at + (if wait < 300 then wait else 300) * 1_000_000;
    }

    lemma CallingStep(s: StepId)
      requires At(Calling(s))
      ensures pc == Calling(s) && s in repository.steps
    {
      hide TablesOk, Path;
    }

    /** The store's part of a result. */
    method StoreOutcome(command: Command, outcome: Outcome, t: Time) returns (next: Next)
      requires command.stepId in repository.steps && command == repository.steps[command.stepId].command
      modifies repository
      ensures match outcome
        case Success(evidence) =>
          next.Call? && repository.View() == Complete(old(repository.View()), command.stepId, SuccessState(command.operation), evidence, t)
        case AdapterError(code, retry, retryAt) =>
          && repository.View() == Fail(old(repository.View()), command.stepId, code, retry, retryAt, t)
          && next == if repository.steps[command.stepId].state.DeadLetter? then Undo else Stop
      ensures command.stepId in repository.steps
      ensures outcome.Success? ==>
        repository.steps[command.stepId].state ==
          if command.operation.Verify? || command.operation.Reconcile? then Verified else Succeeded
      ensures outcome.AdapterError? ==>
        repository.steps[command.stepId].state ==
          if outcome.retry.Permanent? || old(repository.steps)[command.stepId].attempts >= command.maxAttempts then DeadLetter
          else RetryWait
    {
      match outcome {
        case Success(evidence) =>
          var done := if command.operation.Verify? || command.operation.Reconcile? then Verified else Succeeded;
          var accepted := repository.CompleteStep(command.stepId, done, evidence, t);
          next := Call;
        case AdapterError(code, retry, retryAt) =>
          var state := repository.FailStep(command.stepId, code, retry, retryAt, t);
          next := if state.DeadLetter? then Undo else Stop;
      }
    }

    /** The result of an adapter call is stored. */
    method Return(r: RequestId, command: Command, outcome: Outcome) returns (next: Next)
      requires At(Calling(command.stepId)) && For(r)
      requires command.stepId in repository.steps && command == repository.steps[command.stepId].command
      modifies this, repository
      ensures course == old(course) && old(path) <= path && Claims(path) == Claims(old(path))
      ensures next.Call? <==> outcome.Success?
      ensures command.stepId in repository.steps
      ensures outcome.Success? ==>
        repository.steps[command.stepId].state ==
          if command.operation.Verify? || command.operation.Reconcile? then Verified else Succeeded
      ensures outcome.AdapterError? ==>
        repository.steps[command.stepId].state ==
          if outcome.retry.Permanent? || old(repository.steps)[command.stepId].attempts >= command.maxAttempts then DeadLetter
          else RetryWait
      ensures next.Undo? <==>
        outcome.AdapterError? && FailureState(old(repository.steps)[command.stepId], outcome.retry).DeadLetter?
      ensures next.Call? ==>
        && At(Claiming) && (forall o :: !RunningIn(repository.steps, r, o))
        && Unfinished(repository.steps, r) == Unfinished(old(repository.steps), r) - {command.stepId}
      ensures !next.Call? ==> At(After(next, repository.steps, r)) && AtRest(repository.steps, r)
      ensures next.Stop? ==> Known(repository.View(), course.task)
      ensures !next.Call? ==> InRequest(repository.steps, r, command.stepId)
      ensures !next.Call? ==> (repository.steps[command.stepId].state.DeadLetter? <==> next.Undo?)
    {
      hide OnCourse, Acts, TablesOk, StepsOk, Complete, Fail, AtRest, FailureState, Keyed, KeysUnique, SequencesUnique,
           FinishTimesUnique, Unfinished, Fair;
      ghost var before := repository.View();
      CourseFacts(course, path, pc, before);
      var s := command.stepId;
      var t := Instant();
      next := StoreOutcome(command, outcome, t);
      hide SuccessState;
      ghost var after := repository.View();
      ReturnMoves(before, adapters, TaskAt(course, pc), s, outcome, next, t, after);
      ghost var hop := Hop(before, pc, Protocol.Return(outcome), t, after,
                           if next.Call? then Claiming else After(next, after.steps, r),
                           if next.Call? then [Ended(Execution, command), Completed(command)] else [Ended(Execution, command)]);
      Take(hop);
      CourseFacts(course, path, pc, after);
      Rests(after.steps, r, s);
    }

    // -------------------------------------------------------------- compensation

    /** One compensating action, up to its record in the store. */
    method CompensateOne(r: RequestId, original: Command, ghost todo: set<StepId>, ghost start: Db, ghost done: set<StepId>)
      requires At(Compensating(todo)) && For(r) && original.stepId in todo && original.stepId !in done
      requires InRequest(start.steps, r, original.stepId) && start.steps[original.stepId].command == original
      requires original.employee == course.task.employee
      requires RoundOver(start, repository.View(), course.task.employee, r, done)
      modifies this, repository
      ensures course == old(course) && old(path) <= path && Claims(path) == Claims(old(path))
      ensures At(Compensating(todo - {original.stepId}))
      ensures RoundOver(start, repository.View(), course.task.employee, r, done + {original.stepId})
    {
      hide At, RoundOver, Superseded, Recorded;
      var superseded := IsStale(r, original, todo, start, done);
      if superseded || original.system !in adapters {
        SkipCompensation(r, original, superseded, todo, start, done);
      } else {
        StartCompensation(r, original, todo, start, done);
        CallCompensation(r, original, todo - {original.stepId}, start, done);
      }
    }

    method IsStale(r: RequestId, original: Command, ghost todo: set<StepId>, ghost start: Db, ghost done: set<StepId>)
        returns (superseded: bool)
      requires At(Compensating(todo)) && For(r)
      requires InRequest(start.steps, r, original.stepId) && start.steps[original.stepId].command == original
      requires original.employee == course.task.employee
      requires RoundOver(start, repository.View(), course.task.employee, r, done)
      ensures superseded <==> Superseded(start.steps, course.task.employee, r, original.stepId)
    {
      hide OnCourse, TablesOk, TaskOk, StepsOk, RoundOver, Superseded, Keyed, SequencesUnique, FinishTimesUnique, KeysUnique, Fair;
      CourseFacts(course, path, pc, repository.View());
      RoundFacts(start, repository.View(), course.task.employee, r, done, original.stepId);
      superseded := repository.CompensationSuperseded(r, original.stepId, original.system);
    }

    method StartCompensation(r: RequestId, original: Command, ghost todo: set<StepId>, ghost start: Db, ghost done: set<StepId>)
      requires At(Compensating(todo)) && For(r) && original.stepId in todo && original.system in adapters
      requires InRequest(start.steps, r, original.stepId) && start.steps[original.stepId].command == original
      requires original.employee == course.task.employee
      requires RoundOver(start, repository.View(), course.task.employee, r, done)
      requires !Superseded(start.steps, course.task.employee, r, original.stepId)
      modifies this`turn, this`path, this`pc
      ensures old(path) <= path && Claims(path) == Claims(old(path))
      ensures At(CallingCompensation(original.stepId, todo - {original.stepId}))
    {
      hide OnCourse, Acts, RoundOver, Superseded, Fair, Evolves;
      ghost var before, s := repository.View(), original.stepId;
      RoundFacts(start, before, course.task.employee, r, done, s);
      var t := Instant();
      ghost var hop := Hop(before, pc, CompensateStep(s, retryBase), t, before, CallingCompensation(s, todo - {s}),
                           [Started(Compensation, original, CompensatingAction(original.system))]);
      CompensationStarts(before, adapters, TaskAt(course, pc), s, retryBase, t);
      Take(hop);
    }

    /** Nothing is called for stale work, nor where no adapter is registered. */
    method SkipCompensation(r: RequestId, original: Command, superseded: bool, ghost todo: set<StepId>, ghost start: Db,
                            ghost done: set<StepId>)
      requires At(Compensating(todo)) && For(r) && original.stepId in todo && original.stepId !in done
      requires InRequest(start.steps, r, original.stepId) && start.steps[original.stepId].command == original
      requires original.employee == course.task.employee
      requires RoundOver(start, repository.View(), course.task.employee, r, done)
      requires superseded <==> Superseded(start.steps, course.task.employee, r, original.stepId)
      requires superseded || original.system !in adapters
      modifies this, repository
      ensures Recorded(repository.View(), r, original, if superseded then CompSuperseded else CompFailed, retryBase)
      ensures course == old(course) && old(path) <= path && Claims(path) == Claims(old(path))
      ensures At(Compensating(todo - {original.stepId}))
      ensures RoundOver(start, repository.View(), course.task.employee, r, done + {original.stepId})
    {
      hide OnCourse, Acts, RoundOver, RecordCompensation, Superseded, Fair;
      ghost var before, e := repository.View(), course.task.employee;
      var s := original.stepId;
      RoundFacts(start, before, e, r, done, s);
      var state := if superseded then CompSuperseded else CompFailed;
      var delay := if superseded then None else Some(retryBase);
      var t := Instant();
      var operation := if original.system.Odoo? then Update else Suspend;
      repository.RecordCompensationAttempt(CompensationKey(r, s, operation), state, delay, t);
      RecordIs(before, r, original, state, delay, retryBase, t);
      ghost var hop := Hop(before, pc, CompensateStep(s, retryBase), t, repository.View(), Compensating(todo - {s}), []);
      CompensationSkips(before, adapters, TaskAt(course, pc), s, retryBase, t, repository.View());
      Take(hop);
      OneMoreAttempt(start, before, repository.View(), e, r, done, s, state, delay, t);
    }

    method CallCompensation(r: RequestId, original: Command, ghost rest: set<StepId>, ghost start: Db, ghost done: set<StepId>)
      requires At(CallingCompensation(original.stepId, rest)) && For(r) && original.stepId !in done
      requires InRequest(start.steps, r, original.stepId) && start.steps[original.stepId].command == original
      requires original.employee == course.task.employee
      requires RoundOver(start, repository.View(), course.task.employee, r, done)
      requires !Superseded(start.steps, course.task.employee, r, original.stepId)
      modifies this, repository
      ensures Recorded(repository.View(), r, original,
                       if world.reply(old(turn), UndoOf(r, original)).Succeeds? then CompSucceeded else CompFailed, retryBase)
      ensures course == old(course) && old(path) <= path && Claims(path) == Claims(old(path))
      ensures At(Compensating(rest))
      ensures RoundOver(start, repository.View(), course.task.employee, r, done + {original.stepId})
    {
      hide At, RoundOver, Superseded, Recorded, UndoOf;
      var reply := AskToUndo(r, original, rest, start, done);
      RecordUndo(r, original, reply.Succeeds?, rest, start, done);
    }

    /** The compensating command and its answer. */
    method AskToUndo(r: RequestId, original: Command, ghost rest: set<StepId>, ghost start: Db, ghost done: set<StepId>)
        returns (reply: Reply)
      requires At(CallingCompensation(original.stepId, rest)) && For(r)
      requires RoundOver(start, repository.View(), course.task.employee, r, done)
      modifies this`turn, repository
      ensures At(CallingCompensation(original.stepId, rest)) && reply == world.reply(old(turn), UndoOf(r, original))
      ensures RoundOver(start, repository.View(), course.task.employee, r, done)
    {
      hide OnCourse, TablesOk, TaskOk, StepsOk, Undisturbed, RoundOver, Keyed, SequencesUnique, FinishTimesUnique, KeysUnique, SameSteps, Fair;
      ghost var e, began := course.task.employee, repository.View();
      CourseFacts(course, path, pc, began);
      var command := UndoCommand(r, original);
      reply := world.reply(turn, command);
      Yield();
      ghost var before := repository.View();
      RoundSteps(start, began, e, r, done);
      UndisturbedRequest(began, before, TaskAt(course, pc));
      SameStepsTransitive(start.steps, began.steps, before.steps, r);
      RoundWaits(start, began, before, e, r, done);
    }

    method UndoCommand(r: RequestId, original: Command) returns (command: Command)
      ensures command == UndoOf(r, original)
    {
      var operation := if original.system.Odoo? then Update else Suspend;
      var payload := if operation.Update? then "remove_excess_access"
                     else if original.system.AgentDesktop? then "revoke_sessions" else "suspend";
      command := original.(
        operation := operation,
        key := "compensate:" + r + ":" + original.stepId + ":" + (if operation.Update? then "update" else "suspend"),
        payload := Payloads.Object(map["compensation" := Payloads.Text(payload)]));
    }

    method RecordUndo(r: RequestId, original: Command, succeeded: bool, ghost rest: set<StepId>, ghost start: Db, ghost done: set<StepId>)
      requires At(CallingCompensation(original.stepId, rest)) && For(r) && original.stepId !in done
      requires InRequest(start.steps, r, original.stepId) && start.steps[original.stepId].command == original
      requires original.employee == course.task.employee
      requires RoundOver(start, repository.View(), course.task.employee, r, done)
      requires !Superseded(start.steps, course.task.employee, r, original.stepId)
      modifies this, repository
      ensures Recorded(repository.View(), r, original, if succeeded then CompSucceeded else CompFailed, retryBase)
      ensures course == old(course) && old(path) <= path && Claims(path) == Claims(old(path))
      ensures At(Compensating(rest))
      ensures RoundOver(start, repository.View(), course.task.employee, r, done + {original.stepId})
    {
      hide OnCourse, Acts, RoundOver, RecordCompensation, Superseded, Fair, Recorded, Evolves;
      ghost var before, e, s := repository.View(), course.task.employee, original.stepId;
      RoundFacts(start, before, e, r, done, s);
      var state := if succeeded then CompSucceeded else CompFailed;
      var delay := if succeeded then None else Some(retryBase);
      var t := Instant();
      var operation := if original.system.Odoo? then Update else Suspend;
      repository.RecordCompensationAttempt(CompensationKey(r, original.stepId, operation), state, delay, t);
      RecordIs(before, r, original, state, delay, retryBase, t);
      ghost var hop := Hop(before, pc, CompensationReturn(succeeded, retryBase), t, repository.View(),
                           Compensating(rest), [Ended(Compensation, original)]);
      CompensationEnds(before, adapters, TaskAt(course, pc), s, succeeded, retryBase, t, repository.View());
      Take(hop);
      OneMoreAttempt(start, before, repository.View(), e, r, done, s, state, delay, t);
    }

    /** One attempt of every target of the request, later steps first. */
    method Compensate(r: RequestId)
      requires At(Compensating(CompensationTargets(repository.steps, r))) && For(r)
      modifies this, repository
      ensures course == old(course) && old(path) <= path && Claims(path) == Claims(old(path))
      ensures At(Leaving) && Known(repository.View(), course.task)
      ensures Round(old(repository.View()), repository.View(), course.task.employee, r)
      ensures forall s :: s in CompensationTargets(old(repository.steps), r) ==>
        s in old(repository.steps) &&
        var key := CompensationKey(r, s, if old(repository.steps)[s].command.system.Odoo? then Update else Suspend);
        && key in repository.compensations
        && repository.compensations[key].attempts == 1 + if key in old(repository.compensations) then old(repository.compensations)[key].attempts else 0
    {
      hide OnCourse, Acts, TablesOk, TaskOk, StepsOk, RoundOver, LastFinished, Keyed, SequencesUnique, FinishTimesUnique, KeysUnique,
           SameRows, SameSteps, StepIds, CompensationTargets;
      ghost var start := repository.View();
      CourseFacts(course, path, pc, start);
      var commands := repository.SuccessfulCommands(r);
      assert commands[0..] == commands && commands[..0] == [];
      TargetsOwned(start, TaskAt(course, pc), commands);
      NoRound(start, course.task.employee, r);
      NoStepIds();
      var i := 0;
      while i < |commands|
        invariant 0 <= i <= |commands|
        invariant course == old(course) && old(path) <= path && Claims(path) == Claims(old(path))
        invariant At(Compensating(StepIds(commands[i..])))
        invariant RoundOver(start, repository.View(), course.task.employee, r, StepIds(commands[..i]))
      {
        StepIdsAround(start.steps, commands, i);
        CompensateOne(r, commands[i], StepIds(commands[i..]), start, StepIds(commands[..i]));
        i := i + 1;
      }
      assert commands[i..] == [] && commands[..i] == commands;
      CourseFacts(course, path, pc, repository.View());
      ghost var t := repository.clock + 1;
      ghost var hop := Hop(repository.View(), pc, Finish, t, repository.View(), Leaving, []);
      FinishMoves(repository.View(), adapters, TaskAt(course, pc), t);
      Take(hop);
      RoundKeys(start, repository.View(), course.task.employee, r);
    }

    // -------------------------------------------------------------- the claim loop

    /** Gates, executes and stores one claimed step. */
    method Perform(r: RequestId, command: Command) returns (more: bool)
      requires At(Gated(command.stepId)) && For(r)
      requires command.stepId in repository.steps && command == repository.steps[command.stepId].command
      requires RunningIn(repository.steps, r, command.stepId)
      modifies this, repository
      ensures course == old(course) && old(path) <= path && Claims(path) == Claims(old(path))
      ensures more ==>
        && At(Claiming) && (forall o :: !RunningIn(repository.steps, r, o))
        && Unfinished(repository.steps, r) == Unfinished(old(repository.steps), r) - {command.stepId}
      ensures !more ==> At(Leaving) && AtRest(repository.steps, r) && Known(repository.View(), course.task)
      ensures !more ==>
        command.stepId in repository.steps && (repository.steps[command.stepId].state.DeadLetter? ==>
          exists failed :: Round(failed, repository.View(), course.task.employee, r))
    {
      hide At, Unfinished, AtRest, SameSteps, Round;
      ghost var began := repository.View();
      var next := Dispatch(r, command);
      if next.Call? {
        var outcome := Execute(r, command);
        StandingSteps(began.steps, repository.steps, r);
        next := Return(r, command, outcome);
      }
      if next.Undo? {
        ghost var failed := repository.View();
        Compensate(r);
        RoundStands(failed, repository.View(), course.task.employee, r);
        RoundHasStep(failed, repository.View(), course.task.employee, r, command.stepId);
      }
      more := next.Call?;
    }

    /** Claims and executes one step after the other until none can be claimed or one does
        not succeed. */
    method RunRequest(r: RequestId)
      requires At(Claiming) && For(r)
      modifies this, repository
      ensures course == old(course) && old(path) <= path && At(Leaving) && Known(repository.View(), course.task)
      ensures Claims(path) <= Claims(old(path)) + |Unfinished(old(repository.steps), r)|
      ensures Settled(repository.steps, r) && NoneStray(old(repository.steps), repository.steps, r)
    {
      hide At, Settled;
      while true
        invariant course == old(course) && old(path) <= path && At(Claiming)
        invariant Claims(path) + |Unfinished(repository.steps, r)| <= Claims(old(path)) + |Unfinished(old(repository.steps), r)|
        invariant NoneStray(old(repository.steps), repository.steps, r)
        decreases |Unfinished(repository.steps, r)|
      {
        var claimed := Claim(r);
        if claimed.None? {
          return;
        }
        var more := Perform(r, claimed.value);
        if !more {
          return;
        }
      }
    }

    // -------------------------------------------------------------- verification

    /** One external check, up to its record in the store. The ghost result is what the
        adapter said, if there is one. */
    method CheckOne(r: RequestId, e: EmployeeId, key: Key, original: Command, ghost todo: set<StepId>)
        returns (checked: Checked, ghost verdict: Option<Verdict>)
      requires At(Verifying(todo)) && For(r) && e == course.task.employee && original.stepId in todo
      requires original.stepId in repository.steps && original == repository.steps[original.stepId].command
      modifies this, repository
      ensures course == old(course) && old(path) <= path && Claims(path) == Claims(old(path))
      ensures At(if checked.Aborts? then Leaving else Verifying(todo - {original.stepId}))
      ensures OnlyChecked(old(repository.View()), repository.View(), e, original.stepId)
      ensures checked.Confirms? ==> Evidenced(repository.View(), e, original.stepId)
      ensures turn > old(turn) && AnsweredBetween(world, old(turn), turn, CheckOf(original, key), verdict)
      ensures verdict.None? <==> original.system !in adapters
      ensures Verdicts(checked, verdict, Candidate(repository.steps, e, original.system, original.stepId))
    {
      hide OnCourse, Acts, TablesOk, TaskOk, Undisturbed, OnlyChecked, Evidenced, StepsOk, Keyed, KeysUnique, FinishTimesUnique,
           SequencesUnique, Candidate, Fair, Evolves;
      StartCheck(r, original, todo);
      verdict := None;
      if original.system in adapters {
        ghost var began := turn;
        checked := CallCheck(r, e, key, original, todo - {original.stepId});
        verdict := Some(world.verdict(began, CheckOf(original, key)));
      } else {
        checked := Aborts;
      }
    }

    method StartCheck(r: RequestId, original: Command, ghost todo: set<StepId>)
      requires At(Verifying(todo)) && For(r) && original.stepId in todo
      requires original.stepId in repository.steps && original == repository.steps[original.stepId].command
      modifies this`turn, this`path, this`pc
      ensures old(path) <= path && Claims(path) == Claims(old(path)) && turn == old(turn) + 1
      ensures At(if original.system in adapters then CallingCheck(original.stepId, todo - {original.stepId}) else Leaving)
      ensures OnlyChecked(repository.View(), repository.View(), course.task.employee, original.stepId)
    {
      hide OnCourse, Acts, TablesOk, TaskOk, OnlyChecked, StepsOk, Keyed, KeysUnique, FinishTimesUnique, SequencesUnique, Fair, Evolves;
      ghost var start := repository.View();
      var s := original.stepId;
      var t := Instant();
      var known := original.system in adapters;
      ghost var hop := Hop(start, pc, CheckStep(s), t, start, if known then CallingCheck(s, todo - {s}) else Leaving,
                           if known then [Started(Check, original, Verify)] else []);
      CheckStarts(start, adapters, TaskAt(course, pc), s, t);
      CourseFacts(course, path, pc, start);
      CheckedStep(start, TaskAt(course, pc), s);
      NothingChecked(start, course.task.employee, s);
      Take(hop);
    }

    method CallCheck(r: RequestId, e: EmployeeId, key: Key, original: Command, ghost rest: set<StepId>) returns (checked: Checked)
      requires At(CallingCheck(original.stepId, rest)) && For(r) && e == course.task.employee
      requires original.stepId in repository.steps && original == repository.steps[original.stepId].command
      modifies this, repository
      ensures course == old(course) && old(path) <= path && Claims(path) == Claims(old(path)) && turn > old(turn)
      ensures At(if checked.Aborts? then Leaving else Verifying(rest))
      ensures Verdicts(checked, Some(world.verdict(old(turn), CheckOf(original, key))), Candidate(repository.steps, e, original.system, original.stepId))
      ensures OnlyChecked(old(repository.View()), repository.View(), e, original.stepId)
      ensures checked.Confirms? ==> Evidenced(repository.View(), e, original.stepId)
    {
      hide OnCourse, Acts, TablesOk, Undisturbed, OnlyChecked, Evidenced, Candidate, Keyed, FinishTimesUnique,
           SequencesUnique, StepsOk, KeysUnique, RecordVerification, Fair, Evolves;
      ghost var start := repository.View();
      CourseFacts(course, path, pc, start);
      var s := original.stepId;
      CheckedStep(start, TaskAt(course, pc), s);
      var payload := if original.payload.Object?
        then Payloads.Object(original.payload.fields["external_verification" := Payloads.Bool(true)])
        else Payloads.Object(map["external_verification" := Payloads.Bool(true)]);
      var command := original.(operation := Verify, key := "verify:" + key + ":" + s, payload := payload);
      ExternalFlag(original.payload);
      var verdict := world.verdict(turn, command);
      Yield();
      WaitChecked(start, repository.View(), e, s);
      checked := StoreVerdict(r, e, original, rest, verdict, start);
    }

    method StoreVerdict(r: RequestId, e: EmployeeId, original: Command, ghost rest: set<StepId>, verdict: Verdict, ghost start: Db)
        returns (checked: Checked)
      requires At(CallingCheck(original.stepId, rest)) && For(r) && e == course.task.employee
      requires original.stepId in repository.steps && original == repository.steps[original.stepId].command
      requires OnlyChecked(start, repository.View(), e, original.stepId)
      modifies this, repository
      ensures course == old(course) && old(path) <= path && Claims(path) == Claims(old(path)) && turn > old(turn)
      ensures At(if checked.Aborts? then Leaving else Verifying(rest))
      ensures Verdicts(checked, Some(verdict), Candidate(repository.steps, e, original.system, original.stepId))
      ensures OnlyChecked(start, repository.View(), e, original.stepId)
      ensures checked.Confirms? ==> Evidenced(repository.View(), e, original.stepId)
    {
      hide OnCourse, Acts, TablesOk, TaskOk, OnlyChecked, Evidenced, Candidate, Keyed, FinishTimesUnique,
           SequencesUnique, StepsOk, KeysUnique, RecordVerification, Fair, Evolves;
      ghost var before, s := repository.View(), original.stepId;
      CourseFacts(course, path, pc, before);
      var t := Instant();
      var accepted := false;
      if verdict.Confirmed? {
        accepted := repository.RecordEvidence(e, original.system, original.stepId, verdict.evidence, t);
      }
      checked := if verdict.NotConfirmed? then Denies else if accepted then Confirms else Aborts;
      ghost var hop := Hop(before, pc, CheckReturn(verdict), t, repository.View(), if checked.Aborts? then Leaving else Verifying(rest),
                           if accepted then [Ended(Check, original), Accepted(original)] else [Ended(Check, original)]);
      CheckEnds(before, adapters, TaskAt(course, pc), s, verdict, accepted, t, repository.View());
      RecordingSteps(before, e, original.system, s, if verdict.Confirmed? then verdict.evidence else "", t);
      Take(hop);
      if accepted {
        EvidenceStored(start, before, e, s, verdict.evidence, t);
      }
    }

    method AllCurrent(e: EmployeeId, commands: seq<Command>) returns (current: bool)
      requires Keyed(repository.executions, repository.steps) && FinishTimesUnique(repository.steps)
      ensures current <==> forall i :: 0 <= i < |commands| ==> Candidate(repository.steps, e, commands[i].system, commands[i].stepId)
    {
      var i := 0;
      while i < |commands|
        invariant 0 <= i <= |commands|
        invariant forall j :: 0 <= j < i ==> Candidate(repository.steps, e, commands[j].system, commands[j].stepId)
      {
        current := repository.IsCurrentVerificationCandidate(e, commands[i].system, commands[i].stepId);
        if !current {
          return false;
        }
        i := i + 1;
      }
      return true;
    }

    /** The targets to check; a stale one ends the verification. */
    method OpenChecks(r: RequestId, e: EmployeeId) returns (commands: seq<Command>, current: bool)
      requires At(Entered) && For(r) && e == course.task.employee && course.task.job.VerifyNow?
      modifies this`turn, this`path, this`pc
      ensures old(path) <= path && Claims(path) == Claims(old(path))
      ensures At(if current then Verifying(StepIds(commands)) else Leaving)
      ensures StepIds(commands) == VerificationTargets(repository.steps, r) && OnePerSystem(repository.steps, commands)
      ensures turn > old(turn)
      ensures current <==> forall i :: 0 <= i < |commands| ==>
        Candidate(repository.steps, e, commands[i].system, commands[i].stepId)
    {
      hide OnCourse, Acts, TablesOk, TaskOk, StepsOk, Candidate, Keyed, SequencesUnique, FinishTimesUnique, KeysUnique, StepIds,
           VerificationTargets, OnePerSystem, Fair;
      ghost var start := repository.View();
      CourseFacts(course, path, pc, start);
      commands := repository.VerificationCommands(r);
      current := AllCurrent(e, commands);
      var t := Instant();
      ghost var hop := Hop(start, pc, BeginChecks, t, start, if current then Verifying(StepIds(commands)) else Leaving, []);
      ChecksBegin(start, adapters, TaskAt(course, pc), commands, current, t);
      Take(hop);
    }

    /** Every target of a request is checked. The answer is a confirmation exactly when there
        are targets, each is its system's current candidate, and each adapter confirmed its
        own; the ghost result holds what they said. */
    method VerifyLocked(r: RequestId, e: EmployeeId, key: Key) returns (answer: Checked, ghost verdicts: map<StepId, Verdict>)
      requires At(Entered) && For(r) && e == course.task.employee && course.task.job.VerifyNow?
      modifies this, repository
      ensures course == old(course) && old(path) <= path && Claims(path) == Claims(old(path)) && At(Leaving)
      ensures SameRows(old(repository.steps), repository.steps, e)
      ensures VerificationTargets(repository.steps, r) == VerificationTargets(old(repository.steps), r)
      ensures answer.Confirms? ==> forall s :: s in VerificationTargets(repository.steps, r) ==> Evidenced(repository.View(), e, s)
      ensures AllAnswered(world, old(turn), turn, old(repository.steps), key, verdicts)
      ensures answer.Confirms? <==>
        (VerificationTargets(repository.steps, r) != {}
         && forall s :: s in VerificationTargets(repository.steps, r) ==>
              ConfirmedCandidate(old(repository.steps), e, s, verdicts))
    {
      hide At, Evidenced, StepIds, SameRows, VerificationTargets, OnePerSystem, TablesOk, TaskOk, Candidate, AllAnswered, ConfirmedCandidate;
      ghost var start, startSteps, began := repository.View(), repository.steps, turn;
      AtFacts(Entered);
      var commands, current := OpenChecks(r, e);
      NoRowsChanged(start.steps, e);
      NothingAnswered(world, began, turn, startSteps, key);
      verdicts := map[];
      if !current {
        StaleTarget(start.steps, e, commands, verdicts);
        return Aborts, map[];
      }
      ghost var asked := turn;
      answer, verdicts := CheckAll(r, e, key, commands);
      AnsweredSooner(world, began, asked, turn, startSteps, key, verdicts);
      if !answer.Aborts? {
        FinishChecks(r);
      }
      AtFacts(Leaving);
      RowsToSteps(start, repository.View(), TaskAt(course, Leaving));
      TargetsStand(start.steps, repository.steps, r);
      TargetsAre(commands);
      AllTargets(start.steps, e, commands, verdicts);
    }

    ghost method FinishChecks(r: RequestId)
      requires At(Verifying({})) && For(r)
      modifies this`path, this`pc
      ensures old(path) <= path && Claims(path) == Claims(old(path)) && At(Leaving)
    {
      var t := repository.clock + 1;
      var hop := Hop(repository.View(), pc, Finish, t, repository.View(), Leaving, []);
      FinishMoves(repository.View(), adapters, TaskAt(course, pc), t);
      hide OnCourse, Acts;
      Take(hop);
    }

    lemma AtFacts(at: Pc)
      requires At(at)
      ensures TablesOk(repository.View()) && TaskOk(repository.View(), TaskAt(course, at))
      ensures !course.task.job.Submit? ==> Known(repository.View(), course.task)
    {
    }

    /** The checks one after the other; one that is not confirmed does not end them. */
    method CheckAll(r: RequestId, e: EmployeeId, key: Key, commands: seq<Command>) returns (answer: Checked, ghost verdicts: map<StepId, Verdict>)
      requires At(Verifying(StepIds(commands))) && For(r) && e == course.task.employee
      requires OnePerSystem(repository.steps, commands)
      modifies this, repository
      ensures course == old(course) && old(path) <= path && Claims(path) == Claims(old(path)) && turn >= old(turn)
      ensures At(if answer.Aborts? then Leaving else Verifying({}))
      ensures SameRows(old(repository.steps), repository.steps, e)
      ensures answer.Confirms? ==>
        commands != [] && forall j :: 0 <= j < |commands| ==> Evidenced(repository.View(), e, commands[j].stepId)
      ensures AllAnswered(world, old(turn), turn, old(repository.steps), key, verdicts)
      ensures answer.Confirms? <==>
        (commands != []
         && forall j :: 0 <= j < |commands| ==> ConfirmedCandidate(old(repository.steps), e, commands[j].stepId, verdicts))
    {
      hide At, TablesOk, TaskOk, Evidenced, OnlyChecked, StepIds, SameRows, OnePerSystem, Candidate, AllAnswered, ConfirmedCandidate,
           AnsweredBetween, Undisturbed;
      ghost var start, startSteps, began := repository.steps, repository.steps, turn;
      NoRowsChanged(start, e);
      NothingAnswered(world, began, turn, startSteps, key);
      verdicts := map[];
      answer := Denies;
      var all := true;
      var i := 0;
      assert commands[0..] == commands;
      while i < |commands|
        invariant 0 <= i <= |commands| && turn >= began
        invariant course == old(course) && old(path) <= path && Claims(path) == Claims(old(path))
        invariant At(Verifying(StepIds(commands[i..]))) && SameRows(start, repository.steps, e)
        invariant all ==> forall j :: 0 <= j < i ==> Evidenced(repository.View(), e, commands[j].stepId)
        invariant AllAnswered(world, began, turn, startSteps, key, verdicts) && forall j :: i <= j < |commands| ==> commands[j].stepId !in verdicts
        invariant all <==> forall j :: 0 <= j < i ==> ConfirmedCandidate(start, e, commands[j].stepId, verdicts)
      {
        StepIdsAround(start, commands, i);
        OtherIds(start, commands, i);
        ghost var before, asked := repository.View(), turn;
        AtFacts(Verifying(StepIds(commands[i..])));
        CheckTarget(start, before, TaskAt(course, Verifying(StepIds(commands[i..]))), commands[i].stepId);
        TargetCommand(start, commands, i);
        var checked;
        ghost var verdict;
        checked, verdict := CheckOne(r, e, key, commands[i], StepIds(commands[i..]));
        CheckedRows(start, before, repository.View(), e, commands[i].stepId);
        OthersEvidenceStays(start, before, repository.View(), e, commands, i);
        CandidateSame(start, repository.steps, e, commands[i].system, commands[i].stepId);
        OneMoreAnswer(world, began, asked, turn, startSteps, key, verdicts, commands[i].stepId, verdict);
        ghost var verdicts' := if verdict.Some? then verdicts[commands[i].stepId := verdict.value] else verdicts;
        OneMoreVerdict(start, e, commands, i, verdicts, verdict, checked, repository.steps);
        verdicts := verdicts';
        if checked.Aborts? {
          return Aborts, verdicts;
        }
        all := all && checked.Confirms?;
        i := i + 1;
      }
      assert commands[i..] == [];
      NoStepIds();
      answer := if all && commands != [] then Confirms else Denies;
    }

    // -------------------------------------------------------------- entry points, under both locks

    /** Reading a request back is no move of the task. */
    method Report(r: RequestId) returns (result: Option<ExecutionView>)
      requires At(pc)
      modifies this`turn, repository
      ensures At(pc) && repository.steps == old(repository.steps) && turn == old(turn) + 1
      ensures Undisturbed(old(repository.View()), repository.View(), course.task.employee)
      ensures result.Some? <==> r in old(repository.executions)
      ensures result.Some? ==> Reports(repository.steps, r, result.value)
    {
      hide OnCourse, TablesOk, TaskOk, Refresh, Keyed, StepsOk, SequencesUnique, FinishTimesUnique, KeysUnique, Listed, Undisturbed,
           Summary, StatesOf, Fair;
      ghost var before := repository.View();
      CourseFacts(course, path, pc, before);
      NothingIfTables(before, course.task.employee);
      var t := Instant();
      result := repository.RequestResult(r, t);
      RefreshSteps(before, r, t);
      RecoveringOrReading(before, r, t, course.task.employee);
      if result.Some? {
        Wait(course, path, pc, before, repository.View());
      }
    }

    /** The check before any lock is taken: a request that grants access does nothing else. */
    method Preflight(submission: Submission) returns (allowed: bool)
      ensures allowed <==> UnmixedAccess(submission)
    {
      var access := 0;
      var i := 0;
      while i < |submission.steps|
        invariant 0 <= i <= |submission.steps| && 0 <= access <= i
        invariant access == 0 <==> forall j :: 0 <= j < i ==> !GrantsAccess(submission.steps[j].operation)
        invariant access == i <==> forall j :: 0 <= j < i ==> GrantsAccess(submission.steps[j].operation)
      {
        if submission.steps[i].operation.Activate? || submission.steps[i].operation.Reactivate? {
          access := access + 1;
        }
        i := i + 1;
      }
      allowed := !(access > 0 && access != |submission.steps|);
    }

    /** What submit() answers, and what it stores, before it runs anything. A replayed
        request answers with its stored result, or is read back if there is none yet. */
    method Decide(submission: Submission, t: Time)
        returns (answer: Answer, stored: Option<RequestState>, result: Option<ExecutionView>)
      requires TablesOk(repository.View()) && WellFormed(submission) && t > repository.clock
      modifies repository
      ensures Admitted(old(repository.View()), submission, answer)
      ensures Decided(old(repository.View()), repository.View(), submission, answer, t)
      ensures Unknown(old(repository.View()), submission.key) && AsksForUncleared(old(repository.View()), submission) ==>
        answer.NotVerified? && repository.View() == old(repository.View())
      ensures AnswersBack(old(repository.View()), submission, answer, stored, result)
    {
      hide StepsOk, Refresh, Begin, Insertable, WellFormed, ActivationReady, Stands, InsertRows, StoredUnder;
      ghost var before := repository.View();
      TablesFacts(before);
      hide TablesOk;
      answer, stored, result := KeyConflict, None, None;
      var known := repository.ExistingExecution(submission);
      if known.Replayed? {
        answer, stored := Replay, known.result;
        KnownAnswer(before, submission, known);
        if known.result.None? {
          result := repository.RequestResult(submission.request, t);
        }
      } else if !known.Conflict? {
        answer := Admission(submission, t);
      }
      hide Admitted, AsksForUncleared, Unknown;
      UnclearedIsRefused(before, submission, answer);
    }

    method Admission(submission: Submission, t: Time) returns (answer: Answer)
      requires Keyed(repository.executions, repository.steps) && KeysUnique(repository.executions)
      requires FinishTimesUnique(repository.steps) && WellFormed(submission)
      requires Unknown(repository.View(), submission.key)
      modifies repository
      ensures Admitted(old(repository.View()), submission, answer)
      ensures repository.View() == if answer.Ran? then Begin(old(repository.View()), submission, t) else old(repository.View())
    {
      hide Keyed, KeysUnique, FinishTimesUnique, WellFormed, Insertable, ActivationReady, Stands, Begin;
      var access := set i | 0 <= i < |submission.steps|
                            && (submission.steps[i].operation.Activate? || submission.steps[i].operation.Reactivate?)
                          :: submission.steps[i].system;
      assert access == AccessSystems(submission);
      var blockers := {};
      if access != {} {
        blockers := repository.ActivationBlockers(submission.employee, access);
      }
      if blockers != {} {
        return NotVerified;
      }
      var inserted := repository.BeginExecution(submission, t);
      answer := if inserted.Fresh? then Ran else Unstorable;
    }

    /** The decision as the protocol's move. */
    method Admit(submission: Submission) returns (answer: Answer, stored: Option<RequestState>, result: Option<ExecutionView>)
      requires At(Entered) && For(submission.request) && course.task.job == Protocol.Submit(submission)
      modifies this, repository
      ensures course == old(course) && old(path) <= path && Claims(path) == Claims(old(path))
      ensures Admitted(old(repository.View()), submission, answer)
      ensures AnswersBack(old(repository.View()), submission, answer, stored, result)
      ensures Unknown(old(repository.View()), submission.key) && AsksForUncleared(old(repository.View()), submission) ==>
        answer.NotVerified? && repository.View() == old(repository.View())
      ensures At(if answer.Ran? then Claiming else Leaving)
      ensures !answer.Ran? ==> repository.steps == old(repository.steps)
      ensures answer.Ran? ==> |Unfinished(repository.steps, submission.request)| <= |submission.steps|
    {
      hide OnCourse, Acts, TablesOk, StepsOk, Keyed, FinishTimesUnique, SequencesUnique, KeysUnique, WellFormed,
           Unfinished, Admitted, Decided, AnswersBack, Fair, Unknown, AsksForUncleared;
      ghost var before := repository.View();
      CourseFacts(course, path, pc, before);
      var t := Instant();
      answer, stored, result := Decide(submission, t);
      ghost var after := repository.View();
      SubmitMoves(before, adapters, TaskAt(course, pc), submission, answer, t, after);
      ghost var hop := Hop(before, pc, BeginRequest, t, after, if answer.Ran? then Claiming else Leaving,
                           if answer.Ran? then [Created(submission)] else []);
      Take(hop);
    }

    /** submit(): replay or refuse, or store the request and run it. */
    method Submit(submission: Submission) returns (answer: Answer, stored: Option<RequestState>, result: Option<ExecutionView>)
      requires At(Entered) && For(submission.request) && course.task.job == Protocol.Submit(submission)
      modifies this, repository
      ensures course == old(course) && old(path) <= path && At(Leaving)
      ensures Admitted(old(repository.View()), submission, answer)
      ensures !answer.Ran? ==> repository.steps == old(repository.steps) && Claims(path) == Claims(old(path))
      ensures !answer.Ran? ==> AnswersBack(old(repository.View()), submission, answer, stored, result)
      ensures Unknown(old(repository.View()), submission.key) && AsksForUncleared(old(repository.View()), submission) ==>
        answer.NotVerified? && repository.View() == old(repository.View())
      ensures answer.Ran? ==> Claims(path) <= Claims(old(path)) + |submission.steps| && Settled(repository.steps, submission.request)
      ensures answer.Ran? ==> stored.None? && result.Some? && Reports(repository.steps, submission.request, result.value)
    {
      hide At, Settled, Admitted, Unfinished, AnswersBack, Undisturbed, Reports, Unknown, AsksForUncleared;
      answer, stored, result := Admit(submission);
      if answer.Ran? {
        RunRequest(submission.request);
        PcIs(Leaving);
        result := Report(submission.request);
        stored := None;
      }
    }

    lemma PcIs(at: Pc)
      requires At(at)
      ensures pc == at
    {
    }

    /** retry(): put the one retryable step back to waiting and run on. */
    method Retry(r: RequestId) returns (result: Option<ExecutionView>)
      requires At(Entered) && For(r) && course.task.job.Retry?
      modifies this, repository
      ensures course == old(course) && old(path) <= path && At(Leaving)
      ensures (exists s :: IsFrontier(old(repository.steps), r, s) && Retryable(old(repository.steps)[s])) ==>
        Claims(path) <= Claims(old(path)) + |Unfinished(old(repository.steps), r)| && Settled(repository.steps, r)
      ensures !(exists s :: IsFrontier(old(repository.steps), r, s) && Retryable(old(repository.steps)[s])) ==>
        repository.steps == old(repository.steps) && Claims(path) == Claims(old(path))
      ensures result.Some? && Reports(repository.steps, r, result.value)
    {
      hide At, Settled, Unfinished, Undisturbed, Reports;
      var picked := ScheduleRetry(r);
      if picked {
        RunRequest(r);
      }
      PcIs(Leaving);
      result := Report(r);
    }

    method ScheduleRetry(r: RequestId) returns (picked: bool)
      requires At(Entered) && For(r) && course.task.job.Retry?
      modifies this, repository
      ensures course == old(course) && old(path) <= path && Claims(path) == Claims(old(path))
      ensures At(if picked then Claiming else Leaving)
      ensures !picked ==> Known(repository.View(), course.task)
      ensures picked <==> exists s :: IsFrontier(old(repository.steps), r, s) && Retryable(old(repository.steps)[s])
      ensures !picked ==> repository.steps == old(repository.steps)
      ensures picked ==> |Unfinished(repository.steps, r)| == |Unfinished(old(repository.steps), r)|
    {
      hide OnCourse, Acts, TablesOk, TaskOk, StepsOk, Keyed, FinishTimesUnique, SequencesUnique, KeysUnique, Refresh, Reschedule,
           RetryPick, IsFrontier, Fair;
      ghost var before := repository.View();
      CourseFacts(course, path, pc, before);
      var t := Instant();
      var pick := repository.ScheduleStepRetry(r, t);
      if pick.None? {
        var current := repository.RequestResult(r, t);
        RefreshSteps(before, r, t);
      }
      if pick.Some? {
        RetryPickFacts(before.steps, r, pick.value);
      }
      RetryMoves(before, adapters, TaskAt(course, pc), pick, t, repository.View());
      ghost var hop := Hop(before, pc, RetryRequest(pick), t, repository.View(), if pick.Some? then Claiming else Leaving,
                           if pick.Some? then [Rescheduled(before.steps[pick.value].command)] else []);
      Take(hop);
      picked := pick.Some?;
    }

    /** cancel(): drop what waits, mark the request, and compensate what was done. */
    method Cancel(r: RequestId) returns (result: Option<ExecutionView>)
      requires At(Entered) && For(r) && course.task.job.Cancel?
      modifies this, repository
      ensures course == old(course) && old(path) <= path && Claims(path) == Claims(old(path)) && At(Leaving)
      ensures forall s, later :: !Claimable(repository.steps, r, s, later)
      ensures forall s :: InRequest(old(repository.steps), r, s) && !Waiting(old(repository.steps)[s].state) ==>
        s in repository.steps && repository.steps[s] == old(repository.steps)[s]
      ensures r in repository.executions && repository.executions[r].cancelledAt.Some?
      ensures exists t ::
        CancelledThenSettled(old(repository.View()), repository.View(), course.task.employee, r, t)
      ensures result.Some? && Reports(repository.steps, r, result.value)
    {
      hide At, CompensationTargets, Round, Claimable, CancelPending, MarkCancelled, Undisturbed, Reports;
      ghost var before, e := repository.View(), course.task.employee;
      ghost var t := MarkAndDrop(r);
      ghost var after := repository.View();
      Compensate(r);
      CancelHolds(before, after, repository.View(), r, e, t);
      ghost var compensated := repository.View();
      PcIs(Leaving);
      result := Report(r);
      RoundRead(after, compensated, repository.View(), e, r);
      assert CancelledThenSettled(before, repository.View(), e, r, t);
    }

    method MarkAndDrop(r: RequestId) returns (ghost at: Time)
      requires At(Entered) && For(r) && course.task.job.Cancel?
      modifies this, repository
      ensures course == old(course) && old(path) <= path && Claims(path) == Claims(old(path))
      ensures at > old(repository.clock)
      ensures repository.View() == MarkCancelled(CancelPending(old(repository.View()), r, at), r, at)
      ensures At(Compensating(CompensationTargets(repository.steps, r)))
      ensures r in repository.executions && repository.executions[r].cancelledAt.Some?
    {
      hide OnCourse, Acts, TablesOk, TaskOk, StepsOk, Keyed, FinishTimesUnique, SequencesUnique, KeysUnique,
           CompensationTargets, Fair;
      ghost var before := repository.View();
      CourseFacts(course, path, pc, before);
      var t := Instant();
      at := t;
      var dropped := repository.CancelWaiting(r, t);
      repository.MarkRequestCancelled(r, t);
      ghost var after := repository.View();
      ghost var hop := Hop(before, pc, CancelRequest, t, after, Compensating(CompensationTargets(after.steps, r)), [CancelledRequest(r)]);
      CancelMoves(before, adapters, TaskAt(course, pc), t);
      Take(hop);
    }

    // -------------------------------------------------------------- starting

    /** A task that just took its locks starts its course. */
    ghost method Enter(c: Course)
      requires c.from == Entered && c.adapters == adapters && c.origin == repository.View()
      requires TablesOk(c.origin) && TaskOk(c.origin, TaskAt(c, Entered)) && Fair(world, c.task.employee)
      modifies this`course, this`path, this`pc
      ensures course == c && path == [] && At(Entered)
    {
      course, path, pc := c, [], Entered;
      NothingIfTables(c.origin, c.task.employee);
    }

    /** The worker's turn on a request, and a request resumed after a restart. */
    method Work(r: RequestId)
      requires At(Entered) && For(r) && (course.task.job.Work? || course.task.job.Recover?)
      modifies this, repository
      ensures course == old(course) && old(path) <= path && At(Leaving)
      ensures Claims(path) <= Claims(old(path)) + |Unfinished(old(repository.steps), r)|
      ensures Settled(repository.steps, r) && NoneStray(old(repository.steps), repository.steps, r)
    {
      hide Settled, Unfinished, OnCourse, Acts;
      ghost var hop := Hop(repository.View(), pc, BeginRun, repository.clock + 1, repository.View(), Claiming, []);
      RunBegins(repository.View(), adapters, TaskAt(course, pc), repository.clock + 1);
      Take(hop);
      hide At;
      RunRequest(r);
    }

    /** A due compensation round. */
    method Settle(r: RequestId)
      requires At(Entered) && For(r) && course.task.job.Settle?
      modifies this, repository
      ensures course == old(course) && old(path) <= path && At(Leaving) && Claims(path) == Claims(old(path))
      ensures Round(old(repository.View()), repository.View(), course.task.employee, r)
    {
      hide CompensationTargets, Round, OnCourse, Acts;
      ghost var targets := CompensationTargets(repository.steps, r);
      ghost var hop := Hop(repository.View(), pc, BeginSettling, repository.clock + 1, repository.View(), Compensating(targets), []);
      SettlingBegins(repository.View(), adapters, TaskAt(course, pc), repository.clock + 1);
      Take(hop);
      hide At;
      Compensate(r);
    }
  }

  // ---------------------------------------------------------------- facts about entry points

  datatype Answer = Replay | KeyConflict | NotVerified | Unstorable | Ran

  /** The gate in front of requests that grant access. */
  ghost predicate Unready(db: Db, submission: Submission)
  {
    AccessSystems(submission) != {} &&
    !ActivationReady(db.steps, db.verifications, submission.employee, AccessSystems(submission))
  }

  ghost predicate Unknown(db: Db, key: Key)
  {
    forall r :: !StoredUnder(db, key, r)
  }

  /** Some step would grant access on a system that is not cleared: no account was created
      disabled there, its current candidate is not the one verified, or something unfinished
      is newer. */
  ghost predicate AsksForUncleared(db: Db, submission: Submission)
  {
    exists i :: 0 <= i < |submission.steps|
      && (submission.steps[i].operation.Activate? || submission.steps[i].operation.Reactivate?)
      && !Cleared(db.steps, db.verifications, submission.employee, submission.steps[i].system)
  }

  lemma UnclearedIsRefused(db: Db, submission: Submission, answer: Answer)
    ensures Admitted(db, submission, answer) && Unknown(db, submission.key) && AsksForUncleared(db, submission) ==> answer.NotVerified?
  {
    hide Insertable, Cleared;
    if AsksForUncleared(db, submission) {
      var i :| 0 <= i < |submission.steps|
        && (submission.steps[i].operation.Activate? || submission.steps[i].operation.Reactivate?)
        && !Cleared(db.steps, db.verifications, submission.employee, submission.steps[i].system);
      assert submission.steps[i].system in AccessSystems(submission);
    }
  }

  /** After a release a replayed submission is read back: the stored result is gone. */
  lemma ReleaseIsReadBack(db: Db, s: StepId, t: Time, submission: Submission, stored: Option<RequestState>, result: Option<ExecutionView>)
    requires s in db.steps && StoredUnder(db, submission.key, db.steps[s].command.request)
    requires AnswersBack(Release(db, s, t), submission, Replay, stored, result)
    ensures stored.None? && result.Some? && Reports(Release(db, s, t).steps, submission.request, result.value)
  {
    var r := db.steps[s].command.request;
    assert StoredUnder(Release(db, s, t), submission.key, r);
  }

  /** After a read a replayed submission answers with the summary the read stored. */
  lemma ReadIsReplayed(db: Db, r: RequestId, t: Time, submission: Submission, stored: Option<RequestState>, result: Option<ExecutionView>)
    requires StoredUnder(db, submission.key, r)
    requires AnswersBack(Refresh(db, r, t), submission, Replay, stored, result)
    ensures stored == Some(Summary(StatesOf(db.steps, r))) && result.None?
  {
    hide Summary, StatesOf, Listed;
    assert StoredUnder(Refresh(db, r, t), submission.key, r);
  }

  /** When submit() answers what: with unique keys, exactly one answer fits. */
  ghost predicate Admitted(db: Db, submission: Submission, answer: Answer)
  {
    match answer
    case Replay => exists r :: StoredUnder(db, submission.key, r) && db.executions[r].submission == submission
    case KeyConflict => exists r :: StoredUnder(db, submission.key, r) && db.executions[r].submission != submission
    case NotVerified => Unknown(db, submission.key) && Unready(db, submission)
    case Unstorable => Unknown(db, submission.key) && !Unready(db, submission) && !Insertable(db, submission)
    case Ran => Unknown(db, submission.key) && !Unready(db, submission) && Insertable(db, submission)
  }

  /** The request stored under the key is the submitted one. */
  lemma KnownAnswer(db: Db, submission: Submission, known: Stored)
    requires TablesOk(db) && known.Replayed? && Answers(db, submission, known)
    ensures submission.request in db.executions
    ensures forall r :: StoredUnder(db, submission.key, r) ==> db.executions[r].result == known.result
  {
  }

  lemma OneAnswerFits(db: Db, submission: Submission, a: Answer, b: Answer)
    requires KeysUnique(db.executions) && Admitted(db, submission, a) && Admitted(db, submission, b)
    ensures a == b
  {
    hide Insertable, Unready;
  }

  /** The request was cancelled at `t`, and then every target compensated once. */
  ghost predicate CancelledThenSettled(db: Db, db': Db, e: EmployeeId, r: RequestId, t: Time)
  {
    t > db.clock && Round(MarkCancelled(CancelPending(db, r, t), r, t), db', e, r)
  }

  /** What the decision leaves in the tables. */
  ghost predicate Decided(db: Db, db': Db, submission: Submission, answer: Answer, t: Time)
  {
    && (answer.Ran? ==> db' == Begin(db, submission, t))
    && (answer.Replay? ==> forall r :: StoredUnder(db, submission.key, r) ==>
          db' == if db.executions[r].result.None? then Refresh(db, submission.request, t) else db)
    && (!answer.Ran? && !answer.Replay? ==> db' == db)
  }

  ghost predicate Reports(steps: Steps, r: RequestId, view: ExecutionView)
  {
    view.request == r && view.state == Summary(StatesOf(steps, r)) && Listed(steps, r, view.steps)
  }

  /** A replay answers with the stored result, or else with the request as it stands; nothing
      else answers with a result before it ran. */
  ghost predicate AnswersBack(db: Db, submission: Submission, answer: Answer, stored: Option<RequestState>, result: Option<ExecutionView>)
  {
    if answer.Replay? then
      && (forall r :: StoredUnder(db, submission.key, r) ==> stored == db.executions[r].result)
      && (result.Some? <==> stored.None?)
      && (result.Some? ==> Reports(db.steps, submission.request, result.value))
    else stored.None? && result.None?
  }

  lemma TablesFacts(db: Db)
    requires TablesOk(db)
    ensures Keyed(db.executions, db.steps) && KeysUnique(db.executions) && FinishTimesUnique(db.steps) && SequencesUnique(db.steps)
  {
  }

  lemma SubmitMoves(db: Db, adapters: set<TargetSystem>, task: Task, submission: Submission, answer: Answer, t: Time, db': Db)
    requires task.pc.Entered? && task.job == Protocol.Submit(submission) && task.employee == submission.employee
    requires TablesOk(db) && Admitted(db, submission, answer) && Decided(db, db', submission, answer, t)
    ensures Acts(db, adapters, task, BeginRequest, t, if answer.Ran? then Claiming else Leaving, db',
                 if answer.Ran? then [Created(submission)] else [])
    ensures !answer.Ran? ==> db'.steps == db.steps
    ensures answer.Ran? ==> |Unfinished(db'.steps, submission.request)| <= |submission.steps|
  {
    TablesFacts(db);
    hide TablesOk;
    if answer.Ran? {
      BeginUnfinished(db, submission, t);
    }
    RefreshSteps(db, submission.request, t);
    hide Insertable, ActivationReady, Refresh, Begin, AccessSystems, Unfinished, Keyed;
  }

  lemma RunBegins(db: Db, adapters: set<TargetSystem>, task: Task, t: Time)
    requires task.pc.Entered? && (task.job.Work? || task.job.Recover?)
    ensures Acts(db, adapters, task, BeginRun, t, Claiming, db, [])
  {
  }

  lemma SettlingBegins(db: Db, adapters: set<TargetSystem>, task: Task, t: Time)
    requires task.pc.Entered? && task.job.Settle?
    ensures Acts(db, adapters, task, BeginSettling, t, Compensating(CompensationTargets(db.steps, task.request)), db, [])
  {
  }

  /** Taking its last lock puts a task where its course starts. */
  lemma LocksTaken(s: State, a: Action, s': State, t: TaskId)
    requires SystemOk(s) && Step(s, a, s') && (a == TakeRequest(t) || a == TakeEmployee(t))
    requires t in s'.tasks && s'.tasks[t].pc.Entered?
    ensures TablesOk(s'.db) && TaskOk(s'.db, s'.tasks[t]) && s'.db == s.db
    ensures TaskAt(Course(s'.adapters, s'.tasks[t], Entered, s'.db), Entered) == s'.tasks[t]
  {
    StepKeepsSystem(s, a, s');
    hide SystemOk;
    TaskFacts(s', t);
  }

  /** Reading the request back does not change what a round recorded. */
  lemma RoundRead(start: Db, db: Db, db': Db, e: EmployeeId, r: RequestId)
    requires Round(start, db, e, r) && Undisturbed(db, db', e) && OwnedBy(db.executions, e, r) && db'.steps == db.steps
    ensures Round(start, db', e, r)
    ensures r in start.executions && start.executions[r].cancelledAt.Some? ==>
      r in db'.executions && db'.executions[r].cancelledAt.Some?
  {
    RoundKeeps(start, db, e, r);
    RoundWaits(start, db, db', e, r, CompensationTargets(start.steps, r));
  }

  lemma {:induction false} FewStepIds(commands: seq<Command>)
    ensures |StepIds(commands)| <= |commands|
  {
    if commands != [] {
      FewStepIds(commands[..|commands| - 1]);
      StepIdsSnoc(commands);
    } else {
      NoStepIds();
    }
  }

  lemma BeginUnfinished(db: Db, submission: Submission, t: Time)
    requires Keyed(db.executions, db.steps) && Insertable(db, submission)
    ensures |Unfinished(Begin(db, submission, t).steps, submission.request)| <= |submission.steps|
  {
    InsertRowsAre(db.steps, submission.steps, t);
    hide InsertRows;
    FewStepIds(submission.steps);
    var unfinished := Unfinished(Begin(db, submission, t).steps, submission.request);
    assert unfinished <= StepIds(submission.steps);
    SubsetIsSmaller(unfinished, StepIds(submission.steps));
  }

  lemma {:induction false} SubsetIsSmaller<T>(a: set<T>, b: set<T>)
    requires a <= b
    ensures |a| <= |b|
  {
    if a != {} {
      var x :| x in a;
      SubsetIsSmaller(a - {x}, b - {x});
    }
  }

  lemma RetryMoves(db: Db, adapters: set<TargetSystem>, task: Task, pick: Option<StepId>, t: Time, db': Db)
    requires task.pc.Entered? && task.job.Retry? && StepsOk(db.steps)
    requires pick.Some? ==> RetryPick(db.steps, task.request, pick.value) && db' == Reschedule(db, pick.value, t)
    requires pick.None? ==> (forall s :: !RetryPick(db.steps, task.request, s)) && db' == Refresh(db, task.request, t)
    ensures Acts(db, adapters, task, RetryRequest(pick), t, if pick.Some? then Claiming else Leaving, db',
                 if pick.Some? then [Rescheduled(db.steps[pick.value].command)] else [])
    ensures pick.Some? <==> exists s :: IsFrontier(db.steps, task.request, s) && Retryable(db.steps[s])
    ensures pick.Some? ==> Unfinished(db'.steps, task.request) == Unfinished(db.steps, task.request)
  {
    hide RetryPick, StepsOk, Refresh, Acts, Reschedule, Retryable;
    forall s
      ensures RetryPick(db.steps, task.request, s) <==> IsFrontier(db.steps, task.request, s) && Retryable(db.steps[s])
    {
      RetrySeesFrontier(db.steps, task.request, s);
    }
    if pick.Some? {
      RescheduleStays(db, task.request, pick.value, t);
    }
    RetryActs(db, adapters, task, pick, t, db');
  }

  lemma RescheduleStays(db: Db, r: RequestId, s: StepId, t: Time)
    requires RetryPick(db.steps, r, s)
    ensures InRequest(db.steps, r, s) && Unfinished(Reschedule(db, s, t).steps, r) == Unfinished(db.steps, r)
  {
  }

  lemma RetryActs(db: Db, adapters: set<TargetSystem>, task: Task, pick: Option<StepId>, t: Time, db': Db)
    requires task.pc.Entered? && task.job.Retry?
    requires pick.Some? ==> RetryPick(db.steps, task.request, pick.value) && db' == Reschedule(db, pick.value, t)
    requires pick.None? ==> (forall s :: !RetryPick(db.steps, task.request, s)) && db' == Refresh(db, task.request, t)
    ensures Acts(db, adapters, task, RetryRequest(pick), t, if pick.Some? then Claiming else Leaving, db',
                 if pick.Some? then [Rescheduled(db.steps[pick.value].command)] else [])
  {
    hide Refresh, Reschedule;
  }

  lemma CancelMoves(db: Db, adapters: set<TargetSystem>, task: Task, t: Time)
    requires task.pc.Entered? && task.job.Cancel?
    ensures var after := MarkCancelled(CancelPending(db, task.request, t), task.request, t);
      Acts(db, adapters, task, CancelRequest, t, Compensating(CompensationTargets(after.steps, task.request)), after,
           [CancelledRequest(task.request)])
  {
  }

  /** What cancellation dropped stays dropped while the request is compensated. */
  lemma CancelHolds(db: Db, after: Db, end: Db, r: RequestId, e: EmployeeId, t: Time)
    requires after == MarkCancelled(CancelPending(db, r, t), r, t) && Round(after, end, e, r)
    ensures forall s, later :: !Claimable(end.steps, r, s, later)
    ensures forall s :: InRequest(db.steps, r, s) && !Waiting(db.steps[s].state) ==>
      s in end.steps && end.steps[s] == db.steps[s]
  {
    RoundKeeps(after, end, e, r);
    hide Round;
    forall s, later
      ensures !Claimable(end.steps, r, s, later)
      ensures InRequest(db.steps, r, s) && !Waiting(db.steps[s].state) ==> InRequest(after.steps, r, s) && after.steps[s] == db.steps[s]
    {
      NothingWaitsAfterCancel(db, r, t, s, later);
      if Claimable(end.steps, r, s, later) {
        ClaimableFacts(end.steps, r, s, later);
      }
    }
  }

  // ---------------------------------------------------------------- facts about verification

  datatype Checked = Confirms | Denies | Aborts

  /** The evidence on the step's system is that step's, and it is the current candidate. */
  ghost predicate Evidenced(db: Db, e: EmployeeId, s: StepId)
  {
    && s in db.steps
    && var sys := db.steps[s].command.system;
       (e, sys) in db.verifications && db.verifications[(e, sys)].source == s && Candidate(db.steps, e, sys, s)
  }

  /** Only the record of the step's system may have changed for the employee. */
  ghost predicate OnlyChecked(db: Db, db': Db, e: EmployeeId, s: StepId)
  {
    && SameRows(db.steps, db'.steps, e)
    && OfEmployee(db.steps, e, s)
    && forall sys :: sys != db.steps[s].command.system ==>
         && ((e, sys) in db.verifications <==> (e, sys) in db'.verifications)
         && ((e, sys) in db.verifications ==> db'.verifications[(e, sys)] == db.verifications[(e, sys)])
  }

  /** How a check ends, given what its adapter said and whether the step is current. */
  ghost predicate Verdicts(checked: Checked, verdict: Option<Verdict>, current: bool)
  {
    && (checked.Confirms? <==> verdict.Some? && verdict.value.Confirmed? && current)
    && (checked.Denies? <==> verdict == Some(NotConfirmed))
  }

  /** The command a check sends to the adapter of a step. */
  function CheckOf(original: Command, key: Key): (command: Command)
    ensures command.operation.Verify? && command.stepId == original.stepId && command.system == original.system
  {
    original.(operation := Verify, key := "verify:" + key + ":" + original.stepId,
              payload := Payloads.Overlay(if original.payload.Object? then original.payload else Payloads.EMPTY,
                                          Payloads.Object(map["external_verification" := Payloads.Bool(true)])))
  }

  lemma ExternalFlag(payload: Payloads.Json)
    ensures var flag := map["external_verification" := Payloads.Bool(true)];
      && (payload.Object? ==> payload.fields + flag == payload.fields["external_verification" := Payloads.Bool(true)])
      && map[] + flag == flag
  {
  }

  ghost predicate AnsweredBetween(world: World, start: nat, end: nat, command: Command, verdict: Option<Verdict>)
  {
    verdict.Some? ==> exists k :: start <= k < end && verdict.value == world.verdict(k, command)
  }

  ghost predicate AllAnswered(world: World, start: nat, end: nat, steps: Steps, key: Key, verdicts: map<StepId, Verdict>)
  {
    forall s :: s in verdicts ==>
      s in steps && AnsweredBetween(world, start, end, CheckOf(steps[s].command, key), Some(verdicts[s]))
  }

  /** The step is its system's current candidate and its adapter confirmed it. */
  ghost predicate ConfirmedCandidate(steps: Steps, e: EmployeeId, s: StepId, verdicts: map<StepId, Verdict>)
  {
    && s in steps && Candidate(steps, e, steps[s].command.system, s)
    && s in verdicts && verdicts[s].Confirmed?
  }

  lemma NothingAnswered(world: World, start: nat, end: nat, steps: Steps, key: Key)
    ensures AllAnswered(world, start, end, steps, key, map[])
  {
  }

  lemma AnsweredSooner(world: World, start: nat, mid: nat, end: nat, steps: Steps, key: Key, verdicts: map<StepId, Verdict>)
    requires start <= mid && AllAnswered(world, mid, end, steps, key, verdicts)
    ensures AllAnswered(world, start, end, steps, key, verdicts)
  {
    forall s | s in verdicts
      ensures AnsweredBetween(world, start, end, CheckOf(steps[s].command, key), Some(verdicts[s]))
    {
      var k :| mid <= k < end && verdicts[s] == world.verdict(k, CheckOf(steps[s].command, key));
      assert start <= k < end;
    }
  }

  lemma OneMoreAnswer(world: World, start: nat, asked: nat, end: nat, steps: Steps, key: Key, verdicts: map<StepId, Verdict>,
                      s: StepId, verdict: Option<Verdict>)
    requires start <= asked <= end && AllAnswered(world, start, asked, steps, key, verdicts)
    requires s in steps && AnsweredBetween(world, asked, end, CheckOf(steps[s].command, key), verdict)
    ensures AllAnswered(world, start, end, steps, key, if verdict.Some? then verdicts[s := verdict.value] else verdicts)
  {
    hide CheckOf;
    var longer := if verdict.Some? then verdicts[s := verdict.value] else verdicts;
    forall o | o in longer
      ensures o in steps && AnsweredBetween(world, start, end, CheckOf(steps[o].command, key), Some(longer[o]))
    {
      if verdict.Some? && o == s {
        var k :| asked <= k < end && verdict.value == world.verdict(k, CheckOf(steps[s].command, key));
        assert start <= k < end;
      } else {
        var k :| start <= k < asked && verdicts[o] == world.verdict(k, CheckOf(steps[o].command, key));
        assert start <= k < end;
      }
    }
  }

  lemma OtherIds(steps: Steps, commands: seq<Command>, i: nat)
    requires i < |commands| && OnePerSystem(steps, commands)
    ensures forall j :: 0 <= j < |commands| && j != i ==> commands[j].stepId != commands[i].stepId
  {
    forall j | 0 <= j < |commands| && j != i
      ensures commands[j].system != commands[i].system
    {
      assert i < j || j < i;
    }
  }

  /** One more check leaves all confirmed exactly when all were and it confirms. */
  lemma OneMoreVerdict(steps: Steps, e: EmployeeId, commands: seq<Command>, i: nat, verdicts: map<StepId, Verdict>,
                       verdict: Option<Verdict>, checked: Checked, steps': Steps)
    requires i < |commands| && commands[i].stepId !in verdicts
    requires forall j :: 0 <= j < |commands| && j != i ==> commands[j].stepId != commands[i].stepId
    requires commands[i].stepId in steps && steps[commands[i].stepId].command == commands[i]
    requires Candidate(steps', e, commands[i].system, commands[i].stepId) <==> Candidate(steps, e, commands[i].system, commands[i].stepId)
    requires Verdicts(checked, verdict, Candidate(steps', e, commands[i].system, commands[i].stepId))
    ensures var longer := if verdict.Some? then verdicts[commands[i].stepId := verdict.value] else verdicts;
      && (forall j :: 0 <= j < |commands| && j != i ==>
            (ConfirmedCandidate(steps, e, commands[j].stepId, longer) <==> ConfirmedCandidate(steps, e, commands[j].stepId, verdicts))
            && (commands[j].stepId in longer <==> commands[j].stepId in verdicts))
      && (ConfirmedCandidate(steps, e, commands[i].stepId, longer) <==> checked.Confirms?)
  {
    hide Candidate;
  }

  lemma CandidateSame(steps: Steps, steps': Steps, e: EmployeeId, sys: TargetSystem, s: StepId)
    requires SameRows(steps, steps', e)
    ensures Candidate(steps', e, sys, s) <==> Candidate(steps, e, sys, s)
  {
    if Candidate(steps, e, sys, s) {
      CandidateStays(steps, steps', e, sys, s);
    }
    if Candidate(steps', e, sys, s) {
      assert OfEmployee(steps', e, s);
      forall o
        ensures Provisioning(steps, e, sys, o) <==> Provisioning(steps', e, sys, o)
        ensures Provisioning(steps, e, sys, o) ==> steps'[o] == steps[o]
      {
        assert OfEmployee(steps, e, o) <==> OfEmployee(steps', e, o);
      }
    }
  }

  lemma StaleTarget(steps: Steps, e: EmployeeId, commands: seq<Command>, verdicts: map<StepId, Verdict>)
    requires OnePerSystem(steps, commands)
    requires exists i :: 0 <= i < |commands| && !Candidate(steps, e, commands[i].system, commands[i].stepId)
    ensures exists s :: s in StepIds(commands) && !ConfirmedCandidate(steps, e, s, verdicts)
  {
    hide Candidate;
    var i :| 0 <= i < |commands| && !Candidate(steps, e, commands[i].system, commands[i].stepId);
    assert commands[i].stepId in StepIds(commands);
    assert !ConfirmedCandidate(steps, e, commands[i].stepId, verdicts);
  }

  lemma AllTargets(steps: Steps, e: EmployeeId, commands: seq<Command>, verdicts: map<StepId, Verdict>)
    ensures (forall j :: 0 <= j < |commands| ==> ConfirmedCandidate(steps, e, commands[j].stepId, verdicts)) <==>
              forall s :: s in StepIds(commands) ==> ConfirmedCandidate(steps, e, s, verdicts)
  {
    hide ConfirmedCandidate;
    forall j | 0 <= j < |commands|
      ensures commands[j].stepId in StepIds(commands)
    {
    }
  }

  lemma RecordingSteps(db: Db, e: EmployeeId, sys: TargetSystem, s: StepId, evidence: string, t: Time)
    ensures RecordVerification(db, e, sys, s, evidence, t).steps == db.steps
  {
  }

  lemma CandidateStays(steps: Steps, steps': Steps, e: EmployeeId, sys: TargetSystem, s: StepId)
    requires SameRows(steps, steps', e) && Candidate(steps, e, sys, s)
    ensures Candidate(steps', e, sys, s)
  {
    forall o | Provisioning(steps', e, sys, o)
      ensures OfEmployee(steps, e, o) && steps'[o] == steps[o]
    {
      assert OfEmployee(steps', e, o);
    }
  }

  /** A check of one system leaves the evidence on the others. */
  lemma EvidenceStays(db: Db, db': Db, e: EmployeeId, s: StepId, o: StepId)
    requires OnlyChecked(db, db', e, s) && Evidenced(db, e, o) && db.steps[o].command.system != db.steps[s].command.system
    ensures Evidenced(db', e, o)
  {
    CandidateStays(db.steps, db'.steps, e, db.steps[o].command.system, o);
    assert OfEmployee(db.steps, e, o);
  }

  lemma CheckStarts(db: Db, adapters: set<TargetSystem>, task: Task, s: StepId, t: Time)
    requires task.pc.Verifying? && s in task.pc.todo && s in db.steps
    ensures var known := db.steps[s].command.system in adapters;
      Acts(db, adapters, task, CheckStep(s), t, if known then CallingCheck(s, task.pc.todo - {s}) else Leaving, db,
           if known then [Started(Check, db.steps[s].command, Verify)] else [])
  {
  }

  lemma CheckEnds(db: Db, adapters: set<TargetSystem>, task: Task, s: StepId, verdict: Verdict, accepted: bool, t: Time, db': Db)
    requires task.pc.CallingCheck? && task.pc.step == s && s in db.steps
    requires accepted <==> verdict.Confirmed? && Candidate(db.steps, task.employee, db.steps[s].command.system, s)
    requires db' == if accepted then RecordVerification(db, task.employee, db.steps[s].command.system, s, verdict.evidence, t) else db
    ensures var command := db.steps[s].command;
      Acts(db, adapters, task, CheckReturn(verdict), t, if accepted || verdict.NotConfirmed? then Verifying(task.pc.todo) else Leaving, db',
           if accepted then [Ended(Check, command), Accepted(command)] else [Ended(Check, command)])
  {
    hide Candidate, RecordVerification;
  }

  lemma ChecksBegin(db: Db, adapters: set<TargetSystem>, task: Task, commands: seq<Command>, current: bool, t: Time)
    requires task.pc.Entered? && task.job.VerifyNow?
    requires StepIds(commands) == VerificationTargets(db.steps, task.request) && OnePerSystem(db.steps, commands)
    requires current <==> forall i :: 0 <= i < |commands| ==>
      Candidate(db.steps, task.employee, commands[i].system, commands[i].stepId)
    ensures Acts(db, adapters, task, BeginChecks, t, if current then Verifying(StepIds(commands)) else Leaving, db, [])
  {
    hide Candidate, LastFinished;
    forall i | 0 <= i < |commands|
      ensures commands[i].stepId in StepIds(commands)
    {
    }
  }

  lemma CheckedStep(db: Db, task: Task, s: StepId)
    requires TablesOk(db) && TaskOk(db, task)
    ensures task.pc.Verifying? && s in task.pc.todo ==> OfEmployee(db.steps, task.employee, s)
    ensures task.pc.CallingCheck? && s == task.pc.step ==> OfEmployee(db.steps, task.employee, s)
  {
    if (task.pc.Verifying? && s in task.pc.todo) || (task.pc.CallingCheck? && s == task.pc.step) {
      TaskStep(db, task, s);
    }
  }

  lemma NothingChecked(db: Db, e: EmployeeId, s: StepId)
    requires OfEmployee(db.steps, e, s)
    ensures OnlyChecked(db, db, e, s)
  {
  }

  lemma WaitChecked(db: Db, db': Db, e: EmployeeId, s: StepId)
    requires Undisturbed(db, db', e) && OfEmployee(db.steps, e, s)
    ensures OnlyChecked(db, db', e, s) && OfEmployee(db'.steps, e, s) && db'.steps[s] == db.steps[s]
  {
    hide TablesOk, Evolves;
  }

  /** Accepted evidence is stored, and it is the step's. */
  lemma EvidenceStored(start: Db, db: Db, e: EmployeeId, s: StepId, evidence: string, t: Time)
    requires OnlyChecked(start, db, e, s) && s in db.steps && Candidate(db.steps, e, db.steps[s].command.system, s)
    ensures var after := RecordVerification(db, e, db.steps[s].command.system, s, evidence, t);
      OnlyChecked(start, after, e, s) && Evidenced(after, e, s)
  {
    hide Candidate;
  }

  lemma NoRowsChanged(steps: Steps, e: EmployeeId)
    ensures SameRows(steps, steps, e)
  {
  }

  lemma RowsToSteps(db: Db, db': Db, task: Task)
    requires TablesOk(db) && TablesOk(db') && Known(db, task) && Known(db', task)
    requires SameRows(db.steps, db'.steps, task.employee)
    ensures SameSteps(db.steps, db'.steps, task.request)
  {
    forall s | InRequest(db.steps, task.request, s)
      ensures s in db'.steps && db'.steps[s] == db.steps[s]
    {
      TaskStep(db, task, s);
    }
    forall s | InRequest(db'.steps, task.request, s)
      ensures InRequest(db.steps, task.request, s)
    {
      TaskStep(db', task, s);
      assert OfEmployee(db'.steps, task.employee, s);
      assert OfEmployee(db.steps, task.employee, s);
    }
  }

  /** The step to check is still there, as it was. */
  lemma CheckTarget(start: Steps, db: Db, task: Task, s: StepId)
    requires TablesOk(db) && TaskOk(db, task) && task.pc.Verifying? && s in task.pc.todo
    requires SameRows(start, db.steps, task.employee)
    ensures s in start && s in db.steps && db.steps[s] == start[s]
  {
    CheckedStep(db, task, s);
    assert OfEmployee(db.steps, task.employee, s);
    assert OfEmployee(start, task.employee, s);
  }

  lemma CheckedRows(start: Steps, db: Db, db': Db, e: EmployeeId, s: StepId)
    requires SameRows(start, db.steps, e) && OnlyChecked(db, db', e, s)
    ensures SameRows(start, db'.steps, e)
  {
  }

  lemma TargetCommand(start: Steps, commands: seq<Command>, i: nat)
    requires i < |commands| && OnePerSystem(start, commands)
    ensures commands[i].stepId in start && start[commands[i].stepId].command == commands[i]
  {
  }

  /** A check leaves the evidence of the earlier ones. */
  lemma OthersEvidenceStays(start: Steps, db: Db, db': Db, e: EmployeeId, commands: seq<Command>, i: nat)
    requires i < |commands| && OnePerSystem(start, commands) && SameRows(start, db.steps, e)
    requires OnlyChecked(db, db', e, commands[i].stepId)
    ensures forall j :: 0 <= j < i && Evidenced(db, e, commands[j].stepId) ==> Evidenced(db', e, commands[j].stepId)
  {
    assert OfEmployee(db.steps, e, commands[i].stepId);
    forall j | 0 <= j < i && Evidenced(db, e, commands[j].stepId)
      ensures Evidenced(db', e, commands[j].stepId)
    {
      CandidateOwned(db.steps, e, db.steps[commands[j].stepId].command.system, commands[j].stepId);
      hide Candidate;
      assert OfEmployee(start, e, commands[i].stepId) && OfEmployee(start, e, commands[j].stepId);
      EvidenceStays(db, db', e, commands[i].stepId, commands[j].stepId);
    }
  }

  lemma CandidateOwned(steps: Steps, e: EmployeeId, sys: TargetSystem, s: StepId)
    requires Candidate(steps, e, sys, s)
    ensures OfEmployee(steps, e, s)
  {
  }

  lemma TargetsAre(commands: seq<Command>)
    ensures StepIds(commands) == {} <==> commands == []
    ensures forall s :: s in StepIds(commands) ==> exists i :: 0 <= i < |commands| && commands[i].stepId == s
  {
    if commands != [] {
      assert commands[0].stepId in StepIds(commands);
    }
  }

  // ---------------------------------------------------------------- facts about compensation

  lemma RoundFacts(start: Db, db: Db, e: EmployeeId, r: RequestId, done: set<StepId>, s: StepId)
    requires RoundOver(start, db, e, r, done) && OfEmployee(start.steps, e, s) && InRequest(start.steps, r, s)
    ensures InRequest(db.steps, r, s) && db.steps[s] == start.steps[s]
    ensures Superseded(db.steps, e, r, s) <==> Superseded(start.steps, e, r, s)
  {
    forall o
      ensures Supersedes(db.steps, e, r, s, o) <==> Supersedes(start.steps, e, r, s, o)
    {
      if OfEmployee(db.steps, e, o) {
        assert OfEmployee(start.steps, e, o);
      }
    }
  }

  lemma RoundSteps(start: Db, db: Db, e: EmployeeId, r: RequestId, done: set<StepId>)
    requires RoundOver(start, db, e, r, done)
    ensures SameSteps(start.steps, db.steps, r)
  {
  }

  lemma RoundKeys(db: Db, db': Db, e: EmployeeId, r: RequestId)
    requires Round(db, db', e, r)
    ensures forall s :: s in CompensationTargets(db.steps, r) ==>
      s in db.steps &&
      var key := CompensationKey(r, s, if db.steps[s].command.system.Odoo? then Update else Suspend);
      && key in db'.compensations
      && db'.compensations[key].attempts == 1 + if key in db.compensations then db.compensations[key].attempts else 0
  {
    hide Superseded, LastFinished;
    forall s | s in CompensationTargets(db.steps, r)
      ensures Attempted(db, db', e, r, s)
    {
    }
  }

  lemma RoundKeeps(db: Db, db': Db, e: EmployeeId, r: RequestId)
    requires Round(db, db', e, r)
    ensures SameSteps(db.steps, db'.steps, r)
  {
  }

  lemma RoundHasStep(db: Db, db': Db, e: EmployeeId, r: RequestId, s: StepId)
    requires Round(db, db', e, r) && InRequest(db.steps, r, s)
    ensures InRequest(db'.steps, r, s)
  {
  }

  lemma RoundStands(db: Db, db': Db, e: EmployeeId, r: RequestId)
    requires Round(db, db', e, r)
    ensures AtRest(db.steps, r) ==> AtRest(db'.steps, r)
  {
    StandingSteps(db.steps, db'.steps, r);
  }

  lemma SameStepsTransitive(a: Steps, b: Steps, c: Steps, r: RequestId)
    requires SameSteps(a, b, r) && SameSteps(b, c, r)
    ensures SameSteps(a, c, r)
  {
  }

  lemma StandingSteps(steps: Steps, steps': Steps, r: RequestId)
    requires SameSteps(steps, steps', r)
    ensures Unfinished(steps', r) == Unfinished(steps, r)
    ensures forall s :: InRequest(steps, r, s) ==> s in steps' && steps'[s] == steps[s]
    ensures forall s :: RunningIn(steps', r, s) <==> RunningIn(steps, r, s)
    ensures forall s :: IsFrontier(steps', r, s) <==> IsFrontier(steps, r, s)
    ensures Settled(steps, r) <==> Settled(steps', r)
  {
    forall s
      ensures IsFrontier(steps', r, s) <==> IsFrontier(steps, r, s)
    {
      forall p
        ensures InRequest(steps, r, s) ==> (Before(steps', p, s) <==> Before(steps, p, s))
      {
      }
    }
  }

  lemma UndisturbedRequest(db: Db, db': Db, task: Task)
    requires TablesOk(db) && Known(db, task) && Undisturbed(db, db', task.employee)
    ensures SameSteps(db.steps, db'.steps, task.request) && Known(db', task) && OwnedBy(db'.executions, task.employee, task.request)
  {
    UndisturbedParts(db, db', task.employee);
    hide Undisturbed;
    KnownStays(db, db', task);
    RowsToSteps(db, db', task);
  }

  lemma CompensationSkips(db: Db, adapters: set<TargetSystem>, task: Task, s: StepId, delay: nat, t: Time, db': Db)
    requires task.pc.Compensating? && s in task.pc.todo && InRequest(db.steps, task.request, s)
    requires Superseded(db.steps, task.employee, task.request, s) || db.steps[s].command.system !in adapters
    requires db' == if Superseded(db.steps, task.employee, task.request, s)
      then RecordCompensation(db, CompensationOf(db, task, s), CompSuperseded, None, t)
      else RecordCompensation(db, CompensationOf(db, task, s), CompFailed, Some(delay), t)
    ensures Acts(db, adapters, task, CompensateStep(s, delay), t, Compensating(task.pc.todo - {s}), db', [])
  {
    hide Superseded, RecordCompensation;
  }

  lemma CompensationStarts(db: Db, adapters: set<TargetSystem>, task: Task, s: StepId, delay: nat, t: Time)
    requires task.pc.Compensating? && s in task.pc.todo && InRequest(db.steps, task.request, s)
    requires !Superseded(db.steps, task.employee, task.request, s) && db.steps[s].command.system in adapters
    ensures Acts(db, adapters, task, CompensateStep(s, delay), t, CallingCompensation(s, task.pc.todo - {s}), db,
                 [Started(Compensation, db.steps[s].command, CompensatingAction(db.steps[s].command.system))])
  {
    hide Superseded;
  }

  lemma CompensationEnds(db: Db, adapters: set<TargetSystem>, task: Task, s: StepId, succeeded: bool, delay: nat, t: Time, db': Db)
    requires task.pc.CallingCompensation? && task.pc.step == s && s in db.steps
    requires db' == if succeeded then RecordCompensation(db, CompensationOf(db, task, s), CompSucceeded, None, t)
                    else RecordCompensation(db, CompensationOf(db, task, s), CompFailed, Some(delay), t)
    ensures Acts(db, adapters, task, CompensationReturn(succeeded, delay), t, Compensating(task.pc.todo), db',
                 [Ended(Compensation, db.steps[s].command)])
  {
    hide RecordCompensation;
  }

  lemma FinishMoves(db: Db, adapters: set<TargetSystem>, task: Task, t: Time)
    requires task.pc == Compensating({}) || task.pc == Verifying({})
    ensures Acts(db, adapters, task, Finish, t, Leaving, db, [])
  {
  }

  lemma NoStepIds()
    ensures StepIds([]) == {}
  {
  }

  /** Commands already handled and commands still to handle are different steps. */
  lemma StepIdsAround(steps: Steps, commands: seq<Command>, i: nat)
    requires i < |commands| && OnePerSystem(steps, commands)
    ensures commands[i].stepId in StepIds(commands[i..]) && commands[i].stepId !in StepIds(commands[..i])
    ensures StepIds(commands[i + 1..]) == StepIds(commands[i..]) - {commands[i].stepId}
    ensures StepIds(commands[..i + 1]) == StepIds(commands[..i]) + {commands[i].stepId}
  {
    var rest := commands[i + 1..];
    assert commands[i..] == [commands[i]] + rest;
    StepIdsCons(commands[i], rest);
    assert commands[..i + 1][..i] == commands[..i] && commands[..i + 1][i] == commands[i];
    StepIdsSnoc(commands[..i + 1]);
    forall k | 0 <= k < |rest|
      ensures rest[k].stepId != commands[i].stepId
    {
      assert rest[k] == commands[i + 1 + k];
    }
  }

  lemma StepIdsCons(command: Command, rest: seq<Command>)
    ensures StepIds([command] + rest) == {command.stepId} + StepIds(rest)
  {
    var longer := [command] + rest;
    assert longer[0] == command;
    forall k | 0 <= k < |rest|
      ensures rest[k].stepId in StepIds(longer)
    {
      assert longer[k + 1] == rest[k];
    }
  }

  lemma TargetsOwned(db: Db, task: Task, commands: seq<Command>)
    requires TablesOk(db) && Known(db, task) && StepIds(commands) == CompensationTargets(db.steps, task.request)
    requires OnePerSystem(db.steps, commands)
    ensures forall i :: 0 <= i < |commands| ==>
      && InRequest(db.steps, task.request, commands[i].stepId)
      && db.steps[commands[i].stepId].command == commands[i] && commands[i].employee == task.employee
  {
    forall i | 0 <= i < |commands|
      ensures InRequest(db.steps, task.request, commands[i].stepId) && commands[i].employee == task.employee
    {
      assert commands[i].stepId in StepIds(commands);
      TaskStep(db, task, commands[i].stepId);
    }
  }

  /** Where a coroutine stands after a step of it that did not go on. */
  datatype Next = Call | Undo | Stop

  ghost function After(next: Next, steps: Steps, r: RequestId): Pc
  {
    if next.Undo? then Compensating(CompensationTargets(steps, r)) else Leaving
  }

  ghost predicate AtRest(steps: Steps, r: RequestId)
  {
    Settled(steps, r) && forall o :: !RunningIn(steps, r, o)
  }

  lemma Rests(steps: Steps, r: RequestId, s: StepId)
    requires StepsOk(steps)
    ensures InRequest(steps, r, s) && (steps[s].state.RetryWait? || steps[s].state.DeadLetter?) ==> AtRest(steps, r)
  {
    if InRequest(steps, r, s) && (steps[s].state.RetryWait? || steps[s].state.DeadLetter?) {
      AttemptSettles(steps, r, s);
    }
  }

  /** What the adapter answered, as the engine records it. */
  predicate Reported(reply: Reply, outcome: Outcome)
  {
    match reply
    case Succeeds(evidence) => outcome == Success(evidence)
    case FailsForNow(code) => outcome.AdapterError? && outcome.code == code && outcome.retry.Transient?
    case FailsForGood(code) => outcome == AdapterError(code, Permanent, None)
    case Crashes => outcome == AdapterError("adapter_unclassified_failure", Permanent, None)
  }

  /** The step would grant access that may not be granted yet. */
  ghost predicate Ungranted(db: Db, command: Command)
  {
    GrantsAccess(command.operation) &&
    !ActivationReady(db.steps, db.verifications, command.employee, {command.system})
  }

  /** The instant `attempts` failed attempts put the next one off to. */
  function WaitUntil(at: Time, base: nat, attempts: nat): Time
  {
    at + Backoff(base, attempts) * SECOND
  }

  /** The command a compensation sends to the adapter of a step: on Odoo an update that removes
      excess access, everywhere else a suspension. */
  function UndoOf(r: RequestId, original: Command): (command: Command)
    ensures command.operation.Update? <==> original.system.Odoo?
    ensures command.operation.Suspend? <==> !original.system.Odoo?
    ensures command.stepId == original.stepId && command.system == original.system
  {
    var action := CompensatingAction(original.system);
    original.(
      operation := action,
      key := "compensate:" + r + ":" + original.stepId + ":" + Named(action),
      payload := Payloads.Object(map["compensation" := Payloads.Text(
        match original.system
        case Odoo => "remove_excess_access"
        case AgentDesktop => "revoke_sessions"
        case _ => "suspend")]))
  }

  function Named(action: Operation): string
  {
    if action.Update? then "update" else "suspend"
  }

  /** The row a compensating action leaves: under "update" on Odoo and "suspend" elsewhere, and
      due again, if it failed, after the bounded doubling wait for its attempts. */
  predicate Recorded(db: Db, r: RequestId, original: Command, state: CompensationState, delay: nat)
  {
    var key := CompensationKey(r, original.stepId, if original.system.Odoo? then Update else Suspend);
    && key in db.compensations
    && var row := db.compensations[key];
       && row.state == state && row.attempts >= 1
       && var wait := delay * Power2(row.attempts - 1);
          row.nextRetryAt == if state.CompFailed? then Some(db.clock + (if wait < 300 then wait else 300) * 1_000_000) else None
  }

  lemma RecordIs(db: Db, r: RequestId, original: Command, state: CompensationState, delay: Option<nat>, base: nat, t: Time)
    requires delay == if state.CompFailed? then Some(base) else None
    ensures Recorded(RecordCompensation(db, CompensationKey(r, original.stepId, CompensatingAction(original.system)), state, delay, t),
                     r, original, state, base)
  {
  }

  lemma DispatchMoves(db: Db, adapters: set<TargetSystem>, task: Task, s: StepId, next: Next, t: Time, db': Db)
    requires task.pc == Gated(s) && RunningIn(db.steps, task.request, s)
    requires var command := db.steps[s].command;
      var ready := !Ungranted(db, command);
      match next
      case Stop => !ready && db' == Release(db, s, t)
      case Undo => ready && command.system !in adapters && db' == Fail(db, s, "adapter_not_registered", Permanent, None, t)
      case Call => ready && command.system in adapters && db' == db
    ensures Acts(db, adapters, task, Protocol.Dispatch, t, if next.Call? then Calling(s) else After(next, db'.steps, task.request), db',
                 match next case Stop => [Released(db.steps[s].command)] case Undo => []
                            case Call => [Started(Execution, db.steps[s].command, db.steps[s].command.operation)])
    ensures !next.Call? ==> InRequest(db'.steps, task.request, s) && (db'.steps[s].state.RetryWait? || db'.steps[s].state.DeadLetter?)
    ensures !next.Call? ==> (db'.steps[s].state.DeadLetter? <==> next.Undo?)
  {
    hide ActivationReady, CompensationTargets;
  }

  lemma ReturnMoves(db: Db, adapters: set<TargetSystem>, task: Task, s: StepId, outcome: Outcome, next: Next, t: Time, db': Db)
    requires task.pc == Calling(s) && RunningIn(db.steps, task.request, s) && StepsOk(db.steps)
    requires match outcome
      case Success(evidence) => next.Call? && db' == Complete(db, s, SuccessState(db.steps[s].command.operation), evidence, t)
      case AdapterError(code, retry, retryAt) =>
        db' == Fail(db, s, code, retry, retryAt, t) && next == if db'.steps[s].state.DeadLetter? then Undo else Stop
    ensures Acts(db, adapters, task, Protocol.Return(outcome), t, if next.Call? then Claiming else After(next, db'.steps, task.request), db',
                 if next.Call? then [Ended(Execution, db.steps[s].command), Completed(db.steps[s].command)]
                 else [Ended(Execution, db.steps[s].command)])
    ensures outcome.AdapterError? ==> s in db'.steps && db'.steps[s].state == FailureState(db.steps[s], outcome.retry)
    ensures next.Call? ==>
      && Unfinished(db'.steps, task.request) == Unfinished(db.steps, task.request) - {s}
      && forall o :: !RunningIn(db'.steps, task.request, o)
    ensures !next.Call? ==> InRequest(db'.steps, task.request, s) && (db'.steps[s].state.RetryWait? || db'.steps[s].state.DeadLetter?)
  {
    hide CompensationTargets, StepsOk;
    if outcome.Success? {
      CompletionAdvances(db, task.request, s, outcome.evidence, t);
      hide Complete;
    } else {
      hide Fail;
      FailureStops(db, s, outcome.code, outcome.retry, outcome.retryAt, t);
    }
  }

  lemma CompletionAdvances(db: Db, r: RequestId, s: StepId, evidence: string, t: Time)
    requires RunningIn(db.steps, r, s) && StepsOk(db.steps)
    ensures var steps := Complete(db, s, SuccessState(db.steps[s].command.operation), evidence, t).steps;
      Unfinished(steps, r) == Unfinished(db.steps, r) - {s} && forall o :: !RunningIn(steps, r, o)
  {
    ClaimRunsAlone(db.steps, r, s);
  }

  lemma FailureStops(db: Db, s: StepId, error: string, retry: RetryClass, retryAt: Option<Time>, t: Time)
    requires s in db.steps
    ensures var steps := Fail(db, s, error, retry, retryAt, t).steps;
      && s in steps && steps[s].command == db.steps[s].command && steps[s].state == FailureState(db.steps[s], retry)
      && (steps[s].state.RetryWait? || steps[s].state.DeadLetter?)
  {
  }

  /** A claim is the protocol's move, and either finds the request settled or marks one of
      its unfinished steps running. */
  lemma ClaimMoves(db: Db, adapters: set<TargetSystem>, task: Task, pick: Option<StepId>, t: Time, db': Db)
    requires task.pc.Claiming? && StepsOk(db.steps)
    requires pick.None? ==> db' == db && (Blocked(db.steps, task.request) || forall s :: !Claimable(db.steps, task.request, s, t))
    requires pick.Some? ==> Claimable(db.steps, task.request, pick.value, t) && db' == Tables.Claim(db, pick.value, t)
    ensures pick.None? ==> Settled(db.steps, task.request) && Acts(db, adapters, task, ClaimNext(pick), t, Leaving, db', [])
    ensures pick.Some? ==> var s := pick.value;
      && s in Unfinished(db.steps, task.request) && Unfinished(db'.steps, task.request) == Unfinished(db.steps, task.request)
      && db'.steps == db.steps[s := ClaimedRow(db.steps[s], t)] && RunningIn(db'.steps, task.request, s)
      && Acts(db, adapters, task, ClaimNext(pick), t, Gated(s), db', [Claimed(db.steps[s].command)])
  {
    hide Blocked, Claimable, StepsOk, Settled;
    if pick.None? {
      NothingToClaim(db.steps, task.request, t);
    } else {
      ClaimableFacts(db.steps, task.request, pick.value, t);
      ClaimSeesFrontier(db.steps, task.request, pick.value, t);
      ClaimMarks(db, task.request, pick.value, t);
      hide Tables.Claim, Unfinished;
    }
  }

  lemma ClaimMarks(db: Db, r: RequestId, s: StepId, t: Time)
    requires InRequest(db.steps, r, s) && Waiting(db.steps[s].state)
    ensures var steps := Tables.Claim(db, s, t).steps;
      && steps == db.steps[s := ClaimedRow(db.steps[s], t)] && RunningIn(steps, r, s)
      && s in Unfinished(db.steps, r) && Unfinished(steps, r) == Unfinished(db.steps, r)
  {
  }

  lemma CourseFacts(c: Course, path: seq<Hop>, pc: Pc, db: Db)
    requires OnCourse(c, path, pc, db)
    ensures TablesOk(db) && TaskOk(db, TaskAt(c, pc))
    ensures Keyed(db.executions, db.steps) && KeysUnique(db.executions)
    ensures StepsOk(db.steps) && SequencesUnique(db.steps) && FinishTimesUnique(db.steps)
    ensures Working(pc) || !c.task.job.Submit? ==> Known(db, c.task)
  {
  }
}
