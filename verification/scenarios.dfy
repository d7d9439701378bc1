/** Two runs, step by step, into the corners the invariants leave open: a crash that takes a
    step beyond its attempt limit and leaves a compensation behind, and a cancelled request
    that a manual retry runs again. */
module Scenarios {
  import opened Contracts
  import opened Tables
  import opened Frontier
  import opened Protocol
  import opened Views
  import opened Rounds
  import Payloads

  /** Some run leads to the state. */
  ghost predicate Reached(s: State)
  {
    exists run: Run, n: nat :: IsRun(run) && n < |run.states| && run.states[n] == s
  }

  lemma Starts(s: State)
    requires Init(s)
    ensures Reached(s)
  {
    var run := Run([s], []);
    assert IsRun(run) && run.states[0] == s;
  }

  lemma Goes(s: State, a: Action, s': State)
    requires Reached(s) && Step(s, a, s')
    ensures Reached(s')
  {
    hide Step, Init;
    var run: Run, n: nat :| IsRun(run) && n < |run.states| && run.states[n] == s;
    var longer := Run(run.states[..n + 1] + [s'], run.actions[..n] + [a]);
    forall i | 0 <= i < |longer.actions|
      ensures Step(longer.states[i], longer.actions[i], longer.states[i + 1])
    {
      if i < n {
        assert Step(run.states[i], run.actions[i], run.states[i + 1]);
      }
    }
    assert IsRun(longer) && longer.states[n + 1] == s';
  }

  lemma Acted(s: State, t: TaskId, move: Move, now: Time, pc: Pc, db: Db, events: seq<Event>)
    requires Reached(s) && t in s.tasks && now > s.db.clock
    requires Acts(s.db, s.adapters, s.tasks[t], move, now, pc, db, events)
    ensures Reached(Moved(s, t, pc).(db := db, log := s.log + events))
  {
    hide Reached, Acts;
    Goes(s, Act(t, move, now, pc, db, events), Moved(s, t, pc).(db := db, log := s.log + events));
  }

  // ---------------------------------------------------------------- one request, two steps

  function CommandOf(id: StepId, operation: Operation, sequence: nat, attempts: nat): Command
  {
    Command(id, "request", "someone", Odoo, operation, sequence, attempts, id, Payloads.EMPTY)
  }

  const ONE := CommandOf("one", CreateDisabled, 0, 1)
  const TWO := CommandOf("two", Update, 1, 1)
  const BOTH := Submission("request", "someone", "correlation", "key", [ONE, TWO])

  lemma SoundSubmission(submission: Submission)
    requires submission == BOTH
    ensures WellFormed(submission) && UnmixedAccess(submission) && AccessSystems(submission) == {}
  {
    assert Payloads.NestedKeys(Payloads.EMPTY) == {};
    Payloads.ReferenceExemptionIsIdle(Payloads.EMPTY);
    hide Payloads.NoInlineSecrets;
  }

  /** The states of the request's two steps, with the attempts of the second. */
  ghost predicate Two(db: Db, one: StepState, two: StepState, attempts: nat)
  {
    && db.steps.Keys == {"one", "two"}
    && db.steps["one"].command == ONE && db.steps["one"].state == one
    && db.steps["two"].command == TWO && db.steps["two"].state == two && db.steps["two"].attempts == attempts
    && (one.Pending? ==> db.steps["one"].nextRetryAt.None?) && (two.Pending? ==> db.steps["two"].nextRetryAt.None?)
    && "request" in db.executions && db.executions["request"].submission == BOTH
  }

  // ---------------------------------------------------------------- one task at a time

  function Idle(db: Db, log: Log): State
  {
    State(db, map[], map[], map[], {Odoo}, log)
  }

  function Alone(db: Db, t: TaskId, task: Task, log: Log): State
  {
    State(db, map[t := task], map["someone" := t], if TakesRequest(task.job) then map["request" := t] else map[], {Odoo}, log)
  }

  lemma Enters(db: Db, log: Log, t: TaskId, task: Task)
    requires Reached(Idle(db, log)) && MaySpawn(db, task) && task.pc.AwaitEmployee?
    requires task.employee == "someone" && task.request == "request"
    ensures Reached(Alone(db, t, task.(pc := Entered), log))
  {
    hide Reached, MaySpawn;
    var idle := Idle(db, log);
    var spawned := idle.(tasks := map[t := task]);
    Goes(idle, Spawn(t, task), spawned);
    var locked := Moved(spawned, t, if TakesRequest(task.job) then AwaitRequest else Entered).(employeeLocks := map["someone" := t]);
    Goes(spawned, TakeEmployee(t), locked);
    if TakesRequest(task.job) {
      var entered := Moved(locked, t, Entered).(requestLocks := map["request" := t]);
      Goes(locked, TakeRequest(t), entered);
      assert entered == Alone(db, t, task.(pc := Entered), log);
    } else {
      assert locked == Alone(db, t, task.(pc := Entered), log);
    }
  }

  lemma Moves(db: Db, log: Log, t: TaskId, task: Task, move: Move, now: Time, pc: Pc, db': Db, events: seq<Event>)
    requires Reached(Alone(db, t, task, log)) && now > db.clock
    requires Acts(db, {Odoo}, task, move, now, pc, db', events)
    ensures Reached(Alone(db', t, task.(pc := pc), log + events))
  {
    hide Reached, Acts;
    var s := Alone(db, t, task, log);
    Acted(s, t, move, now, pc, db', events);
    assert Moved(s, t, pc).(db := db', log := log + events) == Alone(db', t, task.(pc := pc), log + events);
  }

  lemma Crashes(db: Db, log: Log, t: TaskId, task: Task, timeout: nat, now: Time)
    requires Reached(Alone(db, t, task, log)) && now > db.clock
    ensures Reached(Idle(RecoverStale(db, timeout, now), log + [Restarted(StaleSteps(db.steps, timeout, now))]))
  {
    hide Reached, RecoverStale, StaleSteps;
    Goes(Alone(db, t, task, log), Restart(timeout, now),
         Idle(RecoverStale(db, timeout, now), log + [Restarted(StaleSteps(db.steps, timeout, now))]));
  }

  // ---------------------------------------------------------------- what the queries see

  lemma FirstIsClaimable(db: Db, attempts: nat, t: Time)
    requires Two(db, Pending, Pending, attempts)
    ensures !Blocked(db.steps, "request") && Claimable(db.steps, "request", "one", t)
  {
  }

  lemma SecondIsClaimable(db: Db, two: StepState, attempts: nat, t: Time)
    requires Two(db, Succeeded, two, attempts) && Waiting(two) && Due(db.steps["two"].nextRetryAt, t)
    ensures !Blocked(db.steps, "request") && Claimable(db.steps, "request", "two", t)
  {
  }

  lemma FirstIsTarget(db: Db, two: StepState, attempts: nat)
    requires Two(db, Succeeded, two, attempts) && !Finished(two)
    ensures CompensationTargets(db.steps, "request") == {"one"}
    ensures !Superseded(db.steps, "someone", "request", "one")
  {
    assert LastFinished(db.steps, "request", Compensable, "one");
  }

  lemma SecondIsTarget(db: Db, attempts: nat)
    requires Two(db, Succeeded, Succeeded, attempts)
    ensures CompensationTargets(db.steps, "request") == {"two"}
  {
    assert LastFinished(db.steps, "request", Compensable, "two");
    assert !LastFinished(db.steps, "request", Compensable, "one");
  }

  // ---------------------------------------------------------------- a crash in the middle

  const SUBMITTING := Task(Submit(BOTH), "someone", "request", AwaitEmployee)
  const CANCELLING := Task(Job.Cancel, "someone", "request", AwaitEmployee)
  const RECOVERING := Task(Recover, "someone", "request", AwaitEmployee)

  /** The first step is done, the second was claimed at 5 and its task then crashed. */
  lemma Orphaned() returns (db: Db, log: Log)
    ensures Reached(Idle(db, log)) && Two(db, Succeeded, Running, 1)
    ensures db.steps["two"].claimedAt == Some(5) && db.clock == 6 && db.compensations == map[]
  {
    hide Reached, Acts, MaySpawn;
    db, log := Submitted();
    db, log := FirstDone(db, log);
    db, log := SecondClaimed(db, log);
    NothingStale(db, 1);
    Crashes(db, log, 0, SUBMITTING.(pc := Gated("two")), 100, 6);
    db, log := RecoverStale(db, 100, 6), log + [Restarted(StaleSteps(db.steps, 100, 6))];
  }

  lemma NothingStale(db: Db, attempts: nat)
    requires Two(db, Succeeded, Running, attempts) && db.steps["two"].claimedAt == Some(5)
    ensures RecoverStale(db, 100, 6) == db.(clock := 6)
  {
    assert RecoverStale(db, 100, 6).steps == db.steps;
  }

  lemma Submitted() returns (db: Db, log: Log)
    ensures Reached(Alone(db, 0, SUBMITTING.(pc := Claiming), log)) && Two(db, Pending, Pending, 0)
    ensures db.clock == 1 && db.compensations == map[]
  {
    SoundSubmission(BOTH);
    Starts(Idle(EMPTY_DB, []));
    hide Reached, WellFormed, AccessSystems, UnmixedAccess;
    Enters(EMPTY_DB, [], 0, SUBMITTING);
    db, log := Begin(EMPTY_DB, BOTH, 1), [] + [Created(BOTH)];
    BothInserted();
    hide Begin;
    assert Acts(EMPTY_DB, {Odoo}, SUBMITTING.(pc := Entered), BeginRequest, 1, Claiming, db, [Created(BOTH)]);
    Moves(EMPTY_DB, [], 0, SUBMITTING.(pc := Entered), BeginRequest, 1, Claiming, db, [Created(BOTH)]);
  }

  lemma BothInserted()
    ensures Insertable(EMPTY_DB, BOTH)
    ensures Two(Begin(EMPTY_DB, BOTH, 1), Pending, Pending, 0)
    ensures Begin(EMPTY_DB, BOTH, 1).clock == 1 && Begin(EMPTY_DB, BOTH, 1).compensations == map[]
  {
    InsertRowsAre(EMPTY_DB.steps, BOTH.steps, 1);
    hide InsertRows;
    assert BOTH.steps[0] == ONE && BOTH.steps[1] == TWO;
    assert StepIds(BOTH.steps) == {"one", "two"};
  }

  lemma FirstDone(start: Db, before: Log) returns (db: Db, log: Log)
    requires Reached(Alone(start, 0, SUBMITTING.(pc := Claiming), before)) && Two(start, Pending, Pending, 0)
    requires start.clock == 1 && start.compensations == map[]
    ensures Reached(Alone(db, 0, SUBMITTING.(pc := Claiming), log)) && Two(db, Succeeded, Pending, 0)
    ensures db.clock == 4 && db.compensations == map[]
  {
    hide Reached;
    FirstIsClaimable(start, 0, 2);
    hide Claimable, Blocked;
    var claimed := Claim(start, "one", 2);
    Moves(start, before, 0, SUBMITTING.(pc := Claiming), ClaimNext(Some("one")), 2, Gated("one"), claimed, [Claimed(ONE)]);
    log := before + [Claimed(ONE)];
    Moves(claimed, log, 0, SUBMITTING.(pc := Gated("one")), Dispatch, 3, Calling("one"), claimed, [Started(Execution, ONE, ONE.operation)]);
    log := log + [Started(Execution, ONE, ONE.operation)];
    db := Complete(claimed, "one", Succeeded, "", 4);
    Moves(claimed, log, 0, SUBMITTING.(pc := Calling("one")), Return(Success("")), 4, Claiming, db,
          [Ended(Execution, ONE), Completed(ONE)]);
    log := log + [Ended(Execution, ONE), Completed(ONE)];
  }

  lemma SecondClaimed(start: Db, before: Log) returns (db: Db, log: Log)
    requires Reached(Alone(start, 0, SUBMITTING.(pc := Claiming), before)) && Two(start, Succeeded, Pending, 0)
    requires start.clock == 4 && start.compensations == map[]
    ensures Reached(Alone(db, 0, SUBMITTING.(pc := Gated("two")), log)) && Two(db, Succeeded, Running, 1)
    ensures db.steps["two"].claimedAt == Some(5) && db.clock == 5 && db.compensations == map[]
  {
    hide Reached;
    SecondIsClaimable(start, Pending, 0, 5);
    hide Claimable, Blocked;
    db := Claim(start, "two", 5);
    Moves(start, before, 0, SUBMITTING.(pc := Claiming), ClaimNext(Some("two")), 5, Gated("two"), db, [Claimed(TWO)]);
    log := before + [Claimed(TWO)];
  }

  const KEY := CompensationKey("request", "one", Update)

  /** The request is cancelled while its second step is orphaned; compensating the first fails. */
  lemma CancelledMeanwhile() returns (db: Db, log: Log)
    ensures Reached(Alone(db, 1, CANCELLING.(pc := Compensating({})), log)) && Two(db, Succeeded, Running, 1)
    ensures db.steps["two"].claimedAt == Some(5) && db.clock == 9 && db.executions["request"].cancelledAt.Some?
    ensures KEY in db.compensations && db.compensations[KEY].state.CompFailed?
    ensures db.compensations[KEY].attempts == 1 && db.compensations[KEY].maxAttempts == 3
    ensures CancelledRequest("request") in log
  {
    hide Reached;
    var start, before := Orphaned();
    Enters(start, before, 1, CANCELLING);
    db, log := CancelledFirst(start, before);
    FirstIsTarget(db, Running, 1);
    hide Superseded, CompensationTargets;
    assert {"one"} - {"one"} == {};
    var todo: set<StepId> := {};
    Moves(db, log, 1, CANCELLING.(pc := Compensating({"one"})), CompensateStep("one", 0), 8, CallingCompensation("one", todo), db,
          [Started(Compensation, ONE, CompensatingAction(ONE.system))]);
    log := log + [Started(Compensation, ONE, CompensatingAction(ONE.system))];
    var failed := RecordCompensation(db, KEY, CompFailed, Some(0), 9);
    Moves(db, log, 1, CANCELLING.(pc := CallingCompensation("one", todo)), CompensationReturn(false, 0), 9, Compensating(todo), failed,
          [Ended(Compensation, ONE)]);
    db, log := failed, log + [Ended(Compensation, ONE)];
  }

  lemma CancelledFirst(start: Db, before: Log) returns (db: Db, log: Log)
    requires Reached(Alone(start, 1, CANCELLING.(pc := Entered), before)) && Two(start, Succeeded, Running, 1)
    requires start.steps["two"].claimedAt == Some(5) && start.clock == 6 && start.compensations == map[]
    ensures Reached(Alone(db, 1, CANCELLING.(pc := Compensating({"one"})), log)) && Two(db, Succeeded, Running, 1)
    ensures db.steps["two"].claimedAt == Some(5) && db.clock == 7 && db.executions["request"].cancelledAt.Some?
    ensures db.compensations == map[] && CancelledRequest("request") in log
  {
    hide Reached;
    db, log := MarkCancelled(CancelPending(start, "request", 7), "request", 7), before + [CancelledRequest("request")];
    FirstIsTarget(db, Running, 1);
    Moves(start, before, 1, CANCELLING.(pc := Entered), CancelRequest, 7, Compensating({"one"}), db, [CancelledRequest("request")]);
    assert log[|before|] == CancelledRequest("request");
  }

  /** After the restart the second step is claimed again: beyond its limit of one attempt, and
      although its request was cancelled. */
  lemma LimitIsExceeded() returns (s: State)
    ensures Reached(s) && "two" in s.db.steps
    ensures s.db.steps["two"].attempts == 2 && s.db.steps["two"].command.maxAttempts == 1
    ensures s.tasks == map[2 := RECOVERING.(pc := Gated("two"))]
    ensures ClaimedAfterCancel(s.log, TWO)
  {
    hide Reached;
    var db, log := ClaimedAgain();
    s := Alone(db, 2, RECOVERING.(pc := Gated("two")), log);
  }

  ghost predicate FailedOnce(db: Db)
  {
    && KEY in db.compensations && db.compensations[KEY].state.CompFailed?
    && db.compensations[KEY].attempts == 1 && db.compensations[KEY].maxAttempts == 3
    && "request" in db.executions && db.executions["request"].cancelledAt.Some?
  }

  lemma Restarting() returns (db: Db, log: Log)
    ensures Reached(Idle(db, log)) && Two(db, Succeeded, RetryWait, 1) && FailedOnce(db)
    ensures Due(db.steps["two"].nextRetryAt, 12) && db.clock == 10 && CancelledRequest("request") in log
  {
    hide Reached;
    var start, before := CancelledMeanwhile();
    var todo: set<StepId> := {};
    Crashes(start, before, 1, CANCELLING.(pc := Compensating(todo)), 0, 10);
    db, log := RecoverStale(start, 0, 10), before + [Restarted(StaleSteps(start.steps, 0, 10))];
    Recovered(start, 1);
    hide RecoverStale, StaleSteps;
    var i :| 0 <= i < |before| && before[i] == CancelledRequest("request");
    assert log[i] == before[i];
  }

  /** The last event claims the step, and the request was cancelled before. */
  predicate ClaimedAfterCancel(log: Log, command: Command)
  {
    log != [] && log[|log| - 1] == Claimed(command) && CancelledRequest("request") in log[..|log| - 1]
  }

  lemma Resumed() returns (db: Db, log: Log)
    ensures Reached(Alone(db, 2, RECOVERING.(pc := Claiming), log)) && Two(db, Succeeded, RetryWait, 1) && FailedOnce(db)
    ensures Due(db.steps["two"].nextRetryAt, 12) && db.clock == 10 && CancelledRequest("request") in log
  {
    hide Reached;
    db, log := Restarting();
    Enters(db, log, 2, RECOVERING);
    Moves(db, log, 2, RECOVERING.(pc := Entered), BeginRun, 11, Claiming, db, []);
    assert log + [] == log;
  }

  lemma ClaimedAgain() returns (db: Db, log: Log)
    ensures Reached(Alone(db, 2, RECOVERING.(pc := Gated("two")), log)) && Two(db, Succeeded, Running, 2)
    ensures db.clock == 12 && FailedOnce(db) && ClaimedAfterCancel(log, TWO)
  {
    hide Reached, Acts;
    var start, before := Resumed();
    ClaimsSecond(start);
    db, log := Claim(start, "two", 12), before + [Claimed(TWO)];
    hide Claim, Two;
    Moves(start, before, 2, RECOVERING.(pc := Claiming), ClaimNext(Some("two")), 12, Gated("two"), db, [Claimed(TWO)]);
    assert log[..|log| - 1] == before;
  }

  lemma ClaimsSecond(db: Db)
    requires Two(db, Succeeded, RetryWait, 1) && FailedOnce(db) && Due(db.steps["two"].nextRetryAt, 12) && db.clock == 10
    ensures Acts(db, {Odoo}, RECOVERING.(pc := Claiming), ClaimNext(Some("two")), 12, Gated("two"), Claim(db, "two", 12), [Claimed(TWO)])
    ensures Two(Claim(db, "two", 12), Succeeded, Running, 2) && FailedOnce(Claim(db, "two", 12)) && Claim(db, "two", 12).clock == 12
  {
    SecondIsClaimable(db, RetryWait, 1, 12);
    hide Claimable, Blocked;
  }

  lemma Recovered(db: Db, attempts: nat)
    requires Two(db, Succeeded, Running, attempts) && db.steps["two"].claimedAt == Some(5)
    ensures Two(RecoverStale(db, 0, 10), Succeeded, RetryWait, attempts)
    ensures Due(RecoverStale(db, 0, 10).steps["two"].nextRetryAt, 12)
    ensures RecoverStale(db, 0, 10) == db.(clock := 10, steps := RecoverStale(db, 0, 10).steps)
  {
  }

  /** Its success makes it the target on its system: the failed compensation of the first step
      is left behind, and the cancelled request stays due for it. */
  lemma ActionIsForgotten() returns (s: State)
    ensures Reached(s) && Forgotten(s.db, "request", KEY) && Open(s.db, "request")
  {
    hide Reached;
    var claimed, log := ClaimedAgain();
    Moves(claimed, log, 2, RECOVERING.(pc := Gated("two")), Dispatch, 13, Calling("two"), claimed, [Started(Execution, TWO, TWO.operation)]);
    log := log + [Started(Execution, TWO, TWO.operation)];
    var db := Complete(claimed, "two", Succeeded, "", 14);
    Moves(claimed, log, 2, RECOVERING.(pc := Calling("two")), Return(Success("")), 14, Claiming, db,
          [Ended(Execution, TWO), Completed(TWO)]);
    log := log + [Ended(Execution, TWO), Completed(TWO)];
    SecondIsTarget(db, 2);
    hide CompensationTargets;
    s := Alone(db, 2, RECOVERING.(pc := Claiming), log);
  }

  // ---------------------------------------------------------------- tasks that wait

  /** One task holds the locks, and `waiting` wait for them. */
  function Among(db: Db, t: TaskId, task: Task, waiting: map<TaskId, Task>, log: Log): State
  {
    Alone(db, t, task, log).(tasks := waiting[t := task])
  }

  function Waits(db: Db, waiting: map<TaskId, Task>, log: Log): State
  {
    Idle(db, log).(tasks := waiting)
  }

  lemma Joins(db: Db, log: Log, t: TaskId, task: Task, waiting: map<TaskId, Task>, o: TaskId, body: Task)
    requires Reached(Among(db, t, task, waiting, log)) && o != t && o !in waiting
    requires body.pc.AwaitEmployee? && MaySpawn(db, body)
    ensures Reached(Among(db, t, task, waiting[o := body], log))
  {
    hide Reached, MaySpawn;
    var s := Among(db, t, task, waiting, log);
    assert s.tasks[o := body] == waiting[o := body][t := task];
    Goes(s, Spawn(o, body), Among(db, t, task, waiting[o := body], log));
  }

  lemma MovesAmong(db: Db, log: Log, t: TaskId, task: Task, waiting: map<TaskId, Task>, move: Move, now: Time, pc: Pc,
                   db': Db, events: seq<Event>)
    requires Reached(Among(db, t, task, waiting, log)) && now > db.clock
    requires Acts(db, {Odoo}, task, move, now, pc, db', events)
    ensures Reached(Among(db', t, task.(pc := pc), waiting, log + events))
  {
    hide Reached, Acts;
    var s := Among(db, t, task, waiting, log);
    Acted(s, t, move, now, pc, db', events);
    assert s.tasks[t := task.(pc := pc)] == waiting[t := task.(pc := pc)];
    assert Moved(s, t, pc).(db := db', log := log + events) == Among(db', t, task.(pc := pc), waiting, log + events);
  }

  lemma Leaves(db: Db, log: Log, t: TaskId, task: Task, waiting: map<TaskId, Task>)
    requires Reached(Among(db, t, task, waiting, log)) && task.pc.Leaving? && t !in waiting
    ensures Reached(Waits(db, waiting, log))
  {
    hide Reached;
    var s := Among(db, t, task, waiting, log);
    assert Gone(s, t).tasks == waiting && Gone(s, t).employeeLocks == map[] && Gone(s, t).requestLocks == map[];
    Goes(s, Leave(t), Waits(db, waiting, log));
  }

  lemma TakesOver(db: Db, log: Log, t: TaskId, task: Task, waiting: map<TaskId, Task>)
    requires Reached(Waits(db, waiting[t := task], log)) && t !in waiting && task.pc.AwaitEmployee? && TakesRequest(task.job)
    requires task.employee == "someone" && task.request == "request"
    ensures Reached(Among(db, t, task.(pc := Entered), waiting, log))
  {
    hide Reached;
    var s := Waits(db, waiting[t := task], log);
    var locked := Moved(s, t, AwaitRequest).(employeeLocks := map["someone" := t]);
    Goes(s, TakeEmployee(t), locked);
    var entered := Moved(locked, t, Entered).(requestLocks := map["request" := t]);
    Goes(locked, TakeRequest(t), entered);
    assert entered.tasks == waiting[t := task.(pc := Entered)];
    assert entered == Among(db, t, task.(pc := Entered), waiting, log);
  }

  // ---------------------------------------------------------------- a retry in the queue

  const STEP := CommandOf("one", CreateDisabled, 0, 2)
  const SINGLE := Submission("request", "someone", "correlation", "key", [STEP])
  const FIRST := Task(Submit(SINGLE), "someone", "request", AwaitEmployee)
  const RETRYING := Task(Retry, "someone", "request", AwaitEmployee)

  ghost predicate One(db: Db, state: StepState, attempts: nat)
  {
    && db.steps.Keys == {"one"}
    && db.steps["one"].command == STEP && db.steps["one"].state == state && db.steps["one"].attempts == attempts
    && (state.Pending? ==> db.steps["one"].nextRetryAt.None?)
    && "request" in db.executions && db.executions["request"].submission == SINGLE
  }

  lemma NoTargets(db: Db, state: StepState, attempts: nat)
    requires One(db, state, attempts) && !Finished(state)
    ensures CompensationTargets(db.steps, "request") == {}
  {
  }

  lemma OneIsClaimable(db: Db, state: StepState, attempts: nat, t: Time)
    requires One(db, state, attempts) && Waiting(state) && Due(db.steps["one"].nextRetryAt, t)
    ensures !Blocked(db.steps, "request") && Claimable(db.steps, "request", "one", t)
  {
  }

  lemma SingleInserted()
    ensures WellFormed(SINGLE) && UnmixedAccess(SINGLE) && AccessSystems(SINGLE) == {}
    ensures Insertable(EMPTY_DB, SINGLE) && One(Begin(EMPTY_DB, SINGLE, 1), Pending, 0)
    ensures Begin(EMPTY_DB, SINGLE, 1).clock == 1 && Begin(EMPTY_DB, SINGLE, 1).deadLetters == map[]
    ensures Begin(EMPTY_DB, SINGLE, 1).executions["request"].cancelledAt.None?
  {
    assert Payloads.NestedKeys(Payloads.EMPTY) == {};
    Payloads.ReferenceExemptionIsIdle(Payloads.EMPTY);
    hide Payloads.NoInlineSecrets;
    InsertRowsAre(EMPTY_DB.steps, SINGLE.steps, 1);
    hide InsertRows;
    assert SINGLE.steps[0] == STEP;
    assert StepIds(SINGLE.steps) == {"one"};
  }

  lemma SingleSubmitted() returns (db: Db, log: Log)
    ensures Reached(Alone(db, 0, FIRST.(pc := Claiming), log)) && One(db, Pending, 0) && db.clock == 1
    ensures db.deadLetters == map[] && db.executions["request"].cancelledAt.None?
  {
    Starts(Idle(EMPTY_DB, []));
    SingleInserted();
    hide Reached, WellFormed, AccessSystems, UnmixedAccess;
    Enters(EMPTY_DB, [], 0, FIRST);
    db, log := Begin(EMPTY_DB, SINGLE, 1), [] + [Created(SINGLE)];
    hide Begin;
    assert Acts(EMPTY_DB, {Odoo}, FIRST.(pc := Entered), BeginRequest, 1, Claiming, db, [Created(SINGLE)]);
    Moves(EMPTY_DB, [], 0, FIRST.(pc := Entered), BeginRequest, 1, Claiming, db, [Created(SINGLE)]);
  }

  /** The only step fails for good on its first attempt. */
  lemma DeadOnce() returns (db: Db, log: Log)
    ensures var none: set<StepId> := {}; Reached(Alone(db, 0, FIRST.(pc := Compensating(none)), log))
    ensures One(db, DeadLetter, 1) && db.clock == 4
    ensures "one" in db.deadLetters && db.deadLetters["one"].resolvedAt.None?
    ensures db.executions["request"].cancelledAt.None?
  {
    hide Reached;
    var start, before := SingleSubmitted();
    db, log := FailsForGood(start, before, 0, FIRST, 0, 1);
  }

  /** Claim, call, and a permanent error. */
  lemma FailsForGood(start: Db, before: Log, t: TaskId, task: Task, attempts: nat, at: Time) returns (db: Db, log: Log)
    requires Reached(Alone(start, t, task.(pc := Claiming), before)) && task.request == "request" && start.clock == at
    requires One(start, if attempts == 0 then Pending else RetryWait, attempts) && Due(start.steps["one"].nextRetryAt, at + 1)
    ensures var none: set<StepId> := {}; Reached(Alone(db, t, task.(pc := Compensating(none)), log))
    ensures One(db, DeadLetter, attempts + 1) && db.clock == at + 3
    ensures db.executions["request"].cancelledAt == start.executions["request"].cancelledAt
    ensures "one" in db.deadLetters
    ensures db.deadLetters["one"].resolvedAt == if "one" in start.deadLetters then start.deadLetters["one"].resolvedAt else None
    ensures before < log && log[|before|] == Claimed(STEP)
  {
    var claimed := Claim(start, "one", at + 1);
    Called(start, before, t, task, attempts, at, claimed);
    hide Reached, Claim;
    log := before + [Claimed(STEP)] + [Started(Execution, STEP, STEP.operation)];
    db := Fail(claimed, "one", "boom", Permanent, None, at + 3);
    var none: set<StepId> := {};
    Dies(claimed, task.(pc := Calling("one")), attempts, at + 3);
    hide Acts, Fail;
    Moves(claimed, log, t, task.(pc := Calling("one")), Return(AdapterError("boom", Permanent, None)), at + 3, Compensating(none), db,
          [Ended(Execution, STEP)]);
    log := log + [Ended(Execution, STEP)];
  }

  lemma Dies(db: Db, task: Task, attempts: nat, t: Time)
    requires One(db, Running, attempts + 1) && task.request == "request" && task.pc == Calling("one")
    ensures var db', none: set<StepId> := Fail(db, "one", "boom", Permanent, None, t), {};
      && Acts(db, {Odoo}, task, Return(AdapterError("boom", Permanent, None)), t, Compensating(none), db', [Ended(Execution, STEP)])
      && One(db', DeadLetter, attempts + 1) && db'.clock == t && db'.executions == db.executions && "one" in db'.deadLetters
      && db'.deadLetters["one"].resolvedAt == if "one" in db.deadLetters then db.deadLetters["one"].resolvedAt else None
  {
    NoTargets(Fail(db, "one", "boom", Permanent, None, t), DeadLetter, attempts + 1);
    hide CompensationTargets;
  }

  lemma Called(start: Db, before: Log, t: TaskId, task: Task, attempts: nat, at: Time, db: Db)
    requires Reached(Alone(start, t, task.(pc := Claiming), before)) && task.request == "request" && start.clock == at
    requires One(start, if attempts == 0 then Pending else RetryWait, attempts) && Due(start.steps["one"].nextRetryAt, at + 1)
    requires db == Claim(start, "one", at + 1)
    ensures Reached(Alone(db, t, task.(pc := Calling("one")), before + [Claimed(STEP)] + [Started(Execution, STEP, STEP.operation)]))
    ensures One(db, Running, attempts + 1) && db.clock == at + 1 && db.deadLetters == start.deadLetters
    ensures db.executions["request"].cancelledAt == start.executions["request"].cancelledAt
  {
    hide Reached;
    OneIsClaimable(start, if attempts == 0 then Pending else RetryWait, attempts, at + 1);
    hide Claimable, Blocked;
    Moves(start, before, t, task.(pc := Claiming), ClaimNext(Some("one")), at + 1, Gated("one"), db, [Claimed(STEP)]);
    Moves(db, before + [Claimed(STEP)], t, task.(pc := Gated("one")), Dispatch, at + 2, Calling("one"), db, [Started(Execution, STEP, STEP.operation)]);
  }

  /** A retry and a cancellation are admitted while the submission still holds the locks. */
  lemma BothWait() returns (db: Db, log: Log)
    ensures Reached(Waits(db, map[1 := RETRYING][2 := CANCELLING], log)) && One(db, DeadLetter, 1) && db.clock == 4
    ensures "one" in db.deadLetters && db.deadLetters["one"].resolvedAt.None?
  {
    hide Reached;
    db, log := DeadOnce();
    var none: set<StepId> := {};
    assert Among(db, 0, FIRST.(pc := Compensating(none)), map[], log) == Alone(db, 0, FIRST.(pc := Compensating(none)), log);
    Joins(db, log, 0, FIRST.(pc := Compensating(none)), map[], 1, RETRYING);
    Joins(db, log, 0, FIRST.(pc := Compensating(none)), map[1 := RETRYING], 2, CANCELLING);
    MovesAmong(db, log, 0, FIRST.(pc := Compensating(none)), map[1 := RETRYING][2 := CANCELLING], Finish, 5, Leaving, db, []);
    assert log + [] == log;
    Leaves(db, log, 0, FIRST.(pc := Leaving), map[1 := RETRYING][2 := CANCELLING]);
  }

  /** The cancellation gets the locks first. */
  lemma CancelledBefore() returns (db: Db, log: Log)
    ensures Reached(Waits(db, map[1 := RETRYING], log)) && One(db, DeadLetter, 1) && db.clock == 7
    ensures "one" in db.deadLetters && db.deadLetters["one"].resolvedAt.None?
    ensures db.executions["request"].cancelledAt.Some? && CancelledRequest("request") in log
  {
    hide Reached;
    var start, before := BothWait();
    var none: set<StepId> := {};
    TakesOver(start, before, 2, CANCELLING, map[1 := RETRYING]);
    db, log := MarkCancelled(CancelPending(start, "request", 7), "request", 7), before + [CancelledRequest("request")];
    assert db.steps == start.steps;
    NoTargets(db, DeadLetter, 1);
    MovesAmong(start, before, 2, CANCELLING.(pc := Entered), map[1 := RETRYING], CancelRequest, 7, Compensating(none), db,
               [CancelledRequest("request")]);
    MovesAmong(db, log, 2, CANCELLING.(pc := Compensating(none)), map[1 := RETRYING], Finish, 8, Leaving, db, []);
    assert log + [] == log && log[|before|] == CancelledRequest("request");
    Leaves(db, log, 2, CANCELLING.(pc := Leaving), map[1 := RETRYING]);
  }

  /** The retry then runs the cancelled request again, and its second death leaves the dead
      letter resolved. */
  lemma CancelledRunsAgain() returns (s: State)
    ensures Reached(s) && One(s.db, DeadLetter, 2) && s.db.executions["request"].cancelledAt.Some?
    ensures "one" in s.db.deadLetters && s.db.deadLetters["one"].resolvedAt.Some?
    ensures exists i, k :: 0 <= i < k < |s.log| && s.log[i] == CancelledRequest("request") && s.log[k] == Claimed(STEP)
  {
    hide Reached;
    var start, before := CancelledBefore();
    var nobody: map<TaskId, Task> := map[];
    assert nobody[1 := RETRYING] == map[1 := RETRYING];
    TakesOver(start, before, 1, RETRYING, nobody);
    assert Among(start, 1, RETRYING.(pc := Entered), nobody, before) == Alone(start, 1, RETRYING.(pc := Entered), before);
    assert RetryPick(start.steps, "request", "one");
    var retried := Reschedule(start, "one", 8);
    Moves(start, before, 1, RETRYING.(pc := Entered), RetryRequest(Some("one")), 8, Claiming, retried, [Rescheduled(STEP)]);
    var log := before + [Rescheduled(STEP)];
    hide RetryPick;
    var db;
    db, log := FailsForGood(retried, log, 1, RETRYING, 1, 8);
    var none: set<StepId> := {};
    s := Alone(db, 1, RETRYING.(pc := Compensating(none)), log);
    var i :| 0 <= i < |before| && before[i] == CancelledRequest("request");
    assert log[i] == (before + [Rescheduled(STEP)])[i];
    assert s.log[|before| + 1] == Claimed(STEP);
  }
}
