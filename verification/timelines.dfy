/** How an employee's timeline of finished steps grows along a run: it is only ever extended. */
module Timelines {
  import opened Contracts
  import opened Tables
  import opened Frontier
  import opened Protocol
  import opened Isolation
  import opened History
  import opened Views

  /** Every row that is not as it was carries the instant `t`. */
  ghost predicate StampedAt(steps: Steps, steps': Steps, t: Time)
  {
    forall s :: s in steps' ==> (s in steps && steps'[s] == steps[s]) || steps'[s].updatedAt == t
  }

  /** What finished in between finished after the clock of before. */
  ghost predicate FinishesLater(db: Db, db': Db)
  {
    forall s :: s in db'.steps && Finished(db'.steps[s].state)
                && !(s in db.steps && Finished(db.steps[s].state)) ==>
      db'.steps[s].updatedAt > db.clock
  }

  // ---------------------------------------------------------------- one step

  lemma StepOperationsStamp(db: Db, s: StepId, error: string, retry: RetryClass, retryAt: Option<Time>,
                            state: StepState, evidence: string, t: Time)
    requires s in db.steps
    ensures StampedAt(db.steps, Claim(db, s, t).steps, t)
    ensures StampedAt(db.steps, Complete(db, s, state, evidence, t).steps, t)
    ensures StampedAt(db.steps, Fail(db, s, error, retry, retryAt, t).steps, t)
    ensures StampedAt(db.steps, Reschedule(db, s, t).steps, t)
    ensures StampedAt(db.steps, Release(db, s, t).steps, t)
  {
    hide StampedAt, ClaimedRow, CompletedRow, FailedRow, RescheduledRow, ReleasedRow, AddDeadLetter, ResolveDeadLetter,
         SetRequestState;
    var row := db.steps[s];
    RowsStamped(row, error, retry, retryAt, state, evidence, t);
    forall changed: StepRow | changed.updatedAt == t
      ensures StampedAt(db.steps, db.steps[s := changed], t)
    {
      RowStamps(db.steps, s, changed, t);
    }
    SameRowsStamp(db.steps, t);
    OtherTablesStay(db, s, error, retry, retryAt, t);
  }

  lemma RowsStamped(row: StepRow, error: string, retry: RetryClass, retryAt: Option<Time>, state: StepState, evidence: string, t: Time)
    ensures ClaimedRow(row, t).updatedAt == t && CompletedRow(row, state, evidence, t).updatedAt == t
    ensures FailedRow(row, error, retry, retryAt, t).updatedAt == t && RescheduledRow(row, t).updatedAt == t
    ensures ReleasedRow(row, t).updatedAt == t
  {
  }

  lemma OtherTablesStay(db: Db, s: StepId, error: string, retry: RetryClass, retryAt: Option<Time>, t: Time)
    requires s in db.steps
    ensures Claim(db, s, t).steps == db.steps[s := ClaimedRow(db.steps[s], t)]
    ensures Fail(db, s, error, retry, retryAt, t).steps == db.steps[s := FailedRow(db.steps[s], error, retry, retryAt, t)]
    ensures Reschedule(db, s, t).steps == db.steps[s := RescheduledRow(db.steps[s], t)]
  {
    hide ClaimedRow, FailedRow, RescheduledRow;
  }

  lemma RowStamps(steps: Steps, s: StepId, row: StepRow, t: Time)
    requires row.updatedAt == t
    ensures StampedAt(steps, steps[s := row], t)
  {
  }

  lemma SameRowsStamp(steps: Steps, t: Time)
    ensures StampedAt(steps, steps, t)
  {
  }

  lemma RequestOperationsStamp(db: Db, r: RequestId, timeout: nat, t: Time)
    ensures StampedAt(db.steps, Refresh(db, r, t).steps, t)
    ensures StampedAt(db.steps, MarkCancelled(CancelPending(db, r, t), r, t).steps, t)
    ensures StampedAt(db.steps, RecoverStale(db, timeout, t).steps, t)
  {
  }

  lemma BeginStamps(db: Db, submission: Submission, t: Time)
    requires Insertable(db, submission) && WellFormed(submission)
    ensures StampedAt(db.steps, Begin(db, submission, t).steps, t)
  {
    BeginAddsRows(db, submission, t);
    hide InsertRows, Insertable, WellFormed;
  }

  lemma EntryStamps(db: Db, adapters: set<TargetSystem>, task: Task, move: Move, now: Time,
                    pc: Pc, db': Db, events: seq<Event>)
    requires Acts(db, adapters, task, move, now, pc, db', events) && task.pc.Entered? && JobOk(task)
    ensures StampedAt(db.steps, db'.steps, now)
  {
    hide ActivationReady, Insertable, Candidate, CompensationTargets, VerificationTargets, StoredUnder, Begin, Refresh,
         Reschedule, MarkCancelled, CancelPending, RetryPick, RecoverStale, WellFormed, AccessSystems;
    RequestOperationsStamp(db, task.request, 0, now);
    if task.job.Submit? {
      RequestOperationsStamp(db, task.job.submission.request, 0, now);
      if move.BeginRequest? && pc.Claiming? {
        BeginStamps(db, task.job.submission, now);
      }
    }
    if move.RetryRequest? && move.pick.Some? {
      RetryPickFacts(db.steps, task.request, move.pick.value);
      StepOperationsStamp(db, move.pick.value, "", Permanent, None, Pending, "", now);
    }
  }

  lemma WorkStamps(db: Db, adapters: set<TargetSystem>, task: Task, move: Move, now: Time,
                   pc: Pc, db': Db, events: seq<Event>)
    requires Acts(db, adapters, task, move, now, pc, db', events)
    requires move.ClaimNext? || move.Dispatch? || move.Return?
    ensures StampedAt(db.steps, db'.steps, now)
  {
    hide ActivationReady, Blocked, Claimable, CompensationTargets, Claim, Fail, Release, Complete;
    match move {
      case ClaimNext(pick) =>
        if pick.Some? {
          ClaimableFacts(db.steps, task.request, pick.value, now);
          StepOperationsStamp(db, pick.value, "", Permanent, None, Pending, "", now);
        }
      case Dispatch =>
        StepOperationsStamp(db, task.pc.step, "adapter_not_registered", Permanent, None, Pending, "", now);
      case Return(outcome) =>
        match outcome {
          case Success(evidence) =>
            StepOperationsStamp(db, task.pc.step, "", Permanent, None,
              SuccessState(db.steps[task.pc.step].command.operation), evidence, now);
          case AdapterError(code, retry, retryAt) =>
            StepOperationsStamp(db, task.pc.step, code, retry, retryAt, Pending, "", now);
        }
      case _ =>
    }
  }

  lemma MoveStamps(db: Db, adapters: set<TargetSystem>, task: Task, move: Move, now: Time,
                   pc: Pc, db': Db, events: seq<Event>)
    requires Acts(db, adapters, task, move, now, pc, db', events) && JobOk(task)
    ensures StampedAt(db.steps, db'.steps, now)
  {
    if task.pc.Entered? {
      EntryStamps(db, adapters, task, move, now, pc, db', events);
    } else if move.ClaimNext? || move.Dispatch? || move.Return? {
      WorkStamps(db, adapters, task, move, now, pc, db', events);
    } else {
      hide ActivationReady, Superseded, Candidate, Backoff;
      assert db'.steps == db.steps;
    }
  }

  lemma StampedFinishesLater(db: Db, db': Db, t: Time)
    requires StampedAt(db.steps, db'.steps, t) && t > db.clock
    ensures FinishesLater(db, db')
  {
  }

  lemma StepFinishesLater(s: State, a: Action, s': State)
    requires SystemOk(s) && Step(s, a, s')
    ensures FinishesLater(s.db, s'.db)
  {
    hide SystemOk, TablesOk, Acts, MaySpawn, StampedAt, FinishesLater, RecoverStale, Refresh;
    match a {
      case Act(t, move, now, pc, db, events) =>
        TaskFacts(s, t);
        MoveStamps(s.db, s.adapters, s.tasks[t], move, now, pc, db, events);
        StampedFinishesLater(s.db, s'.db, now);
      case Restart(timeout, now) =>
        RequestOperationsStamp(s.db, "", timeout, now);
        StampedFinishesLater(s.db, s'.db, now);
      case Read(r, now) =>
        RequestOperationsStamp(s.db, r, 0, now);
        StampedFinishesLater(s.db, s'.db, now);
      case _ =>
        NothingFinishes(s.db);
    }
  }

  lemma NothingFinishes(db: Db)
    ensures FinishesLater(db, db) && Evolves(db, db)
  {
  }

  // ---------------------------------------------------------------- along a run

  lemma FinishesLaterTransitive(a: Db, b: Db, c: Db)
    requires FinishesLater(a, b) && FinishesLater(b, c) && Evolves(a, b) && Evolves(b, c)
    ensures FinishesLater(a, c) && Evolves(a, c)
  {
    EvolvesTransitive(a, b, c);
  }

  lemma {:induction false} RunFinishesLater(run: Run, m: nat, n: nat)
    requires IsRun(run) && m <= n < |run.states|
    ensures FinishesLater(run.states[m].db, run.states[n].db) && Evolves(run.states[m].db, run.states[n].db)
    decreases n - m
  {
    hide SystemOk, HistoryOk, Step, Init, FinishesLater, Evolves;
    if m == n {
      NothingFinishes(run.states[m].db);
    } else {
      RunFinishesLater(run, m, n - 1);
      RunsKeepAll(run, n - 1);
      StepFinishesLater(run.states[n - 1], run.actions[n - 1], run.states[n]);
      StepKeepsSystem(run.states[n - 1], run.actions[n - 1], run.states[n]);
      FinishesLaterTransitive(run.states[m].db, run.states[n - 1].db, run.states[n].db);
    }
  }

  // ---------------------------------------------------------------- the timeline

  /** `rows` in the order of their instants. */
  ghost predicate Rising(at: map<StepId, Time>, rows: seq<StepId>)
  {
    && (forall i :: 0 <= i < |rows| ==> rows[i] in at)
    && forall i, j :: 0 <= i < j < |rows| ==> at[rows[i]] < at[rows[j]]
  }

  /** `rows'` holds the members of `rows`, and others that came later. */
  ghost predicate Extends(at: map<StepId, Time>, clock: Time, rows: seq<StepId>, rows': seq<StepId>)
  {
    && Rising(at, rows) && Rising(at, rows')
    && (forall i :: 0 <= i < |rows| ==> rows[i] in rows' && at[rows[i]] <= clock)
    && forall i :: 0 <= i < |rows'| ==> rows'[i] in rows || at[rows'[i]] > clock
  }

  lemma NextPlace(at: map<StepId, Time>, clock: Time, rows: seq<StepId>, rows': seq<StepId>, i: nat)
    requires Extends(at, clock, rows, rows')
    requires i < |rows| && i <= |rows'| && forall k :: 0 <= k < i ==> rows[k] == rows'[k]
    ensures i < |rows'| && rows'[i] == rows[i]
  {
    var j :| 0 <= j < |rows'| && rows'[j] == rows[i];
    assert j >= i;
    if rows'[i] in rows {
      var k :| 0 <= k < |rows| && rows[k] == rows'[i];
      assert k >= i;
    }
    assert at[rows'[i]] >= at[rows[i]];
    assert j <= i;
  }

  lemma {:induction false} SamePlaces(at: map<StepId, Time>, clock: Time, rows: seq<StepId>, rows': seq<StepId>, n: nat)
    requires Extends(at, clock, rows, rows') && n <= |rows|
    ensures n <= |rows'| && rows[..n] == rows'[..n]
  {
    hide Extends;
    if n > 0 {
      var i := n - 1;
      SamePlaces(at, clock, rows, rows', i);
      SamePrefix(rows, rows', i);
      NextPlace(at, clock, rows, rows', i);
      assert rows[..n] == rows[..i] + [rows[i]] && rows'[..n] == rows'[..i] + [rows'[i]];
    }
  }

  /** The finished steps of an employee, oldest first, are a prefix of what they are later. */
  lemma TimelineGrows(db: Db, db': Db, e: EmployeeId, rows: seq<StepId>, rows': seq<StepId>)
    requires Stamped(db.steps, db.clock) && StepsStay(db.steps, db'.steps) && FinishesLater(db, db')
    requires Timeline(db.steps, e, rows) && Timeline(db'.steps, e, rows')
    ensures rows <= rows'
  {
    var at: map<StepId, Time> := map s | s in db'.steps :: db'.steps[s].updatedAt;
    forall i | 0 <= i < |rows|
      ensures OfEmployee(db'.steps, e, rows[i]) && db'.steps[rows[i]] == db.steps[rows[i]]
    {
    }
    forall i | 0 <= i < |rows'|
      ensures rows'[i] in rows || at[rows'[i]] > db.clock
    {
      if rows'[i] in db.steps && Finished(db.steps[rows'[i]].state) {
        assert OfEmployee(db.steps, e, rows'[i]);
      }
    }
    SamePlaces(at, db.clock, rows, rows', |rows|);
  }

  lemma SamePrefix(rows: seq<StepId>, rows': seq<StepId>, n: nat)
    requires n <= |rows| && n <= |rows'| && rows[..n] == rows'[..n]
    ensures forall k :: 0 <= k < n ==> rows[k] == rows'[k]
  {
    forall k | 0 <= k < n
      ensures rows[k] == rows'[k]
    {
      assert rows[..n][k] == rows'[..n][k];
    }
  }
}
