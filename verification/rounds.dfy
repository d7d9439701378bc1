/** Compensation rounds: what one round records, and why the due rounds of a request end. */
module Rounds {
  import opened Contracts
  import opened Tables
  import opened Frontier
  import opened Views
  import opened Rely

  function KeyOf(steps: Steps, r: RequestId, s: StepId): CompensationKey
    requires s in steps
  {
    CompensationKey(r, s, CompensatingAction(steps[s].command.system))
  }

  /** One more attempt for the step, recorded as superseded exactly when it is. */
  ghost predicate Attempted(db: Db, db': Db, e: EmployeeId, r: RequestId, s: StepId)
  {
    && s in db.steps
    && var key := KeyOf(db.steps, r, s);
       && key in db'.compensations
       && db'.compensations[key].attempts == CompensationAttempts(db, key) + 1
       && (db'.compensations[key].state.CompSuperseded? <==> Superseded(db.steps, e, r, s))
       && (db'.compensations[key].nextRetryAt.Some? <==> db'.compensations[key].state.CompFailed?)
       && db'.compensations[key].maxAttempts ==
            if key in db.compensations then db.compensations[key].maxAttempts else COMPENSATION_ATTEMPTS
  }

  ghost predicate SameSteps(steps: Steps, steps': Steps, r: RequestId)
  {
    && (forall s :: InRequest(steps, r, s) ==> s in steps' && steps'[s] == steps[s])
    && (forall s :: InRequest(steps', r, s) ==> InRequest(steps, r, s))
  }

  /** The steps in `done` were attempted once; every other row of the request is as it was. */
  ghost predicate RoundOver(db: Db, db': Db, e: EmployeeId, r: RequestId, done: set<StepId>)
  {
    && SameRows(db.steps, db'.steps, e) && SameSteps(db.steps, db'.steps, r)
    && ExecutionsStay(db.executions, db'.executions)
    && (forall s :: s in done ==> Attempted(db, db', e, r, s))
    && forall key: CompensationKey :: key.request == r && (key.step in done ==> key != KeyOf(db.steps, r, key.step)) ==>
         && (key in db.compensations <==> key in db'.compensations)
         && (key in db.compensations ==> db'.compensations[key] == db.compensations[key])
  }

  ghost predicate Round(db: Db, db': Db, e: EmployeeId, r: RequestId)
  {
    RoundOver(db, db', e, r, CompensationTargets(db.steps, r))
  }

  lemma NoRound(db: Db, e: EmployeeId, r: RequestId)
    ensures RoundOver(db, db, e, r, {})
  {
  }

  /** What RecordCompensation adds to a round, with the tables waiting in between. */
  lemma OneMoreAttempt(start: Db, db: Db, db': Db, e: EmployeeId, r: RequestId, done: set<StepId>, s: StepId,
                       state: CompensationState, delay: Option<nat>, t: Time)
    requires RoundOver(start, db, e, r, done) && s !in done
    requires OfEmployee(start.steps, e, s)
    requires db' == RecordCompensation(db, KeyOf(start.steps, r, s), state, delay, t)
    requires state.CompSuperseded? <==> Superseded(start.steps, e, r, s)
    requires delay.Some? <==> state.CompFailed?
    ensures RoundOver(start, db', e, r, done + {s})
  {
    var key := KeyOf(start.steps, r, s);
    assert SameRows(start.steps, db'.steps, e);
    hide SameRows, Superseded, Backoff;
    forall o | o in done + {s}
      ensures Attempted(start, db', e, r, o)
    {
      if o != s {
        assert Attempted(start, db, e, r, o);
      }
    }
  }

  lemma RoundWaits(start: Db, db: Db, db': Db, e: EmployeeId, r: RequestId, done: set<StepId>)
    requires RoundOver(start, db, e, r, done) && Undisturbed(db, db', e) && OwnedBy(db.executions, e, r)
    requires SameSteps(start.steps, db'.steps, r)
    ensures RoundOver(start, db', e, r, done)
  {
    hide Superseded, SameSteps, Frontier.TablesOk;
    SameRowsThrough(start, db, db', e);
    hide SameRows, ExecutionsStay;
    forall s | s in done
      ensures Attempted(start, db', e, r, s)
    {
      assert Attempted(start, db, e, r, s);
    }
  }

  lemma SameRowsThrough(a: Db, b: Db, c: Db, e: EmployeeId)
    requires SameRows(a.steps, b.steps, e) && SameRows(b.steps, c.steps, e)
    requires ExecutionsStay(a.executions, b.executions) && ExecutionsStay(b.executions, c.executions)
    ensures SameRows(a.steps, c.steps, e) && ExecutionsStay(a.executions, c.executions)
  {
  }

  // ---------------------------------------------------------------- due rounds end

  /** Attempts a compensating action still has. */
  function Remaining(db: Db, key: CompensationKey): nat
  {
    var limit := if key in db.compensations then db.compensations[key].maxAttempts else COMPENSATION_ATTEMPTS;
    if CompensationAttempts(db, key) < limit then limit - CompensationAttempts(db, key) else 0
  }

  ghost function Left(db: Db, r: RequestId, todo: set<StepId>): nat
    requires todo <= db.steps.Keys
  {
    if todo == {} then 0
    else
      var s :| s in todo;
      Left(db, r, todo - {s}) + Remaining(db, KeyOf(db.steps, r, s))
  }

  lemma {:induction false} LeftSplits(db: Db, r: RequestId, todo: set<StepId>, s: StepId)
    requires todo <= db.steps.Keys && s in todo
    ensures Left(db, r, todo) == Left(db, r, todo - {s}) + Remaining(db, KeyOf(db.steps, r, s))
  {
    var o :| o in todo && Left(db, r, todo) == Left(db, r, todo - {o}) + Remaining(db, KeyOf(db.steps, r, o));
    if o != s {
      LeftSplits(db, r, todo - {o}, s);
      LeftSplits(db, r, todo - {s}, o);
      assert todo - {o} - {s} == todo - {s} - {o};
    }
  }

  /** An attempt of every step in `todo` uses up what is left, if anything is. */
  lemma {:induction false} AttemptsUseUp(db: Db, db': Db, e: EmployeeId, r: RequestId, todo: set<StepId>)
    requires forall s :: s in todo ==> Attempted(db, db', e, r, s)
    requires forall s :: s in todo ==> s in db.steps && s in db'.steps && db'.steps[s].command == db.steps[s].command
    ensures Left(db', r, todo) <= Left(db, r, todo)
    ensures (exists s :: s in todo && Remaining(db, KeyOf(db.steps, r, s)) > 0) ==> Left(db', r, todo) < Left(db, r, todo)
    decreases todo
  {
    hide Superseded;
    if todo != {} {
      var s :| s in todo && (Remaining(db, KeyOf(db.steps, r, s)) > 0
                             || forall o :: o in todo ==> Remaining(db, KeyOf(db.steps, r, o)) == 0);
      assert Attempted(db, db', e, r, s);
      LeftSplits(db, r, todo, s);
      LeftSplits(db', r, todo, s);
      AttemptsUseUp(db, db', e, r, todo - {s});
    }
  }

  /** All steps of the request are the employee's. */
  ghost predicate RequestOf(steps: Steps, e: EmployeeId, r: RequestId)
  {
    forall s :: InRequest(steps, r, s) ==> OfEmployee(steps, e, s)
  }

  /** The request's steps and compensations do not change. */
  ghost predicate RequestStands(db: Db, db': Db, r: RequestId)
  {
    && SameSteps(db.steps, db'.steps, r) && ExecutionsStay(db.executions, db'.executions)
    && forall key: CompensationKey :: key.request == r ==>
         && (key in db.compensations <==> key in db'.compensations)
         && (key in db.compensations ==> db'.compensations[key] == db.compensations[key])
  }

  ghost predicate NextRound(db: Db, db': Db, e: EmployeeId, r: RequestId)
  {
    exists mid :: Round(db, mid, e, r) && RequestStands(mid, db', r)
  }

  /** Some target of the request is due again. */
  ghost predicate TargetDue(db: Db, r: RequestId, t: Time)
  {
    exists s :: s in CompensationTargets(db.steps, r)
                && KeyOf(db.steps, r, s) in db.compensations && DueAction(db.compensations[KeyOf(db.steps, r, s)], t)
  }

  lemma TargetsStand(steps: Steps, steps': Steps, r: RequestId)
    requires SameSteps(steps, steps', r)
    ensures CompensationTargets(steps', r) == CompensationTargets(steps, r)
    ensures VerificationTargets(steps', r) == VerificationTargets(steps, r)
  {
    forall s
      ensures s in steps' && LastFinished(steps', r, Compensable, s) <==> s in steps && LastFinished(steps, r, Compensable, s)
      ensures s in steps' && LastFinished(steps', r, Provisions, s) <==> s in steps && LastFinished(steps, r, Provisions, s)
    {
    }
  }

  lemma NextRoundFacts(db: Db, db': Db, e: EmployeeId, r: RequestId)
    requires RequestOf(db.steps, e, r) && NextRound(db, db', e, r)
    ensures CompensationTargets(db'.steps, r) == CompensationTargets(db.steps, r)
    ensures SameSteps(db.steps, db'.steps, r)
    ensures forall s :: s in CompensationTargets(db.steps, r) ==> Attempted(db, db', e, r, s)
    ensures RequestOf(db'.steps, e, r)
  {
    hide Superseded, LastFinished;
    var mid :| Round(db, mid, e, r) && RequestStands(mid, db', r);
    forall s | s in CompensationTargets(db.steps, r)
      ensures Attempted(db, db', e, r, s)
    {
      assert Attempted(db, mid, e, r, s);
    }
    hide Round, Attempted;
    TargetsStand(db.steps, db'.steps, r);
  }

  /** A round that finds one of its targets due leaves fewer attempts for the next. */
  lemma RoundShrinks(db: Db, db': Db, e: EmployeeId, r: RequestId, t: Time)
    requires RequestOf(db.steps, e, r) && NextRound(db, db', e, r)
    ensures RequestOf(db'.steps, e, r)
    ensures Left(db', r, CompensationTargets(db'.steps, r)) <= Left(db, r, CompensationTargets(db.steps, r))
    ensures TargetDue(db, r, t) ==>
              Left(db', r, CompensationTargets(db'.steps, r)) < Left(db, r, CompensationTargets(db.steps, r))
  {
    NextRoundFacts(db, db', e, r);
    hide NextRound, Attempted, LastFinished, RequestOf;
    var targets := CompensationTargets(db.steps, r);
    AttemptsUseUp(db, db', e, r, targets);
    if TargetDue(db, r, t) {
      var s :| s in targets && KeyOf(db.steps, r, s) in db.compensations && DueAction(db.compensations[KeyOf(db.steps, r, s)], t);
      assert Remaining(db, KeyOf(db.steps, r, s)) > 0;
    }
  }

  /** While the steps of a request stand still, only so many rounds can find one of its
      targets due: three for each system at first. */
  lemma {:induction false} DueRoundsEnd(dbs: seq<Db>, times: seq<Time>, e: EmployeeId, r: RequestId)
    requires |dbs| == |times| + 1 && RequestOf(dbs[0].steps, e, r)
    requires forall i :: 0 <= i < |times| ==> NextRound(dbs[i], dbs[i + 1], e, r) && TargetDue(dbs[i], r, times[i])
    ensures |times| <= Left(dbs[0], r, CompensationTargets(dbs[0].steps, r))
  {
    if times != [] {
      hide NextRound, TargetDue, Left, CompensationTargets, RequestOf;
      var rest, later := dbs[1..], times[1..];
      assert NextRound(dbs[0], dbs[0 + 1], e, r) && TargetDue(dbs[0], r, times[0]);
      RoundShrinks(dbs[0], dbs[1], e, r, times[0]);
      assert rest[0] == dbs[1];
      forall i | 0 <= i < |later|
        ensures NextRound(rest[i], rest[i + 1], e, r) && TargetDue(rest[i], r, later[i])
      {
        assert NextRound(dbs[i + 1], dbs[i + 1 + 1], e, r) && TargetDue(dbs[i + 1], r, times[i + 1]);
      }
      DueRoundsEnd(rest, later, e, r);
    }
  }

  // ---------------------------------------------------------------- actions left behind

  /** A failed action with tries left that no round attempts any more: its step is no longer
      the last finished one on its system. */
  ghost predicate Forgotten(db: Db, r: RequestId, key: CompensationKey)
  {
    && key in db.compensations && key.request == r
    && db.compensations[key].state.CompFailed? && db.compensations[key].attempts < db.compensations[key].maxAttempts
    && (key.step in CompensationTargets(db.steps, r) ==> key != KeyOf(db.steps, r, key.step))
  }

  /** At some instant the request is due, as its tables stand. */
  ghost predicate EverDue(db: Db, r: RequestId)
  {
    exists t :: CompensationDue(db, r, t)
  }

  /** The request is cancelled, or one of its steps is dead. */
  ghost predicate Open(db: Db, r: RequestId)
  {
    && r in db.executions
    && (db.executions[r].cancelledAt.Some? || exists s :: InRequest(db.steps, r, s) && db.steps[s].state.DeadLetter?)
  }

  lemma OpenStays(db: Db, db': Db, r: RequestId)
    requires SameSteps(db.steps, db'.steps, r) && ExecutionsStay(db.executions, db'.executions)
    ensures Open(db, r) ==> Open(db', r)
  {
    if Open(db, r) && db.executions[r].cancelledAt.None? {
      var s :| InRequest(db.steps, r, s) && db.steps[s].state.DeadLetter?;
      assert InRequest(db'.steps, r, s) && db'.steps[s].state.DeadLetter?;
    }
  }

  /** A round neither forgets an action nor takes one up again that was forgotten. */
  lemma RoundForgets(db: Db, db': Db, e: EmployeeId, r: RequestId, key: CompensationKey)
    requires RequestOf(db.steps, e, r) && NextRound(db, db', e, r)
    ensures Forgotten(db', r, key) <==> Forgotten(db, r, key)
    ensures Forgotten(db, r, key) ==> db'.compensations[key] == db.compensations[key]
    ensures Open(db, r) ==> Open(db', r)
  {
    hide Superseded, LastFinished, Backoff;
    var mid :| Round(db, mid, e, r) && RequestStands(mid, db', r);
    NextRoundFacts(db, db', e, r);
    hide RequestOf;
    SameStepsThrough(db, mid, db', r);
    TargetsInRequest(db.steps, r);
    OpenStays(db, mid, r);
    OpenStays(mid, db', r);
    hide Open, SameSteps, ExecutionsStay, SameRows;
    if key.request == r {
      assert key in mid.compensations <==> key in db'.compensations;
      if key.step in CompensationTargets(db.steps, r) {
        assert Attempted(db, mid, e, r, key.step);
      }
    }
  }

  lemma TargetsInRequest(steps: Steps, r: RequestId)
    ensures forall s :: s in CompensationTargets(steps, r) ==> InRequest(steps, r, s)
  {
  }

  lemma SameStepsThrough(a: Db, b: Db, c: Db, r: RequestId)
    requires SameSteps(a.steps, b.steps, r) && SameSteps(b.steps, c.steps, r)
    ensures SameSteps(a.steps, c.steps, r)
    ensures forall s :: InRequest(a.steps, r, s) ==> s in c.steps && c.steps[s] == a.steps[s]
  {
  }

  ghost predicate RoundsOf(dbs: seq<Db>, e: EmployeeId, r: RequestId)
  {
    |dbs| > 0 && RequestOf(dbs[0].steps, e, r) && forall i :: 0 <= i < |dbs| - 1 ==> NextRound(dbs[i], dbs[i + 1], e, r)
  }

  /** Rounds use the attempts of the targets up, and leave forgotten actions alone. */
  lemma {:induction false} AfterRounds(dbs: seq<Db>, e: EmployeeId, r: RequestId, n: nat)
    requires RoundsOf(dbs, e, r) && n < |dbs|
    ensures RequestOf(dbs[n].steps, e, r)
    ensures Left(dbs[n], r, CompensationTargets(dbs[n].steps, r)) <=
              Minus(Left(dbs[0], r, CompensationTargets(dbs[0].steps, r)), n)
    ensures forall key :: Forgotten(dbs[n], r, key) <==> Forgotten(dbs[0], r, key)
    ensures forall key :: Forgotten(dbs[0], r, key) ==>
      key in dbs[n].compensations && dbs[n].compensations[key] == dbs[0].compensations[key]
    ensures Open(dbs[0], r) ==> Open(dbs[n], r)
  {
    if n > 0 {
      AfterRounds(dbs, e, r, n - 1);
      assert NextRound(dbs[n - 1], dbs[n - 1 + 1], e, r);
      hide NextRound, RequestOf, Left, CompensationTargets, Open, RoundsOf;
      RoundUsesUp(dbs[n - 1], dbs[n], e, r);
      forall key
        ensures Forgotten(dbs[n], r, key) <==> Forgotten(dbs[n - 1], r, key)
        ensures Forgotten(dbs[n - 1], r, key) ==>
          key in dbs[n].compensations && dbs[n].compensations[key] == dbs[n - 1].compensations[key]
      {
        RoundForgets(dbs[n - 1], dbs[n], e, r, key);
      }
      RoundForgets(dbs[n - 1], dbs[n], e, r, CompensationKey(r, "", Update));
    }
  }

  function Minus(a: nat, n: nat): nat
  {
    if a >= n then a - n else 0
  }

  lemma RoundUsesUp(db: Db, db': Db, e: EmployeeId, r: RequestId)
    requires RequestOf(db.steps, e, r) && NextRound(db, db', e, r)
    ensures RequestOf(db'.steps, e, r)
    ensures Left(db', r, CompensationTargets(db'.steps, r)) <= Minus(Left(db, r, CompensationTargets(db.steps, r)), 1)
  {
    NextRoundFacts(db, db', e, r);
    hide NextRound, Attempted, LastFinished, RequestOf;
    var targets := CompensationTargets(db.steps, r);
    AttemptsUseUp(db, db', e, r, targets);
    if forall s :: s in targets ==> Remaining(db, KeyOf(db.steps, r, s)) == 0 {
      NothingLeft(db, r, targets);
    }
  }

  lemma {:induction false} NothingLeft(db: Db, r: RequestId, todo: set<StepId>)
    requires todo <= db.steps.Keys
    ensures Left(db, r, todo) == 0 <==> forall s :: s in todo ==> Remaining(db, KeyOf(db.steps, r, s)) == 0
  {
    if todo != {} {
      var s :| s in todo;
      LeftSplits(db, r, todo, s);
      NothingLeft(db, r, todo - {s});
    }
  }

  /** While the steps of a cancelled or dead-lettered request stand still, its due rounds come
      to an end, after no more of them than attempts were left, exactly when no failed action
      was left behind; one that was stays due, unchanged, however many rounds follow. */
  lemma RoundsEndExactly(dbs: seq<Db>, e: EmployeeId, r: RequestId)
    requires RoundsOf(dbs, e, r) && Open(dbs[0], r)
    requires |dbs| > Left(dbs[0], r, CompensationTargets(dbs[0].steps, r))
    ensures EverDue(dbs[|dbs| - 1], r) <==> (exists key :: Forgotten(dbs[0], r, key))
  {
    var last := dbs[|dbs| - 1];
    AfterRounds(dbs, e, r, |dbs| - 1);
    hide RoundsOf, RequestOf, LastFinished;
    NothingLeft(last, r, CompensationTargets(last.steps, r));
    hide Left;
    DueIsForgotten(last, r);
    if key :| Forgotten(last, r, key) {
      assert Forgotten(dbs[0], r, key);
    }
    if key :| Forgotten(dbs[0], r, key) {
      assert Forgotten(last, r, key);
    }
  }

  /** Without forgotten actions a request is found due no more often than attempts were left. */
  lemma DueRoundsAreFew(dbs: seq<Db>, times: seq<Time>, e: EmployeeId, r: RequestId)
    requires RoundsOf(dbs, e, r) && |dbs| == |times| + 1 && forall key :: !Forgotten(dbs[0], r, key)
    requires forall i :: 0 <= i < |times| ==> CompensationDue(dbs[i], r, times[i])
    ensures |times| <= Left(dbs[0], r, CompensationTargets(dbs[0].steps, r))
  {
    forall i | 0 <= i < |times|
      ensures NextRound(dbs[i], dbs[i + 1], e, r) && TargetDue(dbs[i], r, times[i])
    {
      AfterRounds(dbs, e, r, i);
      hide NextRound, RequestOf, Left, CompensationTargets, Forgotten, TargetDue;
      DueForTargets(dbs[i], r, times[i]);
    }
    DueRoundsEnd(dbs, times, e, r);
  }

  /** When the targets have no tries left, what is due was forgotten, and what was forgotten
      comes due. */
  lemma DueIsForgotten(db: Db, r: RequestId)
    requires Open(db, r)
    requires forall s :: s in CompensationTargets(db.steps, r) ==> Remaining(db, KeyOf(db.steps, r, s)) == 0
    ensures EverDue(db, r) <==> (exists key :: Forgotten(db, r, key))
  {
    hide LastFinished;
    if t :| CompensationDue(db, r, t) {
      var key :| key in db.compensations && key.request == r && DueAction(db.compensations[key], t);
      assert Forgotten(db, r, key);
    }
    if key :| Forgotten(db, r, key) {
      ForgottenComesDue(db, r, key);
    }
  }

  lemma ForgottenComesDue(db: Db, r: RequestId, key: CompensationKey)
    requires Open(db, r) && Forgotten(db, r, key)
    ensures var row := db.compensations[key];
      forall t :: Due(row.nextRetryAt, t) ==> CompensationDue(db, r, t)
    ensures EverDue(db, r)
  {
    hide CompensationTargets;
    var row := db.compensations[key];
    forall t | Due(row.nextRetryAt, t)
      ensures CompensationDue(db, r, t)
    {
      assert DueAction(db.compensations[key], t);
    }
    var at := if row.nextRetryAt.Some? then row.nextRetryAt.value else 0;
    assert Due(row.nextRetryAt, at);
  }

  /** An action that was left behind keeps its request due through any number of rounds. */
  lemma ForgottenActionStaysDue(dbs: seq<Db>, e: EmployeeId, r: RequestId, key: CompensationKey, n: nat, t: Time)
    requires RoundsOf(dbs, e, r) && n < |dbs| && Open(dbs[0], r) && Forgotten(dbs[0], r, key)
    requires Due(dbs[0].compensations[key].nextRetryAt, t)
    ensures key in dbs[n].compensations && dbs[n].compensations[key] == dbs[0].compensations[key]
    ensures CompensationDue(dbs[n], r, t)
  {
    AfterRounds(dbs, e, r, n);
    hide RoundsOf, RequestOf, CompensationTargets, Left, Open;
    ForgottenComesDue(dbs[n], r, key);
  }

  /** A request none of whose failed actions was left behind is only due for its targets. */
  lemma DueForTargets(db: Db, r: RequestId, t: Time)
    requires CompensationDue(db, r, t) && forall key :: !Forgotten(db, r, key)
    ensures TargetDue(db, r, t)
  {
    hide LastFinished;
    var key :| key in db.compensations && key.request == r && DueAction(db.compensations[key], t);
    assert !Forgotten(db, r, key);
  }

  // ---------------------------------------------------------------- what a round covers

  /** A later finished step on the system of `s` among those that count. */
  predicate CountedAfter(steps: Steps, r: RequestId, counts: Operation -> bool, s: StepId, o: StepId)
    requires s in steps
  {
    && InRequest(steps, r, o) && Finished(steps[o].state) && counts(steps[o].command.operation)
    && steps[o].command.system == steps[s].command.system
    && steps[o].command.sequence > steps[s].command.sequence
  }

  /** The last finished counted step on the system of `s`, no earlier than `s`. */
  lemma {:induction false} LastExists(steps: Steps, r: RequestId, counts: Operation -> bool, s: StepId, rows: set<StepId>)
      returns (last: StepId)
    requires rows <= steps.Keys && s in rows
    requires InRequest(steps, r, s) && Finished(steps[s].state) && counts(steps[s].command.operation)
    requires forall o :: CountedAfter(steps, r, counts, s, o) ==> o in rows
    ensures last in steps && LastFinished(steps, r, counts, last)
    ensures steps[last].command.system == steps[s].command.system && steps[last].command.sequence >= steps[s].command.sequence
    decreases |rows|
  {
    last := s;
    if o :| CountedAfter(steps, r, counts, s, o) {
      last := LastExists(steps, r, counts, o, rows - {s});
    } else {
      forall o | InRequest(steps, r, o) && Finished(steps[o].state) && counts(steps[o].command.operation)
                 && steps[o].command.system == steps[s].command.system
        ensures steps[o].command.sequence <= steps[s].command.sequence
      {
        assert !CountedAfter(steps, r, counts, s, o);
      }
    }
  }

  /** A round covers every system on which the request finished a creation, an update or an
      activation: its target there is such a step, and the one with the highest sequence. */
  lemma TargetsCover(steps: Steps, r: RequestId, s: StepId) returns (target: StepId)
    requires s in steps && steps[s].command.request == r
    requires steps[s].state == Succeeded || steps[s].state == Verified
    requires steps[s].command.operation == CreateDisabled || steps[s].command.operation == Update
             || steps[s].command.operation == Activate
    ensures target in CompensationTargets(steps, r)
    ensures target in steps && steps[target].command.request == r && steps[target].command.system == steps[s].command.system
    ensures steps[target].state == Succeeded || steps[target].state == Verified
    ensures steps[target].command.operation == CreateDisabled || steps[target].command.operation == Update
            || steps[target].command.operation == Activate
    ensures steps[target].command.sequence >= steps[s].command.sequence
  {
    target := LastExists(steps, r, Compensable, s, steps.Keys);
  }

  /** While every action has its three tries, a round has at most three for each target. */
  lemma {:induction false} LeftBounded(db: Db, r: RequestId, todo: set<StepId>)
    requires todo <= db.steps.Keys
    requires forall key :: key in db.compensations ==> db.compensations[key].maxAttempts == 3
    ensures Left(db, r, todo) <= 3 * |todo|
  {
    if todo != {} {
      var s :| s in todo;
      LeftSplits(db, r, todo, s);
      LeftBounded(db, r, todo - {s});
    }
  }
}
