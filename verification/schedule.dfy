/** When a step may be claimed again after each operation: the operations against the claim
    query they prepare for. */
module Schedule {
  import opened Contracts
  import opened Tables
  import opened Frontier
  import Views

  /** While a step waits for its next try, it is the only step of its request to claim. */
  lemma OnlyTheWaitingStep(steps: Steps, r: RequestId, s: StepId)
    requires StepsOk(steps) && InRequest(steps, r, s) && steps[s].state.RetryWait?
    ensures forall o, later :: Claimable(steps, r, o, later) <==> o == s && Due(steps[s].nextRetryAt, later)
  {
    TouchedIsAtFrontier(steps, s);
    forall o, later
      ensures Claimable(steps, r, o, later) <==> o == s && Due(steps[s].nextRetryAt, later)
    {
      ClaimSeesFrontier(steps, r, o, later);
      if IsFrontier(steps, r, o) {
        FrontierUnique(steps, r, o, s);
      }
    }
  }

  /** A dead or running step holds its whole request up. */
  lemma StuckStepBlocks(steps: Steps, r: RequestId, s: StepId)
    requires StepsOk(steps) && InRequest(steps, r, s) && (steps[s].state.DeadLetter? || steps[s].state.Running?)
    ensures forall o, later :: !Claimable(steps, r, o, later)
  {
    forall o, later
      ensures !Claimable(steps, r, o, later)
    {
      ClaimSeesFrontier(steps, r, o, later);
    }
  }

  /** After a failure the step is tried again from the given instant on, exactly when the
      error was transient and attempts are left; until then nothing of the request is. */
  lemma AfterFailure(db: Db, s: StepId, error: string, retry: RetryClass, retryAt: Option<Time>, t: Time, o: StepId, later: Time)
    requires TablesOk(db) && s in db.steps && db.steps[s].state.Running? && t > db.clock
    ensures Claimable(Fail(db, s, error, retry, retryAt, t).steps, db.steps[s].command.request, o, later) <==>
      o == s && retry.Transient? && db.steps[s].attempts < db.steps[s].command.maxAttempts && Due(retryAt, later)
  {
    FailKeeps(db, s, error, retry, retryAt, t);
    var steps := Fail(db, s, error, retry, retryAt, t).steps;
    assert StepsOk(steps);
    assert steps[s] == FailedRow(db.steps[s], error, retry, retryAt, t);
    hide TablesOk, StepsOk, Fail, Claimable;
    if steps[s].state.DeadLetter? {
      StuckStepBlocks(steps, steps[s].command.request, s);
    } else {
      OnlyTheWaitingStep(steps, steps[s].command.request, s);
    }
  }

  /** A manual retry makes the picked step claimable at once. */
  lemma AfterReschedule(db: Db, r: RequestId, s: StepId, t: Time, o: StepId, later: Time)
    requires TablesOk(db) && RetryPick(db.steps, r, s) && t > db.clock
    ensures Claimable(Reschedule(db, s, t).steps, r, o, later) <==> o == s && t <= later
  {
    RescheduleKeeps(db, s, t);
    var steps := Reschedule(db, s, t).steps;
    assert StepsOk(steps);
    assert steps[s] == RescheduledRow(db.steps[s], t);
    hide TablesOk, StepsOk, Reschedule, Claimable;
    OnlyTheWaitingStep(steps, r, s);
  }

  /** A released activation waits thirty seconds. */
  lemma AfterRelease(db: Db, s: StepId, t: Time, o: StepId, later: Time)
    requires TablesOk(db) && s in db.steps && db.steps[s].state.Running? && t > db.clock
    ensures Claimable(Release(db, s, t).steps, db.steps[s].command.request, o, later) <==>
      o == s && t + 30_000_000 <= later
  {
    ReleaseKeeps(db, s, t);
    var steps := Release(db, s, t).steps;
    assert StepsOk(steps);
    assert steps[s] == ReleasedRow(db.steps[s], t);
    hide TablesOk, StepsOk, Release, Claimable;
    OnlyTheWaitingStep(steps, steps[s].command.request, s);
  }

  /** Recovery makes exactly the stale steps claimable at once; a step that runs and is not
      stale still blocks its request. */
  lemma AfterRecovery(db: Db, timeout: nat, s: StepId, t: Time, o: StepId, later: Time)
    requires TablesOk(db) && s in db.steps && db.steps[s].state.Running? && t > db.clock
    ensures Claimable(RecoverStale(db, timeout, t).steps, db.steps[s].command.request, o, later) <==>
      o == s && db.steps[s].claimedAt.Some? && db.steps[s].claimedAt.value + timeout * 1_000_000 < t <= later
  {
    RecoverStaleKeeps(db, timeout, t);
    RecoveredStep(db, timeout, s, t);
    var steps, r := RecoverStale(db, timeout, t).steps, db.steps[s].command.request;
    assert StepsOk(steps);
    hide TablesOk, StepsOk, RecoverStale, Claimable;
    if steps[s].state.RetryWait? {
      OnlyTheWaitingStep(steps, r, s);
    } else {
      StuckStepBlocks(steps, r, s);
    }
  }

  lemma RecoveredStep(db: Db, timeout: nat, s: StepId, t: Time)
    requires s in db.steps
    ensures var steps := RecoverStale(db, timeout, t).steps;
      s in steps && steps[s] == if Stale(db.steps, s, timeout, t) then RecoveredRow(db.steps[s], t) else db.steps[s]
  {
  }

  /** A completed step hands on: the next step that is not done may be claimed at once. */
  lemma AfterCompletion(db: Db, s: StepId, state: StepState, evidence: string, t: Time, o: StepId, later: Time)
    requires TablesOk(db) && s in db.steps && db.steps[s].state.Running? && Finished(state) && t > db.clock
    ensures var steps := Complete(db, s, state, evidence, t).steps;
      Claimable(steps, db.steps[s].command.request, o, later) <==> IsFrontier(steps, db.steps[s].command.request, o)
  {
    CompleteKeeps(db, s, state, evidence, t);
    var steps, r := Complete(db, s, state, evidence, t).steps, db.steps[s].command.request;
    assert StepsOk(steps) && StepsOk(db.steps);
    assert steps == db.steps[s := CompletedRow(db.steps[s], state, evidence, t)];
    hide TablesOk, Complete;
    ClaimSeesFrontier(steps, r, o, later);
    if IsFrontier(steps, r, o) {
      RowNextToRunning(db.steps, s, o);
      assert RowOk(steps[o]);
    }
  }

  /** Steps of a request with a running step are done before it and untouched after it. */
  lemma RowNextToRunning(steps: Steps, s: StepId, o: StepId)
    requires StepsOk(steps) && s in steps && steps[s].state.Running?
    requires o in steps && o != s && steps[o].command.request == steps[s].command.request
    ensures Done(steps[o].state) || steps[o].state.Pending?
  {
    TouchedIsAtFrontier(steps, s);
    assert Before(steps, o, s) || Before(steps, s, o);
  }

  /** Of a new request only the step with the lowest sequence may be claimed, at once. */
  lemma AfterBegin(db: Db, submission: Submission, t: Time, o: StepId, later: Time)
    requires TablesOk(db) && Insertable(db, submission) && WellFormed(submission) && t > db.clock
    ensures Claimable(Begin(db, submission, t).steps, submission.request, o, later) <==>
      exists i :: 0 <= i < |submission.steps| && submission.steps[i].stepId == o
        && forall j :: 0 <= j < |submission.steps| ==> submission.steps[i].sequence <= submission.steps[j].sequence
  {
    hide TablesOk, Insertable, WellFormed, Begin;
    BeginOwns(db, submission, t);
    FirstIsClaimable(Begin(db, submission, t).steps, submission.steps, submission.request, t, o, later);
  }

  lemma BeginOwns(db: Db, submission: Submission, t: Time)
    requires TablesOk(db) && Insertable(db, submission) && WellFormed(submission)
    ensures OnlyFresh(Begin(db, submission, t).steps, submission.steps, submission.request, t)
  {
    InsertRowsAre(db.steps, submission.steps, t);
    hide InsertRows;
    assert Keyed(db.executions, db.steps);
    hide TablesOk;
  }

  /** The request's rows are the fresh rows of its commands. */
  ghost predicate OnlyFresh(steps: Steps, commands: seq<Command>, r: RequestId, t: Time)
  {
    && (forall i :: 0 <= i < |commands| ==>
          InRequest(steps, r, commands[i].stepId) && steps[commands[i].stepId] == FreshRow(commands[i], t))
    && (forall s :: InRequest(steps, r, s) ==> exists i :: 0 <= i < |commands| && commands[i].stepId == s)
  }

  lemma FirstIsClaimable(steps: Steps, commands: seq<Command>, r: RequestId, t: Time, o: StepId, later: Time)
    requires OnlyFresh(steps, commands, r, t)
    ensures Claimable(steps, r, o, later) <==>
      exists i :: 0 <= i < |commands| && commands[i].stepId == o
        && forall j :: 0 <= j < |commands| ==> commands[i].sequence <= commands[j].sequence
  {
    if Claimable(steps, r, o, later) {
      var i :| 0 <= i < |commands| && commands[i].stepId == o;
      forall j | 0 <= j < |commands|
        ensures commands[i].sequence <= commands[j].sequence
      {
        UnfinishedComesNoEarlier(steps, r, o, later, commands[j].stepId);
      }
    }
    if i :| 0 <= i < |commands| && commands[i].stepId == o
            && forall j :: 0 <= j < |commands| ==> commands[i].sequence <= commands[j].sequence {
      assert InRequest(steps, r, commands[i].stepId);
      forall p
        ensures !Before(steps, p, o)
      {
        NotBeforeFirst(steps, commands, r, t, i, p);
      }
    }
  }

  lemma UnfinishedComesNoEarlier(steps: Steps, r: RequestId, o: StepId, later: Time, p: StepId)
    requires Claimable(steps, r, o, later) && InRequest(steps, r, p) && !Done(steps[p].state)
    ensures steps[o].command.sequence <= steps[p].command.sequence
  {
  }

  lemma NotBeforeFirst(steps: Steps, commands: seq<Command>, r: RequestId, t: Time, i: nat, p: StepId)
    requires OnlyFresh(steps, commands, r, t) && i < |commands|
    requires forall j :: 0 <= j < |commands| ==> commands[i].sequence <= commands[j].sequence
    ensures !Before(steps, p, commands[i].stepId)
  {
    assert InRequest(steps, r, commands[i].stepId);
    if InRequest(steps, r, p) {
      var j :| 0 <= j < |commands| && commands[j].stepId == p;
    }
  }

  /** A step with attempts left dies, is retried by hand, claimed, and dies again: all of it
      is open to it, and its entry stays resolved, with the first error. */
  lemma SecondDeadLetterStaysResolved(db: Db, s: StepId, t: Time)
    requires TablesOk(db) && s in db.steps && db.steps[s].state.Running? && t > db.clock
    requires db.steps[s].attempts < db.steps[s].command.maxAttempts
    ensures var r := db.steps[s].command.request;
      var died := Fail(db, s, "first", Permanent, None, t);
      var retried := Reschedule(died, s, t + 1);
      var again := Fail(Claim(retried, s, t + 2), s, "second", Permanent, None, t + 3);
      && RetryPick(died.steps, r, s) && Claimable(retried.steps, r, s, t + 2)
      && again.steps[s].state.DeadLetter? && again.deadLetters[s].resolvedAt == Some(t + 1)
      && (s !in db.deadLetters ==> again.deadLetters[s].error == "first")
  {
    DiesTwice(db, s, t);
    FailKeeps(db, s, "first", Permanent, None, t);
    var died := Fail(db, s, "first", Permanent, None, t);
    hide Fail, Reschedule, Claim, Claimable;
    DeadIsPicked(died, s, t, t + 2);
  }

  lemma DeadIsPicked(db: Db, s: StepId, t: Time, later: Time)
    requires TablesOk(db) && s in db.steps && db.steps[s].state.DeadLetter? && t >= db.clock && t < later
    requires db.steps[s].attempts < db.steps[s].command.maxAttempts
    ensures RetryPick(db.steps, db.steps[s].command.request, s)
    ensures Claimable(Reschedule(db, s, t + 1).steps, db.steps[s].command.request, s, later)
  {
    var r := db.steps[s].command.request;
    assert StepsOk(db.steps);
    hide TablesOk, StepsOk, RetryPick, Claimable, Reschedule;
    RetrySeesFrontier(db.steps, r, s);
    FrontierHere(db.steps, r, s);
    AfterReschedule(db, r, s, t + 1, s, later);
  }

  lemma DiesTwice(db: Db, s: StepId, t: Time)
    requires s in db.steps
    ensures var died := Fail(db, s, "first", Permanent, None, t);
      var again := Fail(Claim(Reschedule(died, s, t + 1), s, t + 2), s, "second", Permanent, None, t + 3);
      && s in died.steps && died.steps[s].state.DeadLetter? && died.steps[s].attempts == db.steps[s].attempts
      && died.steps[s].command == db.steps[s].command && died.clock == t
      && s in again.steps && again.steps[s].state.DeadLetter?
      && s in again.deadLetters && again.deadLetters[s].resolvedAt == Some(t + 1)
      && (s !in db.deadLetters ==> again.deadLetters[s].error == "first")
  {
    var died := Fail(db, s, "first", Permanent, None, t);
    assert s in died.deadLetters && (s !in db.deadLetters ==> died.deadLetters[s].error == "first");
    var claimed := Claim(Reschedule(died, s, t + 1), s, t + 2);
    assert s in claimed.steps && s in claimed.deadLetters;
    assert claimed.deadLetters[s] == died.deadLetters[s].(resolvedAt := Some(t + 1));
  }

  lemma FrontierHere(steps: Steps, r: RequestId, s: StepId)
    requires StepsOk(steps) && InRequest(steps, r, s) && steps[s].state.DeadLetter?
    ensures IsFrontier(steps, r, s)
  {
    TouchedIsAtFrontier(steps, s);
  }

  /** A compensating action is due again exactly when it failed, has tries left, and the wait
      for its attempts is over: the delay doubled for each try after the first, and never more
      than five minutes. */
  lemma AfterCompensation(db: Db, key: CompensationKey, state: CompensationState, delay: nat, t: Time, later: Time)
    requires key in db.compensations ==> db.compensations[key].maxAttempts == 3
    ensures var db' := RecordCompensation(db, key, state, if state.CompFailed? then Some(delay) else None, t);
      var attempts := 1 + if key in db.compensations then db.compensations[key].attempts else 0;
      var wait := delay * Power2(attempts - 1);
      key in db'.compensations
      && (Views.DueAction(db'.compensations[key], later) <==>
            state == CompFailed && attempts < 3 && t + (if wait < 300 then wait else 300) * 1_000_000 <= later)
  {
  }

  /** The wait after the first failed compensation is the delay, and doubles, never more than
      five minutes. */
  lemma BackoffDoubles(delay: nat, attempt: nat)
    requires attempt >= 1
    ensures Backoff(delay, 1) == if delay <= 300 then delay else 300
    ensures Backoff(delay, attempt + 1) == if 2 * Backoff(delay, attempt) <= 300 then 2 * Backoff(delay, attempt) else 300
  {
    var wait := delay * Power2(attempt - 1);
    assert Power2(attempt) == 2 * Power2(attempt - 1);
    assert delay * Power2(attempt) == 2 * wait;
    assert Power2(0) == 1 && delay * 1 == delay;
  }
}
