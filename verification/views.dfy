/** What the store's reading methods answer, stated over the tables. */
module Views {
  import opened Contracts
  import opened Tables
  import opened Frontier
  import opened Queries
  import Payloads

  datatype Stored =
    | Fresh                                     // no request under that key
    | Replayed(result: Option<RequestState>)    // the same request, with its stored result
    | Conflict                                  // another request under the same key
    | Refused                                   // a uniqueness constraint, rolled back

  datatype StepView = StepView(
    step: StepId, system: TargetSystem, operation: Operation, state: StepState,
    attempts: nat, error: Option<string>, retryAt: Option<Time>)

  datatype ExecutionView = ExecutionView(
    request: RequestId, employee: EmployeeId, state: RequestState, steps: seq<StepView>)

  /** What the store answers about a submission's idempotency key. */
  ghost predicate Answers(db: Db, submission: Submission, answer: Stored)
  {
    match answer
    case Fresh => forall r :: !StoredUnder(db, submission.key, r)
    case Refused => forall r :: !StoredUnder(db, submission.key, r)
    case Replayed(result) => exists r :: StoredUnder(db, submission.key, r)
                               && db.executions[r].submission == submission && db.executions[r].result == result
    case Conflict => exists r :: StoredUnder(db, submission.key, r) && db.executions[r].submission != submission
  }

  /** The newest provisioning step in force of `e` on `sys`, whatever its state. */
  ghost predicate Newest(steps: Steps, e: EmployeeId, sys: TargetSystem, s: StepId)
  {
    && Provisioning(steps, e, sys, s)
    && forall o :: Provisioning(steps, e, sys, o) ==> steps[o].updatedAt <= steps[s].updatedAt
  }

  /** Exactly what stands against granting access on the required systems. */
  ghost predicate Stands(steps: Steps, verifications: Verifications, e: EmployeeId, required: set<TargetSystem>, b: Blocker)
  {
    match b
    case NothingProvisioned => required == {} && forall sys :: !Touched(steps, e, sys)
    case Blocker(sys, gap) =>
      && (sys in required || Touched(steps, e, sys))
      && match gap
         case CreatedDisabledMissing => !CreatedDisabled(steps, e, sys)
         case ProvisioningIncomplete => exists s :: Newest(steps, e, sys, s) && !Finished(steps[s].state)
         case VerificationMissing =>
           Touched(steps, e, sys) ==>
             exists s :: Newest(steps, e, sys, s) && Finished(steps[s].state)
                         && ((e, sys) !in verifications || verifications[(e, sys)].source != s)
  }

  /** A failed compensating action that is due again, of a cancelled or dead-lettered request. */
  ghost predicate CompensationDue(db: Db, r: RequestId, t: Time)
  {
    && r in db.executions
    && (exists key :: key in db.compensations && key.request == r && DueAction(db.compensations[key], t))
    && (db.executions[r].cancelledAt.Some? || exists s :: InRequest(db.steps, r, s) && db.steps[s].state.DeadLetter?)
  }

  predicate DueAction(row: CompensationRow, t: Time)
  {
    row.state.CompFailed? && row.attempts < row.maxAttempts && Due(row.nextRetryAt, t)
  }

  function ViewOf(row: StepRow): StepView
  {
    StepView(row.command.stepId, row.command.system, row.command.operation, row.state, row.attempts,
             row.error, row.nextRetryAt)
  }

  /** The steps of a request as they are reported, by sequence. */
  ghost predicate Listed(steps: Steps, r: RequestId, views: seq<StepView>)
  {
    && (forall i :: 0 <= i < |views| ==>
          InRequest(steps, r, views[i].step) && views[i] == ViewOf(steps[views[i].step]))
    && (forall s :: InRequest(steps, r, s) ==> exists i :: 0 <= i < |views| && views[i].step == s)
    && (forall i, j :: 0 <= i < j < |views| ==>
          steps[views[i].step].command.sequence < steps[views[j].step].command.sequence)
  }

  /** The states listed are the states there are. */
  lemma ListedStates(steps: Steps, r: RequestId, views: seq<StepView>)
    requires Listed(steps, r, views)
    ensures (set i | 0 <= i < |views| :: views[i].state) == StatesOf(steps, r)
  {
    forall s | s in steps && InRequest(steps, r, s)
      ensures steps[s].state in set i | 0 <= i < |views| :: views[i].state
    {
      var i :| 0 <= i < |views| && views[i].step == s;
      assert views[i].state == steps[s].state;
    }
  }

  lemma ListedColumns(steps: Steps, r: RequestId, views: seq<StepView>)
    requires Listed(steps, r, views)
    ensures forall i :: 0 <= i < |views| ==>
      var view := views[i];
      && view.step in steps
      && var row := steps[view.step];
         && view.system == row.command.system && view.operation == row.command.operation
         && view.state == row.state && view.attempts == row.attempts
         && view.error == row.error && view.retryAt == row.nextRetryAt
  {
  }

  lemma DueWrittenOut(db: Db, t: Time)
    ensures forall r :: CompensationDue(db, r, t) <==>
      && r in db.executions
      && (exists key :: key in db.compensations && key.request == r
                        && db.compensations[key].state.CompFailed?
                        && db.compensations[key].attempts < db.compensations[key].maxAttempts
                        && (db.compensations[key].nextRetryAt.None? || db.compensations[key].nextRetryAt.value <= t))
      && (db.executions[r].cancelledAt.Some? || exists s :: s in db.steps && db.steps[s].command.request == r && db.steps[s].state.DeadLetter?)
  {
  }

  lemma ListedInOrder(steps: Steps, r: RequestId, items: set<StepId>, rank: map<StepId, int>, rows: seq<StepId>, views: seq<StepView>)
    requires Falling(items, rank, rows) && SequencesUnique(steps)
    requires forall s :: s in items <==> InRequest(steps, r, s)
    requires forall s :: s in items ==> s in steps && s in rank && rank[s] == 0 - steps[s].command.sequence && steps[s].command.stepId == s
    requires |views| == |rows| && forall i :: 0 <= i < |rows| ==> rows[i] in steps && views[i] == ViewOf(steps[rows[i]])
    ensures Listed(steps, r, views)
  {
    forall s | InRequest(steps, r, s)
      ensures exists i :: 0 <= i < |views| && views[i].step == s
    {
      assert s in rows;
      var i :| 0 <= i < |rows| && rows[i] == s;
      assert views[i].step == s;
    }
  }

  lemma StatesTaken(steps: Steps, r: RequestId, items: set<StepId>, states: set<StepState>)
    requires forall s :: s in items <==> InRequest(steps, r, s)
    requires forall state :: state in states <==> exists s :: s in items && s in steps && steps[s].state == state
    ensures states == StatesOf(steps, r)
  {
  }

  // ---------------------------------------------------------------- reading a binding back

  /** The employee's finished steps, oldest first. */
  ghost predicate Timeline(steps: Steps, e: EmployeeId, rows: seq<StepId>)
  {
    && (forall i :: 0 <= i < |rows| ==> OfEmployee(steps, e, rows[i]) && Finished(steps[rows[i]].state))
    && (forall s :: OfEmployee(steps, e, s) && Finished(steps[s].state) ==> s in rows)
    && (forall i, j :: 0 <= i < j < |rows| ==> steps[rows[i]].updatedAt < steps[rows[j]].updatedAt)
  }

  /** The commands that shape the binding on `sys`: from the first creation on. */
  function Binding(steps: Steps, rows: seq<StepId>, sys: TargetSystem): seq<Command>
    requires forall i :: 0 <= i < |rows| ==> rows[i] in steps
  {
    if rows == [] then []
    else
      var earlier := Binding(steps, rows[..|rows| - 1], sys);
      var command := steps[rows[|rows| - 1]].command;
      if command.system == sys && (earlier != [] || command.operation.CreateDisabled?) then earlier + [command]
      else earlier
  }

  /** The command read back: the last one, carrying the merge of all the payloads. */
  ghost predicate Bound(binding: seq<Command>, command: Command)
  {
    binding != [] && command == binding[|binding| - 1].(payload := Payloads.FoldMerge(PayloadsOf(binding)))
  }

  /** The dictionary of commands after the rows of `rows`. */
  ghost predicate BoundAfter(steps: Steps, rows: seq<StepId>, current: map<TargetSystem, Command>)
    requires forall i :: 0 <= i < |rows| ==> rows[i] in steps
  {
    forall sys :: BoundOn(current, sys, Binding(steps, rows, sys))
  }

  ghost predicate BoundOn(current: map<TargetSystem, Command>, sys: TargetSystem, binding: seq<Command>)
  {
    && (sys in current <==> binding != [])
    && (sys in current ==> Bound(binding, current[sys]))
  }

  /** The systems in the order of their first disabled creation. */
  function FirstSeen(steps: Steps, rows: seq<StepId>): seq<TargetSystem>
    requires forall i :: 0 <= i < |rows| ==> rows[i] in steps
  {
    if rows == [] then []
    else
      var earlier := FirstSeen(steps, rows[..|rows| - 1]);
      var command := steps[rows[|rows| - 1]].command;
      if command.operation.CreateDisabled? && command.system !in earlier then earlier + [command.system] else earlier
  }

  lemma {:induction false} FirstSeenIsBound(steps: Steps, rows: seq<StepId>, sys: TargetSystem)
    requires forall i :: 0 <= i < |rows| ==> rows[i] in steps
    ensures sys in FirstSeen(steps, rows) <==> Binding(steps, rows, sys) != []
    ensures forall i, j :: 0 <= i < j < |FirstSeen(steps, rows)| ==> FirstSeen(steps, rows)[i] != FirstSeen(steps, rows)[j]
  {
    if rows != [] {
      var init, command := rows[..|rows| - 1], steps[rows[|rows| - 1]].command;
      FirstSeenIsBound(steps, init, sys);
      FirstSeenIsBound(steps, init, command.system);
    }
  }

  lemma FirstSeenNext(steps: Steps, rows: seq<StepId>, s: StepId)
    requires s in steps && forall i :: 0 <= i < |rows| ==> rows[i] in steps
    ensures FirstSeen(steps, rows + [s]) ==
      if steps[s].command.operation.CreateDisabled? && steps[s].command.system !in FirstSeen(steps, rows)
      then FirstSeen(steps, rows) + [steps[s].command.system] else FirstSeen(steps, rows)
  {
    assert (rows + [s])[..|rows|] == rows;
  }

  /** The list of commands read back: one a system, in the order the systems were first seen. */
  ghost predicate ReadBack(steps: Steps, rows: seq<StepId>, commands: seq<Command>)
    requires forall i :: 0 <= i < |rows| ==> rows[i] in steps
  {
    var systems := FirstSeen(steps, rows);
    |commands| == |systems| && forall i :: 0 <= i < |commands| ==> Bound(Binding(steps, rows, systems[i]), commands[i])
  }

  lemma NothingBound(steps: Steps)
    ensures BoundAfter(steps, [], map[]) && FirstSeen(steps, []) == []
  {
  }

  lemma SeenIsBound(steps: Steps, rows: seq<StepId>, current: map<TargetSystem, Command>, sys: TargetSystem)
    requires (forall i :: 0 <= i < |rows| ==> rows[i] in steps) && BoundAfter(steps, rows, current)
    ensures sys in FirstSeen(steps, rows) <==> sys in current
  {
    FirstSeenIsBound(steps, rows, sys);
    assert BoundOn(current, sys, Binding(steps, rows, sys));
  }

  lemma AllSeenAreBound(steps: Steps, rows: seq<StepId>, current: map<TargetSystem, Command>)
    requires (forall i :: 0 <= i < |rows| ==> rows[i] in steps) && BoundAfter(steps, rows, current)
    ensures forall sys :: sys in FirstSeen(steps, rows) ==> sys in current
  {
    forall sys | sys in FirstSeen(steps, rows)
      ensures sys in current
    {
      SeenIsBound(steps, rows, current, sys);
    }
  }

  lemma BoundIsReadBack(steps: Steps, rows: seq<StepId>, current: map<TargetSystem, Command>, commands: seq<Command>)
    requires (forall i :: 0 <= i < |rows| ==> rows[i] in steps) && BoundAfter(steps, rows, current)
    requires |commands| == |FirstSeen(steps, rows)|
    requires forall i :: 0 <= i < |commands| ==>
      FirstSeen(steps, rows)[i] in current && commands[i] == current[FirstSeen(steps, rows)[i]]
    ensures ReadBack(steps, rows, commands)
  {
    hide Binding, FirstSeen, Bound;
    forall i | 0 <= i < |commands|
      ensures Bound(Binding(steps, rows, FirstSeen(steps, rows)[i]), commands[i])
    {
      assert BoundOn(current, FirstSeen(steps, rows)[i], Binding(steps, rows, FirstSeen(steps, rows)[i]));
    }
  }

  lemma {:induction false} BindingOnSystem(steps: Steps, rows: seq<StepId>, sys: TargetSystem)
    requires forall i :: 0 <= i < |rows| ==> rows[i] in steps
    ensures forall i :: 0 <= i < |Binding(steps, rows, sys)| ==> Binding(steps, rows, sys)[i].system == sys
  {
    if rows != [] {
      BindingOnSystem(steps, rows[..|rows| - 1], sys);
    }
  }

  /** One row of the walk. */
  function BoundBy(current: map<TargetSystem, Command>, command: Command): map<TargetSystem, Command>
  {
    var held := if command.system in current then current[command.system].payload else Payloads.EMPTY;
    if command.system in current || command.operation.CreateDisabled?
    then current[command.system := command.(payload := Payloads.Merge(held, command.payload))] else current
  }

  lemma BindNext(steps: Steps, rows: seq<StepId>, current: map<TargetSystem, Command>, s: StepId)
    requires s in steps && forall i :: 0 <= i < |rows| ==> rows[i] in steps
    requires BoundAfter(steps, rows, current)
    ensures BoundAfter(steps, rows + [s], BoundBy(current, steps[s].command))
  {
    var command := steps[s].command;
    BindingSnoc(steps, rows, s);
    hide Binding, BoundOn, BoundBy;
    forall sys
      ensures BoundOn(BoundBy(current, command), sys, Binding(steps, rows + [s], sys))
    {
      BindOn(current, sys, Binding(steps, rows, sys), command);
    }
  }

  lemma BindOn(current: map<TargetSystem, Command>, sys: TargetSystem, binding: seq<Command>, command: Command)
    requires BoundOn(current, sys, binding)
    ensures BoundOn(BoundBy(current, command), sys,
      if command.system == sys && (binding != [] || command.operation.CreateDisabled?) then binding + [command] else binding)
  {
    PayloadsSnoc(binding, command);
    hide PayloadsOf, Payloads.FoldMerge, Payloads.Merge;
  }

  lemma BindingSnoc(steps: Steps, rows: seq<StepId>, s: StepId)
    requires s in steps && forall i :: 0 <= i < |rows| ==> rows[i] in steps
    ensures var command := steps[s].command;
      forall sys :: Binding(steps, rows + [s], sys) ==
        if command.system == sys && (Binding(steps, rows, sys) != [] || command.operation.CreateDisabled?)
        then Binding(steps, rows, sys) + [command] else Binding(steps, rows, sys)
  {
    assert (rows + [s])[..|rows|] == rows;
  }

  function PayloadsOf(commands: seq<Command>): seq<Payloads.Json>
  {
    seq(|commands|, i requires 0 <= i < |commands| => commands[i].payload)
  }

  lemma PayloadsSnoc(commands: seq<Command>, command: Command)
    ensures PayloadsOf(commands + [command]) == PayloadsOf(commands) + [command.payload]
    ensures Payloads.FoldMerge(PayloadsOf(commands + [command])) ==
              Payloads.Merge(Payloads.FoldMerge(PayloadsOf(commands)), command.payload)
    ensures commands == [] ==> Payloads.FoldMerge(PayloadsOf(commands)) == Payloads.EMPTY
  {
    var longer := PayloadsOf(commands + [command]);
    assert longer == PayloadsOf(commands) + [command.payload];
    assert longer[..|longer| - 1] == PayloadsOf(commands);
  }

  /** A later finished state change of another request of `e` on `system`. */
  predicate NewerOn(steps: Steps, e: EmployeeId, r: RequestId, s: StepId, system: TargetSystem, o: StepId)
    requires s in steps
  {
    && OfEmployee(steps, e, o)
    && steps[o].command.request != r
    && steps[o].updatedAt > steps[s].updatedAt
    && Finished(steps[o].state)
    && steps[o].command.system == system
    && StateChanging(steps[o].command.operation)
  }

  lemma NewerSupersedes(steps: Steps, e: EmployeeId, r: RequestId, s: StepId)
    requires s in steps
    ensures forall o :: NewerOn(steps, e, r, s, steps[s].command.system, o) <==> Supersedes(steps, e, r, s, o)
  {
  }

  // ---------------------------------------------------------------- granting access

  lemma {:induction false} NewestExists(steps: Steps, e: EmployeeId, sys: TargetSystem, s: StepId, rows: set<StepId>)
      returns (newest: StepId)
    requires rows <= steps.Keys && s in rows && Provisioning(steps, e, sys, s)
    ensures newest in rows && Provisioning(steps, e, sys, newest)
    ensures forall o :: o in rows && Provisioning(steps, e, sys, o) ==> steps[o].updatedAt <= steps[newest].updatedAt
    decreases |rows|
  {
    newest := s;
    if o :| o in rows && Provisioning(steps, e, sys, o) && steps[o].updatedAt > steps[s].updatedAt {
      newest := NewestExists(steps, e, sys, o, rows - {s});
    }
  }

  /** Blockers name the systems concerned, or say that there are none. */
  lemma StandsWhere(steps: Steps, verifications: Verifications, e: EmployeeId, required: set<TargetSystem>, systems: set<TargetSystem>)
    requires forall sys :: sys in systems <==> sys in required || Touched(steps, e, sys)
    ensures Stands(steps, verifications, e, required, NothingProvisioned) <==> systems == {}
    ensures forall b: Blocker :: b.Blocker? && Stands(steps, verifications, e, required, b) ==> b.system in systems
  {
    if systems == {} {
      assert forall sys :: Touched(steps, e, sys) ==> sys in systems;
    }
  }

  /** Nothing stands against a grant exactly when every system concerned is cleared. */
  lemma NoBlockersMeansReady(steps: Steps, verifications: Verifications, e: EmployeeId, required: set<TargetSystem>)
    requires FinishTimesUnique(steps)
    ensures (forall b :: !Stands(steps, verifications, e, required, b)) <==>
              ActivationReady(steps, verifications, e, required)
  {
    assert (!Stands(steps, verifications, e, required, NothingProvisioned)) <==>
             (required != {} || exists sys :: Touched(steps, e, sys));
    forall sys | sys in required || Touched(steps, e, sys)
      ensures (forall gap :: !Stands(steps, verifications, e, required, Blocker(sys, gap))) <==>
                Cleared(steps, verifications, e, sys)
    {
      ClearedMeansNoGap(steps, verifications, e, required, sys);
    }
    hide Cleared;
    forall b: Blocker | ActivationReady(steps, verifications, e, required)
      ensures !Stands(steps, verifications, e, required, b)
    {
      if b.Blocker? && (b.system in required || Touched(steps, e, b.system)) {
        assert Cleared(steps, verifications, e, b.system);
      }
    }
  }

  lemma ClearedMeansNoGap(steps: Steps, verifications: Verifications, e: EmployeeId, required: set<TargetSystem>, sys: TargetSystem)
    requires FinishTimesUnique(steps) && (sys in required || Touched(steps, e, sys))
    ensures (forall gap :: !Stands(steps, verifications, e, required, Blocker(sys, gap))) <==>
              Cleared(steps, verifications, e, sys)
  {
    if Touched(steps, e, sys) {
      var s :| Provisioning(steps, e, sys, s);
      var newest := NewestExists(steps, e, sys, s, steps.Keys);
      assert Newest(steps, e, sys, newest);
      NewestIsCandidate(steps, e, sys, newest);
      assert Stands(steps, verifications, e, required, Blocker(sys, CreatedDisabledMissing)) <==> !CreatedDisabled(steps, e, sys);
      if !Finished(steps[newest].state) {
        assert Stands(steps, verifications, e, required, Blocker(sys, ProvisioningIncomplete));
      } else {
        forall o | Newest(steps, e, sys, o)
          ensures o == newest
        {
        }
        assert !Stands(steps, verifications, e, required, Blocker(sys, ProvisioningIncomplete));
        assert Stands(steps, verifications, e, required, Blocker(sys, VerificationMissing)) <==>
                 ((e, sys) !in verifications || verifications[(e, sys)].source != newest);
      }
    } else {
      assert Stands(steps, verifications, e, required, Blocker(sys, VerificationMissing));
    }
  }

  /** A finished newest step is the candidate with nothing unfinished after it, and only that. */
  lemma NewestIsCandidate(steps: Steps, e: EmployeeId, sys: TargetSystem, newest: StepId)
    requires FinishTimesUnique(steps) && Newest(steps, e, sys, newest)
    ensures forall s :: (Candidate(steps, e, sys, s)
                         && forall o :: Provisioning(steps, e, sys, o) && !Finished(steps[o].state) ==>
                              steps[o].updatedAt < steps[s].updatedAt)
                        <==> s == newest && Finished(steps[newest].state)
  {
  }

  /** What stands against one system, read off its newest provisioning step. */
  lemma StandsByNewest(steps: Steps, verifications: Verifications, e: EmployeeId, required: set<TargetSystem>,
                       sys: TargetSystem, newest: StepId)
    requires FinishTimesUnique(steps) && Newest(steps, e, sys, newest)
    ensures forall gap :: Stands(steps, verifications, e, required, Blocker(sys, gap)) <==>
      match gap
      case CreatedDisabledMissing => !CreatedDisabled(steps, e, sys)
      case ProvisioningIncomplete => !Finished(steps[newest].state)
      case VerificationMissing =>
        Finished(steps[newest].state) && ((e, sys) !in verifications || verifications[(e, sys)].source != newest)
  {
    hide CreatedDisabled;
    forall o | Newest(steps, e, sys, o)
      ensures Finished(steps[o].state) <==> Finished(steps[newest].state)
      ensures Finished(steps[o].state) ==> o == newest
    {
    }
  }

  lemma StandsUntouched(steps: Steps, verifications: Verifications, e: EmployeeId, required: set<TargetSystem>, sys: TargetSystem)
    requires sys in required && !Touched(steps, e, sys)
    ensures forall gap :: Stands(steps, verifications, e, required, Blocker(sys, gap)) <==> !gap.ProvisioningIncomplete?
  {
  }

  // ---------------------------------------------------------------- the last step per system

  function SystemsOf(commands: seq<Command>): set<TargetSystem>
  {
    set i | 0 <= i < |commands| :: commands[i].system
  }

  /** One command a system, the later ones first. */
  ghost predicate OnePerSystem(steps: Steps, latest: seq<Command>)
  {
    && (forall i :: 0 <= i < |latest| ==> latest[i].stepId in steps && latest[i] == steps[latest[i].stepId].command)
    && (forall i, j :: 0 <= i < j < |latest| ==>
          latest[i].system != latest[j].system && latest[i].sequence > latest[j].sequence)
  }

  /** The finished steps in `passed`, which precede the rest backwards, left `latest`. */
  ghost predicate Walked(steps: Steps, r: RequestId, counts: Operation -> bool, passed: set<StepId>, latest: seq<Command>)
  {
    && OnePerSystem(steps, latest)
    && (forall i :: 0 <= i < |latest| ==> latest[i].stepId in passed && LastFinished(steps, r, counts, latest[i].stepId))
    && (forall s :: s in passed && s in steps && counts(steps[s].command.operation) ==>
          steps[s].command.system in SystemsOf(latest))
  }

  lemma WalkOn(steps: Steps, r: RequestId, counts: Operation -> bool, passed: set<StepId>, latest: seq<Command>, s: StepId)
    requires Walked(steps, r, counts, passed, latest)
    requires FinishedStep(steps, r, s) && s !in passed && steps[s].command.stepId == s
    requires forall o :: FinishedStep(steps, r, o) && o !in passed ==> steps[o].command.sequence <= steps[s].command.sequence
    requires forall o :: o in passed ==> FinishedStep(steps, r, o) && steps[o].command.sequence >= steps[s].command.sequence
    requires SequencesUnique(steps)
    ensures counts(steps[s].command.operation) && steps[s].command.system !in SystemsOf(latest) ==>
              Walked(steps, r, counts, passed + {s}, latest + [steps[s].command])
    ensures !(counts(steps[s].command.operation) && steps[s].command.system !in SystemsOf(latest)) ==>
              Walked(steps, r, counts, passed + {s}, latest)
  {
    var command := steps[s].command;
    if counts(command.operation) && command.system !in SystemsOf(latest) {
      OneMoreSystem(steps, latest, s);
      SystemsSnoc(latest, command);
      assert LastFinished(steps, r, counts, s) by {
        forall o | FinishedStep(steps, r, o) && counts(steps[o].command.operation) && steps[o].command.system == command.system
          ensures o !in passed
        {
        }
      }
      hide LastFinished, OnePerSystem;
    }
  }

  lemma OneMoreSystem(steps: Steps, latest: seq<Command>, s: StepId)
    requires OnePerSystem(steps, latest) && s in steps && steps[s].command.stepId == s
    requires steps[s].command.system !in SystemsOf(latest)
    requires forall i :: 0 <= i < |latest| ==> latest[i].sequence > steps[s].command.sequence
    ensures OnePerSystem(steps, latest + [steps[s].command])
  {
    forall i | 0 <= i < |latest|
      ensures latest[i].system != steps[s].command.system
    {
      assert latest[i].system in SystemsOf(latest);
    }
  }

  lemma SameLastFinished(steps: Steps, r: RequestId, counts: Operation -> bool, counts': Operation -> bool)
    requires forall operation :: counts(operation) == counts'(operation)
    ensures (set s | s in steps && LastFinished(steps, r, counts, s)) == set s | s in steps && LastFinished(steps, r, counts', s)
  {
    forall s
      ensures LastFinished(steps, r, counts, s) <==> LastFinished(steps, r, counts', s)
    {
    }
  }

  predicate FinishedStep(steps: Steps, r: RequestId, s: StepId)
  {
    InRequest(steps, r, s) && Finished(steps[s].state)
  }

  lemma SystemsSnoc(latest: seq<Command>, command: Command)
    ensures SystemsOf(latest + [command]) == SystemsOf(latest) + {command.system}
  {
    var longer := latest + [command];
    forall i | 0 <= i < |latest|
      ensures latest[i].system in SystemsOf(longer)
    {
      assert longer[i] == latest[i];
    }
    assert longer[|latest|] == command;
  }

  lemma NothingWalked(steps: Steps, r: RequestId, counts: Operation -> bool, none: set<StepId>)
    requires none == {}
    ensures Walked(steps, r, counts, none, []) && SystemsOf([]) == {}
  {
  }

  lemma WalkedAll(steps: Steps, r: RequestId, counts: Operation -> bool, passed: set<StepId>, latest: seq<Command>)
    requires Walked(steps, r, counts, passed, latest) && SequencesUnique(steps)
    requires forall s :: FinishedStep(steps, r, s) ==> s in passed
    ensures StepIds(latest) == set s | s in steps && LastFinished(steps, r, counts, s)
    ensures OnePerSystem(steps, latest)
  {
    forall s | s in steps && LastFinished(steps, r, counts, s)
      ensures s in StepIds(latest)
    {
      assert FinishedStep(steps, r, s);
      var i :| 0 <= i < |latest| && latest[i].system == steps[s].command.system;
      assert LastFinished(steps, r, counts, latest[i].stepId);
      assert latest[i].stepId == s;
    }
  }

  // ---------------------------------------------------------------- the newest-first fold

  /** What the walk over an employee's rows, newest first, keeps: the first provisioning
      step seen on each system, and the systems with a finished creation. */
  ghost predicate Folded(steps: Steps, e: EmployeeId, taken: set<StepId>,
                         latest: map<TargetSystem, StepId>, created: set<TargetSystem>)
  {
    && (forall sys :: sys in latest ==>
          latest[sys] in taken && Provisioning(steps, e, sys, latest[sys])
          && forall o :: o in taken && Provisioning(steps, e, sys, o) ==> steps[o].updatedAt <= steps[latest[sys]].updatedAt)
    && (forall sys, o :: o in taken && Provisioning(steps, e, sys, o) ==> sys in latest)
    && (forall sys :: sys in created <==> exists s :: s in taken && Creates(steps, e, sys, s))
  }

  predicate Creates(steps: Steps, e: EmployeeId, sys: TargetSystem, s: StepId)
  {
    Provisioning(steps, e, sys, s) && steps[s].command.operation.CreateDisabled? && Finished(steps[s].state)
  }

  lemma NothingFolded(steps: Steps, e: EmployeeId, none: set<StepId>)
    requires none == {}
    ensures Folded(steps, e, none, map[], {})
  {
  }

  /** One row of the walk. */
  lemma FoldOn(steps: Steps, e: EmployeeId, taken: set<StepId>, latest: map<TargetSystem, StepId>,
               created: set<TargetSystem>, s: StepId)
    requires Folded(steps, e, taken, latest, created) && OfEmployee(steps, e, s)
    requires forall o :: o in taken ==> o in steps && steps[o].updatedAt >= steps[s].updatedAt
    ensures var sys := steps[s].command.system;
      Folded(steps, e, taken + {s},
             if Provisioning(steps, e, sys, s) && sys !in latest then latest[sys := s] else latest,
             if Creates(steps, e, sys, s) then created + {sys} else created)
  {
    var sys := steps[s].command.system;
    var created' := if Creates(steps, e, sys, s) then created + {sys} else created;
    forall x | x in created'
      ensures exists o :: o in taken + {s} && Creates(steps, e, x, o)
    {
      if x in created {
        var o :| o in taken && Creates(steps, e, x, o);
        assert o in taken + {s};
      } else {
        assert s in taken + {s} && Creates(steps, e, x, s);
      }
    }
  }

  lemma FoldedAll(steps: Steps, e: EmployeeId, taken: set<StepId>, latest: map<TargetSystem, StepId>,
                  created: set<TargetSystem>, sys: TargetSystem)
    requires Folded(steps, e, taken, latest, created)
    requires forall s :: OfEmployee(steps, e, s) ==> s in taken
    ensures sys in latest <==> Touched(steps, e, sys)
    ensures sys in latest ==> Newest(steps, e, sys, latest[sys])
    ensures sys in created <==> CreatedDisabled(steps, e, sys)
  {
    if CreatedDisabled(steps, e, sys) {
      var s :| Provisioning(steps, e, sys, s) && steps[s].command.operation.CreateDisabled? && Finished(steps[s].state);
      assert s in taken && Creates(steps, e, sys, s);
    }
  }

  lemma ClaimableRow(steps: Steps, r: RequestId, s: StepId, t: Time)
    requires Claimable(steps, r, s, t)
    ensures s in steps && steps[s].command.request == r
  {
  }
}
