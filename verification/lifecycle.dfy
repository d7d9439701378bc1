/** lifecycle(): a later request on an employee's accounts inherits the binding that earlier
    ones left. The binding is read before the employee's lock is taken, so others may finish
    steps on the same system between the read and the request's own steps: the inheritance
    leaves no trace in what is read back afterwards exactly when nothing it puts back has
    changed since the read. */
module Lifecycle {
  import opened Contracts
  import opened Tables
  import opened Frontier
  import opened Views
  import opened Repository
  import opened Payloads
  import opened Protocol
  import opened History
  import opened Timelines

  /** The caller's payload laid over the binding of its system, if there is one. */
  function Inherited(binding: seq<Command>, raw: Json): Json
  {
    if binding == [] then raw else Overlay(FoldMerge(PayloadsOf(binding)), raw)
  }

  /** What a step's payload becomes, given the employee's finished steps. */
  ghost predicate Enriches(steps: Steps, timeline: seq<StepId>, before: Command, after: Command)
    requires forall i :: 0 <= i < |timeline| ==> timeline[i] in steps
  {
    after == before.(payload := Inherited(Binding(steps, timeline, before.system), before.payload))
  }

  /** {command.target_system: command for command in commands} */
  method ByTarget(commands: seq<Command>) returns (prior: map<TargetSystem, Command>)
    requires forall i, j :: 0 <= i < j < |commands| ==> commands[i].system != commands[j].system
    ensures forall sys :: sys in prior <==> exists i :: 0 <= i < |commands| && commands[i].system == sys
    ensures forall i :: 0 <= i < |commands| ==> commands[i].system in prior && prior[commands[i].system] == commands[i]
  {
    prior := map[];
    var n := 0;
    while n < |commands|
      invariant 0 <= n <= |commands|
      invariant forall sys :: sys in prior <==> exists i :: 0 <= i < n && commands[i].system == sys
      invariant forall i :: 0 <= i < n ==> commands[i].system in prior && prior[commands[i].system] == commands[i]
    {
      prior := prior[commands[n].system := commands[n]];
      n := n + 1;
    }
  }

  lemma ReadBackFacts(steps: Steps, rows: seq<StepId>, commands: seq<Command>)
    requires (forall i :: 0 <= i < |rows| ==> rows[i] in steps) && ReadBack(steps, rows, commands)
    ensures |commands| == |FirstSeen(steps, rows)|
    ensures forall i :: 0 <= i < |commands| ==> commands[i].system == FirstSeen(steps, rows)[i]
    ensures forall i, j :: 0 <= i < j < |commands| ==> commands[i].system != commands[j].system
  {
    FirstSeenIsBound(steps, rows, Odoo);
    hide Binding, FirstSeen;
    forall i | 0 <= i < |commands|
      ensures commands[i].system == FirstSeen(steps, rows)[i]
    {
      BindingOnSystem(steps, rows, FirstSeen(steps, rows)[i]);
    }
  }

  lemma PriorIsBound(steps: Steps, rows: seq<StepId>, commands: seq<Command>, prior: map<TargetSystem, Command>)
    requires (forall i :: 0 <= i < |rows| ==> rows[i] in steps) && ReadBack(steps, rows, commands)
    requires |commands| == |FirstSeen(steps, rows)|
    requires forall i :: 0 <= i < |commands| ==> commands[i].system == FirstSeen(steps, rows)[i]
    requires forall sys :: sys in prior <==> exists i :: 0 <= i < |commands| && commands[i].system == sys
    requires forall i :: 0 <= i < |commands| ==> commands[i].system in prior && prior[commands[i].system] == commands[i]
    ensures BoundAfter(steps, rows, prior)
  {
    hide Binding, FirstSeen, Bound;
    forall sys
      ensures BoundOn(prior, sys, Binding(steps, rows, sys))
    {
      FirstSeenIsBound(steps, rows, sys);
    }
  }

  lemma BoundHere(steps: Steps, rows: seq<StepId>, prior: map<TargetSystem, Command>, sys: TargetSystem)
    requires (forall i :: 0 <= i < |rows| ==> rows[i] in steps) && BoundAfter(steps, rows, prior)
    ensures BoundOn(prior, sys, Binding(steps, rows, sys))
  {
  }

  /** {**previous.payload, **step.payload} */
  method Combined(previous: Command, step: Command) returns (combined: Command)
    ensures combined == step.(payload := Overlay(previous.payload, step.payload))
  {
    combined := step;
    if previous.payload.Object? && step.payload.Object? {
      combined := step.(payload := Object(previous.payload.fields + step.payload.fields));
    }
  }

  method PriorBindings(repository: StateRepository, e: EmployeeId)
      returns (prior: map<TargetSystem, Command>, ghost timeline: seq<StepId>)
    requires Keyed(repository.executions, repository.steps) && FinishTimesUnique(repository.steps)
    ensures Timeline(repository.steps, e, timeline) && BoundAfter(repository.steps, timeline, prior)
  {
    hide Keyed, FinishTimesUnique, ReadBack, BoundAfter, Binding, FirstSeen;
    var commands := repository.EmployeeCommands(e);
    timeline :| Timeline(repository.steps, e, timeline) && ReadBack(repository.steps, timeline, commands);
    ReadBackFacts(repository.steps, timeline, commands);
    prior := ByTarget(commands);
    PriorIsBound(repository.steps, timeline, commands, prior);
  }

  method Enrich(repository: StateRepository, e: EmployeeId, submission: Submission)
      returns (enriched: Submission, ghost timeline: seq<StepId>)
    requires Keyed(repository.executions, repository.steps) && FinishTimesUnique(repository.steps)
    ensures Timeline(repository.steps, e, timeline)
    ensures enriched == submission.(steps := enriched.steps) && |enriched.steps| == |submission.steps|
    ensures forall i :: 0 <= i < |submission.steps| ==>
      Enriches(repository.steps, timeline, submission.steps[i], enriched.steps[i])
  {
    var prior;
    prior, timeline := PriorBindings(repository, e);
    hide Timeline, PayloadsOf, FoldMerge, Binding, Overlay, BoundAfter, Keyed, FinishTimesUnique;
    var steps: seq<Command> := [];
    var i := 0;
    while i < |submission.steps|
      invariant 0 <= i <= |submission.steps| && |steps| == i
      invariant forall j :: 0 <= j < i ==> Enriches(repository.steps, timeline, submission.steps[j], steps[j])
    {
      var step := submission.steps[i];
      BoundHere(repository.steps, timeline, prior, step.system);
      if step.system in prior {
        step := Combined(prior[step.system], step);
      }
      steps := steps + [step];
      i := i + 1;
    }
    enriched := submission.(steps := steps);
  }

  /** Once a step enriched from the binding `read` has finished after the steps of `binding`,
      its system reads back as if the caller's own payload had been merged, exactly when the
      entries it puts back still stand in `binding`. */
  lemma InheritanceIsInvisibleExactly(read: seq<Command>, binding: seq<Command>, command: Command, raw: Json)
    requires raw.Object?
    requires forall i :: 0 <= i < |read| ==> read[i].payload.Object?
    requires forall i :: 0 <= i < |binding| ==> binding[i].payload.Object?
    requires command.payload == Inherited(read, raw)
    ensures FoldMerge(PayloadsOf(read)).Object? && FoldMerge(PayloadsOf(binding)).Object?
    ensures FoldMerge(PayloadsOf(binding + [command])) == Merge(FoldMerge(PayloadsOf(binding)), raw)
      <==> StillHeld(FoldMerge(PayloadsOf(binding)), FoldMerge(PayloadsOf(read)), raw)
  {
    PayloadsSnoc(binding, command);
    PayloadsSnoc(read, command);
    FoldMergeIsObject(PayloadsOf(read));
    FoldMergeIsObject(PayloadsOf(binding));
    hide FoldMerge, PayloadsOf, Merge, Overlay, StillHeld;
    OverlayIsTransparentExactly(FoldMerge(PayloadsOf(binding)), FoldMerge(PayloadsOf(read)), raw);
    OverlayEmpty(raw);
  }

  lemma OverlayEmpty(raw: Json)
    requires raw.Object?
    ensures Overlay(EMPTY, raw) == raw
  {
    assert Overlay(EMPTY, raw).fields == raw.fields;
  }

  /** When nothing finished on the system since the read, the inheritance is invisible. */
  lemma InheritanceIsInvisible(binding: seq<Command>, command: Command, raw: Json)
    requires raw.Object? && forall i :: 0 <= i < |binding| ==> binding[i].payload.Object?
    requires command.payload == Inherited(binding, raw)
    ensures FoldMerge(PayloadsOf(binding + [command])) == Merge(FoldMerge(PayloadsOf(binding)), raw)
  {
    InheritanceIsInvisibleExactly(binding, binding, command, raw);
    hide FoldMerge, PayloadsOf, Merge;
    var now := FoldMerge(PayloadsOf(binding));
    forall k | k in now.fields
      ensures Holds(now.fields[k], now.fields[k])
    {
      HoldsItself(now.fields[k]);
    }
  }

  function UpdateOf(id: StepId, sequence: nat, payload: Json): Command
  {
    Command(id, "later", "someone", Odoo, Update, sequence, 1, id, payload)
  }

  /** A valid request with two steps on one system: both inherit the value the first one
      changes, and the second puts it back. */
  lemma TwoStepsRevert(create: Command, first: Json, second: Json)
    requires create.payload == Object(map["a" := Number(1.0)])
    requires first == Object(map["a" := Number(2.0)]) && second == Object(map["b" := Number(3.0)])
    ensures WellFormed(Submission("later", "someone", "", "key", [UpdateOf("first", 0, first), UpdateOf("second", 1, second)]))
    ensures FoldMerge(PayloadsOf([create, UpdateOf("first", 0, Inherited([create], first)),
                                  UpdateOf("second", 1, Inherited([create], second))]))
              == Object(map["a" := Number(1.0), "b" := Number(3.0)])
    ensures FoldMerge(PayloadsOf([create, UpdateOf("first", 0, first), UpdateOf("second", 1, second)]))
              == Object(map["a" := Number(2.0), "b" := Number(3.0)])
  {
    UpdatesWellFormed(first, second);
    hide WellFormed, NoInlineSecrets;
    StaleEnrichmentReverts(create.payload, first, second);
    ReadOne(create, "a", 1.0);
    ReadOneOverlay(create, first, second);
    hide FoldTo, Merge, Overlay, PayloadsOf, FoldMerge, Inherited;
    WholeFold([create.payload, first, Overlay(create.payload, second)]);
    WholeFold([create.payload, first, second]);
  }

  lemma UpdatesWellFormed(first: Json, second: Json)
    requires first == Object(map["a" := Number(2.0)]) && second == Object(map["b" := Number(3.0)])
    ensures WellFormed(Submission("later", "someone", "", "key", [UpdateOf("first", 0, first), UpdateOf("second", 1, second)]))
  {
    HarmlessKey("a", 2.0);
    HarmlessKey("b", 3.0);
    hide NoInlineSecrets;
  }

  lemma ReadOne(create: Command, key: string, value: real)
    requires create.payload == Object(map[key := Number(value)])
    ensures FoldMerge(PayloadsOf([create])) == create.payload
  {
    PayloadsSnoc([], create);
    assert [] + [create] == [create];
    assert Merge(EMPTY, create.payload).fields == create.payload.fields;
  }

  lemma ReadOneOverlay(create: Command, first: Json, second: Json)
    requires FoldMerge(PayloadsOf([create])) == create.payload
    requires create.payload.Object? && first.Object? && create.payload.fields.Keys <= first.fields.Keys
    ensures PayloadsOf([create, UpdateOf("first", 0, Inherited([create], first)), UpdateOf("second", 1, Inherited([create], second))])
              == [create.payload, first, Overlay(create.payload, second)]
    ensures PayloadsOf([create, UpdateOf("first", 0, first), UpdateOf("second", 1, second)]) == [create.payload, first, second]
  {
    hide FoldMerge;
    assert Overlay(create.payload, first).fields == first.fields;
  }

  lemma WholeFold(stored: seq<Json>)
    ensures FoldTo(stored, |stored|) == FoldMerge(stored)
  {
    FoldToIsFoldMerge(stored, |stored|);
    assert stored[..|stored|] == stored;
  }

  lemma HarmlessKey(key: string, value: real)
    requires key == "a" || key == "b"
    ensures NoInlineSecrets(Object(map[key := Number(value)]))
  {
    var payload := Object(map[key := Number(value)]);
    assert Lowered(key) == key;
    assert NestedKeys(payload.fields[key]) == {};
    assert NestedKeys(payload) <= {key};
    ReferenceExemptionIsIdle(payload);
  }

  // ---------------------------------------------------------------- in a run

  lemma {:induction false} BindingStays(steps: Steps, steps': Steps, rows: seq<StepId>, sys: TargetSystem)
    requires forall i :: 0 <= i < |rows| ==> rows[i] in steps && rows[i] in steps' && steps'[rows[i]].command == steps[rows[i]].command
    ensures Binding(steps', rows, sys) == Binding(steps, rows, sys)
  {
    if rows != [] {
      BindingStays(steps, steps', rows[..|rows| - 1], sys);
    }
  }

  /** Steps on other systems do not change a binding. */
  lemma {:induction false} BindingUnaffected(steps: Steps, rows: seq<StepId>, n: nat, sys: TargetSystem)
    requires n <= |rows| && forall i :: 0 <= i < |rows| ==> rows[i] in steps
    requires forall i :: n <= i < |rows| ==> steps[rows[i]].command.system != sys
    ensures Binding(steps, rows, sys) == Binding(steps, rows[..n], sys)
  {
    if n < |rows| {
      var init := rows[..|rows| - 1];
      BindingUnaffected(steps, init, n, sys);
      assert init[..n] == rows[..n];
    } else {
      assert rows[..n] == rows;
    }
  }

  lemma {:induction false} BindingObjects(steps: Steps, rows: seq<StepId>, sys: TargetSystem)
    requires forall i :: 0 <= i < |rows| ==> rows[i] in steps && steps[rows[i]].command.payload.Object?
    ensures forall i :: 0 <= i < |Binding(steps, rows, sys)| ==> Binding(steps, rows, sys)[i].payload.Object?
  {
    if rows != [] {
      BindingObjects(steps, rows[..|rows| - 1], sys);
    }
  }

  /** The employee's timeline is `rows`, and all payloads are dictionaries. */
  ghost predicate Read(steps: Steps, e: EmployeeId, rows: seq<StepId>)
  {
    && (forall i :: 0 <= i < |rows| ==> rows[i] in steps && steps[rows[i]].command.payload.Object?)
    && Timeline(steps, e, rows)
  }

  /** lifecycle() read the binding in state `m` of a run, and its step `s` on `sys` finished
      last of all in state `n`. Then its system reads back as if the caller's own payload had
      been merged over what was stored before, exactly when the entries it put back still
      stood; in particular when no other step on the system finished since the read. */
  lemma InheritanceInRuns(run: Run, m: nat, n: nat, e: EmployeeId, read: seq<StepId>, before: seq<StepId>, s: StepId, raw: Json)
    requires IsRun(run) && m <= n < |run.states| && raw.Object?
    requires Read(run.states[m].db.steps, e, read) && s !in read
    requires Read(run.states[n].db.steps, e, before + [s])
    requires var steps := run.states[n].db.steps;
      && s in steps && (forall i :: 0 <= i < |before| ==> before[i] in steps)
      && steps[s].command.payload == Inherited(Binding(run.states[m].db.steps, read, steps[s].command.system), raw)
      && (Binding(steps, before, steps[s].command.system) != [] || steps[s].command.operation.CreateDisabled?)
    ensures read <= before
    ensures var steps, sys := run.states[n].db.steps, run.states[n].db.steps[s].command.system;
      var past, now := FoldMerge(PayloadsOf(Binding(steps, read, sys))), FoldMerge(PayloadsOf(Binding(steps, before, sys)));
      && past.Object? && now.Object?
      && (FoldMerge(PayloadsOf(Binding(steps, before + [s], sys))) == Merge(now, raw) <==> StillHeld(now, past, raw))
      && ((forall i :: |read| <= i < |before| ==> steps[before[i]].command.system != sys) ==>
            FoldMerge(PayloadsOf(Binding(steps, before + [s], sys))) == Merge(now, raw))
  {
    var start, steps := run.states[m].db, run.states[n].db.steps;
    var sys := steps[s].command.system;
    RunsKeepAll(run, m);
    RunFinishesLater(run, m, n);
    hide IsRun, HistoryOk, FinishesLater;
    TimelineGrows(start, run.states[n].db, e, read, before + [s]);
    hide Timeline;
    ReadFirst(read, before, s);
    SameCommands(start.steps, steps, read);
    BindingStays(start.steps, steps, read, sys);
    assert (before + [s])[..|before|] == before;
    assert Binding(steps, before + [s], sys) == Binding(steps, before, sys) + [steps[s].command];
    forall i | 0 <= i < |before|
      ensures before[i] in steps && steps[before[i]].command.payload.Object?
    {
      assert (before + [s])[i] == before[i];
    }
    BindingObjects(steps, before, sys);
    BindingObjects(steps, read, sys);
    hide Binding, PayloadsOf, FoldMerge, Merge, StillHeld, Inherited;
    InheritanceIsInvisibleExactly(Binding(steps, read, sys), Binding(steps, before, sys), steps[s].command, raw);
    if forall i :: |read| <= i < |before| ==> steps[before[i]].command.system != sys {
      BindingUnaffected(steps, before, |read|, sys);
      InheritanceIsInvisible(Binding(steps, before, sys), steps[s].command, raw);
    }
  }

  lemma ReadFirst(read: seq<StepId>, before: seq<StepId>, s: StepId)
    requires read <= before + [s] && s !in read
    ensures read <= before && read == before[..|read|]
  {
    if read != [] {
      assert read[|read| - 1] == (before + [s])[|read| - 1] && read[|read| - 1] in read;
    }
  }

  lemma SameCommands(steps: Steps, steps': Steps, rows: seq<StepId>)
    requires StepsStay(steps, steps') && forall i :: 0 <= i < |rows| ==> rows[i] in steps
    ensures forall i :: 0 <= i < |rows| ==> rows[i] in steps' && steps'[rows[i]].command == steps[rows[i]].command
  {
  }

  /** The enriched request still passes validation when the stored commands did. */
  lemma EnrichedStaysWellFormed(steps: Steps, timeline: seq<StepId>, submission: Submission, enriched: Submission)
    requires forall i :: 0 <= i < |timeline| ==> timeline[i] in steps && NoInlineSecrets(steps[timeline[i]].command.payload)
    requires WellFormed(submission)
    requires enriched == submission.(steps := enriched.steps) && |enriched.steps| == |submission.steps|
    requires forall i :: 0 <= i < |submission.steps| ==> Enriches(steps, timeline, submission.steps[i], enriched.steps[i])
    ensures WellFormed(enriched)
  {
    forall i | 0 <= i < |enriched.steps|
      ensures NoInlineSecrets(enriched.steps[i].payload)
    {
      var before := submission.steps[i];
      assert Enriches(steps, timeline, before, enriched.steps[i]);
      BindingClean(steps, timeline, before.system);
      hide NoInlineSecrets, PayloadsOf, Binding, Overlay, FoldMerge;
      RebuiltPayloadsStayClean(PayloadsOf(Binding(steps, timeline, before.system)), before.payload);
    }
    hide NoInlineSecrets, Binding, Inherited;
    forall i, j | 0 <= i < j < |enriched.steps|
      ensures enriched.steps[i].sequence != enriched.steps[j].sequence
    {
      assert Enriches(steps, timeline, submission.steps[i], enriched.steps[i]);
      assert Enriches(steps, timeline, submission.steps[j], enriched.steps[j]);
    }
    forall i | 0 <= i < |enriched.steps|
      ensures enriched.steps[i].(payload := Null) == submission.steps[i].(payload := Null)
    {
      assert Enriches(steps, timeline, submission.steps[i], enriched.steps[i]);
    }
  }

  lemma {:induction false} BindingClean(steps: Steps, timeline: seq<StepId>, sys: TargetSystem)
    requires forall i :: 0 <= i < |timeline| ==> timeline[i] in steps && NoInlineSecrets(steps[timeline[i]].command.payload)
    ensures forall p :: p in PayloadsOf(Binding(steps, timeline, sys)) ==> NoInlineSecrets(p)
  {
    hide NoInlineSecrets;
    if timeline != [] {
      var init := timeline[..|timeline| - 1];
      BindingClean(steps, init, sys);
      PayloadsSnoc(Binding(steps, init, sys), steps[timeline[|timeline| - 1]].command);
    }
  }
}
