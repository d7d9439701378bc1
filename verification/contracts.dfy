/** Requests, steps and their vocabulary, as the API contracts validate them. */
module Contracts {
  import Payloads

  type RequestId = string
  type EmployeeId = string
  type StepId = string
  type Key = string

  datatype Option<+T> = None | Some(value: T)

  datatype TargetSystem =
    | Odoo | Keycloak | Vicidial | Sip | AgentDesktop | EmailProvider
    | N8nEvent | SecretStorage | Verification | Reconciliation

  datatype Operation =
    | CreateDisabled | Update | Verify | Activate | Suspend
    | Reactivate | Terminate | RotateCredentials | Reconcile | Cancel

  datatype StepState =
    | Pending | Running | RetryWait | Succeeded | Verified | Failed | DeadLetter | Compensated

  /** A step as it is stored: never changed after submission. */
  datatype Command = Command(
    stepId: StepId,
    request: RequestId,
    employee: EmployeeId,
    system: TargetSystem,
    operation: Operation,
    sequence: nat,
    maxAttempts: nat,
    key: Key,
    payload: Payloads.Json)

  /** A request body. The canonical hash is treated as injective, so the store compares
      whole submissions where the program compares hashes. */
  datatype Submission = Submission(
    request: RequestId,
    employee: EmployeeId,
    correlation: string,
    key: Key,
    steps: seq<Command>)

  predicate Finished(state: StepState)
  {
    state.Succeeded? || state.Verified?
  }

  predicate Done(state: StepState)
  {
    Finished(state) || state.Compensated?
  }

  predicate Waiting(state: StepState)
  {
    state.Pending? || state.RetryWait?
  }

  /** Operations whose result must be verified before access is granted. */
  predicate Provisions(operation: Operation)
  {
    operation.CreateDisabled? || operation.Update?
  }

  predicate GrantsAccess(operation: Operation)
  {
    operation.Activate? || operation.Reactivate?
  }

  predicate Compensable(operation: Operation)
  {
    Provisions(operation) || operation.Activate?
  }

  predicate StateChanging(operation: Operation)
  {
    Provisions(operation) || GrantsAccess(operation) || operation.Suspend? || operation.Terminate?
  }

  /** The state a step reaches when its adapter call succeeds. */
  function SuccessState(operation: Operation): (state: StepState)
    ensures Finished(state) && (state.Verified? <==> operation.Verify? || operation.Reconcile?)
  {
    if operation.Verify? || operation.Reconcile? then Verified else Succeeded
  }

  /** Compensation removes excess access in Odoo and suspends every other account. */
  function CompensatingAction(system: TargetSystem): (action: Operation)
    ensures !GrantsAccess(action) && (action.Update? <==> system.Odoo?) && (action.Suspend? <==> !system.Odoo?)
  {
    if system.Odoo? then Update else Suspend
  }

  /** What validation guarantees about a request that reaches the engine. */
  ghost predicate WellFormed(submission: Submission)
  {
    var steps := submission.steps;
    && 1 <= |steps| <= 32
    && (forall i, j :: 0 <= i < j < |steps| ==> steps[i].sequence != steps[j].sequence)
    && forall i :: 0 <= i < |steps| ==>
         && steps[i].request == submission.request
         && steps[i].employee == submission.employee
         && 1 <= steps[i].maxAttempts <= 8
         && steps[i].sequence <= 100
         && Payloads.NoInlineSecrets(steps[i].payload)
  }

  /** A request that grants access may not do anything else. */
  ghost predicate UnmixedAccess(submission: Submission)
  {
    (exists i :: 0 <= i < |submission.steps| && GrantsAccess(submission.steps[i].operation)) ==>
      forall i :: 0 <= i < |submission.steps| ==> GrantsAccess(submission.steps[i].operation)
  }

  /** The systems a request asks to grant access to. */
  function AccessSystems(submission: Submission): (systems: set<TargetSystem>)
    ensures forall sys :: sys in systems <==>
      exists i :: 0 <= i < |submission.steps| && submission.steps[i].system == sys
                  && (submission.steps[i].operation.Activate? || submission.steps[i].operation.Reactivate?)
  {
    set i | 0 <= i < |submission.steps| && GrantsAccess(submission.steps[i].operation) :: submission.steps[i].system
  }

  // ---------------------------------------------------------------- validation

  function SequencesOf(steps: seq<Command>): set<nat>
  {
    set i | 0 <= i < |steps| :: steps[i].sequence
  }

  /** The validators of a request body, field limits included: as many sequence numbers as
      steps, and every step of the request's own envelope. */
  predicate Validated(submission: Submission)
  {
    var steps := submission.steps;
    && 1 <= |steps| && |steps| <= 32
    && |SequencesOf(steps)| == |steps|
    && forall i | 0 <= i < |steps| ::
         && steps[i].request == submission.request && steps[i].employee == submission.employee
         && steps[i].sequence <= 100 && 1 <= steps[i].maxAttempts && steps[i].maxAttempts <= 8
         && Payloads.NoInlineSecrets(steps[i].payload)
  }

  ghost predicate DistinctSequences(steps: seq<Command>)
  {
    forall i, j :: 0 <= i < j < |steps| ==> steps[i].sequence != steps[j].sequence
  }

  lemma {:induction false} FewSequences(steps: seq<Command>)
    ensures |SequencesOf(steps)| <= |steps|
    ensures |SequencesOf(steps)| == |steps| <==> DistinctSequences(steps)
  {
    if steps != [] {
      hide DistinctSequences, SequencesOf;
      var init, last := steps[..|steps| - 1], steps[|steps| - 1];
      FewSequences(init);
      SequencesSnoc(init, last);
      DistinctSnoc(init, last);
      assert steps == init + [last];
    }
  }

  lemma DistinctSnoc(init: seq<Command>, last: Command)
    ensures DistinctSequences(init + [last]) <==> DistinctSequences(init) && last.sequence !in SequencesOf(init)
  {
    var steps := init + [last];
    assert forall i :: 0 <= i < |init| ==> steps[i] == init[i];
    if DistinctSequences(steps) {
      forall i | 0 <= i < |init|
        ensures init[i].sequence != last.sequence
      {
        assert steps[i].sequence != steps[|init|].sequence;
      }
    }
    forall i | 0 <= i < |init|
      ensures init[i].sequence in SequencesOf(init)
    {
    }
  }

  lemma SequencesSnoc(init: seq<Command>, last: Command)
    ensures SequencesOf(init + [last]) == SequencesOf(init) + {last.sequence}
  {
    var steps := init + [last];
    forall i | 0 <= i < |init|
      ensures init[i].sequence in SequencesOf(steps)
    {
      assert steps[i] == init[i];
    }
    assert steps[|init|] == last;
  }

  /** The validators accept exactly the well-formed requests. */
  lemma ValidatedIsWellFormed(submission: Submission)
    ensures Validated(submission) <==> WellFormed(submission)
  {
    FewSequences(submission.steps);
    hide Payloads.NoInlineSecrets, SequencesOf;
  }
}
