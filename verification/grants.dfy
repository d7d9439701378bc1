/** Verified before active, seen from the tables: what an activation call finds at the moment
    it starts, on every system the employee has provisioning steps on. */
module Grants {
  import opened Contracts
  import opened Tables
  import opened Frontier
  import opened Protocol
  import opened Isolation
  import opened History

  /** The action starts the adapter call of a step that grants access. */
  predicate Activates(s: State, a: Action, command: Command)
  {
    && a.Act? && a.task in s.tasks && a.move.Dispatch? && a.pc.Calling?
    && s.tasks[a.task].pc.Gated? && s.tasks[a.task].pc.step in s.db.steps
    && command == s.db.steps[s.tasks[a.task].pc.step].command
    && GrantsAccess(command.operation)
  }

  lemma {:induction false} LogOnlyGrows(run: Run, m: nat, n: nat)
    requires IsRun(run) && m <= n < |run.states|
    ensures run.states[m].log <= run.states[n].log
    decreases n - m
  {
    if m < n {
      LogOnlyGrows(run, m, n - 1);
      assert Step(run.states[n - 1], run.actions[n - 1], run.states[n]);
      hide Init;
    }
  }

  lemma ActivationStarts(s: State, a: Action, s': State, command: Command)
    requires Step(s, a, s') && Activates(s, a, command)
    ensures s'.log == s.log + [Started(Execution, command, command.operation)]
    ensures ActivationReady(s.db.steps, s.db.verifications, command.employee, {command.system})
  {
    hide ActivationReady, CompensationTargets, Release, Fail;
  }

  lemma TouchedWasProvisioned(steps: Steps, verifications: Verifications, log: Log, e: EmployeeId, sys: TargetSystem)
    requires LogFacts(steps, verifications, log) && Cleared(steps, verifications, e, sys)
    ensures ProvisionedBefore(log, |log|, e, sys)
  {
    var s :| Provisioning(steps, e, sys, s) && steps[s].command.operation.CreateDisabled? && Finished(steps[s].state);
    assert FinishedLogged(steps, log);
    assert LoggedCompletion(log, steps[s].command);
    var k :| 0 <= k < |log| && log[k] == Completed(steps[s].command);
    assert ProvisionedAt(log[k], e, sys);
  }

  /** In every run, when an activation call starts, each system on which its employee has any
      provisioning step in force, finished or not, has had an account created disabled and
      its last finished provisioning step verified, and none other finishes there before the
      call has ended. */
  lemma ActivationsSeeEverySystem(run: Run, k: nat, n: nat, command: Command, sys: TargetSystem)
    requires IsRun(run) && k < n < |run.states| && Activates(run.states[k], run.actions[k], command)
    requires sys == command.system || Touched(run.states[k].db.steps, command.employee, sys)
    ensures var i := |run.states[k].log|;
      && i < |run.states[n].log| && run.states[n].log[i] == Started(Execution, command, command.operation)
      && VerifiedOn(run.states[n].log, i, command.employee, sys)
  {
    RunLength(run);
    hide IsRun, SystemOk, HistoryOk, Step, LogFacts, Cleared, VerifiedOn, ProvisionedBefore, Touched, VerifiedBeforeActive;
    var s, log, i := run.states[k], run.states[n].log, |run.states[k].log|;
    StepOf(run, k);
    RunsKeepAll(run, k);
    ActivationFinds(s, run.actions[k], run.states[k + 1], command, sys);
    hide Activates;
    LogOnlyGrows(run, k + 1, n);
    assert log[i] == run.states[k + 1].log[i];
    if sys != command.system {
      ProvisionedStays(s.log, log, i, command.employee, sys);
    }
    ActivationsAreVerified(run, n);
    VerifiedHere(log, i, sys);
  }

  lemma ActivationFinds(s: State, a: Action, s': State, command: Command, sys: TargetSystem)
    requires Step(s, a, s') && HistoryOk(s) && Activates(s, a, command)
    requires sys == command.system || Touched(s.db.steps, command.employee, sys)
    ensures s'.log == s.log + [Started(Execution, command, command.operation)] && IsActivation(Started(Execution, command, command.operation))
    ensures sys == command.system || ProvisionedBefore(s.log, |s.log|, command.employee, sys)
  {
    hide HistoryOk, Step, LogFacts, Cleared, ProvisionedBefore, Touched;
    ActivationStarts(s, a, s', command);
    TablesLogged(s);
    if sys != command.system {
      assert Cleared(s.db.steps, s.db.verifications, command.employee, sys);
      TouchedWasProvisioned(s.db.steps, s.db.verifications, s.log, command.employee, sys);
    }
  }

  lemma RunLength(run: Run)
    requires IsRun(run)
    ensures |run.states| == |run.actions| + 1
  {
  }

  lemma StepOf(run: Run, k: nat)
    requires IsRun(run) && k < |run.actions|
    ensures Step(run.states[k], run.actions[k], run.states[k + 1])
  {
    hide Step, Init;
  }

  lemma TablesLogged(s: State)
    requires HistoryOk(s)
    ensures LogFacts(s.db.steps, s.db.verifications, s.log)
  {
  }

  lemma VerifiedHere(log: Log, i: nat, sys: TargetSystem)
    requires VerifiedBeforeActive(log) && i < |log| && IsActivation(log[i])
    requires sys == log[i].command.system || ProvisionedBefore(log, i, log[i].command.employee, sys)
    ensures VerifiedOn(log, i, log[i].command.employee, sys)
  {
    hide VerifiedOn, ProvisionedBefore;
  }

  lemma ProvisionedStays(log: Log, log': Log, i: nat, e: EmployeeId, sys: TargetSystem)
    requires log <= log' && i <= |log| && ProvisionedBefore(log, i, e, sys)
    ensures ProvisionedBefore(log', i, e, sys)
  {
    var k :| 0 <= k < i && k < |log| && ProvisionedAt(log[k], e, sys);
    assert log'[k] == log[k];
  }
}
