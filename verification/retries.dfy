/** Manual retries of a cancelled request: each was admitted before the cancellation, because
    the flag is read before the locks are taken, and never again. */
module Retries {
  import opened Contracts
  import opened Tables
  import opened Frontier
  import opened Protocol
  import opened Isolation
  import opened History
  import opened Timelines

  predicate IsRetryOf(tasks: map<TaskId, Task>, t: TaskId, r: RequestId)
  {
    t in tasks && tasks[t].job.Retry? && tasks[t].request == r
  }

  /** The action makes task `t` a retry of `r`. */
  predicate Admits(a: Action, t: TaskId, r: RequestId)
  {
    a.Spawn? && a.task == t && a.body.job.Retry? && a.body.request == r
  }

  predicate Cancels(s: State, a: Action, r: RequestId)
  {
    a.Act? && a.move.CancelRequest? && a.task in s.tasks && s.tasks[a.task].request == r
  }

  predicate Reschedules(s: State, a: Action, r: RequestId)
  {
    a.Act? && a.move.RetryRequest? && a.move.pick.Some? && a.task in s.tasks && s.tasks[a.task].request == r
  }

  predicate CancelMarked(executions: Executions, r: RequestId)
  {
    r in executions && executions[r].cancelledAt.Some?
  }

  lemma RetryTaskFrom(s: State, a: Action, s': State, t: TaskId, r: RequestId)
    requires Step(s, a, s') && IsRetryOf(s'.tasks, t, r)
    ensures IsRetryOf(s.tasks, t, r) || (Admits(a, t, r) && t !in s.tasks && !CancelMarked(s.db.executions, r))
  {
    hide Acts;
  }

  /** Every retry in progress was admitted, at a moment when its request was not cancelled. */
  lemma {:induction false} RetryWasAdmitted(run: Run, n: nat, t: TaskId, r: RequestId) returns (j: nat)
    requires IsRun(run) && n < |run.states| && IsRetryOf(run.states[n].tasks, t, r)
    ensures j < n && Admits(run.actions[j], t, r) && !CancelMarked(run.states[j].db.executions, r)
    ensures forall m :: j < m <= n ==> IsRetryOf(run.states[m].tasks, t, r)
  {
    assert n > 0;
    assert Step(run.states[n - 1], run.actions[n - 1], run.states[n]);
    hide Step, Init;
    RetryTaskFrom(run.states[n - 1], run.actions[n - 1], run.states[n], t, r);
    if IsRetryOf(run.states[n - 1].tasks, t, r) {
      j := RetryWasAdmitted(run, n - 1, t, r);
    } else {
      j := n - 1;
    }
  }

  lemma CancelMarks(s: State, a: Action, s': State, r: RequestId)
    requires SystemOk(s) && Step(s, a, s') && Cancels(s, a, r)
    ensures CancelMarked(s'.db.executions, r)
  {
    TaskFacts(s, a.task);
    hide SystemOk, TablesOk, CompensationTargets;
  }

  lemma MarkStays(db: Db, db': Db, r: RequestId)
    requires Evolves(db, db') && CancelMarked(db.executions, r)
    ensures CancelMarked(db'.executions, r)
  {
  }

  /** The admission that a retry goes back to came before the cancellation. */
  lemma AdmittedBefore(run: Run, i: nat, k: nat, j: nat, r: RequestId)
    requires IsRun(run) && i < k < |run.states| && Cancels(run.states[i], run.actions[i], r)
    requires j < k && !CancelMarked(run.states[j].db.executions, r)
    ensures j <= i
  {
    RunsKeepAll(run, i);
    assert Step(run.states[i], run.actions[i], run.states[i + 1]);
    hide SystemOk, HistoryOk, Step, Evolves, FinishesLater, CancelMarked;
    CancelMarks(run.states[i], run.actions[i], run.states[i + 1], r);
    if i < j {
      RunFinishesLater(run, i + 1, j);
      hide IsRun;
      MarkStays(run.states[i + 1].db, run.states[j].db, r);
    }
  }

  /** In every run, whoever puts a step of a request back to waiting after its cancellation is
      a manual retry that was admitted before the cancellation, when the flag was not set. */
  lemma RetriesWereAdmittedBefore(run: Run, i: nat, k: nat, r: RequestId) returns (j: nat)
    requires IsRun(run) && i < k < |run.actions|
    requires Cancels(run.states[i], run.actions[i], r) && Reschedules(run.states[k], run.actions[k], r)
    ensures j < i && Admits(run.actions[j], run.actions[k].task, r)
    ensures !CancelMarked(run.states[j].db.executions, r)
    ensures forall m :: j < m <= k ==> IsRetryOf(run.states[m].tasks, run.actions[k].task, r)
  {
    assert Step(run.states[k], run.actions[k], run.states[k + 1]);
    RetryingTask(run.states[k], run.actions[k], run.states[k + 1], r);
    hide Step, CancelMarked;
    j := RetryWasAdmitted(run, k, run.actions[k].task, r);
    AdmittedBefore(run, i, k, j, r);
  }

  lemma RetryingTask(s: State, a: Action, s': State, r: RequestId)
    requires Step(s, a, s') && Reschedules(s, a, r)
    ensures IsRetryOf(s.tasks, a.task, r)
  {
    hide RetriesRequest;
  }
}
