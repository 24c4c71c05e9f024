/** `ExecSub` as written has no guard against a saga that has already
    aborted: in a fluent chain, the steps after a failed one still run their
    actions forward, after the rollback has compensated the earlier ones.
    `Abort`'s own doc comment says it stops the sub-transactions that follow.
    This module defines the guarded step that keeps that promise (a step on
    an aborted saga is a no-op) and proves that with it a chain stops at its
    first failure, leaving exactly the rollback of the steps up to it. */
module GuardedSaga {
  import opened Wrappers
  import opened MemoryStorage
  import opened SagaLog
  import opened Saga
  import opened SagaProperties

  /** The log records an abort. */
  predicate Aborted(log: seq<LogEntry>)
  {
    exists i :: 0 <= i < |log| && log[i].kind == SagaAbort
  }

  /** `ExecSub`, except that on an aborted saga it does nothing. */
  function GuardedExecSub<W>(sec: Coordinator<W>, st: SagaState<W>, subTxID: string, args: Args, fuel: nat)
    : (r: Outcome<W>)
    ensures Aborted(st.log.data) ==> r == Success(st)
    ensures !Aborted(st.log.data) ==> r == ExecSub(sec, st, subTxID, args, fuel)
  {
    if Aborted(st.log.data) then Success(st) else ExecSub(sec, st, subTxID, args, fuel)
  }

  /** A fluent chain of guarded steps; a panic ends the chain. */
  function GuardedChain<W>(sec: Coordinator<W>, st: SagaState<W>, steps: seq<Step>, fuel: nat): Outcome<W>
    decreases |steps|
  {
    if steps == [] then Success(st)
    else
      match GuardedExecSub(sec, st, steps[0].subTxID, steps[0].args, fuel)
      case Failure(p) => Failure(p)
      case Success(next) => GuardedChain(sec, next, steps[1..], fuel)
  }

  /** A guarded chain never removes or changes a record already in the log. */
  lemma {:induction false} GuardedChainKeepsLog<W>(sec: Coordinator<W>, st: SagaState<W>, steps: seq<Step>, fuel: nat)
    ensures var r := GuardedChain(sec, st, steps, fuel);
            r.Success? ==> IsPrefix(st.log.data, r.value.log.data)
    decreases |steps|
  {
    if steps != [] {
      var o := GuardedExecSub(sec, st, steps[0].subTxID, steps[0].args, fuel);
      if o.Success? {
        GuardedChainKeepsLog(sec, o.value, steps[1..], fuel);
      }
    }
  }

  /** Once aborted, a guarded chain changes nothing and calls nothing. */
  lemma {:induction false} GuardedChainAfterAbort<W>(sec: Coordinator<W>, st: SagaState<W>, steps: seq<Step>, fuel: nat)
    requires Aborted(st.log.data)
    ensures GuardedChain(sec, st, steps, fuel) == Success(st)
    decreases |steps|
  {
    if steps != [] {
      GuardedChainAfterAbort(sec, st, steps[1..], fuel);
    }
  }

  /** A forward run records no abort. */
  lemma {:induction false} ForwardLogNotAborted(done: seq<Step>)
    ensures !Aborted([SagaStartEntry()] + ForwardLog(done))
    ensures forall i :: 0 <= i < |ForwardLog(done)| ==> ForwardLog(done)[i].kind != SagaAbort
  {
    if done != [] {
      ForwardLogNotAborted(done[1..]);
      assert ForwardLog(done) == ForwardEntries(done[0]) + ForwardLog(done[1..]);
    }
  }

  /** A failed action that rolls back leaves an aborted log. */
  lemma FailedStepAborts<W>(sec: Coordinator<W>, st: SagaState<W>, step: Step, fuel: nat)
    requires step.subTxID in sec
    requires IsReturnError(sec[step.subTxID].action(step.args, st.world).returned)
    requires ExecSub(sec, st, step.subTxID, step.args, fuel).Success?
    ensures Aborted(ExecSub(sec, st, step.subTxID, step.args, fuel).value.log.data)
  {
    var r := ExecSub(sec, st, step.subTxID, step.args, fuel).value;
    var k := |st.log.data| + 1;
    assert r.log.data[k] == SagaAbortEntry();
  }

  /** An unaborted guarded chain begins with the plain step. */
  lemma GuardedChainStep<W>(sec: Coordinator<W>, st: SagaState<W>, steps: seq<Step>, fuel: nat)
    requires steps != []
    requires !Aborted(st.log.data)
    requires ExecSub(sec, st, steps[0].subTxID, steps[0].args, fuel).Success?
    ensures GuardedChain(sec, st, steps, fuel)
            == GuardedChain(sec, ExecSub(sec, st, steps[0].subTxID, steps[0].args, fuel).value, steps[1..], fuel)
  {
  }

  /** Peels the first, successful, action off a run of successful actions. */
  lemma ActionsSucceedShift<W>(sec: Coordinator<W>, steps: seq<Step>, k: nat, w: W)
    requires 0 < k <= |steps|
    requires Registered(sec, steps)
    requires ActionsSucceed(sec, steps[..k], w)
    ensures Registered(sec, steps[1..])
    ensures var res := sec[steps[0].subTxID].action(steps[0].args, w);
            && !IsReturnError(res.returned)
            && ActionsSucceed(sec, steps[1..][..k - 1], res.world)
            && ActionWorld(sec, steps[..k], w) == ActionWorld(sec, steps[1..][..k - 1], res.world)
  {
    assert steps[..k][0] == steps[0];
    assert steps[..k][1..] == steps[1..][..k - 1];
    assert Registered(sec, steps[1..]);
  }

  /** A guarded chain whose first action fails ends right there, rolled back. */
  lemma GuardedFailsFirst<W(!new)>(sec: Coordinator<W>, st: SagaState<W>, done: seq<Step>,
                                  steps: seq<Step>, fuel: nat)
    requires Forward(st, done)
    requires steps != []
    requires Registered(sec, done) && steps[0].subTxID in sec
    requires CompensationsSucceed(sec)
    requires fuel >= 1
    requires IsReturnError(sec[steps[0].subTxID].action(steps[0].args, st.world).returned)
    ensures var r := GuardedChain(sec, st, steps, fuel);
            && r == GuardedChain(sec, st, steps[..1], fuel)
            && r.Success?
            && Aborted(r.value.log.data)
            && r.value.calls == ActionCalls(done + steps[..1]) + CompensationCalls(Reverse(done + steps[..1]))
  {
    var step := steps[0];
    assert steps[..1] == [step];
    ForwardLogNotAborted(done);
    ExecSubRollsBack(sec, st, done, step, fuel);
    var next := ExecSub(sec, st, step.subTxID, step.args, fuel).value;
    FailedStepAborts(sec, st, step, fuel);
    GuardedChainStep(sec, st, steps, fuel);
    GuardedChainStep(sec, st, steps[..1], fuel);
    GuardedChainAfterAbort(sec, next, steps[1..], fuel);
    GuardedChainAfterAbort(sec, next, steps[..1][1..], fuel);
  }

  /** With the guard, a chain stops at its first failing action: the steps
      after it call nothing, and the outcome is the rollback of every step up
      to and including the failed one, compensated last first with its own
      arguments. */
  lemma {:induction false} GuardedStopsAtFirstFailure<W(!new)>(sec: Coordinator<W>, st: SagaState<W>,
                                                              done: seq<Step>, steps: seq<Step>, k: nat, fuel: nat)
    requires Forward(st, done)
    requires Registered(sec, done) && Registered(sec, steps)
    requires CompensationsSucceed(sec)
    requires fuel >= 1
    requires k < |steps|
    requires ActionsSucceed(sec, steps[..k], st.world)
    requires IsReturnError(sec[steps[k].subTxID].action(steps[k].args, ActionWorld(sec, steps[..k], st.world)).returned)
    ensures GuardedChain(sec, st, steps, fuel) == GuardedChain(sec, st, steps[..k + 1], fuel)
    ensures var r := GuardedChain(sec, st, steps, fuel);
            && r.Success?
            && Aborted(r.value.log.data)
            && r.value.calls == ActionCalls(done + steps[..k + 1]) + CompensationCalls(Reverse(done + steps[..k + 1]))
    decreases k
  {
    if k == 0 {
      assert steps[..0] == [];
      GuardedFailsFirst(sec, st, done, steps, fuel);
    } else {
      var step := steps[0];
      ActionsSucceedShift(sec, steps, k, st.world);
      ExecSubExtendsForward(sec, st, done, step, fuel);
      var next := ExecSub(sec, st, step.subTxID, step.args, fuel).value;
      ForwardLogNotAborted(done);
      GuardedChainStep(sec, st, steps, fuel);
      GuardedChainStep(sec, st, steps[..k + 1], fuel);
      assert steps[..k + 1][1..] == steps[1..][..k];
      RegisteredAppend(sec, done, [step]);
      GuardedStopsAtFirstFailure(sec, next, done + [step], steps[1..], k - 1, fuel);
      assert done + [step] + steps[1..][..k] == done + steps[..k + 1];
    }
  }
}
