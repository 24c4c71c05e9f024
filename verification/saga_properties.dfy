/** What the saga state machine guarantees across several steps: the exact
    records and calls an abort produces, the state after a run of
    successful forward steps, and the rollback of a failed step. Each is
    stated against reference definitions written independently of the
    step functions. */
module SagaProperties {
  import opened Wrappers
  import opened MemoryStorage
  import opened SagaLog
  import opened Saga

  /** Every compensation of the registry reports success on every input. */
  ghost predicate CompensationsSucceed<W(!new)>(sec: Coordinator<W>)
  {
    forall id, a, w :: id in sec ==> !IsReturnError(sec[id].compensate(a, w).returned)
  }

  function ActionCall(s: Step): seq<Invocation> { [Invocation(Action, s.subTxID, s.args)] }
  function CompensationCall(s: Step): seq<Invocation> { [Invocation(Compensation, s.subTxID, s.args)] }

  /** The action calls of `steps`, in order, each with the step's arguments. */
  function ActionCalls(steps: seq<Step>): seq<Invocation> { FlatMap(steps, ActionCall) }

  /** The compensation calls of `steps`, in order, each with the step's arguments. */
  function CompensationCalls(steps: seq<Step>): seq<Invocation> { FlatMap(steps, CompensationCall) }

  /** The world after compensating `steps` in order. */
  function CompensateWorld<W>(sec: Coordinator<W>, steps: seq<Step>, w: W): W
    requires Registered(sec, steps)
  {
    if steps == [] then w
    else CompensateWorld(sec, steps[1..], sec[steps[0].subTxID].compensate(steps[0].args, w).world)
  }

  /** The state after compensating `steps` in order, all succeeding. */
  function Rolled<W>(sec: Coordinator<W>, st: SagaState<W>, steps: seq<Step>): SagaState<W>
    requires Registered(sec, steps)
  {
    SagaState(MemStore(st.log.data + CompensationLog(steps)),
              CompensateWorld(sec, steps, st.world),
              st.calls + CompensationCalls(steps))
  }

  /** The saga has started and has run `done` forward, every action succeeding. */
  predicate Forward<W>(st: SagaState<W>, done: seq<Step>)
  {
    && st.log.data == [SagaStartEntry()] + ForwardLog(done)
    && st.calls == ActionCalls(done)
  }

  /** All actions of `steps` succeed when run in order from world `w`. */
  predicate ActionsSucceed<W>(sec: Coordinator<W>, steps: seq<Step>, w: W)
    requires Registered(sec, steps)
  {
    steps != [] ==>
      var res := sec[steps[0].subTxID].action(steps[0].args, w);
      !IsReturnError(res.returned) && ActionsSucceed(sec, steps[1..], res.world)
  }

  /** The world after running the actions of `steps` in order from `w`. */
  function ActionWorld<W>(sec: Coordinator<W>, steps: seq<Step>, w: W): W
    requires Registered(sec, steps)
  {
    if steps == [] then w
    else ActionWorld(sec, steps[1..], sec[steps[0].subTxID].action(steps[0].args, w).world)
  }

  lemma {:induction false} RegisteredReverse<W>(sec: Coordinator<W>, steps: seq<Step>)
    requires Registered(sec, steps)
    ensures Registered(sec, Reverse(steps))
  {
    if steps != [] {
      assert steps == [steps[0]] + steps[1..];
      RegisteredAppend(sec, [steps[0]], steps[1..]);
      RegisteredReverse(sec, steps[1..]);
      RegisteredAppend(sec, Reverse(steps[1..]), [steps[0]]);
    }
  }

  lemma {:induction false} CompensateWorldAppend<W>(sec: Coordinator<W>, a: seq<Step>, b: seq<Step>, w: W)
    requires Registered(sec, a + b)
    ensures Registered(sec, a) && Registered(sec, b)
    ensures CompensateWorld(sec, a + b, w) == CompensateWorld(sec, b, CompensateWorld(sec, a, w))
  {
    RegisteredAppend(sec, a, b);
    if a == [] {
      assert a + b == b;
    } else {
      assert (a + b)[1..] == a[1..] + b;
      CompensateWorldAppend(sec, a[1..], b, sec[a[0].subTxID].compensate(a[0].args, w).world);
    }
  }

  /** Compensating `a` and then `b` is compensating `a + b`. */
  lemma RolledAppend<W>(sec: Coordinator<W>, st: SagaState<W>, a: seq<Step>, b: seq<Step>)
    requires Registered(sec, a + b)
    ensures Registered(sec, a) && Registered(sec, b)
    ensures Rolled(sec, Rolled(sec, st, a), b) == Rolled(sec, st, a + b)
  {
    CompensateWorldAppend(sec, a, b, st.world);
    FlatMapAppend(a, b, CompensationEntries);
    FlatMapAppend(a, b, CompensationCall);
    assert st.log.data + CompensationLog(a) + CompensationLog(b) == st.log.data + CompensationLog(a + b);
    assert st.calls + CompensationCalls(a) + CompensationCalls(b) == st.calls + CompensationCalls(a + b);
  }

  /** Walking `snapshot[..i]` backwards compensates exactly its started
      sub-transactions, last started first, each with the parameters its
      `ActionStart` recorded. */
  lemma {:induction false} RollbackFrom<W(!new)>(sec: Coordinator<W>, snapshot: seq<LogEntry>, i: nat,
                                                 st: SagaState<W>, fuel: nat)
    requires i <= |snapshot|
    requires Registered(sec, StartedSteps(snapshot[..i]))
    requires CompensationsSucceed(sec)
    ensures Registered(sec, Reverse(StartedSteps(snapshot[..i])))
    ensures CompensateFrom(sec, snapshot, i, st, fuel)
            == Success(Rolled(sec, st, Reverse(StartedSteps(snapshot[..i]))))
  {
    if i == 0 {
      assert snapshot[..0] == [];
      assert Reverse(StartedSteps(snapshot[..0])) == [];
      assert st.log.data + CompensationLog([]) == st.log.data;
      assert st.calls + CompensationCalls([]) == st.calls;
      assert Rolled(sec, st, []) == st;
    } else {
      var entry := snapshot[i - 1];
      var earlier := StartedSteps(snapshot[..i - 1]);
      assert snapshot[..i] == snapshot[..i - 1] + [entry];
      StartedStepsSnoc(snapshot[..i - 1], entry);
      RegisteredAppend(sec, earlier, StartedStep(entry));
      ReverseAppend(earlier, StartedStep(entry));
      RollbackFrom(sec, snapshot, i - 1, st, fuel);
      if entry.kind == ActionStart {
        var step := Step(entry.subTxID, entry.params);
        assert StartedStep(entry) == [step];
        assert Reverse([step]) == [step];
        var next := Rolled(sec, st, [step]);
        FlatMapSingleton(step, CompensationEntries);
        FlatMapSingleton(step, CompensationCall);
        assert [step][0].subTxID in sec;
        assert [step][1..] == [];
        assert CompensateWorld(sec, [step], st.world) == sec[entry.subTxID].compensate(entry.params, st.world).world;
        assert !IsReturnError(sec[entry.subTxID].compensate(entry.params, st.world).returned);
        assert Compensate(sec, st, entry, fuel) == Success(next);
        RollbackFrom(sec, snapshot, i - 1, next, fuel);
        RolledAppend(sec, st, [step], Reverse(earlier));
      } else {
        assert StartedStep(entry) == [];
        assert Reverse(StartedSteps(snapshot[..i])) == Reverse(earlier);
      }
    }
  }

  /** An abort records `SagaAbort`, then one `CompensateStart`/`CompensateEnd`
      pair per `ActionStart` of the log as it was before the abort, in reverse
      log order, and calls each compensation once with the parameters recorded
      for it; no sub-transaction outside that log is compensated. */
  lemma AbortRollback<W(!new)>(sec: Coordinator<W>, st: SagaState<W>, fuel: nat)
    requires fuel >= 1
    requires Registered(sec, StartedSteps(st.log.data))
    requires CompensationsSucceed(sec)
    ensures Registered(sec, Reverse(StartedSteps(st.log.data)))
    ensures var pending := Reverse(StartedSteps(st.log.data));
            Abort(sec, st, fuel) == Success(SagaState(
              MemStore(st.log.data + [SagaAbortEntry()] + CompensationLog(pending)),
              CompensateWorld(sec, pending, st.world),
              st.calls + CompensationCalls(pending)))
  {
    var snapshot := st.log.data;
    assert snapshot[..|snapshot|] == snapshot;
    RollbackFrom(sec, snapshot, |snapshot|, Record(st, SagaAbortEntry()), fuel - 1);
  }

  /** A started saga is at the beginning of a forward run. */
  lemma FreshSaga<W>(kind: string, w: W)
    ensures GetLogStorage(kind).Success? <==> kind == Memory
    ensures kind == Memory ==> Forward(RecordSagaStart(SagaState(GetLogStorage(kind).value, w, [])), [])
  {
    if kind == Memory {
      assert ForwardLog([]) == [];
      assert ActionCalls([]) == [];
    }
  }

  /** One `ExecSub` from the middle of a forward run whose action succeeds
      extends the run by that step. */
  lemma ExecSubExtendsForward<W>(sec: Coordinator<W>, st: SagaState<W>, done: seq<Step>, step: Step, fuel: nat)
    requires Forward(st, done)
    requires step.subTxID in sec
    requires !IsReturnError(sec[step.subTxID].action(step.args, st.world).returned)
    ensures var r := ExecSub(sec, st, step.subTxID, step.args, fuel);
            && r.Success?
            && Forward(r.value, done + [step])
            && r.value.world == sec[step.subTxID].action(step.args, st.world).world
  {
    FlatMapAppend(done, [step], ForwardEntries);
    FlatMapAppend(done, [step], ActionCall);
    FlatMapSingleton(step, ForwardEntries);
    FlatMapSingleton(step, ActionCall);
    assert st.log.data + ForwardEntries(step) == [SagaStartEntry()] + ForwardLog(done + [step]);
  }

  /** One `ExecSub` from the middle of a forward run whose action fails: the
      step is recorded as started and never as ended, the abort follows, and
      every step of the run including the failed one is compensated exactly
      once, last first, with its own arguments. */
  lemma ExecSubRollsBack<W(!new)>(sec: Coordinator<W>, st: SagaState<W>, done: seq<Step>, step: Step, fuel: nat)
    requires Forward(st, done)
    requires Registered(sec, done) && step.subTxID in sec
    requires CompensationsSucceed(sec)
    requires fuel >= 1
    requires IsReturnError(sec[step.subTxID].action(step.args, st.world).returned)
    ensures Registered(sec, Reverse(done + [step]))
    ensures var res := sec[step.subTxID].action(step.args, st.world);
            var pending := Reverse(done + [step]);
            ExecSub(sec, st, step.subTxID, step.args, fuel) == Success(SagaState(
              MemStore([SagaStartEntry()] + ForwardLog(done) + [StartEntry(step), SagaAbortEntry()]
                       + CompensationLog(pending)),
              CompensateWorld(sec, pending, res.world),
              ActionCalls(done + [step]) + CompensationCalls(pending)))
  {
    RegisteredAppend(sec, done, [step]);
    RegisteredReverse(sec, done + [step]);
    FlatMapAppend(done, [step], ActionCall);
    FlatMapSingleton(step, ActionCall);
    var res := sec[step.subTxID].action(step.args, st.world);
    var log := st.log.data + [StartEntry(step)];
    var acted := SagaState(MemStore(log), res.world, st.calls + [Invocation(Action, step.subTxID, step.args)]);
    FlatMapAppend([SagaStartEntry()], ForwardLog(done), StartedStep);
    FlatMapAppend([SagaStartEntry()] + ForwardLog(done), [StartEntry(step)], StartedStep);
    StartedStepsOfForwardLog(done);
    FlatMapSingleton(SagaStartEntry(), StartedStep);
    FlatMapSingleton(StartEntry(step), StartedStep);
    assert StartedSteps(log) == done + [step];
    AbortRollback(sec, acted, fuel);
    assert log + [SagaAbortEntry()] == [SagaStartEntry()] + ForwardLog(done) + [StartEntry(step), SagaAbortEntry()];
  }

  /** A chain whose first step succeeds continues from that step's state. */
  lemma ChainCons<W>(sec: Coordinator<W>, st: SagaState<W>, steps: seq<Step>, fuel: nat)
    requires steps != []
    requires ExecSub(sec, st, steps[0].subTxID, steps[0].args, fuel).Success?
    ensures Chain(sec, st, steps, fuel)
            == Chain(sec, ExecSub(sec, st, steps[0].subTxID, steps[0].args, fuel).value, steps[1..], fuel)
  {
  }

  /** A chain of steps whose actions all succeed extends the forward run by
      exactly those steps, each action called once in order. */
  lemma {:induction false} ChainAllSucceed<W>(sec: Coordinator<W>, st: SagaState<W>, done: seq<Step>,
                                              steps: seq<Step>, fuel: nat)
    requires Forward(st, done)
    requires Registered(sec, steps)
    requires ActionsSucceed(sec, steps, st.world)
    ensures var r := Chain(sec, st, steps, fuel);
            r.Success? && Forward(r.value, done + steps) && r.value.world == ActionWorld(sec, steps, st.world)
    decreases |steps|
  {
    if steps == [] {
      assert done + steps == done;
    } else {
      var step := steps[0];
      ExecSubExtendsForward(sec, st, done, step, fuel);
      var next := ExecSub(sec, st, step.subTxID, step.args, fuel).value;
      ChainAllSucceed(sec, next, done + [step], steps[1..], fuel);
      assert done + [step] + steps[1..] == done + steps;
    }
  }

  /** A fully successful saga ends with an empty log, having called every
      action exactly once, in order, and no compensation. */
  lemma HappyPath<W>(sec: Coordinator<W>, w: W, steps: seq<Step>, fuel: nat)
    requires Registered(sec, steps)
    requires ActionsSucceed(sec, steps, w)
    ensures var r := Chain(sec, RecordSagaStart(SagaState(NewMemStorage(), w, [])), steps, fuel);
            && r.Success?
            && Lookup(EndSaga(r.value).log).0 == []
            && EndSaga(r.value).calls == ActionCalls(steps)
            && EndSaga(r.value).world == ActionWorld(sec, steps, w)
  {
    FreshSaga(Memory, w);
    ChainAllSucceed(sec, RecordSagaStart(SagaState(NewMemStorage(), w, [])), [], steps, fuel);
    assert [] + steps == steps;
  }
}
