/** The saga instance: forward execution of sub-transactions, abort and
    reverse compensation, and termination, each driven by and recorded in
    the saga's log.

    A sub-transaction's action and compensation are total functions of the
    recorded arguments and of the world they act on; they stand for the
    reflective calls of the coordinator and return the values the callable
    returned together with the new world. The ambient context is fixed for a
    saga and is folded into those functions. A panic of the coordinator is a
    `Failure` carrying the fault and the state at the moment it was raised. */
module Saga {
  import opened Wrappers
  import opened MemoryStorage
  import opened SagaLog

  /** The storage kind of the in-memory log store. */
  const Memory: string := "memory"

  /** One value returned by a reflective call: nil or a non-nil error. */
  datatype RetValue = Nil | NonNil(message: string)

  /** A call failed exactly when it returned one value and that value is not
      nil; a call that returns nothing always succeeded. */
  predicate IsReturnError(result: seq<RetValue>): (b: bool)
    ensures result == [] ==> !b
    ensures b ==> |result| == 1
    ensures |result| == 1 ==> (b <==> result[0] != Nil)
  {
    |result| == 1 && result[0].NonNil?
  }

  /** What a sub-transaction callable returned, and the world after it. */
  datatype CallResult<W> = CallResult(returned: seq<RetValue>, world: W)

  /** An action and its compensation; both take the same arguments. */
  datatype SubTxDef<!W> = SubTxDef(action: (Args, W) -> CallResult<W>,
                                  compensate: (Args, W) -> CallResult<W>)

  /** The registry of sub-transaction definitions, by id. */
  type Coordinator<!W> = map<string, SubTxDef<W>>

  datatype Phase = Action | Compensation

  /** One call made into sub-transaction code, with the arguments it got. */
  datatype Invocation = Invocation(phase: Phase, subTxID: string, args: Args)

  /** A running saga: its log store, the world its sub-transactions act on,
      and the calls made into sub-transaction code so far. */
  datatype SagaState<W> = SagaState(log: MemStore<LogEntry>, world: W, calls: seq<Invocation>)
  {
    /** The saga's log store; looking it up yields the state's records. */
    function GetLog(): (r: MemStore<LogEntry>)
      ensures Lookup(r) == (log.data, None)
    {
      log
    }
  }

  /** Why the coordinator panicked. */
  datatype Fault =
    | UnsupportedProvider
    | UnknownSubTx(subTxID: string)
    | AbortDepthExhausted

  datatype Panic<W> = Panic(fault: Fault, at: SagaState<W>)

  type Outcome<W> = Result<SagaState<W>, Panic<W>>

  /** `after` is `before` followed only by compensation calls. */
  ghost predicate OnlyCompensationsAdded(before: seq<Invocation>, after: seq<Invocation>)
  {
    && IsPrefix(before, after)
    && (forall i :: |before| <= i < |after| ==> after[i].phase == Compensation)
  }

  /** Every step names a registered sub-transaction. */
  predicate Registered<W>(sec: Coordinator<W>, steps: seq<Step>)
  {
    forall i :: 0 <= i < |steps| ==> steps[i].subTxID in sec
  }

  lemma RegisteredAppend<W>(sec: Coordinator<W>, a: seq<Step>, b: seq<Step>)
    ensures Registered(sec, a + b) <==> Registered(sec, a) && Registered(sec, b)
  {
    if Registered(sec, a) && Registered(sec, b) {
      forall i | 0 <= i < |a + b|
        ensures (a + b)[i].subTxID in sec
      {
        if i >= |a| {
          assert (a + b)[i] == b[i - |a|];
        }
      }
    }
    if Registered(sec, a + b) {
      forall i | 0 <= i < |a|
        ensures a[i].subTxID in sec
      {
        assert (a + b)[i] == a[i];
      }
      forall i | 0 <= i < |b|
        ensures b[i].subTxID in sec
      {
        assert (a + b)[|a| + i] == b[i];
      }
    }
  }

  /** A fresh store for a storage kind; only the memory kind is supported. */
  function GetLogStorage(kind: string): (r: Result<MemStore<LogEntry>, Fault>)
    ensures r.Success? <==> kind == Memory
    ensures r.Success? ==> Lookup(r.value).0 == []
    ensures r.Failure? ==> r.error == UnsupportedProvider
  {
    if kind == Memory then Success(NewMemStorage()) else Failure(UnsupportedProvider)
  }

  /** Appends one record to the saga's log. The memory store never reports
      an append error, so the panic on one cannot happen. */
  function Record<W>(st: SagaState<W>, e: LogEntry): (r: SagaState<W>)
    ensures r.log.data == st.log.data + [e]
    ensures r.world == st.world && r.calls == st.calls
  {
    st.(log := AppendLog(st.log, e).0)
  }

  /** The saga method `startSaga`: records the start of the saga. The
      coordinator's `StartSaga`, which builds the saga first, is a different
      function. */
  function RecordSagaStart<W>(st: SagaState<W>): (r: SagaState<W>)
    ensures |r.log.data| == |st.log.data| + 1
    ensures LastLog(r.log) == Success(SagaStartEntry())
    ensures IsPrefix(st.log.data, r.log.data)
    ensures r.world == st.world && r.calls == st.calls
  {
    Record(st, SagaStartEntry())
  }

  /** Runs one sub-transaction: looks up its definition, records its start
      with the arguments, calls the action, and on failure aborts the saga,
      on success records its end. `fuel` bounds the nesting of aborts that
      failing compensations trigger. */
  function ExecSub<W>(sec: Coordinator<W>, st: SagaState<W>, subTxID: string, args: Args, fuel: nat)
    : (r: Outcome<W>)
    ensures subTxID !in sec ==> r == Failure(Panic(UnknownSubTx(subTxID), st))
    ensures subTxID in sec && !IsReturnError(sec[subTxID].action(args, st.world).returned) ==>
      r == Success(SagaState(
             MemStore(st.log.data + [StartEntry(Step(subTxID, args)), EndEntry(subTxID)]),
             sec[subTxID].action(args, st.world).world,
             st.calls + [Invocation(Action, subTxID, args)]))
    ensures subTxID in sec && IsReturnError(sec[subTxID].action(args, st.world).returned) ==>
      && r == Abort(sec, SagaState(
                MemStore(st.log.data + [StartEntry(Step(subTxID, args))]),
                sec[subTxID].action(args, st.world).world,
                st.calls + [Invocation(Action, subTxID, args)]), fuel)
      && (r.Success? ==> GrowsBy(st.log.data + [StartEntry(Step(subTxID, args))], r.value.log.data))
  {
    if subTxID !in sec then Failure(Panic(UnknownSubTx(subTxID), st))
    else
      var started := Record(st, StartEntry(Step(subTxID, args)));
      var result := sec[subTxID].action(args, started.world);
      var acted := started.(world := result.world,
                            calls := started.calls + [Invocation(Action, subTxID, args)]);
      if IsReturnError(result.returned) then Abort(sec, acted, fuel)
      else
        assert st.log.data + [StartEntry(Step(subTxID, args))] + [EndEntry(subTxID)]
            == st.log.data + [StartEntry(Step(subTxID, args)), EndEntry(subTxID)];
        Success(Record(acted, EndEntry(subTxID)))
  }

  /** Records the end of the saga, then clears its log. */
  function EndSaga<W>(st: SagaState<W>): (r: SagaState<W>)
    ensures Lookup(r.log).0 == []
    ensures r.world == st.world && r.calls == st.calls
  {
    var ended := Record(st, SagaEndEntry());
    ended.(log := Cleanup(ended.log).0)
  }

  /** Aborts the saga: takes a snapshot of the log, records the abort, then
      walks the snapshot from its last record to its first and compensates
      every started sub-transaction, completed or not. */
  function Abort<W>(sec: Coordinator<W>, st: SagaState<W>, fuel: nat): (r: Outcome<W>)
    decreases fuel, 0, 0
    ensures fuel == 0 ==> r == Failure(Panic(AbortDepthExhausted, st))
    ensures r.Success? ==> GrowsBy(st.log.data + [SagaAbortEntry()], r.value.log.data)
    ensures r.Success? ==> OnlyCompensationsAdded(st.calls, r.value.calls)
    ensures Registered(sec, StartedSteps(st.log.data)) ==> !(r.Failure? && r.error.fault.UnknownSubTx?)
  {
    if fuel == 0 then Failure(Panic(AbortDepthExhausted, st))
    else
      var snapshot := Lookup(st.log).0;
      var aborting := Record(st, SagaAbortEntry());
      StartedStepsSnoc(snapshot, SagaAbortEntry());
      assert snapshot[..|snapshot|] == snapshot;
      CompensateFrom(sec, snapshot, |snapshot|, aborting, fuel - 1)
  }

  /** Compensates the started sub-transactions among `snapshot[..i]`, from
      the last to the first. */
  function CompensateFrom<W>(sec: Coordinator<W>, snapshot: seq<LogEntry>, i: nat,
                             st: SagaState<W>, fuel: nat): (r: Outcome<W>)
    requires i <= |snapshot|
    decreases fuel, 2, i
    ensures r.Success? ==> GrowsBy(st.log.data, r.value.log.data)
    ensures r.Success? ==> OnlyCompensationsAdded(st.calls, r.value.calls)
    ensures Registered(sec, StartedSteps(snapshot[..i])) && Registered(sec, StartedSteps(st.log.data)) ==>
              !(r.Failure? && r.error.fault.UnknownSubTx?)
  {
    if i == 0 then Success(st)
    else
      var entry := snapshot[i - 1];
      assert snapshot[..i] == snapshot[..i - 1] + [entry];
      StartedStepsSnoc(snapshot[..i - 1], entry);
      RegisteredAppend(sec, StartedSteps(snapshot[..i - 1]), StartedStep(entry));
      if entry.kind != ActionStart then CompensateFrom(sec, snapshot, i - 1, st, fuel)
      else
        assert StartedSteps(snapshot[..i])[|StartedSteps(snapshot[..i])| - 1].subTxID == entry.subTxID;
        match Compensate(sec, st, entry, fuel)
        case Failure(p) => Failure(p)
        case Success(next) =>
          StartedStepsGrowsBy(st.log.data, next.log.data);
          CompensateFrom(sec, snapshot, i - 1, next, fuel)
  }

  /** Compensates one started sub-transaction: records the start of the
      compensation, calls it with the parameters recorded on `entry`, aborts
      again if it fails, and records the end of the compensation. Never
      reports an error of its own. */
  function Compensate<W>(sec: Coordinator<W>, st: SagaState<W>, entry: LogEntry, fuel: nat)
    : (r: Outcome<W>)
    decreases fuel, 1, 0
    ensures entry.subTxID !in sec ==>
      r == Failure(Panic(UnknownSubTx(entry.subTxID),
                         SagaState(MemStore(st.log.data + [CompensateStartEntry(entry.subTxID)]),
                                   st.world, st.calls)))
    ensures entry.subTxID in sec && !IsReturnError(sec[entry.subTxID].compensate(entry.params, st.world).returned) ==>
      r == Success(SagaState(
             MemStore(st.log.data + [CompensateStartEntry(entry.subTxID), CompensateEndEntry(entry.subTxID)]),
             sec[entry.subTxID].compensate(entry.params, st.world).world,
             st.calls + [Invocation(Compensation, entry.subTxID, entry.params)]))
    ensures fuel == 0 && entry.subTxID in sec && IsReturnError(sec[entry.subTxID].compensate(entry.params, st.world).returned) ==>
      r.Failure? && r.error.fault == AbortDepthExhausted
    ensures r.Success? ==> GrowsBy(st.log.data, r.value.log.data)
    ensures r.Success? ==> LastLog(r.value.log) == Success(CompensateEndEntry(entry.subTxID))
    ensures r.Success? ==> OnlyCompensationsAdded(st.calls, r.value.calls)
    ensures entry.subTxID in sec && Registered(sec, StartedSteps(st.log.data)) ==>
              !(r.Failure? && r.error.fault.UnknownSubTx?)
  {
    var marked := Record(st, CompensateStartEntry(entry.subTxID));
    var args := entry.params;
    if entry.subTxID !in sec then Failure(Panic(UnknownSubTx(entry.subTxID), marked))
    else
      var result := sec[entry.subTxID].compensate(args, marked.world);
      var called := marked.(world := result.world,
                            calls := marked.calls + [Invocation(Compensation, entry.subTxID, args)]);
      StartedStepsSnoc(st.log.data, CompensateStartEntry(entry.subTxID));
      if IsReturnError(result.returned) then
        match Abort(sec, called, fuel)
        case Failure(p) => Failure(p)
        case Success(aborted) => Success(Record(aborted, CompensateEndEntry(entry.subTxID)))
      else
        assert st.log.data + [CompensateStartEntry(entry.subTxID)] + [CompensateEndEntry(entry.subTxID)]
            == st.log.data + [CompensateStartEntry(entry.subTxID), CompensateEndEntry(entry.subTxID)];
        Success(Record(called, CompensateEndEntry(entry.subTxID)))
  }

  /** On every successful path of `Compensate`, the nested abort included,
      the first record added is `CompensateStart` and the first call made is
      the compensation with the parameters recorded on `entry`. */
  lemma CompensateBegins<W>(sec: Coordinator<W>, st: SagaState<W>, entry: LogEntry, fuel: nat)
    ensures var r := Compensate(sec, st, entry, fuel);
            r.Success? ==>
              && |r.value.log.data| > |st.log.data|
              && r.value.log.data[|st.log.data|] == CompensateStartEntry(entry.subTxID)
              && |r.value.calls| > |st.calls|
              && r.value.calls[|st.calls|] == Invocation(Compensation, entry.subTxID, entry.params)
  {
  }

  /** Runs `steps` one after another, as a fluent chain of `ExecSub` calls
      does; a panic ends the chain. */
  function Chain<W>(sec: Coordinator<W>, st: SagaState<W>, steps: seq<Step>, fuel: nat): (r: Outcome<W>)
    decreases |steps|
    ensures r.Success? ==> IsPrefix(st.log.data, r.value.log.data)
  {
    if steps == [] then Success(st)
    else
      match ExecSub(sec, st, steps[0].subTxID, steps[0].args, fuel)
      case Failure(p) => Failure(p)
      case Success(next) => Chain(sec, next, steps[1..], fuel)
  }
}
