/** The saga log entry model: the typed record written at every transition
    of a saga, and the derived views of a log that the coordinator relies on
    (which sub-transactions were started, the records a rollback writes). */
module SagaLog {
  import opened MemoryStorage

  /** The seven transition kinds. */
  datatype LogType =
    | SagaStart
    | ActionStart
    | ActionEnd
    | SagaAbort
    | CompensateStart
    | CompensateEnd
    | SagaEnd

  /** One positional argument of a sub-transaction call. */
  datatype Value = IntValue(i: int) | StringValue(s: string) | NilValue

  /** The arguments of one call, and the parameters recorded for it. */
  type Args = seq<Value>

  /** One log record. `subTxID` is empty on saga-level records and `params`
      is empty except on `ActionStart`; the timestamp is not modelled. */
  datatype LogEntry = LogEntry(kind: LogType, subTxID: string, params: Args)

  /** One requested sub-transaction: its id and the arguments it runs with. */
  datatype Step = Step(subTxID: string, args: Args)

  function SagaStartEntry(): LogEntry { LogEntry(SagaStart, "", []) }
  function SagaAbortEntry(): LogEntry { LogEntry(SagaAbort, "", []) }
  function SagaEndEntry(): LogEntry { LogEntry(SagaEnd, "", []) }
  function StartEntry(s: Step): LogEntry { LogEntry(ActionStart, s.subTxID, s.args) }
  function EndEntry(id: string): LogEntry { LogEntry(ActionEnd, id, []) }
  function CompensateStartEntry(id: string): LogEntry { LogEntry(CompensateStart, id, []) }
  function CompensateEndEntry(id: string): LogEntry { LogEntry(CompensateEnd, id, []) }

  /** The concatenation of `f(x)` over `xs`, in order. */
  function FlatMap<A, B>(xs: seq<A>, f: A -> seq<B>): seq<B>
  {
    if xs == [] then [] else f(xs[0]) + FlatMap(xs[1..], f)
  }

  lemma {:induction false} FlatMapAppend<A, B>(xs: seq<A>, ys: seq<A>, f: A -> seq<B>)
    ensures FlatMap(xs + ys, f) == FlatMap(xs, f) + FlatMap(ys, f)
  {
    if xs == [] {
      assert xs + ys == ys;
    } else {
      assert (xs + ys)[1..] == xs[1..] + ys;
      FlatMapAppend(xs[1..], ys, f);
    }
  }

  lemma FlatMapSingleton<A, B>(x: A, f: A -> seq<B>)
    ensures FlatMap([x], f) == f(x)
  {
    assert [x][1..] == [];
  }

  /** The reverse of a sequence. */
  function Reverse<A>(xs: seq<A>): (r: seq<A>)
    ensures |r| == |xs|
  {
    if xs == [] then [] else Reverse(xs[1..]) + [xs[0]]
  }

  lemma {:induction false} ReverseAppend<A>(xs: seq<A>, ys: seq<A>)
    ensures Reverse(xs + ys) == Reverse(ys) + Reverse(xs)
  {
    if xs == [] {
      assert xs + ys == ys;
    } else {
      assert (xs + ys)[1..] == xs[1..] + ys;
      ReverseAppend(xs[1..], ys);
    }
  }

  /** The step an `ActionStart` record stands for, as a one-element sequence;
      nothing for any other record. */
  function StartedStep(e: LogEntry): seq<Step>
  {
    if e.kind == ActionStart then [Step(e.subTxID, e.params)] else []
  }

  /** The sub-transactions a log records as started, in log order, each with
      the parameters recorded on its `ActionStart`. */
  function StartedSteps(log: seq<LogEntry>): seq<Step>
  {
    FlatMap(log, StartedStep)
  }

  /** The two records a successful forward step leaves. */
  function ForwardEntries(s: Step): seq<LogEntry>
  {
    [StartEntry(s), EndEntry(s.subTxID)]
  }

  /** The log records of a run of successful forward steps. */
  function ForwardLog(done: seq<Step>): seq<LogEntry>
  {
    FlatMap(done, ForwardEntries)
  }

  /** The two records one compensation leaves. */
  function CompensationEntries(s: Step): seq<LogEntry>
  {
    [CompensateStartEntry(s.subTxID), CompensateEndEntry(s.subTxID)]
  }

  /** The log records of compensating `steps`, in the given order. */
  function CompensationLog(steps: seq<Step>): seq<LogEntry>
  {
    FlatMap(steps, CompensationEntries)
  }

  /** A record that only a rollback writes. */
  predicate IsRollbackEntry(e: LogEntry)
  {
    e.kind == SagaAbort || e.kind == CompensateStart || e.kind == CompensateEnd
  }

  /** `after` is `before` followed only by rollback records. */
  ghost predicate GrowsBy(before: seq<LogEntry>, after: seq<LogEntry>)
  {
    && IsPrefix(before, after)
    && (forall i :: |before| <= i < |after| ==> IsRollbackEntry(after[i]))
  }

  lemma StartedStepsOfForwardEntries(s: Step)
    ensures StartedSteps(ForwardEntries(s)) == [s]
  {
    var es := ForwardEntries(s);
    assert es[1..] == [EndEntry(s.subTxID)];
    assert es[1..][1..] == [];
    assert StartedSteps(es[1..]) == StartedStep(es[1]) + StartedSteps(es[1..][1..]);
  }

  /** The forward log records exactly the steps that produced it. */
  lemma {:induction false} StartedStepsOfForwardLog(done: seq<Step>)
    ensures StartedSteps(ForwardLog(done)) == done
  {
    if done != [] {
      calc {
        StartedSteps(ForwardLog(done));
        StartedSteps(ForwardEntries(done[0]) + ForwardLog(done[1..]));
        { FlatMapAppend(ForwardEntries(done[0]), ForwardLog(done[1..]), StartedStep); }
        StartedSteps(ForwardEntries(done[0])) + StartedSteps(ForwardLog(done[1..]));
        { StartedStepsOfForwardLog(done[1..]); StartedStepsOfForwardEntries(done[0]); }
        [done[0]] + done[1..];
        done;
      }
    }
  }

  /** Rollback records start no sub-transaction. */
  lemma {:induction false} StartedStepsOfRollback(log: seq<LogEntry>)
    requires forall i :: 0 <= i < |log| ==> IsRollbackEntry(log[i])
    ensures StartedSteps(log) == []
  {
    if log != [] {
      StartedStepsOfRollback(log[1..]);
    }
  }

  /** Growing a log by rollback records starts no new sub-transaction. */
  lemma StartedStepsGrowsBy(before: seq<LogEntry>, after: seq<LogEntry>)
    requires GrowsBy(before, after)
    ensures StartedSteps(after) == StartedSteps(before)
  {
    assert after == before + after[|before|..];
    StartedStepsOfRollback(after[|before|..]);
    FlatMapAppend(before, after[|before|..], StartedStep);
  }

  /** The steps started by a log extended with one record. */
  lemma StartedStepsSnoc(log: seq<LogEntry>, e: LogEntry)
    ensures StartedSteps(log + [e]) == StartedSteps(log) + StartedStep(e)
  {
    FlatMapAppend(log, [e], StartedStep);
  }
}
