/** The money-transfer scenarios of the saga tests: accounts `foo` (200)
    and `bar` (0), a transfer of 100 as a `deduce` step followed by a
    `deposit` step, and a failure mode that makes one of the actions fail. */
module TransferScenario {
  import opened Wrappers
  import opened MemoryStorage
  import opened SagaLog
  import opened Saga
  import opened SagaProperties
  import opened GuardedSaga

  datatype FailureMode = OK | DeduceFail | DepositFail

  /** The test's account table. */
  type Accounts = map<string, int>

  /** A missing account reads as zero, as a Go map does. */
  function Balance(db: Accounts, account: string): int
  {
    if account in db then db[account] else 0
  }

  function InitialAccounts(): Accounts { map["foo" := 200, "bar" := 0] }

  /** The (account, amount) arguments of the transfer callables. */
  function TransferArgs(args: Args): Option<(string, int)>
  {
    if |args| == 2 && args[0].StringValue? && args[1].IntValue? then Some((args[0].s, args[1].i)) else None
  }

  /** `after` is `before` with `delta` added to the balance of `account`:
      the account is present afterwards and no other account changes. */
  ghost predicate Moved(before: Accounts, after: Accounts, account: string, delta: int)
  {
    && account in after
    && Balance(after, account) == Balance(before, account) + delta
    && forall k :: k != account ==> (k in after <==> k in before) && (k in before ==> after[k] == before[k])
  }

  /** Adds `sign * amount` to the account the arguments name; malformed
      arguments change nothing. */
  function Credit(db: Accounts, args: Args, sign: int): (r: Accounts)
    ensures TransferArgs(args).Some? ==>
              var (account, amount) := TransferArgs(args).value;
              Moved(db, r, account, sign * amount)
    ensures TransferArgs(args).None? ==> r == db
  {
    match TransferArgs(args)
    case None => db
    case Some((account, amount)) => db[account := Balance(db, account) + sign * amount]
  }

  /** Withdraws the amount, unless the mode makes it fail first. */
  function DeduceAccount(mode: FailureMode, args: Args, db: Accounts): (r: CallResult<Accounts>)
    ensures IsReturnError(r.returned) <==> mode == DeduceFail
    ensures mode == DeduceFail ==> r.world == db
    ensures mode != DeduceFail && TransferArgs(args).Some? ==>
              var (account, amount) := TransferArgs(args).value;
              Moved(db, r.world, account, -amount)
  {
    if mode == DeduceFail then CallResult([NonNil("Deduce failure")], db)
    else CallResult([Nil], Credit(db, args, -1))
  }

  /** Pays the withdrawn amount back. */
  function CompensateDeduce(args: Args, db: Accounts): (r: CallResult<Accounts>)
    ensures !IsReturnError(r.returned)
    ensures TransferArgs(args).Some? ==>
              var (account, amount) := TransferArgs(args).value;
              Moved(db, r.world, account, amount)
  {
    CallResult([Nil], Credit(db, args, 1))
  }

  /** Pays in the amount, unless the mode makes it fail first. */
  function DepositAccount(mode: FailureMode, args: Args, db: Accounts): (r: CallResult<Accounts>)
    ensures IsReturnError(r.returned) <==> mode == DepositFail
    ensures mode == DepositFail ==> r.world == db
    ensures mode != DepositFail && TransferArgs(args).Some? ==>
              var (account, amount) := TransferArgs(args).value;
              Moved(db, r.world, account, amount)
  {
    if mode == DepositFail then CallResult([NonNil("Deposit failure")], db)
    else CallResult([Nil], Credit(db, args, 1))
  }

  /** Takes the deposited amount back out. */
  function CompensateDeposit(args: Args, db: Accounts): (r: CallResult<Accounts>)
    ensures !IsReturnError(r.returned)
    ensures TransferArgs(args).Some? ==>
              var (account, amount) := TransferArgs(args).value;
              Moved(db, r.world, account, -amount)
  {
    CallResult([Nil], Credit(db, args, -1))
  }

  /** Compensating a successful deduction restores every balance; on
      well-formed arguments naming an existing account, or on malformed
      arguments, it restores the table exactly. */
  lemma CompensateDeduceUndoes(mode: FailureMode, args: Args, db: Accounts)
    requires mode != DeduceFail
    ensures var after := CompensateDeduce(args, DeduceAccount(mode, args, db).world).world;
            && (forall k :: Balance(after, k) == Balance(db, k))
            && (TransferArgs(args).None? || TransferArgs(args).value.0 in db ==> after == db)
  {
  }

  /** Compensating a successful deposit restores every balance, and the
      table itself under the same conditions as for a deduction. */
  lemma CompensateDepositUndoes(mode: FailureMode, args: Args, db: Accounts)
    requires mode != DepositFail
    ensures var after := CompensateDeposit(args, DepositAccount(mode, args, db).world).world;
            && (forall k :: Balance(after, k) == Balance(db, k))
            && (TransferArgs(args).None? || TransferArgs(args).value.0 in db ==> after == db)
  {
  }

  /** A callable with no return value. */
  function PTest1(args: Args, db: Accounts): (r: CallResult<Accounts>)
    ensures !IsReturnError(r.returned)
    ensures r.world == db
  {
    CallResult([], db)
  }

  /** The sub-transactions the tests register, keyed by id. */
  function Registry(mode: FailureMode): (r: Coordinator<Accounts>)
    ensures r.Keys == {"deduce", "deposit", "test"}
    ensures forall a, db :: r["deduce"].action(a, db) == DeduceAccount(mode, a, db)
    ensures forall a, db :: r["deduce"].compensate(a, db) == CompensateDeduce(a, db)
    ensures forall a, db :: r["deposit"].action(a, db) == DepositAccount(mode, a, db)
    ensures forall a, db :: r["deposit"].compensate(a, db) == CompensateDeposit(a, db)
    ensures forall a, db :: r["test"].action(a, db) == PTest1(a, db)
    ensures forall a, db :: r["test"].compensate(a, db) == PTest1(a, db)
  {
    map[
      "deduce" := SubTxDef((a, db) => DeduceAccount(mode, a, db), CompensateDeduce),
      "deposit" := SubTxDef((a, db) => DepositAccount(mode, a, db), CompensateDeposit),
      "test" := SubTxDef(PTest1, PTest1)]
  }

  function DeduceFoo(amount: int): Step { Step("deduce", [StringValue("foo"), IntValue(amount)]) }
  function DepositBar(amount: int): Step { Step("deposit", [StringValue("bar"), IntValue(amount)]) }

  function TransferSteps(): seq<Step> { [DeduceFoo(100), DepositBar(100)] }

  /** Starts a memory saga on the initial accounts, runs `steps` as a fluent
      chain and ends the saga. */
  function RunTransfer(mode: FailureMode, steps: seq<Step>): (r: Outcome<Accounts>)
    ensures r.Success? ==> Lookup(r.value.GetLog()) == ([], None)
    ensures steps == [] ==> r.Success? && r.value.world == InitialAccounts() && r.value.calls == []
  {
    match GetLogStorage(Memory)
    case Failure(_) => Failure(Panic(UnsupportedProvider, SagaState(NewMemStorage(), InitialAccounts(), [])))
    case Success(store) =>
      match Chain(Registry(mode), RecordSagaStart(SagaState(store, InitialAccounts(), [])), steps, 1)
      case Failure(p) => Failure(p)
      case Success(st) => Success(EndSaga(st))
  }

  lemma RegistryCompensationsSucceed(mode: FailureMode)
    ensures CompensationsSucceed(Registry(mode))
  {
  }

  /** A sub-transaction whose action returns nothing always succeeds. */
  lemma NoReturnValueSucceeds(mode: FailureMode, st: SagaState<Accounts>, args: Args, fuel: nat)
    ensures ExecSub(Registry(mode), st, "test", args, fuel)
            == Success(SagaState(MemStore(st.log.data + [StartEntry(Step("test", args)), EndEntry("test")]),
                                 st.world, st.calls + [Invocation(Action, "test", args)]))
  {
    assert !IsReturnError(Registry(mode)["test"].action(args, st.world).returned);
  }

  /** The all-success transfer: `foo` and `bar` hold 100 each, the log is
      empty after the saga ends, and each action ran once, in order. */
  lemma TransferAllSuccess()
    ensures var r := RunTransfer(OK, TransferSteps());
            && r.Success?
            && Balance(r.value.world, "foo") == 100
            && Balance(r.value.world, "bar") == 100
            && Lookup(r.value.GetLog()).0 == []
            && r.value.calls == ActionCalls(TransferSteps())
  {
    var sec := Registry(OK);
    var steps := TransferSteps();
    var w1 := sec["deduce"].action(steps[0].args, InitialAccounts()).world;
    assert w1 == map["foo" := 100, "bar" := 0];
    assert steps[1..] == [DepositBar(100)];
    assert steps[1..][1..] == [];
    assert ActionWorld(sec, steps, InitialAccounts()) == map["foo" := 100, "bar" := 100];
    HappyPath(sec, InitialAccounts(), steps, 1);
  }

  function FreshTransferSaga(): SagaState<Accounts>
  {
    RecordSagaStart(SagaState(NewMemStorage(), InitialAccounts(), []))
  }

  /** The calls of the failed-deposit transfer: both actions, then both
      compensations in reverse order, each with its step's arguments. */
  function DepositFailCalls(): seq<Invocation>
  {
    [Invocation(Action, "deduce", DeduceFoo(100).args),
     Invocation(Action, "deposit", DepositBar(100).args),
     Invocation(Compensation, "deposit", DepositBar(100).args),
     Invocation(Compensation, "deduce", DeduceFoo(100).args)]
  }

  /** The deduction of the transfer succeeds and withdraws 100 from `foo`. */
  lemma DeduceStep(mode: FailureMode)
    requires mode != DeduceFail
    ensures var e1 := ExecSub(Registry(mode), FreshTransferSaga(), "deduce", DeduceFoo(100).args, 1);
            && e1.Success?
            && Forward(e1.value, [DeduceFoo(100)])
            && e1.value.world == map["foo" := 100, "bar" := 0]
  {
    FreshSaga(Memory, InitialAccounts());
    ExecSubExtendsForward(Registry(mode), FreshTransferSaga(), [], DeduceFoo(100), 1);
    assert [] + [DeduceFoo(100)] == [DeduceFoo(100)];
  }

  /** Compensating the deposit and then the deduction. */
  lemma DepositFailRollback()
    ensures var done := [DeduceFoo(100), DepositBar(100)];
            && Registered(Registry(DepositFail), Reverse(done))
            && Reverse(done) == [DepositBar(100), DeduceFoo(100)]
            && CompensateWorld(Registry(DepositFail), Reverse(done), map["foo" := 100, "bar" := 0])
               == map["foo" := 200, "bar" := -100]
            && ActionCalls(done) + CompensationCalls(Reverse(done)) == DepositFailCalls()
  {
    var sec := Registry(DepositFail);
    var done := [DeduceFoo(100), DepositBar(100)];
    ReverseAppend([DeduceFoo(100)], [DepositBar(100)]);
    assert [DeduceFoo(100)] + [DepositBar(100)] == done;
    var pending := [DepositBar(100), DeduceFoo(100)];
    assert pending[1..] == [DeduceFoo(100)];
    assert pending[1..][1..] == [];
    var w1 := sec["deposit"].compensate(DepositBar(100).args, map["foo" := 100, "bar" := 0]).world;
    assert w1 == map["foo" := 100, "bar" := -100];
    assert sec["deduce"].compensate(DeduceFoo(100).args, w1).world == map["foo" := 200, "bar" := -100];
    FlatMapAppend([DeduceFoo(100)], [DepositBar(100)], ActionCall);
    FlatMapAppend([DepositBar(100)], [DeduceFoo(100)], CompensationCall);
    assert [DepositBar(100)] + [DeduceFoo(100)] == pending;
    FlatMapSingleton(DeduceFoo(100), ActionCall);
    FlatMapSingleton(DepositBar(100), ActionCall);
    FlatMapSingleton(DeduceFoo(100), CompensationCall);
    FlatMapSingleton(DepositBar(100), CompensationCall);
  }

  /** The two steps of the failed-deposit transfer, one `ExecSub` at a time. */
  lemma DepositFailSteps()
    ensures var sec := Registry(DepositFail);
            var e1 := ExecSub(sec, FreshTransferSaga(), "deduce", DeduceFoo(100).args, 1);
            && e1.Success?
            && Forward(e1.value, [DeduceFoo(100)])
            && var e2 := ExecSub(sec, e1.value, "deposit", DepositBar(100).args, 1);
               && e2.Success?
               && e2.value.world == map["foo" := 200, "bar" := -100]
               && e2.value.calls == DepositFailCalls()
  {
    var sec := Registry(DepositFail);
    RegistryCompensationsSucceed(DepositFail);
    DeduceStep(DepositFail);
    var st1 := ExecSub(sec, FreshTransferSaga(), "deduce", DeduceFoo(100).args, 1).value;
    ExecSubRollsBack(sec, st1, [DeduceFoo(100)], DepositBar(100), 1);
    assert [DeduceFoo(100)] + [DepositBar(100)] == [DeduceFoo(100), DepositBar(100)];
    assert sec["deposit"].action(DepositBar(100).args, st1.world).world == st1.world;
    DepositFailRollback();
  }

  /** The failed deposit: the deduction is compensated (`foo` back to 200)
      and so is the deposit that never completed (`bar` at -100); after the
      saga ends the log is empty. */
  lemma TransferDepositFails()
    ensures var r := RunTransfer(DepositFail, TransferSteps());
            && r.Success?
            && Balance(r.value.world, "foo") == 200
            && Balance(r.value.world, "bar") == -100
            && Lookup(r.value.GetLog()).0 == []
            && r.value.calls == DepositFailCalls()
  {
    DepositFailSteps();
    assert TransferSteps()[1..] == [DepositBar(100)];
    assert TransferSteps()[1..][1..] == [];
  }

  /** Three steps, the second failing: as written, the third step's action
      still runs after the rollback, so `foo` ends at 150 instead of 200 and
      the last call made is a forward action. */
  lemma AsWrittenRunsAfterAbort()
    ensures var r := Chain(Registry(DepositFail), FreshTransferSaga(),
                           [DeduceFoo(100), DepositBar(100), DeduceFoo(50)], 1);
            && r.Success?
            && Balance(r.value.world, "foo") == 150
            && r.value.calls == DepositFailCalls() + [Invocation(Action, "deduce", DeduceFoo(50).args)]
  {
    var sec := Registry(DepositFail);
    var st0 := FreshTransferSaga();
    var steps := [DeduceFoo(100), DepositBar(100), DeduceFoo(50)];
    DepositFailSteps();
    var st1 := ExecSub(sec, st0, "deduce", DeduceFoo(100).args, 1).value;
    var st2 := ExecSub(sec, st1, "deposit", DepositBar(100).args, 1).value;
    ChainCons(sec, st0, steps, 1);
    RunsAfterRollback(st1, st2, steps[1..]);
  }

  /** From the state before the failing deposit, the rest of the chain rolls
      back and then still runs the last deduction. */
  lemma RunsAfterRollback(st1: SagaState<Accounts>, st2: SagaState<Accounts>, rest: seq<Step>)
    requires ExecSub(Registry(DepositFail), st1, "deposit", DepositBar(100).args, 1) == Success(st2)
    requires st2.world == map["foo" := 200, "bar" := -100]
    requires st2.calls == DepositFailCalls()
    requires rest == [DepositBar(100), DeduceFoo(50)]
    ensures var r := Chain(Registry(DepositFail), st1, rest, 1);
            && r.Success?
            && Balance(r.value.world, "foo") == 150
            && r.value.calls == DepositFailCalls() + [Invocation(Action, "deduce", DeduceFoo(50).args)]
  {
    var sec := Registry(DepositFail);
    DeduceAfterRollback(st2);
    var st3 := ExecSub(sec, st2, "deduce", DeduceFoo(50).args, 1).value;
    assert rest[1..] == [DeduceFoo(50)];
    assert rest[1..][1..] == [];
    ChainCons(sec, st1, rest, 1);
    ChainCons(sec, st2, rest[1..], 1);
    assert Chain(sec, st1, rest, 1) == Success(st3);
  }

  /** A deduction from `foo` at 200 succeeds and leaves 150, whatever the log. */
  lemma DeduceAfterRollback(st: SagaState<Accounts>)
    requires Balance(st.world, "foo") == 200
    ensures var r := ExecSub(Registry(DepositFail), st, "deduce", DeduceFoo(50).args, 1);
            && r.Success?
            && Balance(r.value.world, "foo") == 150
            && r.value.calls == st.calls + [Invocation(Action, "deduce", DeduceFoo(50).args)]
  {
    var res := Registry(DepositFail)["deduce"].action(DeduceFoo(50).args, st.world);
    assert res == DeduceAccount(DepositFail, DeduceFoo(50).args, st.world);
    assert !IsReturnError(res.returned);
  }

  /** With the guard, the same three steps stop at the failed deposit: the
      accounts are back to `foo` 200 and `bar` -100 and the third action is
      never called. */
  lemma GuardedStopsAfterAbort()
    ensures var r := GuardedChain(Registry(DepositFail), FreshTransferSaga(),
                                  [DeduceFoo(100), DepositBar(100), DeduceFoo(50)], 1);
            && r.Success?
            && Balance(r.value.world, "foo") == 200
            && Balance(r.value.world, "bar") == -100
            && r.value.calls == DepositFailCalls()
  {
    var sec := Registry(DepositFail);
    var st0 := FreshTransferSaga();
    var steps := [DeduceFoo(100), DepositBar(100), DeduceFoo(50)];
    RegistryCompensationsSucceed(DepositFail);
    FreshSaga(Memory, InitialAccounts());
    assert steps[..1] == [DeduceFoo(100)];
    assert steps[..1][1..] == [];
    assert [DeduceFoo(100)][1..] == [];
    GuardedStopsAtFirstFailure(sec, st0, [], steps, 1, 1);
    DepositFailSteps();
    var st1 := ExecSub(sec, st0, "deduce", DeduceFoo(100).args, 1).value;
    ForwardLogNotAborted([]);
    ForwardLogNotAborted([DeduceFoo(100)]);
    assert steps[..2] == [DeduceFoo(100), DepositBar(100)];
    assert steps[..2][1..] == [DepositBar(100)];
    assert steps[..2][1..][1..] == [];
    assert GuardedChain(sec, st1, steps[..2][1..], 1) == ExecSub(sec, st1, "deposit", DepositBar(100).args, 1);
  }
}
