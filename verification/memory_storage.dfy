/** The in-memory saga log store: a plain sequence of records behind the
    five operations of the storage interface (append, look up all, close,
    clean up, last record). The store is a value; an operation that changes
    it returns the new store beside its error result, and an operation that
    only reads cannot change it. */
module MemoryStorage {
  import opened Wrappers

  /** The error result of a storage operation; `None` is Go's nil. */
  type Error = Option<string>

  /** The message `LastLog` reports on an empty store. */
  const EmptyLogMessage: string := "LogData is empty"

  datatype MemStore<T> = MemStore(data: seq<T>)

  /** A new store holds no record. */
  function NewMemStorage<T>(): (s: MemStore<T>)
    ensures Lookup(s) == ([], None)
    ensures LastLog(s) == Failure(EmptyLogMessage)
  {
    MemStore([])
  }

  /** `after` starts with every record of `before`, at the same positions. */
  ghost predicate IsPrefix<T>(before: seq<T>, after: seq<T>)
  {
    && |before| <= |after|
    && forall i :: 0 <= i < |before| ==> after[i] == before[i]
  }

  /** Appends one record at the tail; never fails. */
  function AppendLog<T>(s: MemStore<T>, record: T): (r: (MemStore<T>, Error))
    ensures r.1 == None
    ensures |r.0.data| == |s.data| + 1
    ensures IsPrefix(s.data, r.0.data)
    ensures LastLog(r.0) == Success(record)
  {
    (MemStore(s.data + [record]), None)
  }

  /** All records, in append order; never fails. */
  function Lookup<T>(s: MemStore<T>): (r: (seq<T>, Error))
    ensures r.1 == None
    ensures r.0 == s.data
  {
    (s.data, None)
  }

  /** Releases nothing and reports success. */
  function Close<T>(s: MemStore<T>): (r: Error)
    ensures r == None
  {
    None
  }

  /** Drops every record; never fails. */
  function Cleanup<T>(s: MemStore<T>): (r: (MemStore<T>, Error))
    ensures r.1 == None
    ensures Lookup(r.0).0 == []
    ensures LastLog(r.0) == Failure(EmptyLogMessage)
  {
    (MemStore([]), None)
  }

  /** The most recently appended record, or the empty-store error. */
  function LastLog<T>(s: MemStore<T>): (r: Result<T, string>)
    ensures r.Failure? <==> s.data == []
    ensures r.Failure? ==> r.error == EmptyLogMessage
    ensures r.Success? ==> r.value == s.data[|s.data| - 1]
  {
    if |s.data| == 0 then Failure(EmptyLogMessage)
    else Success(s.data[|s.data| - 1])
  }

  /** Appends `records` one by one, first to last. */
  function AppendAll<T>(s: MemStore<T>, records: seq<T>): MemStore<T>
    decreases |records|
  {
    if records == [] then s
    else AppendAll(AppendLog(s, records[0]).0, records[1..])
  }

  /** Lookup reports the records in exactly the order they were appended,
      after the records already there. */
  lemma {:induction false} LookupAfterAppends<T>(s: MemStore<T>, records: seq<T>)
    ensures Lookup(AppendAll(s, records)).0 == s.data + records
    decreases |records|
  {
    if records != [] {
      var s' := AppendLog(s, records[0]).0;
      LookupAfterAppends(s', records[1..]);
      assert s'.data == s.data + [records[0]];
      assert [records[0]] + records[1..] == records;
      assert s.data + [records[0]] + records[1..] == s.data + records;
    }
  }

  /** Cleaning up an already clean store changes nothing. */
  lemma CleanupIdempotent<T>(s: MemStore<T>)
    ensures Cleanup(Cleanup(s).0) == Cleanup(s)
  {
  }
}
