/**
 * The durable string storage grain. Each grain has two copies of its value:
 * the in-memory State.Data, and the record the storage provider keeps under
 * the grain's key. Set writes through only when the new value differs from
 * the in-memory one; Get answers from memory; three further operations load,
 * delete or blank the copies one at a time.
 *
 * The pure machine `Step` says what one call does to the pair (memory,
 * record); the class `StringStorageGrain` is proved to behave exactly as
 * `Step` says, and the lemmas below are about `Step` and about runs of it.
 */
module StringStorage {
  import opened Wrappers

  type GrainKey = string

  /** A call the grain makes into the storage provider. */
  datatype StoreCall = ReadCall | WriteCall(value: Option<string>) | ClearCall

  /** What a caller of a grain operation observes. */
  datatype Reply = Done | Value(data: Option<string>) | StoreUnavailable

  /**
   * One grain as the outside sees it: `data` is State.Data (None is the null
   * a fresh activation starts with), `record` the Data of the stored record
   * for its key. A missing record and a record whose Data is null both load
   * as null, so both are None here.
   */
  datatype Storage = Storage(data: Option<string>, record: Option<string>)

  /**
   * The grain's five operations. `available` is whether the storage provider
   * accepts the one store call the operation makes. Set's argument is a
   * nullable string.
   */
  datatype Op =
    | OpSet(value: Option<string>, available: bool)
    | OpGet
    | OpReadPersistent(available: bool)
    | OpClearPersistent(available: bool)
    | OpClearTransient

  /** The state after one operation, the store call it issued (if any) and its reply. */
  datatype Outcome = Outcome(state: Storage, call: Option<StoreCall>, reply: Reply)

  /** What one grain operation does. */
  function Step(s: Storage, op: Op): (o: Outcome)
    // The record changes only through a store call the provider accepted.
    ensures o.call.None? ==> o.state.record == s.record
    ensures o.state.record != s.record ==> o.call.Some? && o.reply == Done
    // Only Get answers with a value, and only with the in-memory one.
    ensures o.reply.Value? <==> op.OpGet?
    ensures o.reply.Value? ==> o.reply.data == s.data && o.state == s
  {
    match op
    case OpSet(v, available) =>
      if s.data == v then Outcome(s, None, Done)
      else
        // State.Data is assigned before the write is attempted.
        Outcome(Storage(v, if available then v else s.record),
                Some(WriteCall(v)),
                if available then Done else StoreUnavailable)
    case OpGet =>
      Outcome(s, None, Value(s.data))
    case OpReadPersistent(available) =>
      Outcome(if available then Storage(s.record, s.record) else s,
              Some(ReadCall),
              if available then Done else StoreUnavailable)
    case OpClearPersistent(available) =>
      Outcome(if available then Storage(s.data, None) else s,
              Some(ClearCall),
              if available then Done else StoreUnavailable)
    case OpClearTransient =>
      Outcome(Storage(Some(""), s.record), None, Done)
  }

  /** The state after a sequence of operations, applied in order. */
  function Run(s: Storage, ops: seq<Op>): Storage
    decreases |ops|
  {
    if ops == [] then s else Run(Step(s, ops[0]).state, ops[1..])
  }

  /** The store calls a sequence of operations issues, in order. */
  function Calls(s: Storage, ops: seq<Op>): seq<StoreCall>
    decreases |ops|
  {
    if ops == [] then []
    else
      var o := Step(s, ops[0]);
      (if o.call.Some? then [o.call.value] else []) + Calls(o.state, ops[1..])
  }

  // ----- Single operations -----

  /** Set with the value already in memory changes nothing and makes no store call. */
  lemma SetSameValueIsSuppressed(s: Storage, v: Option<string>, available: bool)
    requires s.data == v
    ensures Step(s, OpSet(v, available)) == Outcome(s, None, Done)
  {
  }

  /**
   * Set with a value that differs from memory puts it in memory and issues
   * exactly one store call, a write of that value; if the write fails the
   * memory keeps the new value and the record stays as it was.
   */
  lemma SetNewValueWritesOnce(s: Storage, v: Option<string>, available: bool)
    requires s.data != v
    ensures var o := Step(s, OpSet(v, available));
      o.state.data == v && o.call == Some(WriteCall(v)) &&
      (available ==> o.state.record == v && o.reply == Done) &&
      (!available ==> o.state.record == s.record && o.reply == StoreUnavailable)
  {
  }

  /**
   * Memory starts as null, so the first Set of any non-null string writes,
   * even of "", while a first Set of null writes nothing.
   */
  lemma FirstSetAlwaysWrites(record: Option<string>, v: string, available: bool)
    ensures Step(Storage(None, record), OpSet(Some(v), available)).call == Some(WriteCall(Some(v)))
    ensures Step(Storage(None, record), OpSet(None, available)).call == None
  {
  }

  /** Get touches neither copy and makes no store call. */
  lemma GetReadsOnlyMemory(s: Storage)
    ensures Step(s, OpGet) == Outcome(s, None, Value(s.data))
  {
  }

  /** ClearTransientState blanks memory and leaves the record alone, without a store call. */
  lemma ClearTransientKeepsRecord(s: Storage)
    ensures Step(s, OpClearTransient) == Outcome(Storage(Some(""), s.record), None, Done)
  {
  }

  /** A successful ReadPersistentState makes memory equal to the record (None if there is none). */
  lemma ReadPersistentLoadsRecord(s: Storage)
    ensures Step(s, OpReadPersistent(true)) == Outcome(Storage(s.record, s.record), Some(ReadCall), Done)
  {
  }

  /** A successful ClearPersistentState deletes the record and leaves memory alone. */
  lemma ClearPersistentDeletesRecord(s: Storage)
    ensures Step(s, OpClearPersistent(true)) == Outcome(Storage(s.data, None), Some(ClearCall), Done)
  {
  }

  // ----- Runs of operations -----

  /** Running `ops` and then `op` is one more Step after the run. */
  lemma {:induction false} RunSnoc(s: Storage, ops: seq<Op>, op: Op)
    ensures Run(s, ops + [op]) == Step(Run(s, ops), op).state
    decreases |ops|
  {
    if ops != [] {
      assert (ops + [op])[0] == ops[0];
      assert (ops + [op])[1..] == ops[1..] + [op];
      RunSnoc(Step(s, ops[0]).state, ops[1..], op);
    }
  }

  /** Whatever happened before, a Get right after Set(v) returns v, whether or not the write succeeded. */
  lemma GetAfterSet(s: Storage, history: seq<Op>, v: Option<string>, available: bool)
    ensures Step(Run(s, history + [OpSet(v, available)]), OpGet).reply == Value(v)
  {
    RunSnoc(s, history, OpSet(v, available));
  }

  /**
   * When Set(v) changed memory and its write succeeded, the value survives a
   * transient clear: ClearTransientState then ReadPersistentState then Get returns v.
   */
  lemma PersistedValueSurvivesTransientClear(s: Storage, v: Option<string>)
    requires s.data != v
    ensures var afterSet := Step(s, OpSet(v, true)).state;
      var blank := Run(afterSet, [OpClearTransient]);
      var reloaded := Run(afterSet, [OpClearTransient, OpReadPersistent(true)]);
      Step(blank, OpGet).reply == Value(Some("")) &&
      Step(reloaded, OpGet).reply == Value(v)
  {
  }

  /**
   * Deleting the record and then reloading leaves memory null: there is no
   * record left to load.
   */
  lemma NothingToReloadAfterPersistentClear(s: Storage)
    ensures Run(s, [OpClearPersistent(true), OpClearTransient, OpReadPersistent(true)]) == Storage(None, None)
  {
  }

  /**
   * Write suppression compares with memory, not with the record: with "x"
   * persisted and memory blanked to "", Set("") makes no store call, so a
   * reload brings "x" back.
   */
  lemma SuppressionComparesWithMemory()
    ensures var s := Storage(Some("x"), Some("x"));
      var ops := [OpClearTransient, OpSet(Some(""), true), OpReadPersistent(true)];
      Calls(s, ops) == [ReadCall] && Run(s, ops) == Storage(Some("x"), Some("x"))
  {
  }

  /** Only runs of Set with this value, whatever each write's outcome. */
  predicate AllSetsOf(ops: seq<Op>, v: Option<string>)
  {
    forall i :: 0 <= i < |ops| ==> ops[i].OpSet? && ops[i].value == v
  }

  /**
   * Repeating Set(v) issues at most one store call in all, a single write of
   * v, and none at all when memory already holds v. In particular a Set(v)
   * that follows a failed write of v does not retry it.
   */
  lemma {:induction false} RepeatedSetWritesAtMostOnce(s: Storage, ops: seq<Op>, v: Option<string>)
    requires AllSetsOf(ops, v)
    ensures Calls(s, ops) == if ops != [] && s.data != v then [WriteCall(v)] else []
    ensures ops != [] ==> Run(s, ops).data == v
    decreases |ops|
  {
    if ops != [] {
      assert AllSetsOf(ops[1..], v) by {
        forall i | 0 <= i < |ops[1..]| ensures ops[1..][i].OpSet? && ops[1..][i].value == v {
          assert ops[1..][i] == ops[i + 1];
        }
      }
      var next := Step(s, ops[0]).state;
      assert next.data == v;
      RepeatedSetWritesAtMostOnce(next, ops[1..], v);
    }
  }

  /** Operations that cannot make memory and record diverge. */
  predicate KeepsInSync(op: Op)
  {
    (op.OpSet? && op.available) || op.OpGet? || op.OpReadPersistent?
  }

  /**
   * Once memory and record agree, they keep agreeing under successful Sets,
   * Gets and loads; they can only diverge through ClearTransientState,
   * ClearPersistentState or a failed write.
   */
  lemma {:induction false} StaysInSync(s: Storage, ops: seq<Op>)
    requires s.data == s.record
    requires forall i :: 0 <= i < |ops| ==> KeepsInSync(ops[i])
    ensures Run(s, ops).data == Run(s, ops).record
    decreases |ops|
  {
    if ops != [] {
      assert KeepsInSync(ops[0]);
      forall i | 0 <= i < |ops[1..]| ensures KeepsInSync(ops[1..][i]) {
        assert ops[1..][i] == ops[i + 1];
      }
      StaysInSync(Step(s, ops[0]).state, ops[1..]);
    }
  }

  /** Some operation of `ops` can have left `r` in the store: a successful Set of `r`, or a successful clear when `r` is None. */
  predicate StoredBy(ops: seq<Op>, r: Option<string>)
  {
    exists i :: 0 <= i < |ops| && (ops[i] == OpSet(r, true) || (r.None? && ops[i] == OpClearPersistent(true)))
  }

  /**
   * The record only ever holds what it started with, or what some successful
   * Set of the run passed in (or nothing after a successful clear).
   */
  lemma {:induction false} RecordComesFromRun(s: Storage, ops: seq<Op>)
    ensures Run(s, ops).record == s.record || StoredBy(ops, Run(s, ops).record)
    decreases |ops|
  {
    if ops != [] {
      var next := Step(s, ops[0]).state;
      var r := Run(s, ops).record;
      RecordComesFromRun(next, ops[1..]);
      if r == next.record {
        if r != s.record {
          assert ops[0] == OpSet(r, true) || (r.None? && ops[0] == OpClearPersistent(true));
          assert StoredBy(ops, r);
        }
      } else {
        var i :| 0 <= i < |ops[1..]| && (ops[1..][i] == OpSet(r, true) || (r.None? && ops[1..][i] == OpClearPersistent(true)));
        assert ops[i + 1] == ops[1..][i];
        assert StoredBy(ops, r);
      }
    }
  }

  // ----- The grain as an object over a shared store -----

  /** The Data a records map holds for `key`; None when there is no record or its Data is null. */
  function Recorded(records: map<GrainKey, Option<string>>, key: GrainKey): Option<string>
  {
    if key in records then records[key] else None
  }

  /** The store-call log entries one operation adds for `key`. */
  function Logged(key: GrainKey, call: Option<StoreCall>): seq<(GrainKey, StoreCall)>
  {
    if call.Some? then [(key, call.value)] else []
  }

  /**
   * The storage provider: one record per grain key, and a log of every call
   * made into it. `available` is whether the backend accepts the call; a
   * refused call changes no record.
   */
  class Store {
    var records: map<GrainKey, Option<string>>
    ghost var log: seq<(GrainKey, StoreCall)>

    constructor ()
      ensures records == map[] && log == []
    {
      records := map[];
      log := [];
    }

    method ReadState(key: GrainKey, available: bool) returns (ok: bool, r: Option<string>)
      modifies this
      ensures records == old(records) && log == old(log) + [(key, ReadCall)]
      ensures ok == available
      ensures ok ==> r == Recorded(records, key)
    {
      log := log + [(key, ReadCall)];
      ok := available;
      r := if available then Recorded(records, key) else None;
    }

    method WriteState(key: GrainKey, value: Option<string>, available: bool) returns (ok: bool)
      modifies this
      ensures records == (if available then old(records)[key := value] else old(records))
      ensures log == old(log) + [(key, WriteCall(value))]
      ensures ok == available
    {
      log := log + [(key, WriteCall(value))];
      if available {
        records := records[key := value];
      }
      ok := available;
    }

    method ClearState(key: GrainKey, available: bool) returns (ok: bool)
      modifies this
      ensures records == (if available then old(records) - {key} else old(records))
      ensures log == old(log) + [(key, ClearCall)]
      ensures ok == available
    {
      log := log + [(key, ClearCall)];
      if available {
        records := records - {key};
      }
      ok := available;
    }
  }

  class StringStorageGrain {
    const key: GrainKey
    const store: Store
    /** State.Data; None is the null it holds until a Set or a load. */
    var data: Option<string>

    /** The grain's pair (memory, record). */
    function View(): Storage
      reads this, store
    {
      Storage(data, Recorded(store.records, key))
    }

    /** Activation: State.Data is null, and the record is not loaded. */
    constructor (key: GrainKey, store: Store)
      ensures this.key == key && this.store == store && data == None
    {
      this.key := key;
      this.store := store;
      data := None;
    }

    method Set(value: Option<string>, available: bool) returns (reply: Reply)
      modifies this, store
      ensures var o := Step(old(View()), OpSet(value, available));
        View() == o.state && reply == o.reply && store.log == old(store.log) + Logged(key, o.call)
      ensures store.records == if old(data) != value && available then old(store.records)[key := value] else old(store.records)
    {
      if value != data {
        data := value;
        var ok := store.WriteState(key, value, available);
        reply := if ok then Done else StoreUnavailable;
      } else {
        reply := Done;
      }
    }

    method Get() returns (r: Option<string>)
      ensures r == data
      ensures Step(View(), OpGet).reply == Value(r)
    {
      r := data;
    }

    method ReadPersistentState(available: bool) returns (reply: Reply)
      modifies this, store
      ensures var o := Step(old(View()), OpReadPersistent(available));
        View() == o.state && reply == o.reply && store.log == old(store.log) + Logged(key, o.call)
      ensures store.records == old(store.records)
    {
      var ok, r := store.ReadState(key, available);
      if ok {
        data := r;
        reply := Done;
      } else {
        reply := StoreUnavailable;
      }
    }

    method ClearPersistentState(available: bool) returns (reply: Reply)
      modifies store
      ensures var o := Step(old(View()), OpClearPersistent(available));
        View() == o.state && reply == o.reply && store.log == old(store.log) + Logged(key, o.call)
      ensures store.records == if available then old(store.records) - {key} else old(store.records)
    {
      var ok := store.ClearState(key, available);
      reply := if ok then Done else StoreUnavailable;
    }

    method ClearTransientState() returns (reply: Reply)
      modifies this
      ensures var o := Step(old(View()), OpClearTransient);
        View() == o.state && reply == o.reply && o.call == None
    {
      data := Some("");
      reply := Done;
    }
  }

  /**
   * The durable-storage sequence: Set then Get, a transient clear, a reload,
   * then deleting the record, blanking memory and reloading again.
   */
  method WriteThroughScenario() returns (afterSet: Option<string>, afterClear: Option<string>, afterReload: Option<string>, afterDelete: Option<string>)
    ensures afterSet == Some("Hello World")
    ensures afterClear == Some("")
    ensures afterReload == Some("Hello World")
    ensures afterDelete == None
  {
    var store := new Store();
    var grain := new StringStorageGrain("greeting", store);
    var reply := grain.Set(Some("Hello World"), true);
    afterSet := grain.Get();
    reply := grain.ClearTransientState();
    afterClear := grain.Get();
    reply := grain.ReadPersistentState(true);
    afterReload := grain.Get();
    reply := grain.ClearPersistentState(true);
    reply := grain.ClearTransientState();
    reply := grain.ReadPersistentState(true);
    afterDelete := grain.Get();
  }

  /** Two grains with different keys on one store never see each other's value, in memory or persisted. */
  method GrainsAreIsolated(keyA: GrainKey, keyB: GrainKey, v: string) returns (a: Option<string>, b: Option<string>)
    requires keyA != keyB
    ensures a == Some(v)
    ensures b == None
  {
    var store := new Store();
    var grainA := new StringStorageGrain(keyA, store);
    var grainB := new StringStorageGrain(keyB, store);
    var reply := grainA.Set(Some(v), true);
    reply := grainB.ReadPersistentState(true);
    a := grainA.Get();
    b := grainB.Get();
  }
}
