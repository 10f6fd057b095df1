# Orleans sample grains in Dafny

This project models the per-grain state machines of the Orleans sample and one
rule of its silo host:

- the durable string storage grain (`StringStorage`): the in-memory
  `State.Data` and the persisted record under the grain's key, with write-through
  on change only, `Get` served from memory, and explicit load, delete and blank
  operations;
- the string cache grain (`StringCache`): a register that starts as `""`;
- the stream consumer grain (`StreamConsumer`): an accumulator that deliveries
  append to, and the subscription handle that `Subscribe` stores and
  `Unsubscribe` uses;
- the silo's choice of the public address it advertises (`SiloAddress`): each
  host address is scored, the first address per score is kept in a list sorted
  by score, and the lowest score wins.

Each grain is an object whose calls run one at a time, each call one atomic
step. `Wrappers` holds `Option` and `Result`. `Option` stands for the source's
nullable references, including the nullable `string` arguments the grains
accept and the string fields that can become null. `Result` stands for an
operation that throws.

The storage provider is the class `StringStorage.Store`. It holds one record
per grain key and a ghost log of every call made into it. Store failures are an
input: every store call takes a flag `available`, and a refused call changes no
record and makes the grain operation reply `StoreUnavailable`. The grain methods
are proved to do exactly what the pure function `StringStorage.Step` says about
the pair (memory, record). The lemmas about `Step`, and about `Run` and `Calls`
over sequences of operations, state the properties.

The stream provider is the class `StreamConsumer.StreamProvider`. It only
issues fresh handles and logs subscribe and unsubscribe calls.

The DNS lookup of the silo host is replaced by its result: a sequence of
`(isIPv4, text)` addresses. The sorted list is a sequence of `(score, text)`
pairs kept strictly ascending by score.

Behaviour of the code that one might expect to be otherwise:

- One might expect a failed store write to leave memory unchanged. The code
  assigns `State.Data` before it calls the write (StringStorageGrain.cs:18-19).
  So after a failed write, memory holds the new value and the record holds the
  old one. A repeated `Set` of the same value then issues no write at all
  (`RepeatedSetWritesAtMostOnce`).
- One might expect a fresh storage grain to read as `""`. `Data` has no
  initialiser (StringStorageGrain.cs:9), so it reads as null (`None`) until a
  `Set`, a load or `ClearTransientState`.
- `Set(null)` is accepted. On the storage grain it writes null when memory is
  not null, and writes nothing when memory is already null.
  `OnNextAsync(null)` appends nothing, because C# string concatenation reads
  null as `""`.

The model assumes two things about the persistence framework, which is not
part of this repository; "## Left out" lists them.

## Model

| member | source | states |
|---|---|---|
| `StringStorage.Step` | src/Wolfspelz.OrleansSample.Grains/StringStorageGrain.cs:14-42 | The record changes only through a store call the provider accepted. Only Get replies with a value, and that value is the in-memory one, with nothing changed. |
| `StringStorage.SetSameValueIsSuppressed` | src/Wolfspelz.OrleansSample.Grains/StringStorageGrain.cs:16 | Set(v) with v already in memory changes neither copy and makes no store call. v may be null. |
| `StringStorage.SetNewValueWritesOnce` | src/Wolfspelz.OrleansSample.Grains/StringStorageGrain.cs:16-20 | Set(v) with v different from memory puts v in memory and issues exactly one store call, a write of v. The record becomes v if the write succeeds. If it fails, the record is unchanged, memory still holds v, and the caller sees the failure. |
| `StringStorage.FirstSetAlwaysWrites` | src/Wolfspelz.OrleansSample.Grains/StringStorageGrain.cs:9-20 | Memory starts null, so the first Set of any non-null string writes, "" included. A first Set(null) writes nothing. |
| `StringStorage.GetReadsOnlyMemory` | src/Wolfspelz.OrleansSample.Grains/StringStorageGrain.cs:23-26 | Get returns the in-memory value, changes nothing and makes no store call. |
| `StringStorage.ClearTransientKeepsRecord` | src/Wolfspelz.OrleansSample.Grains/StringStorageGrain.cs:38-42 | ClearTransientState sets memory to "" and leaves the record alone, without a store call. |
| `StringStorage.ReadPersistentLoadsRecord` | src/Wolfspelz.OrleansSample.Grains/StringStorageGrain.cs:28-31 | A successful ReadPersistentState overwrites memory with the record (null when there is none). The record is unchanged and the one store call is a read. |
| `StringStorage.ClearPersistentDeletesRecord` | src/Wolfspelz.OrleansSample.Grains/StringStorageGrain.cs:33-36 | A successful ClearPersistentState deletes the record and leaves memory alone. |
| `StringStorage.RunSnoc` | src/Wolfspelz.OrleansSample.Grains/StringStorageGrain.cs:14-42 | Operations compose one at a time: a run followed by one more operation equals one more Step after the run. |
| `StringStorage.GetAfterSet` | src/Wolfspelz.OrleansSample.Grains/StringStorageGrain.cs:14-26 | After any history, Get immediately after Set(v) returns v, whether or not the write succeeded. |
| `StringStorage.PersistedValueSurvivesTransientClear` | src/Wolfspelz.OrleansSample.Grains/StringStorageGrain.cs:14-42 | Suppose Set(v) changed memory and its write succeeded. Then ClearTransientState makes Get return "", and a following ReadPersistentState makes Get return v again. |
| `StringStorage.NothingToReloadAfterPersistentClear` | src/Wolfspelz.OrleansSample.Grains/StringStorageGrain.cs:28-42 | ClearPersistentState, then ClearTransientState, then ReadPersistentState leaves memory null and no record. |
| `StringStorage.SuppressionComparesWithMemory` | src/Wolfspelz.OrleansSample.Grains/StringStorageGrain.cs:14-42 | Start with "x" persisted and in memory, then blank memory. Set("") now makes no write, because it compares with memory and not with the record. A reload then brings back "x". |
| `StringStorage.RepeatedSetWritesAtMostOnce` | src/Wolfspelz.OrleansSample.Grains/StringStorageGrain.cs:14-21 | Any number of Set(v) calls, whatever each write's outcome, issue in all one write of v, or none if memory already held v. A Set that follows a failed write of the same value does not retry it. Afterwards memory holds v. |
| `StringStorage.StaysInSync` | src/Wolfspelz.OrleansSample.Grains/StringStorageGrain.cs:14-31 | Once memory and record agree, they keep agreeing under successful Sets, Gets and loads. |
| `StringStorage.RecordComesFromRun` | src/Wolfspelz.OrleansSample.Grains/StringStorageGrain.cs:14-36 | After a run, the record is what it was at the start, or it was put there by some operation of the run: a successful Set of that value, or a successful clear when there is no record. |
| `StringStorage.StringStorageGrain.constructor` | src/Wolfspelz.OrleansSample.Grains/StringStorageGrain.cs:7-10 | A new activation has State.Data null and does not load the record. |
| `StringStorage.StringStorageGrain.Set` | src/Wolfspelz.OrleansSample.Grains/StringStorageGrain.cs:14-21 | The value may be null. The new memory, record and reply are those Step gives for Set. The store log grows by exactly the store call Step names. The records map changes only at this grain's key, and only by a successful write. |
| `StringStorage.StringStorageGrain.Get` | src/Wolfspelz.OrleansSample.Grains/StringStorageGrain.cs:23-26 | Returns State.Data, as Step's Get reply, and modifies nothing. |
| `StringStorage.StringStorageGrain.ReadPersistentState` | src/Wolfspelz.OrleansSample.Grains/StringStorageGrain.cs:28-31 | The new state and reply are those Step gives for the load. The store log grows by one read, and no record changes. |
| `StringStorage.StringStorageGrain.ClearPersistentState` | src/Wolfspelz.OrleansSample.Grains/StringStorageGrain.cs:33-36 | The new state and reply are those Step gives for the delete. The store log grows by one clear, and only this grain's record can go. |
| `StringStorage.StringStorageGrain.ClearTransientState` | src/Wolfspelz.OrleansSample.Grains/StringStorageGrain.cs:38-42 | The new state is the one Step gives for ClearTransientState. The store is not touched. |
| `StringStorage.WriteThroughScenario` | src/Wolfspelz.OrleansSample.Grains/StringStorageGrain.cs:14-42 | On a fresh grain, Set("Hello World") and then Get gives "Hello World". A transient clear then gives "". A reload gives "Hello World" again. Deleting the record, blanking memory and reloading gives null. |
| `StringStorage.GrainsAreIsolated` | src/Wolfspelz.OrleansSample.Grains/StringStorageGrain.cs:14-31 | Two grains with different keys share one store. A Set on one is invisible to the other, both in memory and through a reload. |
| `StringCache.StringCache.constructor` | src/Wolfspelz.OrleansSample.Grains/StringCache.cs:9 | A new cache holds "". |
| `StringCache.StringCache.Set` | src/Wolfspelz.OrleansSample.Grains/StringCache.cs:11-15 | The register becomes the value, whatever it held before. So Set is last-writer-wins and Set(v) twice is the same as once. Only the cache's own field changes. |
| `StringCache.StringCache.Get` | src/Wolfspelz.OrleansSample.Grains/StringCache.cs:17-20 | Returns the register and modifies nothing. |
| `StringCache.FreshCacheReads` | src/Wolfspelz.OrleansSample.Grains/StringCache.cs:9-20 | A fresh cache reads "". After Set(a) it reads a. After Set(b) twice it reads b, and keeps reading b. |
| `StringCache.CachesAreIsolated` | src/Wolfspelz.OrleansSample.Grains/StringCache.cs:9-20 | Setting one cache leaves another cache at "". This is a scenario only: it follows from Set's frame, `modifies this`. |
| `StreamConsumer.StreamConsumerGrain.constructor` | src/Wolfspelz.OrleansSample.Grains/StreamConsumerGrain.cs:12-13 | A new consumer has accumulator "" and no subscription. |
| `StreamConsumer.StreamConsumerGrain.Set` | src/Wolfspelz.OrleansSample.Grains/StreamConsumerGrain.cs:15-19 | Overwrites the accumulator and keeps the subscription. |
| `StreamConsumer.StreamConsumerGrain.Get` | src/Wolfspelz.OrleansSample.Grains/StreamConsumerGrain.cs:21-24 | Returns the accumulator and modifies nothing. |
| `StreamConsumer.StreamConsumerGrain.Subscribe` | src/Wolfspelz.OrleansSample.Grains/StreamConsumerGrain.cs:26-31 | Stores the provider's new handle for stream (guid, name); the name may be null and is passed on unchanged. The previous handle is dropped without an unsubscribe: the only provider call is the subscribe. The accumulator is unchanged. |
| `StreamConsumer.StreamConsumerGrain.Unsubscribe` | src/Wolfspelz.OrleansSample.Grains/StreamConsumerGrain.cs:33-39 | With no handle held, it makes no provider call. Otherwise it makes one unsubscribe of the held handle. The handle stays held, so a second Unsubscribe repeats the call. The accumulator is unchanged. |
| `StreamConsumer.StreamConsumerGrain.OnNextAsync` | src/Wolfspelz.OrleansSample.Grains/StreamConsumerGrain.cs:41-45 | Appends the item to the accumulator, a null item or accumulator counting as "", so the result is never null. This is one step of Deliver. The subscription is kept. |
| `StreamConsumer.StreamConsumerGrain.OnCompletedAsync` | src/Wolfspelz.OrleansSample.Grains/StreamConsumerGrain.cs:47-50 | Changes nothing. |
| `StreamConsumer.StreamConsumerGrain.OnErrorAsync` | src/Wolfspelz.OrleansSample.Grains/StreamConsumerGrain.cs:52-55 | Changes nothing. |
| `StreamConsumer.DeliverAppendsInOrder` | src/Wolfspelz.OrleansSample.Grains/StreamConsumerGrain.cs:41-45 | Starting from s, deliveries i1..in with n >= 1 leave s + i1 + ... + in, in delivery order, with nulls read as "". No deliveries leave s as it was. |
| `StreamConsumer.DeliverSplits` | src/Wolfspelz.OrleansSample.Grains/StreamConsumerGrain.cs:41-45 | Two batches of deliveries have the same effect as one batch made of both in turn. |
| `StreamConsumer.TwoDeliveries` | src/Wolfspelz.OrleansSample.Grains/StreamConsumerGrain.cs:15-45 | A consumer set to s that then receives i1 and i2 through OnNextAsync holds Deliver(s, [i1, i2]), which is s + i1 + i2. |
| `StreamConsumer.ResubscribeScenario` | src/Wolfspelz.OrleansSample.Grains/StreamConsumerGrain.cs:26-45 | Take a fresh consumer. Unsubscribe, subscribe twice, receive "1" and "2", complete, and unsubscribe twice. The provider sees two subscriptions with distinct handles, then two unsubscribes of the second handle. The first Unsubscribe makes no call, and the accumulator is "12". |
| `SiloAddress.Score` | src/Wolfspelz.OrleansSample.SiloHost/Program.cs:140-153 | Every score is one of 11, 21, 111 and 121. It is below 100 exactly when the address does not start with "192.168.", and it ends in 11 exactly when the address is IPv4. |
| `SiloAddress.Insert` | src/Wolfspelz.OrleansSample.SiloHost/Program.cs:155-158 | Adding an entry under an absent key keeps the list strictly ascending. The list gains exactly that entry, so its keys gain that key. |
| `SiloAddress.BestIndex` | src/Wolfspelz.OrleansSample.SiloHost/Program.cs:155-160 | Reference choice for a non-empty list: an index whose score is minimal over all addresses, with every earlier address scoring strictly higher. |
| `SiloAddress.CollectCandidates` | src/Wolfspelz.OrleansSample.SiloHost/Program.cs:137-159 | The sorted list is strictly ascending by score and holds every score that occurs. Each entry is the score and text of the first address with that score, so later addresses with an equal score are ignored. |
| `SiloAddress.SelectPublicAddress` | src/Wolfspelz.OrleansSample.SiloHost/Program.cs:137-160 | No addresses is an error, and only no addresses is. Otherwise the chosen text is that of the earliest address of minimal score. |
| `SiloAddress.PublicIPv4Wins` | src/Wolfspelz.OrleansSample.SiloHost/Program.cs:140-160 | If some address is IPv4 outside "192.168.", the chosen address is also one, so no "192.168." address is chosen. |
| `SiloAddress.EarliestOfBestScoreWins` | src/Wolfspelz.OrleansSample.SiloHost/Program.cs:155-160 | An address that has an earlier address of the same score is never chosen. |

## Left out

- The Orleans runtime is not modelled: activation, one activation per key, turn scheduling, and the stream broker's fan-out. They are framework code. Calls are sequential and atomic, and deliveries are calls to `OnNextAsync` in the broker's order.
- `Task` and async are not modelled: every operation is synchronous.
- What the framework's `WriteStateAsync`, `ReadStateAsync` and `ClearStateAsync` do to the in-memory state is not modelled beyond loading a record. `ClearPersistentState` deletes the record only, and a failed load leaves memory as it was.
- StringStorage.StringStorageGrain.ReadPersistentState: assumes that the framework's load of a missing record sets `Data` to null. StringStorageGrain.cs:30 only calls `base.ReadStateAsync()`, and what the storage provider does with a missing record is not in this repository. If a provider leaves `State` untouched instead, the load keeps memory as it was. The model also treats a missing record and a record whose `Data` is null as the same state, since both load as null under this assumption. `NothingToReloadAfterPersistentClear` and `WriteThroughScenario`, which end in null, rest on this assumption.
- StringStorage.StringStorageGrain.constructor: assumes that activation leaves `Data` at its null default and does not load the record. Whether the framework loads persisted state on activation is not in this repository. `FirstSetAlwaysWrites` speaks of a grain whose memory is still null.
- Store failures are only a flag per call. The exception type and message are not modelled, and neither is any retry.
- `OnNextAsync`'s sequence token is ignored, as the source ignores it. `OnErrorAsync`'s exception is represented only by a message string.
- The stream provider is abstract. It issues fresh handles and logs subscribe and unsubscribe calls, and it does not model delivery.
- Which values reach which consumer, including the rule that late subscribers get no replay, is broker behaviour and is not modelled.
- `Guid` is a 128-bit number, not its 16-byte form.
- The silo host's DNS lookup, configuration overrides and silo builder setup are I/O and configuration. Only the address scoring and selection is modelled, and address text is taken as given, not rendered from an IP address.
- `StartsWith` here compares characters. .NET's culture-sensitive comparison is not modelled; it gives the same answer on address text, which is ASCII.
- The stream producer grain is not part of this model: it forwards one value to a framework stream and has no state.
- The complex state grain is not part of this model: it exercises JSON serialisation, floating point with a tolerance, `DateTime` and a cross-grain call.
- The client program is not part of this model: it is a console loop with connection retries and argument parsing.
- The grain interfaces and the settings file declare signatures and constants and have no behaviour.
