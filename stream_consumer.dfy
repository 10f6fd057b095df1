/**
 * The stream consumer grain: an accumulator string that every delivered item
 * is appended to, and the handle of the subscription it last made. The stream
 * provider is modelled only as a source of fresh subscription handles and a
 * log of the subscribe and unsubscribe calls made into it.
 */
module StreamConsumer {
  import opened Wrappers

  /** A 128-bit stream id. */
  newtype Guid = x: int | 0 <= x < 0x1_0000_0000_0000_0000_0000_0000_0000_0000

  /** A stream of the provider: its id and its namespace, which may be null. */
  datatype StreamId = StreamId(guid: Guid, namespace: Option<string>)

  /** A subscription handle: the provider's serial number for it and the stream it is for. */
  datatype Handle = Handle(id: nat, stream: StreamId)

  datatype ProviderCall = Subscribed(handle: Handle) | Unsubscribed(handle: Handle)

  class StreamProvider {
    /** How many handles have been issued; every issued handle has a smaller id. */
    var issued: nat
    ghost var log: seq<ProviderCall>

    ghost predicate Valid()
      reads this
    {
      forall i :: 0 <= i < |log| ==> log[i].handle.id < issued
    }

    constructor ()
      ensures Valid() && issued == 0 && log == []
    {
      issued := 0;
      log := [];
    }

    /** Subscribes an observer to `stream`, returning a handle never issued before. */
    method SubscribeAsync(stream: StreamId) returns (h: Handle)
      requires Valid()
      modifies this
      ensures Valid()
      ensures h.stream == stream && h.id == old(issued) && issued == old(issued) + 1
      ensures forall i :: 0 <= i < |old(log)| ==> old(log)[i].handle != h
      ensures log == old(log) + [Subscribed(h)]
    {
      h := Handle(issued, stream);
      issued := issued + 1;
      log := log + [Subscribed(h)];
    }

    method UnsubscribeAsync(h: Handle)
      requires Valid() && h.id < issued
      modifies this
      ensures Valid()
      ensures issued == old(issued) && log == old(log) + [Unsubscribed(h)]
    {
      log := log + [Unsubscribed(h)];
    }
  }

  class StreamConsumerGrain {
    const provider: StreamProvider
    /** The accumulator, a nullable string. */
    var data: Option<string>
    /** The last handle Subscribe obtained; None (null) until the first Subscribe. */
    var subscription: Option<Handle>

    ghost predicate Valid()
      reads this, provider
    {
      provider.Valid() && (subscription.Some? ==> subscription.value.id < provider.issued)
    }

    /** A fresh activation: empty accumulator, no subscription, and no call to the provider. */
    constructor (provider: StreamProvider)
      requires provider.Valid()
      ensures Valid()
      ensures this.provider == provider && data == Some("") && subscription == None
    {
      this.provider := provider;
      data := Some("");
      subscription := None;
    }

    /** Overwrites the accumulator; the subscription is not touched. */
    method Set(value: Option<string>)
      modifies this
      ensures data == value && subscription == old(subscription)
    {
      data := value;
    }

    method Get() returns (r: Option<string>)
      ensures r == data
    {
      r := data;
    }

    /**
     * Subscribes to stream (guid, name) and keeps the new handle. The name
     * may be null and is passed on as it is. A handle held before is dropped
     * without being unsubscribed.
     */
    method Subscribe(guid: Guid, name: Option<string>)
      requires Valid()
      modifies this, provider
      ensures Valid()
      ensures data == old(data)
      ensures subscription == Some(Handle(old(provider.issued), StreamId(guid, name)))
      ensures provider.log == old(provider.log) + [Subscribed(subscription.value)]
    {
      var stream := StreamId(guid, name);
      var h := provider.SubscribeAsync(stream);
      subscription := Some(h);
    }

    /**
     * Unsubscribes the held handle, if any. The handle stays held, so a second
     * Unsubscribe unsubscribes the same handle again.
     */
    method Unsubscribe()
      requires Valid()
      modifies provider
      ensures Valid()
      ensures provider.issued == old(provider.issued)
      ensures provider.log == old(provider.log) + (if subscription.Some? then [Unsubscribed(subscription.value)] else [])
    {
      if subscription.Some? {
        provider.UnsubscribeAsync(subscription.value);
      }
    }

    /**
     * A delivery appends the item to the accumulator. As in C# string
     * concatenation, a null on either side counts as "", so the result is
     * never null.
     */
    method OnNextAsync(item: Option<string>)
      modifies this
      ensures data == Some(Text(old(data)) + Text(item)) && subscription == old(subscription)
      ensures data == Deliver(old(data), [item])
    {
      data := Some(Text(data) + Text(item));
    }

    /** The end of the stream changes nothing. */
    method OnCompletedAsync()
      ensures data == old(data) && subscription == old(subscription)
    {
    }

    /** A stream error changes nothing; the exception is represented only by its message. */
    method OnErrorAsync(error: string)
      ensures data == old(data) && subscription == old(subscription)
    {
    }
  }

  /** A nullable string as string concatenation sees it: null is "". */
  function Text(s: Option<string>): string
  {
    if s.Some? then s.value else ""
  }

  /**
   * The accumulator after the deliveries `items`, in order: OnNextAsync's
   * ensures applied once per item, starting from `acc`.
   */
  function Deliver(acc: Option<string>, items: seq<Option<string>>): Option<string>
    decreases |items|
  {
    if items == [] then acc else Deliver(Some(Text(acc) + Text(items[0])), items[1..])
  }

  /** The items joined, in order, nulls counting as "". */
  function Concat(items: seq<Option<string>>): string
    decreases |items|
  {
    if items == [] then "" else Text(items[0]) + Concat(items[1..])
  }

  /**
   * Deliveries concatenate onto the accumulator in delivery order; after at
   * least one delivery the accumulator is no longer null.
   */
  lemma {:induction false} DeliverAppendsInOrder(acc: Option<string>, items: seq<Option<string>>)
    ensures Deliver(acc, items) == if items == [] then acc else Some(Text(acc) + Concat(items))
    decreases |items|
  {
    if items != [] {
      var next := Some(Text(acc) + Text(items[0]));
      DeliverAppendsInOrder(next, items[1..]);
      assert Concat(items) == Text(items[0]) + Concat(items[1..]);
      if items[1..] == [] {
        assert Concat(items) == Text(items[0]);
      } else {
        assert Text(next) + Concat(items[1..]) == Text(acc) + (Text(items[0]) + Concat(items[1..]));
      }
    }
  }

  /** Two batches of deliveries act as one batch of both in turn. */
  lemma {:induction false} DeliverSplits(acc: Option<string>, first: seq<Option<string>>, second: seq<Option<string>>)
    ensures Deliver(acc, first + second) == Deliver(Deliver(acc, first), second)
    decreases |first|
  {
    if first != [] {
      assert (first + second)[0] == first[0];
      assert (first + second)[1..] == first[1..] + second;
      DeliverSplits(Some(Text(acc) + Text(first[0])), first[1..], second);
    } else {
      assert first + second == second;
    }
  }

  /**
   * A consumer that subscribes twice to the same stream and unsubscribes twice:
   * the provider sees two subscriptions, and two unsubscribes of the second
   * handle only, while the accumulator keeps its deliveries.
   */
  method ResubscribeScenario(guid: Guid, name: Option<string>) returns (ghost log: seq<ProviderCall>, acc: Option<string>)
    ensures |log| == 4
    ensures log[0].Subscribed? && log[1].Subscribed? && log[0].handle != log[1].handle
    ensures log[2] == Unsubscribed(log[1].handle) && log[3] == log[2]
    ensures acc == Some("12")
  {
    var provider := new StreamProvider();
    var consumer := new StreamConsumerGrain(provider);
    consumer.Unsubscribe();
    consumer.Subscribe(guid, name);
    consumer.OnNextAsync(Some("1"));
    consumer.Subscribe(guid, name);
    consumer.OnNextAsync(Some("2"));
    consumer.OnCompletedAsync();
    consumer.Unsubscribe();
    consumer.Unsubscribe();
    log := provider.log;
    acc := consumer.Get();
    assert "" + "1" == "1" && "1" + "2" == "12";
  }

  /** A consumer set to `start` that then receives two items holds what Deliver says. */
  method TwoDeliveries(start: Option<string>, first: Option<string>, second: Option<string>) returns (acc: Option<string>)
    ensures acc == Deliver(start, [first, second])
    ensures acc == Some(Text(start) + Text(first) + Text(second))
  {
    var provider := new StreamProvider();
    var consumer := new StreamConsumerGrain(provider);
    consumer.Set(start);
    consumer.OnNextAsync(first);
    consumer.OnNextAsync(second);
    acc := consumer.Get();
    DeliverSplits(start, [first], [second]);
    assert [first] + [second] == [first, second];
  }
}
