/**
 * The in-memory string cache grain: a single register that starts as the
 * empty string and keeps whatever value was set last. Nothing is persisted.
 */
module StringCache {
  import opened Wrappers

  class StringCache {
    /** The grain's only field, a nullable string. */
    var data: Option<string>

    /** A new activation starts with the empty string. */
    constructor ()
      ensures data == Some("")
    {
      data := Some("");
    }

    /** Overwrites the register: the previous value plays no part in the new state. */
    method Set(value: Option<string>)
      modifies this
      ensures data == value
    {
      data := value;
    }

    /** Returns the register without changing anything. */
    method Get() returns (r: Option<string>)
      ensures r == data
    {
      r := data;
    }
  }

  /** A fresh cache reads as "", and then as the value each Set stored, last writer winning. */
  method FreshCacheReads(a: Option<string>, b: Option<string>) returns (initial: Option<string>, afterA: Option<string>, afterB: Option<string>, again: Option<string>)
    ensures initial == Some("")
    ensures afterA == a
    ensures afterB == b
    ensures again == b
  {
    var cache := new StringCache();
    initial := cache.Get();
    cache.Set(a);
    afterA := cache.Get();
    cache.Set(b);
    cache.Set(b);
    afterB := cache.Get();
    again := cache.Get();
  }

  /**
   * Two cache grains never share state: setting one leaves the other's value
   * as it was. This follows from Set's frame alone.
   */
  method CachesAreIsolated(u: Option<string>, v: Option<string>) returns (first: Option<string>, second: Option<string>)
    ensures first == v
    ensures second == Some("")
  {
    var one := new StringCache();
    var two := new StringCache();
    one.Set(u);
    one.Set(v);
    first := one.Get();
    second := two.Get();
  }
}
