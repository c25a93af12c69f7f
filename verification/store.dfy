/**
 * The key-value store the handlers read and write: a map from keys to
 * values that is either reachable or not. Every operation on an
 * unreachable store raises `ConnectionError` and leaves it unchanged.
 */
module Store {
  import opened Values

  datatype Store = Store(data: map<string, Value>, reachable: bool)

  /** `store.get(key)`: the stored value, or null when the key is absent. */
  function Get(st: Store, key: string): (r: Flow<Value>)
    ensures r.Raised? <==> !st.reachable
    ensures r.Raised? ==> r.exc == ConnectionError
    ensures r.Normal? ==> (r.value != VNone ==> key in st.data && st.data[key] == r.value)
    ensures r.Normal? && key !in st.data ==> r.value == VNone
    ensures r.Normal? && key in st.data ==> r.value == st.data[key]
  {
    if !st.reachable then Raised(ConnectionError)
    else if key in st.data then Normal(st.data[key])
    else Normal(VNone)
  }

  /**
   * `store.cache_get(key)`: reads the same entries as `get`, so an
   * unreachable store raises here too rather than reporting a miss.
   */
  function CacheGet(st: Store, key: string): (r: Flow<Value>)
    ensures r.Raised? <==> !st.reachable
    ensures r.Raised? ==> r.exc == ConnectionError
    ensures r.Normal? ==> r.value == (if key in st.data then st.data[key] else VNone)
  {
    Get(st, key)
  }

  /** `store.cache_set(key, value, ttl)`: overwrites one entry, leaving every other key as it was. */
  function CacheSet(st: Store, key: string, v: Value): (r: Flow<Store>)
    ensures r.Raised? <==> !st.reachable
    ensures r.Raised? ==> r.exc == ConnectionError
    ensures r.Normal? ==> r.value.reachable && key in r.value.data && r.value.data[key] == v
    ensures r.Normal? ==> forall k :: k != key ==> Get(r.value, k) == Get(st, k)
  {
    if !st.reachable then Raised(ConnectionError)
    else Normal(Store(st.data[key := v], true))
  }
}
