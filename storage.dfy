/** The platform key-value store (`AsyncStorage`) as a value: the screens read
    it through `Get` and their handlers return the store as it is after their
    writes. Its asynchrony and its failures are not modelled. */
module Storage {
  import opened Common

  type Store = map<string, string>

  /** `AsyncStorage.getItem(key)`: null when the key was never written. */
  function Get(store: Store, key: string): Option<string> {
    if key in store then Some(store[key]) else None
  }

  /** `AsyncStorage.setItem(key, value)`. */
  function Set(store: Store, key: string, value: string): (r: Store)
    ensures Get(r, key) == Some(value)
    ensures forall k :: k != key ==> Get(r, k) == Get(store, k)
  {
    store[key := value]
  }

  /** `AsyncStorage.multiRemove(keys)`. */
  function RemoveAll(store: Store, keys: set<string>): (r: Store)
    ensures forall k :: k in keys ==> Get(r, k) == None
    ensures forall k :: k !in keys ==> Get(r, k) == Get(store, k)
  {
    store - keys
  }
}
