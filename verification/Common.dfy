/** Value types shared by every component of the order-fulfilment model. */
module Common {

  datatype Option<+T> = None | Some(value: T)

  type UserId = nat
  type ProductId = nat
  /** Primary keys are modelled as the row's position in its table: a fresh key
      is the length of the table, and key order is creation order. */
  type OrderId = nat
  type MessageId = nat

  /** The map without key `k`. */
  function Without<K, V>(m: map<K, V>, k: K): map<K, V> {
    map i | i in m && i != k :: m[i]
  }

  /** Adding a key, changing it and removing it again leaves the map as it was. */
  lemma AddedAndRemoved<K, V>(m: map<K, V>, k: K, first: V, last: V)
    requires k !in m
    ensures Without(m[k := first], k) == m && Without(m[k := first][k := last], k) == m
  {
  }

  /** The last element of a run. */
  function Last<T>(s: seq<T>): T
    requires s != []
  {
    s[|s| - 1]
  }
}
