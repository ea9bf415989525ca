/**
 * Small value helpers shared by the bot, the reconciler and the pool coordinator.
 */
module Values {

  datatype Option<+T> = None | Some(value: T)

  /**
   * JavaScript's `Number(x) || fallback` for a numeric field that may be
   * absent: an absent (undefined, or not a number) or zero value is falsy and
   * yields the fallback, any other number is kept.
   */
  function OrElse(x: Option<int>, fallback: int): (r: int)
    ensures x.Some? && x.value != 0 ==> r == x.value
    ensures (x.None? || x.value == 0) ==> r == fallback
    ensures r == 0 ==> (x.None? || x.value == 0) && fallback == 0
  {
    if x.Some? && x.value != 0 then x.value else fallback
  }

  /** Looks a key up in a map, as an optional value. */
  function Lookup<K, V>(m: map<K, V>, k: K): (r: Option<V>)
    ensures r.Some? <==> k in m
    ensures r.Some? ==> r.value == m[k]
  {
    if k in m then Some(m[k]) else None
  }
}
