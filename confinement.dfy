/**
  Fixed-width integers and the size-confined collections ("Tiny" ordered maps,
  sets and vectors, at most 255 entries each) that contract operations are
  built from. An ordered map is a sequence of key/value pairs whose keys are
  strictly increasing, so keys are unique by construction and iteration
  visits them in ascending order.
 */
module Confinement {

  /** An unsigned 8-bit integer. */
  type byte = x: int | 0 <= x < 0x100

  /** An unsigned 16-bit integer. */
  type u16 = x: int | 0 <= x < 0x1_0000

  /** The capacity of every "Tiny" collection: the largest value of a u8. */
  const TINY_MAX: nat := 0xFF

  datatype Option<+T> = None | Some(value: T)

  /** The result of a three-way comparison. */
  datatype Ordering = Less | Equal | Greater {
    /** The outcome of the same comparison with its operands swapped. */
    function Reverse(): Ordering {
      match this
      case Less => Greater
      case Equal => Equal
      case Greater => Less
    }
  }

  /** A vector of at most 255 elements. */
  type TinyVec<T> = s: seq<T> | |s| <= TINY_MAX

  predicate Ascending(s: seq<u16>) {
    forall i, j :: 0 <= i < j < |s| ==> s[i] < s[j]
  }

  /** An ordered set of at most 255 16-bit values, kept in ascending order. */
  type TinyOrdSet16 = s: seq<u16> | |s| <= TINY_MAX && Ascending(s)

  predicate KeysAscending<V>(m: seq<(u16, V)>) {
    forall i, j :: 0 <= i < j < |m| ==> m[i].0 < m[j].0
  }

  /** An ordered map with 16-bit keys and at most 255 entries. */
  type TinyOrdMap16<V> = m: seq<(u16, V)> | |m| <= TINY_MAX && KeysAscending(m)

  /**
    The value of the first entry whose key is `key`, scanning in iteration
    order; `None` when no entry has that key.
   */
  function FirstByKey<K(==), V>(entries: seq<(K, V)>, key: K): (r: Option<V>)
    ensures r.None? <==> forall i :: 0 <= i < |entries| ==> entries[i].0 != key
    ensures r.Some? ==> exists i :: 0 <= i < |entries| && entries[i] == (key, r.value)
                                    && forall j :: 0 <= j < i ==> entries[j].0 != key
  {
    if entries == [] then None
    else if entries[0].0 == key then
      assert entries[0] == (key, entries[0].1);
      Some(entries[0].1)
    else
      var r := FirstByKey(entries[1..], key);
      assert r.Some? ==> exists i :: 0 <= i < |entries[1..]| && entries[1..][i] == (key, r.value)
                                    && forall j :: 0 <= j < i ==> entries[1..][j].0 != key;
      r
  }

  /** In a map with ascending keys, the first entry with a key is the only one. */
  lemma FirstByKeyUnique<V>(m: TinyOrdMap16<V>, key: u16)
    ensures forall i :: 0 <= i < |m| && m[i].0 == key ==> FirstByKey(m, key) == Some(m[i].1)
  {
  }
}
