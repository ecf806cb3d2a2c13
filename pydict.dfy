/**
 * Python dictionaries as their item lists in insertion order, and the
 * evaluation of a dict literal: entries are stored left to right, and a key
 * that occurs again keeps its first position but takes the later value.
 */
module PyDict {
  import opened Wrappers

  /** The items of a dict, in the order `items()` yields them. */
  type Dict<K, V> = seq<(K, V)>

  /** No key is stored twice. */
  predicate KeysDistinct<K(==), V>(d: Dict<K, V>)
  {
    forall i, j :: 0 <= i < j < |d| ==> d[i].0 != d[j].0
  }

  predicate HasKey<K(==), V>(d: Dict<K, V>, k: K)
  {
    exists i :: 0 <= i < |d| && d[i].0 == k
  }

  /** The position of the first item with key `k`. */
  function IndexOf<K(==), V>(d: Dict<K, V>, k: K): (r: Option<nat>)
    ensures r.None? <==> !HasKey(d, k)
    ensures r.Some? ==> (r.value < |d| && d[r.value].0 == k &&
                         forall j :: 0 <= j < r.value ==> d[j].0 != k)
  {
    if d == [] then None
    else if d[0].0 == k then Some(0)
    else
      match IndexOf(d[1..], k)
      case None => None
      case Some(i) => Some(i + 1)
  }

  /** `d[k]`, or `None` where Python raises `KeyError`. */
  function Get<K(==), V>(d: Dict<K, V>, k: K): Option<V>
  {
    match IndexOf(d, k)
    case None => None
    case Some(i) => Some(d[i].1)
  }

  /** `d[k] = v`: an existing key keeps its place and takes the new value,
      a new key goes to the end. */
  function Put<K(==), V>(d: Dict<K, V>, k: K, v: V): Dict<K, V>
  {
    match IndexOf(d, k)
    case Some(i) => d[i := (k, v)]
    case None => d + [(k, v)]
  }

  /** Storing keeps the keys distinct, makes `k` map to `v`, leaves every
      other key as it was, and adds an item exactly when `k` is new. */
  lemma PutSpec<K, V>(d: Dict<K, V>, k: K, v: V)
    requires KeysDistinct(d)
    ensures KeysDistinct(Put(d, k, v))
    ensures Get(Put(d, k, v), k) == Some(v)
    ensures forall k' :: k' != k ==> Get(Put(d, k, v), k') == Get(d, k')
    ensures |Put(d, k, v)| == if HasKey(d, k) then |d| else |d| + 1
    ensures forall i :: 0 <= i < |d| ==> Put(d, k, v)[i].0 == d[i].0
  {
    var r := Put(d, k, v);
    forall k' | k' != k ensures Get(r, k') == Get(d, k') {
      if HasKey(d, k') {
        var i := IndexOf(d, k').value;
        assert r[i] == d[i];
        UniqueIndex(r, k', i);
      } else {
        assert !HasKey(r, k');
      }
    }
    match IndexOf(d, k)
    case Some(i) =>
      assert r[i] == (k, v);
      UniqueIndex(r, k, i);
    case None =>
      assert r[|d|] == (k, v);
      UniqueIndex(r, k, |d|);
  }

  /** In a dict with distinct keys, the item holding `k` is the one found. */
  lemma UniqueIndex<K, V>(d: Dict<K, V>, k: K, i: nat)
    requires KeysDistinct(d) && i < |d| && d[i].0 == k
    ensures IndexOf(d, k) == Some(i)
  {
  }

  /** Evaluation of a dict literal `{k0: v0, k1: v1, ...}`: each entry is
      stored in turn, from left to right. */
  function FromLiteral<K(==), V>(entries: seq<(K, V)>): (d: Dict<K, V>)
  {
    if entries == [] then []
    else
      var last := entries[|entries| - 1];
      Put(FromLiteral(entries[..|entries| - 1]), last.0, last.1)
  }

  /** The value an entry list gives `k` by its last entry for `k`. */
  function LastValue<K(==), V>(entries: seq<(K, V)>, k: K): Option<V>
  {
    if entries == [] then None
    else if entries[|entries| - 1].0 == k then Some(entries[|entries| - 1].1)
    else LastValue(entries[..|entries| - 1], k)
  }

  /** A dict literal has distinct keys; each key maps to the value of its
      LAST entry, and the keys are exactly those of the entries. */
  lemma {:induction false} FromLiteralSpec<K, V>(entries: seq<(K, V)>)
    ensures KeysDistinct(FromLiteral(entries))
    ensures forall k :: Get(FromLiteral(entries), k) == LastValue(entries, k)
    ensures forall k :: HasKey(FromLiteral(entries), k) <==> exists i :: 0 <= i < |entries| && entries[i].0 == k
  {
    if entries != [] {
      var init := entries[..|entries| - 1];
      var last := entries[|entries| - 1];
      FromLiteralSpec(init);
      PutSpec(FromLiteral(init), last.0, last.1);
      var d := FromLiteral(entries);
      forall k ensures HasKey(d, k) <==> exists i :: 0 <= i < |entries| && entries[i].0 == k {
        if exists i :: 0 <= i < |entries| && entries[i].0 == k {
          var i :| 0 <= i < |entries| && entries[i].0 == k;
          if i < |init| {
            assert init[i].0 == k;
            assert Get(d, k).Some?;
          } else {
            assert Get(d, k).Some?;
          }
        }
        if HasKey(d, k) {
          assert Get(d, k).Some?;
          if k != last.0 {
            assert HasKey(FromLiteral(init), k);
            var i :| 0 <= i < |init| && init[i].0 == k;
            assert entries[i].0 == k;
          }
        }
      }
    }
  }

  /** A literal without repeated keys is stored exactly as written. */
  lemma {:induction false} FromLiteralDistinct<K, V>(entries: seq<(K, V)>)
    requires KeysDistinct(entries)
    ensures FromLiteral(entries) == entries
  {
    if entries != [] {
      var init := entries[..|entries| - 1];
      var last := entries[|entries| - 1];
      assert KeysDistinct(init);
      FromLiteralDistinct(init);
      assert !HasKey(init, last.0);
      assert init + [last] == entries;
    }
  }

  /** A literal whose final entry repeats the key at position `i` of the
      distinct entries before it: that item takes the new value in place. */
  lemma FromLiteralRepeatLast<K, V>(entries: seq<(K, V)>, k: K, v: V, i: nat)
    requires KeysDistinct(entries) && i < |entries| && entries[i].0 == k
    ensures FromLiteral(entries + [(k, v)]) == entries[i := (k, v)]
  {
    assert (entries + [(k, v)])[..|entries|] == entries;
    FromLiteralDistinct(entries);
    UniqueIndex(entries, k, i);
  }
}
