/**
 * `QMap<QString, V>`: a dictionary that iterates in ascending key order.
 * It is modelled as the list of its entries, strictly ascending by the
 * code-point order of the keys (`Text.Less`), together with the map it stands for.
 */
module QMaps {
  import opened Text
  import opened Options

  datatype QMap<V> = QMap(entries: seq<(string, V)>)

  function Empty<V>(): QMap<V>
  {
    QMap([])
  }

  /** The entries are strictly ascending by key (so keys are distinct). */
  predicate Sorted<V>(es: seq<(string, V)>)
  {
    forall i, j :: 0 <= i < j < |es| ==> Less(es[i].0, es[j].0)
  }

  predicate Valid<V>(m: QMap<V>)
  {
    Sorted(m.entries)
  }

  predicate AllAbove<V>(k: string, es: seq<(string, V)>)
  {
    forall i :: 0 <= i < |es| ==> Less(k, es[i].0)
  }

  /** The dictionary the entries stand for. */
  function EntriesMap<V>(es: seq<(string, V)>): map<string, V>
  {
    if es == [] then map[] else EntriesMap(es[1..])[es[0].0 := es[0].1]
  }

  function ToMap<V>(m: QMap<V>): map<string, V>
  {
    EntriesMap(m.entries)
  }

  function Keys<V>(m: QMap<V>): seq<string>
  {
    seq(|m.entries|, i requires 0 <= i < |m.entries| => m.entries[i].0)
  }

  /** `QMap::values()`: the values in ascending key order. */
  function Values<V>(m: QMap<V>): (vs: seq<V>)
    ensures |vs| == |m.entries|
    ensures forall i :: 0 <= i < |vs| ==> vs[i] == m.entries[i].1
  {
    seq(|m.entries|, i requires 0 <= i < |m.entries| => m.entries[i].1)
  }

  lemma {:induction false} EntriesMapKeys<V>(es: seq<(string, V)>, k: string)
    ensures k in EntriesMap(es) <==> exists i :: 0 <= i < |es| && es[i].0 == k
  {
    if es != [] {
      EntriesMapKeys(es[1..], k);
      if k in EntriesMap(es[1..]) {
        var i :| 0 <= i < |es[1..]| && es[1..][i].0 == k;
        assert es[i + 1].0 == k;
      }
      if exists i :: 0 <= i < |es| && es[i].0 == k {
        var i :| 0 <= i < |es| && es[i].0 == k;
        if i > 0 { assert es[1..][i - 1].0 == k; }
      }
    }
  }

  /** In sorted entries, the entry with a key gives that key's value. */
  lemma {:induction false} EntriesMapAt<V>(es: seq<(string, V)>, i: int)
    requires Sorted(es) && 0 <= i < |es|
    ensures es[i].0 in EntriesMap(es) && EntriesMap(es)[es[i].0] == es[i].1
  {
    if i > 0 {
      EntriesMapAt(es[1..], i - 1);
      LessIrreflexive(es[i].0);
      assert Less(es[0].0, es[i].0);
    }
  }

  function InsertEntry<V>(es: seq<(string, V)>, k: string, v: V): seq<(string, V)>
  {
    if es == [] then [(k, v)]
    else if es[0].0 == k then [(k, v)] + es[1..]
    else if Less(k, es[0].0) then [(k, v)] + es
    else [es[0]] + InsertEntry(es[1..], k, v)
  }

  lemma {:induction false} InsertEntryProps<V>(es: seq<(string, V)>, k: string, v: V, low: Option<string>)
    requires Sorted(es)
    requires low.Some? ==> AllAbove(low.value, es) && Less(low.value, k)
    ensures Sorted(InsertEntry(es, k, v))
    ensures low.Some? ==> AllAbove(low.value, InsertEntry(es, k, v))
    ensures EntriesMap(InsertEntry(es, k, v)) == EntriesMap(es)[k := v]
  {
    var r := InsertEntry(es, k, v);
    if es == [] {
    } else if es[0].0 == k {
      assert es[1..] == es[1..];
      assert forall j :: 1 <= j < |r| ==> r[j] == es[j];
    } else if Less(k, es[0].0) {
      forall j | 1 <= j < |r| ensures Less(k, r[j].0) {
        assert r[j] == es[j - 1];
        if j > 1 { LessTransitive(k, es[0].0, es[j - 1].0); }
      }
    } else {
      LessTotal(k, es[0].0);
      InsertEntryProps(es[1..], k, v, Some(es[0].0));
      var tail := InsertEntry(es[1..], k, v);
      assert r == [es[0]] + tail;
      if low.Some? {
        forall j | 0 <= j < |r| ensures Less(low.value, r[j].0) {
          if j > 0 { LessTransitive(low.value, es[0].0, r[j].0); }
        }
      }
      calc {
        EntriesMap(r);
        EntriesMap(tail)[es[0].0 := es[0].1];
        EntriesMap(es[1..])[k := v][es[0].0 := es[0].1];
        EntriesMap(es[1..])[es[0].0 := es[0].1][k := v];
      }
    }
  }

  /** `QMap::insert(k, v)` (also `map[k] = v`): set one key, keep the order. */
  function Put<V>(m: QMap<V>, k: string, v: V): (r: QMap<V>)
    requires Valid(m)
    ensures Valid(r)
    ensures ToMap(r) == ToMap(m)[k := v]
  {
    InsertEntryProps(m.entries, k, v, None);
    QMap(InsertEntry(m.entries, k, v))
  }

  function RemoveEntry<V>(es: seq<(string, V)>, k: string): seq<(string, V)>
  {
    if es == [] then []
    else if es[0].0 == k then RemoveEntry(es[1..], k)
    else [es[0]] + RemoveEntry(es[1..], k)
  }

  lemma {:induction false} RemoveEntryProps<V>(es: seq<(string, V)>, k: string, low: Option<string>)
    requires Sorted(es)
    requires low.Some? ==> AllAbove(low.value, es)
    ensures Sorted(RemoveEntry(es, k))
    ensures low.Some? ==> AllAbove(low.value, RemoveEntry(es, k))
    ensures EntriesMap(RemoveEntry(es, k)) == EntriesMap(es) - {k}
  {
    if es != [] {
      var tail := RemoveEntry(es[1..], k);
      if es[0].0 == k {
        RemoveEntryProps(es[1..], k, low);
      } else {
        RemoveEntryProps(es[1..], k, Some(es[0].0));
        if low.Some? {
          forall j | 0 <= j < |tail| ensures Less(low.value, tail[j].0) {
            LessTransitive(low.value, es[0].0, tail[j].0);
          }
        }
      }
    }
  }

  /** `QMap::remove(k)`: drop one key, keep the order of the rest. */
  function Remove<V>(m: QMap<V>, k: string): (r: QMap<V>)
    requires Valid(m)
    ensures Valid(r)
    ensures ToMap(r) == ToMap(m) - {k}
  {
    RemoveEntryProps(m.entries, k, None);
    QMap(RemoveEntry(m.entries, k))
  }

  /** `QMap::contains(k)` and `QMap::value(k)` in one: the value, if the key is present. */
  function Get<V>(m: QMap<V>, k: string): (r: Option<V>)
    ensures r.Some? <==> k in ToMap(m)
    ensures r.Some? ==> r.value == ToMap(m)[k]
  {
    GetEntry(m.entries, k)
  }

  function GetEntry<V>(es: seq<(string, V)>, k: string): (r: Option<V>)
    ensures r.Some? <==> k in EntriesMap(es)
    ensures r.Some? ==> r.value == EntriesMap(es)[k]
  {
    if es == [] then None
    else if es[0].0 == k then Some(es[0].1)
    else GetEntry(es[1..], k)
  }

  /** The keys of a valid map are exactly its dictionary's keys, listed once each in order. */
  lemma KeysAreDomain<V>(m: QMap<V>, k: string)
    requires Valid(m)
    ensures k in ToMap(m) <==> k in Keys(m)
  {
    EntriesMapKeys(m.entries, k);
    if k in ToMap(m) {
      var i :| 0 <= i < |m.entries| && m.entries[i].0 == k;
      assert Keys(m)[i] == k;
    }
  }

  /** An entry of a valid map carries the value its dictionary gives its key. */
  lemma EntryValue<V>(m: QMap<V>, i: int)
    requires Valid(m) && 0 <= i < |m.entries|
    ensures m.entries[i].0 in ToMap(m) && ToMap(m)[m.entries[i].0] == m.entries[i].1
  {
    EntriesMapAt(m.entries, i);
  }

  /** Removing every key of a list, one after the other, as a loop over `toRemove` does. */
  function RemoveAll<V>(m: QMap<V>, ks: seq<string>): (r: QMap<V>)
    requires Valid(m)
    ensures Valid(r)
    ensures ToMap(r) == ToMap(m) - set i | 0 <= i < |ks| :: ks[i]
    decreases |ks|
  {
    if ks == [] then m
    else
      var r := RemoveAll(Remove(m, ks[0]), ks[1..]);
      assert (set i | 0 <= i < |ks| :: ks[i]) == {ks[0]} + set i | 0 <= i < |ks[1..]| :: ks[1..][i];
      r
  }

  /** Removing a list of keys and then one more is removing the longer list. */
  lemma {:induction false} RemoveAllSnoc<V>(m: QMap<V>, ks: seq<string>, k: string)
    requires Valid(m)
    ensures RemoveAll(m, ks + [k]) == Remove(RemoveAll(m, ks), k)
    decreases |ks|
  {
    if ks == [] {
      assert ([] + [k])[1..] == [];
    } else {
      assert (ks + [k])[1..] == ks[1..] + [k];
      RemoveAllSnoc(Remove(m, ks[0]), ks[1..], k);
    }
  }
}
