/**
 * A JavaScript `Map<string, V>` as `MemStorage` uses it: a finite map from keys
 * to values, plus the keys in insertion order, which is the order in which
 * `map.values()` yields the values.
 */
module Tables {
  import opened Records
  import opened Seqs

  predicate Distinct<T(==)>(s: seq<T>)
  {
    forall i, j :: 0 <= i < j < |s| ==> s[i] != s[j]
  }

  /** The values stored under `ids`, in the order of `ids`. */
  function Collect<V>(entries: map<Id, V>, ids: seq<Id>): (r: seq<V>)
    requires forall i :: 0 <= i < |ids| ==> ids[i] in entries
    ensures |r| == |ids|
    ensures forall i :: 0 <= i < |ids| ==> r[i] == entries[ids[i]]
  {
    if ids == [] then [] else [entries[ids[0]]] + Collect(entries, ids[1..])
  }

  /** The test `k` as a key predicate, and its negation (named, so that each is one term). */
  function Is(k: Id): Id -> bool
  {
    x => x == k
  }

  function Other(k: Id): Id -> bool
  {
    x => x != k
  }

  datatype Table<V> = Table(entries: map<Id, V>, order: seq<Id>)
  {
    /** Every key occurs exactly once in the insertion order. */
    ghost predicate Valid()
    {
      Distinct(order) && forall k :: k in entries <==> k in order
    }

    /** Every value is stored under its own id. */
    ghost predicate KeyedBy(key: V -> Id)
    {
      forall k :: k in entries ==> key(entries[k]) == k
    }

    /** The number of keys; a helper of the model, not an operation the store performs. */
    function Size(): nat
    {
      |order|
    }

    /** `map.get(k)` */
    function Get(k: Id): Option<V>
    {
      if k in entries then Some(entries[k]) else None
    }

    /** `Array.from(map.values())` */
    function Values(): (r: seq<V>)
      requires Valid()
      ensures |r| == Size()
      ensures forall i :: 0 <= i < |r| ==> r[i] == entries[order[i]]
    {
      Collect(entries, order)
    }

    /** `map.set(k, v)`: a new key goes last, an existing key keeps its place. */
    function Set(k: Id, v: V): (t: Table<V>)
      requires Valid()
      ensures t.Valid()
    {
      if k in entries then Table(entries[k := v], order)
      else Table(entries[k := v], order + [k])
    }

    /** `map.delete(k)`, without its result (which is `k in entries`). */
    function Delete(k: Id): (t: Table<V>)
      requires Valid()
      ensures t.Valid()
      ensures k !in t.entries
    {
      DistinctFilter(order, Other(k));
      Table(entries - {k}, Filter(order, Other(k)))
    }
  }

  function EmptyTable<V>(): (t: Table<V>)
    ensures t.Valid() && t.Size() == 0 && t.entries == map[]
  {
    Table(map[], [])
  }

  /** A valid table has as many entries as keys in its order. */
  lemma SizeIsCount<V>(t: Table<V>)
    requires t.Valid()
    ensures t.Size() == |t.entries|
  {
    DistinctCardinality(t.order, t.entries.Keys);
  }

  lemma {:induction false} DistinctCardinality(s: seq<Id>, keys: set<Id>)
    requires Distinct(s)
    requires forall k :: k in keys <==> k in s
    ensures |keys| == |s|
  {
    if s != [] {
      var rest := keys - {s[0]};
      assert forall k :: k in rest <==> k in s[1..] by {
        forall k ensures k in rest <==> k in s[1..] {
          if k in s[1..] {
            var i :| 0 <= i < |s[1..]| && s[1..][i] == k;
            assert s[i + 1] == k;
          }
        }
      }
      DistinctCardinality(s[1..], rest);
    }
  }

  lemma {:induction false} DistinctFilter<T>(s: seq<T>, keep: T -> bool)
    requires Distinct(s)
    ensures Distinct(Filter(s, keep))
  {
    if s != [] {
      DistinctFilter(s[1..], keep);
      if keep(s[0]) {
        var r := Filter(s, keep);
        assert r == [s[0]] + Filter(s[1..], keep);
        forall j | 0 < j < |r| ensures r[0] != r[j] {
          assert r[j] in s[1..];
        }
      }
    }
  }

  /**
   * Filtering out one key of a duplicate-free order removes exactly its one
   * occurrence and keeps the rest in place.
   */
  lemma {:induction false} RemoveOne(s: seq<Id>, k: Id)
    requires Distinct(s) && k in s
    ensures var i := FirstMatch(s, Is(k));
      i < |s| && s[i] == k && Filter(s, Other(k)) == s[..i] + s[i + 1..]
  {
    if s[0] == k {
      FilterAll(s[1..], Other(k));
    } else {
      RemoveOne(s[1..], k);
      var i := FirstMatch(s[1..], Is(k));
      assert s[..i + 1] == [s[0]] + s[1..][..i];
      assert s[i + 2..] == s[1..][i + 1..];
    }
  }

  /** Inserting a fresh key: it maps to the new value, it comes last, and nothing else changes. */
  lemma SetFresh<V>(t: Table<V>, k: Id, v: V)
    requires t.Valid() && k !in t.entries
    ensures t.Set(k, v).Get(k) == Some(v)
    ensures t.Set(k, v).Size() == t.Size() + 1
    ensures t.Set(k, v).Values() == t.Values() + [v]
    ensures forall k' :: k' != k ==> t.Set(k, v).Get(k') == t.Get(k')
  {
    var u := t.Set(k, v);
    assert u.order == t.order + [k];
    assert u.Values() == t.Values() + [v];
  }

  /** Deleting a key: afterwards it is absent and every other key keeps its value. */
  lemma DeleteGet<V>(t: Table<V>, k: Id)
    requires t.Valid()
    ensures t.Delete(k).Get(k) == None
    ensures forall k' :: k' != k ==> t.Delete(k).Get(k') == t.Get(k')
  {
  }

  /** Deleting an absent key changes nothing. */
  lemma DeleteAbsent<V>(t: Table<V>, k: Id)
    requires t.Valid() && k !in t.entries
    ensures t.Delete(k) == t
  {
    assert forall i :: 0 <= i < |t.order| ==> Other(k)(t.order[i]);
    FilterAll(t.order, Other(k));
    assert t.entries - {k} == t.entries;
  }

  /**
   * Deleting a present key removes exactly its value from the values and keeps
   * the others in their order.
   */
  lemma DeletePresent<V>(t: Table<V>, k: Id)
    requires t.Valid() && k in t.entries
    ensures var i := FirstMatch(t.order, Is(k));
      && i < t.Size() && t.order[i] == k
      && t.Delete(k).Size() == t.Size() - 1
      && t.Delete(k).Values() == t.Values()[..i] + t.Values()[i + 1..]
  {
    RemoveOne(t.order, k);
    var i := FirstMatch(t.order, Is(k));
    var d := t.Delete(k);
    var vs, ws := t.Values(), d.Values();
    assert d.order == t.order[..i] + t.order[i + 1..];
    assert |ws| == |vs[..i] + vs[i + 1..]|;
    forall j | 0 <= j < |ws| ensures ws[j] == (vs[..i] + vs[i + 1..])[j] {
      if j < i {
        assert d.order[j] == t.order[j];
      } else {
        assert d.order[j] == t.order[j + 1];
      }
    }
  }

  /** Filtering a key out of an order that ends with it, and holds it nowhere else, drops that last position. */
  lemma {:induction false} FilterOutLast(s: seq<Id>, k: Id)
    requires k !in s
    ensures Filter(s + [k], Other(k)) == s
  {
    if s == [] {
      assert ([] + [k])[1..] == [];
    } else {
      assert (s + [k])[1..] == s[1..] + [k];
      FilterOutLast(s[1..], k);
      assert Other(k)(s[0]);
    }
  }

  /** Deleting a key just inserted fresh gives back the table as it was, order included. */
  lemma DeleteUndoesSet<V>(t: Table<V>, k: Id, v: V)
    requires t.Valid() && k !in t.entries
    ensures t.Set(k, v).Delete(k) == t
  {
    FilterOutLast(t.order, k);
    assert t.Set(k, v).entries - {k} == t.entries;
  }

  /** A second `delete` of the same key finds nothing to remove. */
  lemma DeleteTwice<V>(t: Table<V>, k: Id)
    requires t.Valid()
    ensures k !in t.Delete(k).entries
    ensures t.Delete(k).Delete(k) == t.Delete(k)
  {
    DeleteAbsent(t.Delete(k), k);
  }
}
