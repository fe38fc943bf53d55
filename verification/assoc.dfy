/**
 * Association lists: insertion-ordered tables from string keys to values.
 * They model Python dicts and JavaScript objects and Maps, whose lookups
 * find the entry with the key and whose iteration follows insertion order.
 */
module AssocLists {
  import opened Wrappers

  /** The value stored under `key`: the first entry with that key. */
  function Find<V>(entries: seq<(string, V)>, key: string): (r: Option<V>)
    ensures r.Some? <==> exists i :: 0 <= i < |entries| && entries[i].0 == key
    ensures r.Some? ==> exists i :: 0 <= i < |entries| && entries[i] == (key, r.value)
  {
    if |entries| == 0 then None
    else if entries[0].0 == key then Some(entries[0].1)
    else Find(entries[1..], key)
  }

  /**
   * The first key, in insertion order, whose value is `v` (the
   * `next(id for id, cls in _registry.items() if cls == ...)` scans).
   */
  function KeyOf<V(==)>(entries: seq<(string, V)>, v: V): (r: Option<string>)
    ensures r.Some? <==> exists i :: 0 <= i < |entries| && entries[i].1 == v
    ensures r.Some? ==> exists i :: 0 <= i < |entries| && entries[i] == (r.value, v)
  {
    if |entries| == 0 then None
    else if entries[0].1 == v then Some(entries[0].0)
    else KeyOf(entries[1..], v)
  }

  /** No key occurs twice. */
  predicate UniqueKeys<V>(entries: seq<(string, V)>)
  {
    forall i, j :: 0 <= i < j < |entries| ==> entries[i].0 != entries[j].0
  }

  /** No value occurs under two keys. */
  predicate UniqueValues<V(==)>(entries: seq<(string, V)>)
  {
    forall i, j :: 0 <= i < j < |entries| ==> entries[i].1 != entries[j].1
  }

  /** In a table of two entries with distinct keys, each key finds its own value. */
  lemma FindPair<V>(k0: string, v0: V, k1: string, v1: V)
    requires k0 != k1
    ensures Find([(k0, v0), (k1, v1)], k0) == Some(v0)
    ensures Find([(k0, v0), (k1, v1)], k1) == Some(v1)
  {
    assert [(k0, v0), (k1, v1)][1..] == [(k1, v1)];
  }

  /** With unique keys, a lookup finds the one entry that has the key. */
  lemma {:induction false} FindEntry<V>(entries: seq<(string, V)>, i: int)
    requires UniqueKeys(entries)
    requires 0 <= i < |entries|
    ensures Find(entries, entries[i].0) == Some(entries[i].1)
  {
    if i > 0 {
      assert entries[0].0 != entries[i].0;
      assert UniqueKeys(entries[1..]) by {
        forall a, b | 0 <= a < b < |entries| - 1
          ensures entries[1..][a].0 != entries[1..][b].0
        {
          assert entries[1..][a] == entries[a + 1] && entries[1..][b] == entries[b + 1];
        }
      }
      FindEntry(entries[1..], i - 1);
      assert entries[1..][i - 1] == entries[i];
    }
  }

  /** With unique values, the reverse scan finds the one entry that has the value. */
  lemma {:induction false} KeyOfEntry<V>(entries: seq<(string, V)>, i: int)
    requires UniqueValues(entries)
    requires 0 <= i < |entries|
    ensures KeyOf(entries, entries[i].1) == Some(entries[i].0)
  {
    if i > 0 {
      assert entries[0].1 != entries[i].1;
      assert UniqueValues(entries[1..]) by {
        forall a, b | 0 <= a < b < |entries| - 1
          ensures entries[1..][a].1 != entries[1..][b].1
        {
          assert entries[1..][a] == entries[a + 1] && entries[1..][b] == entries[b + 1];
        }
      }
      KeyOfEntry(entries[1..], i - 1);
      assert entries[1..][i - 1] == entries[i];
    }
  }

  /**
   * The reverse scan inverts the lookup: the key found for a value looks that
   * value up again, and with unique values a looked-up value scans back to
   * its key.
   */
  lemma KeyOfInvertsFind<V>(entries: seq<(string, V)>, key: string, v: V)
    requires UniqueKeys(entries)
    ensures KeyOf(entries, v) == Some(key) ==> Find(entries, key) == Some(v)
    ensures UniqueValues(entries) && Find(entries, key) == Some(v) ==> KeyOf(entries, v) == Some(key)
  {
    if KeyOf(entries, v) == Some(key) {
      var i :| 0 <= i < |entries| && entries[i] == (key, v);
      FindEntry(entries, i);
    }
    if UniqueValues(entries) && Find(entries, key) == Some(v) {
      var i :| 0 <= i < |entries| && entries[i] == (key, v);
      KeyOfEntry(entries, i);
    }
  }

  /**
   * Appending an entry under a new key leaves every earlier lookup as it was
   * and makes the new key find its value.
   */
  lemma {:induction false} FindAfterAppend<V>(entries: seq<(string, V)>, key: string, v: V, probe: string)
    requires Find(entries, key).None?
    ensures Find(entries + [(key, v)], probe) ==
      if probe == key then Some(v) else Find(entries, probe)
  {
    if |entries| == 0 {
    } else {
      assert (entries + [(key, v)])[0] == entries[0];
      assert (entries + [(key, v)])[1..] == entries[1..] + [(key, v)];
      if entries[0].0 != probe {
        FindAfterAppend(entries[1..], key, v, probe);
      }
    }
  }
  /**
   * JavaScript's `m.set(key, v)`: the value is replaced where the key
   * already is, keeping the entry's place; a new key is appended.
   */
  function Put<V>(entries: seq<(string, V)>, key: string, v: V): (r: seq<(string, V)>)
    ensures Find(entries, key).None? ==> r == entries + [(key, v)]
    ensures Find(entries, key).Some? ==> |r| == |entries|
    ensures forall i :: 0 <= i < |entries| ==> r[i].0 == entries[i].0
  {
    if |entries| == 0 then [(key, v)]
    else if entries[0].0 == key then [(key, v)] + entries[1..]
    else [entries[0]] + Put(entries[1..], key, v)
  }

  /** After `set`, the key finds the new value and every other key what it found before. */
  lemma {:induction false} FindAfterPut<V>(entries: seq<(string, V)>, key: string, v: V, probe: string)
    ensures Find(Put(entries, key, v), probe) == if probe == key then Some(v) else Find(entries, probe)
  {
    if |entries| > 0 && entries[0].0 != key {
      FindAfterPut(entries[1..], key, v, probe);
      assert Put(entries, key, v)[1..] == Put(entries[1..], key, v);
    }
  }
}
