// The process-wide key/value cache (`new NodeCache()` in src/app.ts). Only
// the operations the handlers use are modelled; a TTL is recorded with the
// entry but expiry itself is not.
module Cache {
  import opened Types
  import opened Json

  /** The TTL argument of `set`: omitted means the entry never expires. */
  datatype Ttl = NoExpiry | Seconds(seconds: nat)

  datatype Entry = Entry(value: Doc, ttl: Ttl)

  class NodeCache {
    var entries: map<string, Entry>

    constructor ()
      ensures entries == map[]
    {
      entries := map[];
    }

    predicate Has(key: string)
      reads this
    {
      key in entries
    }

    /** `get(key)`: the stored value exactly when `has(key)` holds. */
    function Get(key: string): (r: Option<Doc>)
      reads this
      ensures r.Some? <==> Has(key)
      ensures r.Some? ==> Entry(r.value, entries[key].ttl) == entries[key]
    {
      if key in entries then Some(entries[key].value) else None
    }

    /** Inserts or overwrites one entry. */
    method Set(key: string, value: Doc, ttl: Ttl)
      modifies this
      ensures entries == old(entries)[key := Entry(value, ttl)]
    {
      entries := entries[key := Entry(value, ttl)];
    }

    /** Deletes one key; an absent key is a no-op. */
    method Del(key: string)
      modifies this
      ensures entries == old(entries) - {key}
    {
      entries := entries - {key};
    }

    /** `del(keys)` with an array: deletes each listed key, absent ones included. */
    method DelAll(keys: seq<string>)
      modifies this
      ensures entries == old(entries) - KeySet(keys)
    {
      for i := 0 to |keys|
        invariant entries == old(entries) - KeySet(keys[..i])
      {
        KeySetSnoc(keys, i);
        Del(keys[i]);
      }
      assert keys[..|keys|] == keys;
    }

    /** Every key currently stored, each once, in no particular order. */
    method Keys() returns (ks: seq<string>)
      ensures forall k :: k in ks <==> k in entries
      ensures forall i, j :: 0 <= i < j < |ks| ==> ks[i] != ks[j]
    {
      ks := [];
      var rest := entries.Keys;
      while rest != {}
        invariant rest <= entries.Keys
        invariant forall k :: k in ks <==> k in entries && k !in rest
        invariant forall i, j :: 0 <= i < j < |ks| ==> ks[i] != ks[j]
        decreases rest
      {
        var k :| k in rest;
        ks := ks + [k];
        rest := rest - {k};
      }
    }
  }

  /** The keys listed in an array. */
  function KeySet(keys: seq<string>): set<string>
  {
    set k | k in keys
  }

  lemma KeySetSnoc(keys: seq<string>, i: nat)
    requires i < |keys|
    ensures KeySet(keys[..i + 1]) == KeySet(keys[..i]) + {keys[i]}
  {
    assert keys[..i + 1] == keys[..i] + [keys[i]];
  }

  lemma KeySetAppend(keys: seq<string>, k: string)
    ensures KeySet(keys + [k]) == KeySet(keys) + {k}
  {
  }

  lemma KeySetOfTwo(a: string, b: string)
    ensures KeySet([a, b]) == {a, b}
  {
  }

  lemma KeySetOfThree(a: string, b: string, c: string)
    ensures KeySet([a, b, c]) == {a, b, c}
  {
  }

  /** Deleting no key changes nothing. */
  lemma DeleteNothing<V>(m: map<string, V>)
    ensures m - {} == m
  {
  }

  /** Five deletions in a row delete the union of the five key sets. */
  lemma DeleteInSteps<V>(m0: map<string, V>, m1: map<string, V>, m2: map<string, V>, m3: map<string, V>,
                         m4: map<string, V>, m5: map<string, V>,
                         a: set<string>, b: set<string>, c: set<string>, d: set<string>, e: set<string>)
    requires m1 == m0 - a && m2 == m1 - b && m3 == m2 - c && m4 == m3 - d && m5 == m4 - e
    ensures m5 == m0 - (a + b + c + d + e)
  {
  }

  /** Deleting two key sets one after the other deletes their union. */
  lemma DeleteTwice<V>(m: map<string, V>, a: set<string>, b: set<string>)
    ensures m - a - b == m - (a + b)
  {
  }
}
