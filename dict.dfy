/** A JavaScript object used as a dictionary (`this.clusteringData[row.alamat] = …`):
    the keys in the order `Object.keys` lists them and the value stored under
    each. Assigning to a key already present replaces its value and keeps its
    place; assigning to a new key appends it. */
module Dict {
  import opened Wrappers

  datatype Dict<V> = Dict(keys: seq<string>, entries: map<string, V>) {

    /** The keys are listed once each, and exactly the keys that hold a value. */
    ghost predicate Valid() {
      && (forall i, j :: 0 <= i < j < |keys| ==> keys[i] != keys[j])
      && (forall k :: k in entries <==> k in keys)
    }

    /** `Object.keys(d).length`. */
    function Size(): nat {
      |keys|
    }

    /** `d[k]`, with `None` for `undefined`. */
    function Get(k: string): (r: Option<V>)
      ensures r.Some? <==> k in entries
      ensures r.Some? ==> r.value == entries[k]
    {
      if k in entries then Some(entries[k]) else None
    }

    /** `d[k] = v`. */
    function Put(k: string, v: V): (r: Dict<V>)
      ensures Valid() ==> r.Valid()
      ensures r.entries == entries[k := v]
      ensures |keys| <= |r.keys| && r.keys[..|keys|] == keys
      ensures k in entries ==> r.keys == keys
    {
      if k in entries then Dict(keys, entries[k := v]) else Dict(keys + [k], entries[k := v])
    }
  }

  /** `{}`. */
  function Empty<V>(): (d: Dict<V>)
    ensures d.Valid() && d.Size() == 0 && d.entries == map[]
  {
    Dict([], map[])
  }

  /** The size of a valid dictionary is the number of keys holding a value. */
  lemma {:induction false} SizeIsCount<V>(d: Dict<V>)
    requires d.Valid()
    ensures d.Size() == |d.entries|
    decreases |d.keys|
  {
    if d.keys != [] {
      var k := d.keys[|d.keys| - 1];
      var rest := Dict(d.keys[..|d.keys| - 1], d.entries - {k});
      assert rest.Valid();
      SizeIsCount(rest);
      assert d.entries.Keys == rest.entries.Keys + {k};
    } else {
      assert d.entries.Keys == {};
    }
  }

  /** The map that assigning `es` in order to an empty object builds: the
      last assignment to a key wins. */
  function MapOf<V>(es: seq<(string, V)>): map<string, V> {
    if es == [] then map[]
    else MapOf(es[..|es| - 1])[es[|es| - 1].0 := es[|es| - 1].1]
  }

  /** Assigning every pair of `es`, in order, to `d`. */
  function PutAll<V>(d: Dict<V>, es: seq<(string, V)>): (r: Dict<V>)
    ensures d.Valid() ==> r.Valid()
    ensures |d.keys| <= |r.keys| && r.keys[..|d.keys|] == d.keys
  {
    if es == [] then d
    else PutAll(d, es[..|es| - 1]).Put(es[|es| - 1].0, es[|es| - 1].1)
  }

  /** After the assignments, a key holds the value of its last assignment,
      or its old value when `es` does not assign it. */
  lemma {:induction false} PutAllEntries<V>(d: Dict<V>, es: seq<(string, V)>)
    ensures PutAll(d, es).entries == d.entries + MapOf(es)
  {
    if es != [] {
      PutAllEntries(d, es[..|es| - 1]);
    }
  }

  /** The keys `MapOf(es)` holds are exactly the keys `es` assigns. */
  lemma {:induction false} MapOfKeys<V>(es: seq<(string, V)>)
    ensures forall k :: k in MapOf(es) <==> exists i :: 0 <= i < |es| && es[i].0 == k
  {
    if es != [] {
      var init := es[..|es| - 1];
      MapOfKeys(init);
      forall k | k in MapOf(es) ensures exists i :: 0 <= i < |es| && es[i].0 == k {
        if k != es[|es| - 1].0 {
          assert k in MapOf(init);
          var i :| 0 <= i < |init| && init[i].0 == k;
          assert es[i].0 == k;
        }
      }
      forall k | exists i :: 0 <= i < |es| && es[i].0 == k ensures k in MapOf(es) {
        var i :| 0 <= i < |es| && es[i].0 == k;
        if i < |init| {
          assert init[i].0 == k;
        }
      }
    }
  }

  /** Assignments that only touch keys already present leave the key order
      as it was. */
  lemma {:induction false} PutAllPresent<V>(d: Dict<V>, es: seq<(string, V)>)
    requires forall i :: 0 <= i < |es| ==> es[i].0 in d.entries
    ensures PutAll(d, es).keys == d.keys
  {
    if es != [] {
      PutAllPresent(d, es[..|es| - 1]);
      PutAllEntries(d, es[..|es| - 1]);
    }
  }

  /** Replaying the same assignments a second time changes nothing. */
  lemma PutAllIdempotent<V>(d: Dict<V>, es: seq<(string, V)>)
    ensures PutAll(PutAll(d, es), es) == PutAll(d, es)
  {
    var once := PutAll(d, es);
    PutAllEntries(d, es);
    PutAllEntries(once, es);
    MapOfKeys(es);
    forall i | 0 <= i < |es| ensures es[i].0 in once.entries {
      assert es[i].0 in MapOf(es);
    }
    PutAllPresent(once, es);
    assert once.entries + MapOf(es) == once.entries;
  }
}
