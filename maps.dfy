/** Go map iteration. A range loop over a map visits its keys in an
    unspecified order; the model makes that order an explicit enumeration of
    the key set, either passed in by the caller (the SQL builders) or chosen
    arbitrarily by `Enumerate` (the facades). */
module Maps {

  predicate Distinct<T(==)>(s: seq<T>)
  {
    forall i, j :: 0 <= i < j < |s| ==> s[i] != s[j]
  }

  /** `keys` lists every element of `domain` exactly once: one possible
      iteration order of a map whose key set is `domain`. */
  ghost predicate IsEnumeration<K(!new)>(keys: seq<K>, domain: set<K>)
  {
    Distinct(keys) && forall k :: k in keys <==> k in domain
  }

  lemma EnumerationSize<K(!new)>(keys: seq<K>, domain: set<K>)
    requires IsEnumeration(keys, domain)
    ensures |keys| == |domain|
    decreases |keys|
  {
    if |keys| > 0 {
      var last := keys[|keys| - 1];
      var init := keys[..|keys| - 1];
      assert last !in init;
      assert forall k :: k in init <==> k in domain - {last} by {
        forall k ensures k in init <==> k in domain - {last} {
          if k in domain - {last} {
            assert k in keys && k != last;
            var j :| 0 <= j < |keys| && keys[j] == k;
            assert j < |keys| - 1 && init[j] == k;
          }
        }
      }
      EnumerationSize(init, domain - {last});
    } else {
      assert forall k :: k !in domain;
      assert domain == {};
    }
  }

  /** An arbitrary iteration order over `domain`, as the Go runtime picks one. */
  method Enumerate<K(==,!new)>(domain: set<K>) returns (keys: seq<K>)
    ensures IsEnumeration(keys, domain)
  {
    keys := [];
    var rest := domain;
    while rest != {}
      invariant rest <= domain
      invariant Distinct(keys)
      invariant forall k :: k in keys <==> k in domain && k !in rest
      decreases rest
    {
      var k :| k in rest;
      keys := keys + [k];
      rest := rest - {k};
    }
  }

  /** The keys of `src` that `names` knows, renamed. */
  function RenamedKeys<V>(src: map<string, V>, names: map<string, string>): set<string>
  {
    set k | k in src && k in names :: names[k]
  }

  /** `names` gives different names to different keys of `src`. */
  predicate InjectiveOn<V>(names: map<string, string>, src: map<string, V>)
  {
    forall k1, k2 :: k1 in src && k2 in src && k1 in names && k2 in names && k1 != k2 ==> names[k1] != names[k2]
  }

  /** `out` is `into` with every key of `src` that `names` knows stored
      under its new name. When two keys share a name only some source value
      is promised; when `names` is injective on `src`, the exact one. */
  ghost predicate IsRenaming<V>(out: map<string, V>, src: map<string, V>, names: map<string, string>,
                                into: map<string, V>)
  {
    && (forall c :: c in out <==> c in into || c in RenamedKeys(src, names))
    && (forall c :: c in out && c !in RenamedKeys(src, names) ==> out[c] == into[c])
    && (forall c :: c in RenamedKeys(src, names) ==>
          exists k :: k in src && k in names && names[k] == c && out[c] == src[k])
    && (InjectiveOn(names, src) ==> forall k :: k in src && k in names ==> out[names[k]] == src[k])
  }

  /** The renaming loop of the write paths: a pass over `src` in map order
      that stores each value known to `names` into `into` under its new
      name, so the key visited last wins when two keys share a name. */
  method Rename<V>(src: map<string, V>, names: map<string, string>, into: map<string, V>)
    returns (out: map<string, V>)
    ensures IsRenaming(out, src, names, into)
  {
    var keys := Enumerate(src.Keys);
    out := into;
    ghost var seen: set<string> := {};
    ghost var from: map<string, string> := map[];
    var i := 0;
    while i < |keys|
      invariant 0 <= i <= |keys|
      invariant seen <= src.Keys
      invariant forall j :: 0 <= j < i ==> keys[j] in seen
      invariant forall k :: k in seen && k in names ==> names[k] in from
      invariant out.Keys == into.Keys + from.Keys
      invariant forall c :: c in from ==>
                  from[c] in seen && from[c] in names && names[from[c]] == c && out[c] == src[from[c]]
      invariant forall c :: c in out && c !in from ==> out[c] == into[c]
      invariant InjectiveOn(names, src) ==>
                  forall k :: k in seen && k in names ==> from[names[k]] == k
    {
      var k := keys[i];
      if k in names {
        out := out[names[k] := src[k]];
        from := from[names[k] := k];
      }
      seen := seen + {k};
      i := i + 1;
    }
    assert seen == src.Keys;
    assert from.Keys == RenamedKeys(src, names);
    forall c | c in RenamedKeys(src, names)
      ensures exists k :: k in src && k in names && names[k] == c && out[c] == src[k]
    {
      var k := from[c];
      assert k in src && k in names && names[k] == c && out[c] == src[k];
    }
  }
}
