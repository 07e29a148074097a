/** The struct-tag helpers of util.go: `EncodeTag` parses a Go struct tag
    of the form `key:"value" key:"value"` into a map, and `Field2TagMap` and
    `FieldType` index the decoded fields of a struct by name. Reflection
    over the struct itself (`DecodeStruct`) is not part of this model: its
    result, a map of `FieldInfo`, is the input here. */
module Tags {
  import opened GoStrings
  import opened Maps

  /* ---------- EncodeTag ---------- */

  /** The key of a tag item: the text before its first `:`. */
  function ItemKey(item: string): string
  {
    Before(item, ':')
  }

  /** The value of a tag item: the text between its first and its second
      `"`. An item without `"` has no second piece (util.go:43 panics). */
  function ItemValue(item: string): string
    requires '"' in item
  {
    Before(After(item, '"'), '"')
  }

  /** Every non-empty space-separated item carries a `"`. */
  predicate ItemsWellFormed(items: seq<string>)
  {
    forall i :: 0 <= i < |items| && items[i] != "" ==> '"' in items[i]
  }

  predicate TagWellFormed(tag: string)
  {
    ItemsWellFormed(Split(tag, ' '))
  }

  /** The map the item loop builds: empty items are skipped and a later
      item overwrites an earlier one with the same key. */
  function ItemsMap(items: seq<string>): map<string, string>
    requires ItemsWellFormed(items)
  {
    if |items| == 0 then map[] else AddItem(ItemsMap(items[..|items| - 1]), items[|items| - 1])
  }

  /** One step of the item loop. */
  function AddItem(m: map<string, string>, item: string): map<string, string>
    requires item != "" ==> '"' in item
  {
    if item == "" then m else m[ItemKey(item) := ItemValue(item)]
  }

  /** What `EncodeTag(tag)` returns. */
  function Encoded(tag: string): map<string, string>
    requires TagWellFormed(tag)
  {
    if tag == "" then map[] else ItemsMap(Split(tag, ' '))
  }

  /** EncodeTag (util.go:33-48). */
  method EncodeTag(tag: string) returns (data: map<string, string>)
    requires TagWellFormed(tag)
    ensures data == Encoded(tag)
  {
    data := map[];
    if tag == "" {
      return;
    }
    var items := Split(tag, ' ');
    var i := 0;
    while i < |items|
      invariant 0 <= i <= |items|
      invariant data == ItemsMap(items[..i])
    {
      var item := items[i];
      ghost var prev := data;
      if item != "" {
        var key := Split(item, ':')[0];
        SplitHead(item, ':');
        SplitSecond(item, '"');
        var value := Split(item, '"')[1];
        data := data[key := value];
      }
      assert data == AddItem(prev, item);
      assert ItemsMap(items[..i + 1]) == AddItem(ItemsMap(items[..i]), item) by {
        assert items[..i + 1][..i] == items[..i];
      }
      i := i + 1;
    }
    assert items[..i] == items;
  }

  /** A key is in the map exactly when some non-empty item has it. */
  lemma {:induction false} ItemsMapDomain(items: seq<string>, k: string)
    requires ItemsWellFormed(items)
    ensures k in ItemsMap(items) <==> exists i :: 0 <= i < |items| && items[i] != "" && ItemKey(items[i]) == k
    decreases |items|
  {
    if |items| > 0 {
      var init := items[..|items| - 1];
      ItemsMapDomain(init, k);
      if k in ItemsMap(init) {
        var i :| 0 <= i < |init| && init[i] != "" && ItemKey(init[i]) == k;
        assert items[i] == init[i];
      }
      if exists i :: 0 <= i < |items| && items[i] != "" && ItemKey(items[i]) == k {
        var i :| 0 <= i < |items| && items[i] != "" && ItemKey(items[i]) == k;
        if i < |items| - 1 {
          assert init[i] == items[i];
        }
      }
    }
  }

  /** The value of a key is that of the LAST non-empty item with the key. */
  lemma {:induction false} ItemsMapLastWins(items: seq<string>, j: nat)
    requires ItemsWellFormed(items)
    requires j < |items| && items[j] != ""
    requires forall i :: j < i < |items| && items[i] != "" ==> ItemKey(items[i]) != ItemKey(items[j])
    ensures ItemKey(items[j]) in ItemsMap(items)
    ensures ItemsMap(items)[ItemKey(items[j])] == ItemValue(items[j])
    decreases |items|
  {
    var init := items[..|items| - 1];
    if j < |items| - 1 {
      assert init[j] == items[j];
      ItemsMapLastWins(init, j);
    }
  }

  /** An empty tag decodes to the empty map. */
  lemma EncodedEmpty()
    ensures Encoded("") == map[]
  {
  }

  /* ---------- Field2TagMap and FieldType ---------- */

  /** `FieldInfo` (util.go:8-13). `Typ` is the field type's Go spelling. */
  datatype FieldInfo = FieldInfo(name: string, typ: string, canInterface: bool, tags: map<string, string>)

  /** The shape `DecodeStruct` (util.go:15-31) produces: every entry is
      stored under its own field name. */
  predicate NamedByKey(fieldInfo: map<string, FieldInfo>)
  {
    forall f :: f in fieldInfo ==> fieldInfo[f].name == f
  }

  /** `r` indexes, by field name, the `tag` values of the fields carrying
      `tag`; when two entries share a name, one of them is kept. */
  ghost predicate IsTagIndex(r: map<string, string>, fieldInfo: map<string, FieldInfo>, tag: string)
  {
    && (forall n :: n in r <==> exists f :: f in fieldInfo && tag in fieldInfo[f].tags && fieldInfo[f].name == n)
    && (forall n :: n in r ==> exists f :: f in fieldInfo && tag in fieldInfo[f].tags && fieldInfo[f].name == n &&
                                            r[n] == fieldInfo[f].tags[tag])
  }

  /** The inner loop of Field2TagMap (util.go:53-57) for one field: the
      keys of its tags are distinct, so at most one of them matches. */
  method TagOfField(info: FieldInfo, tag: string, result: map<string, string>) returns (r: map<string, string>)
    ensures r == if tag in info.tags then result[info.name := info.tags[tag]] else result
  {
    r := result;
    var keys := Enumerate(info.tags.Keys);
    var i := 0;
    while i < |keys|
      invariant 0 <= i <= |keys|
      invariant r == if tag in keys[..i] then result[info.name := info.tags[tag]] else result
    {
      var k := keys[i];
      if k == tag {
        r := r[info.name := info.tags[k]];
      }
      assert keys[..i + 1] == keys[..i] + [k];
      i := i + 1;
    }
    assert keys[..i] == keys;
  }

  /** Field2TagMap (util.go:50-60). */
  method Field2TagMap(fieldInfo: map<string, FieldInfo>, tag: string) returns (result: map<string, string>)
    ensures IsTagIndex(result, fieldInfo, tag)
  {
    result := map[];
    var keys := Enumerate(fieldInfo.Keys);
    var i := 0;
    while i < |keys|
      invariant 0 <= i <= |keys|
      invariant forall n :: n in result <==> exists j :: 0 <= j < i && tag in fieldInfo[keys[j]].tags && fieldInfo[keys[j]].name == n
      invariant forall n :: n in result ==> exists j :: 0 <= j < i && tag in fieldInfo[keys[j]].tags &&
                                                   fieldInfo[keys[j]].name == n && result[n] == fieldInfo[keys[j]].tags[tag]
    {
      result := TagOfField(fieldInfo[keys[i]], tag, result);
      i := i + 1;
    }
  }

  /** For what `DecodeStruct` returns the index is exact: each field
      carrying the tag, mapped to the tag's value. */
  lemma TagIndexExact(r: map<string, string>, fieldInfo: map<string, FieldInfo>, tag: string)
    requires NamedByKey(fieldInfo) && IsTagIndex(r, fieldInfo, tag)
    ensures r == map f | f in fieldInfo && tag in fieldInfo[f].tags :: fieldInfo[f].tags[tag]
  {
    forall n | n in r
      ensures n in fieldInfo && tag in fieldInfo[n].tags && r[n] == fieldInfo[n].tags[tag]
    {
      var f :| f in fieldInfo && tag in fieldInfo[f].tags && fieldInfo[f].name == n && r[n] == fieldInfo[f].tags[tag];
    }
    forall f | f in fieldInfo && tag in fieldInfo[f].tags
      ensures f in r
    {
      assert fieldInfo[f].name == f;
    }
  }

  /** `r` indexes the fields' types by name. */
  ghost predicate IsTypeIndex(r: map<string, string>, fieldInfo: map<string, FieldInfo>)
  {
    && (forall n :: n in r <==> exists f :: f in fieldInfo && fieldInfo[f].name == n)
    && (forall n :: n in r ==> exists f :: f in fieldInfo && fieldInfo[f].name == n && r[n] == fieldInfo[f].typ)
  }

  /** FieldType (util.go:62-68). */
  method FieldType(fieldInfo: map<string, FieldInfo>) returns (result: map<string, string>)
    ensures IsTypeIndex(result, fieldInfo)
  {
    result := map[];
    var keys := Enumerate(fieldInfo.Keys);
    var i := 0;
    while i < |keys|
      invariant 0 <= i <= |keys|
      invariant forall n :: n in result <==> exists j :: 0 <= j < i && fieldInfo[keys[j]].name == n
      invariant forall n :: n in result ==> exists j :: 0 <= j < i && fieldInfo[keys[j]].name == n &&
                                                   result[n] == fieldInfo[keys[j]].typ
    {
      var info := fieldInfo[keys[i]];
      result := result[info.name := info.typ];
      i := i + 1;
    }
  }

  /** For what `DecodeStruct` returns, the field names with their types. */
  lemma TypeIndexExact(r: map<string, string>, fieldInfo: map<string, FieldInfo>)
    requires NamedByKey(fieldInfo) && IsTypeIndex(r, fieldInfo)
    ensures r == map f | f in fieldInfo :: fieldInfo[f].typ
  {
    forall n | n in r
      ensures n in fieldInfo && r[n] == fieldInfo[n].typ
    {
      var f :| f in fieldInfo && fieldInfo[f].name == n && r[n] == fieldInfo[f].typ;
    }
    forall f | f in fieldInfo
      ensures f in r
    {
      assert fieldInfo[f].name == f;
    }
  }
}
