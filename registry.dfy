/** The model registry that with_model.go consults: a map from a struct's
    type name to the `ModelInfo` recorded when the struct was registered.
    The declaration of `ModelInfo` and the registration function are not
    part of this model; the record below holds the fields with_model.go
    reads (`Table`, `ConnectName`, `FieldMap`, `AutoFields`, `FieldTyp`,
    `Links`, `Trans`). */
module Registry {
  import opened GoStrings

  /** A struct field's `reflect.Type`: its `String()` spelling and whether
      its kind is a slice. */
  datatype GoType = GoType(text: string, isSlice: bool)

  /** An auto-fill annotation: the `|`-separated actions and the kind. */
  datatype AutoSpec = AutoSpec(when: string, typ: string)

  /** A link annotation: the key of this model and the key of the linked one. */
  datatype LinkTag = LinkTag(selfKey: string, linkKey: string)

  /** A transform annotation: `json` or `time`. */
  datatype TranTag = TranTag(typ: string)

  datatype ModelInfo = ModelInfo(
    table: string,
    connectName: string,
    fieldMap: map<string, string>,
    autoFields: map<string, AutoSpec>,
    fieldTyp: map<string, GoType>,
    links: map<string, LinkTag>,
    trans: map<string, TranTag>)

  /** The zero `ModelInfo` an unregistered type is left with. */
  const ZeroInfo := ModelInfo("", "", map[], map[], map[], map[], map[])

  /** The process-wide registry, keyed by normalised type name. */
  type Models = map<string, ModelInfo>

  /** The registry key of a type's spelling: every `*` and then every
      `[]` removed (with_model.go:27-29). */
  function TypeKey(typeName: string): string
  {
    RemoveBrackets(RemoveChar(typeName, '*'))
  }

  /** A pointer to a type shares the type's entry. */
  lemma PointerSameKey(t: string)
    ensures TypeKey("*" + t) == TypeKey(t)
  {
    assert ("*" + t)[1..] == t;
  }

  /** So does a slice of it. */
  lemma SliceSameKey(t: string)
    ensures TypeKey("[]" + t) == TypeKey(t)
  {
    var s := "[]" + t;
    assert s[1..][1..] == t;
    var r := RemoveChar(t, '*');
    assert RemoveChar(s, '*') == "[]" + r;
    assert ("[]" + r)[..2] == "[]" && ("[]" + r)[2..] == r;
  }

  /** And a slice of pointers to it. */
  lemma SliceOfPointerSameKey(t: string)
    ensures TypeKey("[]*" + t) == TypeKey(t)
  {
    assert "[]*" + t == "[]" + ("*" + t);
    SliceSameKey("*" + t);
    PointerSameKey(t);
  }

  lemma {:induction false} RemoveCharAbsent(s: string, c: char)
    requires c !in s
    ensures RemoveChar(s, c) == s
    decreases |s|
  {
    if |s| > 0 {
      assert c !in s[1..];
      RemoveCharAbsent(s[1..], c);
    }
  }

  lemma {:induction false} RemoveBracketsAbsent(s: string)
    requires '[' !in s
    ensures RemoveBrackets(s) == s
    decreases |s|
  {
    if |s| > 0 {
      assert s[0] != '[';
      assert '[' !in s[1..];
      RemoveBracketsAbsent(s[1..]);
    }
  }

  /** A plain named type such as `tests.Role` is its own key. */
  lemma PlainTypeKey(t: string)
    requires '*' !in t && '[' !in t
    ensures TypeKey(t) == t
  {
    RemoveCharAbsent(t, '*');
    RemoveBracketsAbsent(t);
  }

  /** The table of a linked type, as
      `newWithModel(reflect.New(typ).Interface()).GetTable()` finds it
      (with_model.go:278-282): the entry of `*T` is that of `T`, and an
      unregistered type has the zero table "". `GetTable` itself is not
      part of this model; it is read as returning the `table` field. */
  function LinkTable(models: Models, typ: GoType): (table: string)
    ensures TypeKey(typ.text) in models ==> table == models[TypeKey(typ.text)].table
    ensures TypeKey(typ.text) !in models ==> table == ""
  {
    PointerSameKey(typ.text);
    var key := TypeKey("*" + typ.text);
    if key in models then models[key].table else ""
  }
}
