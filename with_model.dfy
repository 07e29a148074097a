/** The registered-model query object of with_model.go. A `WithModel`
    wraps a `WithOutModel` (the table, connection and sticky error) with
    the `ModelInfo` registered for a struct type: `Insert` turns a
    struct's fields into columns, `Select` turns rows back into fields
    and, for a list, resolves the linked fields in batches. Reflection
    over the caller's struct is not part of this model: a struct is the
    map of its field values (what `util.ObjToMap(m, "")` returns), and
    what is written back into it is returned. */
module MappedQuery {
  import opened Values
  import opened GoStrings
  import opened Maps
  import opened SqlBuilder
  import opened TableQuery
  import opened Registry
  import opened Transforms
  import opened Association

  /* ---------- GetAutoSetField ---------- */

  /** An auto annotation fires for `action` when the action is one of its
      `|`-separated actions and its kind is `time` (with_model.go:211-212). */
  predicate Fires(auto: AutoSpec, action: string)
  {
    action in Split(auto.when, '|') && auto.typ == "time"
  }

  /** `when` = "a|b" fires for exactly the two actions. */
  lemma FiresForBoth(a: string, b: string, action: string)
    requires '|' !in a && '|' !in b
    ensures Fires(AutoSpec(a + "|" + b, "time"), action) <==> action == a || action == b
  {
    SplitNone(b, '|');
    SplitAfter(a, '|', b);
    assert Split(a + "|" + b, '|') == [a, b];
  }

  /** The time stored for an auto field: the Unix seconds when the field's
      type spelling contains "int", else the formatted text
      (with_model.go:214-218). */
  function AutoTime(typ: GoType, clock: Clock): Value
  {
    if Contains(typ.text, "int") then Int(clock.unix) else Str(clock.text)
  }

  /** A firing field has a recorded type (with_model.go:214 calls
      `String()` on it). */
  predicate AutoReady(info: ModelInfo, action: string)
  {
    forall f :: f in info.autoFields && Fires(info.autoFields[f], action) ==> f in info.fieldTyp
  }

  /** What GetAutoSetField returns: nil without auto annotations, else the
      firing fields with their times. */
  function AutoSetOf(info: ModelInfo, action: string, clock: Clock): Option<map<string, Value>>
    requires AutoReady(info, action)
  {
    if |info.autoFields| == 0 then None
    else Some(map f | f in info.autoFields && Fires(info.autoFields[f], action) :: AutoTime(info.fieldTyp[f], clock))
  }

  /** The loop of GetAutoSetField (with_model.go:207-223). */
  method CollectAuto(info: ModelInfo, action: string, clock: Clock) returns (needSet: Option<map<string, Value>>)
    requires AutoReady(info, action)
    ensures needSet == AutoSetOf(info, action, clock)
  {
    var autoFields := info.autoFields;
    needSet := None;
    if |autoFields| != 0 {
      ghost var want := AutoSetOf(info, action, clock).value;
      var m: map<string, Value> := map[];
      var keys := Enumerate(autoFields.Keys);
      var i := 0;
      while i < |keys|
        invariant 0 <= i <= |keys|
        invariant forall f :: f in m <==> f in keys[..i] && f in want
        invariant forall f :: f in m ==> m[f] == want[f]
      {
        var field := keys[i];
        var auto := autoFields[field];
        if action in Split(auto.when, '|') {
          if auto.typ == "time" {
            if Contains(info.fieldTyp[field].text, "int") {
              m := m[field := Int(clock.unix)];
            } else {
              m := m[field := Str(clock.text)];
            }
          }
        }
        TakeOneMore(keys, i);
        i := i + 1;
      }
      TakeAll(keys);
      assert m == want;
      needSet := Some(m);
    }
  }

  /** A field is auto-set exactly when it fires, with the seconds for an
      int-typed field and the text otherwise. */
  lemma AutoSetFields(info: ModelInfo, action: string, clock: Clock, f: string)
    requires AutoReady(info, action) && |info.autoFields| > 0
    ensures f in AutoSetOf(info, action, clock).value <==> f in info.autoFields && Fires(info.autoFields[f], action)
    ensures f in AutoSetOf(info, action, clock).value && Contains(info.fieldTyp[f].text, "int") ==>
              AutoSetOf(info, action, clock).value[f] == Int(clock.unix)
    ensures f in AutoSetOf(info, action, clock).value && !Contains(info.fieldTyp[f].text, "int") ==>
              AutoSetOf(info, action, clock).value[f] == Str(clock.text)
  {
  }

  /* ---------- Insert ---------- */

  /** The struct's non-empty values (with_model.go:93-101). */
  function NonEmpty(obj: Row): Row
  {
    map k | k in obj && !IsEmptyValue(obj[k]) :: obj[k]
  }

  /** A non-empty auto set overrides the values (with_model.go:107-110). */
  function WithAuto(data: Row, auto: Option<map<string, Value>>): Row
  {
    if auto.Some? && |auto.value| != 0 then data + auto.value else data
  }

  /** The struct after `util.MapToObj(prtModel, autoSet, "")`: its fields
      named in a non-empty auto set take the auto values. */
  function WriteBack(obj: Row, auto: Option<map<string, Value>>): Row
  {
    if auto.Some? && |auto.value| != 0 then map k | k in obj :: if k in auto.value then auto.value[k] else obj[k]
    else obj
  }

  predicate InsertReady(obj: Row, info: ModelInfo, clock: Clock)
  {
    AutoReady(info, "insert") && SaveReady(WithAuto(NonEmpty(obj), AutoSetOf(info, "insert", clock)), info)
  }

  /** The field data Insert renames: non-empty values, auto values on top,
      then transformed (with_model.go:93-116). */
  function InsertFields(obj: Row, info: ModelInfo, clock: Clock, codec: Codec): Row
    requires InsertReady(obj, info, clock)
  {
    Saved(WithAuto(NonEmpty(obj), AutoSetOf(info, "insert", clock)), info, codec)
  }

  /** An empty value never reaches the database unless the field is
      auto-set; an auto value wins over the struct's; and a field without a
      transform is saved as it stands. */
  lemma InsertFieldsContents(obj: Row, info: ModelInfo, clock: Clock, codec: Codec, f: string)
    requires InsertReady(obj, info, clock)
    ensures var auto := AutoSetOf(info, "insert", clock);
            var autoed := auto.Some? && f in auto.value;
            && (f in InsertFields(obj, info, clock, codec) <==> (f in obj && !IsEmptyValue(obj[f])) || autoed)
            && (autoed && f !in info.trans ==> InsertFields(obj, info, clock, codec)[f] == auto.value[f])
            && (!autoed && f in obj && !IsEmptyValue(obj[f]) && f !in info.trans ==>
                  InsertFields(obj, info, clock, codec)[f] == obj[f])
  {
    var auto := AutoSetOf(info, "insert", clock);
    if auto.Some? && f in auto.value {
      assert |auto.value| != 0;
    }
  }

  /** The non-empty filter loop (with_model.go:96-101). */
  method DropEmpty(mapper: Row) returns (fieldData: Row)
    ensures fieldData == NonEmpty(mapper)
  {
    fieldData := map[];
    var keys := Enumerate(mapper.Keys);
    var i := 0;
    while i < |keys|
      invariant 0 <= i <= |keys|
      invariant forall k :: k in fieldData <==> k in keys[..i] && k in mapper && !IsEmptyValue(mapper[k])
      invariant forall k :: k in fieldData ==> fieldData[k] == mapper[k]
    {
      var k := keys[i];
      if !IsEmptyValue(mapper[k]) {
        fieldData := fieldData[k := mapper[k]];
      }
      TakeOneMore(keys, i);
      i := i + 1;
    }
    TakeAll(keys);
  }

  /** The override loop (with_model.go:107-110). */
  method Overlay(fieldData: Row, autoSet: Option<map<string, Value>>) returns (r: Row)
    ensures r == WithAuto(fieldData, autoSet)
  {
    r := fieldData;
    if autoSet.Some? && |autoSet.value| != 0 {
      r := Override(fieldData, autoSet.value);
    }
  }

  /** Each auto value replaces or adds its field. */
  method Override(fieldData: Row, auto: map<string, Value>) returns (r: Row)
    ensures r == fieldData + auto
  {
    r := fieldData;
    var keys := Enumerate(auto.Keys);
    var i := 0;
    while i < |keys|
      invariant 0 <= i <= |keys|
      invariant forall k :: k in r <==> k in fieldData || k in keys[..i]
      invariant forall k :: k in r ==> r[k] == if k in keys[..i] then auto[k] else fieldData[k]
    {
      var k := keys[i];
      r := r[k := auto[k]];
      TakeOneMore(keys, i);
      i := i + 1;
    }
    TakeAll(keys);
  }

  /** The save data of Insert: the field data renamed to columns through
      `FieldMap`, fields without a column dropped (with_model.go:93-125). */
  method PrepareInsert(obj: Row, info: ModelInfo, clock: Clock, codec: Codec)
    returns (dbData: Row, autoSet: Option<map<string, Value>>)
    requires InsertReady(obj, info, clock)
    ensures autoSet == AutoSetOf(info, "insert", clock)
    ensures IsRenaming(dbData, InsertFields(obj, info, clock, codec), info.fieldMap, map[])
  {
    var fieldData := DropEmpty(obj);
    autoSet := CollectAuto(info, "insert", clock);
    fieldData := Overlay(fieldData, autoSet);
    fieldData := TranSaveData(fieldData, info, codec);
    dbData := Rename(fieldData, info.fieldMap, map[]);
  }

  /* ---------- Select ---------- */

  /** `rev` reverses `m`: its keys are `m`'s values, each mapped back to a
      key holding it. `util.ReverseMap` is not part of this model. */
  ghost predicate IsReverse(rev: map<string, string>, m: map<string, string>)
  {
    && (forall c :: c in rev <==> exists f :: f in m && m[f] == c)
    && (forall c :: c in rev ==> rev[c] in m && m[rev[c]] == c)
  }

  /** `util.ReverseMap`, read as a pass over `m` in map order. */
  method ReverseMap(m: map<string, string>) returns (rev: map<string, string>)
    ensures IsReverse(rev, m)
  {
    rev := map[];
    var keys := Enumerate(m.Keys);
    var i := 0;
    while i < |keys|
      invariant 0 <= i <= |keys|
      invariant forall c :: c in rev <==> exists j :: 0 <= j < i && m[keys[j]] == c
      invariant forall c :: c in rev ==> rev[c] in m && m[rev[c]] == c
    {
      var f := keys[i];
      rev := rev[m[f] := f];
      i := i + 1;
    }
    forall c | exists f :: f in m && m[f] == c
      ensures c in rev
    {
      var f :| f in m && m[f] == c;
      var j :| 0 <= j < |keys| && keys[j] == f;
    }
  }

  /** A reverse map never sends two columns to one field. */
  lemma ReverseInjective(rev: map<string, string>, m: map<string, string>, row: Row)
    requires IsReverse(rev, m)
    ensures InjectiveOn(rev, row)
  {
  }

  /** Every `time` and `json` transform field has a recorded type. */
  predicate TransTyped(info: ModelInfo)
  {
    forall f :: f in info.trans && (info.trans[f].typ == "time" || info.trans[f].typ == "json") ==> f in info.fieldTyp
  }

  lemma TransTypedReady(data: Row, info: ModelInfo, codec: Codec)
    requires TransTyped(info)
    ensures LoadReady(data, info, codec)
  {
  }

  /** `item` is the row's columns renamed to fields through `rev`, then
      transformed (with_model.go:152-161, :171-180). */
  ghost predicate RowLoaded(item: Row, row: Row, rev: map<string, string>, info: ModelInfo, codec: Codec)
    requires TransTyped(info)
  {
    exists r :: IsRenaming(r, row, rev, map[]) && LoadReady(r, info, codec) && item == Loaded(r, info, codec)
  }

  /** The column loop and the transform of one row. */
  method LoadRow(row: Row, rev: map<string, string>, info: ModelInfo, codec: Codec) returns (item: Row)
    requires TransTyped(info)
    ensures RowLoaded(item, row, rev, info, codec)
  {
    var structItem := Rename(row, rev, map[]);
    TransTypedReady(structItem, info, codec);
    item := TranStructData(structItem, info, codec);
  }

  /** A loaded field is a mapped field whose column was in the row: result
      columns without a field are dropped. */
  lemma LoadedFieldsMapped(item: Row, row: Row, rev: map<string, string>, info: ModelInfo, codec: Codec, f: string)
    requires TransTyped(info) && IsReverse(rev, info.fieldMap)
    requires RowLoaded(item, row, rev, info, codec)
    requires f in item
    ensures f in info.fieldMap && info.fieldMap[f] in row
  {
    var r :| IsRenaming(r, row, rev, map[]) && LoadReady(r, info, codec) && item == Loaded(r, info, codec);
    LoadedKeeps(r, info, codec, f);
    assert f in RenamedKeys(row, rev);
    var c :| c in row && c in rev && rev[c] == f;
  }

  /** A mapped field whose column is in the row and that has no transform
      is loaded with the column's value. */
  lemma LoadedColumnValue(item: Row, row: Row, rev: map<string, string>, info: ModelInfo, codec: Codec, f: string)
    requires TransTyped(info) && IsReverse(rev, info.fieldMap)
    requires RowLoaded(item, row, rev, info, codec)
    requires f in info.fieldMap && info.fieldMap[f] in row && f !in info.trans
    requires info.fieldMap[f] in rev && rev[info.fieldMap[f]] == f
    ensures f in item && item[f] == row[info.fieldMap[f]]
  {
    var r :| IsRenaming(r, row, rev, map[]) && LoadReady(r, info, codec) && item == Loaded(r, info, codec);
    ReverseInjective(rev, info.fieldMap, row);
    var c := info.fieldMap[f];
    assert r[rev[c]] == row[c];
    LoadedKeeps(r, info, codec, f);
  }

  /** The groups after preLink ran over `items`, the i-th row's link fields
      in the order `orders[i]`. */
  ghost function PreLinkItems(pre: Groups, items: seq<Row>, orders: seq<seq<string>>, link: map<string, LinkData>,
                        info: ModelInfo, models: Models): Groups
    requires |orders| == |items|
    requires forall i :: 0 <= i < |orders| ==> IsEnumeration(orders[i], link.Keys)
  {
    if |items| == 0 then pre
    else
      var n := |items| - 1;
      assert IsEnumeration(orders[n], link.Keys);
      assert forall j :: 0 <= j < |orders[n]| ==> orders[n][j] in orders[n] && orders[n][j] in link.Keys;
      PreLinkAll(PreLinkItems(pre, items[..n], orders[..n], link, info, models), orders[n], link, items[n], info, models)
  }

  /** One more row, its link fields in the order `order`. */
  lemma PreLinkItemsSnoc(pre: Groups, items: seq<Row>, orders: seq<seq<string>>, item: Row, order: seq<string>,
                         link: map<string, LinkData>, info: ModelInfo, models: Models)
    requires |orders| == |items|
    requires forall i :: 0 <= i < |orders| ==> IsEnumeration(orders[i], link.Keys)
    requires IsEnumeration(order, link.Keys)
    ensures forall i :: 0 <= i < |orders + [order]| ==> IsEnumeration((orders + [order])[i], link.Keys)
    ensures PreLinkItems(pre, items + [item], orders + [order], link, info, models) ==
            PreLinkAll(PreLinkItems(pre, items, orders, link, info, models), order, link, item, info, models)
  {
    assert (items + [item])[..|items|] == items;
    assert (orders + [order])[..|orders|] == orders;
  }

  class WithModel {
    const base: WithOutModel
    const models: Models
    var info: ModelInfo
    var link: map<string, LinkData>
    var preLinkData: Groups

    /** newWithModel (with_model.go:23-39): the registry entry of the
        type's key, or the sticky "forget register?" error and the zero
        entry; the table and connection come from the entry. */
    constructor (models: Models, typeName: string)
      ensures fresh(base)
      ensures TypeKey(typeName) in models ==> base.err.None? && info == models[TypeKey(typeName)]
      ensures TypeKey(typeName) !in models ==> base.err == Some(NotRegistered(TypeKey(typeName))) && info == ZeroInfo
      ensures base.table == info.table && base.connect == info.connectName
      ensures base.fields.None? && base.where.None? && base.order.None? && base.limit == Limit(0, 0)
      ensures this.models == models && link == map[] && preLinkData == map[]
    {
      var w := new WithOutModel();
      var typ := TypeKey(typeName);
      var mInfo := ZeroInfo;
      if typ !in models {
        w.err := Some(NotRegistered(typ));
      } else {
        mInfo := models[typ];
      }
      w.table := mInfo.table;
      w.connect := mInfo.connectName;
      base := w;
      this.models := models;
      info := mInfo;
      link := map[];
      preLinkData := map[];
    }

    /** Table (with_model.go:62-65). */
    method Table(table: string)
      modifies base
      ensures base.table == table
      ensures base.err == old(base.err) && base.connect == old(base.connect) && base.fields == old(base.fields)
      ensures base.where == old(base.where) && base.order == old(base.order) && base.limit == old(base.limit)
    {
      base.Table(table);
    }

    /** Connect (with_model.go:67-70). */
    method Connect(connect: string)
      modifies base
      ensures base.connect == connect
      ensures base.err == old(base.err) && base.table == old(base.table) && base.fields == old(base.fields)
      ensures base.where == old(base.where) && base.order == old(base.order) && base.limit == old(base.limit)
    {
      base.Connect(connect);
    }

    /** Link (with_model.go:197-203): records the link of one field; a
        second call for the field replaces the first. */
    method Link(field: string, extCondition: string, columns: Option<seq<string>>)
      modifies this
      ensures link == old(link)[field := LinkData(extCondition, columns)]
      ensures info == old(info) && preLinkData == old(preLinkData)
    {
      link := link[field := LinkData(extCondition, columns)];
    }

    /** GetAutoSetField (with_model.go:206-224): its error is always nil. */
    method GetAutoSetField(action: string, clock: Clock) returns (needSet: Option<map<string, Value>>, e: Option<Error>)
      requires AutoReady(info, action)
      ensures needSet == AutoSetOf(info, action, clock) && e.None?
    {
      needSet := CollectAuto(info, action, clock);
      e := None;
    }

    /** What the wrapped Insert did with `saveData`, its error being nil. */
    ghost predicate Inserted(saveData: Row, e: Option<Error>, sent: Option<Statement>, reply: DriverReply<ExecReply>)
      reads base
    {
      var data := TableQuery.InsertData(saveData, base.fields);
      && (|data| == 0 ==> e == Some(NoSaveData) && sent.None?)
      && (|data| > 0 ==> sent.Some? && InsertOf(sent.value, base.table, data) && e == ReplyError(reply))
    }

    /** Insert (with_model.go:87-134): the sticky error first; otherwise
        the struct's fields become the save data of the wrapped Insert, and
        the auto-set values are written back into the struct. The insert
        id is dropped. */
    method Insert(obj: Row, clock: Clock, codec: Codec, reply: DriverReply<ExecReply>)
      returns (e: Option<Error>, written: Row, sent: Option<Statement>)
      requires base.err.None? ==> InsertReady(obj, info, clock)
      ensures base.err.Some? ==> e == base.err && written == obj && sent.None?
      ensures base.err.None? ==> written == WriteBack(obj, AutoSetOf(info, "insert", clock))
      ensures base.err.None? ==> exists dbData :: IsRenaming(dbData, InsertFields(obj, info, clock, codec), info.fieldMap, map[]) &&
                                                   Inserted(dbData, e, sent, reply)
    {
      if base.err.Some? {
        return base.err, obj, None;
      }
      var dbData, autoSet := PrepareInsert(obj, info, clock, codec);
      written := WriteBack(obj, autoSet);
      var _, err, st := base.Insert(dbData, reply);
      e, sent := err, st;
      assert Inserted(dbData, e, sent, reply);
    }

    /** preLink (with_model.go:244-319) for one loaded row. */
    method PreLink(item: Row) returns (ghost fields: seq<string>)
      modifies this
      ensures IsEnumeration(fields, link.Keys)
      ensures preLinkData == PreLinkAll(old(preLinkData), fields, link, item, info, models)
      ensures info == old(info) && link == old(link)
    {
      var groups;
      groups, fields := PreLinkRow(preLinkData, link, item, info, models);
      preLinkData := groups;
    }

    /** doLinkMulti (with_model.go:321-418), attaching on a clean
        conversion; it reads the object and changes nothing. */
    method DoLinkMulti(data: seq<Row>, db: Database, binder: Binder)
      returns (out: seq<Row>, issued: seq<Query>, ghost groups: seq<InOneSql>, ghost index: Index)
      requires |data| > 0 ==> forall f :: f in link ==> f in info.fieldTyp
      ensures IsEnumeration(groups, preLinkData.Keys)
      ensures |issued| == |groups|
      ensures forall i :: 0 <= i < |issued| ==> issued[i] == Query(groups[i], Dedup(preLinkData[groups[i]].args))
      ensures index == Grouped(map[], groups, preLinkData, db)
      ensures |out| == |data|
      ensures forall i :: 0 <= i < |data| ==> AttachedRow(out[i], data[i], link, info, models, index, binder)
    {
      out, issued, groups, index := Association.DoLinkMulti(data, preLinkData, link, info, models, db, binder);
    }

    /** The row loop of a list Select (with_model.go:151-164). */
    method LoadList(rows: seq<Row>, rev: map<string, string>, codec: Codec)
      returns (loaded: seq<Row>, ghost orders: seq<seq<string>>)
      requires TransTyped(info)
      modifies this
      ensures info == old(info) && link == old(link)
      ensures |loaded| == |rows| && |orders| == |rows|
      ensures forall i :: 0 <= i < |rows| ==> RowLoaded(loaded[i], rows[i], rev, info, codec)
      ensures forall i :: 0 <= i < |orders| ==> IsEnumeration(orders[i], link.Keys)
      ensures preLinkData == PreLinkItems(old(preLinkData), loaded, orders, link, info, models)
    {
      loaded, orders := [], [];
      var i := 0;
      while i < |rows|
        invariant 0 <= i <= |rows|
        invariant info == old(info) && link == old(link)
        invariant |loaded| == i && |orders| == i
        invariant forall j :: 0 <= j < i ==> RowLoaded(loaded[j], rows[j], rev, info, codec)
        invariant forall j :: 0 <= j < i ==> IsEnumeration(orders[j], link.Keys)
        invariant preLinkData == PreLinkItems(old(preLinkData), loaded, orders, link, info, models)
      {
        var item := LoadRow(rows[i], rev, info, codec);
        var fields := PreLink(item);
        PreLinkItemsSnoc(old(preLinkData), loaded, orders, item, fields, link, info, models);
        loaded, orders := loaded + [item], orders + [fields];
        i := i + 1;
      }
    }

    /** The list branch of Select (with_model.go:150-169): every row is
        renamed and transformed and adds its links to the batch, then the
        batch is queried and attached. */
    method SelectList(rows: seq<Row>, rev: map<string, string>, codec: Codec, db: Database, binder: Binder)
      returns (items: seq<Row>, ghost loaded: seq<Row>, ghost orders: seq<seq<string>>,
               ghost groups: seq<InOneSql>, ghost index: Index)
      requires TransTyped(info)
      requires |rows| > 0 ==> forall f :: f in link ==> f in info.fieldTyp
      modifies this
      ensures info == old(info) && link == old(link)
      ensures |loaded| == |rows| && |orders| == |rows|
      ensures forall i :: 0 <= i < |rows| ==> RowLoaded(loaded[i], rows[i], rev, info, codec)
      ensures forall i :: 0 <= i < |orders| ==> IsEnumeration(orders[i], link.Keys)
      ensures preLinkData == PreLinkItems(old(preLinkData), loaded, orders, link, info, models)
      ensures IsEnumeration(groups, preLinkData.Keys)
      ensures index == Grouped(map[], groups, preLinkData, db)
      ensures |items| == |rows|
      ensures forall i :: 0 <= i < |rows| ==> AttachedRow(items[i], loaded[i], link, info, models, index, binder)
    {
      var structData;
      structData, orders := LoadList(rows, rev, codec);
      loaded := structData;
      var issued;
      items, issued, groups, index := DoLinkMulti(structData, db, binder);
    }

    /** Select (with_model.go:136-189). The sticky error first; then the
        wrapped Select. `has` is whether it returned rows. Without rows
        nothing else happens; with rows, a target whose type spelling
        contains `[` receives every row, linked, and any other target the
        first row. `doLink` starts by clearing the batch; its own lookups
        are not part of this model. The rows written into the target are
        returned. */
    method Select(target: string, reply: DriverReply<seq<Row>>, codec: Codec, db: Database, binder: Binder)
      returns (has: bool, e: Option<Error>, sent: Option<Statement>, items: seq<Row>,
               rev: map<string, string>, ghost loaded: seq<Row>, ghost orders: seq<seq<string>>,
               ghost groups: seq<InOneSql>, ghost index: Index)
      requires base.err.None? ==> base.where.Some? ==> |base.where.value| > 0
      requires base.err.None? ==> base.order.Some? ==> |base.order.value| > 0
      requires TransTyped(info)
      requires base.err.None? && Contains(target, "[") && reply.Replied? && |reply.value| > 0 ==>
                 forall f :: f in link ==> f in info.fieldTyp
      modifies this
      ensures info == old(info) && link == old(link)
      ensures base.err.Some? ==> e == base.err && !has && sent.None? && items == [] && preLinkData == old(preLinkData)
      ensures base.err.None? ==>
                sent.Some? && SelectOf(sent.value, base.fields, base.table, base.where, base.order, base.limit) &&
                e == ReplyError(reply) && has == (reply.Replied? && |reply.value| > 0)
      ensures (e.Some? || !has) ==> items == [] && preLinkData == old(preLinkData)
      ensures e.None? && has ==> IsReverse(rev, info.fieldMap)
      ensures e.None? && has && !Contains(target, "[") ==>
                |items| == 1 && RowLoaded(items[0], reply.value[0], rev, info, codec) && preLinkData == map[]
      ensures e.None? && has && Contains(target, "[") ==>
                && |loaded| == |reply.value|
                && (forall i :: 0 <= i < |loaded| ==> RowLoaded(loaded[i], reply.value[i], rev, info, codec))
                && |orders| == |loaded|
                && (forall i :: 0 <= i < |orders| ==> IsEnumeration(orders[i], link.Keys))
                && preLinkData == PreLinkItems(old(preLinkData), loaded, orders, link, info, models)
                && IsEnumeration(groups, preLinkData.Keys)
                && index == Grouped(map[], groups, preLinkData, db)
                && |items| == |loaded|
                && (forall i :: 0 <= i < |items| ==> AttachedRow(items[i], loaded[i], link, info, models, index, binder))
    {
      has, items, sent := false, [], None;
      rev, loaded, orders, groups, index := map[], [], [], [], map[];
      if base.err.Some? {
        e := base.err;
        return;
      }
      var result;
      result, e, sent := base.Select(reply);
      has := |result| != 0;
      if e.Some? || !has {
        return;
      }
      rev := ReverseMap(info.fieldMap);
      if Contains(target, "[") {
        items, loaded, orders, groups, index := SelectList(result, rev, codec, db, binder);
      } else {
        var structItem := LoadRow(result[0], rev, info, codec);
        preLinkData := map[];
        items := [structItem];
      }
    }
  }
}
