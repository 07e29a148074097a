/** The association resolver of with_model.go. For a list query, `preLink`
    collects, for every loaded row and every linked field, the keys to look
    up, grouped by the (table, condition) pair a single `IN (?)` query can
    serve; `doLinkMulti` then issues one query per group with the keys
    deduplicated, indexes the rows it gets back by their link key, and
    attaches the matching rows to each loaded row. The database and the
    conversion of rows into struct values are given functions. */
module Association {
  import opened Values
  import opened GoStrings
  import opened Maps
  import opened Registry

  /* ---------- groups ---------- */

  /** `InOneSql` (with_model.go:234-237): the lookups one query can serve. */
  datatype InOneSql = InOneSql(table: string, whereField: string)

  /** `InOneSql.String` (with_model.go:239-241). */
  function GroupKey(one: InOneSql): (key: string)
    ensures |key| == |one.table| + 1 + |one.whereField|
    ensures key[..|one.table|] == one.table && key[|one.table|] == '|' && key[|one.table| + 1..] == one.whereField
  {
    one.table + "|" + one.whereField
  }

  /** With no `|` in the table name the key splits back into its parts. */
  lemma GroupKeyParts(one: InOneSql)
    requires '|' !in one.table
    ensures '|' in GroupKey(one)
    ensures Before(GroupKey(one), '|') == one.table
    ensures After(GroupKey(one), '|') == one.whereField
  {
    var s := GroupKey(one);
    assert s[|one.table|] == '|' && s[..|one.table|] == one.table && s[|one.table| + 1..] == one.whereField;
    IndexOfAt(s, '|', |one.table|);
  }

  /** So distinct groups of such tables have distinct keys. */
  lemma GroupKeyInjective(a: InOneSql, b: InOneSql)
    requires '|' !in a.table && '|' !in b.table
    requires GroupKey(a) == GroupKey(b)
    ensures a == b
  {
    GroupKeyParts(a);
    GroupKeyParts(b);
  }

  /** A `|` in a table name lets two groups share a key. */
  lemma GroupKeyCollision()
    ensures GroupKey(InOneSql("a|b", "c")) == GroupKey(InOneSql("a", "b|c"))
  {
  }

  /** `linkData` (with_model.go:191-194): what `Link` recorded for a
      field; `columns` is `None` for a nil list. */
  datatype LinkData = LinkData(extCondition: string, columns: Option<seq<string>>)

  /** `PreLink` (with_model.go:226-231): the keys collected for a group,
      the columns to read, the linked type and the key column. */
  datatype PreLink = PreLink(args: seq<Value>, columns: Option<seq<string>>, model: GoType, argKey: string)

  /** The cutset of `strings.Trim(where, "AND ")`: characters, not a word. */
  const WhereCutset: set<char> := {'A', 'N', 'D', ' '}

  /** The `IN` condition on the linked key. */
  function InCondition(linkKey: string): string
  {
    "`" + linkKey + "` in (?)"
  }

  /** The condition of a link lookup before trimming (with_model.go:280). */
  function LinkWhere(linkKey: string, extCondition: string): string
  {
    InCondition(linkKey) + (" AND " + extCondition)
  }

  /** The group a link lookup belongs to (with_model.go:281-284). */
  function GroupOf(models: Models, typ: GoType, linkKey: string, extCondition: string): InOneSql
  {
    InOneSql(LinkTable(models, typ), Trim(LinkWhere(linkKey, extCondition), WhereCutset))
  }

  lemma TrimLeftStops(s: string, cutset: set<char>)
    requires |s| > 0 && s[0] !in cutset
    ensures TrimLeft(s, cutset) == s
  {
  }

  lemma {:induction false} TrimRightCut(p: string, q: string, cutset: set<char>)
    requires |p| > 0 && p[|p| - 1] !in cutset
    requires forall i :: 0 <= i < |q| ==> q[i] in cutset
    ensures TrimRight(p + q, cutset) == p
    decreases |q|
  {
    if |q| > 0 {
      var s := p + q;
      assert s[|s| - 1] == q[|q| - 1];
      assert s[..|s| - 1] == p + q[..|q| - 1];
      TrimRightCut(p, q[..|q| - 1], cutset);
    } else {
      assert p + q == p;
    }
  }

  /** Without an extra condition the dangling " AND " is trimmed away. */
  lemma PlainLinkWhere(linkKey: string)
    ensures Trim(LinkWhere(linkKey, ""), WhereCutset) == InCondition(linkKey)
  {
    var p := InCondition(linkKey);
    assert " AND " + "" == " AND ";
    assert p[0] == '`' && p[|p| - 1] == ')';
    TrimLeftStops(p + " AND ", WhereCutset);
    TrimRightCut(p, " AND ", WhereCutset);
  }

  /** The cutset also eats the end of an extra condition: an extra
      condition `e + t` whose tail `t` is made of the letters A, N, D and
      spaces loses `t` (so `x = ADMIN` becomes `x = ADMI`). */
  lemma TrimEatsCondition(linkKey: string, e: string, t: string)
    requires |e| > 0 && e[|e| - 1] !in WhereCutset
    requires forall i :: 0 <= i < |t| ==> t[i] in WhereCutset
    ensures Trim(LinkWhere(linkKey, e + t), WhereCutset) == InCondition(linkKey) + (" AND " + e)
  {
    var p := InCondition(linkKey) + (" AND " + e);
    assert LinkWhere(linkKey, e + t) == p + t;
    assert (p + t)[0] == '`';
    TrimLeftStops(p + t, WhereCutset);
    TrimRightCut(p, t, WhereCutset);
  }

  /* ---------- preLink ---------- */

  type Groups = map<InOneSql, PreLink>

  /** The value of `key` in a row; a missing key reads as nil. */
  function Get(item: Row, key: string): Value
  {
    if key in item then item[key] else Null
  }

  /** The keys a link field of `item` contributes (with_model.go:255-304),
      or `None` when the source skips the field: its type is unknown, it
      has no link annotation, the row's own key is nil, or a slice-typed
      field's key value is not a list. */
  function LinkArgs(field: string, item: Row, info: ModelInfo): Option<seq<Value>>
  {
    if field !in info.fieldTyp || field !in info.links then None
    else
      var val := Get(item, info.links[field].selfKey);
      if val.Null? then None
      else if info.fieldTyp[field].isSlice then
        if val.List? then Some(val.items) else None
      else Some([val])
  }

  /** What one link field does to the groups (with_model.go:254-316): its
      keys start a new group, or are appended to the group's keys, in which
      case the group's column list is dropped. */
  function PreLinkStep(pre: Groups, field: string, ld: LinkData, item: Row, info: ModelInfo, models: Models): Groups
  {
    var args := LinkArgs(field, item, info);
    if args.None? then pre
    else
      var typ := info.fieldTyp[field];
      var tag := info.links[field];
      Merge(pre, GroupOf(models, typ, tag.linkKey, ld.extCondition), args.value, ld.columns, typ, tag.linkKey)
  }

  /** Keys for the group `one`: a new group, or appended to the group's
      keys with its column list dropped (with_model.go:306-316). */
  function Merge(pre: Groups, one: InOneSql, args: seq<Value>, columns: Option<seq<string>>, typ: GoType, argKey: string): Groups
  {
    if one !in pre then pre[one := PreLink(args, columns, typ, argKey)]
    else pre[one := PreLink(pre[one].args + args, None, typ, argKey)]
  }

  /** The link fields of one row, visited in the order `fields`. */
  function PreLinkAll(pre: Groups, fields: seq<string>, link: map<string, LinkData>, item: Row,
                      info: ModelInfo, models: Models): Groups
    requires forall i :: 0 <= i < |fields| ==> fields[i] in link
  {
    if |fields| == 0 then pre
    else
      var last := fields[|fields| - 1];
      PreLinkStep(PreLinkAll(pre, fields[..|fields| - 1], link, item, info, models), last, link[last], item, info, models)
  }

  /** The four skip cases leave the groups as they are. */
  lemma PreLinkSkips(pre: Groups, field: string, ld: LinkData, item: Row, info: ModelInfo, models: Models)
    requires || field !in info.fieldTyp
             || field !in info.links
             || Get(item, info.links[field].selfKey).Null?
             || (info.fieldTyp[field].isSlice && !Get(item, info.links[field].selfKey).List?)
    ensures PreLinkStep(pre, field, ld, item, info, models) == pre
  {
  }

  /** A lookup for a group seen before appends its keys after the group's
      keys; a new group starts with them and the field's column list. */
  lemma PreLinkMerges(pre: Groups, field: string, ld: LinkData, item: Row, info: ModelInfo, models: Models)
    requires LinkArgs(field, item, info).Some?
    ensures var one := GroupOf(models, info.fieldTyp[field], info.links[field].linkKey, ld.extCondition);
            var after := PreLinkStep(pre, field, ld, item, info, models);
            && one in after
            && (one in pre ==> after[one].args == pre[one].args + LinkArgs(field, item, info).value && after[one].columns.None?)
            && (one !in pre ==> after[one].args == LinkArgs(field, item, info).value && after[one].columns == ld.columns)
            && after[one].argKey == info.links[field].linkKey
            && (forall g :: g != one ==> (g in after <==> g in pre) && (g in pre ==> after[g] == pre[g]))
  {
  }

  /** Collecting never loses a group nor a key: each group's keys before
      are a prefix of its keys after. */
  lemma {:induction false} PreLinkGrows(pre: Groups, fields: seq<string>, link: map<string, LinkData>, item: Row,
                                        info: ModelInfo, models: Models, g: InOneSql)
    requires forall i :: 0 <= i < |fields| ==> fields[i] in link
    requires g in pre
    ensures g in PreLinkAll(pre, fields, link, item, info, models)
    ensures pre[g].args <= PreLinkAll(pre, fields, link, item, info, models)[g].args
    decreases |fields|
  {
    if |fields| > 0 {
      var init := fields[..|fields| - 1];
      PreLinkGrows(pre, init, link, item, info, models, g);
      var mid := PreLinkAll(pre, init, link, item, info, models);
      var last := fields[|fields| - 1];
      if LinkArgs(last, item, info).Some? {
        PreLinkMerges(mid, last, link[last], item, info, models);
      }
    }
  }

  /** The body of the preLink loop for one link field, as the source
      writes it. */
  method AddLink(pre: Groups, field: string, ld: LinkData, item: Row, info: ModelInfo, models: Models)
    returns (r: Groups)
    ensures r == PreLinkStep(pre, field, ld, item, info, models)
  {
    r := pre;
    if field !in info.fieldTyp {
      return;
    }
    var typ := info.fieldTyp[field];
    if field !in info.links {
      return;
    }
    var tag := info.links[field];
    var val := Get(item, tag.selfKey);
    if val.Null? {
      return;
    }
    var where := LinkWhere(tag.linkKey, ld.extCondition);
    var one := InOneSql(LinkTable(models, typ), Trim(where, WhereCutset));
    var args: seq<Value>;
    if typ.isSlice {
      if !val.List? {
        return;
      }
      args := val.items;
    } else {
      args := [val];
    }
    var pl := PreLink([], None, typ, tag.linkKey);
    if one !in r {
      pl := pl.(columns := ld.columns, args := args);
    } else {
      pl := pl.(args := r[one].args + args);
    }
    r := r[one := pl];
  }

  /** The loop of preLink over the link fields in map order
      (with_model.go:244-319); with no links nothing changes. */
  method PreLinkRow(pre: Groups, link: map<string, LinkData>, item: Row, info: ModelInfo, models: Models)
    returns (r: Groups, ghost fields: seq<string>)
    ensures IsEnumeration(fields, link.Keys)
    ensures r == PreLinkAll(pre, fields, link, item, info, models)
  {
    r := pre;
    fields := [];
    if |link| == 0 {
      assert forall k :: k !in link.Keys;
      return;
    }
    var keys := Enumerate(link.Keys);
    var i := 0;
    while i < |keys|
      invariant 0 <= i <= |keys|
      invariant r == PreLinkAll(pre, keys[..i], link, item, info, models)
    {
      TakeOneMore(keys, i);
      r := AddLink(r, keys[i], link[keys[i]], item, info, models);
      assert keys[..i + 1][..i] == keys[..i];
      i := i + 1;
    }
    TakeAll(keys);
    fields := keys;
  }

  /* ---------- doLinkMulti: one query per group ---------- */

  /** `UnDuplicate`, which is not part of this model, read as keeping the
      first occurrence of each key. */
  function Dedup(s: seq<Value>): seq<Value>
  {
    if |s| == 0 then []
    else
      var d := Dedup(s[..|s| - 1]);
      if s[|s| - 1] in d then d else d + [s[|s| - 1]]
  }

  /** No key twice, and the same keys. */
  lemma {:induction false} DedupSpec(s: seq<Value>)
    ensures Distinct(Dedup(s))
    ensures forall x :: x in Dedup(s) <==> x in s
    decreases |s|
  {
    if |s| > 0 {
      var init := s[..|s| - 1];
      DedupSpec(init);
      assert s == init + [s[|s| - 1]];
    }
  }

  /** A query as issued: the group and its deduplicated keys. */
  datatype Query = Query(group: InOneSql, args: seq<Value>)

  /** The index being built: group key, then link key, then row
      (with_model.go:322). */
  type Index = map<string, map<Value, Row>>

  /** The rows of one group's answer entered into the index in order
      (with_model.go:336-346): the group's entry is created by the first
      row, and a row without the key column is skipped. */
  function IndexRows(index: Index, one: string, rows: seq<Row>, argKey: string): (r: Index)
    ensures one in r <==> one in index || |rows| > 0
  {
    if |rows| == 0 then index
    else
      var prev := IndexRows(index, one, rows[..|rows| - 1], argKey);
      var row := rows[|rows| - 1];
      var inner := if one in prev then prev[one] else map[];
      prev[one := if argKey in row then inner[row[argKey] := row] else inner]
  }

  /** The row kept under a key is the LAST row with that key. */
  lemma {:induction false} IndexLastWins(index: Index, one: string, rows: seq<Row>, argKey: string, j: nat)
    requires j < |rows| && argKey in rows[j]
    requires forall i :: j < i < |rows| && argKey in rows[i] ==> rows[i][argKey] != rows[j][argKey]
    ensures one in IndexRows(index, one, rows, argKey)
    ensures rows[j][argKey] in IndexRows(index, one, rows, argKey)[one]
    ensures IndexRows(index, one, rows, argKey)[one][rows[j][argKey]] == rows[j]
    decreases |rows|
  {
    var init := rows[..|rows| - 1];
    if j < |rows| - 1 {
      assert init[j] == rows[j];
      IndexLastWins(index, one, init, argKey, j);
    }
  }

  /** A key is indexed exactly when some row carries it (or it was there). */
  lemma {:induction false} IndexKeys(index: Index, one: string, rows: seq<Row>, argKey: string, k: Value)
    requires |rows| > 0
    ensures k in IndexRows(index, one, rows, argKey)[one] <==>
              (one in index && k in index[one]) || exists i :: 0 <= i < |rows| && argKey in rows[i] && rows[i][argKey] == k
    decreases |rows|
  {
    var init := rows[..|rows| - 1];
    if |init| > 0 {
      IndexKeys(index, one, init, argKey, k);
      if exists i :: 0 <= i < |init| && argKey in init[i] && init[i][argKey] == k {
        var i :| 0 <= i < |init| && argKey in init[i] && init[i][argKey] == k;
        assert rows[i] == init[i];
      }
    }
    if exists i :: 0 <= i < |rows| && argKey in rows[i] && rows[i][argKey] == k {
      var i :| 0 <= i < |rows| && argKey in rows[i] && rows[i][argKey] == k;
      if i < |rows| - 1 {
        assert init[i] == rows[i];
      }
    }
  }

  /** Entering rows touches only the group's own entry, and what it makes
      of that entry depends only on the entry before. */
  lemma {:induction false} IndexRowsLocal(a: Index, b: Index, one: string, rows: seq<Row>, argKey: string)
    requires one in a <==> one in b
    requires one in a ==> a[one] == b[one]
    ensures var ra := IndexRows(a, one, rows, argKey);
            var rb := IndexRows(b, one, rows, argKey);
            && (one in ra <==> one in rb) && (one in ra ==> ra[one] == rb[one])
            && (forall o :: o != one ==> (o in ra <==> o in a) && (o in a ==> ra[o] == a[o]))
    decreases |rows|
  {
    if |rows| > 0 {
      IndexRowsLocal(a, b, one, rows[..|rows| - 1], argKey);
    }
  }

  /** The answer `query` gives for one group: the database is a given
      function of the group and its keys. */
  type Database = (InOneSql, seq<Value>) -> DriverReply<seq<Row>>

  /** The query loop over the groups in the order `groups`
      (with_model.go:325-347): a failed query is skipped. */
  function Grouped(index: Index, groups: seq<InOneSql>, pre: Groups, db: Database): Index
    requires forall i :: 0 <= i < |groups| ==> groups[i] in pre
  {
    if |groups| == 0 then index
    else
      var prev := Grouped(index, groups[..|groups| - 1], pre, db);
      var g := groups[|groups| - 1];
      var reply := db(g, Dedup(pre[g].args));
      if reply.Replied? then IndexRows(prev, GroupKey(g), reply.value, pre[g].argKey) else prev
  }

  /** The index entry of a group the database answered with rows is the
      index of those rows alone, when group keys do not collide (no `|` in
      a table name). */
  lemma {:induction false} GroupedEntry(index: Index, groups: seq<InOneSql>, pre: Groups, db: Database, j: nat)
    requires forall i :: 0 <= i < |groups| ==> groups[i] in pre && '|' !in groups[i].table
    requires Distinct(groups)
    requires j < |groups|
    requires GroupKey(groups[j]) !in index
    requires db(groups[j], Dedup(pre[groups[j]].args)).Replied?
    requires |db(groups[j], Dedup(pre[groups[j]].args)).value| > 0
    ensures var one := GroupKey(groups[j]);
            var rows := db(groups[j], Dedup(pre[groups[j]].args)).value;
            && one in Grouped(index, groups, pre, db)
            && Grouped(index, groups, pre, db)[one] == IndexRows(map[], one, rows, pre[groups[j]].argKey)[one]
    decreases |groups|
  {
    var one := GroupKey(groups[j]);
    var init := groups[..|groups| - 1];
    var g := groups[|groups| - 1];
    var prev := Grouped(index, init, pre, db);
    var reply := db(g, Dedup(pre[g].args));
    if j < |groups| - 1 {
      assert init[j] == groups[j];
      GroupedEntry(index, init, pre, db, j);
      if reply.Replied? {
        if GroupKey(g) == one {
          GroupKeyInjective(g, groups[j]);
          assert false;
        }
        IndexRowsLocal(prev, prev, GroupKey(g), reply.value, pre[g].argKey);
      }
    } else {
      forall i | 0 <= i < |init|
        ensures init[i] in pre && GroupKey(init[i]) != one
      {
        assert init[i] == groups[i];
        if GroupKey(init[i]) == one {
          GroupKeyInjective(init[i], groups[j]);
        }
      }
      GroupedAbsent(index, init, pre, db, one);
      IndexRowsLocal(prev, map[], one, reply.value, pre[g].argKey);
    }
  }

  /** A key no earlier group has stays out of the index. */
  lemma {:induction false} GroupedAbsent(index: Index, groups: seq<InOneSql>, pre: Groups, db: Database, one: string)
    requires forall i :: 0 <= i < |groups| ==> groups[i] in pre && GroupKey(groups[i]) != one
    requires one !in index
    ensures one !in Grouped(index, groups, pre, db)
    decreases |groups|
  {
    if |groups| > 0 {
      var init := groups[..|groups| - 1];
      GroupedAbsent(index, init, pre, db, one);
      var g := groups[|groups| - 1];
      var reply := db(g, Dedup(pre[g].args));
      if reply.Replied? {
        var prev := Grouped(index, init, pre, db);
        IndexRowsLocal(prev, prev, GroupKey(g), reply.value, pre[g].argKey);
      }
    }
  }

  /** The row loop of one group's answer (with_model.go:336-346). */
  method IndexAnswer(index: Index, one: string, rows: seq<Row>, argKey: string) returns (r: Index)
    ensures r == IndexRows(index, one, rows, argKey)
  {
    r := index;
    var i := 0;
    while i < |rows|
      invariant 0 <= i <= |rows|
      invariant r == IndexRows(index, one, rows[..i], argKey)
    {
      var row := rows[i];
      if one !in r {
        r := r[one := map[]];
      }
      if argKey in row {
        r := r[one := r[one][row[argKey] := row]];
      }
      TakeOneMore(rows, i);
      assert rows[..i + 1][..i] == rows[..i];
      i := i + 1;
    }
    TakeAll(rows);
  }

  /** The query phase of doLinkMulti (with_model.go:322-347): in some
      order of the groups, exactly one query per group with its keys
      deduplicated, and the index of the answers. */
  method QueryGroups(pre: Groups, db: Database) returns (groups: seq<InOneSql>, issued: seq<Query>, index: Index)
    ensures IsEnumeration(groups, pre.Keys)
    ensures |issued| == |groups|
    ensures forall i :: 0 <= i < |issued| ==> issued[i] == Query(groups[i], Dedup(pre[groups[i]].args))
    ensures index == Grouped(map[], groups, pre, db)
  {
    groups := Enumerate(pre.Keys);
    issued := [];
    index := map[];
    var i := 0;
    while i < |groups|
      invariant 0 <= i <= |groups|
      invariant |issued| == i
      invariant forall j :: 0 <= j < i ==> issued[j] == Query(groups[j], Dedup(pre[groups[j]].args))
      invariant index == Grouped(map[], groups[..i], pre, db)
    {
      var g := groups[i];
      var args := Dedup(pre[g].args);
      issued := issued + [Query(g, args)];
      var reply := db(g, args);
      TakeOneMore(groups, i);
      assert groups[..i + 1][..i] == groups[..i];
      if reply.Replied? {
        index := IndexAnswer(index, GroupKey(g), reply.value, pre[g].argKey);
      }
      i := i + 1;
    }
    TakeAll(groups);
  }

  /* ---------- doLinkMulti: attaching the rows ---------- */

  /** The result of `util.MapListToObjList` / `util.MapToObj` into a new
      value of a type: the value and the error text ("" on success). */
  datatype Conversion = Conversion(value: Value, errInfo: string)

  /** The two conversions, as given functions. */
  datatype Binder = Binder(toList: (GoType, seq<Row>) -> Conversion, toOne: (GoType, Row) -> Conversion)

  /** The indexed rows for each key in turn, missing keys skipped
      (with_model.go:384-395). */
  function Matches(index: Index, one: string, keys: seq<Value>): (rows: seq<Row>)
    ensures |rows| <= |keys|
  {
    if |keys| == 0 then []
    else
      var k := keys[|keys| - 1];
      Matches(index, one, keys[..|keys| - 1]) + (if one in index && k in index[one] then [index[one][k]] else [])
  }

  /** The conversion attaching a link field to `item` performs
      (with_model.go:356-410), or `None` when none is reached: a slice link
      whose key value is not a list, or a single link whose key is not
      indexed. A field without a link annotation reads the zero one. */
  function Converted(item: Row, field: string, ld: LinkData, info: ModelInfo, models: Models, index: Index, binder: Binder)
    : Option<Conversion>
    requires field in info.fieldTyp
  {
    var typ := info.fieldTyp[field];
    var tag := if field in info.links then info.links[field] else LinkTag("", "");
    var val := Get(item, tag.selfKey);
    var one := GroupKey(GroupOf(models, typ, tag.linkKey, ld.extCondition));
    if typ.isSlice then
      if val.List? then Some(binder.toList(typ, Matches(index, one, val.items))) else None
    else if one in index && val in index[one] then Some(binder.toOne(typ, index[one][val]))
    else None
  }

  /** As written (with_model.go:397-406, :412-414): the field is set only
      when the conversion REPORTS an error. */
  function LinkedAsWritten(item: Row, field: string, ld: LinkData, info: ModelInfo, models: Models, index: Index, binder: Binder)
    : (r: Option<Value>)
    requires field in info.fieldTyp
    ensures r.Some? <==> exists c :: Converted(item, field, ld, info, models, index, binder) == Some(c) && c.errInfo != ""
  {
    var c := Converted(item, field, ld, info, models, index, binder);
    if c.Some? && c.value.errInfo != "" then Some(c.value.value) else None
  }

  /** A clean conversion of a found row is thrown away as written. */
  lemma AsWrittenDropsFound(item: Row, field: string, ld: LinkData, info: ModelInfo, models: Models,
                            index: Index, binder: Binder, v: Value)
    requires field in info.fieldTyp
    requires Converted(item, field, ld, info, models, index, binder) == Some(Conversion(v, ""))
    ensures LinkedAsWritten(item, field, ld, info, models, index, binder).None?
  {
  }

  /** As intended: the field is set exactly when the conversion succeeds. */
  function Linked(item: Row, field: string, ld: LinkData, info: ModelInfo, models: Models, index: Index, binder: Binder)
    : (r: Option<Value>)
    requires field in info.fieldTyp
    ensures r.Some? <==> exists c :: Converted(item, field, ld, info, models, index, binder) == Some(c) && c.errInfo == ""
  {
    var c := Converted(item, field, ld, info, models, index, binder);
    if c.Some? && c.value.errInfo == "" then Some(c.value.value) else None
  }

  /** The link fields of one row attached in the order `fields`; each step
      reads the row as the earlier steps left it. */
  function AttachAll(item: Row, fields: seq<string>, link: map<string, LinkData>, info: ModelInfo, models: Models,
                     index: Index, binder: Binder): Row
    requires forall i :: 0 <= i < |fields| ==> fields[i] in link && fields[i] in info.fieldTyp
  {
    if |fields| == 0 then item
    else
      var prev := AttachAll(item, fields[..|fields| - 1], link, info, models, index, binder);
      var f := fields[|fields| - 1];
      var l := Linked(prev, f, link[f], info, models, index, binder);
      if l.Some? then prev[f := l.value] else prev
  }

  /** Attaching writes only link fields: every other key keeps its value. */
  lemma {:induction false} AttachOnlyLinks(item: Row, fields: seq<string>, link: map<string, LinkData>, info: ModelInfo,
                                           models: Models, index: Index, binder: Binder, k: string)
    requires forall i :: 0 <= i < |fields| ==> fields[i] in link && fields[i] in info.fieldTyp
    requires k !in fields
    ensures k in AttachAll(item, fields, link, info, models, index, binder) <==> k in item
    ensures k in item ==> AttachAll(item, fields, link, info, models, index, binder)[k] == item[k]
    decreases |fields|
  {
    if |fields| > 0 {
      AttachOnlyLinks(item, fields[..|fields| - 1], link, info, models, index, binder, k);
    }
  }

  /** A single (non-slice) link whose key is indexed and whose row
      converts cleanly is attached, whatever came before it. */
  lemma AttachFound(item: Row, fields: seq<string>, link: map<string, LinkData>, info: ModelInfo, models: Models,
                    index: Index, binder: Binder)
    requires forall i :: 0 <= i < |fields| ==> fields[i] in link && fields[i] in info.fieldTyp
    requires |fields| > 0
    requires var prev := AttachAll(item, fields[..|fields| - 1], link, info, models, index, binder);
             var f := fields[|fields| - 1];
             Converted(prev, f, link[f], info, models, index, binder).Some? &&
             Converted(prev, f, link[f], info, models, index, binder).value.errInfo == ""
    ensures var prev := AttachAll(item, fields[..|fields| - 1], link, info, models, index, binder);
            var f := fields[|fields| - 1];
            AttachAll(item, fields, link, info, models, index, binder) ==
              prev[f := Converted(prev, f, link[f], info, models, index, binder).value.value]
  {
  }

  /** The slice branch of the attach loop: the found rows in key order
      (with_model.go:382-395). */
  method CollectMatches(index: Index, one: string, keys: seq<Value>) returns (maps: seq<Row>)
    ensures maps == Matches(index, one, keys)
  {
    maps := [];
    var i := 0;
    while i < |keys|
      invariant 0 <= i <= |keys|
      invariant maps == Matches(index, one, keys[..i])
    {
      var k := keys[i];
      if one in index {
        var ks := index[one];
        if k in ks {
          maps := maps + [ks[k]];
        }
      }
      TakeOneMore(keys, i);
      assert keys[..i + 1][..i] == keys[..i];
      i := i + 1;
    }
    TakeAll(keys);
  }

  /** The body of the attach loop for one row and one link field
      (with_model.go:355-414), with the corrected test. */
  method AttachField(item: Row, field: string, ld: LinkData, info: ModelInfo, models: Models, index: Index, binder: Binder)
    returns (r: Row)
    requires field in info.fieldTyp
    ensures r == var l := Linked(item, field, ld, info, models, index, binder);
                 if l.Some? then item[field := l.value] else item
  {
    r := item;
    var typ := info.fieldTyp[field];
    var tag := if field in info.links then info.links[field] else LinkTag("", "");
    var val := Get(item, tag.selfKey);
    var where := LinkWhere(tag.linkKey, ld.extCondition);
    var one := InOneSql(LinkTable(models, typ), Trim(where, WhereCutset));
    var has := false;
    var value := Null;
    if typ.isSlice {
      if !val.List? {
        return;
      }
      var maps := CollectMatches(index, GroupKey(one), val.items);
      var c := binder.toList(typ, maps);
      if c.errInfo == "" {
        has, value := true, c.value;
      }
    } else {
      var key := GroupKey(one);
      if key in index {
        var ks := index[key];
        if val in ks {
          var c := binder.toOne(typ, ks[val]);
          if c.errInfo == "" {
            has, value := true, c.value;
          }
        }
      }
    }
    if has {
      r := item[field := value];
    }
  }

  /** The link loop for one row, in map order. */
  method AttachRow(item: Row, link: map<string, LinkData>, info: ModelInfo, models: Models, index: Index, binder: Binder)
    returns (r: Row, ghost fields: seq<string>)
    requires forall f :: f in link ==> f in info.fieldTyp
    ensures IsEnumeration(fields, link.Keys)
    ensures r == AttachAll(item, fields, link, info, models, index, binder)
  {
    var keys := Enumerate(link.Keys);
    r := item;
    var i := 0;
    while i < |keys|
      invariant 0 <= i <= |keys|
      invariant r == AttachAll(item, keys[..i], link, info, models, index, binder)
    {
      TakeOneMore(keys, i);
      r := AttachField(r, keys[i], link[keys[i]], info, models, index, binder);
      assert keys[..i + 1][..i] == keys[..i];
      i := i + 1;
    }
    TakeAll(keys);
    fields := keys;
  }

  /** `r` is `item` with its link fields attached in some map order. */
  ghost predicate AttachedRow(r: Row, item: Row, link: map<string, LinkData>, info: ModelInfo, models: Models,
                              index: Index, binder: Binder)
    requires forall f :: f in link ==> f in info.fieldTyp
  {
    exists fields :: IsEnumeration(fields, link.Keys) && r == AttachAll(item, fields, link, info, models, index, binder)
  }

  /** doLinkMulti (with_model.go:321-418), with the corrected test: one
      query per group, then every row's link fields attached from the
      index. A link field with no recorded type panics at
      with_model.go:365, hence the precondition when there are rows. */
  method DoLinkMulti(data: seq<Row>, pre: Groups, link: map<string, LinkData>, info: ModelInfo, models: Models,
                     db: Database, binder: Binder)
    returns (out: seq<Row>, issued: seq<Query>, ghost groups: seq<InOneSql>, ghost index: Index)
    requires |data| > 0 ==> forall f :: f in link ==> f in info.fieldTyp
    ensures IsEnumeration(groups, pre.Keys)
    ensures |issued| == |groups|
    ensures forall i :: 0 <= i < |issued| ==> issued[i] == Query(groups[i], Dedup(pre[groups[i]].args))
    ensures index == Grouped(map[], groups, pre, db)
    ensures |out| == |data|
    ensures forall i :: 0 <= i < |data| ==> AttachedRow(out[i], data[i], link, info, models, index, binder)
  {
    var idx;
    groups, issued, idx := QueryGroups(pre, db);
    index := idx;
    out := [];
    var i := 0;
    while i < |data|
      invariant 0 <= i <= |data|
      invariant |out| == i
      invariant forall j :: 0 <= j < i ==> AttachedRow(out[j], data[j], link, info, models, idx, binder)
    {
      var r, fields := AttachRow(data[i], link, info, models, idx, binder);
      out := out + [r];
      i := i + 1;
    }
  }
}
