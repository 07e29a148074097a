/** The query state of model.go: a `Model` collects a field list, a condition
    map, an order list and a pager through fluent calls, keeps a sticky error
    slot and a log of the last statements, and hands statements to the
    driver. The driver, the connection lookup and reflection over the bound
    struct are outside the model: the driver's reply and the struct's
    flattened values are parameters. */
module QueryModel {
  import opened Values
  import opened GoStrings
  import opened Maps
  import opened SqlBuilder
  import opened SqlProperties

  /** The struct tag that names a field's column. */
  const DbTag := "db"

  /** A configured connection; only a zero port is ever inspected. */
  datatype Connect = Connect(driver: string, host: string, port: int, user: string, password: string, name: string)

  type Config = map<string, Connect>

  /** Go's `config[name]`: the zero `Connect` when the name is missing. */
  function ConfigAt(config: Config, name: string): Connect
  {
    if name in config then config[name] else Connect("", "", 0, "", "", "")
  }

  /** A struct's tags by tag name: tag => field => tag value
      (`FieldTagMapper.GetFieldMapByTagName`). */
  type TagMap = map<string, map<string, string>>

  function TagValues(tags: TagMap, tag: string): map<string, string>
  {
    if tag in tags then tags[tag] else map[]
  }

  /** Go's `m[k]` on a `map[string]string`: "" when missing. */
  function Lookup(m: map<string, string>, k: string): string
  {
    if k in m then m[k] else ""
  }

  /** The struct bound with `Model(m)`: its field values by field name and
      its tags. */
  datatype Obj = Obj(fields: Row, tags: TagMap)

  /** `modelInfo` (model.go:817-824). */
  datatype ModelInfo = ModelInfo(tagMap: TagMap, table: string, connectName: string,
                                 connectReadName: string, connectWriteName: string, autoPk: string)

  /* ---------- Field-name rewriting ---------- */

  /** A struct field name replaced by its column name when the db tag maps it. */
  function Renamed(names: map<string, string>, field: string): string
  {
    if field in names then names[field] else field
  }

  function RenameAll(names: map<string, string>, fields: seq<string>): (r: seq<string>)
    ensures |r| == |fields|
  {
    seq(|fields|, i requires 0 <= i < |fields| => Renamed(names, fields[i]))
  }

  /** The index of the backquote that closes a match of "`(.+?)`" opened at
      `s[0]`, scanning from `j`: the first backquote at index 2 or later, as
      long as no newline comes first (`.` does not match a newline); -1 when
      there is none. */
  function CloseAt(s: string, j: nat): (r: int)
    requires 1 <= j <= |s|
    ensures r == -1 || (j <= r < |s| && r >= 2 && s[r] == '`')
    ensures r >= 0 ==> '\n' !in s[j..r] && forall i :: j <= i < r && i >= 2 ==> s[i] != '`'
    decreases |s| - j
  {
    if j == |s| || s[j] == '\n' then -1
    else if j >= 2 && s[j] == '`' then j
    else
      var r := CloseAt(s, j + 1);
      assert r >= 0 ==> s[j..r] == [s[j]] + s[j + 1..r];
      r
  }

  /** The rewritten condition and the last backquoted name the tag map lacks. */
  datatype Rewritten = Rewritten(text: string, missing: Option<string>)

  /** `regexp.MustCompile("`(.+?)`").ReplaceAllStringFunc` with the
      replacement of model.go:95-102: every backquoted struct field name
      becomes its backquoted column name ("" when unmapped). The matches are
      leftmost and shortest, and do not overlap. */
  function Rewrite(s: string, names: map<string, string>): (r: Rewritten)
    ensures '`' !in s ==> r == Rewritten(s, None)
    ensures r.missing.Some? ==> |r.missing.value| >= 1 && '\n' !in r.missing.value && Lookup(names, r.missing.value) == ""
    decreases |s|
  {
    if |s| == 0 then Rewritten("", None)
    else
      var close := if s[0] == '`' then CloseAt(s, 1) else -1;
      if close >= 2 then
        var k := s[1..close];
        var rest := Rewrite(s[close + 1..], names);
        var ne := Lookup(names, k);
        Rewritten("`" + ne + "`" + rest.text,
                  if rest.missing.Some? then rest.missing else if ne == "" then Some(k) else None)
      else
        var rest := Rewrite(s[1..], names);
        assert '`' !in s ==> '`' !in s[1..];
        Rewritten([s[0]] + rest.text, rest.missing)
  }

  /** A backquote at `r` with no newline and no backquote from `j` (and
      from index 2) up to it is the one `CloseAt` finds. */
  lemma {:induction false} CloseAtFinds(s: string, j: nat, r: nat)
    requires 1 <= j <= r < |s| && r >= 2 && s[r] == '`'
    requires '\n' !in s[j..r] && forall i :: j <= i < r && i >= 2 ==> s[i] != '`'
    ensures CloseAt(s, j) == r
    decreases r - j
  {
    if j < r {
      assert s[j] == s[j..r][0];
      assert s[j + 1..r] == s[j..r][1..];
      CloseAtFinds(s, j + 1, r);
    }
  }

  /** One backquoted name at the front: it becomes its column name
      (model.go:95-97), the rest of the condition is rewritten on its own,
      and an unmapped name is reported unless the rest reports one
      (model.go:98-100 keep the last). */
  lemma RewriteSegment(k: string, t: string, names: map<string, string>)
    requires |k| >= 1 && '`' !in k && '\n' !in k
    ensures var rest := Rewrite(t, names);
            Rewrite("`" + k + "`" + t, names) ==
            Rewritten("`" + Lookup(names, k) + "`" + rest.text,
                      if rest.missing.Some? then rest.missing else if Lookup(names, k) == "" then Some(k) else None)
  {
    var s := "`" + k + "`" + t;
    var close := |k| + 1;
    assert s[close] == '`' && s[1..close] == k && s[close + 1..] == t;
    forall i | 1 <= i < close
      ensures s[i] == k[i - 1]
    {
    }
    CloseAtFinds(s, 1, close);
  }

  /** The condition `WhereIn` stores: `field IN (?,...,?)`. */
  function InCondition(field: string, n: nat): string
    requires n >= 1
  {
    field + " IN (" + Repeat(",?", n)[1..] + ")"
  }

  /* ---------- The statement log ---------- */

  /** saveSql (model.go:131-141): append, then keep the last ten. */
  function LogAppend(log: seq<string>, sql: string): (r: seq<string>)
    ensures 1 <= |r| <= 10 && r[|r| - 1] == sql
    ensures |log| < 10 ==> r == log + [sql]
    ensures |log| >= 10 ==> |r| == 10
    ensures r == (log + [sql])[|log| + 1 - |r|..]
  {
    var grown := log + [sql];
    if |grown| > 10 then grown[|grown| - 10..] else grown
  }

  /* ---------- Paging ---------- */

  const MinInt64: int := -0x8000_0000_0000_0000
  const MaxInt64: int := 0x7fff_ffff_ffff_ffff

  predicate IsInt64(x: int) { MinInt64 <= x <= MaxInt64 }

  /** Two's-complement wrap-around of a 64-bit `int`. */
  function WrapInt64(x: int): (r: int)
    ensures IsInt64(r)
    ensures (r - x) % 0x1_0000_0000_0000_0000 == 0
    ensures IsInt64(x) ==> r == x
  {
    (x - MinInt64) % 0x1_0000_0000_0000_0000 + MinInt64
  }

  function ClampPage(page: int): int { if page < 1 then 1 else page }

  function ClampPageSize(size: int): int { if size < 1 then 1 else if size > 200 then 40 else size }

  /* ---------- Save data ---------- */

  /** The save-data filter of Insert and Update: keys outside a non-nil
      field list are skipped, and so are empty values when `dropEmpty`. */
  function Saved(mapper: Row, fields: Option<seq<string>>, dropEmpty: bool): Row
  {
    map k | k in mapper && (fields.None? || k in fields.value) && !(dropEmpty && IsEmptyValue(mapper[k])) :: mapper[k]
  }

  /** The `auto` tag value "kind,method|method" (model.go:415-416) requires a comma. */
  predicate AutoTagsWellFormed(auto: map<string, string>)
  {
    forall f :: f in auto ==> ',' in auto[f]
  }

  function AutoKind(tagVal: string): string
  {
    Split(tagVal, ',')[0]
  }

  function AutoMethods(tagVal: string): seq<string>
    requires ',' in tagVal
  {
    SplitSecond(tagVal, ',');
    Split(Split(tagVal, ',')[1], '|')
  }

  /** The value an auto kind stores, if the kind is known. */
  function AutoValue(kind: string, clock: Clock): Option<Value>
  {
    if kind == "timestr" then Some(Str(clock.text))
    else if kind == "timeint" then Some(Int(clock.unix))
    else None
  }

  /** What one auto tag value contributes for `action`. */
  function AutoEntry(tagVal: string, action: string, clock: Clock): Option<Value>
    requires ',' in tagVal
  {
    if action in AutoMethods(tagVal) then AutoValue(AutoKind(tagVal), clock) else None
  }

  lemma AutoEntryParts(tagVal: string, action: string, clock: Clock)
    requires ',' in tagVal
    ensures |Split(tagVal, ',')| >= 2
    ensures AutoEntry(tagVal, action, clock) ==
            if action in Split(Split(tagVal, ',')[1], '|') then AutoValue(Split(tagVal, ',')[0], clock) else None
  {
    SplitSecond(tagVal, ',');
  }

  /** GetAutoSetField (model.go:409-429): the fields whose auto tag lists
      `action`, with the current time in the tag's format. */
  function AutoSet(auto: map<string, string>, action: string, clock: Clock): map<string, Value>
    requires AutoTagsWellFormed(auto)
  {
    map f | f in auto && AutoEntry(auto[f], action, clock).Some? :: AutoEntry(auto[f], action, clock).value
  }

  /** A field is auto-set exactly when `action` is one of the `|`-separated
      methods after the comma of its tag and the kind before the comma is
      `timestr` or `timeint`; it then holds the formatted time or the Unix
      seconds (model.go:412-427). */
  lemma AutoSetFires(auto: map<string, string>, action: string, clock: Clock, f: string)
    requires AutoTagsWellFormed(auto)
    ensures f in auto ==> |Split(auto[f], ',')| >= 2
    ensures f in AutoSet(auto, action, clock) <==>
              f in auto && action in Split(Split(auto[f], ',')[1], '|') &&
              (Split(auto[f], ',')[0] == "timestr" || Split(auto[f], ',')[0] == "timeint")
    ensures f in AutoSet(auto, action, clock) ==>
              AutoSet(auto, action, clock)[f] ==
              if Split(auto[f], ',')[0] == "timestr" then Str(clock.text) else Int(clock.unix)
  {
    if f in auto {
      AutoEntryParts(auto[f], action, clock);
    }
  }

  /** `util.MapToObj(p.out, m, "")`: the fields of the bound struct named in
      `m` take their values from `m`; other keys are ignored. */
  function WriteBack(obj: Obj, m: map<string, Value>): Obj
  {
    Obj(map k | k in obj.fields :: if k in m then m[k] else obj.fields[k], obj.tags)
  }

  /** After a successful insert the auto-increment key field, if the model
      has one, receives the new id. */
  function InsertIdBack(obj: Obj, autoPk: string, insertId: int): Obj
  {
    if autoPk != "" then WriteBack(obj, map[autoPk := Int(insertId)]) else obj
  }

  /** `util.ObjToMap(p.out, "db")`, which is not part of this model, read as
      the struct's db-tagged fields under their column names. */
  ghost predicate ColumnsOf(mapper: Row, obj: Obj)
  {
    IsRenaming(mapper, obj.fields, TagValues(obj.tags, DbTag), map[])
  }

  /** The log after a statement went to the driver (see `Model.ExecSql`). */
  function ExecLog<T>(log: seq<string>, sql: string, reply: DriverReply<T>): seq<string>
  {
    match reply
    case ConnectFailed(_) => log
    case DriverFailed(_) => LogAppend(log, sql)
    case Replied(_) => LogAppend(log, sql) + [sql]
  }

  /** A successful Exec appends the statement a second time without the
      cap (model.go:655-659): the log then ends with the statement twice
      and can reach eleven entries. */
  lemma ExecLogLength<T>(log: seq<string>, sql: string, v: T)
    ensures var r := ExecLog(log, sql, Replied(v));
            |r| <= 11 && r[|r| - 2..] == [sql, sql] && (|log| >= 9 <==> |r| == 11)
  {
  }

  /** The log after a query went to the driver (see `Model.QuerySql`). */
  function QueryLog<T>(log: seq<string>, sql: string, reply: DriverReply<T>): seq<string>
  {
    if reply.ConnectFailed? then log else LogAppend(log, sql)
  }

  /* ---------- Connection lookup ---------- */

  /** The connect name and the read (or write) name a connection lookup
      leaves, with the error it reports. */
  datatype ConnectPick = ConnectPick(connectName: string, rw: string, err: Option<Error>)

  /** getReadConnect (model.go:189-218) and getWriteConnect (model.go:220-250)
      on the connect name `cn` and the read or write name `rw`. Without a
      bound struct and with `rw` unset, the connect name defaults to
      "default"; the lookup that follows reads the still-empty `rw`, so a
      configuration with an entry "" sets `rw` to the connect name plus
      "_read" (in both functions) and succeeds; otherwise `rw` becomes the
      connect name. Then `rw` must be configured. */
  function PickConnect(bound: bool, config: Config, cn: string, rw: string): (p: ConnectPick)
    ensures bound || rw != "" ==> p.connectName == cn && p.rw == rw
    ensures !bound && rw == "" ==> p.connectName == (if cn == "" then "default" else cn) && p.rw != ""
    ensures p.err.None? <==> p.rw in config || (!bound && rw == "" && "" in config)
    ensures p.err.Some? ==> p.err == Some(UndefinedConnect(p.rw))
  {
    if !bound && rw == "" then
      var c := if cn == "" then "default" else cn;
      if "" in config then ConnectPick(c, c + "_read", None)
      else ConnectPick(c, c, if c in config then None else Some(UndefinedConnect(c)))
    else ConnectPick(cn, rw, if rw in config then None else Some(UndefinedConnect(rw)))
  }

  /** The names settle on the first lookup: a second one keeps them and
      only checks that the read or write name is configured. */
  lemma PickSettles(bound: bool, config: Config, cn: string, rw: string)
    ensures var p := PickConnect(bound, config, cn, rw);
            var q := PickConnect(bound, config, p.connectName, p.rw);
            q.connectName == p.connectName && q.rw == p.rw && (q.err.None? <==> p.rw in config)
  {
  }

  /** What a statement meets: the connection lookup's error, if any, and
      otherwise the driver's reply. */
  function Via<T>(connErr: Option<Error>, reply: DriverReply<T>): (r: DriverReply<T>)
    ensures connErr.Some? ==> ReplyError(r) == connErr && r.ConnectFailed?
    ensures connErr.None? ==> r == reply
  {
    if connErr.Some? then ConnectFailed(connErr.value) else reply
  }

  /** The composition state of a query. */
  datatype QueryState = QueryState(fields: Option<seq<string>>, where: Option<Where>, limit: Limit, order: Option<seq<OrderItem>>)

  /** The save data of Insert and Update for the struct `obj`: its
      columns, filtered by `Saved`, with the auto-set fields `auto` added
      under their column names. */
  ghost predicate SaveDataOf(saveData: Row, obj: Obj, fs: Option<seq<string>>, dropEmpty: bool,
                             tagMap: TagMap, auto: map<string, Value>)
  {
    exists mapper :: ColumnsOf(mapper, obj) &&
      IsRenaming(saveData, auto, TagValues(tagMap, DbTag), Saved(mapper, fs, dropEmpty))
  }

  /** The read and write connection names `modelInfo.load` derives from the
      connect name `c`: the `_read`/`_write` variants when configured. */
  function ReadName(config: Config, c: string): string
  {
    if c + "_read" in config then c + "_read" else c
  }

  function WriteName(config: Config, c: string): string
  {
    if c + "_write" in config then c + "_write" else c
  }

  /** The connect name a model's tags ask for: the `connect` tag of its
      `orm` field, or "default". */
  function ConnectTag(tags: TagMap): string
  {
    var c := Lookup(TagValues(tags, "connect"), "orm");
    if c == "" then "default" else c
  }

  /** The auto-increment key `load` records: some field whose `pk` tag is
      "auto" (the last one in map order), or the previous value when no
      field has one. */
  ghost predicate AutoPkFrom(autoPk: string, before: string, pk: map<string, string>)
  {
    if exists k :: k in pk && pk[k] == "auto" then autoPk in pk && pk[autoPk] == "auto" else autoPk == before
  }

  /** The read and write names once the connect name is settled: resolved
      when the name is configured, left as they were otherwise. */
  predicate ConnectNamesResolved(after: ModelInfo, before: ModelInfo, config: Config)
  {
    if after.connectName in config
    then after.connectReadName == ReadName(config, after.connectName) &&
         after.connectWriteName == WriteName(config, after.connectName)
    else after.connectReadName == before.connectReadName && after.connectWriteName == before.connectWriteName
  }

  /** modelInfo.load (model.go:826-882), from `before` to `after`. */
  ghost predicate LoadedFrom(after: ModelInfo, before: ModelInfo, m: Option<Obj>, config: Config)
  {
    if m.Some? then
      var table := Lookup(TagValues(m.value.tags, "table"), "orm");
      && after.tagMap == m.value.tags && after.table == table
      && if table == "" then
           after.connectName == before.connectName && after.autoPk == before.autoPk &&
           after.connectReadName == before.connectReadName && after.connectWriteName == before.connectWriteName
         else
           after.connectName == ConnectTag(m.value.tags) &&
           AutoPkFrom(after.autoPk, before.autoPk, TagValues(m.value.tags, "pk")) &&
           ConnectNamesResolved(after, before, config)
    else
      after.tagMap == before.tagMap && after.table == before.table && after.autoPk == before.autoPk &&
      after.connectName == "default" && ConnectNamesResolved(after, before, config)
  }

  /** The error `load` reports for the info it produced. */
  function LoadError(after: ModelInfo, m: Option<Obj>, config: Config): Option<Error>
  {
    if m.Some? && after.table == "" then Some(NoTable)
    else if after.connectName !in config then Some(UndefinedConnect(after.connectName))
    else None
  }

  class Model {
    var config: Config
    var out: Option<Obj>
    var sqls: seq<string>
    var connectName: string
    var connectReadName: string
    var connectWriteName: string
    var info: ModelInfo
    var fields: Option<seq<string>>
    var where: Option<Where>
    var limit: Limit
    var order: Option<seq<OrderItem>>
    var err: Option<Error>

    /** A present condition map or order list is never empty: `Where`,
        `WhereIn` and `OrderBy` create them and add to them in one call,
        and `Reset` removes them. The builders' slices rely on this. */
    predicate Valid()
      reads this
    {
      (where.Some? ==> |where.value| > 0) && (order.Some? ==> |order.value| > 0)
    }

    /** Without an error recorded, every condition has as many `?` as
        arguments. */
    predicate Consistent()
      reads this
    {
      err.None? && where.Some? ==> Balanced(where.value)
    }

    /** No query is being composed: the state `Reset` leaves. */
    predicate Cleared()
      reads this
    {
      fields.None? && where.None? && limit == Limit(0, 0) && order.None?
    }

    function Query(): QueryState
      reads this
    {
      QueryState(fields, where, limit, order)
    }

    /** What getReadConnect and getWriteConnect would leave and report. */
    function ReadPick(): ConnectPick
      reads this
    {
      PickConnect(out.Some?, config, connectName, connectReadName)
    }

    function WritePick(): ConnectPick
      reads this
    {
      PickConnect(out.Some?, config, connectName, connectWriteName)
    }

    /** The state no composition call touches. */
    function Setup(): (Config, Option<Obj>, seq<string>, string, string, string, ModelInfo)
      reads this
    {
      (config, out, sqls, connectName, connectReadName, connectWriteName, info)
    }

    function DbNames(): map<string, string>
      reads this
    {
      TagValues(info.tagMap, DbTag)
    }

    /** `orm.newModel` (orm.go:50-55): only the configuration is set. */
    constructor (config: Config)
      ensures Valid() && Consistent()
      ensures this.config == config && out.None? && sqls == [] && err.None?
      ensures connectName == "" && connectReadName == "" && connectWriteName == ""
      ensures info == ModelInfo(map[], "", "", "", "", "")
      ensures Cleared()
    {
      this.config := config;
      out := None;
      sqls := [];
      connectName := "";
      connectReadName := "";
      connectWriteName := "";
      info := ModelInfo(map[], "", "", "", "", "");
      fields := None;
      where := None;
      limit := Limit(0, 0);
      order := None;
      err := None;
    }

    /** Field (model.go:39-53). An empty argument list is Go's nil slice. */
    method Field(fs: seq<string>)
      requires Valid()
      modifies this
      ensures Valid() && Setup() == old(Setup())
      ensures where == old(where) && limit == old(limit) && order == old(order) && err == old(err)
      ensures |DbNames()| != 0 ==> fields == Some(RenameAll(DbNames(), fs))
      ensures |DbNames()| == 0 ==> fields == if |fs| == 0 then None else Some(fs)
    {
      var names := TagValues(info.tagMap, DbTag);
      if |names| != 0 {
        var renamed: seq<string> := [];
        var i := 0;
        while i < |fs|
          invariant 0 <= i <= |fs|
          invariant renamed == RenameAll(names, fs[..i])
        {
          var field := fs[i];
          if field in names {
            field := names[field];
          }
          assert RenameAll(names, fs[..i + 1]) == RenameAll(names, fs[..i]) + [field];
          renamed := renamed + [field];
          i := i + 1;
        }
        assert fs[..i] == fs;
        fields := Some(renamed);
      } else {
        fields := if |fs| == 0 then None else Some(fs);
      }
    }

    /** Limit (model.go:55-58). */
    method SetLimit(skip: int, count: int)
      requires Valid()
      modifies this
      ensures Valid() && Setup() == old(Setup())
      ensures fields == old(fields) && where == old(where) && order == old(order) && err == old(err)
      ensures limit == Limit(skip, count)
    {
      limit := Limit(skip, count);
    }

    /** OrderBy (model.go:60-82): appends one item, the field renamed by
        the db tag and the direction "DESC" or "". */
    method OrderBy(field: string, desc: bool)
      requires Valid()
      modifies this
      ensures Valid() && Setup() == old(Setup())
      ensures fields == old(fields) && where == old(where) && limit == old(limit) && err == old(err)
      ensures order == Some((if old(order).Some? then old(order).value else [])
                            + [OrderItem(Renamed(DbNames(), field), if desc then "DESC" else "")])
    {
      if order.None? {
        order := Some([]);
      }
      var names := TagValues(info.tagMap, DbTag);
      var name := field;
      if |names| != 0 && field in names {
        name := names[field];
      }
      var item := OrderItem(name, if desc then "DESC" else "");
      order := Some(order.value + [item]);
    }

    /** The key `Where` stores for `condition`. */
    function WhereKey(condition: string): string
      reads this
    {
      if |DbNames()| != 0 then Rewrite(condition, DbNames()).text else condition
    }

    /** The error slot after `Where(condition, values)`: a placeholder
        mismatch wins, then an unmapped backquoted name, else the slot is
        left as it was. Both overwrite an earlier error. */
    function WhereError(condition: string, values: seq<Value>): Option<Error>
      reads this
    {
      if Count(WhereKey(condition), '?') != |values| then Some(PlaceholderMismatch)
      else if |DbNames()| != 0 && Rewrite(condition, DbNames()).missing.Some?
      then Some(UndefinedWhereField(condition, Rewrite(condition, DbNames()).missing.value))
      else err
    }

    /** Where (model.go:84-113): the condition is always recorded, under its
        rewritten text, with its arguments. */
    method Where(condition: string, values: seq<Value>)
      requires Valid()
      modifies this
      ensures Valid() && Setup() == old(Setup())
      ensures fields == old(fields) && limit == old(limit) && order == old(order)
      ensures where == Some((if old(where).Some? then old(where).value else map[])[old(WhereKey(condition)) := values])
      ensures err == old(WhereError(condition, values))
      ensures old(Consistent()) ==> Consistent()
    {
      if where.None? {
        where := Some(map[]);
      }
      var names := TagValues(info.tagMap, DbTag);
      var cond := condition;
      if |names| != 0 {
        var r := Rewrite(condition, names);
        if r.missing.Some? {
          err := Some(UndefinedWhereField(condition, r.missing.value));
        }
        cond := r.text;
      }
      where := Some(where.value[cond := values]);
      if Count(cond, '?') != |values| {
        err := Some(PlaceholderMismatch);
      }
    }

    /** WhereIn (model.go:143-159). The `[1:]` slice at model.go:154 panics
        without parameters. */
    method WhereIn(field: string, params: seq<Value>)
      requires Valid()
      requires |params| >= 1
      modifies this
      ensures Valid() && Setup() == old(Setup())
      ensures fields == old(fields) && limit == old(limit) && order == old(order) && err == old(err)
      ensures where == Some((if old(where).Some? then old(where).value else map[])
                            [InCondition(Renamed(DbNames(), field), |params|) := params])
      ensures old(Consistent()) && '?' !in Renamed(DbNames(), field) ==> Consistent()
    {
      if where.None? {
        where := Some(map[]);
      }
      var names := TagValues(info.tagMap, DbTag);
      var name := field;
      if |names| != 0 && field in names {
        name := names[field];
      }
      var dataHolder := Repeat(",?", |params|);
      dataHolder := dataHolder[1..];
      var condition := name + " IN (" + dataHolder + ")";
      where := Some(where.value[condition := params]);
      if '?' !in name {
        InConditionCount(name, |params|);
      }
    }

    /** Reset (model.go:116-122): clears the composition state only. */
    method Reset()
      modifies this
      ensures Valid() && Setup() == old(Setup()) && err == old(err)
      ensures Cleared()
      ensures Consistent()
    {
      where := None;
      fields := None;
      limit := Limit(0, 0);
      order := None;
    }

    /** Sqls (model.go:125-129): hands out the log and empties it. */
    method Sqls() returns (t: seq<string>)
      requires Valid()
      modifies this
      ensures Valid() && t == old(sqls) && sqls == []
      ensures config == old(config) && out == old(out) && info == old(info) && err == old(err)
      ensures connectName == old(connectName) && connectReadName == old(connectReadName)
      ensures connectWriteName == old(connectWriteName)
      ensures fields == old(fields) && where == old(where) && limit == old(limit) && order == old(order)
    {
      t := sqls;
      sqls := [];
    }

    /** saveSql (model.go:131-141). */
    method SaveSql(sql: string)
      requires Valid()
      modifies this
      ensures Valid() && sqls == LogAppend(old(sqls), sql)
      ensures config == old(config) && out == old(out) && info == old(info) && err == old(err)
      ensures connectName == old(connectName) && connectReadName == old(connectReadName)
      ensures connectWriteName == old(connectWriteName)
      ensures fields == old(fields) && where == old(where) && limit == old(limit) && order == old(order)
    {
      if |sqls| == 0 {
        sqls := [sql];
      } else {
        sqls := sqls + [sql];
        var lenSqls := |sqls|;
        if lenSqls > 10 {
          sqls := sqls[lenSqls - 10..];
        }
      }
    }

    /** Connect (model.go:163-171): a name whose configured port is 0
        (or that is not configured) sets the error; otherwise it is used. */
    method SetConnect(name: string)
      requires Valid()
      modifies this
      ensures Valid()
      ensures config == old(config) && out == old(out) && sqls == old(sqls) && info == old(info)
      ensures connectReadName == old(connectReadName) && connectWriteName == old(connectWriteName)
      ensures fields == old(fields) && where == old(where) && limit == old(limit) && order == old(order)
      ensures ConfigAt(config, name).port == 0 ==> err == Some(UndefinedConnect(name)) && connectName == old(connectName)
      ensures ConfigAt(config, name).port != 0 ==> err == old(err) && connectName == name
    {
      var c := ConfigAt(config, name);
      if c.port == 0 {
        err := Some(UndefinedConnect(name));
      } else {
        connectName := name;
      }
    }

    /** ConnectAdd (model.go:175-180). */
    method ConnectAdd(name: string, connect: Connect)
      requires Valid()
      modifies this
      ensures Valid()
      ensures config == old(config)[name := connect] && connectName == name
      ensures out == old(out) && sqls == old(sqls) && info == old(info) && err == old(err)
      ensures connectReadName == old(connectReadName) && connectWriteName == old(connectWriteName)
      ensures fields == old(fields) && where == old(where) && limit == old(limit) && order == old(order)
    {
      config := config[name := connect];
      connectName := name;
    }

    /** Table (model.go:183-186). */
    method Table(table: string)
      requires Valid()
      modifies this
      ensures Valid()
      ensures info == old(info).(table := table)
      ensures config == old(config) && out == old(out) && sqls == old(sqls) && err == old(err)
      ensures connectName == old(connectName)
      ensures connectReadName == old(connectReadName) && connectWriteName == old(connectWriteName)
      ensures fields == old(fields) && where == old(where) && limit == old(limit) && order == old(order)
    {
      info := info.(table := table);
    }

    /** The limit setting of Page (model.go:320-330): the page and the page
        size are clamped, and the limit skips the earlier pages. Go's `int`
        is 64 bits, so the skip wraps around for huge page numbers. The
        query that follows is not modelled. */
    method Page(page: int, pageSize: int) returns (p: int, size: int)
      requires Valid()
      requires IsInt64(page) && IsInt64(pageSize)
      modifies this
      ensures Valid() && Setup() == old(Setup())
      ensures fields == old(fields) && where == old(where) && order == old(order) && err == old(err)
      ensures p == ClampPage(page) && size == ClampPageSize(pageSize)
      ensures limit == Limit(WrapInt64((p - 1) * size), size)
    {
      p := page;
      size := pageSize;
      if p < 1 {
        p := 1;
      }
      if size < 1 {
        size := 1;
      } else if size > 200 {
        size := 40;
      }
      limit := Limit(WrapInt64((p - 1) * size), size);
    }

    /** getReadConnect (model.go:189-218). The connection itself is the
        driver's: only the names it settles and its error are modelled. */
    method GetReadConnect() returns (e: Option<Error>)
      requires Valid()
      modifies this
      ensures Valid()
      ensures config == old(config) && out == old(out) && sqls == old(sqls) && info == old(info) && err == old(err)
      ensures Query() == old(Query()) && connectWriteName == old(connectWriteName)
      ensures connectName == old(ReadPick()).connectName && connectReadName == old(ReadPick()).rw
      ensures e == old(ReadPick()).err
    {
      if out.None? {
        if connectReadName == "" {
          if connectName == "" {
            connectName := "default";
          }
          var readName := connectName + "_read";
          if connectReadName in config {
            connectReadName := readName;
            return None;
          } else {
            connectReadName := connectName;
          }
        }
      }
      e := if connectReadName in config then None else Some(UndefinedConnect(connectReadName));
    }

    /** getWriteConnect (model.go:220-250), which stores the `_read` name
        too. */
    method GetWriteConnect() returns (e: Option<Error>)
      requires Valid()
      modifies this
      ensures Valid()
      ensures config == old(config) && out == old(out) && sqls == old(sqls) && info == old(info) && err == old(err)
      ensures Query() == old(Query()) && connectReadName == old(connectReadName)
      ensures connectName == old(WritePick()).connectName && connectWriteName == old(WritePick()).rw
      ensures e == old(WritePick()).err
    {
      if out.None? {
        if connectWriteName == "" {
          if connectName == "" {
            connectName := "default";
          }
          var readName := connectName + "_read";
          if connectWriteName in config {
            connectWriteName := readName;
            return None;
          } else {
            connectWriteName := connectName;
          }
        }
      }
      e := if connectWriteName in config then None else Some(UndefinedConnect(connectWriteName));
    }

    /** ExecSql (model.go:638-663). A statement that reached the driver is
        logged; one that succeeded is appended to the log a second time,
        without the ten-entry cap, and the composition state is reset. */
    method ExecSql(sql: string, args: seq<Value>, reply: DriverReply<ExecReply>)
      returns (affected: int, insertId: int, e: Option<Error>)
      requires Valid()
      modifies this
      ensures Valid()
      ensures config == old(config) && out == old(out) && info == old(info) && err == old(err)
      ensures connectName == old(WritePick()).connectName && connectWriteName == old(WritePick()).rw
      ensures connectReadName == old(connectReadName)
      ensures var r := Via(old(WritePick()).err, reply);
              && e == ReplyError(r) && sqls == ExecLog(old(sqls), sql, r)
              && if r.Replied? then affected == r.value.affected && insertId == r.value.insertId && Cleared()
                 else affected == 0 && insertId == 0 && Query() == old(Query())
    {
      affected, insertId := 0, 0;
      e := GetWriteConnect();
      if e.Some? {
        return;
      }
      if reply.ConnectFailed? {
        return affected, insertId, Some(reply.error);
      }
      SaveSql(sql);
      if reply.DriverFailed? {
        return affected, insertId, Some(reply.error);
      }
      insertId := reply.value.insertId;
      affected := reply.value.affected;
      sqls := sqls + [sql];
      Reset();
    }

    /** QuerySql (model.go:252-270), for the rows the driver returns. */
    method QuerySql(sql: string, args: seq<Value>, reply: DriverReply<seq<Row>>)
      returns (data: Option<seq<Row>>, e: Option<Error>)
      requires Valid()
      modifies this
      ensures Valid()
      ensures config == old(config) && out == old(out) && info == old(info) && err == old(err)
      ensures connectName == old(ReadPick()).connectName && connectReadName == old(ReadPick()).rw
      ensures connectWriteName == old(connectWriteName)
      ensures var r := Via(old(ReadPick()).err, reply);
              && e == ReplyError(r) && sqls == QueryLog(old(sqls), sql, r)
              && if r.Replied? then data == Some(r.value) && Cleared()
                 else data.None? && Query() == old(Query())
    {
      data := None;
      e := GetReadConnect();
      if e.Some? {
        return;
      }
      if reply.ConnectFailed? {
        return None, Some(reply.error);
      }
      SaveSql(sql);
      if reply.DriverFailed? {
        return None, Some(reply.error);
      }
      data := Some(reply.value);
      Reset();
    }

    /** QueryToMap (model.go:273-295): the recorded error comes first; an
        empty result is reported as no data. */
    method QueryToMap(reply: DriverReply<seq<Row>>) returns (data: Option<seq<Row>>, e: Option<Error>, sent: Option<Statement>)
      requires Valid()
      modifies this
      ensures Valid()
      ensures config == old(config) && out == old(out) && info == old(info) && err == old(err)
      ensures connectWriteName == old(connectWriteName)
      ensures old(err).Some? ==> e == old(err) && sent.None? && data.None? && unchanged(this)
      ensures old(err).None? ==>
                sent.Some? && SelectOf(sent.value, old(fields), old(info).table, old(where), old(order), old(limit))
      ensures old(err).None? ==>
                var r := Via(old(ReadPick()).err, reply);
                && connectName == old(ReadPick()).connectName && connectReadName == old(ReadPick()).rw
                && e == ReplyError(r) && sqls == QueryLog(old(sqls), sent.value.sql, r)
                && if r.Replied? then data == (if |r.value| == 0 then None else Some(r.value)) && Cleared()
                   else data.None? && Query() == old(Query())
    {
      if err.Some? {
        return None, err, None;
      }
      var keys := Enumerate(if where.Some? then where.value.Keys else {});
      var st := BuildSelect(fields, info.table, where, keys, order, limit);
      sent := Some(st);
      var dataMap;
      dataMap, e := QuerySql(st.sql, st.args, reply);
      if e.Some? {
        return None, e, sent;
      }
      if |dataMap.value| == 0 {
        return None, None, sent;
      }
      data := dataMap;
    }

    /** First (model.go:371-384): the limit is set to one row before the
        error slot is read; no row is NotFound. The row itself is returned
        instead of being copied into the bound struct. */
    method First(reply: DriverReply<seq<Row>>) returns (row: Option<Row>, e: Option<Error>, sent: Option<Statement>)
      requires Valid()
      modifies this
      ensures Valid()
      ensures config == old(config) && out == old(out) && info == old(info) && err == old(err)
      ensures connectWriteName == old(connectWriteName)
      ensures old(err).Some? ==>
                e == old(err) && sent.None? && row.None? &&
                Setup() == old(Setup()) && Query() == old(Query()).(limit := Limit(0, 1))
      ensures old(err).None? ==>
                sent.Some? && SelectOf(sent.value, old(fields), old(info).table, old(where), old(order), Limit(0, 1))
      ensures old(err).None? ==>
                var r := Via(old(ReadPick()).err, reply);
                && connectName == old(ReadPick()).connectName && connectReadName == old(ReadPick()).rw
                && sqls == QueryLog(old(sqls), sent.value.sql, r)
                && e == (if r.Replied? && |r.value| == 0 then Some(NotFound) else ReplyError(r))
                && row == (if r.Replied? && |r.value| > 0 then Some(r.value[0]) else None)
                && if r.Replied? then Cleared() else Query() == old(Query()).(limit := Limit(0, 1))
    {
      limit := Limit(0, 1);
      var datas;
      datas, e, sent := QueryToMap(reply);
      if e.Some? {
        return None, e, sent;
      }
      if datas.None? || |datas.value| == 0 {
        return None, Some(NotFound), sent;
      }
      row := Some(datas.value[0]);
    }

    /** Count (model.go:386-405). It does not consult the error slot. The
        driver's first row must hold an integer `count`: the source indexes
        it without checking. */
    method CountRows(reply: DriverReply<seq<Row>>) returns (count: int, e: Option<Error>, sent: Statement)
      requires Valid()
      requires ReadPick().err.None? && reply.Replied? ==>
                 |reply.value| > 0 && "count" in reply.value[0] && reply.value[0]["count"].Int?
      modifies this
      ensures Valid()
      ensures config == old(config) && out == old(out) && info == old(info) && err == old(err)
      ensures connectName == old(ReadPick()).connectName && connectReadName == old(ReadPick()).rw
      ensures connectWriteName == old(connectWriteName)
      ensures CountOf(sent, old(info).table, old(where))
      ensures var r := Via(old(ReadPick()).err, reply);
              && e == ReplyError(r) && sqls == QueryLog(old(sqls), sent.sql, r)
              && if r.Replied? then count == r.value[0]["count"].i && Cleared()
                 else count == 0 && Query() == old(Query())
    {
      var keys := Enumerate(if where.Some? then where.value.Keys else {});
      sent := BuildCount(info.table, where, keys);
      var data;
      data, e := QuerySql(sent.sql, sent.args, reply);
      count := 0;
      if e.Some? {
        return;
      }
      count := data.value[0]["count"].i;
    }

    /** GetAutoSetField (model.go:409-429). The `tyAme[1]` index at
        model.go:416 panics on an auto tag without a comma. */
    method GetAutoSetField(action: string, clock: Clock) returns (needSet: map<string, Value>)
      requires AutoTagsWellFormed(TagValues(info.tagMap, "auto"))
      ensures needSet == AutoSet(TagValues(info.tagMap, "auto"), action, clock)
    {
      needSet := CollectAutoSet(TagValues(info.tagMap, "auto"), action, clock);
    }

    /** Insert (model.go:431-499): the guards, then `InsertBound`. A bound
        struct keeps the connection names as they are. */
    method Insert(clock: Clock, reply: DriverReply<ExecReply>) returns (e: Option<Error>, saveData: Row, sent: Option<Statement>)
      requires Valid()
      requires AutoTagsWellFormed(TagValues(info.tagMap, "auto"))
      modifies this
      ensures Valid()
      ensures config == old(config) && err == old(err) && connectName == old(connectName)
      ensures connectReadName == old(connectReadName) && connectWriteName == old(connectWriteName)
      ensures old(out).None? ==> e == Some(NoModel) && sent.None? && unchanged(this)
      ensures old(out).Some? && old(err).Some? ==> e == old(err) && sent.None? && unchanged(this)
      ensures old(out).Some? && old(err).None? ==>
                InsertedFrom(old(out).value, old(Query()), old(info), old(sqls), clock,
                             Via(old(WritePick()).err, reply), e, saveData, sent)
    {
      if out.None? {
        return Some(NoModel), map[], None;
      }
      if err.Some? {
        return err, map[], None;
      }
      var obj := out.value;
      var autoSet;
      saveData, autoSet := SaveData(obj, fields, info.tagMap, true, "insert", clock);
      e, sent := InsertBound(obj, saveData, autoSet, reply);
    }

    /** What Insert does with the bound struct `obj` (model.go:445-499)
        when its statement meets `r`. The save data is the struct's
        columns, restricted to a non-nil field list and without empty
        values, with the auto-set insert fields added under their column
        names; the auto-set values are written back into the struct, and
        so is the new id on success, which also clears the query. */
    ghost predicate InsertedFrom(obj: Obj, q: QueryState, info0: ModelInfo, log: seq<string>, clock: Clock,
                                 r: DriverReply<ExecReply>, e: Option<Error>, saveData: Row, sent: Option<Statement>)
      requires AutoTagsWellFormed(TagValues(info0.tagMap, "auto"))
      reads this
    {
      var auto := AutoSet(TagValues(info0.tagMap, "auto"), "insert", clock);
      var written := WriteBack(obj, auto);
      && SaveDataOf(saveData, obj, q.fields, true, info0.tagMap, auto)
      && info == info0
      && (sent.Some? <==> |saveData| > 0)
      && (sent.None? ==> e == Some(NoSaveData) && out == Some(written) && sqls == log && Query() == q)
      && (sent.Some? ==> InsertOf(sent.value, info0.table, saveData) && e == ReplyError(r) &&
                         sqls == ExecLog(log, sent.value.sql, r))
      && (sent.Some? && !r.Replied? ==> out == Some(written) && Query() == q)
      && (sent.Some? && r.Replied? ==>
            out == Some(InsertIdBack(written, info0.autoPk, r.value.insertId)) &&
            Cleared())
    }

    /** Sends the INSERT of `saveData` for the bound struct `obj` whose
        auto-set values are `autoSet` (model.go:466-499). */
    method InsertBound(obj: Obj, saveData: Row, autoSet: map<string, Value>, reply: DriverReply<ExecReply>)
      returns (e: Option<Error>, sent: Option<Statement>)
      requires Valid() && out.Some?
      modifies this
      ensures Valid() && config == old(config) && err == old(err) && info == old(info)
      ensures connectName == old(connectName)
      ensures connectReadName == old(connectReadName) && connectWriteName == old(connectWriteName)
      ensures sent.Some? <==> |saveData| > 0
      ensures sent.None? ==>
                e == Some(NoSaveData) && out == Some(WriteBack(obj, autoSet)) && sqls == old(sqls) && Query() == old(Query())
      ensures sent.Some? ==>
                var r := Via(old(WritePick()).err, reply);
                && InsertOf(sent.value, info.table, saveData) && e == ReplyError(r)
                && sqls == ExecLog(old(sqls), sent.value.sql, r)
                && if r.Replied? then out == Some(InsertIdBack(WriteBack(obj, autoSet), info.autoPk, r.value.insertId)) && Cleared()
                   else out == Some(WriteBack(obj, autoSet)) && Query() == old(Query())
    {
      out := Some(WriteBack(obj, autoSet));
      var id;
      e, sent, id := SendInsert(saveData, reply);
      if e.None? {
        out := Some(InsertIdBack(out.value, info.autoPk, id));
      }
    }

    /** Builds the INSERT statement of `data` and executes it
        (model.go:476-486): nothing is sent for empty data. */
    method SendInsert(data: Row, reply: DriverReply<ExecReply>) returns (e: Option<Error>, sent: Option<Statement>, insertId: int)
      requires Valid()
      modifies this
      ensures Valid() && config == old(config) && err == old(err) && info == old(info) && out == old(out)
      ensures connectReadName == old(connectReadName)
      ensures sent.Some? <==> |data| > 0
      ensures sent.None? ==> e == Some(NoSaveData) && unchanged(this)
      ensures sent.Some? ==>
                var r := Via(old(WritePick()).err, reply);
                && InsertOf(sent.value, info.table, data) && e == ReplyError(r)
                && connectName == old(WritePick()).connectName && connectWriteName == old(WritePick()).rw
                && sqls == ExecLog(old(sqls), sent.value.sql, r)
                && if r.Replied? then insertId == r.value.insertId && Cleared() else Query() == old(Query())
    {
      var keys := Enumerate(data.Keys);
      var built := BuildInsert(info.table, data, keys);
      if built.Failure? {
        return Some(built.error), None, 0;
      }
      sent := Some(built.value);
      assert InsertOf(built.value, info.table, data);
      var _, id, execErr := ExecSql(built.value.sql, built.value.args, reply);
      e, insertId := execErr, id;
    }

    /** Update (model.go:520-581): as Insert, but empty values are kept,
        the auto-set update fields are added, a condition is required and
        the number of affected rows is returned. */
    method Update(clock: Clock, reply: DriverReply<ExecReply>)
      returns (count: int, e: Option<Error>, saveData: Row, sent: Option<Statement>)
      requires Valid()
      requires AutoTagsWellFormed(TagValues(info.tagMap, "auto"))
      modifies this
      ensures Valid()
      ensures config == old(config) && info == old(info) && err == old(err) && connectName == old(connectName)
      ensures connectReadName == old(connectReadName) && connectWriteName == old(connectWriteName)
      ensures old(out).None? ==> e == Some(NoModel) && sent.None? && unchanged(this)
      ensures old(out).Some? && old(where).None? ==> e == Some(NoCondition) && sent.None? && unchanged(this)
      ensures old(out).Some? && old(where).Some? && old(err).Some? ==> e == old(err) && sent.None? && unchanged(this)
      ensures old(out).Some? && old(where).Some? && old(err).None? ==>
                var auto := AutoSet(TagValues(old(info).tagMap, "auto"), "update", clock);
                var r := Via(old(WritePick()).err, reply);
                && SaveDataOf(saveData, old(out).value, old(fields), false, old(info).tagMap, auto)
                && out == Some(WriteBack(old(out).value, auto))
                && (sent.Some? <==> |saveData| > 0)
                && (sent.None? ==> e == Some(NoSaveData) && count == 0 && sqls == old(sqls) && Query() == old(Query()))
                && (sent.Some? ==> UpdateOf(sent.value, info.table, saveData, old(where).value) &&
                                   e == ReplyError(r) && sqls == ExecLog(old(sqls), sent.value.sql, r))
                && (sent.Some? && r.Replied? ==> count == r.value.affected && Cleared())
                && (sent.Some? && !r.Replied? ==> count == 0 && Query() == old(Query()))
    {
      count := 0;
      if out.None? {
        return 0, Some(NoModel), map[], None;
      }
      if where.None? {
        return 0, Some(NoCondition), map[], None;
      }
      if err.Some? {
        return 0, err, map[], None;
      }
      var obj := out.value;
      var autoSet;
      saveData, autoSet := SaveData(obj, fields, info.tagMap, false, "update", clock);
      out := Some(WriteBack(obj, autoSet));
      count, e, sent := SendUpdate(saveData, reply);
    }

    /** Builds the UPDATE statement of `data` under the recorded conditions
        and executes it (model.go:566-580): nothing is sent for empty data. */
    method SendUpdate(data: Row, reply: DriverReply<ExecReply>) returns (count: int, e: Option<Error>, sent: Option<Statement>)
      requires Valid() && where.Some?
      modifies this
      ensures Valid() && config == old(config) && err == old(err) && info == old(info) && out == old(out)
      ensures connectReadName == old(connectReadName)
      ensures sent.Some? <==> |data| > 0
      ensures sent.None? ==> e == Some(NoSaveData) && count == 0 && unchanged(this)
      ensures sent.Some? ==>
                var r := Via(old(WritePick()).err, reply);
                && UpdateOf(sent.value, info.table, data, old(where).value) && e == ReplyError(r)
                && connectName == old(WritePick()).connectName && connectWriteName == old(WritePick()).rw
                && sqls == ExecLog(old(sqls), sent.value.sql, r)
                && if r.Replied? then count == r.value.affected && Cleared() else count == 0 && Query() == old(Query())
    {
      var keys := Enumerate(data.Keys);
      var whereKeys := Enumerate(where.value.Keys);
      var built := BuildUpdate(info.table, data, keys, where, whereKeys);
      if built.Failure? {
        return 0, Some(built.error), None;
      }
      sent := Some(built.value);
      assert UpdateOf(built.value, info.table, data, where.value);
      var c, _, execErr := ExecSql(built.value.sql, built.value.args, reply);
      count := if execErr.Some? then 0 else c;
      e := execErr;
    }

    /** InsertMap (model.go:501-518): the map is built before any guard. */
    method InsertMap(data: Row, reply: DriverReply<ExecReply>) returns (pk: int, e: Option<Error>, sent: Option<Statement>)
      requires Valid()
      modifies this
      ensures Valid()
      ensures config == old(config) && out == old(out) && info == old(info) && err == old(err)
      ensures connectReadName == old(connectReadName)
      ensures |data| == 0 ==> e == Some(NoSaveData) && sent.None? && unchanged(this)
      ensures |data| > 0 && old(err).Some? ==> e == old(err) && sent.None? && unchanged(this)
      ensures |data| > 0 && old(err).None? && old(info).table == "" ==> e == Some(NoTable) && sent.None? && unchanged(this)
      ensures |data| > 0 && old(err).None? && old(info).table != "" ==>
                var r := Via(old(WritePick()).err, reply);
                && sent.Some? && InsertOf(sent.value, old(info).table, data)
                && connectName == old(WritePick()).connectName && connectWriteName == old(WritePick()).rw
                && e == ReplyError(r) && sqls == ExecLog(old(sqls), sent.value.sql, r)
                && if r.Replied? then pk == r.value.insertId && Cleared() else pk == 0 && Query() == old(Query())
    {
      var keys := Enumerate(data.Keys);
      var built := BuildInsert(info.table, data, keys);
      if built.Failure? {
        return 0, Some(built.error), None;
      }
      if err.Some? {
        return 0, err, None;
      }
      if info.table == "" {
        return 0, Some(NoTable), None;
      }
      sent := Some(built.value);
      var _, id, execErr := ExecSql(built.value.sql, built.value.args, reply);
      pk, e := id, execErr;
    }

    /** UpdateMap (model.go:583-611). */
    method UpdateMap(data: Row, reply: DriverReply<ExecReply>) returns (count: int, e: Option<Error>, sent: Option<Statement>)
      requires Valid()
      modifies this
      ensures Valid()
      ensures config == old(config) && out == old(out) && info == old(info) && err == old(err)
      ensures connectReadName == old(connectReadName)
      ensures old(where).None? ==> e == Some(NoCondition) && sent.None? && unchanged(this)
      ensures old(where).Some? && old(err).Some? ==> e == old(err) && sent.None? && unchanged(this)
      ensures old(where).Some? && old(err).None? && old(info).table == "" ==> e == Some(NoTable) && sent.None? && unchanged(this)
      ensures old(where).Some? && old(err).None? && old(info).table != "" && |data| == 0 ==>
                e == Some(NoSaveData) && sent.None? && unchanged(this)
      ensures old(where).Some? && old(err).None? && old(info).table != "" && |data| > 0 ==>
                var r := Via(old(WritePick()).err, reply);
                && sent.Some? && UpdateOf(sent.value, old(info).table, data, old(where).value)
                && connectName == old(WritePick()).connectName && connectWriteName == old(WritePick()).rw
                && e == ReplyError(r) && sqls == ExecLog(old(sqls), sent.value.sql, r)
                && if r.Replied? then count == r.value.affected && Cleared() else count == 0 && Query() == old(Query())
    {
      if where.None? {
        return 0, Some(NoCondition), None;
      }
      if err.Some? {
        return 0, err, None;
      }
      if info.table == "" {
        return 0, Some(NoTable), None;
      }
      var keys := Enumerate(data.Keys);
      var whereKeys := Enumerate(where.value.Keys);
      var built := BuildUpdate(info.table, data, keys, where, whereKeys);
      if built.Failure? {
        return 0, Some(built.error), None;
      }
      sent := Some(built.value);
      var c, _, execErr := ExecSql(built.value.sql, built.value.args, reply);
      count := if execErr.Some? then 0 else c;
      e := execErr;
    }

    /** Delete (model.go:613-636). */
    method Delete(reply: DriverReply<ExecReply>) returns (count: int, e: Option<Error>, sent: Option<Statement>)
      requires Valid()
      modifies this
      ensures Valid()
      ensures config == old(config) && out == old(out) && info == old(info) && err == old(err)
      ensures connectReadName == old(connectReadName)
      ensures old(where).None? ==> e == Some(NoCondition) && sent.None? && unchanged(this)
      ensures old(where).Some? && old(err).Some? ==> e == old(err) && sent.None? && unchanged(this)
      ensures old(where).Some? && old(err).None? ==>
                var r := Via(old(WritePick()).err, reply);
                && sent.Some? && DeleteOf(sent.value, old(info).table, old(where).value)
                && connectName == old(WritePick()).connectName && connectWriteName == old(WritePick()).rw
                && e == ReplyError(r) && sqls == ExecLog(old(sqls), sent.value.sql, r)
                && if r.Replied? then count == r.value.affected && Cleared() else count == 0 && Query() == old(Query())
    {
      if where.None? {
        return 0, Some(NoCondition), None;
      }
      if err.Some? {
        return 0, err, None;
      }
      var keys := Enumerate(where.value.Keys);
      var st := BuildDelete(info.table, where, keys);
      sent := Some(st);
      var c, _, execErr := ExecSql(st.sql, st.args, reply);
      count := if execErr.Some? then 0 else c;
      e := execErr;
    }

    /** modelInfo.load (model.go:826-882) on this model's info. */
    method Load(m: Option<Obj>) returns (e: Option<Error>)
      modifies this
      ensures LoadedFrom(info, old(info), m, config)
      ensures e == LoadError(info, m, config)
      ensures config == old(config) && out == old(out) && sqls == old(sqls) && err == old(err)
      ensures connectName == old(connectName)
      ensures connectReadName == old(connectReadName) && connectWriteName == old(connectWriteName)
      ensures fields == old(fields) && where == old(where) && limit == old(limit) && order == old(order)
    {
      info, e := LoadInfo(info, m, config);
    }

    /** Model (model.go:884-892): binds a struct. The error `load` reports
        is dropped: it never reaches the error slot. */
    method Bind(m: Option<Obj>)
      requires Valid()
      modifies this
      ensures Valid() && Consistent()
      ensures out == m && LoadedFrom(info, old(info), m, config)
      ensures connectName == info.connectName && connectReadName == info.connectReadName
      ensures connectWriteName == info.connectWriteName
      ensures config == old(config) && sqls == old(sqls) && err == old(err)
      ensures Cleared()
    {
      Reset();
      out := m;
      var _ := Load(m);
      connectName := info.connectName;
      connectReadName := info.connectReadName;
      connectWriteName := info.connectWriteName;
    }
  }

  /** modelInfo.load (model.go:826-882): fills `before` in from the tags of
      the bound struct and resolves its connection names against `config`.
      The `pk` tags are visited in map order and the last "auto" one wins. */
  method LoadInfo(before: ModelInfo, m: Option<Obj>, config: Config) returns (info: ModelInfo, e: Option<Error>)
    ensures LoadedFrom(info, before, m, config)
    ensures e == LoadError(info, m, config)
  {
    info := before;
    if m.Some? {
      var tags := m.value.tags;
      info := info.(tagMap := tags);
      var table := Lookup(TagValues(tags, "table"), "orm");
      info := info.(table := table);
      if table == "" {
        return info, Some(NoTable);
      }
      var c := Lookup(TagValues(tags, "connect"), "orm");
      if c == "" {
        c := "default";
      }
      info := info.(connectName := c);
      var autoPk := FindAutoPk(TagValues(tags, "pk"), info.autoPk);
      info := info.(autoPk := autoPk);
    } else {
      info := info.(connectName := "default");
    }
    if info.connectName !in config {
      return info, Some(UndefinedConnect(info.connectName));
    }
    var connRead := info.connectName + "_read";
    if connRead in config {
      info := info.(connectReadName := connRead);
    } else {
      info := info.(connectReadName := info.connectName);
    }
    var connWrite := info.connectName + "_write";
    if connWrite in config {
      info := info.(connectWriteName := connWrite);
    } else {
      info := info.(connectWriteName := info.connectName);
    }
    e := None;
  }

  /** The save data of Insert and Update for the struct `obj`: its
      columns, filtered, with the auto-set fields of `action` added under
      their column names. */
  method SaveData(obj: Obj, fields: Option<seq<string>>, tagMap: TagMap, dropEmpty: bool, action: string, clock: Clock)
    returns (saveData: Row, autoSet: map<string, Value>)
    requires AutoTagsWellFormed(TagValues(tagMap, "auto"))
    ensures autoSet == AutoSet(TagValues(tagMap, "auto"), action, clock)
    ensures SaveDataOf(saveData, obj, fields, dropEmpty, tagMap, autoSet)
  {
    var mapper := Rename(obj.fields, TagValues(obj.tags, DbTag), map[]);
    var filtered := FilterSaveData(mapper, fields, dropEmpty);
    autoSet := CollectAutoSet(TagValues(tagMap, "auto"), action, clock);
    saveData := Rename(autoSet, TagValues(tagMap, DbTag), filtered);
    assert ColumnsOf(mapper, obj);
  }

  /** The save-data filter loop of Insert and Update over the struct's
      columns. */
  method FilterSaveData(mapper: Row, fs: Option<seq<string>>, dropEmpty: bool) returns (saveData: Row)
    ensures saveData == Saved(mapper, fs, dropEmpty)
  {
    saveData := map[];
    var keys := Enumerate(mapper.Keys);
    var i := 0;
    while i < |keys|
      invariant 0 <= i <= |keys|
      invariant forall k :: k in saveData <==>
                  k in keys[..i] && k in mapper && (fs.None? || k in fs.value) && !(dropEmpty && IsEmptyValue(mapper[k]))
      invariant forall k :: k in saveData ==> k in mapper && saveData[k] == mapper[k]
    {
      var key := keys[i];
      var value := mapper[key];
      assert keys[..i + 1] == keys[..i] + [key];
      i := i + 1;
      if fs.Some? && key !in fs.value {
        continue;
      }
      if dropEmpty && IsEmptyValue(value) {
        continue;
      }
      saveData := saveData[key := value];
    }
    assert keys[..i] == keys;
  }

  /** The loop of GetAutoSetField (model.go:412-427) over the `auto` tag
      values, visited in map order. */
  method CollectAutoSet(auto: map<string, string>, action: string, clock: Clock) returns (needSet: map<string, Value>)
    requires AutoTagsWellFormed(auto)
    ensures needSet == AutoSet(auto, action, clock)
  {
    needSet := map[];
    if |auto| != 0 {
      var keys := Enumerate(auto.Keys);
      var i := 0;
      while i < |keys|
        invariant 0 <= i <= |keys|
        invariant forall f :: f in needSet <==> f in keys[..i] && AutoEntry(auto[f], action, clock).Some?
        invariant forall f :: f in needSet ==> needSet[f] == AutoEntry(auto[f], action, clock).value
      {
        var field := keys[i];
        var entry := AutoField(auto[field], action, clock);
        if entry.Some? {
          needSet := needSet[field := entry.value];
        }
        assert keys[..i + 1] == keys[..i] + [field];
        i := i + 1;
      }
      assert keys[..i] == keys;
    }
    AutoSetPointwise(needSet, auto, action, clock);
  }

  lemma AutoSetPointwise(needSet: map<string, Value>, auto: map<string, string>, action: string, clock: Clock)
    requires AutoTagsWellFormed(auto)
    requires forall f :: f in needSet <==> f in auto && AutoEntry(auto[f], action, clock).Some?
    requires forall f :: f in needSet ==> needSet[f] == AutoEntry(auto[f], action, clock).value
    ensures needSet == AutoSet(auto, action, clock)
  {
  }

  /** The body of the GetAutoSetField loop (model.go:414-424) for one auto
      tag value: the kind before the comma, the methods after it. */
  method AutoField(tagVal: string, action: string, clock: Clock) returns (entry: Option<Value>)
    requires ',' in tagVal
    ensures entry == AutoEntry(tagVal, action, clock)
  {
    var tyAme := Split(tagVal, ',');
    AutoEntryParts(tagVal, action, clock);
    var methods := tyAme[1];
    entry := None;
    if action in Split(methods, '|') {
      if tyAme[0] == "timestr" {
        entry := Some(Str(clock.text));
      } else if tyAme[0] == "timeint" {
        entry := Some(Int(clock.unix));
      }
    }
  }

  /** The `pk` loop of modelInfo.load (model.go:853-860): the keys are
      visited in map order and the last one tagged "auto" is kept. */
  method FindAutoPk(pkMap: map<string, string>, before: string) returns (autoPk: string)
    ensures AutoPkFrom(autoPk, before, pkMap)
  {
    autoPk := before;
    if |pkMap| != 0 {
      var keys := Enumerate(pkMap.Keys);
      var i := 0;
      while i < |keys|
        invariant 0 <= i <= |keys|
        invariant (exists j :: 0 <= j < i && pkMap[keys[j]] == "auto") ==>
                    autoPk in pkMap && pkMap[autoPk] == "auto"
        invariant (forall j :: 0 <= j < i ==> pkMap[keys[j]] != "auto") ==> autoPk == before
      {
        if pkMap[keys[i]] == "auto" {
          autoPk := keys[i];
        }
        i := i + 1;
      }
      if exists k :: k in pkMap && pkMap[k] == "auto" {
        var k :| k in pkMap && pkMap[k] == "auto";
        assert k in keys;
      }
    } else {
      assert pkMap == map[];
    }
  }

  /** `Repeat(",?", n)[1:]` is n question marks separated by commas. */
  lemma {:induction false} RepeatMarks(n: nat)
    requires n >= 1
    ensures Repeat(",?", n)[1..] == Join(Marks(n), ",")
    decreases n
  {
    if n > 1 {
      RepeatMarks(n - 1);
      assert Marks(n) == ["?"] + Marks(n - 1);
      JoinCons("?", Marks(n - 1), ",");
      assert Repeat(",?", n)[1..] == "?" + Repeat(",?", n - 1);
      assert Repeat(",?", n - 1) == "," + Repeat(",?", n - 1)[1..];
    } else {
      assert Marks(1) == ["?"];
    }
  }

  /** The condition `WhereIn` builds has one `?` per parameter. */
  lemma InConditionCount(field: string, n: nat)
    requires n >= 1 && '?' !in field
    ensures InCondition(field, n) == field + " IN (" + Join(Marks(n), ",") + ")"
    ensures Count(InCondition(field, n), '?') == n
  {
    RepeatMarks(n);
    var marks := Join(Marks(n), ",");
    CountJoin(Marks(n), ",");
    CountMarks(n);
    CountAbsent(field + " IN (", '?');
    Count3(field + " IN (", marks, ")");
  }

  /* ---------- What the sent statements promise ---------- */

  /** Column names without `?`. */
  predicate PlainKeys(data: Row)
  {
    forall k :: k in data ==> '?' !in k
  }

  lemma PlainEnumeration(keys: seq<string>, data: Row)
    requires IsEnumeration(keys, data.Keys) && PlainKeys(data)
    ensures Plain(keys)
  {
    forall i | 0 <= i < |keys| ensures '?' !in keys[i] {
      assert keys[i] in keys;
    }
  }

  /** An INSERT the model sends binds one argument per placeholder. */
  lemma InsertBalanced(st: Statement, table: string, data: Row)
    requires InsertOf(st, table, data)
    requires PlainKeys(data) && '?' !in table
    ensures Count(st.sql, '?') == |st.args| == |data|
  {
    var keys :| IsEnumeration(keys, data.Keys) && st == Statement(InsertSql(table, keys), ValuesOf(keys, data));
    PlainEnumeration(keys, data);
    InsertPlaceholders(table, keys, data);
    EnumerationSize(keys, data.Keys);
  }

  /** So does an UPDATE, given a balanced condition map (the model only
      updates with a non-empty one). */
  lemma UpdateBalanced(st: Statement, table: string, data: Row, where: Where)
    requires UpdateOf(st, table, data, where)
    requires PlainKeys(data) && '?' !in table && Balanced(where) && |where| > 0
    ensures Count(st.sql, '?') == |st.args|
  {
    var keys, whereKeys :| IsEnumeration(keys, data.Keys) && IsEnumeration(whereKeys, where.Keys) &&
      st == Statement(UpdateSql(table, keys, Some(whereKeys)), ValuesOf(keys, data) + WhereArgs(whereKeys, where));
    PlainEnumeration(keys, data);
    UpdatePlaceholders(table, keys, data, Some(where), whereKeys);
  }

  /** So does a DELETE. */
  lemma DeleteBalanced(st: Statement, table: string, where: Where)
    requires DeleteOf(st, table, where)
    requires '?' !in table && Balanced(where) && |where| > 0
    ensures Count(st.sql, '?') == |st.args|
  {
    var keys :| IsEnumeration(keys, where.Keys) && st == Statement(DeleteSql(table, Some(keys)), WhereArgs(keys, where));
    DeletePlaceholders(table, Some(where), keys);
  }

  /** And a COUNT. */
  lemma CountBalanced(st: Statement, table: string, where: Option<Where>)
    requires CountOf(st, table, where)
    requires '?' !in table && (where.Some? ==> Balanced(where.value))
    ensures Count(st.sql, '?') == |st.args|
  {
    var keys :| WhereReady(where, keys) && st == Statement(CountSql(table, KeysIf(where, keys)), ArgsIf(where, keys));
    CountStatementPlaceholders(table, where, keys);
  }

  /** And a SELECT, given field and order names without `?`. */
  lemma SelectBalanced(st: Statement, fields: Option<seq<string>>, table: string, where: Option<Where>,
                       order: Option<seq<OrderItem>>, limit: Limit)
    requires SelectOf(st, fields, table, where, order, limit)
    requires '?' !in table && (where.Some? ==> Balanced(where.value))
    requires (fields.Some? ==> Plain(fields.value)) && PlainOrder(order)
    ensures Count(st.sql, '?') == |st.args|
  {
    var keys :| WhereReady(where, keys) &&
      st == Statement(SelectSql(fields, table, KeysIf(where, keys), order, limit), ArgsIf(where, keys));
    SelectPlaceholders(fields, table, where, keys, order, limit);
  }
}
