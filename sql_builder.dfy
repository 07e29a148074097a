/** The SQL text builders of model.go: `buildSelectSql`, `buildInsertSql`,
    `buildUpdateSql`, `buildDeleteSql`, `buildCountSql` and `buildWhere`.

    Each builder is a method whose loops follow the Go code and whose
    postcondition ties its output to a specification function (`SelectSql`,
    `InsertSql`, ...). Go iterates the condition map and the save-data map in
    an unspecified order; here that order is the enumeration `keys` the caller
    passes. The lemmas at the end state what the statements promise: every
    `?` placeholder has exactly one bound argument, and the bound arguments do
    not depend on the iteration order up to permutation. */
module SqlBuilder {
  import opened Values
  import opened GoStrings
  import opened Maps

  /** A condition map: SQL fragment => the arguments of its placeholders. */
  type Where = map<string, seq<Value>>

  datatype OrderItem = OrderItem(field: string, desc: string)

  /** The Go `[2]int` pager: skip, count. */
  datatype Limit = Limit(skip: int, count: int)

  /** SQL text with its ordered argument list. */
  datatype Statement = Statement(sql: string, args: seq<Value>)

  /* ---------- Specification ---------- */

  /** The text a loop accumulates by adding `sep` and then each part. */
  function Prefixed(parts: seq<string>, sep: string): string
  {
    if |parts| == 0 then "" else Prefixed(parts[..|parts| - 1], sep) + sep + parts[|parts| - 1]
  }

  /** Dropping the first separator of the accumulated text leaves the join.
      The builders rely on this when they slice off `[2:]`, `[1:]` or `[5:]`. */
  lemma {:induction false} PrefixedIsJoin(parts: seq<string>, sep: string)
    requires |parts| >= 1
    ensures Prefixed(parts, sep) == sep + Join(parts, sep)
    decreases |parts|
  {
    if |parts| > 1 {
      var init := parts[..|parts| - 1];
      PrefixedIsJoin(init, sep);
      JoinSnoc(init, parts[|parts| - 1], sep);
      assert init + [parts[|parts| - 1]] == parts;
    }
  }

  function Paren(k: string): string { "( " + k + " )" }

  function Parens(keys: seq<string>): (r: seq<string>)
    ensures |r| == |keys|
    ensures forall i :: 0 <= i < |keys| ==> r[i] == Paren(keys[i])
  {
    seq(|keys|, i requires 0 <= i < |keys| => Paren(keys[i]))
  }

  /** The WHERE text: every condition parenthesised, joined by " AND ",
      after one leading space: " ( k1 ) AND ( k2 )". */
  function WhereText(keys: seq<string>): string
  {
    " " + Join(Parens(keys), " AND ")
  }

  /** The arguments of the conditions, concatenated in iteration order. */
  function WhereArgs(keys: seq<string>, where: Where): seq<Value>
    requires forall k :: k in keys ==> k in where
  {
    if |keys| == 0 then [] else WhereArgs(keys[..|keys| - 1], where) + where[keys[|keys| - 1]]
  }

  /** The values of `data` in the order of `keys`. */
  function ValuesOf(keys: seq<string>, data: map<string, Value>): (r: seq<Value>)
    requires forall k :: k in keys ==> k in data
    ensures |r| == |keys|
  {
    seq(|keys|, i requires 0 <= i < |keys| => data[keys[i]])
  }

  function Marks(n: nat): seq<string> { seq(n, _ => "?") }

  function InsertSql(table: string, keys: seq<string>): string
  {
    "INSERT INTO " + table + " (" + Join(keys, ", ") + " ) VALUES ( " + Join(Marks(|keys|), ", ") + " )"
  }

  function Assignments(keys: seq<string>): seq<string>
  {
    seq(|keys|, i requires 0 <= i < |keys| => keys[i] + "= ?")
  }

  /** The optional WHERE part shared by SELECT and UPDATE. */
  function WherePart(whereKeys: Option<seq<string>>): string
  {
    if whereKeys.Some? then "WHERE " + WhereText(whereKeys.value) + " " else ""
  }

  /** The optional WHERE part of DELETE and COUNT, wrapped once more. */
  function WrappedWherePart(whereKeys: Option<seq<string>>): string
  {
    if whereKeys.Some? then "WHERE (" + WhereText(whereKeys.value) + ") " else ""
  }

  function UpdateSql(table: string, keys: seq<string>, whereKeys: Option<seq<string>>): string
  {
    "UPDATE " + table + " SET " + Join(Assignments(keys), ", ") + " " + WherePart(whereKeys)
  }

  function FieldList(fields: Option<seq<string>>): string
  {
    if fields.None? || |fields.value| == 0 then "*" else Join(fields.value, ",")
  }

  function OrderTerms(order: seq<OrderItem>): seq<string>
  {
    seq(|order|, i requires 0 <= i < |order| => order[i].field + " " + order[i].desc)
  }

  function OrderPart(order: Option<seq<OrderItem>>): string
  {
    if order.Some? then "ORDER BY " + Join(OrderTerms(order.value), ",") + " " else ""
  }

  function LimitPart(limit: Limit): string
  {
    if limit.skip != 0 || limit.count != 0
    then "LIMIT " + Decimal(limit.skip) + "," + Decimal(limit.count) + " "
    else ""
  }

  function SelectSql(fields: Option<seq<string>>, table: string, whereKeys: Option<seq<string>>,
                     order: Option<seq<OrderItem>>, limit: Limit): string
  {
    "SELECT " + FieldList(fields) + " " + "FROM `" + table + "` "
      + WherePart(whereKeys) + OrderPart(order) + LimitPart(limit)
  }

  function DeleteSql(table: string, whereKeys: Option<seq<string>>): string
  {
    "DELETE FROM " + table + " " + WrappedWherePart(whereKeys)
  }

  function CountSql(table: string, whereKeys: Option<seq<string>>): string
  {
    "SELECT COUNT(*) as count FROM " + table + " " + WrappedWherePart(whereKeys)
  }

  /** What a builder that takes an optional condition map demands: a present
      map is non-empty (`buildWhere` slices `[5:]` off its text) and `keys`
      is one of its iteration orders. */
  ghost predicate WhereReady(where: Option<Where>, keys: seq<string>)
  {
    where.Some? ==> |where.value| > 0 && IsEnumeration(keys, where.value.Keys)
  }

  function KeysIf(where: Option<Where>, keys: seq<string>): Option<seq<string>>
  {
    if where.Some? then Some(keys) else None
  }

  function ArgsIf(where: Option<Where>, keys: seq<string>): seq<Value>
    requires WhereReady(where, keys)
  {
    if where.Some? then WhereArgs(keys, where.value) else []
  }

  /* ---------- The statements of a map, in some iteration order ---------- */

  /** `st` is the INSERT statement of `data` in one of its iteration orders. */
  ghost predicate InsertOf(st: Statement, table: string, data: Row)
  {
    exists keys :: IsEnumeration(keys, data.Keys) && st == Statement(InsertSql(table, keys), ValuesOf(keys, data))
  }

  ghost predicate UpdateOf(st: Statement, table: string, data: Row, where: Where)
  {
    exists keys, whereKeys {:trigger IsEnumeration(keys, data.Keys), IsEnumeration(whereKeys, where.Keys)} ::
      IsEnumeration(keys, data.Keys) && IsEnumeration(whereKeys, where.Keys) &&
      st == Statement(UpdateSql(table, keys, Some(whereKeys)), ValuesOf(keys, data) + WhereArgs(whereKeys, where))
  }

  ghost predicate DeleteOf(st: Statement, table: string, where: Where)
  {
    exists keys :: IsEnumeration(keys, where.Keys) &&
      st == Statement(DeleteSql(table, Some(keys)), WhereArgs(keys, where))
  }

  ghost predicate CountOf(st: Statement, table: string, where: Option<Where>)
  {
    exists keys :: WhereReady(where, keys) &&
      st == Statement(CountSql(table, KeysIf(where, keys)), ArgsIf(where, keys))
  }

  ghost predicate SelectOf(st: Statement, fields: Option<seq<string>>, table: string, where: Option<Where>,
                           order: Option<seq<OrderItem>>, limit: Limit)
  {
    exists keys :: WhereReady(where, keys) &&
      st == Statement(SelectSql(fields, table, KeysIf(where, keys), order, limit), ArgsIf(where, keys))
  }

  /* ---------- The builders ---------- */

  /** Appending one argument list to another, element by element. */
  method AppendAll(args: seq<Value>, more: seq<Value>) returns (r: seq<Value>)
    ensures r == args + more
  {
    r := args;
    var i := 0;
    while i < |more|
      invariant 0 <= i <= |more|
      invariant r == args + more[..i]
    {
      r := r + [more[i]];
      i := i + 1;
    }
    assert more[..i] == more;
  }

  lemma AndParen(a: string, b: string, key: string)
    ensures a + b + " AND ( " + key + " )" == a + (b + " AND " + Paren(key))
  {
  }

  lemma PrefixedSnoc(parts: seq<string>, x: string, sep: string)
    ensures Prefixed(parts + [x], sep) == Prefixed(parts, sep) + sep + x
  {
    assert (parts + [x])[..|parts|] == parts;
  }

  lemma DropAndPrefix(parts: seq<string>)
    requires |parts| >= 1
    ensures (" " + Prefixed(parts, " AND "))[5..] == " " + Join(parts, " AND ")
  {
    PrefixedIsJoin(parts, " AND ");
    DropFront(" ", " AND ", Join(parts, " AND "));
  }

  lemma DropFront(a: string, sep: string, j: string)
    requires |a| == 1 && |sep| >= 1
    ensures (a + (sep + j))[|sep|..] == sep[|sep| - 1..] + j
  {
    assert a + (sep + j) == (a + sep[..|sep| - 1]) + (sep[|sep| - 1..] + j);
  }

  /** buildWhere (model.go:799-815) for a non-nil map. */
  method BuildWhere(where: Where, keys: seq<string>) returns (text: string, args: seq<Value>)
    requires |where| > 0 && IsEnumeration(keys, where.Keys)
    ensures text == WhereText(keys)
    ensures args == WhereArgs(keys, where)
  {
    args := [];
    text := " ";
    var i := 0;
    while i < |keys|
      invariant 0 <= i <= |keys|
      invariant text == " " + Prefixed(Parens(keys[..i]), " AND ")
      invariant args == WhereArgs(keys[..i], where)
    {
      var key := keys[i];
      ghost var before := Prefixed(Parens(keys[..i]), " AND ");
      assert Prefixed(Parens(keys[..i + 1]), " AND ") == before + " AND " + Paren(key) by {
        assert keys[..i + 1][..i] == keys[..i];
        assert Parens(keys[..i + 1]) == Parens(keys[..i]) + [Paren(key)];
        PrefixedSnoc(Parens(keys[..i]), Paren(key), " AND ");
      }
      assert text + " AND ( " + key + " )" == " " + (before + " AND " + Paren(key)) by {
        AndParen(" ", before, key);
      }
      text := text + " AND ( " + key + " )";
      args := AppendAll(args, where[key]);
      assert keys[..i + 1][..i] == keys[..i];
      i := i + 1;
    }
    assert keys[..i] == keys;
    var k :| k in where;
    assert k in keys;
    DropAndPrefix(Parens(keys));
    text := text[5..];
  }

  /** buildInsertSql (model.go:711-736). */
  method BuildInsert(table: string, data: map<string, Value>, keys: seq<string>) returns (r: Result<Statement>)
    requires IsEnumeration(keys, data.Keys)
    ensures r.Failure? <==> |data| == 0
    ensures r.Failure? ==> r.error == NoSaveData
    ensures r.Success? ==> r.value == Statement(InsertSql(table, keys), ValuesOf(keys, data))
  {
    EnumerationSize(keys, data.Keys);
    if |data| == 0 {
      return Failure(NoSaveData);
    }
    var args: seq<Value> := [];
    var sql := "INSERT INTO " + table + " (";
    var fieldsStr := "";
    var holderStr := "";
    var i := 0;
    while i < |keys|
      invariant 0 <= i <= |keys|
      invariant fieldsStr == Prefixed(keys[..i], ", ")
      invariant holderStr == Prefixed(Marks(i), ", ")
      invariant args == ValuesOf(keys[..i], data)
    {
      fieldsStr := fieldsStr + ", " + keys[i];
      holderStr := holderStr + ", ?";
      args := args + [data[keys[i]]];
      assert keys[..i + 1][..i] == keys[..i];
      assert Marks(i + 1)[..i] == Marks(i);
      i := i + 1;
    }
    assert keys[..i] == keys;
    PrefixedIsJoin(keys, ", ");
    PrefixedIsJoin(Marks(|keys|), ", ");
    fieldsStr := fieldsStr[2..];
    holderStr := holderStr[2..];
    sql := sql + fieldsStr + " ) VALUES ( " + holderStr + " )";
    return Success(Statement(sql, args));
  }

  /** buildUpdateSql (model.go:738-769). */
  method BuildUpdate(table: string, data: map<string, Value>, keys: seq<string>,
                     where: Option<Where>, whereKeys: seq<string>) returns (r: Result<Statement>)
    requires IsEnumeration(keys, data.Keys)
    requires WhereReady(where, whereKeys)
    ensures r.Failure? <==> |data| == 0
    ensures r.Failure? ==> r.error == NoSaveData
    ensures r.Success? ==> r.value == Statement(UpdateSql(table, keys, KeysIf(where, whereKeys)),
                                               ValuesOf(keys, data) + ArgsIf(where, whereKeys))
  {
    EnumerationSize(keys, data.Keys);
    if |data| == 0 {
      return Failure(NoSaveData);
    }
    var args: seq<Value> := [];
    var sql := "UPDATE " + table + " SET ";
    var fieldsStr := "";
    var i := 0;
    while i < |keys|
      invariant 0 <= i <= |keys|
      invariant fieldsStr == Prefixed(Assignments(keys[..i]), ", ")
      invariant args == ValuesOf(keys[..i], data)
    {
      fieldsStr := fieldsStr + ", " + keys[i] + "= ?";
      args := args + [data[keys[i]]];
      assert keys[..i + 1][..i] == keys[..i];
      assert Assignments(keys[..i + 1]) == Assignments(keys[..i]) + [keys[i] + "= ?"];
      i := i + 1;
    }
    assert keys[..i] == keys;
    PrefixedIsJoin(Assignments(keys), ", ");
    fieldsStr := fieldsStr[2..];
    sql := sql + fieldsStr + " ";
    var wherePart, whereArgs := WhereClause(where, whereKeys);
    args := AppendAll(args, whereArgs);
    sql := sql + wherePart;
    return Success(Statement(sql, args));
  }

  /** The ORDER BY loop of buildSelectSql (model.go:694-698). */
  method OrderString(items: seq<OrderItem>) returns (orderString: string)
    requires |items| > 0
    ensures orderString == Join(OrderTerms(items), ",")
  {
    orderString := "";
    var i := 0;
    while i < |items|
      invariant 0 <= i <= |items|
      invariant orderString == Prefixed(OrderTerms(items[..i]), ",")
    {
      orderString := orderString + "," + items[i].field + " " + items[i].desc;
      assert OrderTerms(items[..i + 1]) == OrderTerms(items[..i]) + [items[i].field + " " + items[i].desc];
      i := i + 1;
    }
    assert items[..i] == items;
    PrefixedIsJoin(OrderTerms(items), ",");
    orderString := orderString[1..];
  }

  /** `strings.Join`, as the loop the Go library runs. */
  method JoinWith(parts: seq<string>, sep: string) returns (r: string)
    requires |parts| > 0
    ensures r == Join(parts, sep)
  {
    r := parts[0];
    var i := 1;
    while i < |parts|
      invariant 1 <= i <= |parts|
      invariant r == Join(parts[..i], sep)
    {
      JoinSnoc(parts[..i], parts[i], sep);
      assert parts[..i + 1] == parts[..i] + [parts[i]];
      r := r + sep + parts[i];
      i := i + 1;
    }
    assert parts[..i] == parts;
  }

  /** The WHERE block shared by buildSelectSql and buildUpdateSql
      (model.go:682-690, model.go:760-767): nothing for a nil map. */
  method WhereClause(where: Option<Where>, whereKeys: seq<string>) returns (part: string, args: seq<Value>)
    requires WhereReady(where, whereKeys)
    ensures part == WherePart(KeysIf(where, whereKeys))
    ensures args == ArgsIf(where, whereKeys)
  {
    part, args := "", [];
    if where.Some? {
      var whereString, whereArgs := BuildWhere(where.value, whereKeys);
      args := AppendAll(args, whereArgs);
      part := "WHERE " + whereString + " ";
    }
  }

  /** The ORDER BY block of buildSelectSql (model.go:692-701). */
  method OrderClause(order: Option<seq<OrderItem>>) returns (part: string)
    requires order.Some? ==> |order.value| > 0
    ensures part == OrderPart(order)
  {
    part := "";
    if order.Some? {
      var orderString := OrderString(order.value);
      part := "ORDER BY " + orderString + " ";
    }
  }

  /** The LIMIT block of buildSelectSql (model.go:703-706). */
  method LimitClause(limit: Limit) returns (part: string)
    ensures part == LimitPart(limit)
  {
    part := "";
    if limit.skip != 0 || limit.count != 0 {
      part := "LIMIT " + Decimal(limit.skip) + "," + Decimal(limit.count) + " ";
    }
  }

  /** buildSelectSql (model.go:665-709). A non-nil order list must be
      non-empty: `orderString[1:]` at model.go:698 slices the empty string
      otherwise. The Go function never reports an error. */
  method BuildSelect(fields: Option<seq<string>>, table: string, where: Option<Where>, whereKeys: seq<string>,
                     order: Option<seq<OrderItem>>, limit: Limit) returns (st: Statement)
    requires WhereReady(where, whereKeys)
    requires order.Some? ==> |order.value| > 0
    ensures st == Statement(SelectSql(fields, table, KeysIf(where, whereKeys), order, limit), ArgsIf(where, whereKeys))
  {
    var sql := "SELECT ";
    var fieldString := "*";
    if fields.Some? && |fields.value| != 0 {
      fieldString := JoinWith(fields.value, ",");
    }
    sql := sql + fieldString + " ";
    sql := sql + "FROM `" + table + "` ";
    var wherePart, args := WhereClause(where, whereKeys);
    sql := sql + wherePart;
    var orderPart := OrderClause(order);
    sql := sql + orderPart;
    var limitPart := LimitClause(limit);
    sql := sql + limitPart;
    st := Statement(sql, args);
  }

  /** buildDeleteSql (model.go:771-783). */
  method BuildDelete(table: string, where: Option<Where>, whereKeys: seq<string>) returns (st: Statement)
    requires WhereReady(where, whereKeys)
    ensures st == Statement(DeleteSql(table, KeysIf(where, whereKeys)), ArgsIf(where, whereKeys))
  {
    var args: seq<Value> := [];
    var sql := "DELETE FROM " + table + " ";
    if where.Some? {
      var whereString, whereArgs := BuildWhere(where.value, whereKeys);
      args := whereArgs;
      sql := sql + "WHERE (" + whereString + ") ";
    }
    st := Statement(sql, args);
  }

  /** buildCountSql (model.go:785-796). */
  method BuildCount(table: string, where: Option<Where>, whereKeys: seq<string>) returns (st: Statement)
    requires WhereReady(where, whereKeys)
    ensures st == Statement(CountSql(table, KeysIf(where, whereKeys)), ArgsIf(where, whereKeys))
  {
    var args: seq<Value> := [];
    var sql := "SELECT COUNT(*) as count FROM " + table + " ";
    if where.Some? {
      var whereString, whereArgs := BuildWhere(where.value, whereKeys);
      args := whereArgs;
      sql := sql + "WHERE (" + whereString + ") ";
    }
    st := Statement(sql, args);
  }
}
