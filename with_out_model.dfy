/** The table-level query object of with_out_model.go: a `WithOutModel`
    names a table and a connection, may carry a field list, a condition
    map, an order list and a pager, and keeps a sticky error that every
    statement method returns before building any SQL. It shares the
    statement builders of model.go. The driver's answer is a parameter;
    unlike `Model`, this object keeps no statement log. */
module TableQuery {
  import opened Values
  import opened Maps
  import opened SqlBuilder

  /** The save data rebuilt from `fields` (with_out_model.go:78-85 and
      :129-136): exactly the listed keys, a key missing from `data`
      standing for Go's nil. */
  function Picked(data: Row, fields: seq<string>): (r: Row)
  {
    map k | k in fields :: if k in data then data[k] else Null
  }

  /** Its keys are the listed fields, its values those of `data` or nil. */
  lemma PickedContents(data: Row, fields: seq<string>, k: string)
    ensures k in Picked(data, fields) <==> k in fields
    ensures k in Picked(data, fields) && k in data ==> Picked(data, fields)[k] == data[k]
    ensures k in Picked(data, fields) && k !in data ==> Picked(data, fields)[k] == Null
  {
  }

  /** An empty, non-nil field list leaves nothing to save. */
  lemma PickedNothing(data: Row)
    ensures |Picked(data, [])| == 0
  {
    assert Picked(data, []) == map[];
  }

  /** The filter loop itself: each listed field is copied in turn. */
  method PickFields(data: Row, fields: seq<string>) returns (temp: Row)
    ensures temp == Picked(data, fields)
  {
    temp := map[];
    var i := 0;
    while i < |fields|
      invariant 0 <= i <= |fields|
      invariant forall k :: k in temp <==> k in fields[..i]
      invariant forall k :: k in temp ==> temp[k] == if k in data then data[k] else Null
    {
      var k := fields[i];
      temp := temp[k := if k in data then data[k] else Null];
      assert fields[..i + 1] == fields[..i] + [k];
      i := i + 1;
    }
    assert fields[..i] == fields;
  }

  /** The save data `Insert` sends: filtered only when a field list is set. */
  function InsertData(data: Row, fields: Option<seq<string>>): Row
  {
    if fields.Some? then Picked(data, fields.value) else data
  }

  /** The save data `Update` sends: filtered only by a non-empty list. */
  function UpdateData(data: Row, fields: Option<seq<string>>): Row
  {
    if fields.Some? && |fields.value| != 0 then Picked(data, fields.value) else data
  }

  /** `Update` keeps the whole map when given an empty list, where `Insert`
      keeps nothing. */
  lemma EmptyFieldLists(data: Row)
    ensures UpdateData(data, Some([])) == data
    ensures |InsertData(data, Some([]))| == 0
  {
    PickedNothing(data);
  }

  class WithOutModel {
    var err: Option<Error>
    var connect: string
    var table: string
    var fields: Option<seq<string>>
    var where: Option<Where>
    var order: Option<seq<OrderItem>>
    var limit: Limit

    /** newWithOutModel (with_out_model.go:20-24). */
    constructor ()
      ensures err.None? && connect == "default" && table == ""
      ensures fields.None? && where.None? && order.None? && limit == Limit(0, 0)
    {
      err := None;
      connect := "default";
      table := "";
      fields := None;
      where := None;
      order := None;
      limit := Limit(0, 0);
    }

    /** Table (with_out_model.go:62-65). */
    method Table(table: string)
      modifies this
      ensures this.table == table
      ensures err == old(err) && connect == old(connect) && fields == old(fields)
      ensures where == old(where) && order == old(order) && limit == old(limit)
    {
      this.table := table;
    }

    /** Connect (with_out_model.go:67-70). */
    method Connect(connect: string)
      modifies this
      ensures this.connect == connect
      ensures err == old(err) && table == old(table) && fields == old(fields)
      ensures where == old(where) && order == old(order) && limit == old(limit)
    {
      this.connect := connect;
    }

    /** ExecSql (with_out_model.go:26-43): both counts stay zero on failure. */
    method ExecSql(sql: string, args: seq<Value>, reply: DriverReply<ExecReply>)
      returns (affectCount: int, lastInsertId: int, e: Option<Error>)
      ensures e == ReplyError(reply)
      ensures reply.Replied? ==> affectCount == reply.value.affected && lastInsertId == reply.value.insertId
      ensures !reply.Replied? ==> affectCount == 0 && lastInsertId == 0
    {
      if !reply.Replied? {
        return 0, 0, Some(reply.error);
      }
      lastInsertId := reply.value.insertId;
      affectCount := reply.value.affected;
      e := None;
    }

    /** QuerySql (with_out_model.go:44-60): no rows on failure. */
    method QuerySql(sql: string, args: seq<Value>, reply: DriverReply<seq<Row>>)
      returns (result: seq<Row>, e: Option<Error>)
      ensures e == ReplyError(reply)
      ensures result == if reply.Replied? then reply.value else []
    {
      if !reply.Replied? {
        return [], Some(reply.error);
      }
      result := reply.value;
      e := None;
    }

    /** Insert (with_out_model.go:72-96). */
    method Insert(saveData: Row, reply: DriverReply<ExecReply>) returns (id: int, e: Option<Error>, sent: Option<Statement>)
      ensures err.Some? ==> e == err && sent.None? && id == 0
      ensures err.None? && |InsertData(saveData, fields)| == 0 ==> e == Some(NoSaveData) && sent.None? && id == 0
      ensures err.None? && |InsertData(saveData, fields)| > 0 ==>
                sent.Some? && InsertOf(sent.value, table, InsertData(saveData, fields)) &&
                e == ReplyError(reply) && id == (if reply.Replied? then reply.value.insertId else 0)
    {
      if err.Some? {
        return 0, err, None;
      }
      var data := saveData;
      if fields.Some? {
        data := PickFields(saveData, fields.value);
      }
      var keys := Enumerate(data.Keys);
      var built := BuildInsert(table, data, keys);
      if built.Failure? {
        return 0, Some(built.error), None;
      }
      sent := Some(built.value);
      assert InsertOf(built.value, table, data);
      var _, insertId, execErr := ExecSql(built.value.sql, built.value.args, reply);
      id, e := insertId, execErr;
    }

    /** Delete (with_out_model.go:98-117). */
    method Delete(reply: DriverReply<ExecReply>) returns (affect: int, e: Option<Error>, sent: Option<Statement>)
      ensures err.Some? ==> e == err && sent.None? && affect == 0
      ensures err.None? && (where.None? || |where.value| == 0) ==> e == Some(NoWhereOnDelete) && sent.None? && affect == 0
      ensures err.None? && where.Some? && |where.value| > 0 ==>
                sent.Some? && DeleteOf(sent.value, table, where.value) &&
                e == ReplyError(reply) && affect == (if reply.Replied? then reply.value.affected else 0)
    {
      if err.Some? {
        return 0, err, None;
      }
      if where.None? || |where.value| == 0 {
        return 0, Some(NoWhereOnDelete), None;
      }
      var keys := Enumerate(where.value.Keys);
      var st := BuildDelete(table, where, keys);
      sent := Some(st);
      assert DeleteOf(st, table, where.value);
      var affected, _, execErr := ExecSql(st.sql, st.args, reply);
      affect, e := affected, execErr;
    }

    /** Update (with_out_model.go:119-147): what it returns is the insert
        id the driver reports, not the number of rows changed. */
    method Update(saveData: Row, reply: DriverReply<ExecReply>) returns (id: int, e: Option<Error>, sent: Option<Statement>)
      ensures err.Some? ==> e == err && sent.None? && id == 0
      ensures err.None? && (where.None? || |where.value| == 0) ==> e == Some(NoWhereOnUpdate) && sent.None? && id == 0
      ensures err.None? && where.Some? && |where.value| > 0 && |UpdateData(saveData, fields)| == 0 ==>
                e == Some(NoSaveData) && sent.None? && id == 0
      ensures err.None? && where.Some? && |where.value| > 0 && |UpdateData(saveData, fields)| > 0 ==>
                sent.Some? && UpdateOf(sent.value, table, UpdateData(saveData, fields), where.value) &&
                e == ReplyError(reply) && id == (if reply.Replied? then reply.value.insertId else 0)
    {
      if err.Some? {
        return 0, err, None;
      }
      if where.None? || |where.value| == 0 {
        return 0, Some(NoWhereOnUpdate), None;
      }
      var data := saveData;
      if fields.Some? && |fields.value| != 0 {
        data := PickFields(saveData, fields.value);
      }
      var keys := Enumerate(data.Keys);
      var whereKeys := Enumerate(where.value.Keys);
      var built := BuildUpdate(table, data, keys, where, whereKeys);
      if built.Failure? {
        return 0, Some(built.error), None;
      }
      sent := Some(built.value);
      assert UpdateOf(built.value, table, data, where.value);
      var _, insertId, execErr := ExecSql(built.value.sql, built.value.args, reply);
      id, e := insertId, execErr;
    }

    /** Select (with_out_model.go:149-164). A non-nil but empty condition
        map or order list makes the builder slice an empty string
        (model.go:698, :811), which panics. */
    method Select(reply: DriverReply<seq<Row>>) returns (result: seq<Row>, e: Option<Error>, sent: Option<Statement>)
      requires where.Some? ==> |where.value| > 0
      requires order.Some? ==> |order.value| > 0
      ensures err.Some? ==> e == err && sent.None? && result == []
      ensures err.None? ==>
                sent.Some? && SelectOf(sent.value, fields, table, where, order, limit) &&
                e == ReplyError(reply) && result == (if reply.Replied? then reply.value else [])
    {
      if err.Some? {
        return [], err, None;
      }
      var keys: seq<string> := [];
      if where.Some? {
        keys := Enumerate(where.value.Keys);
      }
      var st := BuildSelect(fields, table, where, keys, order, limit);
      sent := Some(st);
      assert SelectOf(st, fields, table, where, order, limit);
      result, e := QuerySql(st.sql, st.args, reply);
    }
  }
}
