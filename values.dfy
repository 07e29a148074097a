/** Values exchanged between the mapping layers and the database driver.

    Go's `interface{}` values become the tagged union `Value`; a result row
    (`map[string]interface{}`) becomes `Row`.  The error kinds of the package
    become the variants of `Error`, each with the exact message the source
    builds. */
module Values {

  datatype Option<+T> = None | Some(value: T)

  datatype Result<+T> = Success(value: T) | Failure(error: Error)

  /** A Go `interface{}` as it flows through the engine. `Opaque` stands for
      structured values (structs, pointers) the engine only passes along. */
  datatype Value =
    | Null
    | Bool(b: bool)
    | Int(i: int)
    | Str(s: string)
    | List(items: seq<Value>)
    | Opaque(tag: string)

  type Row = map<string, Value>

  /** The zero values of the variants. The reflection helper `IsEmptyValue`
      of the utility package is not part of this model; this is its reading
      for the values above. */
  predicate IsEmptyValue(v: Value) {
    match v
    case Null => true
    case Bool(b) => !b
    case Int(i) => i == 0
    case Str(s) => s == ""
    case List(items) => items == []
    case Opaque(_) => false
  }

  datatype Error =
    | UndefinedWhereField(condition: string, field: string)
    | PlaceholderMismatch
    | UndefinedConnect(name: string)
    | NoModel
    | NoCondition
    | NoSaveData
    | NoTable
    | NoWhereOnDelete
    | NoWhereOnUpdate
    | NotRegistered(typeName: string)
    | NotFound
    | Driver(text: string)
  {
    /** The text of the Go error value. */
    function Message(): string {
      match this
      case UndefinedWhereField(c, f) => "the where field(in '" + c + "') " + f + " is undefined in model"
      case PlaceholderMismatch => "where condition params len is must same as values len!"
      case UndefinedConnect(n) => "the connect `" + n + "` is undefined in dbConfig"
      case NoModel => "Insert func must called with model is not nil"
      case NoCondition => "you need set condition in Where()"
      case NoSaveData => "no save data on INSERT"
      case NoTable => "the model has not `table` field or Tag.name"
      case NoWhereOnDelete => "no where condition when DELETE"
      case NoWhereOnUpdate => "no where condition when UPDATE"
      case NotRegistered(t) => "can't found model " + t + ",forget register?"
      case NotFound => "data is not found"
      case Driver(t) => t
    }
  }

  /** What the driver's `Exec` reports: rows affected and the last insert id. */
  datatype ExecReply = ExecReply(affected: int, insertId: int)

  /** The wall clock as the auto-set fields read it: Unix seconds and the
      same instant formatted as "2006-01-02 15:04:05". */
  datatype Clock = Clock(unix: int, text: string)

  /** What the connection lookup and the driver answer for one statement. */
  datatype DriverReply<T> = ConnectFailed(error: Error) | DriverFailed(error: Error) | Replied(value: T)

  function ReplyError<T>(reply: DriverReply<T>): Option<Error>
  {
    if reply.Replied? then None else Some(reply.error)
  }
}
