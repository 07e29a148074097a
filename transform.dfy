/** The value transforms of with_model.go: `tranSaveData` turns a struct's
    field values into what the database stores, `tranStructData` turns a
    row's values back into field values, each for the fields that carry a
    `json` or `time` transform annotation. The JSON codec, the clock's
    formatting and parsing and the loose conversions of the utility package
    are given functions (`Codec`); only the branch and skip structure of the
    transforms is modelled. */
module Transforms {
  import opened Values
  import opened GoStrings
  import opened Maps
  import opened Registry

  /** The library calls the transforms make. `None` is a failure. */
  datatype Codec = Codec(
    marshal: Value -> Option<string>,              // json.Marshal
    unmarshal: (string, GoType) -> Option<Value>,  // json.Unmarshal into a new value of the type
    toText: Value -> Option<string>,               // util.Interface2String(v, true)
    toInt: Value -> int,                           // util.Interface2Int(v, true)
    format: int -> string,                         // time.Unix(s, 0).Format("2006-01-02 15:04:05")
    parse: string -> Option<int>)                  // time.ParseInLocation(layout, s, time.Local).Unix()

  /** A field whose Go type's spelling contains "int" (with_model.go:521, :565). */
  predicate IntTyped(info: ModelInfo, field: string)
    requires field in info.fieldTyp
  {
    Contains(info.fieldTyp[field].text, "int")
  }

  /* ---------- struct values to database values ---------- */

  /** A `time` field of `data` has a recorded type (with_model.go:565
      calls `String()` on it). */
  predicate SaveReady(data: Row, info: ModelInfo)
  {
    forall f :: f in data && f in info.trans && info.trans[f].typ == "time" ==> f in info.fieldTyp
  }

  /** What `tranSaveData` stores for the transformed field `field`: JSON
      text; for an int field the formatted time; for another field the
      parsed time. A failing conversion leaves the value as it was. */
  function SaveValue(field: string, v: Value, info: ModelInfo, codec: Codec): Value
    requires field in info.trans
    requires info.trans[field].typ == "time" ==> field in info.fieldTyp
  {
    var t := info.trans[field].typ;
    if t == "json" then
      if codec.marshal(v).Some? then Str(codec.marshal(v).value) else v
    else if t == "time" then
      if IntTyped(info, field) then Str(codec.format(codec.toInt(v)))
      else if codec.toText(v).None? then v
      else if codec.parse(codec.toText(v).value).None? then v
      else Int(codec.parse(codec.toText(v).value).value)
    else v
  }

  /** What `tranSaveData(&data)` leaves in `data`. */
  function Saved(data: Row, info: ModelInfo, codec: Codec): Row
    requires SaveReady(data, info)
  {
    map f | f in data :: if f in info.trans then SaveValue(f, data[f], info, codec) else data[f]
  }

  /** The switch of `tranSaveData` for one field (with_model.go:555-584):
      `None` where the source `continue`s. */
  method SaveField(field: string, v: Value, info: ModelInfo, codec: Codec) returns (r: Option<Value>)
    requires field in info.trans
    requires info.trans[field].typ == "time" ==> field in info.fieldTyp
    ensures (if r.Some? then r.value else v) == SaveValue(field, v, info, codec)
  {
    r := None;
    var t := info.trans[field].typ;
    if t == "json" {
      var bs := codec.marshal(v);
      if bs.None? {
        return;
      }
      r := Some(Str(bs.value));
    } else if t == "time" {
      if Contains(info.fieldTyp[field].text, "int") {
        var s := codec.toInt(v);
        r := Some(Str(codec.format(s)));
      } else {
        var s := codec.toText(v);
        if s.None? {
          return;
        }
        var parsed := codec.parse(s.value);
        if parsed.None? {
          return;
        }
        r := Some(Int(parsed.value));
      }
    }
  }

  /** tranSaveData (with_model.go:548-588): the transform annotations are
      visited in map order; each touches only its own field. */
  method TranSaveData(data: Row, info: ModelInfo, codec: Codec) returns (out: Row)
    requires SaveReady(data, info)
    ensures out == Saved(data, info, codec)
  {
    out := data;
    var keys := Enumerate(info.trans.Keys);
    var i := 0;
    while i < |keys|
      invariant 0 <= i <= |keys|
      invariant forall f :: f in out <==> f in data
      invariant forall f :: f in out ==> out[f] == if f in keys[..i] then SaveValue(f, data[f], info, codec) else data[f]
    {
      var field := keys[i];
      TakeOneMore(keys, i);
      i := i + 1;
      if field !in out {
        continue;
      }
      var r := SaveField(field, out[field], info, codec);
      if r.Some? {
        out := out[field := r.value];
      }
    }
    TakeAll(keys);
  }

  /** Saving changes no key, and no value of a field without a transform. */
  lemma SavedKeeps(data: Row, info: ModelInfo, codec: Codec, f: string)
    requires SaveReady(data, info)
    ensures f in Saved(data, info, codec) <==> f in data
    ensures f in data && f !in info.trans ==> Saved(data, info, codec)[f] == data[f]
  {
  }

  /* ---------- database values to struct values ---------- */

  /** A `time` field, and a `json` field whose value reads as text, has a
      recorded type (with_model.go:511 and :521 use it). */
  predicate LoadReady(data: Row, info: ModelInfo, codec: Codec)
  {
    forall f :: f in data && f in info.trans && NeedsType(info.trans[f].typ, data[f], codec) ==> f in info.fieldTyp
  }

  predicate NeedsType(t: string, v: Value, codec: Codec)
  {
    t == "time" || (t == "json" && codec.toText(v).Some?)
  }

  /** What `tranStructData` does with the transformed field `field`:
      `None` deletes it (JSON text that does not decode); a value that is
      not text, or a time that does not parse, is kept. */
  function LoadValue(field: string, v: Value, info: ModelInfo, codec: Codec): Option<Value>
    requires field in info.trans
    requires NeedsType(info.trans[field].typ, v, codec) ==> field in info.fieldTyp
  {
    var t := info.trans[field].typ;
    if t == "json" then
      if codec.toText(v).None? then Some(v)
      else codec.unmarshal(codec.toText(v).value, info.fieldTyp[field])
    else if t == "time" then
      if IntTyped(info, field) then
        if codec.toText(v).None? then Some(v)
        else if codec.parse(codec.toText(v).value).None? then Some(v)
        else Some(Int(codec.parse(codec.toText(v).value).value))
      else Some(Str(codec.format(codec.toInt(v))))
    else Some(v)
  }

  /** What `tranStructData(&data)` leaves in `data`. */
  function Loaded(data: Row, info: ModelInfo, codec: Codec): Row
    requires LoadReady(data, info, codec)
  {
    map f | f in data && (f !in info.trans || LoadValue(f, data[f], info, codec).Some?) ::
      if f in info.trans then LoadValue(f, data[f], info, codec).value else data[f]
  }

  /** The switch of `tranStructData` for one field (with_model.go:502-541). */
  method LoadField(field: string, v: Value, info: ModelInfo, codec: Codec) returns (keep: bool, r: Option<Value>)
    requires field in info.trans
    requires NeedsType(info.trans[field].typ, v, codec) ==> field in info.fieldTyp
    ensures !keep ==> LoadValue(field, v, info, codec).None?
    ensures keep ==> LoadValue(field, v, info, codec) == Some(if r.Some? then r.value else v)
  {
    keep, r := true, None;
    var t := info.trans[field].typ;
    if t == "json" {
      var s := codec.toText(v);
      if s.None? {
        return;
      }
      var decoded := codec.unmarshal(s.value, info.fieldTyp[field]);
      if decoded.None? {
        keep := false;
      } else {
        r := decoded;
      }
    } else if t == "time" {
      if Contains(info.fieldTyp[field].text, "int") {
        var s := codec.toText(v);
        if s.None? {
          return;
        }
        var parsed := codec.parse(s.value);
        if parsed.None? {
          return;
        }
        r := Some(Int(parsed.value));
      } else {
        var s := codec.toInt(v);
        r := Some(Str(codec.format(s)));
      }
    }
  }

  /** tranStructData (with_model.go:495-545). */
  method TranStructData(data: Row, info: ModelInfo, codec: Codec) returns (out: Row)
    requires LoadReady(data, info, codec)
    ensures out == Loaded(data, info, codec)
  {
    out := data;
    var keys := Enumerate(info.trans.Keys);
    var i := 0;
    while i < |keys|
      invariant 0 <= i <= |keys|
      invariant forall f :: f in out <==>
                  f in data && (f !in keys[..i] || LoadValue(f, data[f], info, codec).Some?)
      invariant forall f :: f in out ==>
                  out[f] == if f in keys[..i] then LoadValue(f, data[f], info, codec).value else data[f]
    {
      var field := keys[i];
      TakeOneMore(keys, i);
      i := i + 1;
      if field !in out {
        continue;
      }
      var keep, r := LoadField(field, out[field], info, codec);
      if !keep {
        out := out - {field};
      } else if r.Some? {
        out := out[field := r.value];
      }
    }
    TakeAll(keys);
  }

  /** Loading adds no key and changes no field without a transform; the one
      field it removes is a `json` field whose text does not decode. */
  lemma LoadedKeeps(data: Row, info: ModelInfo, codec: Codec, f: string)
    requires LoadReady(data, info, codec)
    ensures f in Loaded(data, info, codec) ==> f in data
    ensures f in data && f !in info.trans ==> f in Loaded(data, info, codec) && Loaded(data, info, codec)[f] == data[f]
    ensures f in data && f !in Loaded(data, info, codec) <==>
              f in data && f in info.trans && info.trans[f].typ == "json" && codec.toText(data[f]).Some? &&
              codec.unmarshal(codec.toText(data[f]).value, info.fieldTyp[f]).None?
  {
  }

  /* ---------- saving then loading ---------- */

  /** The codec laws the round trips rely on: text reads back as itself, a
      whole number as itself, and a formatted time parses to its seconds. */
  ghost predicate TextAndTimeLaws(codec: Codec)
  {
    && (forall s :: codec.toText(Str(s)) == Some(s))
    && (forall n :: codec.toInt(Int(n)) == n)
    && (forall n :: codec.parse(codec.format(n)) == Some(n))
  }

  /** An int field with a `time` annotation is stored as formatted text and
      read back as the same seconds. */
  lemma IntTimeRoundTrip(field: string, n: int, info: ModelInfo, codec: Codec)
    requires field in info.trans && info.trans[field].typ == "time"
    requires field in info.fieldTyp && IntTyped(info, field)
    requires TextAndTimeLaws(codec)
    ensures SaveValue(field, Int(n), info, codec) == Str(codec.format(n))
    ensures LoadValue(field, SaveValue(field, Int(n), info, codec), info, codec) == Some(Int(n))
  {
    assert codec.toInt(Int(n)) == n;
    assert codec.toText(Str(codec.format(n))) == Some(codec.format(n));
  }

  /** A text field with a `time` annotation holding a canonical time text
      is stored as its seconds and read back as the same text. */
  lemma TextTimeRoundTrip(field: string, s: string, n: int, info: ModelInfo, codec: Codec)
    requires field in info.trans && info.trans[field].typ == "time"
    requires field in info.fieldTyp && !IntTyped(info, field)
    requires TextAndTimeLaws(codec)
    requires codec.parse(s) == Some(n) && codec.format(n) == s
    ensures SaveValue(field, Str(s), info, codec) == Int(n)
    ensures LoadValue(field, SaveValue(field, Str(s), info, codec), info, codec) == Some(Str(s))
  {
    assert codec.toText(Str(s)) == Some(s);
    assert codec.toInt(Int(n)) == n;
  }

  /** A `json` field whose encoding decodes back to the value round-trips. */
  lemma JsonRoundTrip(field: string, v: Value, info: ModelInfo, codec: Codec)
    requires field in info.trans && info.trans[field].typ == "json"
    requires field in info.fieldTyp
    requires TextAndTimeLaws(codec)
    requires codec.marshal(v).Some? && codec.unmarshal(codec.marshal(v).value, info.fieldTyp[field]) == Some(v)
    ensures LoadValue(field, SaveValue(field, v, info, codec), info, codec) == Some(v)
  {
    assert codec.toText(Str(codec.marshal(v).value)) == Some(codec.marshal(v).value);
  }
}
