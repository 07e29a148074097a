/** The column annotation of tests/default_test.go: a struct field's `orm`
    tag such as `col(id);pk(auto);` is read by `DecodeColumn` into a
    `Column` record. The first `;`-segment is the column name; every later
    segment is a clause `key` or `key(v1,v2,...)`, of which `pk`, `tran`
    and `auto` are understood and the rest ignored. */
module ColumnSpec {
  import opened GoStrings

  /** The `Auto` part of `Column`: when to fill the field, and how. */
  datatype Auto = Auto(when: string, typ: string)

  /** `Column` (tests/default_test.go:43-51). */
  datatype Column = Column(name: string, pk: string, tran: string, auto: Auto)

  /** The zero `Column` that `DecodeColumn` starts from, named `name`. */
  function Named(name: string): Column
  {
    Column(name, "", "", Auto("", ""))
  }

  /** The key of a clause: all of it without a `(`, else the text before
      the first `(`. */
  function ClauseKey(kv: string): string
  {
    Before(kv, '(')
  }

  /** The values of a clause: `[""]` without a `(`, else the text after the
      first `(` up to the next `(` or `)`, split on `,`. */
  function ClauseValues(kv: string): (values: seq<string>)
    ensures |values| >= 1
  {
    if '(' !in kv then [""] else Split(Before(Before(After(kv, '('), '('), ')'), ',')
  }

  /** The clause keys `DecodeColumn` distinguishes. */
  datatype Key = PkKey | TranKey | AutoKey | Ignored

  function KeyOf(key: string): Key
  {
    if key == "pk" then PkKey else if key == "tran" then TranKey else if key == "auto" then AutoKey else Ignored
  }

  /** A clause as read: its key and its values. */
  datatype Clause = Clause(key: Key, values: seq<string>)

  function Parse(kv: string): (r: Clause)
    ensures |r.values| >= 1
  {
    Clause(KeyOf(ClauseKey(kv)), ClauseValues(kv))
  }

  /** The clauses read in order. */
  function ParseAll(kvs: seq<string>): (r: seq<Clause>)
    ensures |r| == |kvs|
  {
    if |kvs| == 0 then [] else ParseAll(kvs[..|kvs| - 1]) + [Parse(kvs[|kvs| - 1])]
  }

  /** Reading a prefix gives a prefix. */
  lemma {:induction false} ParseAllPrefix(kvs: seq<string>, k: nat)
    requires k <= |kvs|
    ensures ParseAll(kvs[..k]) == ParseAll(kvs)[..k]
    decreases |kvs|
  {
    if k < |kvs| {
      var init := kvs[..|kvs| - 1];
      ParseAllPrefix(init, k);
      PrefixOfPrefix(kvs, k, |kvs| - 1);
      assert ParseAll(kvs)[..k] == ParseAll(init)[..k];
    } else {
      TakeAll(kvs);
    }
  }

  /** `auto` reads two values (tests/default_test.go:82 panics on fewer). */
  predicate Ready(clause: Clause)
  {
    |clause.values| >= 1 && (clause.key == AutoKey ==> |clause.values| >= 2)
  }

  predicate AllReady(clauses: seq<Clause>)
  {
    forall i :: 0 <= i < |clauses| ==> Ready(clauses[i])
  }

  /** What one clause does to the record. */
  function Apply(c: Column, clause: Clause): (r: Column)
    requires Ready(clause)
    ensures r.name == c.name
    ensures clause.key == Ignored ==> r == c
  {
    var values := clause.values;
    match clause.key
    case PkKey => c.(pk := values[0])
    case TranKey => c.(tran := values[0])
    case AutoKey => c.(auto := Auto(values[0], values[1]))
    case Ignored => c
  }

  /** The clauses applied in order. */
  function ApplyAll(c: Column, clauses: seq<Clause>): Column
    requires AllReady(clauses)
  {
    if |clauses| == 0 then c else Apply(ApplyAll(c, clauses[..|clauses| - 1]), clauses[|clauses| - 1])
  }

  /** One more clause, applied last. */
  lemma ApplyAllSnoc(c: Column, clauses: seq<Clause>, clause: Clause)
    requires AllReady(clauses) && Ready(clause)
    ensures AllReady(clauses + [clause])
    ensures ApplyAll(c, clauses + [clause]) == Apply(ApplyAll(c, clauses), clause)
  {
    assert (clauses + [clause])[..|clauses|] == clauses;
  }

  predicate AnnotationReady(dbData: string)
  {
    AllReady(ParseAll(Split(dbData, ';')[1..]))
  }

  /** What `DecodeColumn(dbData)` returns. */
  function Decoded(dbData: string): Column
    requires AnnotationReady(dbData)
  {
    var ds := Split(dbData, ';');
    ApplyAll(Named(ds[0]), ParseAll(ds[1..]))
  }

  /** The split of one clause into its key and its values
      (tests/default_test.go:62-72). */
  method ReadClause(kv: string) returns (key: string, values: seq<string>)
    ensures Clause(KeyOf(key), values) == Parse(kv)
  {
    key := "";
    values := [""];
    if '(' !in kv {
      key := kv;
    } else {
      var kAndV := Split(kv, '(');
      SplitHead(kv, '(');
      SplitSecond(kv, '(');
      key := kAndV[0];
      var v := Split(kAndV[1], ')')[0];
      SplitHead(kAndV[1], ')');
      values := Split(v, ',');
    }
  }

  /** The body of the clause loop (tests/default_test.go:61-86). */
  method ApplyClause(c: Column, kv: string) returns (r: Column)
    requires Ready(Parse(kv))
    ensures r == Apply(c, Parse(kv))
  {
    var key, values := ReadClause(kv);
    r := c;
    if key == "pk" {
      r := r.(pk := values[0]);
    } else if key == "tran" {
      r := r.(tran := values[0]);
    } else if key == "auto" {
      r := r.(auto := Auto(values[0], values[1]));
    }
  }

  /** DecodeColumn (tests/default_test.go:53-89): the record is filled in
      clause by clause. */
  method DecodeColumn(dbData: string) returns (c: Column)
    requires AnnotationReady(dbData)
    ensures c == Decoded(dbData)
  {
    c := Named("");
    var ds := Split(dbData, ';');
    ghost var kvs := ds[1..];
    var l := |ds|;
    if l > 0 {
      c := c.(name := ds[0]);
    }
    if l > 1 {
      var i := 1;
      while i < l
        invariant 1 <= i <= l
        invariant AllReady(ParseAll(kvs[..i - 1]))
        invariant c == ApplyAll(Named(ds[0]), ParseAll(kvs[..i - 1]))
      {
        NextClause(kvs, i - 1);
        assert kvs[i - 1] == ds[i];
        c := ApplyClause(c, ds[i]);
        ApplyAllSnoc(Named(ds[0]), ParseAll(kvs[..i - 1]), Parse(ds[i]));
        i := i + 1;
      }
    }
    TakeAll(kvs);
  }

  /** One turn of the clause loop reads the next clause. */
  lemma NextClause(kvs: seq<string>, i: nat)
    requires i < |kvs| && AllReady(ParseAll(kvs))
    ensures Ready(Parse(kvs[i]))
    ensures ParseAll(kvs[..i + 1]) == ParseAll(kvs[..i]) + [Parse(kvs[i])]
  {
    var pre := kvs[..i + 1];
    ParseAllPrefix(kvs, i + 1);
    PrefixOfPrefix(kvs, i, i + 1);
    assert pre[i] == kvs[i];
    assert ParseAll(pre) == ParseAll(kvs[..i]) + [Parse(kvs[i])];
    assert ParseAll(kvs)[i] == ParseAll(pre)[i];
  }

  /** The name is the first segment, whatever the clauses say. */
  lemma {:induction false} NameIsFirstSegment(c: Column, clauses: seq<Clause>)
    requires AllReady(clauses)
    ensures ApplyAll(c, clauses).name == c.name
    decreases |clauses|
  {
    if |clauses| > 0 {
      NameIsFirstSegment(c, clauses[..|clauses| - 1]);
    }
  }

  /** The part of the record a key writes. */
  function Slot(c: Column, key: Key): seq<string>
  {
    match key
    case PkKey => [c.pk]
    case TranKey => [c.tran]
    case AutoKey => [c.auto.when, c.auto.typ]
    case Ignored => []
  }

  /** What a clause writes into its key's slot. */
  function Written(clause: Clause): seq<string>
    requires Ready(clause)
  {
    match clause.key
    case AutoKey => clause.values[..2]
    case PkKey => clause.values[..1]
    case TranKey => clause.values[..1]
    case Ignored => []
  }

  /** The fields `pk`, `tran` and `auto` are each set by the LAST clause
      with their key. */
  lemma {:induction false} LastClauseWins(c: Column, clauses: seq<Clause>, j: nat)
    requires AllReady(clauses)
    requires j < |clauses|
    requires forall i :: j < i < |clauses| ==> clauses[i].key != clauses[j].key
    ensures Slot(ApplyAll(c, clauses), clauses[j].key) == Written(clauses[j])
    decreases |clauses|
  {
    var n := |clauses| - 1;
    var init := clauses[..n];
    if j < n {
      assert init[j] == clauses[j];
      LastClauseWins(c, init, j);
    }
  }

  /** With no clause of their key, they keep their start value. */
  lemma {:induction false} NoClauseKeeps(c: Column, clauses: seq<Clause>, key: Key)
    requires AllReady(clauses)
    requires forall i :: 0 <= i < |clauses| ==> clauses[i].key != key
    ensures Slot(ApplyAll(c, clauses), key) == Slot(c, key)
    decreases |clauses|
  {
    if |clauses| > 0 {
      NoClauseKeeps(c, clauses[..|clauses| - 1], key);
    }
  }

  /** The clause `pk(v)` reads key `pk` and the single value `v`. */
  lemma PkClause(v: string)
    requires '(' !in v && ')' !in v && ',' !in v
    ensures Parse("pk(" + v + ")") == Clause(PkKey, [v])
  {
    var kv := "pk(" + v + ")";
    var rest := v + ")";
    assert kv[2] == '(' && kv[..2] == "pk" && kv[3..] == rest;
    IndexOfAt(kv, '(', 2);
    assert rest[|v|] == ')' && rest[..|v|] == v;
    IndexOfAt(rest, ')', |v|);
    SplitNone(v, ',');
  }

  /** An annotation of a name and one clause, both free of `;`, ended by
      `;`: three segments, the last one empty. */
  lemma OneClauseSegments(name: string, clause: string)
    requires ';' !in name && ';' !in clause
    ensures Split(name + ";" + (clause + ";"), ';') == [name, clause, ""]
  {
    SplitNone("", ';');
    SplitAfter(clause, ';', "");
    assert clause + ";" == clause + [';'] + "";
    SplitAfter(name, ';', clause + ";");
  }

  /** An annotation `name;pk(v);`, as on the example models' key fields
      (`col(id);pk(auto);`): the column is named `name` and is a key of kind
      `v`; the empty clause after the last `;` changes nothing. */
  lemma PkAnnotation(name: string, v: string)
    requires ';' !in name
    requires '(' !in v && ')' !in v && ',' !in v && ';' !in v
    ensures var clause := "pk(" + v + ")";
            AnnotationReady(name + ";" + (clause + ";")) &&
            Decoded(name + ";" + (clause + ";")) == Column(name, v, "", Auto("", ""))
  {
    var clause := "pk(" + v + ")";
    assert ';' !in clause;
    OneClauseSegments(name, clause);
    PkClause(v);
    var pk := Clause(PkKey, [v]);
    var empty := Parse("");
    assert empty.key == Ignored;
    assert Split(name + ";" + (clause + ";"), ';')[1..] == [clause, ""];
    assert ParseAll([clause, ""]) == [pk, empty];
    ApplyAllSnoc(Named(name), [], pk);
    assert [] + [pk] == [pk];
    ApplyAllSnoc(Named(name), [pk], empty);
    assert [pk] + [empty] == [pk, empty];
  }
}
