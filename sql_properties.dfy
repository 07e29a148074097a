/** What the built statements promise to the driver.

    A condition map is *balanced* when every condition carries exactly as many
    arguments as it has `?` placeholders; `Model.Where` keeps this (it refuses
    a condition whose counts differ). For a balanced map and identifiers
    without `?`, every statement the builders produce has exactly one bound
    argument per placeholder. The bound arguments depend on the map's
    iteration order only up to permutation, and the placeholders of the
    WHERE text always line up with them. */
module SqlProperties {
  import opened Values
  import opened GoStrings
  import opened Maps
  import opened SqlBuilder

  /** Every condition has as many `?` as arguments. */
  predicate Balanced(where: Where)
  {
    forall k {:trigger where[k]} :: k in where ==> Count(k, '?') == |where[k]|
  }

  /** No `?` in a list of identifiers. */
  predicate Plain(names: seq<string>)
  {
    forall i :: 0 <= i < |names| ==> '?' !in names[i]
  }

  predicate PlainOrder(order: Option<seq<OrderItem>>)
  {
    order.Some? ==> forall i :: 0 <= i < |order.value| ==> '?' !in order.value[i].field && '?' !in order.value[i].desc
  }

  /** The `?` of every part, added up. */
  function CountAll(parts: seq<string>): nat
  {
    if |parts| == 0 then 0 else Count(parts[0], '?') + CountAll(parts[1..])
  }

  lemma {:induction false} CountAllSnoc(parts: seq<string>, x: string)
    ensures CountAll(parts + [x]) == CountAll(parts) + Count(x, '?')
    decreases |parts|
  {
    if |parts| > 0 {
      assert (parts + [x])[1..] == parts[1..] + [x];
      CountAllSnoc(parts[1..], x);
    } else {
      assert [x][1..] == [];
    }
  }

  /** `a + b + c` has the `?` of its three pieces. */
  lemma Count3(a: string, b: string, c: string)
    ensures Count(a + b + c, '?') == Count(a, '?') + Count(b, '?') + Count(c, '?')
  {
    CountAppend(a, b, '?');
    CountAppend(a + b, c, '?');
  }

  /** A separator without `?` adds no placeholder to a join. */
  lemma {:induction false} CountJoin(parts: seq<string>, sep: string)
    requires '?' !in sep
    ensures Count(Join(parts, sep), '?') == CountAll(parts)
    decreases |parts|
  {
    if |parts| == 1 {
      assert parts[1..] == [];
    } else if |parts| > 1 {
      CountJoin(parts[1..], sep);
      CountAbsent(sep, '?');
      Count3(parts[0], sep, Join(parts[1..], sep));
    }
  }

  lemma {:induction false} CountPlain(names: seq<string>)
    requires Plain(names)
    ensures CountAll(names) == 0
    decreases |names|
  {
    if |names| > 0 {
      CountAbsent(names[0], '?');
      CountPlain(names[1..]);
    }
  }

  lemma {:induction false} CountMarks(n: nat)
    ensures CountAll(Marks(n)) == n
    decreases n
  {
    if n > 0 {
      assert Marks(n)[1..] == Marks(n - 1);
      CountMarks(n - 1);
    }
  }

  lemma {:induction false} CountAssignments(keys: seq<string>)
    requires Plain(keys)
    ensures CountAll(Assignments(keys)) == |keys|
    decreases |keys|
  {
    if |keys| > 0 {
      assert Assignments(keys)[1..] == Assignments(keys[1..]);
      CountAssignments(keys[1..]);
      CountAbsent(keys[0], '?');
      CountAppend(keys[0], "= ?", '?');
    }
  }

  lemma CountOrderTerms(order: seq<OrderItem>)
    requires PlainOrder(Some(order))
    ensures CountAll(OrderTerms(order)) == 0
  {
    CountPlain(OrderTerms(order));
  }

  lemma {:induction false} CountParens(keys: seq<string>, where: Where)
    requires forall k :: k in keys ==> k in where
    requires Balanced(where)
    ensures CountAll(Parens(keys)) == |WhereArgs(keys, where)|
    decreases |keys|
  {
    if |keys| > 0 {
      var init := keys[..|keys| - 1];
      var last := keys[|keys| - 1];
      assert keys == init + [last];
      CountParens(init, where);
      assert WhereArgs(keys, where) == WhereArgs(init, where) + where[last];
      assert Parens(keys) == Parens(init) + [Paren(last)];
      CountAllSnoc(Parens(init), Paren(last));
      Count3("( ", last, " )");
      assert Count(Paren(last), '?') == |where[last]|;
    }
  }

  /** The WHERE text has one `?` per argument `buildWhere` returns. */
  lemma WhereTextCount(keys: seq<string>, where: Where)
    requires forall k :: k in keys ==> k in where
    requires Balanced(where)
    ensures Count(WhereText(keys), '?') == |WhereArgs(keys, where)|
  {
    CountJoin(Parens(keys), " AND ");
    CountParens(keys, where);
    CountAppend(" ", Join(Parens(keys), " AND "), '?');
  }

  lemma WherePartCount(where: Option<Where>, keys: seq<string>)
    requires WhereReady(where, keys)
    requires where.Some? ==> Balanced(where.value)
    ensures Count(WherePart(KeysIf(where, keys)), '?') == |ArgsIf(where, keys)|
    ensures Count(WrappedWherePart(KeysIf(where, keys)), '?') == |ArgsIf(where, keys)|
  {
    if where.Some? {
      var t := WhereText(keys);
      WhereTextCount(keys, where.value);
      Count3("WHERE ", t, " ");
      Count3("WHERE (", t, ") ");
    }
  }

  lemma FieldListCount(fields: Option<seq<string>>)
    requires fields.Some? ==> Plain(fields.value)
    ensures Count(FieldList(fields), '?') == 0
  {
    if fields.Some? && |fields.value| > 0 {
      CountJoin(fields.value, ",");
      CountPlain(fields.value);
    }
  }

  lemma OrderPartCount(order: Option<seq<OrderItem>>)
    requires PlainOrder(order)
    ensures Count(OrderPart(order), '?') == 0
  {
    if order.Some? {
      var terms := OrderTerms(order.value);
      CountJoin(terms, ",");
      CountOrderTerms(order.value);
      Count3("ORDER BY ", Join(terms, ","), " ");
    }
  }

  lemma LimitPartCount(limit: Limit)
    ensures Count(LimitPart(limit), '?') == 0
  {
    if limit.skip != 0 || limit.count != 0 {
      var text := "LIMIT " + Decimal(limit.skip) + "," + Decimal(limit.count) + " ";
      assert '?' !in text;
      CountAbsent(text, '?');
    }
  }

  /** SELECT: placeholders and arguments agree. */
  lemma SelectPlaceholders(fields: Option<seq<string>>, table: string, where: Option<Where>,
                           keys: seq<string>, order: Option<seq<OrderItem>>, limit: Limit)
    requires WhereReady(where, keys)
    requires where.Some? ==> Balanced(where.value)
    requires fields.Some? ==> Plain(fields.value)
    requires '?' !in table
    requires PlainOrder(order)
    ensures Count(SelectSql(fields, table, KeysIf(where, keys), order, limit), '?') == |ArgsIf(where, keys)|
  {
    var f := FieldList(fields);
    var w := WherePart(KeysIf(where, keys));
    var o := OrderPart(order);
    var l := LimitPart(limit);
    var tail := "FROM `" + table + "` ";
    var head := "SELECT " + f + " " + "FROM `" + table + "` ";
    assert Count(head, '?') == 0 by {
      assert head == "SELECT " + f + " " + tail;
      assert Count(f, '?') == 0 by {
        FieldListCount(fields);
      }
      assert Count("SELECT ", '?') == 0 by {
        CountAbsent("SELECT ", '?');
      }
      assert Count(" ", '?') == 0 by {
        CountAbsent(" ", '?');
      }
      assert Count(tail, '?') == 0 by {
        assert '?' !in tail;
        CountAbsent(tail, '?');
      }
      Count3("SELECT ", f, " ");
      CountAppend("SELECT " + f + " ", tail, '?');
    }
    assert Count(w, '?') == |ArgsIf(where, keys)| by {
      WherePartCount(where, keys);
    }
    assert Count(o, '?') == 0 by {
      OrderPartCount(order);
    }
    assert Count(l, '?') == 0 by {
      LimitPartCount(limit);
    }
    Count3(head, w, o);
    CountAppend(head + w + o, l, '?');
  }

  /** INSERT: one `?` per saved column, and one argument per saved column. */
  lemma InsertPlaceholders(table: string, keys: seq<string>, data: map<string, Value>)
    requires forall k :: k in keys ==> k in data
    requires Plain(keys)
    requires '?' !in table
    ensures Count(InsertSql(table, keys), '?') == |ValuesOf(keys, data)|
  {
    var names := Join(keys, ", ");
    var marks := Join(Marks(|keys|), ", ");
    assert Count(names, '?') == 0 by {
      CountJoin(keys, ", ");
      CountPlain(keys);
    }
    assert Count(marks, '?') == |keys| by {
      CountJoin(Marks(|keys|), ", ");
      CountMarks(|keys|);
    }
    var front := "INSERT INTO " + table + " (";
    var mid := " ) VALUES ( ";
    assert Count(front, '?') == 0 by {
      assert '?' !in front;
      CountAbsent(front, '?');
    }
    assert Count(mid, '?') == 0 by {
      CountAbsent(mid, '?');
    }
    assert Count(" )", '?') == 0 by {
      CountAbsent(" )", '?');
    }
    Count3(front, names, mid);
    Count3(front + names + mid, marks, " )");
  }

  /** UPDATE: the SET part's arguments come first, then the WHERE part's. */
  lemma UpdatePlaceholders(table: string, keys: seq<string>, data: map<string, Value>,
                           where: Option<Where>, whereKeys: seq<string>)
    requires forall k :: k in keys ==> k in data
    requires WhereReady(where, whereKeys)
    requires where.Some? ==> Balanced(where.value)
    requires Plain(keys)
    requires '?' !in table
    ensures Count(UpdateSql(table, keys, KeysIf(where, whereKeys)), '?')
            == |ValuesOf(keys, data) + ArgsIf(where, whereKeys)|
  {
    var sets := Join(Assignments(keys), ", ");
    var w := WherePart(KeysIf(where, whereKeys));
    CountJoin(Assignments(keys), ", ");
    CountAssignments(keys);
    WherePartCount(where, whereKeys);
    var head := "UPDATE " + table + " SET ";
    assert '?' !in head;
    CountAbsent(head, '?');
    Count3(head, sets, " ");
    CountAppend(head + sets + " ", w, '?');
  }

  /** DELETE: the WHERE part's placeholders are all there are. */
  lemma DeletePlaceholders(table: string, where: Option<Where>, keys: seq<string>)
    requires WhereReady(where, keys)
    requires where.Some? ==> Balanced(where.value)
    requires '?' !in table
    ensures Count(DeleteSql(table, KeysIf(where, keys)), '?') == |ArgsIf(where, keys)|
  {
    WherePartCount(where, keys);
    var head := "DELETE FROM " + table + " ";
    assert '?' !in head;
    CountAbsent(head, '?');
    CountAppend(head, WrappedWherePart(KeysIf(where, keys)), '?');
  }

  /** COUNT: likewise. */
  lemma CountStatementPlaceholders(table: string, where: Option<Where>, keys: seq<string>)
    requires WhereReady(where, keys)
    requires where.Some? ==> Balanced(where.value)
    requires '?' !in table
    ensures Count(CountSql(table, KeysIf(where, keys)), '?') == |ArgsIf(where, keys)|
  {
    WherePartCount(where, keys);
    var head := "SELECT COUNT(*) as count FROM " + table + " ";
    assert '?' !in head;
    CountAbsent(head, '?');
    CountAppend(head, WrappedWherePart(KeysIf(where, keys)), '?');
  }

  /* ---------- Iteration order ---------- */

  lemma {:induction false} WhereArgsAppend(a: seq<string>, b: seq<string>, where: Where)
    requires forall k :: k in a + b ==> k in where
    ensures WhereArgs(a + b, where) == WhereArgs(a, where) + WhereArgs(b, where)
    decreases |b|
  {
    if |b| == 0 {
      assert a + b == a;
    } else {
      var init := b[..|b| - 1];
      assert (a + b)[..|a + b| - 1] == a + init;
      WhereArgsAppend(a, init, where);
    }
  }

  /** Removing the element at `j` from an enumeration enumerates the rest. */
  lemma DropFromEnumeration(keys: seq<string>, domain: set<string>, j: nat)
    requires IsEnumeration(keys, domain) && j < |keys|
    ensures IsEnumeration(keys[..j] + keys[j + 1..], domain - {keys[j]})
  {
    var rest := keys[..j] + keys[j + 1..];
    forall p, q | 0 <= p < q < |rest| ensures rest[p] != rest[q] {
      var p2 := if p < j then p else p + 1;
      var q2 := if q < j then q else q + 1;
      assert rest[p] == keys[p2] && rest[q] == keys[q2];
    }
    forall x ensures x in rest <==> x in domain - {keys[j]} {
      if x in rest {
        var p :| 0 <= p < |rest| && rest[p] == x;
        var p2 := if p < j then p else p + 1;
        assert keys[p2] == x && p2 != j;
      }
      if x in domain - {keys[j]} {
        assert x in keys;
        var p :| 0 <= p < |keys| && keys[p] == x;
        assert p != j;
        if p < j { assert rest[p] == x; } else { assert rest[p - 1] == x; }
      }
    }
  }

  /** The arguments of `a + [k] + b`, split around the condition `k`. */
  lemma WhereArgsAround(a: seq<string>, k: string, b: seq<string>, where: Where)
    requires forall x :: x in a + [k] + b ==> x in where
    ensures multiset(WhereArgs(a + [k] + b, where)) == multiset(WhereArgs(a + b, where)) + multiset(where[k])
  {
    WhereArgsAppend(a, b, where);
    WhereArgsAppend(a + [k], b, where);
    WhereArgsAppend(a, [k], where);
    assert WhereArgs([k], where) == where[k] by {
      assert [k][..0] == [];
    }
  }

  /** Two iteration orders of the same conditions bind the same arguments,
      possibly in another order. */
  lemma {:induction false} WhereArgsPermutation(k1: seq<string>, k2: seq<string>, domain: set<string>, where: Where)
    requires IsEnumeration(k1, domain) && IsEnumeration(k2, domain)
    requires domain <= where.Keys
    ensures multiset(WhereArgs(k1, where)) == multiset(WhereArgs(k2, where))
    decreases |k1|
  {
    if |k1| > 0 {
      var n := |k1| - 1;
      var k := k1[n];
      var init := k1[..n];
      assert k in k2 by {
        assert k in k1;
      }
      var j :| 0 <= j < |k2| && k2[j] == k;
      var a := k2[..j];
      var b := k2[j + 1..];
      assert IsEnumeration(init, domain - {k}) by {
        DropFromEnumeration(k1, domain, n);
        assert k1[..n] + k1[n + 1..] == init;
      }
      assert IsEnumeration(a + b, domain - {k}) by {
        DropFromEnumeration(k2, domain, j);
      }
      WhereArgsPermutation(init, a + b, domain - {k}, where);
      assert multiset(WhereArgs(k2, where)) == multiset(WhereArgs(a + b, where)) + multiset(where[k]) by {
        assert k2 == a + [k] + b;
        WhereArgsAround(a, k, b, where);
      }
      calc {
        multiset(WhereArgs(k1, where));
        { assert WhereArgs(k1, where) == WhereArgs(init, where) + where[k]; }
        multiset(WhereArgs(init, where)) + multiset(where[k]);
        multiset(WhereArgs(a + b, where)) + multiset(where[k]);
      }
    } else {
      EmptyEnumeration(k1, k2, domain);
    }
  }

  /** Two enumerations of one set are empty together. */
  lemma EmptyEnumeration(k1: seq<string>, k2: seq<string>, domain: set<string>)
    requires IsEnumeration(k1, domain) && IsEnumeration(k2, domain)
    requires |k1| == 0
    ensures k2 == []
  {
    EnumerationSize(k1, domain);
    EnumerationSize(k2, domain);
  }

  /** Hence the argument count does not depend on the order either. */
  lemma WhereArgsLength(k1: seq<string>, k2: seq<string>, where: Where)
    requires IsEnumeration(k1, where.Keys) && IsEnumeration(k2, where.Keys)
    ensures |WhereArgs(k1, where)| == |WhereArgs(k2, where)|
  {
    WhereArgsPermutation(k1, k2, where.Keys, where);
    assert |multiset(WhereArgs(k1, where))| == |multiset(WhereArgs(k2, where))|;
  }
}
