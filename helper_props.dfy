/**
 Properties of the column, join, order and limit emitters and of isExp:
 what each appends in each case, that a mapping renders like the
 concatenation of its per-table lists, that the three join notations
 agree, and that the LIMIT fragment binds one value per placeholder.
 */
module HelperProps {
  import opened Js
  import opened Fragments
  import opened Helper

  // ---------------------------------------------------------------------
  // Joining lists of lists
  // ---------------------------------------------------------------------

  /** The lists one after the other. */
  function Flatten(parts: seq<seq<string>>): seq<string> {
    if parts == [] then [] else parts[0] + Flatten(parts[1..])
  }

  /** Each list joined on its own. */
  function JoinEach(parts: seq<seq<string>>, sep: string): seq<string> {
    seq(|parts|, i requires 0 <= i < |parts| => Join(parts[i], sep))
  }

  /** Joining the joins of non-empty lists is joining their concatenation. */
  lemma {:induction false} JoinFlatten(parts: seq<seq<string>>, sep: string)
    requires forall i :: 0 <= i < |parts| ==> parts[i] != []
    ensures Join(JoinEach(parts, sep), sep) == Join(Flatten(parts), sep)
  {
    if |parts| == 1 {
      assert Flatten(parts[1..]) == [];
      assert Flatten(parts) == parts[0];
      assert Join(JoinEach(parts, sep), sep) == Join(parts[0], sep);
    } else if |parts| > 1 {
      var tail := parts[1..];
      assert JoinEach(parts, sep)[1..] == JoinEach(tail, sep);
      JoinFlatten(tail, sep);
      assert Flatten(tail) == tail[0] + Flatten(tail[1..]);
      JoinAppend(parts[0], Flatten(tail), sep);
    }
  }

  /** A join starts with the first part when that part is not empty. */
  lemma JoinHead(parts: seq<string>, sep: string)
    requires parts != [] && parts[0] != []
    ensures Join(parts, sep) != [] && Join(parts, sep)[0] == parts[0][0]
  {
  }

  // ---------------------------------------------------------------------
  // Columns
  // ---------------------------------------------------------------------

  /** A rendered column starts with the backquote of its table. */
  lemma ColumnHead(table: string, column: JVal)
    ensures Column(table, column) != [] && Column(table, column)[0] == '`'
  {
    var q := Quote(table);
    assert q[0] == '`';
  }

  /** genColumns of an empty list is empty; of any other it opens with a backquote. */
  lemma GenColumnsHead(table: string, columns: seq<JVal>)
    ensures columns == [] ==> GenColumns(table, columns) == ""
    ensures columns != [] ==> GenColumns(table, columns) != [] && GenColumns(table, columns)[0] == '`'
  {
    if columns != [] {
      ColumnHead(table, columns[0]);
      JoinHead(ColumnTexts(table, columns), ", ");
    }
  }

  /** fillColumns writes `*` exactly for a falsy value, the string `*` and
      the empty list: no column list renders as `*`. */
  lemma StarColumns(table: string, columns: JVal)
    ensures ColumnsFragments(table, columns) == ["*"]
      <==> !Truthy(columns) || columns == Str("*") || columns == Arr([])
  {
    if Truthy(columns) && columns != Str("*") && columns != Arr([]) {
      if columns.Arr? {
        GenColumnsHead(table, columns.items);
      } else if columns.Obj? {
        var parts := TableColumns(columns.entries);
        if |parts| == 1 {
          var e := columns.entries[0];
          GenColumnsHead(e.key, ListOf(e.val));
        }
      }
    }
  }

  /** Any string other than `*` (or the empty one) adds no column list at all. */
  lemma NamedColumnIsDropped(table: string, name: string)
    requires name != "" && name != "*"
    ensures ColumnsFragments(table, Str(name)) == []
  {
  }

  /** Column lists add up: the list `a + b` renders as `a`, a comma and `b`. */
  lemma GenColumnsAppend(table: string, a: seq<JVal>, b: seq<JVal>)
    requires a != [] && b != []
    ensures GenColumns(table, a + b) == GenColumns(table, a) + ", " + GenColumns(table, b)
  {
    assert ColumnTexts(table, a + b) == ColumnTexts(table, a) + ColumnTexts(table, b);
    JoinAppend(ColumnTexts(table, a), ColumnTexts(table, b), ", ");
  }

  /** A pair renders as `` `t`.`f` AS `a` `` and later elements are ignored. */
  lemma AliasedColumn(table: string, f: string, a: string, rest: seq<JVal>)
    ensures Column(table, Arr([Str(f), Str(a)] + rest)) == Ref(table, f) + " AS " + Quote(a)
  {
  }

  /** The columns of a mapping, each against its own table, in key order. */
  function MappingColumnTexts(es: seq<Entry>): seq<string> {
    Flatten(seq(|es|, i requires 0 <= i < |es| => ColumnTexts(es[i].key, ListOf(es[i].val))))
  }

  /** A mapping of non-empty lists renders as one list of all their columns. */
  lemma MappingColumns(table: string, es: seq<Entry>)
    requires forall i :: 0 <= i < |es| ==> es[i].val.Arr? && es[i].val.items != []
    ensures ColumnsFragments(table, Obj(es)) == [Join(MappingColumnTexts(es), ", ")]
  {
    var parts := seq(|es|, i requires 0 <= i < |es| => ColumnTexts(es[i].key, ListOf(es[i].val)));
    assert TableColumns(es) == JoinEach(parts, ", ");
    JoinFlatten(parts, ", ");
  }

  /** An empty per-table list still takes its place in the join, so
      `{t1: [], t2: [f]}` renders with a stray leading `, `. */
  lemma EmptyTableListLeavesComma(table: string, t1: string, t2: string, f: string)
    ensures ColumnsFragments(table, Obj([Entry(t1, Arr([])), Entry(t2, Arr([Str(f)]))])) == [", " + Ref(t2, f)]
  {
    var es := [Entry(t1, Arr([])), Entry(t2, Arr([Str(f)]))];
    assert GenColumns(t1, []) == "";
    assert ColumnTexts(t2, [Str(f)]) == [Ref(t2, f)];
    assert TableColumns(es) == ["", Ref(t2, f)];
    assert TableColumns(es)[1..] == [Ref(t2, f)];
    assert Join(TableColumns(es), ", ") == "" + ", " + Ref(t2, f);
    assert "" + ", " + Ref(t2, f) == ", " + Ref(t2, f);
  }

  // ---------------------------------------------------------------------
  // Joins
  // ---------------------------------------------------------------------

  /** A mapping of joins gives one `LEFT JOIN` per key, in key order. */
  lemma {:induction false} MappingJoinsEach(table: string, es: seq<Entry>, k: nat)
    requires k <= |es|
    ensures |MappingJoins(table, es, k)| == |es| - k
    ensures forall i :: k <= i < |es| ==> MappingJoins(table, es, k)[i - k] == MappingJoin(table, es[i])
    decreases |es| - k
  {
    if k < |es| {
      MappingJoinsEach(table, es, k + 1);
      var rest := MappingJoins(table, es, k + 1);
      assert MappingJoins(table, es, k) == [MappingJoin(table, es[k])] + rest;
      forall i | k < i < |es|
        ensures MappingJoins(table, es, k)[i - k] == MappingJoin(table, es[i])
      {
        assert i - k == (i - (k + 1)) + 1;
      }
    }
  }

  lemma MappingJoinsAll(table: string, es: seq<Entry>)
    ensures |JoinsFragments(table, Obj(es))| == |es|
    ensures forall i :: 0 <= i < |es| ==> JoinsFragments(table, Obj(es))[i] == MappingJoin(table, es[i])
  {
    MappingJoinsEach(table, es, 0);
  }

  lemma ListJoinAtMostOne(table: string, join: JVal)
    ensures |ListJoin(table, join)| <= 1
  {
    if join.Obj? {
      var k := KindFrom(join.entries, 0);
      if k < |JoinKinds| {
        assert |ListJoin(table, join)| == 1;
      }
    }
  }

  /** Each element of a join list adds at most one fragment. */
  lemma {:induction false} ListJoinsAtMost(table: string, joins: seq<JVal>, k: nat)
    requires k <= |joins|
    ensures |ListJoins(table, joins, k)| <= |joins| - k
    decreases |joins| - k
  {
    if k < |joins| {
      var one, rest := ListJoin(table, joins[k]), ListJoins(table, joins, k + 1);
      assert ListJoins(table, joins, k) == one + rest;
      ListJoinsAtMost(table, joins, k + 1);
      ListJoinAtMostOne(table, joins[k]);
    }
  }

  /** A descriptor is skipped exactly when none of `inner`, `left`, `right`,
      `join`, `cross` holds a truthy value. */
  lemma SkippedDescriptor(table: string, d: seq<Entry>)
    ensures ListJoin(table, Obj(d)) == []
      <==> forall j :: 0 <= j < |JoinKinds| ==> !Truthy(Get(d, JoinKinds[j].0))
  {
  }

  /** The text of `` LEFT JOIN `tb` ON `table`.`f1` = `tb`.`f2` ``. */
  function LeftJoinText(table: string, tb: string, f1: string, f2: string): string {
    "LEFT JOIN " + Quote(tb) + " ON " + Ref(table, f1) + " = " + Ref(tb, f2)
  }

  /** `{tb: [f1, f2]}` joins `tb` on `table`.`f1` = `tb`.`f2`. */
  lemma MappingNotation(table: string, tb: string, f1: string, f2: string)
    ensures JoinsFragments(table, Obj([Entry(tb, Arr([Str(f1), Str(f2)]))]))
      == [LeftJoinText(table, tb, f1, f2)]
  {
    MappingJoinsAll(table, [Entry(tb, Arr([Str(f1), Str(f2)]))]);
  }

  /** `[[tb, f1, f2]]` says the same. */
  lemma TripleNotation(table: string, tb: string, f1: string, f2: string)
    ensures JoinsFragments(table, Arr([Arr([Str(tb), Str(f1), Str(f2)])]))
      == [LeftJoinText(table, tb, f1, f2)]
  {
    var j := Arr([Str(tb), Str(f1), Str(f2)]);
    assert ListJoins(table, [j], 1) == [];
    assert ListJoins(table, [j], 0) == ListJoin(table, j);
  }

  /** `[{left: [table, tb], on: [f1, f2]}]` says the same again. */
  lemma DescriptorNotation(table: string, tb: string, f1: string, f2: string)
    ensures JoinsFragments(table, Arr([Obj([Entry("left", Arr([Str(table), Str(tb)])),
                                          Entry("on", Arr([Str(f1), Str(f2)]))])]))
      == [LeftJoinText(table, tb, f1, f2)]
  {
    var d := [Entry("left", Arr([Str(table), Str(tb)])), Entry("on", Arr([Str(f1), Str(f2)]))];
    assert Get(d, "inner") == Undef;
    assert KindFrom(d, 0) == 1;
    assert Find(d[1..], "on") == 0;
    assert Find(d, "on") == 1;
    assert "LEFT JOIN" + " " == "LEFT JOIN ";
    assert ListJoins(table, [Obj(d)], 1) == [];
    assert ListJoins(table, [Obj(d)], 0) == ListJoin(table, Obj(d));
  }

  // ---------------------------------------------------------------------
  // Orders
  // ---------------------------------------------------------------------

  /** fillOrders writes `ORDER BY` and one list for a non-empty list or any
      mapping, and nothing otherwise. */
  lemma OrdersShape(table: string, orders: JVal)
    ensures OrdersFragments(table, orders) == [] <==> !(orders.Arr? && orders.items != []) && !orders.Obj?
    ensures OrdersFragments(table, orders) != [] ==>
      |OrdersFragments(table, orders)| == 2 && OrdersFragments(table, orders)[0] == "ORDER BY"
  {
  }

  /** An empty mapping still writes `ORDER BY`, followed by an empty list. */
  lemma EmptyMappingOrders(table: string)
    ensures OrdersFragments(table, Obj([])) == ["ORDER BY", ""]
  {
  }

  /** A plain field sorts ascending. */
  lemma PlainOrder(table: string, f: string)
    ensures OrderTerm(table, Str(f)) == Ref(table, f) + " ASC"
  {
  }

  /** `[f, d]` sorts descending when `d` upper-cases to `DESC` (so `desc` does too). */
  lemma DescendingPair(table: string, f: string, d: string)
    requires Upper(d) == "DESC"
    ensures OrderTerm(table, Arr([Str(f), Str(d)])) == Ref(table, f) + " DESC"
  {
  }

  /** The terms of a mapping, each against its own table, in key order. */
  function MappingOrderTexts(es: seq<Entry>): seq<string> {
    Flatten(seq(|es|, i requires 0 <= i < |es| => OrderTexts(es[i].key, ListOf(es[i].val))))
  }

  /** A mapping of non-empty lists renders as one list of all their terms. */
  lemma MappingOrders(table: string, es: seq<Entry>)
    requires forall i :: 0 <= i < |es| ==> es[i].val.Arr? && es[i].val.items != []
    ensures OrdersFragments(table, Obj(es)) == ["ORDER BY", Join(MappingOrderTexts(es), ", ")]
  {
    var parts := seq(|es|, i requires 0 <= i < |es| => OrderTexts(es[i].key, ListOf(es[i].val)));
    assert TableOrders(es) == JoinEach(parts, ", ");
    JoinFlatten(parts, ", ");
  }

  /** An empty per-table order list still takes its place in the join, so
      `{t1: [], t2: [f]}` orders by `` , `t2`.`f` ASC `` with a stray leading `, `. */
  lemma EmptyTableOrdersLeaveComma(table: string, t1: string, t2: string, f: string)
    ensures OrdersFragments(table, Obj([Entry(t1, Arr([])), Entry(t2, Arr([Str(f)]))]))
      == ["ORDER BY", ", " + Ref(t2, f) + " ASC"]
  {
    var es := [Entry(t1, Arr([])), Entry(t2, Arr([Str(f)]))];
    assert GenOrders(t1, []) == "";
    assert OrderTexts(t2, [Str(f)]) == [Ref(t2, f) + " ASC"];
    assert TableOrders(es) == ["", Ref(t2, f) + " ASC"];
    assert TableOrders(es)[1..] == [Ref(t2, f) + " ASC"];
    assert Join(TableOrders(es), ", ") == "" + ", " + (Ref(t2, f) + " ASC");
    assert "" + ", " + (Ref(t2, f) + " ASC") == ", " + Ref(t2, f) + " ASC";
  }

  // ---------------------------------------------------------------------
  // Limits and isExp
  // ---------------------------------------------------------------------

  /** `LIMIT ?, ?` binds the offset and the size. */
  lemma LimitBalanced(page: int, size: int)
    ensures Balanced(Limit(page, size))
  {
    TwoMarks("LIMIT ?, ?", "LIMIT ", ", ");
    assert ["LIMIT ?, ?"][1..] == [];
  }

  /** Page 1 starts at row 0, and each page starts `size` rows after the one before. */
  lemma PagesTile(page: int, size: int)
    ensures Limit(1, size).values[0] == Int(0)
    ensures Limit(page + 1, size).values[0].i == Limit(page, size).values[0].i + size
    ensures Limit(page, size).values[1] == Int(size)
  {
  }

  /** isExp holds exactly for a non-empty array whose first element is a string. */
  lemma IsExpMeans(v: JVal)
    ensures IsExp(v) <==> v.Arr? && |v.items| > 0 && v.items[0].Str?
  {
  }
}
