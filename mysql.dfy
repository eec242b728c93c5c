/**
 The statement builders of src/index.js: select and total, create,
 update and delete. Each pushes its fragments and bind values onto local
 lists through the emitters, as the source does, and returns the
 fragments joined by single spaces together with the values.
 */
module Mysql {
  import opened Js
  import opened Fragments
  import opened Helper
  import opened WhereProps

  /** `{sql, values}`. */
  datatype Statement = Statement(sql: string, values: seq<JVal>)

  /** `{sql: sql.join(' '), values}`. */
  function Assemble(o: Out): Statement {
    Statement(Join(o.sql, " "), o.values)
  }

  /** Joining the fragments with spaces adds no placeholder, so a balanced
      emission assembles into a statement with one value per `?`. */
  lemma AssembledBalanced(o: Out)
    requires Balanced(o)
    ensures Marks(Assemble(o).sql) == |Assemble(o).values|
  {
    MarksFree(" ");
    JoinMarks(o.sql, " ");
  }

  // ---------------------------------------------------------------------
  // select and total (src/index.js:46-113)
  // ---------------------------------------------------------------------

  function Columns(options: JVal): JVal {
    Prop(options, "columns")
  }

  /** `options.wheres || options.where`. */
  function WheresOption(options: JVal): JVal {
    Or(Prop(options, "wheres"), Prop(options, "where"))
  }

  /** `options.orders || options.order || options.orderby || options.orderBy`. */
  function OrdersOption(options: JVal): JVal {
    Or(Or(Or(Prop(options, "orders"), Prop(options, "order")), Prop(options, "orderby")), Prop(options, "orderBy"))
  }

  /** `options.joins || options.join`. */
  function JoinsOption(options: JVal): JVal {
    Or(Prop(options, "joins"), Prop(options, "join"))
  }

  /** select hands `options.alias` to fillJoins in the place of the joins and
      the join option in the place of the fragment list, so the join step
      walks the alias and pushes what it renders onto the join option, not
      onto the statement's fragments. It returns when the alias renders without raising
      and either renders nothing or the join option is a list to push onto. */
  predicate JoinsInert(table: string, options: JVal) {
    var alias, joins := Prop(options, "alias"), JoinsOption(options);
    Truthy(joins) ==> JoinsOk(alias) && (JoinsFragments(table, alias) == [] || joins.Arr?)
  }

  const CountColumn := "COUNT(*) AS `total`"

  /** The fragment after `SELECT`: the count, or what fillColumns writes. */
  function Head(table: string, options: JVal, isCount: bool): seq<string> {
    if isCount then [CountColumn] else ColumnsFragments(table, Columns(options))
  }

  /** The fragment after `FROM`. */
  function Target(table: string, options: JVal): string {
    var alias := Prop(options, "alias");
    if Truthy(alias) && Truthy(Prop(alias, table)) then Quote(ToStr(Prop(alias, table))) + " AS " + Quote(table)
    else Quote(table)
  }

  function WherePart(table: string, options: JVal): Out {
    if Truthy(WheresOption(options)) then WhereClause(table, WheresOption(options)) else Nothing
  }

  function OrderPart(table: string, options: JVal): seq<string> {
    if Truthy(OrdersOption(options)) then OrdersFragments(table, OrdersOption(options)) else []
  }

  /** An integer option (`* 1` of a number is the number itself). */
  function Num(v: JVal): int {
    if v.Int? then v.i else 0
  }

  /** The paging options the LIMIT step reads are integers, on the branch
      that reads them: `limit` and `offset` when a limit is given, `page` and
      `size` only when it is not; a count reads none of them. */
  predicate NumbersOk(options: JVal, isCount: bool) {
    var limit, page, size := Prop(options, "limit"), Prop(options, "page"), Prop(options, "size");
    !isCount ==>
      (Truthy(limit) ==> limit.Int? && Or(Prop(options, "offset"), Int(0)).Int?)
      && (!Truthy(limit) && Truthy(page) && Truthy(size) ==> page.Int? && size.Int?)
  }

  /** The LIMIT step: `fillLimits((offset || 0) * 1, limit * 1)`, else
      `fillLimits((page - 1) * size, size)`, never when counting. */
  function LimitPart(options: JVal, isCount: bool): Out {
    var limit, page, size := Prop(options, "limit"), Prop(options, "page"), Prop(options, "size");
    if Truthy(limit) && !isCount then Limit(Num(Or(Prop(options, "offset"), Int(0))), Num(limit))
    else if Truthy(page) && Truthy(size) && !isCount then Limit((Num(page) - 1) * Num(size), Num(size))
    else Nothing
  }

  /** `SELECT`, the head, `FROM`, the target, then the WHERE, ORDER BY and
      LIMIT parts, in push order. */
  function SelectOf(head: seq<string>, target: string, w: Out, orders: seq<string>, l: Out): Out {
    Out(["SELECT"] + head + ["FROM"] + [target] + w.sql + orders + l.sql, w.values + l.values, w.sites)
  }

  /** The fragments and values select pushes. */
  function SelectOut(table: string, options: JVal, isCount: bool): Out {
    SelectOf(Head(table, options, isCount), Target(table, options), WherePart(table, options),
             OrderPart(table, options), LimitPart(options, isCount))
  }

  /** The fragments from `FROM` to the ORDER BY list, which a select and its
      count share. */
  function Body(table: string, options: JVal): seq<string> {
    ["FROM", Target(table, options)] + WherePart(table, options).sql + OrderPart(table, options)
  }

  /** The options select handles without raising. */
  predicate SelectOk(table: string, options: JVal, isCount: bool) {
    !options.Null?
    && (!isCount ==> ColumnsOk(Columns(options)))
    && AllCallable(WherePart(table, options).sites)
    && OrdersOk(OrdersOption(options))
    && NumbersOk(options, isCount)
    && JoinsInert(table, options)
  }

  method Select(table: string, options: JVal, isCount: bool) returns (st: Statement)
    requires SelectOk(table, options, isCount)
    ensures st == Assemble(SelectOut(table, options, isCount))
  {
    ghost var h, t := Head(table, options, isCount), Target(table, options);
    ghost var w, o, l := WherePart(table, options), OrderPart(table, options), LimitPart(options, isCount);
    ghost var out := SelectOut(table, options, isCount);
    assert out == SelectOf(h, t, w, o, l);
    var b := new Builder();
    ghost var sql0, values0 := b.sql, b.values;
    FillOpening(table, options, isCount, b);
    // The join step, fillJoins(table, options.alias, joins), pushes onto the
    // join option, not onto b (JoinsInert). Options are values here, so a
    // join option shared with the where or orders option is not expressed.
    FillTail(table, options, isCount, b);
    SelectPieces(sql0, values0, h, t, w, o, l);
    assert b.sql == sql0 + out.sql && b.values == values0 + out.values;
    assert sql0 + out.sql == out.sql && values0 + out.values == out.values;
    st := Statement(Join(b.sql, " "), b.values);
  }

  /** select's two stages, the opening and the tail, pushed after what the
      lists already hold, make up SelectOf. */
  lemma SelectPieces(sql0: seq<string>, values0: seq<JVal>, h: seq<string>, t: string, w: Out, o: seq<string>, l: Out)
    ensures sql0 + SelectOf(h, t, w, o, l).sql == sql0 + ["SELECT"] + h + ["FROM"] + [t] + w.sql + o + l.sql
    ensures values0 + SelectOf(h, t, w, o, l).values == values0 + w.values + l.values
  {
    var opening := ["SELECT"] + h + ["FROM"] + [t];
    AppendAssoc(sql0, opening, w.sql + o + l.sql);
    AppendAssoc(values0, w.values, l.values);
  }

  /** `SELECT`, the columns (or the count), `FROM` and the table. */
  method FillOpening(table: string, options: JVal, isCount: bool, b: Builder)
    requires !isCount ==> ColumnsOk(Columns(options))
    modifies b
    ensures b.sql == old(b.sql) + ["SELECT"] + Head(table, options, isCount) + ["FROM"] + [Target(table, options)]
    ensures b.values == old(b.values)
  {
    b.PushSql("SELECT");
    if isCount {
      b.PushSql(CountColumn);
    } else {
      FillColumns(table, Columns(options), b);
    }
    b.PushSql("FROM");
    FillTarget(table, options, b);
  }

  /** The WHERE, ORDER BY and LIMIT parts, each only when its option is given. */
  method FillTail(table: string, options: JVal, isCount: bool, b: Builder)
    requires AllCallable(WherePart(table, options).sites)
    requires OrdersOk(OrdersOption(options))
    requires NumbersOk(options, isCount)
    modifies b
    ensures b.sql == old(b.sql) + WherePart(table, options).sql + OrderPart(table, options)
                       + LimitPart(options, isCount).sql
    ensures b.values == old(b.values) + WherePart(table, options).values + LimitPart(options, isCount).values
  {
    ghost var w, o, l := WherePart(table, options), OrderPart(table, options), LimitPart(options, isCount);
    ghost var sql0, values0 := b.sql, b.values;
    var wheres := WheresOption(options);
    if Truthy(wheres) {
      FillWheres(table, wheres, b);
    } else {
      assert sql0 + w.sql == sql0 && values0 + w.values == values0;
    }
    assert b.sql == sql0 + w.sql && b.values == values0 + w.values;
    var orders := OrdersOption(options);
    if Truthy(orders) {
      FillOrders(table, orders, b);
    } else {
      assert sql0 + w.sql + o == sql0 + w.sql;
    }
    assert b.sql == sql0 + w.sql + o && b.values == values0 + w.values;
    FillSelectLimits(options, isCount, b);
  }

  /** The table select reads from, under its alias when one is given. */
  method FillTarget(table: string, options: JVal, b: Builder)
    modifies b
    ensures b.sql == old(b.sql) + [Target(table, options)]
    ensures b.values == old(b.values)
  {
    var alias := Prop(options, "alias");
    if Truthy(alias) && Truthy(Prop(alias, table)) {
      b.PushSql(Quote(ToStr(Prop(alias, table))) + " AS " + Quote(table));
    } else {
      b.PushSql(Quote(table));
    }
  }

  /** The paging step of select: an explicit `limit` (with `offset`, 0 by
      default) wins over `page` and `size`; a count has none. */
  method FillSelectLimits(options: JVal, isCount: bool, b: Builder)
    requires NumbersOk(options, isCount)
    modifies b
    ensures b.sql == old(b.sql) + LimitPart(options, isCount).sql
    ensures b.values == old(b.values) + LimitPart(options, isCount).values
  {
    var limit, page, size := Prop(options, "limit"), Prop(options, "page"), Prop(options, "size");
    if Truthy(limit) && !isCount {
      FillLimits(Num(Or(Prop(options, "offset"), Int(0))), Num(limit), b);
    } else if Truthy(page) && Truthy(size) && !isCount {
      FillLimits((Num(page) - 1) * Num(size), Num(size), b);
    } else {
      assert LimitPart(options, isCount) == Nothing;
    }
  }

  method Total(table: string, options: JVal) returns (st: Statement)
    requires SelectOk(table, options, true)
    ensures st == Assemble(SelectOut(table, options, true))
  {
    st := Select(table, options, true);
  }

  /** A count reads no paging option: `total(t, {page: '1', size: '10'})` is
      accepted and is `` SELECT COUNT(*) AS `total` FROM `t` `` with no values. */
  lemma CountIgnoresPaging(table: string, options: JVal)
    requires options == Obj([Entry("page", Str("1")), Entry("size", Str("10"))])
    ensures SelectOk(table, options, true)
    ensures SelectOut(table, options, true).sql == ["SELECT", CountColumn, "FROM", Quote(table)]
    ensures SelectOut(table, options, true).values == []
  {
    StringPagingOnly(options);
    PagingOptionsAccepted(table, options, true);
    assert Target(table, options) == Quote(table);
    var h, t := Head(table, options, true), Quote(table);
    assert SelectOut(table, options, true) == SelectOf(h, t, Nothing, [], Nothing);
    assert SelectOf(h, t, Nothing, [], Nothing).sql == ["SELECT", CountColumn, "FROM", t];
  }

  /** Options holding only `page` and `size` hold no other option. */
  lemma StringPagingOnly(options: JVal)
    requires options == Obj([Entry("page", Str("1")), Entry("size", Str("10"))])
    ensures forall k | k in {"columns", "alias", "wheres", "where", "orders", "order", "orderby", "orderBy",
                             "joins", "join"} :: Prop(options, k) == Undef
  {
    forall k | k in {"columns", "alias", "wheres", "where", "orders", "order", "orderby", "orderBy",
                     "joins", "join"}
      ensures Prop(options, k) == Undef
    {
      assert Find(options.entries, k) == 2;
    }
  }

  /** An explicit limit wins and `page` and `size` are never read: `{limit: 10,
      page: '2', size: '5'}` is accepted and binds what fillLimits(0, 10) binds. */
  lemma LimitOverridesPaging(table: string, options: JVal)
    requires options == Obj([Entry("limit", Int(10)), Entry("page", Str("2")), Entry("size", Str("5"))])
    ensures SelectOk(table, options, false)
    ensures LimitPart(options, false) == Limit(0, 10)
    ensures LimitPart(options, false).values == [Int(-10), Int(10)]
  {
    PagingOnly(options);
    assert Or(Prop(options, "offset"), Int(0)) == Int(0);
    PagingOptionsAccepted(table, options, false);
  }

  /** Options that name no columns, conditions, orders or joins are accepted
      whenever their paging options are. */
  lemma PagingOptionsAccepted(table: string, options: JVal, isCount: bool)
    requires options.Obj? && NumbersOk(options, isCount)
    requires Columns(options) == Undef && WheresOption(options) == Undef
    requires OrdersOption(options) == Undef && JoinsOption(options) == Undef
    ensures SelectOk(table, options, isCount)
  {
    assert WherePart(table, options) == Nothing;
  }

  /** Options holding only `limit`, `page` and `size` hold no other option. */
  lemma PagingOnly(options: JVal)
    requires options == Obj([Entry("limit", Int(10)), Entry("page", Str("2")), Entry("size", Str("5"))])
    ensures Prop(options, "limit") == Int(10)
    ensures forall k | k in {"columns", "alias", "wheres", "where", "orders", "order", "orderby", "orderBy",
                             "joins", "join", "offset"} :: Prop(options, k) == Undef
  {
    forall k | k in {"columns", "alias", "wheres", "where", "orders", "order", "orderby", "orderBy",
                     "joins", "join", "offset"}
      ensures Prop(options, k) == Undef
    {
      assert Find(options.entries, k) == 3;
    }
  }

  /** The fragments open with `SELECT`, the column fragment (or the count),
      `FROM` and the table. */
  lemma SelectOpening(table: string, options: JVal, isCount: bool)
    ensures |Head(table, options, isCount)| <= 1
    ensures SelectOut(table, options, isCount).sql[0] == "SELECT"
    ensures SelectOut(table, options, isCount).sql[|Head(table, options, isCount)| + 1] == "FROM"
    ensures SelectOut(table, options, isCount).sql[|Head(table, options, isCount)| + 2] == Target(table, options)
    ensures isCount ==> SelectOut(table, options, isCount).sql[1] == CountColumn
  {
    var h := Head(table, options, isCount);
    OpeningOf(h, Target(table, options), WherePart(table, options), OrderPart(table, options), LimitPart(options, isCount));
  }

  lemma OpeningOf(h: seq<string>, t: string, w: Out, o: seq<string>, l: Out)
    ensures SelectOf(h, t, w, o, l).sql[0] == "SELECT"
    ensures SelectOf(h, t, w, o, l).sql[|h| + 1] == "FROM"
    ensures SelectOf(h, t, w, o, l).sql[|h| + 2] == t
    ensures |h| > 0 ==> SelectOf(h, t, w, o, l).sql[1] == h[0]
  {
    var sql := SelectOf(h, t, w, o, l).sql;
    var opening := ["SELECT"] + h + ["FROM"] + [t];
    assert sql == opening + (w.sql + o + l.sql);
    assert opening[|h| + 1] == "FROM";
  }

  /** A count is the same select with the column fragment replaced by
      `` COUNT(*) AS `total` `` and without the LIMIT fragment and its values. */
  lemma CountDropsLimit(table: string, options: JVal)
    ensures LimitPart(options, true) == Nothing
    ensures Head(table, options, true) == [CountColumn]
    ensures SelectOut(table, options, true).sql == ["SELECT"] + Head(table, options, true) + Body(table, options)
    ensures SelectOut(table, options, false).sql
      == ["SELECT"] + Head(table, options, false) + Body(table, options) + LimitPart(options, false).sql
    ensures SelectOut(table, options, false).values
      == SelectOut(table, options, true).values + LimitPart(options, false).values
  {
    var t, w, o := Target(table, options), WherePart(table, options), OrderPart(table, options);
    SelectSplit(Head(table, options, true), t, w, o, Nothing);
    SelectSplit(Head(table, options, false), t, w, o, LimitPart(options, false));
  }

  lemma SelectSplit(h: seq<string>, t: string, w: Out, o: seq<string>, l: Out)
    ensures SelectOf(h, t, w, o, l).sql == ["SELECT"] + h + (["FROM", t] + w.sql + o) + l.sql
    ensures l == Nothing ==> SelectOf(h, t, w, o, l).sql == ["SELECT"] + h + (["FROM", t] + w.sql + o)
    ensures l == Nothing ==> SelectOf(h, t, w, o, l).values == w.values
  {
    assert ["FROM"] + [t] == ["FROM", t];
    if l == Nothing {
      assert w.values + [] == w.values;
    }
  }

  /** A LIMIT fragment is written exactly when a limit, or a page and a size,
      is given and the query does not count; it comes last, with its two values. */
  lemma LimitLast(table: string, options: JVal, isCount: bool)
    ensures LimitPart(options, isCount).sql != []
      <==> !isCount && (Truthy(Prop(options, "limit")) || (Truthy(Prop(options, "page")) && Truthy(Prop(options, "size"))))
    ensures LimitPart(options, isCount).sql != [] ==>
      SelectOut(table, options, isCount).sql[|SelectOut(table, options, isCount).sql| - 1] == "LIMIT ?, ?"
      && |LimitPart(options, isCount).values| == 2
    ensures Balanced(LimitPart(options, isCount))
  {
    var l := LimitPart(options, isCount);
    if l.sql != [] {
      var h, t := Head(table, options, isCount), Target(table, options);
      var w, o := WherePart(table, options), OrderPart(table, options);
      assert SelectOut(table, options, isCount) == SelectOf(h, t, w, o, l);
      assert l.sql == ["LIMIT ?, ?"];
      LastOf(h, t, w, o, l);
    }
    HelperLimitBalanced(options, isCount);
  }

  lemma LastOf(h: seq<string>, t: string, w: Out, o: seq<string>, l: Out)
    requires |l.sql| == 1
    ensures SelectOf(h, t, w, o, l).sql[|SelectOf(h, t, w, o, l).sql| - 1] == l.sql[0]
  {
  }

  lemma HelperLimitBalanced(options: JVal, isCount: bool)
    ensures Balanced(LimitPart(options, isCount))
  {
    var l := LimitPart(options, isCount);
    if l.sql != [] {
      TwoMarks("LIMIT ?, ?", "LIMIT ", ", ");
      assert l.sql[1..] == [];
    }
  }

  /** The values are those of the WHERE conditions, in visit order, then the
      two LIMIT values when paging. */
  lemma SelectValues(table: string, options: JVal, isCount: bool)
    ensures SelectOut(table, options, isCount).values
      == SiteValues(SelectOut(table, options, isCount).sites) + LimitPart(options, isCount).values
  {
    var w := WherePart(table, options);
    if Truthy(WheresOption(options)) {
      FillWheresInvariant(table, WheresOption(options));
    }
    assert w.values == SiteValues(w.sites);
    assert SelectOut(table, options, isCount).values == w.values + LimitPart(options, isCount).values;
  }

  /** Without options: `` SELECT * FROM `t` `` and no values. */
  lemma BareSelect(table: string, options: JVal)
    requires options == Undef || options == Obj([])
    ensures Assemble(SelectOut(table, options, false)) == Statement("SELECT * FROM " + Quote(table), [])
  {
    var q := Quote(table);
    var parts := ["SELECT", "*", "FROM", q];
    assert SelectOut(table, options, false).sql == parts;
    assert SelectOut(table, options, false).values == [];
    JoinFour("SELECT", "*", "FROM", q, " ");
    var opening := "SELECT" + " " + "*" + " " + "FROM" + " ";
    assert opening == "SELECT * FROM ";
    assert "SELECT" + " " + "*" + " " + "FROM" + " " + q == opening + q;
  }

  lemma JoinFour(a: string, b: string, c: string, d: string, sep: string)
    ensures Join([a, b, c, d], sep) == a + sep + b + sep + c + sep + d
  {
    assert [a, b, c, d][1..] == [b, c, d] && [b, c, d][1..] == [c, d] && [c, d][1..] == [d];
    JoinOne(d, sep);
    assert Join([c, d], sep) == c + sep + d;
    assert Join([b, c, d], sep) == b + sep + (c + sep + d);
    assert Join([a, b, c, d], sep) == a + sep + (b + sep + (c + sep + d));
    AppendAssoc(b + sep, c + sep, d);
    AppendAssoc(a + sep, b + sep + c + sep, d);
    AppendAssoc(a + sep, b + sep, c + sep);
  }

  /** The join option on its own leaves the statement as without options:
      no JOIN fragment reaches it. */
  lemma JoinsIgnored(table: string, joins: JVal)
    ensures Assemble(SelectOut(table, Obj([Entry("joins", joins)]), false))
      == Statement("SELECT * FROM " + Quote(table), [])
  {
    var options := Obj([Entry("joins", joins)]);
    OnlyJoins(joins);
    assert SelectOut(table, options, false) == SelectOut(table, Obj([]), false);
    BareSelect(table, Obj([]));
  }

  /** select accepts such options. */
  lemma JoinsAloneAccepted(table: string, joins: JVal)
    ensures SelectOk(table, Obj([Entry("joins", joins)]), false)
  {
    OnlyJoins(joins);
    assert JoinsFragments(table, Undef) == [];
  }

  /** Every option select reads, other than the join option, is absent. */
  lemma OnlyJoins(joins: JVal)
    ensures forall k | k in {"columns", "alias", "wheres", "where", "orders", "order", "orderby", "orderBy",
                             "limit", "offset", "page", "size"} :: Prop(Obj([Entry("joins", joins)]), k) == Undef
  {
    forall k | k in {"columns", "alias", "wheres", "where", "orders", "order", "orderby", "orderBy",
                     "limit", "offset", "page", "size"}
      ensures Prop(Obj([Entry("joins", joins)]), k) == Undef
    {
      OtherKey("joins", joins, k);
    }
  }

  lemma OtherKey(key: string, v: JVal, k: string)
    requires key != k
    ensures Prop(Obj([Entry(key, v)]), k) == Undef
  {
    assert Find([Entry(key, v)], k) == 1;
  }

  /** With `alias: {t: a}` the table is read as `` `a` AS `t` ``. */
  lemma AliasedTarget(table: string, a: string, options: JVal)
    requires a != "" && Prop(Prop(options, "alias"), table) == Str(a)
    ensures Target(table, options) == Quote(a) + " AS " + Quote(table)
  {
  }

  /** Without an alias for the table it is read as itself. */
  lemma UnaliasedTarget(table: string, options: JVal)
    requires !Truthy(Prop(Prop(options, "alias"), table))
    ensures Target(table, options) == Quote(table)
  {
  }

  /** A backquoted name holds the placeholders of the name. */
  lemma QuoteMarks(s: string)
    ensures Marks(Quote(s)) == Marks(s)
  {
    Wrapped("`", s, "`");
  }

  /** The joined texts hold one `?` per value, provided the WHERE conditions
      and the identifiers in the other fragments hold no `?`. */
  lemma SelectBalanced(table: string, options: JVal, isCount: bool)
    requires AllPlain(WherePart(table, options).sites)
    requires MarksIn(Head(table, options, isCount)) == 0
    requires Marks(Target(table, options)) == 0
    requires MarksIn(OrderPart(table, options)) == 0
    ensures Marks(Assemble(SelectOut(table, options, isCount)).sql)
      == |Assemble(SelectOut(table, options, isCount)).values|
  {
    if Truthy(WheresOption(options)) {
      FillWheresInvariant(table, WheresOption(options));
    }
    HelperLimitBalanced(options, isCount);
    PiecesBalanced(Head(table, options, isCount), Target(table, options), WherePart(table, options),
                   OrderPart(table, options), LimitPart(options, isCount));
    AssembledBalanced(SelectOut(table, options, isCount));
  }

  lemma PiecesBalanced(h: seq<string>, t: string, w: Out, o: seq<string>, l: Out)
    requires MarksIn(h) == 0 && Marks(t) == 0 && MarksIn(o) == 0
    requires Balanced(w) && Balanced(l)
    ensures MarksIn(["SELECT"] + h + ["FROM"] + [t] + w.sql + o + l.sql) == |w.values + l.values|
  {
    MarksFree("SELECT");
    MarksFree("FROM");
    assert MarksIn(["SELECT"]) == 0 && MarksIn(["FROM"]) == 0 && MarksIn([t]) == 0 by {
      assert ["SELECT"][1..] == [] && ["FROM"][1..] == [] && [t][1..] == [];
    }
    MarksInAppend(["SELECT"], h);
    MarksInAppend(["SELECT"] + h, ["FROM"]);
    MarksInAppend(["SELECT"] + h + ["FROM"], [t]);
    MarksInAppend(["SELECT"] + h + ["FROM"] + [t], w.sql);
    MarksInAppend(["SELECT"] + h + ["FROM"] + [t] + w.sql, o);
    MarksInAppend(["SELECT"] + h + ["FROM"] + [t] + w.sql + o, l.sql);
  }

  // ---------------------------------------------------------------------
  // create (src/index.js:121-136)
  // ---------------------------------------------------------------------

  /** `` `t`.`f` `` for each field. */
  function Fields(table: string, es: seq<Entry>): seq<string> {
    seq(|es|, i requires 0 <= i < |es| => Ref(table, es[i].key))
  }

  /** One `?` per field. */
  function Places(n: nat): seq<string> {
    seq(n, _ => "?")
  }

  /** What create returns (`columns` defaults to `{}`). */
  function CreateStatement(table: string, columns: JVal): Statement {
    var es := OwnEntries(columns);
    Statement("INSERT INTO " + Quote(table) + " (" + Join(Fields(table, es), ", ") + ") VALUES ("
                + Join(Places(|es|), ", ") + ")",
              EntryValues(es))
  }

  method Create(table: string, columns: JVal) returns (st: Statement)
    requires !columns.Null?
    ensures st == CreateStatement(table, columns)
  {
    var es := OwnEntries(columns);
    var values: seq<JVal> := [];
    var fields: seq<string> := [];
    var places: seq<string> := [];
    var k := 0;
    while k < |es|
      invariant k <= |es|
      invariant fields == Fields(table, es[..k])
      invariant places == Places(k)
      invariant values == EntryValues(es[..k])
    {
      fields := fields + [Ref(table, es[k].key)];
      places := places + ["?"];
      values := values + [es[k].val];
      k := k + 1;
    }
    assert es[..k] == es;
    st := Statement("INSERT INTO " + Quote(table) + " (" + Join(fields, ", ") + ") VALUES ("
                      + Join(places, ", ") + ")", values);
  }

  /** Field references free of `?` join into a text free of `?`. */
  lemma {:induction false} FieldsPlain(table: string, es: seq<Entry>)
    requires Marks(table) == 0
    requires forall i :: 0 <= i < |es| ==> Marks(es[i].key) == 0
    ensures MarksIn(Fields(table, es)) == 0
  {
    if es != [] {
      MarksRef(table, es[0].key);
      assert Fields(table, es)[1..] == Fields(table, es[1..]);
      FieldsPlain(table, es[1..]);
    }
  }

  lemma {:induction false} PlacesMarks(n: nat)
    ensures MarksIn(Places(n)) == n
  {
    if n > 0 {
      assert Places(n)[1..] == Places(n - 1);
      PlacesMarks(n - 1);
      assert Marks("?") == 1;
    }
  }

  /** The placeholders of the INSERT text are those of its three parts. */
  lemma InsertMarks(q: string, f: string, p: string)
    ensures Marks("INSERT INTO " + q + " (" + f + ") VALUES (" + p + ")") == Marks(q) + Marks(f) + Marks(p)
  {
    Wrapped("INSERT INTO ", q, " (");
    var x := "INSERT INTO " + q + " (";
    MarksAppend(x, f);
    MarksFree(") VALUES (");
    MarksAppend(x + f, ") VALUES (");
    MarksAppend(x + f + ") VALUES (", p);
    MarksFree(")");
    MarksAppend(x + f + ") VALUES (" + p, ")");
  }

  /** create writes one field, one `?` and one value per key, in key order,
      so a table and keys free of `?` give one value per placeholder. */
  lemma CreateBalanced(table: string, columns: JVal)
    requires Marks(table) == 0
    requires forall i :: 0 <= i < |OwnEntries(columns)| ==> Marks(OwnEntries(columns)[i].key) == 0
    ensures |CreateStatement(table, columns).values| == |OwnEntries(columns)|
    ensures forall i :: 0 <= i < |OwnEntries(columns)| ==>
      CreateStatement(table, columns).values[i] == OwnEntries(columns)[i].val
    ensures Marks(CreateStatement(table, columns).sql) == |CreateStatement(table, columns).values|
  {
    var es := OwnEntries(columns);
    MarksFree(", ");
    FieldsPlain(table, es);
    JoinMarks(Fields(table, es), ", ");
    PlacesMarks(|es|);
    JoinMarks(Places(|es|), ", ");
    QuoteMarks(table);
    InsertMarks(Quote(table), Join(Fields(table, es), ", "), Join(Places(|es|), ", "));
  }

  /** Without columns the statement lists no field and no value. */
  lemma EmptyCreate(table: string)
    ensures CreateStatement(table, Undef) == Statement("INSERT INTO " + Quote(table) + " () VALUES ()", [])
  {
  }

  // ---------------------------------------------------------------------
  // update (src/index.js:147-164)
  // ---------------------------------------------------------------------

  /** `` `t`.`f` = ? `` for each field. */
  function SetTerms(table: string, es: seq<Entry>): seq<string> {
    seq(|es|, i requires 0 <= i < |es| => Ref(table, es[i].key) + " = ?")
  }

  /** The fragments and values update pushes. */
  function UpdateOut(table: string, columns: JVal, wheres: JVal): Out {
    var es, w := OwnEntries(columns), WhereClause(table, wheres);
    Out(["UPDATE " + Quote(table) + " SET", Join(SetTerms(table, es), ", ")] + w.sql,
        EntryValues(es) + w.values, w.sites)
  }

  method Update(table: string, columns: JVal, wheres: JVal) returns (st: Statement)
    requires !Nullish(columns)
    requires AllCallable(WhereClause(table, wheres).sites)
    ensures st == Assemble(UpdateOut(table, columns, wheres))
  {
    var b := new Builder();
    var fields: seq<string> := [];
    b.PushSql("UPDATE " + Quote(table) + " SET");
    var es := OwnEntries(columns);
    var k := 0;
    while k < |es|
      invariant k <= |es|
      invariant b.sql == ["UPDATE " + Quote(table) + " SET"]
      invariant fields == SetTerms(table, es[..k])
      invariant b.values == EntryValues(es[..k])
    {
      fields := fields + [Ref(table, es[k].key) + " = ?"];
      b.PushValue(es[k].val);
      k := k + 1;
    }
    assert es[..k] == es;
    b.PushSql(Join(fields, ", "));
    ghost var w, out := WhereClause(table, wheres), UpdateOut(table, columns, wheres);
    assert out.sql == ["UPDATE " + Quote(table) + " SET", Join(SetTerms(table, es), ", ")] + w.sql;
    assert out.values == EntryValues(es) + w.values;
    assert b.sql == ["UPDATE " + Quote(table) + " SET", Join(SetTerms(table, es), ", ")];
    FillWheres(table, wheres, b);
    st := Statement(Join(b.sql, " "), b.values);
  }

  /** The SET values in key order, then the WHERE values in visit order. */
  lemma UpdateValues(table: string, columns: JVal, wheres: JVal)
    ensures UpdateOut(table, columns, wheres).values
      == EntryValues(OwnEntries(columns)) + SiteValues(WhereClause(table, wheres).sites)
  {
    var w := WhereClause(table, wheres);
    FillWheresInvariant(table, wheres);
    assert w.values == SiteValues(w.sites);
    assert UpdateOut(table, columns, wheres).values == EntryValues(OwnEntries(columns)) + w.values;
  }

  /** Without a non-empty WHERE the statement has no `WHERE` at all and so
      applies to every row. */
  lemma UpdateWithoutWheres(table: string, columns: JVal, wheres: JVal)
    requires !((wheres.Obj? && |wheres.entries| > 0) || (wheres.Arr? && |wheres.items| > 0))
    ensures Assemble(UpdateOut(table, columns, wheres))
      == Statement("UPDATE " + Quote(table) + " SET " + Join(SetTerms(table, OwnEntries(columns)), ", "),
                   EntryValues(OwnEntries(columns)))
  {
    var parts := ["UPDATE " + Quote(table) + " SET", Join(SetTerms(table, OwnEntries(columns)), ", ")];
    assert UpdateOut(table, columns, wheres).sql == parts;
    assert UpdateOut(table, columns, wheres).values == EntryValues(OwnEntries(columns)) + [];
    assert parts[1..] == [parts[1]];
    JoinOne(parts[1], " ");
  }

  lemma {:induction false} SetTermsMarks(table: string, es: seq<Entry>)
    requires Marks(table) == 0
    requires forall i :: 0 <= i < |es| ==> Marks(es[i].key) == 0
    ensures MarksIn(SetTerms(table, es)) == |es|
  {
    if es != [] {
      MarksRef(table, es[0].key);
      OneMark(" = ?", " = ", "");
      MarksAppend(Ref(table, es[0].key), " = ?");
      assert SetTerms(table, es)[1..] == SetTerms(table, es[1..]);
      SetTermsMarks(table, es[1..]);
    }
  }

  /** One value per placeholder, given names free of `?`. */
  lemma UpdateBalanced(table: string, columns: JVal, wheres: JVal)
    requires Marks(table) == 0
    requires forall i :: 0 <= i < |OwnEntries(columns)| ==> Marks(OwnEntries(columns)[i].key) == 0
    requires AllPlain(WhereClause(table, wheres).sites)
    ensures Marks(Assemble(UpdateOut(table, columns, wheres)).sql)
      == |Assemble(UpdateOut(table, columns, wheres)).values|
  {
    var es := OwnEntries(columns);
    FillWheresInvariant(table, wheres);
    QuoteMarks(table);
    Wrapped("UPDATE ", Quote(table), " SET");
    MarksFree(", ");
    SetTermsMarks(table, es);
    JoinMarks(SetTerms(table, es), ", ");
    TwoThenBalanced("UPDATE " + Quote(table) + " SET", Join(SetTerms(table, es), ", "),
                    EntryValues(es), WhereClause(table, wheres));
    AssembledBalanced(UpdateOut(table, columns, wheres));
  }

  lemma TwoThenBalanced(a: string, b: string, vs: seq<JVal>, w: Out)
    requires Marks(a) == 0 && Marks(b) == |vs| && Balanced(w)
    ensures MarksIn([a, b] + w.sql) == |vs + w.values|
  {
    assert [a, b][1..] == [b] && [b][1..] == [];
    MarksInAppend([a, b], w.sql);
  }

  // ---------------------------------------------------------------------
  // delete (src/index.js:171-180)
  // ---------------------------------------------------------------------

  /** The fragments and values delete pushes. */
  function DeleteOut(table: string, wheres: JVal): Out {
    Then(Kw("DELETE FROM " + Quote(table)), WhereClause(table, wheres))
  }

  method Delete(table: string, wheres: JVal) returns (st: Statement)
    requires AllCallable(WhereClause(table, wheres).sites)
    ensures st == Assemble(DeleteOut(table, wheres))
  {
    var b := new Builder();
    b.PushSql("DELETE FROM " + Quote(table));
    FillWheres(table, wheres, b);
    st := Statement(Join(b.sql, " "), b.values);
  }

  /** `` DELETE FROM `t` `` alone when there is no WHERE (every row), else
      followed by a space and the WHERE clause, whose values it binds. */
  lemma DeleteShape(table: string, wheres: JVal)
    ensures WhereClause(table, wheres).sql == [] ==>
      Assemble(DeleteOut(table, wheres)) == Statement("DELETE FROM " + Quote(table), [])
    ensures WhereClause(table, wheres).sql != [] ==>
      Assemble(DeleteOut(table, wheres)).sql
        == "DELETE FROM " + Quote(table) + " " + Join(WhereClause(table, wheres).sql, " ")
    ensures Assemble(DeleteOut(table, wheres)).values == SiteValues(WhereClause(table, wheres).sites)
  {
    FillWheresInvariant(table, wheres);
    var w := WhereClause(table, wheres);
    assert w.values == SiteValues(w.sites);
    assert DeleteOut(table, wheres).values == [] + w.values;
    if w.sql == [] {
      assert w.values == [];
      assert DeleteOut(table, wheres).sql == ["DELETE FROM " + Quote(table)];
    } else {
      JoinAppend(["DELETE FROM " + Quote(table)], w.sql, " ");
      JoinOne("DELETE FROM " + Quote(table), " ");
    }
  }

  /** One value per placeholder, given a table name and conditions free of `?`. */
  lemma DeleteBalanced(table: string, wheres: JVal)
    requires Marks(table) == 0
    requires AllPlain(WhereClause(table, wheres).sites)
    ensures Marks(Assemble(DeleteOut(table, wheres)).sql) == |Assemble(DeleteOut(table, wheres)).values|
  {
    FillWheresInvariant(table, wheres);
    QuoteMarks(table);
    PrefixMarks("DELETE FROM ", Quote(table));
    KeywordThenBalanced("DELETE FROM " + Quote(table), WhereClause(table, wheres));
  }

  lemma PrefixMarks(a: string, s: string)
    requires '?' !in a
    ensures Marks(a + s) == Marks(s)
  {
    MarksFree(a);
    MarksAppend(a, s);
  }

  lemma KeywordThenBalanced(head: string, w: Out)
    requires Marks(head) == 0 && Balanced(w)
    ensures Marks(Assemble(Then(Kw(head), w)).sql) == |Assemble(Then(Kw(head), w)).values|
  {
    KwBalanced(head);
    ThenBalanced(Kw(head), w);
    AssembledBalanced(Then(Kw(head), w));
  }
}
