/**
 The fragment emitters of src/helper.js. Each emitter appears twice: a
 function that says what one call appends (fragments, bind values and the
 conditions it renders), and a method that appends it to a caller-owned
 Builder step by step, branch for branch as the source does, proved to
 append exactly what the function says and to leave earlier entries alone.

 The functions are total. Where the source raises a TypeError (a
 non-string operator, `value[0]` on null, `.map` on a non-array) the
 methods carry a precondition excluding it, and the functions give some
 well-defined output that no caller meeting the precondition observes.
 */
module Helper {
  import opened Js
  import opened Utils
  import opened Fragments

  function Quote(s: string): string {
    "`" + s + "`"
  }

  /** `` `table`.`field` `` */
  function Ref(table: string, field: string): string {
    Quote(table) + "." + Quote(field)
  }

  // ---------------------------------------------------------------------
  // Columns (src/helper.js:26-51)
  // ---------------------------------------------------------------------

  /** One element of a column list: a pair renders with `AS`. */
  function Column(table: string, column: JVal): string {
    if IsArray(column) && |column.items| > 1 then
      Ref(table, ToStr(column.items[0])) + " AS " + Quote(ToStr(column.items[1]))
    else
      Ref(table, ToStr(column))
  }

  /** The rendered elements of a column list. */
  function ColumnTexts(table: string, columns: seq<JVal>): seq<string> {
    seq(|columns|, i requires 0 <= i < |columns| => Column(table, columns[i]))
  }

  /** genColumns: the elements, each qualified by `table`, joined by ", ". */
  function GenColumns(table: string, columns: seq<JVal>): string {
    Join(ColumnTexts(table, columns), ", ")
  }

  /** The list a mapping value names (`.map` raises on anything else). */
  function ListOf(v: JVal): seq<JVal> {
    if v.Arr? then v.items else []
  }

  /** `Object.keys(columns).map(tb => genColumns(tb, columns[tb]))`. */
  function TableColumns(es: seq<Entry>): seq<string> {
    seq(|es|, i requires 0 <= i < |es| => GenColumns(es[i].key, ListOf(es[i].val)))
  }

  /** The column specifications fillColumns can render without raising. */
  predicate ColumnsOk(columns: JVal) {
    columns.Obj? ==> forall i :: 0 <= i < |columns.entries| ==> columns.entries[i].val.Arr?
  }

  /** The fragments fillColumns appends: `*`, a column list, or nothing. */
  function ColumnsFragments(table: string, columns: JVal): seq<string> {
    if !Truthy(columns) || columns == Str("*") || columns == Arr([]) then ["*"]
    else if IsArray(columns) then [GenColumns(table, columns.items)]
    else if IsObject(columns) then [Join(TableColumns(columns.entries), ", ")]
    else []
  }

  method FillColumns(table: string, columns: JVal, b: Builder)
    requires ColumnsOk(columns)
    modifies b
    ensures b.sql == old(b.sql) + ColumnsFragments(table, columns)
    ensures b.values == old(b.values)
  {
    if !Truthy(columns) || columns == Str("*") || (IsArray(columns) && |columns.items| == 0) {
      b.PushSql("*");
    } else if IsArray(columns) {
      b.PushSql(GenColumns(table, columns.items));
    } else if IsObject(columns) {
      b.PushSql(Join(TableColumns(columns.entries), ", "));
    }
  }

  // ---------------------------------------------------------------------
  // Joins (src/helper.js:75-112)
  // ---------------------------------------------------------------------

  /** The descriptor keys fillJoins tries, in order, with the join they name. */
  const JoinKinds: seq<(string, string)> :=
    [("inner", "INNER JOIN"), ("left", "LEFT JOIN"), ("right", "RIGHT JOIN"),
     ("join", "JOIN"), ("cross", "CROSS JOIN")]

  /** Position in JoinKinds, from `n` on, of the first key the descriptor
      holds a truthy value for, or |JoinKinds| when it holds none. */
  function KindFrom(d: seq<Entry>, n: nat): (k: nat)
    requires n <= |JoinKinds|
    ensures n <= k <= |JoinKinds|
    ensures k < |JoinKinds| ==> Truthy(Get(d, JoinKinds[k].0))
    ensures forall j :: n <= j < k ==> !Truthy(Get(d, JoinKinds[j].0))
    decreases |JoinKinds| - n
  {
    if n == |JoinKinds| then n
    else if Truthy(Get(d, JoinKinds[n].0)) then n
    else KindFrom(d, n + 1)
  }

  /** `` LEFT JOIN `tb` ON `table`.`spec[0]` = `tb`.`spec[1]` `` for a mapping entry. */
  function MappingJoin(table: string, e: Entry): string {
    "LEFT JOIN " + Quote(e.key) + " ON " + Ref(table, ToStr(Index(e.val, 0)))
      + " = " + Ref(e.key, ToStr(Index(e.val, 1)))
  }

  /** What one element of a join list appends. */
  function ListJoin(table: string, join: JVal): seq<string> {
    if IsObject(join) then
      var k := KindFrom(join.entries, 0);
      if k == |JoinKinds| then []
      else
        var tables := Get(join.entries, JoinKinds[k].0);
        var on := Get(join.entries, "on");
        [JoinKinds[k].1 + " " + Quote(ToStr(Index(tables, 1))) + " ON "
          + Ref(ToStr(Index(tables, 0)), ToStr(Index(on, 0)))
          + " = " + Ref(ToStr(Index(tables, 1)), ToStr(Index(on, 1)))]
    else if IsArray(join) then
      ["LEFT JOIN " + Quote(ToStr(Index(join, 0))) + " ON " + Ref(table, ToStr(Index(join, 1)))
        + " = " + Ref(ToStr(Index(join, 0)), ToStr(Index(join, 2)))]
    else []
  }

  function MappingJoins(table: string, es: seq<Entry>, k: nat): seq<string>
    decreases |es| - k
  {
    if k >= |es| then [] else [MappingJoin(table, es[k])] + MappingJoins(table, es, k + 1)
  }

  function ListJoins(table: string, joins: seq<JVal>, k: nat): seq<string>
    decreases |joins| - k
  {
    if k >= |joins| then [] else ListJoin(table, joins[k]) + ListJoins(table, joins, k + 1)
  }

  /** The fragments fillJoins appends. */
  function JoinsFragments(table: string, joins: JVal): seq<string> {
    if IsObject(joins) then MappingJoins(table, joins.entries, 0)
    else if IsArray(joins) then ListJoins(table, joins.items, 0)
    else []
  }

  /** No mapping value is null or undefined, and every descriptor that is
      used has an `on` (otherwise `joins[tb][0]` or `join.on[0]` raises). */
  predicate JoinsOk(joins: JVal) {
    match joins
    case Obj(es) => forall i :: 0 <= i < |es| ==> !Nullish(es[i].val)
    case Arr(items) =>
      forall i :: 0 <= i < |items| && items[i].Obj? && KindFrom(items[i].entries, 0) < |JoinKinds|
        ==> !Nullish(Get(items[i].entries, "on"))
    case _ => true
  }

  method FillJoins(table: string, joins: JVal, b: Builder)
    requires JoinsOk(joins)
    modifies b
    ensures b.sql == old(b.sql) + JoinsFragments(table, joins)
    ensures b.values == old(b.values)
  {
    if IsObject(joins) {
      var es := joins.entries;
      var k := 0;
      while k < |es|
        invariant k <= |es|
        invariant old(b.sql) + MappingJoins(table, es, 0) == b.sql + MappingJoins(table, es, k)
        invariant b.values == old(b.values)
      {
        ghost var sql0, rest := b.sql, MappingJoins(table, es, k + 1);
        var tb := es[k].key;
        b.PushSql("LEFT JOIN " + Quote(tb) + " ON " + Ref(table, ToStr(Index(es[k].val, 0)))
          + " = " + Ref(tb, ToStr(Index(es[k].val, 1))));
        AppendAssoc(sql0, [MappingJoin(table, es[k])], rest);
        k := k + 1;
      }
    } else if IsArray(joins) {
      var items := joins.items;
      var k := 0;
      while k < |items|
        invariant k <= |items|
        invariant old(b.sql) + ListJoins(table, items, 0) == b.sql + ListJoins(table, items, k)
        invariant b.values == old(b.values)
      {
        ghost var sql0, rest := b.sql, ListJoins(table, items, k + 1);
        FillListJoin(table, items[k], b);
        AppendAssoc(sql0, ListJoin(table, items[k]), rest);
        k := k + 1;
      }
    }
  }

  /** The callback `(join) => …` of the `forEach` over a join list. */
  method FillListJoin(table: string, join: JVal, b: Builder)
    requires join.Obj? && KindFrom(join.entries, 0) < |JoinKinds| ==> !Nullish(Get(join.entries, "on"))
    modifies b
    ensures b.sql == old(b.sql) + ListJoin(table, join)
    ensures b.values == old(b.values)
  {
    if IsObject(join) {
      var d := join.entries;
      var tables, joinType;
      if Truthy(Get(d, "inner")) {
        tables, joinType := Get(d, "inner"), "INNER JOIN";
      } else if Truthy(Get(d, "left")) {
        tables, joinType := Get(d, "left"), "LEFT JOIN";
      } else if Truthy(Get(d, "right")) {
        tables, joinType := Get(d, "right"), "RIGHT JOIN";
      } else if Truthy(Get(d, "join")) {
        tables, joinType := Get(d, "join"), "JOIN";
      } else if Truthy(Get(d, "cross")) {
        tables, joinType := Get(d, "cross"), "CROSS JOIN";
      } else {
        return;
      }
      var on := Get(d, "on");
      b.PushSql(joinType + " " + Quote(ToStr(Index(tables, 1))) + " ON "
        + Ref(ToStr(Index(tables, 0)), ToStr(Index(on, 0)))
        + " = " + Ref(ToStr(Index(tables, 1)), ToStr(Index(on, 1))));
    } else if IsArray(join) {
      b.PushSql("LEFT JOIN " + Quote(ToStr(Index(join, 0))) + " ON " + Ref(table, ToStr(Index(join, 1)))
        + " = " + Ref(ToStr(Index(join, 0)), ToStr(Index(join, 2))));
    }
  }

  // ---------------------------------------------------------------------
  // One condition: genWhere (src/helper.js:297-351) and isExp (353-355)
  // ---------------------------------------------------------------------

  const ComparisonOps: set<string> := {"=", "!=", "<>", ">", ">=", "<", "<="}
  const BetweenOps: set<string> := {"BETWEEN", "NOTBETWEEN"}
  const NullOps: set<string> := {"NULL", "ISNULL", "IS NULL"}
  const NotNullOps: set<string> := {"NOTNULL", "NOT NULL", "ISNOTNULL", "IS NOT NULL"}

  /** The operator text of a condition (the source raises on any other). */
  function Operator(exp: seq<JVal>): string {
    if At(exp, 1).Str? then At(exp, 1).s else ""
  }

  /** The branches of genWhere's `switch`, one per group of case labels. */
  datatype Case = Compare | Like | NotLike | In | NotIn | Between | NotBetween | IsNull | IsNotNull | Other

  /** The branch the upper-cased operator selects. */
  function CaseOf(u: string): Case {
    if u in ComparisonOps then Compare
    else if u == "LIKE" then Like
    else if u == "NOTLIKE" then NotLike
    else if u == "IN" then In
    else if u == "NOTIN" then NotIn
    else if u == "BETWEEN" then Between
    else if u == "NOTBETWEEN" then NotBetween
    else if u in NullOps then IsNull
    else if u in NotNullOps then IsNotNull
    else Other
  }

  /** The fragment genWhere renders for `[field, operator, value]`: the
      column reference, then what the operator's branch writes after it. */
  function ConditionText(table: string, exp: seq<JVal>): string {
    Ref(table, ToStr(At(exp, 0))) + Suffix(Operator(exp))
  }

  /** The text each branch of the `switch` writes after the column reference. */
  function Suffix(op: string): string {
    match CaseOf(Upper(op))
    case Compare => " " + op + " ?"
    case Like => " LIKE ?"
    case NotLike => " NOT LIKE ?"
    case In => " IN (?)"
    case NotIn => " NOT IN (?)"
    case Between => " BETWEEN ? AND ?"
    case NotBetween => " NOT BETWEEN ? AND ?"
    case IsNull => " IS NULL"
    case IsNotNull => " IS NOT NULL"
    case Other => " = ?"
  }

  /** The bind values genWhere appends for `[field, operator, value]`. */
  function ConditionValues(exp: seq<JVal>): seq<JVal> {
    var value := At(exp, 2);
    match CaseOf(Upper(Operator(exp)))
    case Between | NotBetween => [Index(value, 0), Index(value, 1)]
    case IsNull | IsNotNull => []
    case Other => [At(exp, 1)]
    case _ => [value]
  }

  /** What one genWhere call appends. */
  function Condition(table: string, exp: seq<JVal>): Out {
    Out([ConditionText(table, exp)], ConditionValues(exp), [Site(table, exp)])
  }

  /** genWhere does not raise on this condition: the operator is a string
      and a BETWEEN value can be indexed. */
  predicate Callable(s: Site) {
    && At(s.exp, 1).Str?
    && (Upper(At(s.exp, 1).s) in BetweenOps ==> !Nullish(At(s.exp, 2)))
  }

  predicate AllCallable(sites: seq<Site>) {
    forall s :: s in sites ==> Callable(s)
  }

  method GenWhere(table: string, exp: seq<JVal>, b: Builder)
    requires Callable(Site(table, exp))
    modifies b
    ensures b.sql == old(b.sql) + Condition(table, exp).sql
    ensures b.values == old(b.values) + Condition(table, exp).values
  {
    var field, operator, value := At(exp, 0), At(exp, 1).s, At(exp, 2);
    var ref := Ref(table, ToStr(field));
    match CaseOf(Upper(operator))
    case Compare =>
      b.PushSql(ref + " " + operator + " ?");
      b.PushValue(value);
      assert ref + " " + operator + " ?" == ref + (" " + operator + " ?");
    case Like =>
      b.PushSql(ref + " LIKE ?");
      b.PushValue(value);
    case NotLike =>
      b.PushSql(ref + " NOT LIKE ?");
      b.PushValue(value);
    case In =>
      b.PushSql(ref + " IN (?)");
      b.PushValue(value);
    case NotIn =>
      b.PushSql(ref + " NOT IN (?)");
      b.PushValue(value);
    case Between =>
      b.PushSql(ref + " BETWEEN ? AND ?");
      b.PushValue(Index(value, 0));
      b.PushValue(Index(value, 1));
    case NotBetween =>
      b.PushSql(ref + " NOT BETWEEN ? AND ?");
      b.PushValue(Index(value, 0));
      b.PushValue(Index(value, 1));
    case IsNull =>
      b.PushSql(ref + " IS NULL");
    case IsNotNull =>
      b.PushSql(ref + " IS NOT NULL");
    case Other =>
      b.PushSql(ref + " = ?");
      b.PushValue(At(exp, 1));
  }

  /** isExp: an array whose first element is a string is a condition. */
  predicate IsExp(v: JVal) {
    Truthy(v) && IsArray(v) && IsString(At(v.items, 0))
  }

  // ---------------------------------------------------------------------
  // The WHERE walker: fillWheres, genWheres (src/helper.js:213-295)
  // ---------------------------------------------------------------------

  function AndIf(index: nat): Out {
    if index > 0 then Kw("AND") else Nothing
  }

  /** `OR ( … )` around a group. */
  function OrGroup(body: Out): Out {
    Then(Then(Kw("OR"), Kw("(")), Then(body, Kw(")")))
  }

  /** `AND ( … )` around a group (fillWhere only). */
  function AndGroup(body: Out): Out {
    Then(Then(Kw("AND"), Kw("(")), Then(body, Kw(")")))
  }

  /** Pushing `kw`, `(`, a body and `)` appends the group `kw ( body )`. */
  lemma Grouped(sql0: seq<string>, values0: seq<JVal>, kw: string, body: Out)
    ensures sql0 + [kw] + ["("] + body.sql + [")"]
      == sql0 + Then(Then(Kw(kw), Kw("(")), Then(body, Kw(")"))).sql
    ensures values0 + body.values == values0 + Then(Then(Kw(kw), Kw("(")), Then(body, Kw(")"))).values
  {
    assert Then(Then(Kw(kw), Kw("(")), Then(body, Kw(")"))).values == body.values;
  }

  /** Pushing `AND` unless first, then a body, appends `Then(AndIf(index), body)`. */
  lemma Guarded(sql0: seq<string>, values0: seq<JVal>, index: nat, body: Out)
    ensures (if index > 0 then sql0 + ["AND"] else sql0) + body.sql == sql0 + Then(AndIf(index), body).sql
    ensures values0 + body.values == values0 + Then(AndIf(index), body).values
  {
    AppendAssoc(sql0, AndIf(index).sql, body.sql);
  }

  /** What genWheres(table, v) appends. */
  function Wheres(table: string, v: JVal): Out
    decreases v, 1
  {
    match v
    case Obj(es) =>
      var i := Find(es, "or");
      if i < |es| && Truthy(es[i].val) then OrGroup(Wheres(table, es[i].val))
      else Scopes(es, 0)
    case Arr(items) =>
      if IsExp(v) then Condition(table, items) else Items(table, items, 0)
    case _ => Nothing
  }

  /** One entry of a mapping without `or`, its key a table (lines 240-258).
      An entry whose value is a mapping without `or` recurses on that
      mapping's `or`, which is falsy, so it adds only its `AND`. */
  function Scope(e: Entry, index: nat): Out
    decreases e
  {
    match e.val
    case Obj(inner) =>
      var j := Find(inner, "or");
      if j < |inner| && Truthy(inner[j].val) then OrGroup(Wheres(e.key, inner[j].val))
      else Then(AndIf(index), if j < |inner| then Wheres(e.key, inner[j].val) else Nothing)
    case _ => Then(AndIf(index), Wheres(e.key, e.val))
  }

  /** Entries k.. of a mapping without `or` (lines 238-259). */
  function Scopes(es: seq<Entry>, k: nat): Out
    decreases es, |es| - k
  {
    if k >= |es| then Nothing else Then(Scope(es[k], k), Scopes(es, k + 1))
  }

  /** One child of a list that is not itself a condition (lines 266-291). */
  function Item(table: string, where: JVal, index: nat): Out
    decreases where, 2
  {
    match where
    case Obj(es) =>
      var j := Find(es, "or");
      if j < |es| && Truthy(es[j].val) then OrGroup(Wheres(table, es[j].val))
      else Then(AndIf(index), Tables(es, 0))
    case Arr(_) => Then(AndIf(index), Wheres(table, where))
    case _ => Nothing
  }

  /** Children k.. of a list that is not itself a condition (lines 265-292). */
  function Items(table: string, items: seq<JVal>, k: nat): Out
    decreases items, |items| - k
  {
    if k >= |items| then Nothing else Then(Item(table, items[k], k), Items(table, items, k + 1))
  }

  /** One table of a table-scope child of a list (lines 279-283). */
  function TableEntry(e: Entry, index: nat): Out
    decreases e
  {
    Then(AndIf(index), Wheres(e.key, e.val))
  }

  /** Entries k.. of a table-scope child of a list (lines 277-284). */
  function Tables(es: seq<Entry>, k: nat): Out
    decreases es, |es| - k
  {
    if k >= |es| then Nothing else Then(TableEntry(es[k], k), Tables(es, k + 1))
  }

  /** One entry of a field/value mapping: `` `t`.`k` = ? ``, after `AND` unless first. */
  function Equality(table: string, e: Entry, index: nat): Out {
    Then(AndIf(index), Condition(table, [Str(e.key), Str("="), e.val]))
  }

  /** Entries k.. of a field/value mapping, joined by AND. */
  function Equalities(table: string, es: seq<Entry>, k: nat): Out
    decreases |es| - k
  {
    if k >= |es| then Nothing else Then(Equality(table, es[k], k), Equalities(table, es, k + 1))
  }

  /** What fillWheres(table, wheres) appends. */
  function WhereClause(table: string, wheres: JVal): Out {
    if IsObject(wheres) && |wheres.entries| > 0 then Then(Kw("WHERE"), Equalities(table, wheres.entries, 0))
    else if IsArray(wheres) && |wheres.items| > 0 then Then(Kw("WHERE"), Wheres(table, wheres))
    else Nothing
  }

  method FillWheres(table: string, wheres: JVal, b: Builder)
    requires AllCallable(WhereClause(table, wheres).sites)
    modifies b
    ensures b.sql == old(b.sql) + WhereClause(table, wheres).sql
    ensures b.values == old(b.values) + WhereClause(table, wheres).values
  {
    if IsObject(wheres) && |wheres.entries| > 0 {
      ghost var body := Equalities(table, wheres.entries, 0);
      assert WhereClause(table, wheres) == Then(Kw("WHERE"), body);
      b.PushSql("WHERE");
      FillEqualities(table, wheres.entries, b);
      AppendAssoc(old(b.sql), ["WHERE"], body.sql);
    } else if IsArray(wheres) && |wheres.items| > 0 {
      ghost var body := Wheres(table, wheres);
      assert WhereClause(table, wheres) == Then(Kw("WHERE"), body);
      b.PushSql("WHERE");
      GenWheres(table, wheres, b);
      AppendAssoc(old(b.sql), ["WHERE"], body.sql);
    }
  }

  /** The `forEach` over the keys of a field/value mapping. */
  method FillEqualities(table: string, es: seq<Entry>, b: Builder)
    modifies b
    ensures b.sql == old(b.sql) + Equalities(table, es, 0).sql
    ensures b.values == old(b.values) + Equalities(table, es, 0).values
  {
    var k := 0;
    while k < |es|
      invariant k <= |es|
      invariant old(b.sql) + Equalities(table, es, 0).sql == b.sql + Equalities(table, es, k).sql
      invariant old(b.values) + Equalities(table, es, 0).values == b.values + Equalities(table, es, k).values
    {
      ghost var sql0, values0 := b.sql, b.values;
      ghost var step, rest := Equality(table, es[k], k), Equalities(table, es, k + 1);
      FillEquality(table, es[k], k, b);
      AppendAssoc(sql0, step.sql, rest.sql);
      AppendAssoc(values0, step.values, rest.values);
      k := k + 1;
    }
  }

  /** The callback `(field, index) => …` of that `forEach`. */
  method FillEquality(table: string, e: Entry, index: nat, b: Builder)
    modifies b
    ensures b.sql == old(b.sql) + Equality(table, e, index).sql
    ensures b.values == old(b.values) + Equality(table, e, index).values
  {
    if index > 0 {
      b.PushSql("AND");
    }
    assert Upper("=") == "=";
    GenWhere(table, [Str(e.key), Str("="), e.val], b);
    Guarded(old(b.sql), old(b.values), index, Condition(table, [Str(e.key), Str("="), e.val]));
  }

  method GenWheres(table: string, v: JVal, b: Builder)
    requires AllCallable(Wheres(table, v).sites)
    modifies b
    ensures b.sql == old(b.sql) + Wheres(table, v).sql
    ensures b.values == old(b.values) + Wheres(table, v).values
    decreases v, 2
  {
    match v {
      case Obj(es) =>
        var i := Find(es, "or");
        if i < |es| && Truthy(es[i].val) {
          b.PushSql("OR");
          b.PushSql("(");
          GenWheres(table, es[i].val, b);
          b.PushSql(")");
          Grouped(old(b.sql), old(b.values), "OR", Wheres(table, es[i].val));
        } else {
          GenScopes(es, b);
        }
      case Arr(items) =>
        if IsExp(v) {
          GenWhere(table, items, b);
        } else {
          GenItems(table, items, b);
        }
      case _ =>
    }
  }

  /** The `forEach` over the keys of a mapping without `or` (lines 238-259). */
  method GenScopes(es: seq<Entry>, b: Builder)
    requires AllCallable(Scopes(es, 0).sites)
    modifies b
    ensures b.sql == old(b.sql) + Scopes(es, 0).sql
    ensures b.values == old(b.values) + Scopes(es, 0).values
    decreases es, 1
  {
    var k := 0;
    while k < |es|
      invariant k <= |es|
      invariant AllCallable(Scopes(es, k).sites)
      invariant old(b.sql) + Scopes(es, 0).sql == b.sql + Scopes(es, k).sql
      invariant old(b.values) + Scopes(es, 0).values == b.values + Scopes(es, k).values
    {
      ghost var sql0, values0 := b.sql, b.values;
      ghost var step, rest := Scope(es[k], k), Scopes(es, k + 1);
      GenScope(es[k], k, b);
      AppendAssoc(sql0, step.sql, rest.sql);
      AppendAssoc(values0, step.values, rest.values);
      k := k + 1;
    }
  }

  /** The callback `(tb, index) => …` of that `forEach`. */
  method GenScope(e: Entry, index: nat, b: Builder)
    requires AllCallable(Scope(e, index).sites)
    modifies b
    ensures b.sql == old(b.sql) + Scope(e, index).sql
    ensures b.values == old(b.values) + Scope(e, index).values
    decreases e, 0
  {
    match e.val {
      case Obj(inner) =>
        var j := Find(inner, "or");
        if j < |inner| && Truthy(inner[j].val) {
          b.PushSql("OR");
          b.PushSql("(");
          GenWheres(e.key, inner[j].val, b);
          b.PushSql(")");
          Grouped(old(b.sql), old(b.values), "OR", Wheres(e.key, inner[j].val));
        } else {
          if index > 0 {
            b.PushSql("AND");
          }
          if j < |inner| {
            GenWheres(e.key, inner[j].val, b);
            Guarded(old(b.sql), old(b.values), index, Wheres(e.key, inner[j].val));
          } else {
            Guarded(old(b.sql), old(b.values), index, Nothing);
          }
        }
      case _ =>
        if index > 0 {
          b.PushSql("AND");
        }
        GenWheres(e.key, e.val, b);
        Guarded(old(b.sql), old(b.values), index, Wheres(e.key, e.val));
    }
  }

  /** The `forEach` over the children of a list (lines 265-292). */
  method GenItems(table: string, items: seq<JVal>, b: Builder)
    requires AllCallable(Items(table, items, 0).sites)
    modifies b
    ensures b.sql == old(b.sql) + Items(table, items, 0).sql
    ensures b.values == old(b.values) + Items(table, items, 0).values
    decreases items, 1
  {
    var k := 0;
    while k < |items|
      invariant k <= |items|
      invariant AllCallable(Items(table, items, k).sites)
      invariant old(b.sql) + Items(table, items, 0).sql == b.sql + Items(table, items, k).sql
      invariant old(b.values) + Items(table, items, 0).values == b.values + Items(table, items, k).values
    {
      ghost var sql0, values0 := b.sql, b.values;
      ghost var step, rest := Item(table, items[k], k), Items(table, items, k + 1);
      GenItem(table, items[k], k, b);
      AppendAssoc(sql0, step.sql, rest.sql);
      AppendAssoc(values0, step.values, rest.values);
      k := k + 1;
    }
  }

  /** The callback `(where, index) => …` of that `forEach`. */
  method GenItem(table: string, where: JVal, index: nat, b: Builder)
    requires AllCallable(Item(table, where, index).sites)
    modifies b
    ensures b.sql == old(b.sql) + Item(table, where, index).sql
    ensures b.values == old(b.values) + Item(table, where, index).values
    decreases where, 3
  {
    match where {
      case Obj(es) =>
        var j := Find(es, "or");
        if j < |es| && Truthy(es[j].val) {
          b.PushSql("OR");
          b.PushSql("(");
          GenWheres(table, es[j].val, b);
          b.PushSql(")");
          Grouped(old(b.sql), old(b.values), "OR", Wheres(table, es[j].val));
        } else {
          if index > 0 {
            b.PushSql("AND");
          }
          GenTables(es, b);
          Guarded(old(b.sql), old(b.values), index, Tables(es, 0));
        }
      case Arr(_) =>
        if index > 0 {
          b.PushSql("AND");
        }
        GenWheres(table, where, b);
        Guarded(old(b.sql), old(b.values), index, Wheres(table, where));
      case _ =>
    }
  }

  /** The inner `forEach` over the tables of a list child (lines 277-284). */
  method GenTables(es: seq<Entry>, b: Builder)
    requires AllCallable(Tables(es, 0).sites)
    modifies b
    ensures b.sql == old(b.sql) + Tables(es, 0).sql
    ensures b.values == old(b.values) + Tables(es, 0).values
    decreases es, 1
  {
    var k := 0;
    while k < |es|
      invariant k <= |es|
      invariant AllCallable(Tables(es, k).sites)
      invariant old(b.sql) + Tables(es, 0).sql == b.sql + Tables(es, k).sql
      invariant old(b.values) + Tables(es, 0).values == b.values + Tables(es, k).values
    {
      ghost var sql0, values0 := b.sql, b.values;
      ghost var step, rest := TableEntry(es[k], k), Tables(es, k + 1);
      GenTableEntry(es[k], k, b);
      AppendAssoc(sql0, step.sql, rest.sql);
      AppendAssoc(values0, step.values, rest.values);
      k := k + 1;
    }
  }

  /** The callback `(tb, idx) => …` of that `forEach`. */
  method GenTableEntry(e: Entry, index: nat, b: Builder)
    requires AllCallable(TableEntry(e, index).sites)
    modifies b
    ensures b.sql == old(b.sql) + TableEntry(e, index).sql
    ensures b.values == old(b.values) + TableEntry(e, index).values
    decreases e, 0
  {
    if index > 0 {
      b.PushSql("AND");
    }
    GenWheres(e.key, e.val, b);
    Guarded(old(b.sql), old(b.values), index, Wheres(e.key, e.val));
  }

  // ---------------------------------------------------------------------
  // The older walker: fillWhere (src/helper.js:137-176)
  // ---------------------------------------------------------------------

  /** What fillWhere(table, where) appends. */
  function Legacy(table: string, v: JVal): Out
    decreases v, 1
  {
    match v
    case Obj(es) =>
      var i := Find(es, "or");
      var a := Find(es, "and");
      if i < |es| && Truthy(es[i].val) then OrGroup(Legacy(table, es[i].val))
      else if a < |es| && Truthy(es[a].val) then AndGroup(Legacy(table, es[a].val))
      else Equalities(table, es, 0)
    case Arr(items) =>
      if IsExp(v) then Condition(table, items) else LegacyItems(table, items, 0)
    case _ => Nothing
  }

  /** One child of a list that fillWhere walks (lines 164-172). */
  function LegacyItem(table: string, wh: JVal, index: nat): Out
    decreases wh, 2
  {
    if IsExp(wh) then Then(AndIf(index), Condition(table, wh.items))
    else Legacy(table, wh)
  }

  /** Children k.. of a list that fillWhere walks (lines 163-173). */
  function LegacyItems(table: string, items: seq<JVal>, k: nat): Out
    decreases items, |items| - k
  {
    if k >= |items| then Nothing else Then(LegacyItem(table, items[k], k), LegacyItems(table, items, k + 1))
  }

  method FillWhere(table: string, where: JVal, b: Builder)
    requires AllCallable(Legacy(table, where).sites)
    modifies b
    ensures b.sql == old(b.sql) + Legacy(table, where).sql
    ensures b.values == old(b.values) + Legacy(table, where).values
    decreases where, 2
  {
    match where {
      case Obj(es) =>
        var i := Find(es, "or");
        var a := Find(es, "and");
        if i < |es| && Truthy(es[i].val) {
          b.PushSql("OR");
          b.PushSql("(");
          FillWhere(table, es[i].val, b);
          b.PushSql(")");
          Grouped(old(b.sql), old(b.values), "OR", Legacy(table, es[i].val));
        } else if a < |es| && Truthy(es[a].val) {
          b.PushSql("AND");
          b.PushSql("(");
          FillWhere(table, es[a].val, b);
          b.PushSql(")");
          Grouped(old(b.sql), old(b.values), "AND", Legacy(table, es[a].val));
        } else {
          FillEqualities(table, es, b);
        }
      case Arr(items) =>
        if IsExp(where) {
          GenWhere(table, items, b);
        } else {
          FillWhereItems(table, items, b);
        }
      case _ =>
    }
  }

  /** The `forEach` over the children of a list (lines 163-173). */
  method FillWhereItems(table: string, items: seq<JVal>, b: Builder)
    requires AllCallable(LegacyItems(table, items, 0).sites)
    modifies b
    ensures b.sql == old(b.sql) + LegacyItems(table, items, 0).sql
    ensures b.values == old(b.values) + LegacyItems(table, items, 0).values
    decreases items, 1
  {
    var k := 0;
    while k < |items|
      invariant k <= |items|
      invariant AllCallable(LegacyItems(table, items, k).sites)
      invariant old(b.sql) + LegacyItems(table, items, 0).sql == b.sql + LegacyItems(table, items, k).sql
      invariant old(b.values) + LegacyItems(table, items, 0).values == b.values + LegacyItems(table, items, k).values
    {
      ghost var sql0, values0 := b.sql, b.values;
      ghost var step, rest := LegacyItem(table, items[k], k), LegacyItems(table, items, k + 1);
      FillWhereItem(table, items[k], k, b);
      AppendAssoc(sql0, step.sql, rest.sql);
      AppendAssoc(values0, step.values, rest.values);
      k := k + 1;
    }
  }

  /** The callback `(wh, index) => …` of that `forEach`. */
  method FillWhereItem(table: string, wh: JVal, index: nat, b: Builder)
    requires AllCallable(LegacyItem(table, wh, index).sites)
    modifies b
    ensures b.sql == old(b.sql) + LegacyItem(table, wh, index).sql
    ensures b.values == old(b.values) + LegacyItem(table, wh, index).values
    decreases wh, 3
  {
    if IsExp(wh) {
      if index > 0 {
        b.PushSql("AND");
      }
      GenWhere(table, wh.items, b);
      Guarded(old(b.sql), old(b.values), index, Condition(table, wh.items));
    } else {
      FillWhere(table, wh, b);
    }
  }

  // ---------------------------------------------------------------------
  // Ordering and limits (src/helper.js:369-400)
  // ---------------------------------------------------------------------

  /** The text of a direction (`toUpperCase` raises on anything but a string). */
  function Direction(v: JVal): string {
    if v.Str? then Upper(v.s) else ""
  }

  /** One element of an order list. */
  function OrderTerm(table: string, field: JVal): string {
    if IsArray(field) && |field.items| > 1 && Direction(field.items[1]) == "DESC" then
      Ref(table, ToStr(field.items[0])) + " DESC"
    else
      Ref(table, ToStr(field)) + " ASC"
  }

  /** The rendered terms of an order list. */
  function OrderTexts(table: string, orders: seq<JVal>): seq<string> {
    seq(|orders|, i requires 0 <= i < |orders| => OrderTerm(table, orders[i]))
  }

  /** genOrders: the terms, each qualified by `table`, joined by ", ". */
  function GenOrders(table: string, orders: seq<JVal>): string {
    Join(OrderTexts(table, orders), ", ")
  }

  function TableOrders(es: seq<Entry>): seq<string> {
    seq(|es|, i requires 0 <= i < |es| => GenOrders(es[i].key, ListOf(es[i].val)))
  }

  /** An order element whose direction can be upper-cased. */
  predicate OrderFieldOk(field: JVal) {
    IsArray(field) && |field.items| > 1 ==> field.items[1].Str?
  }

  predicate OrderListOk(fields: seq<JVal>) {
    forall i :: 0 <= i < |fields| ==> OrderFieldOk(fields[i])
  }

  /** The order specifications fillOrders can render without raising. */
  predicate OrdersOk(orders: JVal) {
    match orders
    case Arr(items) => OrderListOk(items)
    case Obj(es) => forall i :: 0 <= i < |es| ==> es[i].val.Arr? && OrderListOk(es[i].val.items)
    case _ => true
  }

  /** The fragments fillOrders appends. */
  function OrdersFragments(table: string, orders: JVal): seq<string> {
    if IsArray(orders) && |orders.items| > 0 then ["ORDER BY", GenOrders(table, orders.items)]
    else if IsObject(orders) then ["ORDER BY", Join(TableOrders(orders.entries), ", ")]
    else []
  }

  method FillOrders(table: string, orders: JVal, b: Builder)
    requires OrdersOk(orders)
    modifies b
    ensures b.sql == old(b.sql) + OrdersFragments(table, orders)
    ensures b.values == old(b.values)
  {
    if IsArray(orders) && |orders.items| > 0 {
      b.PushSql("ORDER BY");
      b.PushSql(GenOrders(table, orders.items));
    } else if IsObject(orders) {
      b.PushSql("ORDER BY");
      b.PushSql(Join(TableOrders(orders.entries), ", "));
    }
  }

  /** What fillLimits(page, size) appends. */
  function Limit(page: int, size: int): Out {
    Out(["LIMIT ?, ?"], [Int((page - 1) * size), Int(size)], [])
  }

  method FillLimits(page: int, size: int, b: Builder)
    modifies b
    ensures b.sql == old(b.sql) + Limit(page, size).sql
    ensures b.values == old(b.values) + Limit(page, size).values
  {
    b.PushSql("LIMIT ?, ?");
    b.PushValue(Int((page - 1) * size));
    b.PushValue(Int(size * 1));
  }
}
