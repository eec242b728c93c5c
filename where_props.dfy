/**
 The central invariant of the WHERE emitters (genWhere, genWheres,
 fillWheres, fillWhere): what one call appends is its rendered conditions,
 in the order it visits them, separated by connective keywords only; its
 bind values are those conditions' values in the same order; and so, when
 identifiers hold no `?`, the placeholders of the appended fragments match
 the appended values one for one.
 */
module WhereProps {
  import opened Js
  import opened Fragments
  import opened Helper

  /** The fragments the walkers emit besides rendered conditions. */
  const Keywords: set<string> := {"WHERE", "AND", "OR", "(", ")"}

  /** The fragments that are not connective keywords, in order. */
  function Conditions(sql: seq<string>): seq<string> {
    if sql == [] then [] else (if sql[0] in Keywords then [] else [sql[0]]) + Conditions(sql[1..])
  }

  /** The fragments the visited conditions render, in order. */
  function SiteTexts(sites: seq<Site>): seq<string> {
    if sites == [] then [] else [ConditionText(sites[0].table, sites[0].exp)] + SiteTexts(sites[1..])
  }

  /** The bind values the visited conditions append, in order. */
  function SiteValues(sites: seq<Site>): seq<JVal> {
    if sites == [] then [] else ConditionValues(sites[0].exp) + SiteValues(sites[1..])
  }

  /** An emission is its visited conditions, interleaved with keywords only. */
  predicate Traced(o: Out) {
    Conditions(o.sql) == SiteTexts(o.sites) && o.values == SiteValues(o.sites)
  }

  /** A condition whose table and field name hold no `?`. */
  predicate Plain(s: Site) {
    Marks(s.table) == 0 && Marks(ToStr(At(s.exp, 0))) == 0
  }

  predicate AllPlain(sites: seq<Site>) {
    forall s :: s in sites ==> Plain(s)
  }

  // ---------------------------------------------------------------------
  // Composition
  // ---------------------------------------------------------------------

  lemma {:induction false} ConditionsAppend(a: seq<string>, b: seq<string>)
    ensures Conditions(a + b) == Conditions(a) + Conditions(b)
  {
    if a == [] {
      assert a + b == b;
    } else {
      assert (a + b)[1..] == a[1..] + b;
      ConditionsAppend(a[1..], b);
    }
  }

  lemma {:induction false} SiteTextsAppend(a: seq<Site>, b: seq<Site>)
    ensures SiteTexts(a + b) == SiteTexts(a) + SiteTexts(b)
  {
    if a == [] {
      assert a + b == b;
    } else {
      assert (a + b)[1..] == a[1..] + b;
      SiteTextsAppend(a[1..], b);
      assert SiteTexts(a + b) == [ConditionText(a[0].table, a[0].exp)] + SiteTexts(a[1..] + b);
    }
  }

  lemma {:induction false} SiteValuesAppend(a: seq<Site>, b: seq<Site>)
    ensures SiteValues(a + b) == SiteValues(a) + SiteValues(b)
  {
    if a == [] {
      assert a + b == b;
    } else {
      var ab := a + b;
      assert ab[0] == a[0];
      assert ab[1..] == a[1..] + b;
      SiteValuesAppend(a[1..], b);
      var head := ConditionValues(a[0].exp);
      calc {
        SiteValues(ab);
        head + SiteValues(a[1..] + b);
        head + (SiteValues(a[1..]) + SiteValues(b));
        (head + SiteValues(a[1..])) + SiteValues(b);
      }
    }
  }

  lemma TracedThen(a: Out, b: Out)
    requires Traced(a) && Traced(b)
    ensures Traced(Then(a, b))
  {
    ConditionsAppend(a.sql, b.sql);
    SiteTextsAppend(a.sites, b.sites);
    SiteValuesAppend(a.sites, b.sites);
  }

  lemma TracedKw(s: string)
    requires s in Keywords
    ensures Traced(Kw(s))
  {
    assert [s][1..] == [];
  }

  lemma TracedAndIf(index: nat)
    ensures Traced(AndIf(index))
  {
    if index > 0 {
      TracedKw("AND");
    }
  }

  lemma TracedOrGroup(body: Out)
    requires Traced(body)
    ensures Traced(OrGroup(body))
  {
    TracedKw("OR");
    TracedKw("(");
    TracedKw(")");
    TracedThen(Kw("OR"), Kw("("));
    TracedThen(body, Kw(")"));
    TracedThen(Then(Kw("OR"), Kw("(")), Then(body, Kw(")")));
  }

  lemma TracedAndGroup(body: Out)
    requires Traced(body)
    ensures Traced(AndGroup(body))
  {
    TracedKw("AND");
    TracedKw("(");
    TracedKw(")");
    TracedThen(Kw("AND"), Kw("("));
    TracedThen(body, Kw(")"));
    TracedThen(Then(Kw("AND"), Kw("(")), Then(body, Kw(")")));
  }

  /** A rendered condition starts with a backtick, so it is never a keyword. */
  lemma TracedCondition(table: string, exp: seq<JVal>)
    ensures Traced(Condition(table, exp))
  {
    var text := ConditionText(table, exp);
    var ref := Ref(table, ToStr(At(exp, 0)));
    assert ref[0] == '`';
    assert text[0] == '`';
    assert text !in Keywords;
    var texts: seq<string> := [text];
    assert texts[1..] == [];
    var sites: seq<Site> := [Site(table, exp)];
    assert sites[1..] == [];
  }

  // ---------------------------------------------------------------------
  // The walkers are traced
  // ---------------------------------------------------------------------

  lemma {:induction false} WheresTraced(table: string, v: JVal)
    ensures Traced(Wheres(table, v))
    decreases v, 1
  {
    match v
    case Obj(es) =>
      var i := Find(es, "or");
      if i < |es| && Truthy(es[i].val) {
        WheresTraced(table, es[i].val);
        TracedOrGroup(Wheres(table, es[i].val));
      } else {
        ScopesTraced(es, 0);
      }
    case Arr(items) =>
      if IsExp(v) {
        TracedCondition(table, items);
      } else {
        ItemsTraced(table, items, 0);
      }
    case _ =>
  }

  lemma {:induction false} ScopeTraced(e: Entry, index: nat)
    ensures Traced(Scope(e, index))
    decreases e
  {
    TracedAndIf(index);
    match e.val
    case Obj(inner) =>
      var j := Find(inner, "or");
      if j < |inner| && Truthy(inner[j].val) {
        WheresTraced(e.key, inner[j].val);
        TracedOrGroup(Wheres(e.key, inner[j].val));
      } else if j < |inner| {
        WheresTraced(e.key, inner[j].val);
        TracedThen(AndIf(index), Wheres(e.key, inner[j].val));
      } else {
        TracedThen(AndIf(index), Nothing);
      }
    case _ =>
      WheresTraced(e.key, e.val);
      TracedThen(AndIf(index), Wheres(e.key, e.val));
  }

  lemma {:induction false} ScopesTraced(es: seq<Entry>, k: nat)
    ensures Traced(Scopes(es, k))
    decreases es, |es| - k
  {
    if k < |es| {
      ScopeTraced(es[k], k);
      ScopesTraced(es, k + 1);
      TracedThen(Scope(es[k], k), Scopes(es, k + 1));
    }
  }

  lemma {:induction false} ItemTraced(table: string, where: JVal, index: nat)
    ensures Traced(Item(table, where, index))
    decreases where, 2
  {
    TracedAndIf(index);
    match where
    case Obj(es) =>
      var j := Find(es, "or");
      if j < |es| && Truthy(es[j].val) {
        WheresTraced(table, es[j].val);
        TracedOrGroup(Wheres(table, es[j].val));
      } else {
        TablesTraced(es, 0);
        TracedThen(AndIf(index), Tables(es, 0));
      }
    case Arr(_) =>
      WheresTraced(table, where);
      TracedThen(AndIf(index), Wheres(table, where));
    case _ =>
  }

  lemma {:induction false} ItemsTraced(table: string, items: seq<JVal>, k: nat)
    ensures Traced(Items(table, items, k))
    decreases items, |items| - k
  {
    if k < |items| {
      ItemTraced(table, items[k], k);
      ItemsTraced(table, items, k + 1);
      TracedThen(Item(table, items[k], k), Items(table, items, k + 1));
    }
  }

  lemma {:induction false} TablesTraced(es: seq<Entry>, k: nat)
    ensures Traced(Tables(es, k))
    decreases es, |es| - k
  {
    if k < |es| {
      TracedAndIf(k);
      WheresTraced(es[k].key, es[k].val);
      TracedThen(AndIf(k), Wheres(es[k].key, es[k].val));
      TablesTraced(es, k + 1);
      TracedThen(TableEntry(es[k], k), Tables(es, k + 1));
    }
  }

  lemma {:induction false} EqualitiesTraced(table: string, es: seq<Entry>, k: nat)
    ensures Traced(Equalities(table, es, k))
    decreases |es| - k
  {
    if k < |es| {
      var c := Condition(table, [Str(es[k].key), Str("="), es[k].val]);
      TracedAndIf(k);
      TracedCondition(table, [Str(es[k].key), Str("="), es[k].val]);
      TracedThen(AndIf(k), c);
      EqualitiesTraced(table, es, k + 1);
      TracedThen(Equality(table, es[k], k), Equalities(table, es, k + 1));
    }
  }

  lemma WhereClauseTraced(table: string, wheres: JVal)
    ensures Traced(WhereClause(table, wheres))
  {
    TracedKw("WHERE");
    if wheres.Obj? && |wheres.entries| > 0 {
      EqualitiesTraced(table, wheres.entries, 0);
      TracedThen(Kw("WHERE"), Equalities(table, wheres.entries, 0));
    } else if wheres.Arr? && |wheres.items| > 0 {
      WheresTraced(table, wheres);
      TracedThen(Kw("WHERE"), Wheres(table, wheres));
    }
  }

  lemma {:induction false} LegacyTraced(table: string, v: JVal)
    ensures Traced(Legacy(table, v))
    decreases v, 1
  {
    match v
    case Obj(es) =>
      var i := Find(es, "or");
      var a := Find(es, "and");
      if i < |es| && Truthy(es[i].val) {
        LegacyTraced(table, es[i].val);
        TracedOrGroup(Legacy(table, es[i].val));
      } else if a < |es| && Truthy(es[a].val) {
        LegacyTraced(table, es[a].val);
        TracedAndGroup(Legacy(table, es[a].val));
      } else {
        EqualitiesTraced(table, es, 0);
      }
    case Arr(items) =>
      if IsExp(v) {
        TracedCondition(table, items);
      } else {
        LegacyItemsTraced(table, items, 0);
      }
    case _ =>
  }

  lemma {:induction false} LegacyItemsTraced(table: string, items: seq<JVal>, k: nat)
    ensures Traced(LegacyItems(table, items, k))
    decreases items, |items| - k
  {
    if k < |items| {
      var wh := items[k];
      if IsExp(wh) {
        TracedAndIf(k);
        TracedCondition(table, wh.items);
        TracedThen(AndIf(k), Condition(table, wh.items));
      } else {
        LegacyTraced(table, wh);
      }
      LegacyItemsTraced(table, items, k + 1);
      TracedThen(LegacyItem(table, wh, k), LegacyItems(table, items, k + 1));
    }
  }

  // ---------------------------------------------------------------------
  // From traced to balanced
  // ---------------------------------------------------------------------

  /** `?` survives upper-casing, so an operator and its upper-cased form
      hold the same placeholders. */
  lemma {:induction false} MarksUpper(s: string)
    ensures Marks(Upper(s)) == Marks(s)
  {
    if s != [] {
      MarksUpper(s[1..]);
      assert Upper(s)[1..] == Upper(s[1..]);
    }
  }

  /** A column reference built from names free of `?` holds none. */
  lemma MarksRef(table: string, field: string)
    requires Marks(table) == 0 && Marks(field) == 0
    ensures Marks(Ref(table, field)) == 0
  {
    MarksFree("`");
    MarksFree("`.`");
    MarksAppend("`", table);
    MarksAppend("`" + table, "`.`");
    MarksAppend("`" + table + "`.`", field);
    MarksAppend("`" + table + "`.`" + field, "`");
    assert Ref(table, field) == "`" + table + "`.`" + field + "`";
  }

  /** The comparison operators hold no `?`. */
  lemma ComparisonOpsPlain(u: string)
    requires u in ComparisonOps
    ensures '?' !in u
  {
  }

  // The fixed texts the branches write, one lemma per text.

  lemma LikeText()
    ensures Marks(" LIKE ?") == 1
  {
    OneMark(" LIKE ?", " LIKE ", "");
  }

  lemma NotLikeText()
    ensures Marks(" NOT LIKE ?") == 1
  {
    OneMark(" NOT LIKE ?", " NOT LIKE ", "");
  }

  lemma InText()
    ensures Marks(" IN (?)") == 1
  {
    OneMark(" IN (?)", " IN (", ")");
  }

  lemma NotInText()
    ensures Marks(" NOT IN (?)") == 1
  {
    OneMark(" NOT IN (?)", " NOT IN (", ")");
  }

  lemma BetweenText()
    ensures Marks(" BETWEEN ? AND ?") == 2
  {
    TwoMarks(" BETWEEN ? AND ?", " BETWEEN ", " AND ");
  }

  lemma NotBetweenText()
    ensures Marks(" NOT BETWEEN ? AND ?") == 2
  {
    TwoMarks(" NOT BETWEEN ? AND ?", " NOT BETWEEN ", " AND ");
  }

  lemma DefaultText()
    ensures Marks(" = ?") == 1
  {
    OneMark(" = ?", " = ", "");
  }

  lemma NullTexts()
    ensures Marks(" IS NULL") == 0 && Marks(" IS NOT NULL") == 0
  {
    MarksFree(" IS NULL");
    MarksFree(" IS NOT NULL");
  }

  /** What a branch writes after the column reference holds as many `?` as
      the branch binds values. */
  lemma SuffixBalanced(exp: seq<JVal>)
    ensures Marks(Suffix(Operator(exp))) == |ConditionValues(exp)|
  {
    if CaseOf(Upper(Operator(exp))) == Compare {
      CompareBalanced(exp);
    } else {
      FixedBalanced(exp);
    }
  }

  /** The comparison branch writes the operator itself, which holds no `?`. */
  lemma CompareBalanced(exp: seq<JVal>)
    requires CaseOf(Upper(Operator(exp))) == Compare
    ensures Marks(Suffix(Operator(exp))) == |ConditionValues(exp)|
  {
    var op := Operator(exp);
    ComparisonOpsPlain(Upper(op));
    MarksFree(Upper(op));
    MarksUpper(op);
    OneMark(" ?", " ", "");
    MarksAppend(" ", op);
    MarksAppend(" " + op, " ?");
  }

  /** The other branches write fixed texts. */
  lemma FixedBalanced(exp: seq<JVal>)
    requires CaseOf(Upper(Operator(exp))) != Compare
    ensures Marks(Suffix(Operator(exp))) == |ConditionValues(exp)|
  {
    LikeText();
    NotLikeText();
    InText();
    NotInText();
    BetweenText();
    NotBetweenText();
    NullTexts();
    DefaultText();
  }

  /** One genWhere call: its fragment holds as many `?` as it appends values. */
  lemma ConditionBalanced(table: string, exp: seq<JVal>)
    requires Plain(Site(table, exp))
    ensures Marks(ConditionText(table, exp)) == |ConditionValues(exp)|
  {
    MarksRef(table, ToStr(At(exp, 0)));
    SuffixBalanced(exp);
    MarksAppend(Ref(table, ToStr(At(exp, 0))), Suffix(Operator(exp)));
  }

  lemma {:induction false} SitesBalanced(sites: seq<Site>)
    requires AllPlain(sites)
    ensures MarksIn(SiteTexts(sites)) == |SiteValues(sites)|
  {
    if sites != [] {
      ConditionBalanced(sites[0].table, sites[0].exp);
      SitesBalanced(sites[1..]);
    }
  }

  lemma {:induction false} MarksInConditions(sql: seq<string>)
    ensures MarksIn(Conditions(sql)) == MarksIn(sql)
  {
    if sql != [] {
      MarksInConditions(sql[1..]);
      var head := if sql[0] in Keywords then [] else [sql[0]];
      MarksInAppend(head, Conditions(sql[1..]));
      assert [sql[0]][1..] == [];
    }
  }

  /** A traced emission whose conditions are plain is balanced. */
  lemma TracedBalanced(o: Out)
    requires Traced(o) && AllPlain(o.sites)
    ensures Balanced(o)
  {
    MarksInConditions(o.sql);
    SitesBalanced(o.sites);
  }

  // ---------------------------------------------------------------------
  // The invariant, per emitter
  // ---------------------------------------------------------------------

  /** genWhere appends one fragment, whose placeholders match its values. */
  lemma GenWhereInvariant(table: string, exp: seq<JVal>)
    requires Plain(Site(table, exp))
    ensures |Condition(table, exp).sql| == 1
    ensures Balanced(Condition(table, exp))
  {
    ConditionBalanced(table, exp);
    var texts: seq<string> := [ConditionText(table, exp)];
    assert texts[1..] == [];
  }

  /** genWheres: conditions in visit order between keywords, values in the
      same order, placeholders matching values. */
  lemma GenWheresInvariant(table: string, v: JVal)
    ensures Traced(Wheres(table, v))
    ensures AllPlain(Wheres(table, v).sites) ==> Balanced(Wheres(table, v))
  {
    WheresTraced(table, v);
    if AllPlain(Wheres(table, v).sites) {
      TracedBalanced(Wheres(table, v));
    }
  }

  /** fillWheres: likewise, with the leading `WHERE`. */
  lemma FillWheresInvariant(table: string, wheres: JVal)
    ensures Traced(WhereClause(table, wheres))
    ensures AllPlain(WhereClause(table, wheres).sites) ==> Balanced(WhereClause(table, wheres))
  {
    WhereClauseTraced(table, wheres);
    if AllPlain(WhereClause(table, wheres).sites) {
      TracedBalanced(WhereClause(table, wheres));
    }
  }

  /** fillWhere: likewise. */
  lemma FillWhereInvariant(table: string, where: JVal)
    ensures Traced(Legacy(table, where))
    ensures AllPlain(Legacy(table, where).sites) ==> Balanced(Legacy(table, where))
  {
    LegacyTraced(table, where);
    if AllPlain(Legacy(table, where).sites) {
      TracedBalanced(Legacy(table, where));
    }
  }
}
