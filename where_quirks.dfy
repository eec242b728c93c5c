/**
 The shapes the WHERE emitters give, including the behaviours of the
 source that a reader might not expect: an `or` key always opens a
 parenthesised `OR` group, `and` is a table name to genWheres, a table
 scope without `or` adds only its `AND`, and the spaced negations
 `NOT LIKE`, `NOT IN` and `NOT BETWEEN` fall back to equality.
 */
module WhereQuirks {
  import opened Js
  import opened Fragments
  import opened Helper

  lemma ThenNothing(o: Out)
    ensures Then(Nothing, o) == o && Then(o, Nothing) == o
  {
    assert [] + o.sql == o.sql && o.sql + [] == o.sql;
    assert [] + o.values == o.values && o.values + [] == o.values;
    assert [] + o.sites == o.sites && o.sites + [] == o.sites;
  }

  /** A falsy condition contributes nothing, to any of the walkers. */
  lemma FalsyEmitsNothing(table: string, v: JVal)
    requires !Truthy(v)
    ensures Wheres(table, v) == Nothing
    ensures Legacy(table, v) == Nothing
    ensures WhereClause(table, v) == Nothing
  {
  }

  /** fillWheres writes nothing exactly when it gets neither a non-empty
      mapping nor a non-empty list; otherwise it starts with `WHERE`. */
  lemma WhereClauseShape(table: string, wheres: JVal)
    ensures WhereClause(table, wheres).sql == []
      <==> !((wheres.Obj? && |wheres.entries| > 0) || (wheres.Arr? && |wheres.items| > 0))
    ensures WhereClause(table, wheres).sql != [] ==> WhereClause(table, wheres).sql[0] == "WHERE"
  {
  }

  /** genWheres on a mapping whose `or` is truthy: `OR ( … )` around that
      value, whatever else the mapping holds and wherever it stands. */
  lemma OrIsAlwaysGrouped(table: string, es: seq<Entry>)
    requires Truthy(Get(es, "or"))
    ensures Wheres(table, Obj(es)) == OrGroup(Wheres(table, Get(es, "or")))
    ensures Wheres(table, Obj(es)).sql
      == ["OR", "("] + Wheres(table, Get(es, "or")).sql + [")"]
  {
  }

  /** A one-child list that is not a condition is its child. */
  lemma SingleItem(table: string, w: JVal)
    requires !IsExp(Arr([w]))
    ensures Wheres(table, Arr([w])) == Item(table, w, 0)
  {
    assert Items(table, [w], 1) == Nothing;
    ThenNothing(Item(table, w, 0));
  }

  /** A child mapping whose `or` is truthy is `OR ( … )` around that value. */
  lemma OrItem(table: string, es: seq<Entry>, index: nat)
    requires Truthy(Get(es, "or"))
    ensures Item(table, Obj(es), index) == OrGroup(Wheres(table, Get(es, "or")))
  {
  }

  /** So a list whose first child is `{or: x}` makes a clause that opens
      with `WHERE OR (`. */
  lemma LeadingOr(table: string, x: JVal)
    requires Truthy(x)
    ensures WhereClause(table, Arr([Obj([Entry("or", x)])])).sql
      == ["WHERE", "OR", "("] + Wheres(table, x).sql + [")"]
  {
    var es := [Entry("or", x)];
    assert Find(es, "or") == 0;
    assert !IsExp(Arr([Obj(es)]));
    SingleItem(table, Obj(es));
    OrItem(table, es, 0);
    var group := OrGroup(Wheres(table, x));
    assert WhereClause(table, Arr([Obj(es)])) == Then(Kw("WHERE"), group);
    assert group.sql == ["OR", "("] + Wheres(table, x).sql + [")"];
  }

  /** To genWheres, `and` is not a keyword: `[{and: x}]` scopes `x` to a
      table named `and`. */
  lemma AndIsATableName(table: string, x: JVal)
    ensures Wheres(table, Arr([Obj([Entry("and", x)])])) == Wheres("and", x)
  {
    var w := Obj([Entry("and", x)]);
    assert !IsExp(Arr([w]));
    assert Find(w.entries, "or") == 1;
    assert Tables(w.entries, 1) == Nothing;
    ThenNothing(Wheres("and", x));
    assert TableEntry(w.entries[0], 0) == Wheres("and", x);
    assert Tables(w.entries, 0) == Wheres("and", x);
    ThenNothing(Tables(w.entries, 0));
    assert Item(table, w, 0) == Wheres("and", x);
    assert Items(table, [w], 1) == Nothing;
    ThenNothing(Item(table, w, 0));
  }

  /** fillWhere, in contrast, reads a truthy `and` as `AND ( … )`. */
  lemma LegacyAndGroups(table: string, x: JVal)
    requires Truthy(x)
    ensures Legacy(table, Obj([Entry("and", x)])) == AndGroup(Legacy(table, x))
  {
    assert Find([Entry("and", x)], "or") == 1;
  }

  /** The older walker puts `AND` only before a condition child: a condition
      followed by any other child renders the two with nothing between them,
      so `[[a, '=', 1], {b: 2}]` gives `` `t`.`a` = ? `` then `` `t`.`b` = ? ``. */
  lemma LegacyMissingAnd(table: string, c: seq<JVal>, child: JVal)
    requires IsExp(Arr(c)) && !IsExp(child)
    ensures Legacy(table, Arr([Arr(c), child])).sql == Condition(table, c).sql + Legacy(table, child).sql
    ensures Legacy(table, Arr([Arr(c), child])).values == Condition(table, c).values + Legacy(table, child).values
  {
    var items := [Arr(c), child];
    assert !IsExp(Arr(items));
    ThenNothing(Condition(table, c));
    assert LegacyItem(table, items[0], 0) == Condition(table, c);
    assert LegacyItems(table, items, 2) == Nothing;
    ThenNothing(Legacy(table, child));
    assert LegacyItems(table, items, 1) == Legacy(table, child);
  }

  /** In a mapping without `or`, an entry whose value is a mapping without
      a truthy `or` adds only its `AND` (its other keys are ignored). */
  lemma ScopeWithoutOrOnlyAnds(key: string, inner: seq<Entry>, index: nat)
    requires !Truthy(Get(inner, "or"))
    ensures Scope(Entry(key, Obj(inner)), index) == AndIf(index)
  {
    var j := Find(inner, "or");
    if j < |inner| {
      FalsyEmitsNothing(key, inner[j].val);
    }
    ThenNothing(AndIf(index));
  }

  /** The `switch` knows exactly these operator spellings (after upper-casing);
      every other one takes the default branch. */
  lemma KnownOperators(u: string)
    ensures CaseOf(u) != Other <==>
      (u in ComparisonOps || u in {"LIKE", "NOTLIKE", "IN", "NOTIN"} || u in BetweenOps
       || u in NullOps || u in NotNullOps)
  {
  }

  /** The default branch: `` `t`.`f` = ? `` bound to the operator itself. */
  lemma UnknownOperatorBindsItself(table: string, field: JVal, op: string, value: JVal)
    requires CaseOf(Upper(op)) == Other
    ensures ConditionText(table, [field, Str(op), value]) == Ref(table, ToStr(field)) + " = ?"
    ensures ConditionValues([field, Str(op), value]) == [Str(op)]
  {
  }

  /** The spaced negations are not case labels, so they fall back to the
      default branch. */
  lemma SpacedNegationsFallBack(table: string, field: JVal, op: string, value: JVal)
    requires Upper(op) in {"NOT LIKE", "NOT IN", "NOT BETWEEN"}
    ensures ConditionText(table, [field, Str(op), value]) == Ref(table, ToStr(field)) + " = ?"
    ensures ConditionValues([field, Str(op), value]) == [Str(op)]
  {
    var u := Upper(op);
    assert u == "NOT LIKE" || u == "NOT IN" || u == "NOT BETWEEN";
    assert CaseOf(u) == Other;
    UnknownOperatorBindsItself(table, field, op, value);
  }

  /** A BETWEEN condition binds the first two elements of its value. */
  lemma BetweenBindsTwo(table: string, field: JVal, op: string, value: JVal)
    requires Upper(op) in BetweenOps
    ensures ConditionValues([field, Str(op), value]) == [Index(value, 0), Index(value, 1)]
  {
  }

  /** The condition fillWheres writes for one entry of a mapping. */
  lemma EqualityText(table: string, e: Entry)
    ensures ConditionText(table, [Str(e.key), Str("="), e.val]) == Ref(table, e.key) + " = ?"
    ensures ConditionValues([Str(e.key), Str("="), e.val]) == [e.val]
  {
    assert Upper("=") == "=";
    assert " " + "=" + " ?" == " = ?";
  }

  /** What one entry of a mapping appends. */
  lemma EqualityShape(table: string, e: Entry, index: nat)
    ensures Equality(table, e, index).sql == AndIf(index).sql + [Ref(table, e.key) + " = ?"]
    ensures Equality(table, e, index).values == [e.val]
  {
    EqualityText(table, e);
  }

  /** `AND` and the equality of each entry from k on. */
  function AndEqualities(table: string, es: seq<Entry>, k: nat): (r: seq<string>)
    requires k <= |es|
    ensures |r| == 2 * (|es| - k)
    decreases |es| - k
  {
    if k == |es| then [] else ["AND", Ref(table, es[k].key) + " = ?"] + AndEqualities(table, es, k + 1)
  }

  lemma {:induction false} AndEqualitiesAt(table: string, es: seq<Entry>, k: nat, i: nat)
    requires k <= i < |es|
    ensures AndEqualities(table, es, k)[2 * (i - k)] == "AND"
    ensures AndEqualities(table, es, k)[2 * (i - k) + 1] == Ref(table, es[i].key) + " = ?"
    decreases i - k
  {
    if i > k {
      AndEqualitiesAt(table, es, k + 1, i);
      var rest := AndEqualities(table, es, k + 1);
      assert AndEqualities(table, es, k) == ["AND", Ref(table, es[k].key) + " = ?"] + rest;
      assert 2 * (i - k) == 2 * (i - (k + 1)) + 2;
    }
  }

  /** Entries k.. of a mapping after the first. */
  lemma EqualitiesTail(table: string, es: seq<Entry>, k: nat)
    requires 0 < k <= |es|
    ensures Equalities(table, es, k).sql == AndEqualities(table, es, k)
    ensures Equalities(table, es, k).values == EntryValues(es[k..])
  {
    EqualitiesTailSql(table, es, k);
    EqualitiesTailValues(table, es, k);
  }

  lemma {:induction false} EqualitiesTailSql(table: string, es: seq<Entry>, k: nat)
    requires 0 < k <= |es|
    ensures Equalities(table, es, k).sql == AndEqualities(table, es, k)
    decreases |es| - k
  {
    if k < |es| {
      EqualitiesTailSql(table, es, k + 1);
      EqualityShape(table, es[k], k);
      var e, rest := Equality(table, es[k], k), Equalities(table, es, k + 1);
      assert Equalities(table, es, k) == Then(e, rest);
      assert e.sql == ["AND", Ref(table, es[k].key) + " = ?"];
    }
  }

  lemma {:induction false} EqualitiesTailValues(table: string, es: seq<Entry>, k: nat)
    requires 0 < k <= |es|
    ensures Equalities(table, es, k).values == EntryValues(es[k..])
    decreases |es| - k
  {
    if k < |es| {
      EqualitiesTailValues(table, es, k + 1);
      EqualityShape(table, es[k], k);
      var e, rest := Equality(table, es[k], k), Equalities(table, es, k + 1);
      assert Equalities(table, es, k) == Then(e, rest);
      EntryValuesFrom(es, k);
    } else {
      assert es[k..] == [];
    }
  }

  /** fillWheres on a non-empty mapping, as `WHERE`, the first equality and the rest. */
  lemma MappingParts(table: string, es: seq<Entry>)
    requires |es| > 0
    ensures WhereClause(table, Obj(es)).sql
      == ["WHERE", Ref(table, es[0].key) + " = ?"] + AndEqualities(table, es, 1)
    ensures WhereClause(table, Obj(es)).values == EntryValues(es)
  {
    EqualityShape(table, es[0], 0);
    EqualitiesTail(table, es, 1);
    var first, rest := Equality(table, es[0], 0), Equalities(table, es, 1);
    var r := Ref(table, es[0].key) + " = ?";
    assert first.sql == [r] && first.values == [es[0].val];
    assert Equalities(table, es, 0) == Then(first, rest);
    assert WhereClause(table, Obj(es)) == Then(Kw("WHERE"), Then(first, rest));
    assert ["WHERE"] + ([r] + rest.sql) == ["WHERE", r] + rest.sql;
    assert es[0..] == es;
    EntryValuesFrom(es, 0);
  }

  /** Reading the interleaving of keywords and equalities by position. */
  lemma Interleaved(sql: seq<string>, table: string, es: seq<Entry>)
    requires |es| > 0
    requires sql == ["WHERE", Ref(table, es[0].key) + " = ?"] + AndEqualities(table, es, 1)
    ensures |sql| == 2 * |es|
    ensures forall i :: 0 <= i < |es| ==> sql[2 * i + 1] == Ref(table, es[i].key) + " = ?"
    ensures forall i :: 0 < i < |es| ==> sql[2 * i] == "AND"
  {
    var rest := AndEqualities(table, es, 1);
    forall i | 0 < i < |es|
      ensures sql[2 * i] == "AND" && sql[2 * i + 1] == Ref(table, es[i].key) + " = ?"
    {
      AndEqualitiesAt(table, es, 1, i);
      var n := 2 * (i - 1);
      assert 2 * i == n + 2;
      assert sql[n + 2] == rest[n];
      assert sql[n + 3] == rest[n + 1];
    }
  }

  /** fillWheres on a non-empty mapping: `WHERE`, then one `` `t`.`k` = ? ``
      per key joined by `AND`, bound to the values in key order. */
  lemma MappingClause(table: string, es: seq<Entry>)
    requires |es| > 0
    ensures |WhereClause(table, Obj(es)).sql| == 2 * |es|
    ensures WhereClause(table, Obj(es)).sql[0] == "WHERE"
    ensures forall i :: 0 <= i < |es| ==>
      WhereClause(table, Obj(es)).sql[2 * i + 1] == Ref(table, es[i].key) + " = ?"
    ensures forall i :: 0 < i < |es| ==> WhereClause(table, Obj(es)).sql[2 * i] == "AND"
    ensures WhereClause(table, Obj(es)).values == EntryValues(es)
  {
    MappingParts(table, es);
    Interleaved(WhereClause(table, Obj(es)).sql, table, es);
  }
}
