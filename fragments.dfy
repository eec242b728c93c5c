/**
 The two caller-owned, append-only buffers every emitter writes to (the
 `sql` array of fragments and the `values` array of bind values), the
 description of what one emitter call appends, and the count of `?`
 placeholders in fragment text.
 */
module Fragments {
  import opened Js

  /** A condition handed to genWhere: its table and the array
      `[field, operator, value]` it destructures. */
  datatype Site = Site(table: string, exp: seq<JVal>)

  /** What one emitter call appends: the fragments, the bind values, and
      the conditions it rendered, in left-to-right order. */
  datatype Out = Out(sql: seq<string>, values: seq<JVal>, sites: seq<Site>)

  const Nothing := Out([], [], [])

  /** A keyword fragment such as `AND`, `OR`, `(`, `)` or `WHERE`. */
  function Kw(s: string): Out {
    Out([s], [], [])
  }

  /** Two emissions one after the other. */
  function Then(a: Out, b: Out): Out {
    Out(a.sql + b.sql, a.values + b.values, a.sites + b.sites)
  }

  /** Appending is associative (a step the loops over emitters rely on). */
  lemma AppendAssoc<T>(a: seq<T>, b: seq<T>, c: seq<T>)
    ensures a + (b + c) == (a + b) + c
  {
  }

  /** Number of `?` placeholders in a text. */
  function Marks(s: string): nat {
    if s == [] then 0 else (if s[0] == '?' then 1 else 0) + Marks(s[1..])
  }

  /** Number of `?` placeholders over a list of fragments. */
  function MarksIn(fs: seq<string>): nat {
    if fs == [] then 0 else Marks(fs[0]) + MarksIn(fs[1..])
  }

  /** The placeholders of an emission match its bind values one for one. */
  predicate Balanced(o: Out) {
    MarksIn(o.sql) == |o.values|
  }

  lemma {:induction false} MarksAppend(a: string, b: string)
    ensures Marks(a + b) == Marks(a) + Marks(b)
  {
    if a == [] {
      assert a + b == b;
    } else {
      assert (a + b)[1..] == a[1..] + b;
      MarksAppend(a[1..], b);
    }
  }

  /** A text without the character `?` holds no placeholder. */
  lemma {:induction false} MarksFree(s: string)
    requires '?' !in s
    ensures Marks(s) == 0
  {
    if s != [] {
      assert forall c :: c in s[1..] ==> c in s;
      MarksFree(s[1..]);
    }
  }

  /** Text between two pieces free of `?` keeps exactly its own placeholders. */
  lemma Wrapped(a: string, s: string, b: string)
    requires '?' !in a && '?' !in b
    ensures Marks(a + s + b) == Marks(s)
  {
    MarksFree(a);
    MarksFree(b);
    MarksAppend(a, s);
    MarksAppend(a + s, b);
  }

  /** A text `a ? b` with `a` and `b` free of `?` holds one placeholder. */
  lemma OneMark(s: string, a: string, b: string)
    requires '?' !in a && '?' !in b && s == a + "?" + b
    ensures Marks(s) == 1
  {
    MarksFree(a);
    MarksFree(b);
    MarksAppend(a, "?");
    MarksAppend(a + "?", b);
  }

  /** A text `a ? b ?` with `a` and `b` free of `?` holds two placeholders. */
  lemma TwoMarks(s: string, a: string, b: string)
    requires '?' !in a && '?' !in b && s == a + "?" + b + "?"
    ensures Marks(s) == 2
  {
    OneMark(a + "?" + b, a, b);
    MarksAppend(a + "?" + b, "?");
  }

  lemma {:induction false} MarksInAppend(a: seq<string>, b: seq<string>)
    ensures MarksIn(a + b) == MarksIn(a) + MarksIn(b)
  {
    if a == [] {
      assert a + b == b;
    } else {
      assert (a + b)[1..] == a[1..] + b;
      MarksInAppend(a[1..], b);
    }
  }

  /** Emitting two balanced pieces one after the other stays balanced. */
  lemma ThenBalanced(a: Out, b: Out)
    requires Balanced(a) && Balanced(b)
    ensures Balanced(Then(a, b))
  {
    MarksInAppend(a.sql, b.sql);
  }

  /** A keyword fragment without `?` is balanced. */
  lemma KwBalanced(s: string)
    requires Marks(s) == 0
    ensures Balanced(Kw(s))
  {
    assert [s][1..] == [];
  }

  /** Joining fragments with a separator free of `?` adds no placeholder. */
  lemma {:induction false} JoinMarks(parts: seq<string>, sep: string)
    requires Marks(sep) == 0
    ensures Marks(Join(parts, sep)) == MarksIn(parts)
  {
    if |parts| == 1 {
      assert parts[1..] == [];
    } else if |parts| > 1 {
      JoinMarks(parts[1..], sep);
      MarksAppend(parts[0], sep);
      MarksAppend(parts[0] + sep, Join(parts[1..], sep));
    }
  }

  /** The `sql` and `values` arrays a caller owns and passes to the emitters. */
  class Builder {
    var sql: seq<string>
    var values: seq<JVal>

    constructor ()
      ensures sql == [] && values == []
    {
      sql := [];
      values := [];
    }

    /** `sql.push(s)`. */
    method PushSql(s: string)
      modifies this
      ensures sql == old(sql) + [s]
      ensures values == old(values)
    {
      sql := sql + [s];
    }

    /** `values.push(v)`. */
    method PushValue(v: JVal)
      modifies this
      ensures values == old(values) + [v]
      ensures sql == old(sql)
    {
      values := values + [v];
    }
  }
}
