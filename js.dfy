/**
 The JavaScript values the query compiler reads, and the few pieces of
 JavaScript semantics it relies on: truthiness, property and index reads,
 `||`, `toUpperCase`, template-literal string conversion and `Array.join`.
 */
module Js {

  /** A JavaScript value as the compiler sees it. An object is its list of
      own enumerable entries in `Object.keys` order. */
  datatype JVal =
    | Undef
    | Null
    | Bool(b: bool)
    | Int(i: int)
    | Str(s: string)
    | Arr(items: seq<JVal>)
    | Obj(entries: seq<Entry>)

  datatype Entry = Entry(key: string, val: JVal)

  /** `if (v)`: the falsy values are undefined, null, false, 0 and "". */
  predicate Truthy(v: JVal) {
    match v
    case Undef => false
    case Null => false
    case Bool(b) => b
    case Int(i) => i != 0
    case Str(s) => s != ""
    case _ => true
  }

  /** The values on which a property read raises a TypeError. */
  predicate Nullish(v: JVal) {
    v.Undef? || v.Null?
  }

  /** Position of the first entry with key `k`, or `|es|` when there is none. */
  function Find(es: seq<Entry>, k: string): (i: nat)
    ensures i <= |es|
    ensures i < |es| ==> es[i].key == k
    ensures forall j :: 0 <= j < i ==> es[j].key != k
  {
    if es == [] then 0
    else if es[0].key == k then 0
    else 1 + Find(es[1..], k)
  }

  /** `obj[k]` on an object: the entry's value, or undefined. */
  function Get(es: seq<Entry>, k: string): JVal {
    var i := Find(es, k);
    if i < |es| then es[i].val else Undef
  }

  /** The value of each entry, in key order. */
  function EntryValues(es: seq<Entry>): seq<JVal> {
    seq(|es|, i requires 0 <= i < |es| => es[i].val)
  }

  /** The values of entries k.. are the value of entry k, then those after it. */
  lemma EntryValuesFrom(es: seq<Entry>, k: nat)
    requires k < |es|
    ensures EntryValues(es[k..]) == [es[k].val] + EntryValues(es[k + 1..])
  {
    assert es[k..][1..] == es[k + 1..];
  }

  /** The keys `Object.keys(v)` lists, each with `v[key]`: an object's own
      entries, the indices of an array or a string, none for the other
      primitives (on null and undefined the source raises or substitutes a
      default, which callers handle). */
  function OwnEntries(v: JVal): seq<Entry> {
    match v
    case Obj(es) => es
    case Arr(items) => seq(|items|, i requires 0 <= i < |items| => Entry(NatToStr(i), items[i]))
    case Str(s) => seq(|s|, i requires 0 <= i < |s| => Entry(NatToStr(i), Str([s[i]])))
    case _ => []
  }

  /** `v.k` for the property names the compiler reads (none of which names
      a property of arrays, strings or numbers). */
  function Prop(v: JVal, k: string): JVal {
    if v.Obj? then Get(v.entries, k) else Undef
  }

  /** Element `n` of an array (destructuring pads with undefined). */
  function At(items: seq<JVal>, n: nat): JVal {
    if n < |items| then items[n] else Undef
  }

  /** `v[n]`; on null and undefined the source raises, which callers exclude. */
  function Index(v: JVal, n: nat): JVal {
    match v
    case Arr(items) => At(items, n)
    case Str(s) => if n < |s| then Str([s[n]]) else Undef
    case Obj(es) => Get(es, NatToStr(n))
    case _ => Undef
  }

  /** `a || b`. */
  function Or(a: JVal, b: JVal): JVal {
    if Truthy(a) then a else b
  }

  function UpperChar(c: char): char {
    if 'a' <= c <= 'z' then (c as int - 32) as char else c
  }

  /** `s.toUpperCase()` on the ASCII letters. */
  function Upper(s: string): (u: string)
    ensures |u| == |s|
    ensures forall i :: 0 <= i < |s| ==> u[i] == UpperChar(s[i])
  {
    if s == [] then [] else [UpperChar(s[0])] + Upper(s[1..])
  }

  function DigitChar(d: nat): char
    requires d < 10
  {
    "0123456789"[d]
  }

  function NatToStr(n: nat): string {
    if n < 10 then [DigitChar(n)] else NatToStr(n / 10) + [DigitChar(n % 10)]
  }

  function IntToStr(i: int): string {
    if i < 0 then "-" + NatToStr(-i) else NatToStr(i)
  }

  /** The string a value becomes inside a template literal `${v}`. */
  function ToStr(v: JVal): string {
    match v
    case Undef => "undefined"
    case Null => "null"
    case Bool(b) => if b then "true" else "false"
    case Int(i) => IntToStr(i)
    case Str(s) => s
    case Arr(items) => Join(ElementStrs(items), ",")
    case Obj(_) => "[object Object]"
  }

  /** Array.prototype.toString renders null and undefined elements as "". */
  function ElementStrs(items: seq<JVal>): (r: seq<string>)
    ensures |r| == |items|
  {
    if items == [] then []
    else [if Nullish(items[0]) then "" else ToStr(items[0])] + ElementStrs(items[1..])
  }

  /** `parts.join(sep)`. */
  function Join(parts: seq<string>, sep: string): string {
    if parts == [] then ""
    else if |parts| == 1 then parts[0]
    else parts[0] + sep + Join(parts[1..], sep)
  }

  /** Joining two non-empty lists puts one separator between their joins. */
  lemma {:induction false} JoinAppend(a: seq<string>, b: seq<string>, sep: string)
    requires a != [] && b != []
    ensures Join(a + b, sep) == Join(a, sep) + sep + Join(b, sep)
  {
    if |a| == 1 {
      assert a + b == [a[0]] + b;
      assert (a + b)[1..] == b;
    } else {
      assert (a + b)[1..] == a[1..] + b;
      JoinAppend(a[1..], b, sep);
    }
  }

  /** Joining one part is that part itself. */
  lemma JoinOne(x: string, sep: string)
    ensures Join([x], sep) == x
  {
  }
}
