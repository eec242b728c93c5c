/**
 The three shape tests of src/utils.js, on which every dispatch of the
 compiler is built. On the value datatype each is a constructor test.
 */
module Utils {
  import opened Js

  /** `Object.prototype.toString.call(v) === '[object Object]'`: plain objects only. */
  predicate IsObject(v: JVal) {
    v.Obj?
  }

  /** `Array.isArray(v)`. */
  predicate IsArray(v: JVal) {
    v.Arr?
  }

  /** `typeof v === 'string'`. */
  predicate IsString(v: JVal) {
    v.Str?
  }

  /** What each test accepts, and that no value passes two of them, so the
      `if … else if …` dispatches of the compiler take at most one branch. */
  lemma ShapeTests(v: JVal)
    ensures IsObject(v) <==> exists es :: v == Obj(es)
    ensures IsArray(v) <==> exists items :: v == Arr(items)
    ensures IsString(v) <==> exists s :: v == Str(s)
    ensures !(IsObject(v) && IsArray(v))
    ensures !(IsObject(v) && IsString(v))
    ensures !(IsArray(v) && IsString(v))
  {
    if v.Obj? { assert v == Obj(v.entries); }
    if v.Arr? { assert v == Arr(v.items); }
    if v.Str? { assert v == Str(v.s); }
  }

  /** Null, undefined, booleans and numbers pass none of the three tests. */
  lemma ScalarsPassNoTest(v: JVal)
    requires v.Undef? || v.Null? || v.Bool? || v.Int?
    ensures !IsObject(v) && !IsArray(v) && !IsString(v)
  {
  }
}
