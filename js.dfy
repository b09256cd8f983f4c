/** JavaScript values as the views see them: the fields of a Firestore
    document, JavaScript truthiness, `a || b`, property access, and the few
    string built-ins the views call. */
module Js {

  datatype Option<+T> = None | Some(value: T)

  datatype Result<+T, +E> = Ok(value: T) | Err(error: E)

  /** A value stored in a document field. Numbers are reals; NaN and -0 are
      not modelled. `ServerTimestamp` is the sentinel written by
      `serverTimestamp()`, resolved by the backend. */
  datatype Value =
    | Undefined
    | Null
    | Bool(b: bool)
    | Num(n: real)
    | Str(s: string)
    | Obj(fields: map<string, Value>)
    | ServerTimestamp

  /** A plain JavaScript object: an absent key reads as `undefined`. */
  type Doc = map<string, Value>

  /** `d.k` */
  function Get(d: Doc, k: string): Value
  {
    if k in d then d[k] else Undefined
  }

  /** JavaScript's ToBoolean. */
  predicate Truthy(v: Value)
  {
    match v
    case Undefined => false
    case Null => false
    case Bool(b) => b
    case Num(n) => n != 0.0
    case Str(s) => s != ""
    case Obj(_) => true
    case ServerTimestamp => true
  }

  /** `v || w` */
  function Or(v: Value, w: Value): Value
  {
    if Truthy(v) then v else w
  }

  predicate Nullish(v: Value)
  {
    v.Undefined? || v.Null?
  }

  /** `v.k` on a value that is neither null nor undefined (either of those
      throws a TypeError). Strings, numbers and booleans carry none of the
      properties the views read. */
  function Prop(v: Value, k: string): Value
    requires !Nullish(v)
  {
    if v.Obj? then Get(v.fields, k) else Undefined
  }

  /** A field the views use as text: a string, or absent. On any other value
      the views' calls to `toLowerCase`/`toUpperCase` throw. */
  predicate TextOrAbsent(v: Value)
  {
    v.Undefined? || v.Null? || v.Str?
  }

  /** `String.prototype.toLowerCase`, for ASCII and the Latin-1 letters. */
  function LowerChar(c: char): char
  {
    if 'A' <= c <= 'Z' || ('À' <= c <= 'Þ' && c != '×')
    then (c as int + 32) as char
    else c
  }

  /** `String.prototype.toUpperCase`, for ASCII and the Latin-1 letters that
      have a one-letter upper case. */
  function UpperChar(c: char): char
  {
    if 'a' <= c <= 'z' || ('à' <= c <= 'þ' && c != '÷')
    then (c as int - 32) as char
    else c
  }

  function Lower(s: string): string
  {
    seq(|s|, i requires 0 <= i < |s| => LowerChar(s[i]))
  }

  function Upper(s: string): string
  {
    seq(|s|, i requires 0 <= i < |s| => UpperChar(s[i]))
  }

  /** A string with no upper-case letter is its own lower case. */
  lemma LowerSinMayusculas(s: string)
    requires forall i :: 0 <= i < |s| ==> LowerChar(s[i]) == s[i]
    ensures Lower(s) == s
  {
  }

  lemma LowerIdempotent(s: string)
    ensures Lower(Lower(s)) == Lower(s)
  {
    assert forall i | 0 <= i < |s| :: LowerChar(LowerChar(s[i])) == LowerChar(s[i]);
  }

  /** `s.startsWith(p)` */
  predicate StartsWith(s: string, p: string)
  {
    |p| <= |s| && s[..|p|] == p
  }

  predicate OccursAt(s: string, t: string, i: int)
  {
    0 <= i && i + |t| <= |s| && s[i..i + |t|] == t
  }

  /** `s.includes(t)` */
  predicate Includes(s: string, t: string)
    decreases |s|
  {
    StartsWith(s, t) || (s != [] && Includes(s[1..], t))
  }

  /** `includes` finds `t` exactly when `t` occurs at some position of `s`. */
  lemma IncludesIff(s: string, t: string)
    ensures Includes(s, t) <==> exists i :: OccursAt(s, t, i)
  {
    if Includes(s, t) {
      var i := IncludesWitness(s, t);
    }
    forall i | OccursAt(s, t, i) ensures Includes(s, t) {
      OccursIncludes(s, t, i);
    }
  }

  lemma {:induction false} IncludesWitness(s: string, t: string) returns (i: int)
    requires Includes(s, t)
    ensures OccursAt(s, t, i)
    decreases |s|
  {
    if StartsWith(s, t) {
      i := 0;
    } else {
      var j := IncludesWitness(s[1..], t);
      assert s[j + 1..j + 1 + |t|] == s[1..][j..j + |t|];
      i := j + 1;
    }
  }

  lemma {:induction false} OccursIncludes(s: string, t: string, i: int)
    requires OccursAt(s, t, i)
    ensures Includes(s, t)
    decreases i
  {
    if i > 0 {
      assert s[1..][i - 1..i - 1 + |t|] == s[i..i + |t|];
      OccursIncludes(s[1..], t, i - 1);
    }
  }

  /** Every string includes the empty string. */
  lemma IncludesEmpty(s: string)
    ensures Includes(s, "")
  {
    assert StartsWith(s, "");
  }
}
