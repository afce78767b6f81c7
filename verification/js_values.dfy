/**
 * The fragment of JavaScript values that the MFA client stores in its session,
 * puts in request bodies and inspects in error objects.
 */
module JsValues {

  /** A primitive value: `null`, `undefined` or a string. */
  datatype Scalar = Null | Undefined | Str(s: string)

  /** A request-body property: a primitive or an array of strings. */
  datatype Value = Atom(scalar: Scalar) | List(items: seq<string>)

  /** A plain object whose properties hold `null`, `undefined` or strings (no numbers, booleans or nested values). */
  type JsObject = map<string, Scalar>

  /** JavaScript truthiness restricted to `Scalar`: only a non-empty string is truthy. */
  predicate Truthy(v: Scalar)
  {
    v.Str? && v.s != ""
  }

  /** Property read: a missing property reads as `undefined`. */
  function Get(o: JsObject, key: string): Scalar
  {
    if key in o then o[key] else Undefined
  }

  /** The string a template literal `${v}` produces for `v`. */
  function Display(v: Scalar): string
  {
    match v
    case Null => "null"
    case Undefined => "undefined"
    case Str(s) => s
  }

  /** `sub` occurs in `s` starting at index `i`. */
  ghost predicate OccursAt(s: string, sub: string, i: int)
  {
    0 <= i && i + |sub| <= |s| && s[i..i + |sub|] == sub
  }

  /** Reference definition of "`sub` is a (case-sensitive) substring of `s`". */
  ghost predicate IsSubstring(sub: string, s: string)
  {
    exists i :: OccursAt(s, sub, i)
  }

  /** `String.prototype.includes`: does `sub` occur somewhere in `s`? */
  function Includes(s: string, sub: string): bool
    decreases |s|
  {
    |sub| <= |s| && (s[..|sub|] == sub || (0 < |s| && Includes(s[1..], sub)))
  }

  /** The executable search agrees with the reference definition, in both directions. */
  lemma {:induction false} IncludesIsSubstring(s: string, sub: string)
    ensures Includes(s, sub) <==> IsSubstring(sub, s)
    decreases |s|
  {
    if |sub| > |s| {
    } else if s[..|sub|] == sub {
      assert OccursAt(s, sub, 0);
    } else {
      assert 0 < |s|;
      IncludesIsSubstring(s[1..], sub);
      if IsSubstring(sub, s) {
        var i :| OccursAt(s, sub, i);
        assert i != 0;
        assert s[1..][i - 1..i - 1 + |sub|] == s[i..i + |sub|];
        assert OccursAt(s[1..], sub, i - 1);
      }
      if IsSubstring(sub, s[1..]) {
        var j :| OccursAt(s[1..], sub, j);
        assert s[1..][j..j + |sub|] == s[j + 1..j + 1 + |sub|];
        assert OccursAt(s, sub, j + 1);
      }
    }
  }
}
