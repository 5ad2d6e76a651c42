/**
 * The dynamically typed values that the booking flow receives from its
 * backends (parsed JSON), with the JavaScript notions the code relies on:
 * `undefined` for a missing property, truthiness, `typeof`, strict equality
 * with `true`, `toLowerCase` and `includes` on strings.
 */
module JsValues {

  datatype Option<+T> = None | Some(value: T)

  datatype Result<+T, +E> = Success(value: T) | Failure(error: E)

  /** A value produced by JSON parsing. Parsed JSON never holds `undefined`. */
  datatype Json =
    | JNull
    | JBool(b: bool)
    | JNum(n: real)
    | JStr(s: string)
    | JArr(elems: seq<Json>)
    | JObj(fields: map<string, Json>)

  /** A JavaScript value that may be `undefined` (None). */
  type JsVal = Option<Json>

  /**
   * `v?.key`: the property `key` of `v`, or `undefined` when `v` is
   * undefined, null, not an object, or has no such property.
   */
  function Prop(v: JsVal, key: string): (r: JsVal)
    ensures r.Some? ==> v.Some? && v.value.JObj? && key in v.value.fields && r.value == v.value.fields[key]
    ensures v.Some? && v.value.JObj? && key in v.value.fields ==> r.Some?
  {
    match v
    case Some(JObj(m)) => if key in m then Some(m[key]) else None
    case _ => None
  }

  /** JavaScript truthiness (JSON has no NaN, so only 0 is a falsy number). */
  predicate Truthy(v: JsVal) {
    match v
    case None => false
    case Some(JNull) => false
    case Some(JBool(b)) => b
    case Some(JNum(n)) => n != 0.0
    case Some(JStr(s)) => s != ""
    case Some(JArr(_)) => true
    case Some(JObj(_)) => true
  }

  /** `typeof v === 'object'`: true of null, arrays and plain objects. */
  predicate IsObjectType(v: JsVal) {
    v.Some? && (v.value.JNull? || v.value.JArr? || v.value.JObj?)
  }

  /** `a || b` in JavaScript: `a` when it is truthy, otherwise `b`. */
  function Or(a: JsVal, b: JsVal): (r: JsVal)
    ensures Truthy(a) ==> r == a
    ensures !Truthy(a) ==> r == b
  {
    if Truthy(a) then a else b
  }

  /** ASCII case folding of one character, as `toLowerCase` does for ASCII letters. */
  function LowerChar(c: char): (d: char)
    ensures 'A' <= c <= 'Z' ==> d as int == c as int + 32
    ensures !('A' <= c <= 'Z') ==> d == c
  {
    if 'A' <= c <= 'Z' then (c as int + 32) as char else c
  }

  /** `s.toLowerCase()` restricted to ASCII letters. */
  function ToLower(s: string): (r: string)
    ensures |r| == |s|
    ensures forall i :: 0 <= i < |s| ==> r[i] == LowerChar(s[i])
  {
    if s == [] then [] else [LowerChar(s[0])] + ToLower(s[1..])
  }

  /** `s.includes(sub)`: the characters of `sub` occur consecutively in `s`. */
  predicate Includes(s: string, sub: string)
    decreases |s|
  {
    sub <= s || (s != [] && Includes(s[1..], sub))
  }

  /** `sub` occurs in `s` starting at position `i`. */
  predicate OccursAt(s: string, sub: string, i: int) {
    0 <= i <= |s| - |sub| && s[i..i + |sub|] == sub
  }

  /** `Includes` agrees with the positional definition of a substring. */
  lemma {:induction false} IncludesAt(s: string, sub: string)
    ensures Includes(s, sub) <==> exists i :: OccursAt(s, sub, i)
    decreases |s|
  {
    if sub <= s {
      assert OccursAt(s, sub, 0);
    } else if s == [] {
    } else {
      IncludesAt(s[1..], sub);
      if Includes(s[1..], sub) {
        var i :| OccursAt(s[1..], sub, i);
        assert s[i + 1..i + 1 + |sub|] == s[1..][i..i + |sub|];
        assert OccursAt(s, sub, i + 1);
      }
      if exists i :: OccursAt(s, sub, i) {
        var i :| OccursAt(s, sub, i);
        assert i != 0;
        assert s[1..][i - 1..i - 1 + |sub|] == s[i..i + |sub|];
        assert OccursAt(s[1..], sub, i - 1);
      }
    }
  }

  /** A string that includes `sub` includes every prefix of `sub`. */
  lemma {:induction false} IncludesPrefix(s: string, pre: string, sub: string)
    requires pre <= sub
    requires Includes(s, sub)
    ensures Includes(s, pre)
    decreases |s|
  {
    if sub <= s {
      assert pre <= s;
    } else {
      IncludesPrefix(s[1..], pre, sub);
    }
  }

  /** Lower-casing distributes over concatenation. */
  lemma LowerAppend(a: string, b: string)
    ensures ToLower(a + b) == ToLower(a) + ToLower(b)
  {
  }

  /** A lower-case letter absent from `s` in both cases is absent from `ToLower(s)`. */
  lemma LowerKeepsAbsent(s: string, c: char)
    requires 'a' <= c <= 'z'
    requires c !in s && (c as int - 32) as char !in s
    ensures c !in ToLower(s)
  {
  }

  /** A string that lacks one of the characters of `sub` does not include `sub`. */
  lemma {:induction false} MissingCharExcludes(s: string, sub: string, c: char)
    requires c in sub && c !in s
    ensures !Includes(s, sub)
    decreases |s|
  {
    if s != [] {
      MissingCharExcludes(s[1..], sub, c);
    }
  }

  /** A string whose lower-cased head is `sub` includes `sub` once lower-cased. */
  lemma LowerHeadIncludes(head: string, rest: string, sub: string)
    requires ToLower(head) == sub
    ensures Includes(ToLower(head + rest), sub)
  {
    LowerAppend(head, rest);
    assert sub <= ToLower(head + rest);
  }
}
