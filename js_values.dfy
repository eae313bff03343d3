/** JavaScript value notions the site's code relies on: an optional string
    (a JSON field or a storage slot that may be absent), its truthiness,
    the `a || fallback` idiom, `String.prototype.includes`, and the
    regular-expression class `\s`. */
module JsValues {

  datatype Option<+T> = None | Some(value: T)

  /** `!!v` for a value that is either absent (undefined / null) or a string:
      only a present, non-empty string is truthy. */
  predicate Truthy(v: Option<string>)
  {
    v.Some? && v.value != ""
  }

  /** `v || fallback` where `v` is an optional string. */
  function OrElse(v: Option<string>, fallback: string): (r: string)
    ensures Truthy(v) ==> r == v.value
    ensures !Truthy(v) ==> r == fallback
    ensures fallback != "" ==> r != ""
  {
    if Truthy(v) then v.value else fallback
  }

  /** `t` occurs in `s` starting at position `i`. */
  predicate OccursAt(s: string, t: string, i: int)
  {
    0 <= i <= |s| - |t| && s[i..i + |t|] == t
  }

  /** `s.includes(t)`: `t` occurs in `s` at some position. */
  predicate Contains(s: string, t: string)
  {
    exists i | 0 <= i <= |s| - |t| :: OccursAt(s, t, i)
  }

  /** A string built around `t` includes `t`. */
  lemma ContainsInside(a: string, t: string, b: string)
    ensures Contains(a + t + b, t)
  {
    var s := a + t + b;
    assert s[|a|..|a| + |t|] == t;
    assert OccursAt(s, t, |a|);
  }

  /** A string that has no occurrence of the first character of `t` cannot
      include `t`. */
  lemma {:induction false} NotContainsWithoutHead(s: string, t: string)
    requires t != []
    requires forall i | 0 <= i < |s| :: s[i] != t[0]
    ensures !Contains(s, t)
  {
    forall i | 0 <= i <= |s| - |t|
      ensures !OccursAt(s, t, i)
    {
      assert s[i..i + |t|][0] == s[i];
    }
  }

  /** The ECMAScript `\s` class: the WhiteSpace and LineTerminator code
      points (tab, vertical tab, form feed, the byte order mark, every
      Unicode space separator, line feed, carriage return, and the line and
      paragraph separators). */
  predicate IsJsSpace(c: char)
  {
    || c == '\t' || c == '\n' || c == '\U{B}' || c == '\U{C}' || c == '\r'
    || c == ' ' || c == '\U{A0}' || c == '\U{1680}'
    || ('\U{2000}' <= c <= '\U{200A}')
    || c == '\U{2028}' || c == '\U{2029}' || c == '\U{202F}' || c == '\U{205F}'
    || c == '\U{3000}' || c == '\U{FEFF}'
  }
}
