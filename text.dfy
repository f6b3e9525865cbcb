/**
 * String helpers the server relies on: ordinal case-insensitive comparison
 * (`StringComparison.OrdinalIgnoreCase`), upper-casing (`ToUpper()`) and
 * `string.IsNullOrEmpty`.  Case mapping is modelled for ASCII letters only.
 */
module Text {
  import opened Wrappers

  /** Upper-case form of one character: `a`..`z` become `A`..`Z`, every other character is kept. */
  function UpperChar(c: char): char
  {
    if 'a' <= c <= 'z' then (c as int - 32) as char else c
  }

  /** Upper-case form of a string, character by character. */
  function Upper(s: string): (u: string)
  {
    seq(|s|, i requires 0 <= i < |s| => UpperChar(s[i]))
  }

  /**
   * Ordinal comparison ignoring case, walking both strings character by
   * character; it agrees with comparing the upper-case forms.
   */
  function EqIgnoreCase(a: string, b: string): (r: bool)
    ensures r <==> Upper(a) == Upper(b)
  {
    if |a| != |b| then false
    else if a == [] then true
    else
      assert Upper(a)[1..] == Upper(a[1..]) && Upper(b)[1..] == Upper(b[1..]);
      assert Upper(a) == [UpperChar(a[0])] + Upper(a)[1..] && Upper(b) == [UpperChar(b[0])] + Upper(b)[1..];
      UpperChar(a[0]) == UpperChar(b[0]) && EqIgnoreCase(a[1..], b[1..])
  }

  /** `string.Equals(a, b, StringComparison.OrdinalIgnoreCase)` where `a` may be null and `b` is not. */
  predicate NullableEqIgnoreCase(a: Option<string>, b: string)
  {
    a.Some? && EqIgnoreCase(a.value, b)
  }

  /** `string.IsNullOrEmpty`. */
  predicate IsNullOrEmpty(s: Option<string>)
  {
    s.None? || s.value == ""
  }
}
