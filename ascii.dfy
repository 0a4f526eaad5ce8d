/**
 * ASCII case folding. The Rust code calls `str::to_uppercase` and
 * `str::to_lowercase`; on ASCII input these change exactly the letters
 * 'a'..'z' and 'A'..'Z' and leave every other character alone.
 */
module Ascii {

  function UpperChar(c: char): (u: char)
    ensures 'a' <= c <= 'z' ==> 'A' <= u <= 'Z' && u as int == c as int - 32
    ensures !('a' <= c <= 'z') ==> u == c
  {
    if 'a' <= c <= 'z' then (c as int - 32) as char else c
  }

  function LowerChar(c: char): (l: char)
    ensures 'A' <= c <= 'Z' ==> 'a' <= l <= 'z' && l as int == c as int + 32
    ensures !('A' <= c <= 'Z') ==> l == c
  {
    if 'A' <= c <= 'Z' then (c as int + 32) as char else c
  }

  /** Upper-case every ASCII letter of `s`, character by character. */
  function ToUpper(s: string): (r: string)
    ensures |r| == |s|
    ensures forall i :: 0 <= i < |s| ==> r[i] == UpperChar(s[i])
  {
    if s == [] then [] else [UpperChar(s[0])] + ToUpper(s[1..])
  }

  /** Lower-case every ASCII letter of `s`, character by character. */
  function ToLower(s: string): (r: string)
    ensures |r| == |s|
    ensures forall i :: 0 <= i < |s| ==> r[i] == LowerChar(s[i])
  {
    if s == [] then [] else [LowerChar(s[0])] + ToLower(s[1..])
  }

  /** `a` and `b` spell the same word in any mixture of letter cases. */
  predicate EqualsIgnoringCase(a: string, b: string)
  {
    |a| == |b| && forall i :: 0 <= i < |a| ==> UpperChar(a[i]) == UpperChar(b[i])
  }

  lemma ToUpperIdempotent(s: string)
    ensures ToUpper(ToUpper(s)) == ToUpper(s)
  {
    assert forall i :: 0 <= i < |s| ==> UpperChar(UpperChar(s[i])) == UpperChar(s[i]);
  }

  lemma ToLowerIdempotent(s: string)
    ensures ToLower(ToLower(s)) == ToLower(s)
  {
    assert forall i :: 0 <= i < |s| ==> LowerChar(LowerChar(s[i])) == LowerChar(s[i]);
  }

  /**
   * For a word `t` that has no lower-case letters, upper-casing `s` yields `t`
   * exactly when `s` is `t` written in any letter case.
   */
  lemma ToUpperMatches(s: string, t: string)
    requires ToUpper(t) == t
    ensures ToUpper(s) == t <==> EqualsIgnoringCase(s, t)
  {
    if EqualsIgnoringCase(s, t) {
      forall i | 0 <= i < |s| ensures ToUpper(s)[i] == t[i] {
        assert ToUpper(t)[i] == UpperChar(t[i]);
      }
    }
    if ToUpper(s) == t {
      forall i | 0 <= i < |s| ensures UpperChar(s[i]) == UpperChar(t[i]) {
        assert ToUpper(s)[i] == UpperChar(s[i]);
        assert ToUpper(t)[i] == UpperChar(t[i]);
      }
    }
  }

  /**
   * For a word `t` that has no upper-case letters, lower-casing `s` yields `t`
   * exactly when `s` is `t` written in any letter case.
   */
  lemma ToLowerMatches(s: string, t: string)
    requires ToLower(t) == t
    ensures ToLower(s) == t <==> EqualsIgnoringCase(s, t)
  {
    if EqualsIgnoringCase(s, t) {
      forall i | 0 <= i < |s| ensures ToLower(s)[i] == t[i] {
        assert ToLower(t)[i] == LowerChar(t[i]);
        assert UpperChar(s[i]) == UpperChar(t[i]);
      }
    }
    if ToLower(s) == t {
      forall i | 0 <= i < |s| ensures UpperChar(s[i]) == UpperChar(t[i]) {
        assert ToLower(s)[i] == LowerChar(s[i]);
        assert ToLower(t)[i] == LowerChar(t[i]);
      }
    }
  }
}
