/** Small building blocks shared by the server pipeline and the dashboard:
    optional fields, JavaScript's `includes` and `toLowerCase` on strings,
    and the zero-guarded ratio used by every derived metric. */
module Basics {

  /** A field that may be absent from a JSON record. */
  datatype Option<+T> = None | Some(value: T) {
    /** `field || default`: the value if present, the default otherwise. */
    function GetOr(default: T): T {
      match this
      case Some(v) => v
      case None => default
    }
  }

  /** `t` occurs in `s` starting at index `i`. */
  predicate OccursAt(s: string, t: string, i: int) {
    0 <= i && i + |t| <= |s| && s[i..i + |t|] == t
  }

  /** JavaScript's `s.includes(t)`. */
  predicate Contains(s: string, t: string) {
    exists i :: 0 <= i <= |s| - |t| && OccursAt(s, t, i)
  }

  /** The empty string occurs in every string. */
  lemma ContainsEmpty(s: string)
    ensures Contains(s, "")
  {
    assert OccursAt(s, "", 0);
  }

  /** Every string occurs in itself. */
  lemma ContainsSelf(s: string)
    ensures Contains(s, s)
  {
    assert OccursAt(s, s, 0);
  }

  /** A string occurs at the end of any string it ends. */
  lemma ContainsSuffix(p: string, t: string)
    ensures Contains(p + t, t)
  {
    assert (p + t)[|p|..|p| + |t|] == t;
    assert OccursAt(p + t, t, |p|);
  }

  /** Occurrence is transitive: an occurrence of an occurrence is an occurrence. */
  lemma ContainsTrans(s: string, m: string, t: string)
    requires Contains(s, m) && Contains(m, t)
    ensures Contains(s, t)
  {
    var i :| 0 <= i <= |s| - |m| && OccursAt(s, m, i);
    var j :| 0 <= j <= |m| - |t| && OccursAt(m, t, j);
    forall k | 0 <= k < |t|
      ensures s[i + j..i + j + |t|][k] == t[k]
    {
      assert s[i + j + k] == s[i..i + |m|][j + k] == m[j + k];
      assert m[j + k] == m[j..j + |t|][k];
    }
    assert OccursAt(s, t, i + j);
  }

  /** If some character of `t` never appears in `s`, `t` does not occur in `s`. */
  lemma MissingCharNotContained(s: string, t: string, c: char)
    requires c in t && c !in s
    ensures !Contains(s, t)
  {
  }

  /** Only the empty string occurs in the empty string. */
  lemma ContainsInEmpty(t: string)
    ensures Contains("", t) <==> t == ""
  {
    if t == "" {
      ContainsEmpty("");
    }
  }

  /** `toLowerCase` on one character (ASCII letters only). */
  function LowerChar(c: char): char {
    if 'A' <= c <= 'Z' then (c as int + 32) as char else c
  }

  /** `s.toLowerCase()`, character by character. */
  function Lower(s: string): (r: string)
    ensures |r| == |s|
  {
    seq(|s|, i requires 0 <= i < |s| => LowerChar(s[i]))
  }

  /** Lowercasing twice is lowercasing once. */
  lemma LowerIdempotent(s: string)
    ensures Lower(Lower(s)) == Lower(s)
  {
    forall i | 0 <= i < |s|
      ensures Lower(Lower(s))[i] == Lower(s)[i]
    {
      var c := s[i];
      assert Lower(s)[i] == LowerChar(c);
      if 'A' <= c <= 'Z' {
        assert LowerChar(c) as int == c as int + 32;
      }
    }
  }

  /** Lowercasing leaves a string without upper-case letters unchanged. */
  lemma LowerOfLowercase(s: string)
    requires forall i :: 0 <= i < |s| ==> !('A' <= s[i] <= 'Z')
    ensures Lower(s) == s
  {
  }

  /** `den > 0 ? num / den : 0`, the guard every derived ratio uses. */
  function GuardedRatio(num: real, den: real): (r: real)
    ensures den > 0.0 ==> r * den == num
    ensures den <= 0.0 ==> r == 0.0
  {
    if den > 0.0 then num / den else 0.0
  }

  /** Two numbers with equal products by a positive factor are equal. */
  lemma CancelPositive(x: real, y: real, t: real)
    requires t > 0.0 && x * t == y * t
    ensures x == y
  {
    assert (x - y) * t == x * t - y * t;
  }

  /** Scaling by a positive factor keeps order. */
  lemma ScaleMonotone(x: real, y: real, t: real)
    requires t > 0.0 && x * t <= y * t
    ensures x <= y
  {
    assert (x - y) * t == x * t - y * t;
  }
}
