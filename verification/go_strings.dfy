/**
 * The two functions of Go's `strings` package that the handler's gates rely
 * on: `strings.TrimSpace` (the origin check) and `strings.ToLower` (the
 * dispatch on the callback kind).
 *
 * Strings are sequences of Unicode scalar values. `TrimSpace` removes the
 * characters `unicode.IsSpace` accepts, which is a short fixed list.
 * `ToLower` is modelled on ASCII letters only; other characters are kept.
 */
module GoStrings {

  /** `unicode.IsSpace`: the Unicode White_Space characters. */
  predicate IsSpace(c: char) {
    var n := c as int;
    (0x09 <= n <= 0x0D) || n == 0x20 || n == 0x85 || n == 0xA0 || n == 0x1680
    || (0x2000 <= n <= 0x200A) || n == 0x2028 || n == 0x2029
    || n == 0x202F || n == 0x205F || n == 0x3000
  }

  predicate AllSpace(s: string) {
    forall i :: 0 <= i < |s| ==> IsSpace(s[i])
  }

  /** Neither end of `s` is white space. */
  predicate Trimmed(s: string) {
    s == [] || (!IsSpace(s[0]) && !IsSpace(s[|s| - 1]))
  }

  /** Drops the leading white space. */
  function TrimLeft(s: string): string
    decreases |s|
  {
    if s != [] && IsSpace(s[0]) then TrimLeft(s[1..]) else s
  }

  /** Drops the trailing white space. */
  function TrimRight(s: string): string
    decreases |s|
  {
    if s != [] && IsSpace(s[|s| - 1]) then TrimRight(s[..|s| - 1]) else s
  }

  /** What TrimLeft keeps is a suffix of `s` that does not start with white space; the rest is white space. */
  lemma {:induction false} TrimLeftSuffix(s: string)
    ensures |TrimLeft(s)| <= |s| && TrimLeft(s) == s[|s| - |TrimLeft(s)|..]
    ensures AllSpace(s[..|s| - |TrimLeft(s)|])
    ensures TrimLeft(s) == [] || !IsSpace(TrimLeft(s)[0])
    decreases |s|
  {
    if s != [] && IsSpace(s[0]) {
      var t := s[1..];
      TrimLeftSuffix(t);
      var r := TrimLeft(t);
      var k := |s| - |r|;
      assert r == t[|t| - |r|..] == s[k..];
      forall i | 0 <= i < k
        ensures IsSpace(s[..k][i])
      {
        if i > 0 {
          assert s[..k][i] == t[..|t| - |r|][i - 1];
        }
      }
    }
  }

  /** What TrimRight keeps is a prefix of `s` that does not end with white space; the rest is white space. */
  lemma {:induction false} TrimRightPrefix(s: string)
    ensures |TrimRight(s)| <= |s| && TrimRight(s) == s[..|TrimRight(s)|]
    ensures AllSpace(s[|TrimRight(s)|..])
    ensures TrimRight(s) == [] || !IsSpace(TrimRight(s)[|TrimRight(s)| - 1])
    decreases |s|
  {
    if s != [] && IsSpace(s[|s| - 1]) {
      var r := TrimRight(s[..|s| - 1]);
      TrimRightPrefix(s[..|s| - 1]);
      assert s[|r|..] == s[..|s| - 1][|r|..] + [s[|s| - 1]];
    }
  }

  /** `strings.TrimSpace`: `s` without its leading and trailing white space. */
  function TrimSpace(s: string): (r: string)
    ensures Trimmed(r)
    ensures |r| <= |s|
  {
    var l := TrimLeft(s);
    TrimLeftSuffix(s);
    TrimRightPrefix(l);
    var r := TrimRight(l);
    assert r != [] ==> r[0] == l[0];
    r
  }

  /** `s` is what TrimSpace keeps, with white space on either side of it. */
  lemma TrimSpaceSplits(s: string) returns (i: nat, j: nat)
    ensures i <= j <= |s| && AllSpace(s[..i]) && AllSpace(s[j..]) && TrimSpace(s) == s[i..j]
  {
    var l := TrimLeft(s);
    TrimLeftSuffix(s);
    TrimRightPrefix(l);
    i := |s| - |l|;
    var r := TrimRight(l);
    j := i + |r|;
    assert l == s[i..];
    assert r == s[i..j];
    assert s[j..] == l[|r|..];
  }

  lemma {:induction false} TrimLeftSkips(p: string, x: string)
    requires AllSpace(p)
    requires x == [] || !IsSpace(x[0])
    ensures TrimLeft(p + x) == x
    decreases |p|
  {
    if p == [] {
      assert p + x == x;
    } else {
      assert (p + x)[1..] == p[1..] + x;
      TrimLeftSkips(p[1..], x);
    }
  }

  lemma {:induction false} TrimRightSkips(x: string, q: string)
    requires AllSpace(q)
    requires x == [] || !IsSpace(x[|x| - 1])
    ensures TrimRight(x + q) == x
    decreases |q|
  {
    if q == [] {
      assert x + q == x;
    } else {
      var q' := q[..|q| - 1];
      assert (x + q)[..|x + q| - 1] == x + q';
      TrimRightSkips(x, q');
    }
  }

  /**
   * TrimSpace is characterised by its result: whatever trimmed `t` is
   * surrounded by white space, TrimSpace recovers exactly `t`.
   */
  lemma TrimSpaceOf(p: string, t: string, q: string)
    requires AllSpace(p) && AllSpace(q) && Trimmed(t)
    ensures TrimSpace(p + t + q) == t
  {
    if t == [] {
      assert p + t + q == (p + q) + [];
      TrimLeftSkips(p + q, []);
      assert TrimLeft(p + t + q) == [];
    } else {
      assert p + t + q == p + (t + q);
      TrimLeftSkips(p, t + q);
      TrimRightSkips(t, q);
    }
  }

  /** Adding white space around a string does not change what TrimSpace gives. */
  lemma TrimSpacePadding(p: string, s: string, q: string)
    requires AllSpace(p) && AllSpace(q)
    ensures TrimSpace(p + s + q) == TrimSpace(s)
  {
    var i, j := TrimSpaceSplits(s);
    var t, left, right := s[i..j], s[..i], s[j..];
    assert s[..j] == left + t;
    assert s == s[..j] + right;
    Regroup(p, left, t, right, q);
    AllSpaceConcat(p, left);
    AllSpaceConcat(right, q);
    TrimSpaceOf(p + left, t, right + q);
  }

  lemma Regroup(p: string, l: string, t: string, r: string, q: string)
    ensures p + (l + t + r) + q == (p + l) + t + (r + q)
  {
  }

  lemma AllSpaceConcat(a: string, b: string)
    requires AllSpace(a) && AllSpace(b)
    ensures AllSpace(a + b)
  {
  }

  lemma TrimSpaceIdempotent(s: string)
    ensures TrimSpace(TrimSpace(s)) == TrimSpace(s)
  {
  }

  /** TrimSpace yields the empty string exactly for all-white-space input. */
  lemma TrimSpaceEmpty(s: string)
    ensures TrimSpace(s) == [] <==> AllSpace(s)
  {
    if AllSpace(s) {
      assert s == s + [] + [];
      TrimSpaceOf(s, [], []);
    } else {
      var i, j := TrimSpaceSplits(s);
      if i == j {
        assert s == s[..i] + s[j..];
        assert AllSpace(s);
      }
    }
  }

  predicate IsAscii(c: char) {
    c as int < 0x80
  }

  predicate IsAsciiUpper(c: char) {
    'A' <= c <= 'Z'
  }

  /** `a` and `b` are the same character, or the two cases of one ASCII letter. */
  predicate SameIgnoringCase(a: char, b: char) {
    a == b
    || (IsAsciiUpper(a) && b as int == a as int + 32)
    || (IsAsciiUpper(b) && a as int == b as int + 32)
  }

  /** `s` and `w` spell the same word up to the case of ASCII letters (unlike Go's `strings.EqualFold`, no Unicode folding). */
  predicate EqualFoldAscii(s: string, w: string) {
    |s| == |w| && forall i :: 0 <= i < |s| ==> SameIgnoringCase(s[i], w[i])
  }

  function LowerChar(c: char): char {
    if IsAsciiUpper(c) then (c as int + 32) as char else c
  }

  /**
   * `strings.ToLower` on ASCII letters: the result has no upper-case ASCII
   * letter and is `s` letter by letter, up to case.
   */
  function ToLower(s: string): (r: string)
    ensures |r| == |s|
    ensures forall i :: 0 <= i < |s| ==> !IsAsciiUpper(r[i]) && SameIgnoringCase(s[i], r[i])
  {
    seq(|s|, i requires 0 <= i < |s| => LowerChar(s[i]))
  }

  /**
   * Comparing `ToLower(s)` with a lower-case word is a case-insensitive
   * comparison, in both directions.
   */
  lemma ToLowerMatches(s: string, w: string)
    requires forall i :: 0 <= i < |w| ==> !IsAsciiUpper(w[i])
    ensures ToLower(s) == w <==> EqualFoldAscii(s, w)
  {
  }

  /** ToLower changes no character outside ASCII, so an ASCII word only matches ASCII input. */
  lemma ToLowerAsciiOnly(s: string, w: string)
    requires forall i :: 0 <= i < |w| ==> IsAscii(w[i])
    requires ToLower(s) == w
    ensures forall i :: 0 <= i < |s| ==> IsAscii(s[i])
  {
  }
}
