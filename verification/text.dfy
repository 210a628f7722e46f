/** The string operations the message handler relies on: lowercasing, substring
    containment (Python's `in` on strings) and `sep.join(xs)`. */
module Text {

  /** Lowercase of one character; only the ASCII letters change. */
  function LowerChar(c: char): char {
    if 'A' <= c <= 'Z' then (c as int + 32) as char else c
  }

  predicate IsLowerChar(c: char) {
    !('A' <= c <= 'Z')
  }

  /** `s.lower()`, restricted to the ASCII case mapping. */
  function Lower(s: string): (r: string)
    ensures |r| == |s|
    ensures forall i | 0 <= i < |s| :: r[i] == LowerChar(s[i]) && IsLowerChar(r[i])
  {
    if s == [] then [] else [LowerChar(s[0])] + Lower(s[1..])
  }

  /** Lowercasing twice is lowercasing once, so a lowered text is stable. */
  lemma LowerIdempotent(s: string)
    ensures Lower(Lower(s)) == Lower(s)
  {
  }

  predicate IsPrefix(p: string, s: string) {
    |p| <= |s| && s[..|p|] == p
  }

  /** `p in s` for Python strings, computed by scanning the start positions. */
  function Contains(s: string, p: string): (r: bool)
    ensures |p| == 0 ==> r
    ensures r ==> |p| <= |s|
    decreases |s|
  {
    IsPrefix(p, s) || (|s| > 0 && Contains(s[1..], p))
  }

  /** `p` occurs in `s` starting at index `i`. */
  ghost predicate OccursAt(s: string, p: string, i: int) {
    0 <= i && i + |p| <= |s| && s[i..i + |p|] == p
  }

  /** The scan finds `p` exactly when `p` occurs somewhere in `s`. */
  lemma {:induction false} ContainsIff(s: string, p: string)
    ensures Contains(s, p) <==> exists i :: OccursAt(s, p, i)
    decreases |s|
  {
    if IsPrefix(p, s) {
      assert OccursAt(s, p, 0);
    } else if |s| > 0 {
      ContainsIff(s[1..], p);
      if Contains(s[1..], p) {
        var i :| OccursAt(s[1..], p, i);
        assert s[1..][i..i + |p|] == s[i + 1..i + 1 + |p|];
        assert OccursAt(s, p, i + 1);
      }
      if exists i :: OccursAt(s, p, i) {
        var i :| OccursAt(s, p, i);
        assert i != 0;
        assert s[1..][i - 1..i - 1 + |p|] == s[i..i + |p|];
        assert OccursAt(s[1..], p, i - 1);
      }
    }
  }

  /** Text put in front of a string cannot hide an occurrence in it. */
  lemma {:induction false} ContainsInSuffix(h: string, s: string, p: string)
    requires Contains(s, p)
    ensures Contains(h + s, p)
    decreases |h|
  {
    if h == [] {
      assert h + s == s;
    } else {
      ContainsInSuffix(h[1..], s, p);
      assert (h + s)[1..] == h[1..] + s;
    }
  }

  /** `sep.join(xs)`. */
  function Join(sep: string, xs: seq<string>): (r: string)
    ensures |xs| == 0 ==> r == ""
    ensures |xs| > 0 ==> IsPrefix(xs[0], r)
    ensures |xs| > 1 ==> |r| >= |xs[0]| + |sep| + |xs[1]|
  {
    if |xs| == 0 then ""
    else if |xs| == 1 then xs[0]
    else xs[0] + sep + Join(sep, xs[1..])
  }

  /** Every joined piece appears in the joined string. */
  lemma {:induction false} JoinContainsEach(sep: string, xs: seq<string>, i: nat)
    requires i < |xs|
    ensures Contains(Join(sep, xs), xs[i])
  {
    var j := Join(sep, xs);
    if i == 0 {
      assert j[..|xs[0]|] == xs[0];
      assert IsPrefix(xs[0], j);
    } else {
      JoinContainsEach(sep, xs[1..], i - 1);
      ContainsInSuffix(xs[0] + sep, Join(sep, xs[1..]), xs[i]);
      assert j == (xs[0] + sep) + Join(sep, xs[1..]);
    }
  }

  /** Joining a non-empty list whose first piece is non-empty gives a non-empty string. */
  lemma JoinNonEmpty(sep: string, xs: seq<string>)
    requires |xs| > 0 && xs[0] != ""
    ensures Join(sep, xs) != ""
  {
    JoinContainsEach(sep, xs, 0);
    ContainsIff(Join(sep, xs), xs[0]);
  }
}
