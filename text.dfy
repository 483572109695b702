/** The Python string operations the extractor and the command line rely on:
    `str.rstrip('/')`, `str.lstrip('/')` and `str.startswith(prefix)`. */
module Text {

  /** `s.rstrip(c)`: `s` without every trailing occurrence of `c` (not just one). */
  function RStrip(s: string, c: char): (r: string)
    ensures r <= s
    ensures forall i :: |r| <= i < |s| ==> s[i] == c
    ensures r == [] || r[|r| - 1] != c
  {
    if s != [] && s[|s| - 1] == c then RStrip(s[..|s| - 1], c) else s
  }

  /** `s.lstrip(c)`: `s` without every leading occurrence of `c`. */
  function LStrip(s: string, c: char): (r: string)
    ensures |r| <= |s| && r == s[|s| - |r|..]
    ensures forall i :: 0 <= i < |s| - |r| ==> s[i] == c
    ensures r == [] || r[0] != c
  {
    if s != [] && s[0] == c then LStrip(s[1..], c) else s
  }

  /** `s.startswith(p)`, which compares characters exactly (case-sensitively). */
  predicate StartsWith(s: string, p: string)
  {
    p <= s
  }

  /** `n` copies of `c`. */
  function Repeat(c: char, n: nat): (r: string)
    ensures |r| == n && forall i :: 0 <= i < n ==> r[i] == c
  {
    if n == 0 then [] else [c] + Repeat(c, n - 1)
  }

  /** `rstrip` is determined by what it keeps: any split of `s` into a part that
      does not end in `c` and a tail made only of `c` has that part as result. */
  lemma {:induction false} RStripUnique(t: string, n: nat, c: char)
    requires t == [] || t[|t| - 1] != c
    ensures RStrip(t + Repeat(c, n), c) == t
  {
    if n == 0 {
      assert t + Repeat(c, 0) == t;
    } else {
      var s := t + Repeat(c, n);
      assert s[|s| - 1] == c;
      assert s[..|s| - 1] == t + Repeat(c, n - 1);
      RStripUnique(t, n - 1, c);
    }
  }

  /** The mirror image of `RStripUnique` for `lstrip`. */
  lemma {:induction false} LStripUnique(t: string, n: nat, c: char)
    requires t == [] || t[0] != c
    ensures LStrip(Repeat(c, n) + t, c) == t
  {
    if n == 0 {
      assert Repeat(c, 0) + t == t;
    } else {
      var s := Repeat(c, n) + t;
      assert s[0] == c;
      assert s[1..] == Repeat(c, n - 1) + t;
      LStripUnique(t, n - 1, c);
      assert LStrip(s, c) == LStrip(s[1..], c);
    }
  }

  /** Stripping twice strips nothing more. */
  lemma RStripIdempotent(s: string, c: char)
    ensures RStrip(RStrip(s, c), c) == RStrip(s, c)
  {
    var r := RStrip(s, c);
    RStripUnique(r, 0, c);
    assert r + Repeat(c, 0) == r;
  }
}
