/**
 * String trimming as the form uses it: removal of leading and trailing white space
 * and line terminators, as `String.prototype.trim` defines them.
 */
module Text {

  /** White space (including the byte-order mark and every space separator) or a line terminator. */
  predicate IsSpace(c: char) {
    var n := c as int;
    n == 0x09 || n == 0x0A || n == 0x0B || n == 0x0C || n == 0x0D || n == 0x20
    || n == 0xA0 || n == 0x1680 || (0x2000 <= n <= 0x200A)
    || n == 0x2028 || n == 0x2029 || n == 0x202F || n == 0x205F
    || n == 0x3000 || n == 0xFEFF
  }

  predicate AllSpace(s: string) {
    forall i :: 0 <= i < |s| ==> IsSpace(s[i])
  }

  /** Neither starts nor ends with white space. */
  predicate Trimmed(s: string) {
    |s| == 0 || (!IsSpace(s[0]) && !IsSpace(s[|s| - 1]))
  }

  /** How many white-space characters `s` starts with. */
  function Leading(s: string): (n: nat)
    ensures n <= |s|
    ensures AllSpace(s[..n])
    ensures n < |s| ==> !IsSpace(s[n])
  {
    if |s| > 0 && IsSpace(s[0]) then
      var n := 1 + Leading(s[1..]);
      assert s[..n] == [s[0]] + s[1..][..n - 1];
      n
    else 0
  }

  /** How many white-space characters `s` ends with. */
  function Trailing(s: string): (n: nat)
    ensures n <= |s|
    ensures AllSpace(s[|s| - n..])
    ensures n < |s| ==> !IsSpace(s[|s| - n - 1])
  {
    if |s| > 0 && IsSpace(s[|s| - 1]) then
      var n := 1 + Trailing(s[..|s| - 1]);
      assert s[|s| - n..] == s[..|s| - 1][|s| - n..] + [s[|s| - 1]];
      n
    else 0
  }

  /** `r` is the slice of `s` starting at `a`, with only white space before and after it. */
  predicate Framed(s: string, a: int, r: string) {
    0 <= a <= |s| - |r| && r == s[a..a + |r|] && AllSpace(s[..a]) && AllSpace(s[a + |r|..])
  }

  /**
   * `s` without its leading and trailing white space: the unique trimmed slice of `s`
   * with only white space around it.
   */
  function Trim(s: string): (r: string)
    ensures Trimmed(r)
    ensures exists a :: Framed(s, a, r)
    ensures r == "" <==> AllSpace(s)
  {
    var a := Leading(s);
    var b := Trailing(s[a..]);
    LeadingIndexed(s, a);
    TrailingOfSuffix(s, a, b);
    TrimSlice(s, a, b);
    s[a..|s| - b]
  }

  /** What `Leading` says, in the indices of `s`. */
  lemma LeadingIndexed(s: string, a: nat)
    requires a == Leading(s)
    ensures a <= |s|
    ensures forall i :: 0 <= i < a ==> IsSpace(s[i])
    ensures a < |s| ==> !IsSpace(s[a])
  {
    forall i | 0 <= i < a ensures IsSpace(s[i]) {
      assert s[..a][i] == s[i];
    }
  }

  /** What `Trailing` says about a suffix of `s`, restated in the indices of `s`. */
  lemma TrailingOfSuffix(s: string, a: nat, b: nat)
    requires a <= |s|
    requires b == Trailing(s[a..])
    ensures b <= |s| - a
    ensures forall i :: |s| - b <= i < |s| ==> IsSpace(s[i])
    ensures b < |s| - a ==> !IsSpace(s[|s| - b - 1])
  {
    var rest := s[a..];
    forall i | |s| - b <= i < |s| ensures IsSpace(s[i]) {
      assert s[i] == rest[|rest| - b..][i - (|s| - b)];
    }
  }

  /** The slice between white-space runs `s[..a]` and `s[|s| - b..]` that stop at non-space characters. */
  lemma TrimSlice(s: string, a: nat, b: nat)
    requires a + b <= |s|
    requires forall i :: 0 <= i < a ==> IsSpace(s[i])
    requires a < |s| ==> !IsSpace(s[a])
    requires forall i :: |s| - b <= i < |s| ==> IsSpace(s[i])
    requires a + b < |s| ==> !IsSpace(s[|s| - b - 1])
    ensures Trimmed(s[a..|s| - b])
    ensures Framed(s, a, s[a..|s| - b])
    ensures s[a..|s| - b] == "" <==> AllSpace(s)
  {
    if a < |s| {
      assert !AllSpace(s);
    } else {
      assert s[..a] == s;
    }
    var r := s[a..|s| - b];
    assert r == s[a..a + |r|];
    assert s[a + |r|..] == s[|s| - b..];
  }

  /** Trimming a trimmed string changes nothing; in particular trimming is idempotent. */
  lemma TrimTrimmed(s: string)
    requires Trimmed(s)
    ensures Trim(s) == s
  {
    assert Leading(s) == 0;
    assert Trailing(s) == 0;
  }

  lemma TrimIdempotent(s: string)
    ensures Trim(Trim(s)) == Trim(s)
  {
    TrimTrimmed(Trim(s));
  }
}
