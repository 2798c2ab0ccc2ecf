/**
  String helpers with the meaning Python gives them: `str.startswith`,
  `str.endswith`, `str.isspace`, `str.strip`, `str.join` and `str.rfind`.
 */
module Text {

  predicate StartsWith(s: string, p: string) {
    |p| <= |s| && s[..|p|] == p
  }

  predicate EndsWith(s: string, p: string) {
    |p| <= |s| && s[|s| - |p|..] == p
  }

  /** The characters for which Python's `str.isspace()` holds. */
  predicate IsSpace(c: char) {
    var n := c as int;
    n == 0x20 || 0x09 <= n <= 0x0D || 0x1C <= n <= 0x1F || n == 0x85 || n == 0xA0
    || n == 0x1680 || 0x2000 <= n <= 0x200A || n == 0x2028 || n == 0x2029
    || n == 0x202F || n == 0x205F || n == 0x3000
  }

  predicate AllSpace(s: string) {
    forall i :: 0 <= i < |s| ==> IsSpace(s[i])
  }

  function StripLeft(s: string): string {
    if s != [] && IsSpace(s[0]) then StripLeft(s[1..]) else s
  }

  function StripRight(s: string): string {
    if s != [] && IsSpace(s[|s| - 1]) then StripRight(s[..|s| - 1]) else s
  }

  /** Python's `s.strip()` with no argument. */
  function Strip(s: string): string {
    StripRight(StripLeft(s))
  }

  lemma {:induction false} StripLeftSpaces(w: string, m: string)
    requires AllSpace(w)
    requires m != [] && !IsSpace(m[0])
    ensures StripLeft(w + m) == m
  {
    if w == [] {
      assert w + m == m;
    } else {
      assert (w + m)[1..] == w[1..] + m;
      StripLeftSpaces(w[1..], m);
    }
  }

  lemma {:induction false} StripRightSpaces(m: string, w: string)
    requires AllSpace(w)
    requires m != [] && !IsSpace(m[|m| - 1])
    ensures StripRight(m + w) == m
  {
    if w == [] {
      assert m + w == m;
    } else {
      assert (m + w)[..|m + w| - 1] == m + w[..|w| - 1];
      StripRightSpaces(m, w[..|w| - 1]);
    }
  }

  /** Stripping removes exactly the whitespace around a text that begins and ends with a visible character. */
  lemma StripAround(w1: string, m: string, w2: string)
    requires AllSpace(w1) && AllSpace(w2)
    requires m != [] && !IsSpace(m[0]) && !IsSpace(m[|m| - 1])
    ensures Strip(w1 + m + w2) == m
  {
    assert w1 + m + w2 == w1 + (m + w2);
    StripLeftSpaces(w1, m + w2);
    StripRightSpaces(m, w2);
  }

  /** Python's `sep.join(parts)`. */
  function Join(sep: string, parts: seq<string>): string {
    if parts == [] then ""
    else if |parts| == 1 then parts[0]
    else parts[0] + sep + Join(sep, parts[1..])
  }

  /** A join of pieces that all end in `c` is non-empty and ends in `c` itself. */
  lemma {:induction false} JoinEndsWith(sep: string, parts: seq<string>, c: char)
    requires parts != []
    requires forall i :: 0 <= i < |parts| ==> parts[i] != [] && parts[i][|parts[i]| - 1] == c
    ensures var r := Join(sep, parts); r != [] && r[|r| - 1] == c
  {
    if |parts| > 1 {
      JoinEndsWith(sep, parts[1..], c);
    }
  }

  /** Appending a part to a join adds the separator and the part. */
  lemma {:induction false} JoinSnoc(sep: string, parts: seq<string>, x: string)
    requires parts != []
    ensures Join(sep, parts + [x]) == Join(sep, parts) + sep + x
  {
    if |parts| == 1 {
      assert (parts + [x])[1..] == [x];
    } else {
      assert (parts + [x])[1..] == parts[1..] + [x];
      JoinSnoc(sep, parts[1..], x);
    }
  }

  /** A join begins with its first part. */
  lemma {:induction false} JoinStartsWith(sep: string, parts: seq<string>)
    requires parts != []
    ensures var r := Join(sep, parts); |parts[0]| <= |r| && r[..|parts[0]|] == parts[0]
  {
  }

  /** Python's `s.rfind(c)` for a single character: -1 when absent. */
  function LastIndexOf(s: string, c: char): (r: int)
    ensures -1 <= r < |s|
    ensures r >= 0 ==> s[r] == c
    ensures forall i :: r < i < |s| ==> s[i] != c
  {
    if s == [] then -1
    else if s[|s| - 1] == c then |s| - 1
    else LastIndexOf(s[..|s| - 1], c)
  }

  /** Where the last `c` of a concatenation lies. */
  lemma LastIndexOfAppend(a: string, b: string, c: char)
    ensures LastIndexOf(a + b, c) == if c in b then |a| + LastIndexOf(b, c) else LastIndexOf(a, c)
  {
    var r := LastIndexOf(a + b, c);
    assert forall i :: |a| <= i < |a + b| ==> (a + b)[i] == b[i - |a|];
    assert forall i :: 0 <= i < |a| ==> (a + b)[i] == a[i];
    if c in b {
      var k :| 0 <= k < |b| && b[k] == c;
      assert (a + b)[|a| + k] == c;
      assert r >= |a|;
      assert (a + b)[r] == b[r - |a|];
      forall i | r - |a| < i < |b| ensures b[i] != c {
        assert (a + b)[|a| + i] == b[i];
      }
      LastIndexOfUnique(b, c, r - |a|);
    } else {
      if r >= 0 {
        assert r < |a|;
        LastIndexOfUnique(a, c, r);
      } else {
        LastIndexOfAbsent(a, c);
      }
    }
  }

  /** The three clauses of the contract of LastIndexOf pin down its result. */
  lemma LastIndexOfUnique(s: string, c: char, k: int)
    requires 0 <= k < |s| && s[k] == c
    requires forall i :: k < i < |s| ==> s[i] != c
    ensures LastIndexOf(s, c) == k
  {
  }

  lemma LastIndexOfAbsent(s: string, c: char)
    requires forall i :: 0 <= i < |s| ==> s[i] != c
    ensures LastIndexOf(s, c) == -1
  {
  }
}
