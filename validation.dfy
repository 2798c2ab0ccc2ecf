/**
  `validate_config` (worker.py:40-68): the batch check run on the resolved
  cluster list before any bot is touched, and the `bot\d+$` search it relies on.
 */
module Validation {
  import opened Wrappers
  import opened Text

  /**
    One cluster record, the Python dict: string-valued keys (`name`,
    `bot_number`, `git_url`, `branch`, `run_command`) and the `env` mapping as
    the ordered list of its items.
   */
  datatype Cluster = Cluster(fields: map<string, string>, env: seq<(string, string)>)

  /** `all(key in cluster for key in required_keys)`. */
  predicate HasRequired(c: Cluster) {
    "bot_number" in c.fields && "git_url" in c.fields && "branch" in c.fields && "run_command" in c.fields
  }

  /** `\d`, restricted to the ASCII digits. */
  predicate IsDigit(ch: char) {
    '0' <= ch <= '9'
  }

  predicate BotAt(s: string, i: int) {
    0 <= i && i + 3 <= |s| && s[i] == 'b' && s[i + 1] == 'o' && s[i + 2] == 't'
  }

  // ----- the regular expression `bot\d+$` as Python's re.search reads it -----

  /** Python's `$` (without MULTILINE) succeeds at the end of the text and just before a final newline. */
  ghost predicate Dollar(s: string, j: int) {
    j == |s| || (0 <= j == |s| - 1 && s[j] == '\n')
  }

  /** `bot\d+$` matches the text `s[i..j]`. */
  ghost predicate MatchesAt(s: string, i: int, j: int) {
    && BotAt(s, i)
    && i + 3 < j <= |s|
    && (forall t :: i + 3 <= t < j ==> IsDigit(s[t]))
    && Dollar(s, j)
  }

  // ----- how the search is computed -----

  /** The only position where `$` can follow a digit. */
  function MatchEnd(s: string): nat {
    if |s| > 0 && s[|s| - 1] == '\n' then |s| - 1 else |s|
  }

  /** The start of the longest run of digits that ends at `e`. */
  function DigitRunStart(s: string, e: nat): (k: nat)
    requires e <= |s|
    ensures k <= e
    ensures forall t :: k <= t < e ==> IsDigit(s[t])
    ensures k == 0 || !IsDigit(s[k - 1])
  {
    if e > 0 && IsDigit(s[e - 1]) then DigitRunStart(s, e - 1) else e
  }

  /** `bot_suffix_pattern.search(s)`, giving `match.group()` or nothing. */
  function SuffixMatch(s: string): Option<string> {
    var e := MatchEnd(s);
    var k := DigitRunStart(s, e);
    if k < e && BotAt(s, k - 3) then Some(s[k - 3..e]) else None
  }

  /**
    SuffixMatch is the search: it finds something exactly when the pattern
    matches somewhere, and every match has the same text, so the leftmost,
    greedy choice of Python's engine is the only one there is.
   */
  lemma SuffixMatchIsSearch(s: string)
    ensures SuffixMatch(s).Some? ==>
      var m := SuffixMatch(s).value;
      |m| <= MatchEnd(s) && MatchesAt(s, MatchEnd(s) - |m|, MatchEnd(s)) && m == s[MatchEnd(s) - |m|..MatchEnd(s)]
    ensures forall i, j :: MatchesAt(s, i, j) ==> SuffixMatch(s) == Some(s[i..j])
  {
    var e := MatchEnd(s);
    var k := DigitRunStart(s, e);
    forall i, j | MatchesAt(s, i, j) ensures SuffixMatch(s) == Some(s[i..j]) {
      if |s| > 0 && s[|s| - 1] == '\n' {
        assert !IsDigit(s[|s| - 1]);
        assert j == |s| - 1;
      }
      assert j == e;
      assert k == i + 3;
    }
  }

  /** Two texts with the same matches, each with the same text in both, give the same search result. */
  lemma SameMatchesSameSuffix(s: string, t: string)
    requires |t| == |s|
    requires forall i, j :: MatchesAt(t, i, j) <==> MatchesAt(s, i, j)
    requires forall i, j :: MatchesAt(s, i, j) ==> t[i..j] == s[i..j]
    ensures SuffixMatch(t) == SuffixMatch(s)
  {
    SuffixMatchIsSearch(s);
    SuffixMatchIsSearch(t);
    if SuffixMatch(s).Some? {
      var e := MatchEnd(s);
      assert MatchesAt(t, e - |SuffixMatch(s).value|, e);
    }
  }

  // ----- the per-cluster checks, in the order the source makes them -----

  datatype Violation = MissingFields | InvalidGitUrl | InvalidBotNumber | DuplicateSuffix(suffix: string)

  /** The outcome of validation, with the first offending cluster and the check it failed. */
  datatype Verdict = Pass | Fail(at: nat, why: Violation)

  predicate WellFormed(c: Cluster) {
    && HasRequired(c)
    && StartsWith(c.fields["git_url"], "http")
    && SuffixMatch(c.fields["bot_number"]).Some?
  }

  function SuffixOf(c: Cluster): string
    requires WellFormed(c)
  {
    SuffixMatch(c.fields["bot_number"]).value
  }

  /** The reference meaning of a valid batch: every record well formed and no bot suffix used twice. */
  predicate ValidConfig(cs: seq<Cluster>) {
    && (forall i :: 0 <= i < |cs| ==> WellFormed(cs[i]))
    && (forall i, j :: 0 <= i < j < |cs| ==> SuffixOf(cs[i]) != SuffixOf(cs[j]))
  }

  ghost function Suffixes(cs: seq<Cluster>): set<string>
    requires forall i :: 0 <= i < |cs| ==> WellFormed(cs[i])
  {
    set i | 0 <= i < |cs| :: SuffixOf(cs[i])
  }

  /** The first check one cluster fails, given the suffixes already seen. */
  function Check(c: Cluster, seen: set<string>): (r: Option<Violation>)
    ensures r.None? <==> WellFormed(c) && SuffixOf(c) !in seen
  {
    if !HasRequired(c) then Some(MissingFields)
    else if !StartsWith(c.fields["git_url"], "http") then Some(InvalidGitUrl)
    else if SuffixMatch(c.fields["bot_number"]).None? then Some(InvalidBotNumber)
    else if SuffixMatch(c.fields["bot_number"]).value in seen then Some(DuplicateSuffix(SuffixMatch(c.fields["bot_number"]).value))
    else None
  }

  /** A valid batch stays valid with one more record exactly when that record passes its checks. */
  lemma ValidConfigSnoc(cs: seq<Cluster>, c: Cluster)
    requires ValidConfig(cs)
    ensures ValidConfig(cs + [c]) <==> Check(c, Suffixes(cs)).None?
  {
    var cs' := cs + [c];
    assert forall i :: 0 <= i < |cs| ==> cs'[i] == cs[i];
    assert cs'[|cs|] == c;
  }

  /** Dropping the first record of a valid batch leaves a valid batch. */
  lemma ValidConfigTail(cs: seq<Cluster>)
    requires cs != [] && ValidConfig(cs)
    ensures ValidConfig(cs[1..])
  {
    assert forall i :: 0 <= i < |cs| - 1 ==> cs[1..][i] == cs[i + 1];
  }

  /** `validate_config`: true exactly for a valid batch; on failure, it names the first cluster that fails and why. */
  method ValidateConfig(cs: seq<Cluster>) returns (v: Verdict)
    ensures v.Pass? <==> ValidConfig(cs)
    ensures v.Fail? ==> v.at < |cs| && ValidConfig(cs[..v.at]) && Check(cs[v.at], Suffixes(cs[..v.at])) == Some(v.why)
  {
    var seen: set<string> := {};
    var i := 0;
    while i < |cs|
      invariant 0 <= i <= |cs|
      invariant ValidConfig(cs[..i])
      invariant seen == Suffixes(cs[..i])
    {
      var c := cs[i];
      ValidConfigSnoc(cs[..i], c);
      assert cs[..i + 1] == cs[..i] + [c];
      if !HasRequired(c) {
        PrefixInvalid(cs, i + 1);
        return Fail(i, MissingFields);
      }
      if !StartsWith(c.fields["git_url"], "http") {
        PrefixInvalid(cs, i + 1);
        return Fail(i, InvalidGitUrl);
      }
      var m := SuffixMatch(c.fields["bot_number"]);
      if m.None? {
        PrefixInvalid(cs, i + 1);
        return Fail(i, InvalidBotNumber);
      }
      if m.value in seen {
        PrefixInvalid(cs, i + 1);
        return Fail(i, DuplicateSuffix(m.value));
      }
      seen := seen + {m.value};
      i := i + 1;
    }
    assert cs[..i] == cs;
    return Pass;
  }

  /** An invalid prefix makes the whole batch invalid, which is why the check may stop at the first violation. */
  lemma PrefixInvalid(cs: seq<Cluster>, n: nat)
    requires n <= |cs|
    requires !ValidConfig(cs[..n])
    ensures !ValidConfig(cs)
  {
    if ValidConfig(cs) {
      assert forall i :: 0 <= i < n ==> cs[..n][i] == cs[i];
    }
  }

  // ----- the cases the source singles out -----

  /** A `git_url` passes when it begins with the four letters `http`: `ftp://...` fails, `httpx...` passes. */
  lemma GitUrlScheme()
    ensures !StartsWith("ftp://example.com/repo", "http")
    ensures StartsWith("https://example.com/repo", "http")
    ensures StartsWith("httpx", "http")
  {
    assert "ftp://example.com/repo"[..4] == "ftp:";
  }

  /** Any batch holding a record with git_url `ftp://example.com/repo` is rejected. */
  lemma FtpUrlRejected(cs: seq<Cluster>, k: nat)
    requires k < |cs| && "git_url" in cs[k].fields && cs[k].fields["git_url"] == "ftp://example.com/repo"
    ensures !ValidConfig(cs)
  {
    GitUrlScheme();
  }

  /** The suffix is the tail `bot<digits>` after the generated prefix. */
  lemma SuffixOfPrefixedNumbers()
    ensures SuffixMatch("a b bot1") == Some("bot1")
    ensures SuffixMatch("c d bot1") == Some("bot1")
  {
    SuffixMatchIsSearch("a b bot1");
    assert MatchesAt("a b bot1", 4, 8);
    assert "a b bot1"[4..8] == "bot1";
    SuffixMatchIsSearch("c d bot1");
    assert MatchesAt("c d bot1", 4, 8);
    assert "c d bot1"[4..8] == "bot1";
  }

  /** Python's `$` also lets a final newline through, and the newline is not part of the suffix. */
  lemma SuffixBeforeFinalNewline()
    ensures SuffixMatch("x y bot12\n") == Some("bot12")
  {
    SuffixMatchIsSearch("x y bot12\n");
    assert MatchesAt("x y bot12\n", 4, 9);
    assert "x y bot12\n"[4..9] == "bot12";
  }

  /** Without digits at the very end there is no suffix. */
  lemma NoSuffixWithoutTrailingDigits()
    ensures SuffixMatch("x y bot") == None
    ensures SuffixMatch("x y bot1a") == None
  {
  }

  /** Two records whose bot numbers end in the same `bot1` are rejected together, whatever else they hold. */
  lemma DuplicateSuffixRejected(c1: Cluster, c2: Cluster)
    requires "bot_number" in c1.fields && c1.fields["bot_number"] == "a b bot1"
    requires "bot_number" in c2.fields && c2.fields["bot_number"] == "c d bot1"
    ensures !ValidConfig([c1, c2])
  {
    SuffixOfPrefixedNumbers();
    var cs := [c1, c2];
    assert cs[0] == c1 && cs[1] == c2;
    if WellFormed(c1) && WellFormed(c2) {
      assert SuffixOf(cs[0]) == SuffixOf(cs[1]);
    }
  }
}
