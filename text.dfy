/** The string operations of Python that the detector uses, on `seq<char>`:
    `str.lower`, `str.upper`, `str.capitalize` (ASCII letters only), the
    substring test `sub in s`, `str.endswith`, `str.rstrip(c)`, `str.split(c)`,
    and `re.search` for patterns whose only metacharacter is `.`. */
module Text {

  function LowerChar(c: char): char {
    if 'A' <= c <= 'Z' then (c as int + 32) as char else c
  }

  function UpperChar(c: char): char {
    if 'a' <= c <= 'z' then (c as int - 32) as char else c
  }

  /** `s.lower()` */
  function Lower(s: string): string {
    seq(|s|, i requires 0 <= i < |s| => LowerChar(s[i]))
  }

  /** `s.upper()` */
  function Upper(s: string): string {
    seq(|s|, i requires 0 <= i < |s| => UpperChar(s[i]))
  }

  /** `s.capitalize()`: first character upper case, the rest lower case. */
  function Capitalize(s: string): string {
    if s == [] then [] else [UpperChar(s[0])] + Lower(s[1..])
  }

  /** Python's `sub in s`. */
  predicate Contains(s: string, sub: string) {
    exists k :: 0 <= k <= |s| && sub <= s[k..]
  }

  /** `s.endswith(suffix)` */
  predicate EndsWith(s: string, suffix: string) {
    |suffix| <= |s| && s[|s| - |suffix|..] == suffix
  }

  /** `s.rstrip(c)`: the longest prefix of `s` that does not end in `c`. */
  function RStrip(s: string, c: char): (r: string)
    ensures r <= s
    ensures r == [] || r[|r| - 1] != c
    ensures forall i :: |r| <= i < |s| ==> s[i] == c
    decreases |s|
  {
    if |s| > 0 && s[|s| - 1] == c then RStrip(s[..|s| - 1], c) else s
  }

  /** The index of the first `c` in `s`, or `|s|` when there is none. */
  function IndexOf(s: string, c: char): (k: nat)
    ensures k <= |s|
    ensures k < |s| ==> s[k] == c
    ensures forall i :: 0 <= i < k ==> s[i] != c
    decreases |s|
  {
    if s == [] then 0 else if s[0] == c then 0 else 1 + IndexOf(s[1..], c)
  }

  /** `s.split(sep)` for a one-character separator. */
  function Split(s: string, sep: char): (parts: seq<string>)
    ensures |parts| >= 1
    decreases |s|
  {
    var k := IndexOf(s, sep);
    if k == |s| then [s] else [s[..k]] + Split(s[k + 1..], sep)
  }

  /** The first `c` in `s` is at `k` when `s[k]` is `c` and none comes before. */
  lemma IndexOfAt(s: string, c: char, k: nat)
    requires k < |s| && s[k] == c && c !in s[..k]
    ensures IndexOf(s, c) == k
  {
  }

  /** The first part of a split ends before the first separator. */
  lemma SplitFirst(s: string, c: char, k: nat)
    requires k < |s| && s[k] == c && c !in s[..k]
    ensures Split(s, c)[0] == s[..k]
  {
    IndexOfAt(s, c, k);
  }

  /** `sep.join(parts)` */
  function Join(parts: seq<string>, sep: char): string {
    if parts == [] then []
    else if |parts| == 1 then parts[0]
    else parts[0] + [sep] + Join(parts[1..], sep)
  }

  /** Splitting and re-joining gives the original string back, no part
      holds the separator, and there is more than one part exactly when
      the separator occurs. */
  lemma {:induction false} SplitJoin(s: string, sep: char)
    ensures Join(Split(s, sep), sep) == s
    ensures forall i :: 0 <= i < |Split(s, sep)| ==> sep !in Split(s, sep)[i]
    ensures |Split(s, sep)| > 1 <==> sep in s
    decreases |s|
  {
    var k := IndexOf(s, sep);
    if k < |s| {
      var rest := s[k + 1..];
      SplitJoin(rest, sep);
      assert Split(s, sep) == [s[..k]] + Split(rest, sep);
      assert s == s[..k] + [sep] + rest;
      forall i | 0 <= i < |Split(s, sep)| ensures sep !in Split(s, sep)[i] {
        if i > 0 {
          assert Split(s, sep)[i] == Split(rest, sep)[i - 1];
        }
      }
      assert sep in s by { assert s[k] == sep; }
    } else {
      assert Split(s, sep) == [s];
      assert sep !in s by {
        forall i | 0 <= i < |s| ensures s[i] != sep { }
      }
    }
  }

  /** `Split(s, sep)[1]` is the text between the first and the second
      separator (or the end of the string). */
  lemma SplitSecond(s: string, sep: char)
    requires sep in s
    ensures |Split(s, sep)| > 1
    ensures var rest := s[IndexOf(s, sep) + 1..];
            Split(s, sep)[1] == rest[..IndexOf(rest, sep)]
  {
    SplitJoin(s, sep);
    var k := IndexOf(s, sep);
    var rest := s[k + 1..];
    assert Split(s, sep) == [s[..k]] + Split(rest, sep);
    SplitJoin(rest, sep);
  }

  /** An ASCII whitespace character: space, tab, line feed, vertical tab,
      form feed or carriage return. */
  predicate IsSpace(c: char) {
    c == ' ' || '\t' <= c <= '\r'
  }

  /** `token` occurs in `s` at `k` with whitespace or an end of `s` on
      either side. */
  predicate TokenAt(s: string, token: string, k: int) {
    && 0 <= k <= |s| - |token|
    && s[k..k + |token|] == token
    && (k == 0 || IsSpace(s[k - 1]))
    && (k + |token| == |s| || IsSpace(s[k + |token|]))
  }

  /** `token` is one of the whitespace-separated words of `s`. */
  predicate HasToken(s: string, token: string) {
    exists k :: 0 <= k <= |s| && TokenAt(s, token, k)
  }

  /** One pattern character against one text character under `re`:
      `.` stands for any character but a newline. */
  predicate CharMatches(p: char, c: char) {
    if p == '.' then c != '\n' else p == c
  }

  predicate MatchesAt(pattern: string, s: string, k: nat)
    requires k + |pattern| <= |s|
  {
    forall j :: 0 <= j < |pattern| ==> CharMatches(pattern[j], s[k + j])
  }

  /** `re.search(pattern, s) is not None` for a pattern whose only
      metacharacter is `.`. */
  predicate RegexSearch(pattern: string, s: string) {
    exists k: nat :: k + |pattern| <= |s| && MatchesAt(pattern, s, k)
  }

  // ---------------------------------------------------------------------------
  // Properties of the model's string functions
  // ---------------------------------------------------------------------------

  /** Every literal occurrence of a pattern is also a regular-expression match. */
  lemma LiteralMatchIsSearch(pattern: string, s: string)
    requires Contains(s, pattern)
    ensures RegexSearch(pattern, s)
  {
    var k :| 0 <= k <= |s| && pattern <= s[k..];
    forall j | 0 <= j < |pattern| ensures CharMatches(pattern[j], s[k + j]) {
      assert s[k..][j] == s[k + j];
    }
    assert MatchesAt(pattern, s, k);
  }

  /** The converse fails: under `re`, the `.` of `facebook.com` matches any
      character, so an address that only resembles the domain matches too. */
  lemma DotMatchesAnyCharacter()
    ensures RegexSearch("facebook.com", "facebookXcom")
    ensures !Contains("facebookXcom", "facebook.com")
  {
    assert MatchesAt("facebook.com", "facebookXcom", 0);
    forall k | 0 <= k <= 12 ensures !("facebook.com" <= "facebookXcom"[k..]) {
      if k == 0 {
        assert "facebookXcom"[8] != "facebook.com"[8];
      }
    }
  }

  /** An occurrence survives lower-casing both strings, so a case-sensitive
      hit is also a case-insensitive one. */
  lemma ContainsLower(s: string, sub: string)
    requires Contains(s, sub)
    ensures Contains(Lower(s), Lower(sub))
  {
    var k :| 0 <= k <= |s| && sub <= s[k..];
    assert Lower(sub) <= Lower(s)[k..] by {
      forall j | 0 <= j < |sub| ensures Lower(sub)[j] == Lower(s)[k..][j] {
        assert sub[j] == s[k..][j] == s[k + j];
      }
    }
  }

  /** A string lacking some character of `sub` does not contain `sub`. */
  lemma MissingCharNotContained(s: string, sub: string, j: nat)
    requires j < |sub| && sub[j] !in s
    ensures !Contains(s, sub)
  {
    forall k | 0 <= k <= |s| ensures !(sub <= s[k..]) {
      if k + j < |s| {
        assert s[k..][j] == s[k + j];
      }
    }
  }
}
