/**
 * The URL classifier of the popup (`isTOSPage`): a URL "looks like" a terms,
 * privacy, agreement or legal page when any of nine case-insensitive regular
 * expressions finds a match in it.
 *
 * Each expression is modelled as a rule: one or more alternatives, each a
 * sequence of character classes (the lower-case characters accepted at that
 * position), optionally followed by the word boundary `\b`. The input is folded
 * to lower case one character at a time, which is what the `i` flag does for
 * these patterns (all of their letters are ASCII, and without the `u` flag a
 * non-ASCII character never folds onto an ASCII one).
 */
module Classifier {
  import opened Text

  type CharClass = set<char>

  datatype Rule = Rule(alternatives: seq<seq<CharClass>>, wordBoundary: bool)

  /** A pattern that accepts exactly the characters of `s`, in order. */
  function Chars(s: string): (p: seq<CharClass>)
    ensures |p| == |s| && forall i :: 0 <= i < |s| ==> p[i] == {s[i]}
  {
    seq(|s|, i requires 0 <= i < |s| => {s[i]})
  }

  /** The class `[-_]`. */
  const Sep: CharClass := {'-', '_'}

  /** The nine patterns, in the order the popup lists them. */
  const TosRules: seq<Rule> := [
    // terms[-_]of[-_](service|use)
    Rule([Chars("terms") + [Sep] + Chars("of") + [Sep] + Chars("service"),
          Chars("terms") + [Sep] + Chars("of") + [Sep] + Chars("use")], false),
    // privacy[-_]policy
    Rule([Chars("privacy") + [Sep] + Chars("policy")], false),
    // user[-_]agreement
    Rule([Chars("user") + [Sep] + Chars("agreement")], false),
    // acceptable[-_]use
    Rule([Chars("acceptable") + [Sep] + Chars("use")], false),
    // \/tos\b, \/terms\b, \/privacy\b, \/legal\b, \/eula\b
    Rule([Chars("/tos")], true),
    Rule([Chars("/terms")], true),
    Rule([Chars("/privacy")], true),
    Rule([Chars("/legal")], true),
    Rule([Chars("/eula")], true)
  ]

  /** `\w` of a JavaScript regular expression without the `u` flag. */
  predicate IsWordChar(c: char) {
    'a' <= c <= 'z' || 'A' <= c <= 'Z' || '0' <= c <= '9' || c == '_'
  }

  /**
   * `\b` at position `j`, right after a matched word character (every pattern
   * carrying `\b` ends with a letter): the input ends there or the next
   * character is not a word character.
   */
  predicate BoundaryAt(s: string, j: nat) {
    j >= |s| || !IsWordChar(s[j])
  }

  /** The classes of `p` accept, ignoring case, the characters of `s` from position `i` on. */
  predicate ClassesAt(s: string, i: nat, p: seq<CharClass>) {
    i + |p| <= |s| && forall k :: 0 <= k < |p| ==> ToLower(s[i + k]) in p[k]
  }

  /** Some alternative of `r` (with its `\b`, if any) matches `s` starting at position `i`. */
  predicate RuleMatchesAt(r: Rule, s: string, i: nat) {
    exists k :: 0 <= k < |r.alternatives| &&
      ClassesAt(s, i, r.alternatives[k]) &&
      (r.wordBoundary ==> BoundaryAt(s, i + |r.alternatives[k]|))
  }

  /** What `pattern.test(s)` means: a match starts at some position of `s`. */
  ghost predicate RuleMatches(r: Rule, s: string) {
    exists i :: 0 <= i <= |s| && RuleMatchesAt(r, s, i)
  }

  /** The left-to-right search `pattern.test(s)` performs, from position `i` on. */
  function TestFrom(r: Rule, s: string, i: nat): (found: bool)
    requires i <= |s|
    ensures found <==> exists j :: i <= j <= |s| && RuleMatchesAt(r, s, j)
    decreases |s| - i
  {
    if RuleMatchesAt(r, s, i) then true
    else if i == |s| then false
    else TestFrom(r, s, i + 1)
  }

  /** `pattern.test(s)`. */
  function Test(r: Rule, s: string): (found: bool)
    ensures found <==> RuleMatches(r, s)
  {
    TestFrom(r, s, 0)
  }

  /** `rules.some(pattern => pattern.test(s))`, stopping at the first rule that matches. */
  function Some(rules: seq<Rule>, s: string): (found: bool)
    ensures found <==> exists k :: 0 <= k < |rules| && RuleMatches(rules[k], s)
  {
    if rules == [] then false
    else if Test(rules[0], s) then true
    else
      var rest := Some(rules[1..], s);
      assert forall k :: 1 <= k < |rules| ==> rules[k] == rules[1..][k - 1];
      rest
  }

  /** `isTOSPage(url)`: true exactly when at least one of the nine patterns matches. */
  function IsTOSPage(url: string): (tos: bool)
    ensures tos <==> exists k :: 0 <= k < |TosRules| && RuleMatches(TosRules[k], url)
  {
    Some(TosRules, url)
  }

  /** Case folding is idempotent and keeps word characters word characters. */
  lemma ToLowerFacts(c: char)
    ensures ToLower(ToLower(c)) == ToLower(c)
    ensures ToLower(ToUpper(c)) == ToLower(c)
    ensures IsWordChar(ToLower(c)) == IsWordChar(c)
    ensures IsWordChar(ToUpper(c)) == IsWordChar(c)
  {
  }

  /** A rule matches at a position of `u` exactly when it matches there in any `v` equal to `u` up to case. */
  lemma {:induction false} RuleMatchesAtIgnoresCase(r: Rule, u: string, v: string, i: nat)
    requires |u| == |v|
    requires forall j :: 0 <= j < |u| ==> ToLower(u[j]) == ToLower(v[j])
    ensures RuleMatchesAt(r, u, i) <==> RuleMatchesAt(r, v, i)
  {
    forall j | 0 <= j < |u|
      ensures IsWordChar(u[j]) == IsWordChar(v[j])
    {
      ToLowerFacts(u[j]);
      ToLowerFacts(v[j]);
    }
  }

  /**
   * The classifier ignores case: two URLs that differ only in the case of
   * their letters are classified alike.
   */
  lemma IsTOSPageIgnoresCase(u: string, v: string)
    requires |u| == |v|
    requires forall j :: 0 <= j < |u| ==> ToLower(u[j]) == ToLower(v[j])
    ensures IsTOSPage(u) == IsTOSPage(v)
  {
    forall k, i | 0 <= k < |TosRules| && 0 <= i <= |u|
      ensures RuleMatchesAt(TosRules[k], u, i) <==> RuleMatchesAt(TosRules[k], v, i)
    {
      RuleMatchesAtIgnoresCase(TosRules[k], u, v, i);
    }
  }

  /** In particular, upper-casing or lower-casing a URL does not change its classification. */
  lemma IsTOSPageOfLowerAndUpper(url: string)
    ensures IsTOSPage(LowerString(url)) == IsTOSPage(url)
    ensures IsTOSPage(UpperString(url)) == IsTOSPage(url)
  {
    forall j | 0 <= j < |url| ensures ToLower(LowerString(url)[j]) == ToLower(url[j]) {
      ToLowerFacts(url[j]);
    }
    IsTOSPageIgnoresCase(LowerString(url), url);
    forall j | 0 <= j < |url| ensures ToLower(UpperString(url)[j]) == ToLower(url[j]) {
      ToLowerFacts(url[j]);
    }
    IsTOSPageIgnoresCase(UpperString(url), url);
  }

  /** A hyphenated privacy policy address is recognised. */
  lemma PrivacyPolicyExample()
    ensures IsTOSPage("https://example.com/privacy-policy")
  {
    var url := "https://example.com/privacy-policy";
    assert ClassesAt(url, 20, TosRules[1].alternatives[0]);
    assert RuleMatchesAt(TosRules[1], url, 20);
  }

  /** `/TOS` at the end of the address is recognised, in upper case too. */
  lemma UpperCaseTosExample()
    ensures IsTOSPage("https://x.com/TOS")
  {
    var url := "https://x.com/TOS";
    assert ClassesAt(url, 13, TosRules[4].alternatives[0]);
    assert RuleMatchesAt(TosRules[4], url, 13);
  }

  /** No alternative of `r` can match at `i` when each one rejects the character at offset `j`. */
  lemma NoMatchAt(r: Rule, s: string, i: nat, j: nat)
    requires forall a :: 0 <= a < |r.alternatives| ==>
      j < |r.alternatives[a]| && (i + j >= |s| || ToLower(s[i + j]) !in r.alternatives[a][j])
    ensures !RuleMatchesAt(r, s, i)
  {
  }

  /** At no position does one of the first four rules, the phrases, match the address `https://x.com/tossed`. */
  lemma TossedMissesPhrase(k: nat, i: nat)
    requires k < 4 && i <= |"https://x.com/tossed"|
    ensures !RuleMatchesAt(TosRules[k], "https://x.com/tossed", i)
  {
    var url := "https://x.com/tossed";
    var r := TosRules[k];
    // the alternatives of one rule share their first character; where it
    // occurs, the next one differs
    NoMatchAt(r, url, i, if i < |url| && ToLower(url[i]) in r.alternatives[0][0] then 1 else 0);
  }

  /**
   * Away from the `/` before `tossed`, no path rule gets past its first
   * character on the address `https://x.com/tossed`, or the second where the
   * first one occurs.
   */
  lemma TossedMissesPathElsewhere(k: nat, i: nat)
    requires 4 <= k < |TosRules| && i <= |"https://x.com/tossed"| && i != 13
    ensures !RuleMatchesAt(TosRules[k], "https://x.com/tossed", i)
  {
    var url := "https://x.com/tossed";
    var r := TosRules[k];
    NoMatchAt(r, url, i, if i < |url| && ToLower(url[i]) in r.alternatives[0][0] then 1 else 0);
  }

  /** At no position does one of the last five rules, the paths, match the address `https://x.com/tossed`. */
  lemma TossedMissesPath(k: nat, i: nat)
    requires 4 <= k < |TosRules| && i <= |"https://x.com/tossed"|
    ensures !RuleMatchesAt(TosRules[k], "https://x.com/tossed", i)
  {
    var url := "https://x.com/tossed";
    if i != 13 {
      TossedMissesPathElsewhere(k, i);
    } else if k == 4 {
      // `/tos` matches, but is followed by a letter
      assert !BoundaryAt(url, 17);
    } else {
      NoMatchAt(TosRules[k], url, i, 2);
    }
  }

  /** `/tos` followed by more letters is not a whole word, so `/tossed` is not recognised. */
  lemma TossedExample()
    ensures !IsTOSPage("https://x.com/tossed")
  {
    forall k, i | 0 <= k < |TosRules| && 0 <= i <= |"https://x.com/tossed"|
      ensures !RuleMatchesAt(TosRules[k], "https://x.com/tossed", i)
    {
      if k < 4 {
        TossedMissesPhrase(k, i);
      } else {
        TossedMissesPath(k, i);
      }
    }
  }
}
