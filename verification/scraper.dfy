/**
 * The output scraper: the deployment CLI prints a table whose rows read
 * `Deployment ID   │   <id>` and `Build ID   │   <id>`, and the action finds
 * them with the regular expression `<heading>\s+│\s+([\w-]+)`, searched
 * leftmost-first with greedy repetition, then strips the captured group.
 */
module Scraper {
  import opened Basics
  import opened PyStrings

  /** The box-drawing vertical bar (U+2502) that separates the table's columns. */
  const Bar: char := '\U{2502}'

  const DeploymentIdLabel: string := "Deployment ID"
  const BuildIdLabel: string := "Build ID"

  /** `\w`: letters, digits and the underscore. */
  predicate IsWordChar(c: char)
  {
    ('a' <= c <= 'z') || ('A' <= c <= 'Z') || ('0' <= c <= '9') || c == '_'
  }

  /** The character class `[\w-]` of an identifier. */
  predicate IsTokenChar(c: char)
  {
    IsWordChar(c) || c == '-'
  }

  /** The two character classes the pattern repeats. */
  datatype CharClass = Blank | Token

  predicate InClass(c: char, k: CharClass)
  {
    match k
    case Blank => IsSpace(c)
    case Token => IsTokenChar(c)
  }

  /** Where the run of class `k` starting at `i` ends: greedy repetition of one character class. */
  function RunEnd(s: string, i: nat, k: CharClass): (j: nat)
    requires i <= |s|
    ensures i <= j <= |s|
    ensures forall p :: i <= p < j ==> InClass(s[p], k)
    ensures j < |s| ==> !InClass(s[j], k)
    decreases |s| - i
  {
    if i == |s| || !InClass(s[i], k) then i else RunEnd(s, i + 1, k)
  }

  /**
   * The pattern tried at position `i`. The bar is neither blank nor part of an
   * identifier, and blanks are not part of one either, so backtracking never
   * changes where a run ends: the match is decided by the greedy runs alone.
   */
  function MatchAt(s: string, i: nat, heading: string): (group: Option<string>)
    requires i <= |s|
    ensures group.Some? ==> group.value != [] && forall p :: 0 <= p < |group.value| ==> IsTokenChar(group.value[p])
  {
    if !(i + |heading| <= |s| && s[i..i + |heading|] == heading) then None
    else
      var a := i + |heading|;
      var b := RunEnd(s, a, Blank);
      if b == a || b == |s| || s[b] != Bar then None
      else
        var c := RunEnd(s, b + 1, Blank);
        if c == b + 1 then None
        else
          var d := RunEnd(s, c, Token);
          if d == c then None else Some(s[c..d])
  }

  /**
   * The language of the pattern, read off the regular expression: the heading
   * at `i`, blanks up to the bar at `b`, blanks up to `c`, and the group
   * `s[c..d]`, each repetition at least one character long.
   */
  ghost predicate RegexMatchAt(s: string, i: int, heading: string, b: int, c: int, d: int)
  {
    && 0 <= i && i + |heading| < b && b + 1 < c && c < d <= |s|
    && s[i..i + |heading|] == heading
    && (forall p :: i + |heading| <= p < b ==> IsSpace(s[p]))
    && s[b] == Bar
    && (forall p :: b + 1 <= p < c ==> IsSpace(s[p]))
    && (forall p :: c <= p < d ==> IsTokenChar(s[p]))
  }

  /** A run ends at `j` exactly when every character before `j` belongs to the class and `s[j]` does not. */
  lemma RunEndIs(s: string, i: nat, k: CharClass, j: nat)
    requires i <= j <= |s|
    requires forall p :: i <= p < j ==> InClass(s[p], k)
    requires j < |s| ==> !InClass(s[j], k)
    ensures RunEnd(s, i, k) == j
  {
  }

  /** Every capture the scraper reports is the group of a match of the pattern at that position. */
  lemma MatchAtSound(s: string, i: nat, heading: string)
    requires i <= |s| && MatchAt(s, i, heading).Some?
    ensures exists b, c, d ::
      && RegexMatchAt(s, i, heading, b, c, d)
      && (d == |s| || !IsTokenChar(s[d]))
      && MatchAt(s, i, heading).value == s[c..d]
  {
    var a := i + |heading|;
    var b := RunEnd(s, a, Blank);
    var c := RunEnd(s, b + 1, Blank);
    var d := RunEnd(s, c, Token);
    assert MatchAt(s, i, heading) == Some(s[c..d]);
    assert RegexMatchAt(s, i, heading, b, c, d);
  }

  /**
   * Wherever the pattern matches, the scraper captures there too, and its
   * capture is the longest group any match at that position allows.
   */
  lemma MatchAtGreedy(s: string, i: nat, heading: string, b: int, c: int, d: int)
    requires RegexMatchAt(s, i, heading, b, c, d)
    ensures MatchAt(s, i, heading).Some?
    ensures exists e ::
      && d <= e <= |s|
      && MatchAt(s, i, heading).value == s[c..e]
      && (e == |s| || !IsTokenChar(s[e]))
      && RegexMatchAt(s, i, heading, b, c, e)
  {
    var a := i + |heading|;
    assert !IsSpace(s[b]);
    RunEndIs(s, a, Blank, b);
    assert !IsSpace(s[c]) by { assert IsTokenChar(s[c]); }
    RunEndIs(s, b + 1, Blank, c);
    var e := RunEnd(s, c, Token);
    assert MatchAt(s, i, heading) == Some(s[c..e]);
    assert RegexMatchAt(s, i, heading, b, c, e);
  }

  /** The leftmost position from `i` on where the pattern matches. */
  function FirstMatchFrom(s: string, i: nat, heading: string): (r: Option<nat>)
    requires i <= |s|
    ensures r.Some? ==> i <= r.value <= |s| && MatchAt(s, r.value, heading).Some?
    ensures r.Some? ==> forall k :: i <= k < r.value ==> MatchAt(s, k, heading).None?
    ensures r.None? ==> forall k :: i <= k <= |s| ==> MatchAt(s, k, heading).None?
    decreases |s| - i
  {
    if MatchAt(s, i, heading).Some? then Some(i)
    else if i == |s| then None
    else FirstMatchFrom(s, i + 1, heading)
  }

  /** `re.search(pattern, s).group(1)`, or `None` when nothing matches. */
  function Search(s: string, heading: string): (group: Option<string>)
    ensures group.Some? ==> group.value != [] && forall p :: 0 <= p < |group.value| ==> IsTokenChar(group.value[p])
  {
    match FirstMatchFrom(s, 0, heading)
    case None => None
    case Some(i) => MatchAt(s, i, heading)
  }

  /**
   * The search reports the group of the leftmost match of the pattern, with
   * the identifier run taken as far as it goes, and reports nothing exactly
   * when the pattern matches nowhere.
   */
  lemma SearchLeftmost(s: string, heading: string)
    ensures Search(s, heading).Some? ==>
      exists i, b, c, d ::
        && RegexMatchAt(s, i, heading, b, c, d)
        && (d == |s| || !IsTokenChar(s[d]))
        && Search(s, heading).value == s[c..d]
        && (forall k, b', c', d' :: 0 <= k < i ==> !RegexMatchAt(s, k, heading, b', c', d'))
    ensures Search(s, heading).None? ==> forall k, b, c, d :: !RegexMatchAt(s, k, heading, b, c, d)
  {
    match FirstMatchFrom(s, 0, heading)
    case None =>
      forall k, b, c, d | RegexMatchAt(s, k, heading, b, c, d)
        ensures false
      {
        MatchAtGreedy(s, k, heading, b, c, d);
      }
    case Some(i) =>
      MatchAtSound(s, i, heading);
      forall k, b', c', d' | 0 <= k < i && RegexMatchAt(s, k, heading, b', c', d')
        ensures false
      {
        MatchAtGreedy(s, k, heading, b', c', d');
      }
  }

  /** A row of the CLI's table: the identifier after the bar is captured, the closing bar is not. */
  lemma TableRowCaptured()
    ensures Search("Deployment ID \U{2502} d-42 \U{2502}", DeploymentIdLabel) == Some("d-42")
  {
    var row := "Deployment ID \U{2502} d-42 \U{2502}";
    assert row[0..13] == DeploymentIdLabel;
    RunEndIs(row, 13, Blank, 14);
    RunEndIs(row, 15, Blank, 16);
    RunEndIs(row, 16, Token, 20);
    assert MatchAt(row, 0, DeploymentIdLabel) == Some(row[16..20]);
    assert row[16..20] == "d-42";
  }

  /** What the action keeps of the CLI's output: the deployment ID, and the build ID when there is one. */
  datatype Scraped = Scraped(deploymentId: string, buildId: Option<string>)

  /**
   * Both searches, each group stripped. Without a deployment ID there is
   * nothing to wait on; a missing build ID is only reported.
   */
  function Scrape(stdout: string): (r: Option<Scraped>)
    ensures r.Some? ==> r.value.deploymentId != ""
    ensures r.Some? ==> forall p :: 0 <= p < |r.value.deploymentId| ==> IsTokenChar(r.value.deploymentId[p])
  {
    match Search(stdout, DeploymentIdLabel)
    case None => None
    case Some(deploymentGroup) =>
      TokenUnstripped(deploymentGroup);
      var buildId := match Search(stdout, BuildIdLabel)
        case None => None
        case Some(buildGroup) => Some(Strip(buildGroup));
      Some(Scraped(Strip(deploymentGroup), buildId))
  }

  /** A captured identifier holds no blanks, so stripping it leaves it unchanged. */
  lemma TokenUnstripped(group: string)
    requires group != [] && forall p :: 0 <= p < |group| ==> IsTokenChar(group[p])
    ensures Strip(group) == group
  {
    StripUntrimmed(group);
  }

  /** An identifier holds no `=`, so it reads back whole from a `key=value` line. */
  lemma TokenUnquoted(token: string)
    requires forall p :: 0 <= p < |token| ==> IsTokenChar(token[p])
    ensures '=' !in token
  {
    forall p | 0 <= p < |token|
      ensures token[p] != '='
    {
    }
  }

  /**
   * The scrape succeeds exactly when the deployment-ID row is found, whatever
   * becomes of the build-ID row, and it keeps both captured groups as found.
   */
  lemma ScrapeIdentifiers(stdout: string)
    ensures Scrape(stdout).Some? <==> Search(stdout, DeploymentIdLabel).Some?
    ensures Scrape(stdout).Some? ==>
      && Scrape(stdout).value.deploymentId == Search(stdout, DeploymentIdLabel).value
      && Scrape(stdout).value.buildId == Search(stdout, BuildIdLabel)
  {
    match Search(stdout, DeploymentIdLabel)
    case None =>
    case Some(deploymentGroup) =>
      TokenUnstripped(deploymentGroup);
      match Search(stdout, BuildIdLabel)
      case None =>
      case Some(buildGroup) =>
        TokenUnstripped(buildGroup);
  }
}
