// utils/ec2.go: the stop date inside an EC2 state-transition reason such as
// "User initiated (2024-01-02 03:04:05 GMT)". The regular expression
// \(([^)]+)\) is modelled by the scan it performs; time.Parse with the
// layout "2006-01-02 15:04:05 MST" is a parameter.
module TransitionDate {
  import opened Wrappers

  const Layout := "2006-01-02 15:04:05 MST"

  /** time.Parse(Layout, ·): the instant in seconds, or the parser's error. */
  type LayoutParser = string -> Outcome<int>

  /** The end of the run of non-')' characters starting at k. */
  function RunEnd(s: string, k: nat): (e: nat)
    requires k <= |s|
    ensures k <= e <= |s|
    ensures forall j :: k <= j < e ==> s[j] != ')'
    ensures e < |s| ==> s[e] == ')'
    decreases |s| - k
  {
    if k == |s| || s[k] == ')' then k else RunEnd(s, k + 1)
  }

  /**
   * The scan at p: a '(' whose greedy run of non-')' characters is not empty
   * and is closed by a ')'.
   */
  predicate GroupAt(s: string, p: nat)
  {
    p < |s| && s[p] == '(' && p + 1 < RunEnd(s, p + 1) < |s|
  }

  /** What the pattern means at p: '(' then at least one non-')' character, then ')'. */
  predicate PatternMatchesAt(s: string, p: nat)
  {
    p < |s| && s[p] == '('
    && exists q :: p + 1 < q < |s| && s[q] == ')' && forall j :: p < j < q ==> s[j] != ')'
  }

  /** The greedy scan succeeds exactly where the pattern matches. */
  lemma GroupAtMeansMatch(s: string, p: nat)
    ensures GroupAt(s, p) <==> PatternMatchesAt(s, p)
  {
    if PatternMatchesAt(s, p) {
      var q :| p + 1 < q < |s| && s[q] == ')' && forall j :: p < j < q ==> s[j] != ')';
      var e := RunEnd(s, p + 1);
      assert e <= q;
      assert e != p + 1;
    }
    if GroupAt(s, p) {
      var e := RunEnd(s, p + 1);
      assert p + 1 < e < |s| && s[e] == ')';
    }
  }

  /** The captured text of the leftmost match at or after k. */
  function FirstGroupFrom(s: string, k: nat): Option<string>
    requires k <= |s|
    decreases |s| - k
  {
    if k == |s| then None
    else if GroupAt(s, k) then Some(s[k + 1..RunEnd(s, k + 1)])
    else FirstGroupFrom(s, k + 1)
  }

  /** FindStringSubmatch(reason)[1], when there is a match. */
  function FirstGroup(s: string): Option<string>
  {
    FirstGroupFrom(s, 0)
  }

  /**
   * The captured text is that of the leftmost position where the pattern
   * matches: a non-empty run free of ')', opened by '(' and closed by ')'.
   */
  lemma {:induction false} FirstGroupIsLeftmost(s: string, k: nat)
    requires k <= |s|
    ensures match FirstGroupFrom(s, k)
      case None => forall p :: k <= p < |s| ==> !PatternMatchesAt(s, p)
      case Some(g) => (exists p :: k <= p < |s| && PatternMatchesAt(s, p)
                         && (forall p' :: k <= p' < p ==> !PatternMatchesAt(s, p'))
                         && g != [] && ')' !in g && p + 1 + |g| < |s|
                         && s[p + 1..p + 1 + |g|] == g && s[p + 1 + |g|] == ')')
    decreases |s| - k
  {
    if k < |s| {
      GroupAtMeansMatch(s, k);
      if GroupAt(s, k) {
        var g := s[k + 1..RunEnd(s, k + 1)];
        assert forall i :: 0 <= i < |g| ==> g[i] == s[k + 1 + i];
        assert k + 1 + |g| == RunEnd(s, k + 1);
      } else {
        FirstGroupIsLeftmost(s, k + 1);
        forall p | k + 1 <= p < |s| && PatternMatchesAt(s, p)
          ensures FirstGroupFrom(s, k + 1).Some?
        {
        }
      }
    }
  }

  /** Empty parentheses never match, so a later non-empty group is taken. */
  lemma EmptyParenthesesSkipped()
    ensures FirstGroup("()(d)") == Some("d")
  {
    var s := "()(d)";
    assert RunEnd(s, 1) == 1;
    assert FirstGroupFrom(s, 0) == FirstGroupFrom(s, 1);
    assert FirstGroupFrom(s, 1) == FirstGroupFrom(s, 2);
    assert RunEnd(s, 3) == 4;
    assert s[3..4] == "d";
  }

  /**
   * ParseTransitionDate: an error naming the reason when no group matches;
   * otherwise the first group parsed with the layout, its error propagated.
   */
  function ParseTransitionDate(reason: string, parse: LayoutParser): (r: Outcome<int>)
    ensures FirstGroup(reason).None? ==> r == Failure("no date found in string: " + reason)
    ensures FirstGroup(reason).Some? ==> r == parse(FirstGroup(reason).value)
  {
    match FirstGroup(reason)
    case None => Failure("no date found in string: " + reason)
    case Some(dateStr) => parse(dateStr)
  }
}
