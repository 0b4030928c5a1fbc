// The Docker image parser of stader-cli/service/service.go:62,813-832.
//
// The source searches with the regular expression .*/(?P<image>.*):.* ; here
// the search is a scan for the last ':' and the last '/' before it on the
// first line that has both, and it is proved to find the match that
// leftmost-first matching prefers.
module ImageName {
  import opened Text

  /** One match of the expression: repo/name:tag covers the text from start. */
  datatype Match = Match(start: nat, repo: string, name: string, tag: string)
  {
    function Covers(): string {
      repo + "/" + name + ":" + tag
    }
  }

  datatype Search = Found(m: Match) | NotFound

  datatype Parsed = Name(name: string) | Unparsable(image: string)

  /** m is a match of the expression somewhere in s ('.' stands for no newline). */
  ghost predicate IsMatch(s: string, m: Match) {
    && m.start + |m.Covers()| <= |s|
    && s[m.start..m.start + |m.Covers()|] == m.Covers()
    && '\n' !in m.repo && '\n' !in m.name && '\n' !in m.tag
  }

  /** Leftmost start first, then each '.*' as long as possible, from the left. */
  ghost predicate Precedes(m: Match, n: Match) {
    || m.start < n.start
    || (m.start == n.start && (
          || |m.repo| > |n.repo|
          || (|m.repo| == |n.repo| && (
                || |m.name| > |n.name|
                || (|m.name| == |n.name| && |m.tag| >= |n.tag|)))))
  }

  ghost predicate IsPreferred(s: string, m: Match) {
    && IsMatch(s, m)
    && forall n :: IsMatch(s, n) ==> Precedes(m, n)
  }

  function SearchLine(line: string): Search {
    var colon := LastIndex(line, ':');
    if colon < 0 then NotFound
    else
      var slash := LastIndex(line[..colon], '/');
      if slash < 0 then NotFound
      else Found(Match(0, line[..slash], line[slash + 1..colon], line[colon + 1..]))
  }

  function Shift(r: Search, offset: nat): Search {
    match r
    case Found(m) => Found(m.(start := m.start + offset))
    case NotFound => NotFound
  }

  function FindStringSubmatch(s: string): Search
    decreases |s|
  {
    var nl := Index(s, '\n');
    if nl < 0 then SearchLine(s)
    else
      var first := SearchLine(s[..nl]);
      if first.Found? then first else Shift(FindStringSubmatch(s[nl + 1..]), nl + 1)
  }

  /** The empty image, which no container has, yields the empty name without a search. */
  function GetDockerImageName(image: string): Parsed {
    if image == "" then Name("")
    else
      match FindStringSubmatch(image)
      case Found(m) => Name(m.name)
      case NotFound => Unparsable(image)
  }

  /** Where the separators of a match lie inside the text. */
  lemma MatchPositions(s: string, m: Match)
    requires IsMatch(s, m)
    ensures var slash := m.start + |m.repo|;
            var colon := slash + 1 + |m.name|;
            colon < |s| && s[slash] == '/' && s[colon] == ':' && s[slash + 1..colon] == m.name
    ensures forall k :: m.start <= k < m.start + |m.Covers()| ==> s[k] != '\n'
  {
    var w := m.Covers();
    assert forall k :: 0 <= k < |w| ==> s[m.start + k] == w[k];
    var slash := |m.repo|;
    var colon := slash + 1 + |m.name|;
    assert w[slash] == '/' && w[colon] == ':';
    assert forall k :: 0 <= k < |m.name| ==> w[slash + 1 + k] == m.name[k];
    assert s[m.start + slash + 1..m.start + colon] == m.name;
    forall k | m.start <= k < m.start + |w| ensures s[k] != '\n' {
      var j := k - m.start;
      assert w[j] == s[k];
      if j < slash { assert w[j] == m.repo[j]; }
      else if slash < j < colon { assert w[j] == m.name[j - slash - 1]; }
      else if colon < j { assert w[j] == m.tag[j - colon - 1]; }
    }
  }

  lemma LineMatchIsMatch(line: string)
    requires '\n' !in line && SearchLine(line).Found?
    ensures SearchLine(line).m.Covers() == line && IsMatch(line, SearchLine(line).m)
  {
    var m := SearchLine(line).m;
    var colon := LastIndex(line, ':');
    var slash := LastIndex(line[..colon], '/');
    assert line[..colon][slash] == '/';
    assert m.Covers() == line;
    assert line[0..|line|] == line;
  }

  /** On one line the scan finds a match if there is one, and it is the preferred one. */
  lemma LineSearch(line: string)
    requires '\n' !in line
    ensures SearchLine(line).NotFound? ==> forall m :: !IsMatch(line, m)
    ensures SearchLine(line).Found? ==> IsPreferred(line, SearchLine(line).m)
  {
    var colon := LastIndex(line, ':');
    forall n | IsMatch(line, n)
      ensures SearchLine(line).Found? && Precedes(SearchLine(line).m, n)
    {
      MatchPositions(line, n);
      var slash := LastIndex(line[..colon], '/');
      var ns := n.start + |n.repo|;
      var nc := ns + 1 + |n.name|;
      assert line[..colon][ns] == '/';
      assert ns <= slash && nc <= colon;
      assert |n.Covers()| == |n.repo| + |n.name| + |n.tag| + 2;
    }
    if SearchLine(line).Found? { LineMatchIsMatch(line); }
  }

  /** A match never crosses a newline, so it lies in the first line or in what follows it. */
  lemma MatchSides(s: string, nl: nat, m: Match)
    requires nl < |s| && s[nl] == '\n' && IsMatch(s, m)
    ensures if nl < m.start then IsMatch(s[nl + 1..], m.(start := m.start - nl - 1)) else IsMatch(s[..nl], m)
  {
    MatchPositions(s, m);
    var w := m.Covers();
    if nl < m.start {
      var r := m.(start := m.start - nl - 1);
      assert r.Covers() == w;
      assert s[nl + 1..][r.start..r.start + |w|] == s[m.start..m.start + |w|];
    } else {
      assert s[..nl][m.start..m.start + |w|] == s[m.start..m.start + |w|];
    }
  }

  lemma FirstLineMatch(s: string, nl: nat, m: Match)
    requires nl < |s| && IsMatch(s[..nl], m)
    ensures IsMatch(s, m)
  {
    assert s[m.start..m.start + |m.Covers()|] == s[..nl][m.start..m.start + |m.Covers()|];
  }

  lemma LaterLineMatch(s: string, nl: nat, m: Match)
    requires nl < |s| && IsMatch(s[nl + 1..], m)
    ensures IsMatch(s, m.(start := m.start + nl + 1))
  {
    var t := m.(start := m.start + nl + 1);
    assert t.Covers() == m.Covers();
    assert s[t.start..t.start + |t.Covers()|] == s[nl + 1..][m.start..m.start + |m.Covers()|];
  }

  ghost predicate IsAnswer(s: string, r: Search) {
    match r
    case Found(m) => IsPreferred(s, m)
    case NotFound => forall m :: !IsMatch(s, m)
  }

  lemma LiesInLaterLine(s: string, nl: nat, n: Match)
    requires nl < |s| && s[nl] == '\n' && IsAnswer(s[..nl], NotFound) && IsMatch(s, n)
    ensures nl < n.start && IsMatch(s[nl + 1..], n.(start := n.start - nl - 1))
  {
    MatchSides(s, nl, n);
    assert !IsMatch(s[..nl], n);
  }

  /** Once the first line has no match, the later lines decide. */
  lemma LaterLinesDecide(s: string, nl: nat, r: Search)
    requires nl < |s| && s[nl] == '\n'
    requires IsAnswer(s[..nl], NotFound) && IsAnswer(s[nl + 1..], r)
    ensures IsAnswer(s, Shift(r, nl + 1))
  {
    forall n | IsMatch(s, n)
      ensures r.Found? && Precedes(Shift(r, nl + 1).m, n)
    {
      LiesInLaterLine(s, nl, n);
    }
    if r.Found? { LaterLineMatch(s, nl, r.m); }
  }

  /** The search finds the preferred match, and nothing exactly when nothing matches. */
  lemma {:induction false} FindsPreferred(s: string)
    ensures IsAnswer(s, FindStringSubmatch(s))
    decreases |s|
  {
    var nl := Index(s, '\n');
    if nl < 0 {
      LineSearch(s);
    } else {
      LineSearch(s[..nl]);
      var first := SearchLine(s[..nl]);
      if first.Found? {
        FirstLineMatch(s, nl, first.m);
        forall n | IsMatch(s, n) ensures Precedes(first.m, n) {
          LineMatchIsMatch(s[..nl]);
          MatchSides(s, nl, n);
        }
      } else {
        FindsPreferred(s[nl + 1..]);
        LaterLinesDecide(s, nl, FindStringSubmatch(s[nl + 1..]));
      }
    }
  }

  lemma EmptyHasNoMatch(m: Match)
    ensures !IsMatch("", m)
  {
    if IsMatch("", m) { MatchPositions("", m); }
  }

  /** The parser answers a name exactly when it is that of the preferred match, or both are empty. */
  lemma ParsesPreferred(image: string, name: string)
    ensures GetDockerImageName(image) == Name(name)
       <==> (image == "" && name == "") || exists m :: IsPreferred(image, m) && m.name == name
    ensures GetDockerImageName(image).Unparsable? <==> image != "" && forall m :: !IsMatch(image, m)
  {
    if image == "" {
      forall m ensures !IsMatch(image, m) { EmptyHasNoMatch(m); }
      return;
    }
    FindsPreferred(image);
    var r := FindStringSubmatch(image);
    forall m | IsPreferred(image, m) ensures r.Found? && m.name == r.m.name {
      assert Precedes(m, r.m) && Precedes(r.m, m);
      MatchPositions(image, m);
      MatchPositions(image, r.m);
    }
  }

  lemma LastIndexAfter(head: string, c: char, tail: string)
    requires c !in tail
    ensures LastIndex(head + [c] + tail, c) == |head|
  {
    var s := head + ([c] + tail);
    assert s == head + [c] + tail;
    var i := LastIndex(s, c);
    assert s[|head|] == c;
    assert i <= |head|;
  }

  function Format(repo: string, name: string, tag: string): string {
    repo + "/" + name + ":" + tag
  }

  /** A component of an image reference that can be told from its separators. */
  predicate IsComponent(s: string) {
    '/' !in s && ':' !in s && '\n' !in s
  }

  /** Formatting an image reference and parsing it back returns the name, whatever the repository looks like. */
  lemma ParseInvertsFormat(repo: string, name: string, tag: string)
    requires '\n' !in repo && IsComponent(name) && IsComponent(tag)
    ensures GetDockerImageName(Format(repo, name, tag)) == Name(name)
  {
    var head := repo + "/" + name;
    var s := Format(repo, name, tag);
    assert s == head + [':'] + tag && head == repo + ['/'] + name;
    LastIndexAfter(head, ':', tag);
    LastIndexAfter(repo, '/', name);
    assert s[..|head|] == head;
    assert head[|repo| + 1..] == name;
    assert Index(s, '\n') < 0;
  }
}
