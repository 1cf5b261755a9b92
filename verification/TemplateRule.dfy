/** What the collapsed trie computes, said without a trie: one rule per segment. */
module TemplateRule {
  import opened PathSets

  function Closure(urls: set<Path>): set<Path> {
    set u, n | u in urls && 0 <= n <= |u| :: u[..n]
  }

  /** The template of one URL of a host, as the collapsed trie of all the host's URLs gives it. */
  function TemplateOf(urls: set<Path>, threshold: int, url: Path): (template: Path) {
    Pattern(Closure(urls), threshold, true, url)
  }

  /** The distinct segments that follow `prefix` among the URLs whose template starts with it. */
  function NextSegments(urls: set<Path>, template: map<Path, Path>, prefix: Path): set<string>
    requires urls <= template.Keys && forall u | u in urls :: |template[u]| == |u|
  {
    set u | u in urls && |u| > |prefix| && template[u][..|prefix|] == prefix :: u[|prefix|]
  }

  /** The rule: after the first segment, a segment becomes the wildcard exactly when the URLs that
      share its generalised prefix go on in at least `threshold` different ways. */
  ghost predicate FollowsRule(urls: set<Path>, threshold: int, template: map<Path, Path>) {
    && template.Keys == urls
    && (forall u | u in urls :: |template[u]| == |u|)
    && forall u, i | u in urls && 0 <= i < |u| :: SegmentFollows(urls, threshold, template, u, i)
  }

  predicate SegmentFollows(urls: set<Path>, threshold: int, template: map<Path, Path>, u: Path, i: nat)
    requires template.Keys == urls && (forall v | v in urls :: |template[v]| == |v|) && u in urls && i < |u|
  {
    template[u][i] ==
    if i >= 1 && threshold > 0 && |NextSegments(urls, template, template[u][..i])| >= threshold then WILDCARD else u[i]
  }

  ghost function AllTemplates(urls: set<Path>, threshold: int): map<Path, Path> {
    map u | u in urls :: TemplateOf(urls, threshold, u)
  }

  /** The pattern of `path` starts with `prefix`. */
  ghost predicate Leads(paths: set<Path>, threshold: int, root: bool, prefix: Path, path: Path) {
    |path| >= |prefix| && Pattern(paths, threshold, root, path)[..|prefix|] == prefix
  }

  /** What lies below the node that `prefix` leads to in the collapsed trie. */
  ghost function Sharing(paths: set<Path>, threshold: int, root: bool, prefix: Path): set<Path> {
    set p | p in paths && Leads(paths, threshold, root, prefix, p) :: p[|prefix|..]
  }

  lemma LeadsBelow(paths: set<Path>, threshold: int, root: bool, key: string, rest: Path, path: Path)
    requires path in paths && path != []
    ensures Leads(paths, threshold, root, [key] + rest, path)
            <==> && key == (if Collapses(paths, threshold, root) then WILDCARD else path[0])
                 && Leads(Below(paths, threshold, root, key), threshold, false, rest, path[1..])
  {
    if |path| > |rest| {
      var head := if Collapses(paths, threshold, root) then WILDCARD else path[0];
      var tail := Pattern(Below(paths, threshold, root, head), threshold, false, path[1..]);
      assert Pattern(paths, threshold, root, path)[..|rest| + 1] == [head] + tail[..|rest|];
      assert ([key] + rest)[0] == key && ([key] + rest)[1..] == rest;
      assert ([head] + tail[..|rest|])[0] == head && ([head] + tail[..|rest|])[1..] == tail[..|rest|];
    }
  }

  lemma SharingDown(paths: set<Path>, threshold: int, root: bool, key: string, rest: Path, path: Path)
    requires path in paths && Leads(paths, threshold, root, [key] + rest, path)
    ensures path[|rest| + 1..] in Sharing(Below(paths, threshold, root, key), threshold, false, rest)
  {
    LeadsBelow(paths, threshold, root, key, rest, path);
    assert path[1..] in Below(paths, threshold, root, key);
    assert path[1..][|rest|..] == path[|rest| + 1..];
  }

  lemma SharingUp(paths: set<Path>, threshold: int, root: bool, key: string, rest: Path, path: Path)
    requires key in KeysBelow(paths, threshold, root) && path in Below(paths, threshold, root, key)
    requires Leads(Below(paths, threshold, root, key), threshold, false, rest, path)
    ensures path[|rest|..] in Sharing(paths, threshold, root, [key] + rest)
  {
    var p :| p in paths && p != [] && p[1..] == path && (Collapses(paths, threshold, root) || p[0] == key);
    LeadsBelow(paths, threshold, root, key, rest, p);
    assert p[|[key] + rest|..] == path[|rest|..];
  }

  lemma SharingStep(paths: set<Path>, threshold: int, root: bool, key: string, rest: Path)
    requires key in KeysBelow(paths, threshold, root)
    ensures Sharing(paths, threshold, root, [key] + rest) == Sharing(Below(paths, threshold, root, key), threshold, false, rest)
  {
    var below, prefix := Below(paths, threshold, root, key), [key] + rest;
    forall p | p in paths && Leads(paths, threshold, root, prefix, p)
      ensures p[|prefix|..] in Sharing(below, threshold, false, rest)
    {
      SharingDown(paths, threshold, root, key, rest, p);
    }
    forall q | q in below && Leads(below, threshold, false, rest, q)
      ensures q[|rest|..] in Sharing(paths, threshold, root, prefix)
    {
      SharingUp(paths, threshold, root, key, rest, q);
    }
  }

  lemma SharingAll(paths: set<Path>, threshold: int, root: bool)
    ensures Sharing(paths, threshold, root, []) == paths
  {
    forall p | p in paths
      ensures p in Sharing(paths, threshold, root, [])
    {
      assert p[0..] == p && Leads(paths, threshold, root, [], p);
    }
  }

  lemma {:induction false} PatternAt(paths: set<Path>, threshold: int, root: bool, path: Path, i: nat)
    requires path in paths && i < |path|
    ensures var pattern := Pattern(paths, threshold, root, path);
            pattern[i] == if Collapses(Sharing(paths, threshold, root, pattern[..i]), threshold, root && i == 0) then WILDCARD else path[i]
    decreases i
  {
    StepDown(paths, threshold, root, path);
    if i == 0 {
      SharingAll(paths, threshold, root);
    } else {
      var key := if Collapses(paths, threshold, root) then WILDCARD else path[0];
      var below := Below(paths, threshold, root, key);
      var rest := Pattern(below, threshold, false, path[1..]);
      PatternAt(below, threshold, false, path[1..], i - 1);
      assert ([key] + rest)[..i] == [key] + rest[..i - 1];
      SharingStep(paths, threshold, root, key, rest[..i - 1]);
    }
  }

  lemma {:induction false} PatternOfPrefix(paths: set<Path>, threshold: int, root: bool, path: Path, n: nat)
    requires n <= |path|
    ensures Pattern(paths, threshold, root, path[..n]) == Pattern(paths, threshold, root, path)[..n]
    decreases n
  {
    if n > 0 {
      var key := if Collapses(paths, threshold, root) then WILDCARD else path[0];
      PatternOfPrefix(Below(paths, threshold, root, key), threshold, false, path[1..], n - 1);
      assert path[..n][1..] == path[1..][..n - 1];
    }
  }

  lemma NextSegmentIsChild(urls: set<Path>, threshold: int, prefix: Path, url: Path)
    requires url in urls && |url| > |prefix| && TemplateOf(urls, threshold, url)[..|prefix|] == prefix
    ensures url[|prefix|] in Firsts(Sharing(Closure(urls), threshold, true, prefix))
  {
    assert url[..|url|] == url && url in Closure(urls);
    assert Leads(Closure(urls), threshold, true, prefix, url);
    var tail := url[|prefix|..];
    assert tail in Sharing(Closure(urls), threshold, true, prefix) && tail != [] && tail[0] == url[|prefix|];
  }

  lemma ChildIsNextSegment(urls: set<Path>, threshold: int, prefix: Path, path: Path)
    requires path in Closure(urls) && |path| > |prefix| && Leads(Closure(urls), threshold, true, prefix, path)
    ensures path[|prefix|] in NextSegments(urls, AllTemplates(urls, threshold), prefix)
  {
    var u, m :| u in urls && 0 <= m <= |u| && u[..m] == path;
    PatternOfPrefix(Closure(urls), threshold, true, u, m);
    assert TemplateOf(urls, threshold, u)[..m][..|prefix|] == TemplateOf(urls, threshold, u)[..|prefix|];
    assert u[|prefix|] == path[|prefix|];
  }

  lemma NextSegmentsAreChildren(urls: set<Path>, threshold: int, prefix: Path)
    ensures NextSegments(urls, AllTemplates(urls, threshold), prefix)
            == Firsts(Sharing(Closure(urls), threshold, true, prefix))
  {
    var paths, all := Closure(urls), AllTemplates(urls, threshold);
    var n := |prefix|;
    forall s | s in NextSegments(urls, all, prefix)
      ensures s in Firsts(Sharing(paths, threshold, true, prefix))
    {
      var u :| u in urls && |u| > n && all[u][..n] == prefix && u[n] == s;
      NextSegmentIsChild(urls, threshold, prefix, u);
    }
    forall s | s in Firsts(Sharing(paths, threshold, true, prefix))
      ensures s in NextSegments(urls, all, prefix)
    {
      var tail :| tail in Sharing(paths, threshold, true, prefix) && tail != [] && tail[0] == s;
      var p :| p in paths && Leads(paths, threshold, true, prefix, p) && p[n..] == tail;
      ChildIsNextSegment(urls, threshold, prefix, p);
    }
  }

  lemma TrieFollowsRule(urls: set<Path>, threshold: int)
    ensures FollowsRule(urls, threshold, AllTemplates(urls, threshold))
  {
    var all := AllTemplates(urls, threshold);
    forall u, i | u in urls && 0 <= i < |u|
      ensures SegmentFollows(urls, threshold, all, u, i)
    {
      assert u[..|u|] == u && u in Closure(urls);
      PatternAt(Closure(urls), threshold, true, u, i);
      NextSegmentsAreChildren(urls, threshold, all[u][..i]);
    }
  }

  ghost predicate AgreeUpTo(urls: set<Path>, a: map<Path, Path>, b: map<Path, Path>, n: nat)
    requires urls == a.Keys == b.Keys && forall u | u in urls :: |a[u]| == |b[u]| == |u|
  {
    forall u | u in urls && |u| >= n :: a[u][..n] == b[u][..n]
  }

  /** Two solutions that agree on the prefixes of one length see the same next segments. */
  lemma SameNextSegments(urls: set<Path>, a: map<Path, Path>, b: map<Path, Path>, prefix: Path)
    requires urls == a.Keys == b.Keys && forall u | u in urls :: |a[u]| == |b[u]| == |u|
    requires AgreeUpTo(urls, a, b, |prefix|)
    ensures NextSegments(urls, a, prefix) == NextSegments(urls, b, prefix)
  {
  }

  lemma SameNextSegment(urls: set<Path>, threshold: int, a: map<Path, Path>, b: map<Path, Path>, u: Path, i: nat)
    requires FollowsRule(urls, threshold, a) && FollowsRule(urls, threshold, b) && u in urls && i < |u|
    requires a[u][..i] == b[u][..i] && NextSegments(urls, a, a[u][..i]) == NextSegments(urls, b, a[u][..i])
    ensures a[u][..i + 1] == b[u][..i + 1]
  {
    assert SegmentFollows(urls, threshold, a, u, i) && SegmentFollows(urls, threshold, b, u, i);
    assert a[u][..i + 1] == a[u][..i] + [a[u][i]] && b[u][..i + 1] == b[u][..i] + [b[u][i]];
  }

  lemma OneMoreSegment(urls: set<Path>, threshold: int, a: map<Path, Path>, b: map<Path, Path>, u: Path, n: nat)
    requires FollowsRule(urls, threshold, a) && FollowsRule(urls, threshold, b) && AgreeUpTo(urls, a, b, n) && u in urls && n < |u|
    ensures a[u][..n + 1] == b[u][..n + 1]
  {
    SameNextSegments(urls, a, b, a[u][..n]);
    SameNextSegment(urls, threshold, a, b, u, n);
  }

  lemma {:induction false} RuleDecides(urls: set<Path>, threshold: int, a: map<Path, Path>, b: map<Path, Path>, n: nat)
    requires FollowsRule(urls, threshold, a) && FollowsRule(urls, threshold, b)
    ensures AgreeUpTo(urls, a, b, n)
  {
    if n > 0 {
      RuleDecides(urls, threshold, a, b, n - 1);
      forall u | u in urls && |u| >= n
        ensures a[u][..n] == b[u][..n]
      {
        OneMoreSegment(urls, threshold, a, b, u, n - 1);
      }
    }
  }

  /** The rule has exactly one solution, the collapsed trie's templates. */
  lemma RuleIsComplete(urls: set<Path>, threshold: int, template: map<Path, Path>)
    ensures FollowsRule(urls, threshold, template) <==> template == AllTemplates(urls, threshold)
  {
    TrieFollowsRule(urls, threshold);
    if FollowsRule(urls, threshold, template) {
      forall u | u in urls
        ensures template[u] == AllTemplates(urls, threshold)[u]
      {
        RuleDecides(urls, threshold, template, AllTemplates(urls, threshold), |u|);
        assert template[u][..|u|] == template[u] && AllTemplates(urls, threshold)[u][..|u|] == AllTemplates(urls, threshold)[u];
      }
    }
  }
}
