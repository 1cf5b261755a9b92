/** The imperative body of `Templates`: insert, collapse, group, sort. */
module TemplateReport {
  import opened PathSets
  import opened TemplateRule
  import opened UrlTrie
  import opened Templates
  import opened TemplateGroups

  /** The hosts' tries lie in `footprint` and share no node. */
  ghost predicate Forest(roots: map<string, TrieNode>, footprint: set<TrieNode>)
    reads footprint
  {
    && (forall h | h in roots :: roots[h] in footprint && roots[h].repr <= footprint)
    && (forall g, h | g in roots && h in roots && g != h :: roots[g].repr !! roots[h].repr)
  }

  /** Each host's trie holds that host's paths. */
  ghost predicate Planted(roots: map<string, TrieNode>, footprint: set<TrieNode>, paths: map<string, set<Path>>)
    reads footprint
  {
    && Forest(roots, footprint)
    && roots.Keys == paths.Keys
    && forall h | h in roots :: roots[h].Holds(paths[h])
  }

  function Hosts(pages: seq<Page>): set<string> {
    set p | p in pages :: p.host
  }

  function PathsByHost(pages: seq<Page>): map<string, set<Path>> {
    map h | h in Hosts(pages) :: Closure(PathsOf(pages, h))
  }

  lemma ClosureGrows(pages: seq<Page>, page: Page, host: string)
    ensures Closure(PathsOf(pages + [page], host))
            == if page.host == host then Closure(PathsOf(pages, host)) + Prefixes(page.path) else Closure(PathsOf(pages, host))
  {
    var before, after := PathsOf(pages, host), PathsOf(pages + [page], host);
    assert after == before + if page.host == host then {page.path} else {};
    if page.host == host {
      forall n | 0 <= n <= |page.path|
        ensures page.path[..n] in Closure(after)
      {
        assert page.path in after;
      }
    }
  }

  function WithHost(paths: map<string, set<Path>>, host: string): map<string, set<Path>> {
    if host in paths then paths else paths[host := {[]}]
  }

  lemma PathsByHostGrow(pages: seq<Page>, page: Page)
    ensures var paths := WithHost(PathsByHost(pages), page.host);
            PathsByHost(pages + [page]) == paths[page.host := paths[page.host] + Prefixes(page.path)]
  {
    assert Hosts(pages + [page]) == Hosts(pages) + {page.host};
    forall h | h in Hosts(pages + [page]) && h != page.host
      ensures Closure(PathsOf(pages + [page], h)) == Closure(PathsOf(pages, h))
    {
      ClosureGrows(pages, page, h);
    }
    ClosureGrows(pages, page, page.host);
    if page.host !in Hosts(pages) {
      assert PathsOf(pages, page.host) == {} && Closure({}) == {};
      assert page.path[..0] in Prefixes(page.path);
      assert {[]} + Prefixes(page.path) == Prefixes(page.path) == {} + Prefixes(page.path);
    }
  }

  method AddRoot(roots: map<string, TrieNode>, host: string, ghost footprint: set<TrieNode>, ghost paths: map<string, set<Path>>)
    returns (all: map<string, TrieNode>, ghost grown: set<TrieNode>)
    requires Planted(roots, footprint, paths) && host !in roots
    ensures Planted(all, grown, paths[host := {[]}]) && all == roots[host := all[host]]
    ensures fresh(grown - footprint)
  {
    var root := new TrieNode();
    all := roots[host := root];
    grown := footprint + {root};
    assert forall h | h in roots :: roots[h].Holds(paths[h]);
  }

  method Plant(roots: map<string, TrieNode>, host: string, path: Path, ghost footprint: set<TrieNode>, ghost paths: map<string, set<Path>>)
    returns (ghost grown: set<TrieNode>)
    requires Planted(roots, footprint, paths) && host in roots
    modifies roots[host].repr
    ensures Planted(roots, grown, paths[host := paths[host] + Prefixes(path)])
    ensures fresh(grown - footprint)
  {
    var root := roots[host];
    assert forall h | h in roots && h != host :: root.repr !! roots[h].repr && roots[h] in roots[h].repr;
    root.Insert(path, paths[host]);
    assert forall h | h in roots && h != host :: roots[h].Holds(paths[h]) && root.repr !! roots[h].repr;
    grown := footprint + root.repr;
  }

  method EnsureRoot(roots: map<string, TrieNode>, host: string, ghost footprint: set<TrieNode>, ghost paths: map<string, set<Path>>)
    returns (all: map<string, TrieNode>, ghost grown: set<TrieNode>)
    requires Planted(roots, footprint, paths)
    ensures Planted(all, grown, WithHost(paths, host)) && host in all
    ensures fresh(grown - footprint)
  {
    if host in roots {
      all, grown := roots, footprint;
    } else {
      all, grown := AddRoot(roots, host, footprint, paths);
    }
  }

  method AddPage(roots: map<string, TrieNode>, page: Page, ghost footprint: set<TrieNode>, ghost pages: seq<Page>)
    returns (all: map<string, TrieNode>, ghost grown: set<TrieNode>)
    requires Planted(roots, footprint, PathsByHost(pages))
    modifies footprint
    ensures Planted(all, grown, PathsByHost(pages + [page]))
    ensures fresh(grown - footprint)
  {
    PathsByHostGrow(pages, page);
    ghost var paths := WithHost(PathsByHost(pages), page.host);
    ghost var wider;
    all, wider := EnsureRoot(roots, page.host, footprint, PathsByHost(pages));
    grown := Plant(all, page.host, page.path, wider, paths);
  }

  /** The tries of the hosts in `todo` are still whole, the others have collapsed. */
  ghost predicate Pruned(roots: map<string, TrieNode>, footprint: set<TrieNode>, paths: map<string, set<Path>>, threshold: int, todo: set<string>)
    reads footprint
  {
    && Forest(roots, footprint)
    && roots.Keys == paths.Keys
    && (forall h | h in roots && h in todo :: roots[h].Holds(paths[h]))
    && forall h | h in roots && h !in todo :: roots[h].Collapsed(paths[h], threshold, true)
  }

  method PruneOne(roots: map<string, TrieNode>, host: string, threshold: int, ghost footprint: set<TrieNode>,
                  ghost paths: map<string, set<Path>>, ghost todo: set<string>, ghost height: nat)
    returns (ghost grown: set<TrieNode>)
    requires Pruned(roots, footprint, paths, threshold, todo) && host in roots && host in todo
    requires PrefixClosed(paths[host]) && NoLongerThan(paths[host], height)
    modifies roots[host].repr
    ensures Pruned(roots, grown, paths, threshold, todo - {host})
    ensures fresh(grown - footprint)
  {
    var root := roots[host];
    assert forall h | h in roots && h != host :: root.repr !! roots[h].repr && roots[h] in roots[h].repr;
    root.Collapse(threshold, true, paths[host], height);
    assert forall h | h in roots && h != host :: root.repr !! roots[h].repr;
    assert forall h | h in roots && h in todo && h != host :: roots[h].Holds(paths[h]);
    assert forall h | h in roots && h !in todo :: roots[h].Collapsed(paths[h], threshold, true);
    grown := footprint + root.repr;
  }

  method Prune(roots: map<string, TrieNode>, threshold: int, ghost footprint: set<TrieNode>,
               ghost paths: map<string, set<Path>>, ghost height: nat)
    returns (ghost grown: set<TrieNode>)
    requires Planted(roots, footprint, paths)
    requires forall h | h in paths :: PrefixClosed(paths[h]) && NoLongerThan(paths[h], height)
    modifies footprint
    ensures Pruned(roots, grown, paths, threshold, {})
    ensures fresh(grown - footprint)
  {
    grown := footprint;
    var todo := roots.Keys;
    while todo != {}
      invariant todo <= roots.Keys
      invariant Pruned(roots, grown, paths, threshold, todo)
      invariant fresh(grown - footprint)
      decreases todo
    {
      var host :| host in todo;
      grown := PruneOne(roots, host, threshold, grown, paths, todo, height);
      todo := todo - {host};
    }
  }

  ghost function LongestPath(pages: seq<Page>): (height: nat)
    ensures forall p | p in pages :: |p.path| <= height
  {
    if pages == [] then 0
    else
      var rest, n := LongestPath(pages[1..]), |pages[0].path|;
      if n > rest then n else rest
  }

  lemma PathsAreClosed(pages: seq<Page>, host: string)
    requires host in Hosts(pages)
    ensures PrefixClosed(Closure(PathsOf(pages, host))) && NoLongerThan(Closure(PathsOf(pages, host)), LongestPath(pages))
  {
    var urls := PathsOf(pages, host);
    var p :| p in pages && p.host == host;
    assert p.path in urls && p.path[..0] == [];
    forall q, n | q in Closure(urls) && 0 <= n <= |q|
      ensures q[..n] in Closure(urls)
    {
      var u, m :| u in urls && 0 <= m <= |u| && u[..m] == q;
      assert q[..n] == u[..n];
    }
  }

  /** Parses the URLs and grows one trie per host, then collapses them all. */
  method Grow(urls: seq<string>, threshold: int, parse: Parser)
    returns (roots: map<string, TrieNode>, pages: seq<Page>, ghost footprint: set<TrieNode>)
    ensures pages == Pages(urls, parse)
    ensures Pruned(roots, footprint, PathsByHost(pages), threshold, {})
    ensures fresh(footprint)
  {
    roots, pages, footprint := map[], [], {};
    assert PathsByHost([]) == map[];
    for i := 0 to |urls|
      invariant pages == Pages(urls[..i], parse)
      invariant Planted(roots, footprint, PathsByHost(pages))
      invariant fresh(footprint)
    {
      assert urls[..i + 1][..i] == urls[..i];
      if Listed(urls[i], parse) {
        var page := PageOf(urls[i], parse);
        roots, footprint := AddPage(roots, page, footprint, pages);
        pages := pages + [page];
      }
    }
    assert urls[..|urls|] == urls;
    forall h | h in PathsByHost(pages)
      ensures PrefixClosed(PathsByHost(pages)[h]) && NoLongerThan(PathsByHost(pages)[h], LongestPath(pages))
    {
      PathsAreClosed(pages, h);
    }
    footprint := Prune(roots, threshold, footprint, PathsByHost(pages), LongestPath(pages));
  }

  /** `templatePattern`. */
  method Pattern(roots: map<string, TrieNode>, threshold: int, page: Page, ghost footprint: set<TrieNode>, ghost all: seq<Page>)
    returns (pattern: string)
    requires Pruned(roots, footprint, PathsByHost(all), threshold, {}) && page in all
    ensures pattern == PatternOf(all, threshold, page)
    ensures IsPlain(page.path) ==> ReadsAs(pattern, PlaceOf(all, threshold, page), page.query)
  {
    ghost var urls := PathsOf(all, page.host);
    assert page.path in urls && page.path[..|page.path|] == page.path && page.path in Closure(urls);
    var parts := roots[page.host].Walk(page.path, threshold, Closure(urls));
    pattern := Render(parts, page.query);
    if IsPlain(page.path) {
      PagePatternReads(all, threshold, page);
    }
  }

  /** The groups of the first pages. */
  ghost predicate Grouped(groups: map<string, Template>, all: seq<Page>, threshold: int, pages: seq<Page>) {
    && groups.Keys == (set p | p in PatternsOf(all, threshold, pages))
    && forall p | p in groups :: groups[p] == GroupOf(all, threshold, pages, p)
  }

  /** One more page joins its group, or opens it. */
  method Join(groups: map<string, Template>, pattern: string, page: Page, threshold: int, ghost all: seq<Page>, ghost pages: seq<Page>)
    returns (joined: map<string, Template>)
    requires Grouped(groups, all, threshold, pages) && pattern == PatternOf(all, threshold, page)
    ensures Grouped(joined, all, threshold, pages + [page])
  {
    forall p
      ensures p != pattern ==> GroupOf(all, threshold, pages + [page], p) == GroupOf(all, threshold, pages, p)
    {
      OneMorePage(all, threshold, pages, page, p);
    }
    OneMorePage(all, threshold, pages, page, pattern);
    var t;
    if pattern in groups {
      t := groups[pattern];
    } else {
      NothingYet(all, threshold, pages, pattern);
      t := Template(pattern, 0, []);
    }
    t := t.(count := t.count + 1);
    if |t.samples| < TEMPLATE_SAMPLE && page.raw !in t.samples {
      t := t.(samples := t.samples + [page.raw]);
    }
    joined := groups[pattern := t];
  }

  method Group(roots: map<string, TrieNode>, threshold: int, pages: seq<Page>, ghost footprint: set<TrieNode>)
    returns (groups: map<string, Template>)
    requires Pruned(roots, footprint, PathsByHost(pages), threshold, {})
    ensures Grouped(groups, pages, threshold, pages)
  {
    groups := map[];
    for i := 0 to |pages|
      invariant Grouped(groups, pages, threshold, pages[..i])
    {
      var pattern := Pattern(roots, threshold, pages[i], footprint, pages);
      groups := Join(groups, pattern, pages[i], threshold, pages, pages[..i]);
      assert pages[..i + 1] == pages[..i] + [pages[i]];
    }
    assert pages[..|pages|] == pages;
  }

  /** The groups, read off the map in any order and sorted. */
  method Arrange(groups: map<string, Template>) returns (templates: seq<Template>)
    requires forall p | p in groups :: groups[p].pattern == p
    ensures Sorted(templates)
    ensures forall t | t in templates :: t.pattern in groups && t == groups[t.pattern]
    ensures forall p | p in groups :: groups[p] in templates
  {
    templates := [];
    var todo := groups.Keys;
    while todo != {}
      invariant todo <= groups.Keys && Sorted(templates)
      invariant forall t | t in templates :: t.pattern in groups && t.pattern !in todo && t == groups[t.pattern]
      invariant forall p | p in groups && p !in todo :: groups[p] in templates
      decreases todo
    {
      var pattern :| pattern in todo;
      ghost var before := templates;
      templates := Placed(templates, groups[pattern]);
      forall t
        ensures t in templates <==> t in before || t == groups[pattern]
      {
        assert t in multiset(templates) <==> t in multiset(before) || t == groups[pattern];
      }
      todo := todo - {pattern};
    }
  }

  lemma GroupsAreReport(groups: map<string, Template>, pages: seq<Page>, threshold: int, templates: seq<Template>)
    requires Grouped(groups, pages, threshold, pages) && Sorted(templates)
    requires forall t | t in templates :: t.pattern in groups && t == groups[t.pattern]
    requires forall p | p in groups :: groups[p] in templates
    ensures IsReport(pages, threshold, templates)
    ensures ArePlain(pages) ==> Tells(pages, threshold, templates)
  {
    assert IsReport(pages, threshold, templates);
    if ArePlain(pages) {
      ReportTells(pages, threshold, templates);
    }
  }

  /** `Templates`: the map is read in any order, the report is the same. */
  method Report(urls: seq<string>, threshold: int, parse: Parser) returns (templates: seq<Template>)
    ensures IsReport(Pages(urls, parse), threshold, templates)
    ensures ArePlain(Pages(urls, parse)) ==> Tells(Pages(urls, parse), threshold, templates)
  {
    var roots, pages, footprint := Grow(urls, threshold, parse);
    var groups := Group(roots, threshold, pages, footprint);
    templates := Arrange(groups);
    GroupsAreReport(groups, pages, threshold, templates);
  }
}
