/** Path templates of a list of URLs: `Templates` in pkg/sitemap/urlshape.go. URL parsing is a
    parameter; everything after it is modelled. */
module Templates {
  import opened Wrappers
  import opened Ordering
  import opened PathSets
  import opened TemplateRule
  import opened Texts

  const MIN_HEX_LENGTH := 8
  const TEMPLATE_SAMPLE := 3

  predicate IsDigit(c: char) {
    '0' <= c <= '9'
  }

  predicate IsHex(c: char) {
    IsDigit(c) || 'a' <= c <= 'f' || 'A' <= c <= 'F'
  }

  predicate IsUuid(s: string)
    requires |s| == 36
  {
    forall i | 0 <= i < |s| :: if i in {8, 13, 18, 23} then s[i] == '-' else IsHex(s[i])
  }

  predicate LooksLikeId(segment: string) {
    && segment != ""
    && (|| (forall c | c in segment :: IsDigit(c))
        || (|segment| == 36 && IsUuid(segment))
        || (|segment| >= MIN_HEX_LENGTH && forall c | c in segment :: IsHex(c)))
  }

  function Generalise(segments: Path): (path: Path)
    ensures |path| == |segments|
    ensures forall i | 0 <= i < |path| :: path[i] == WILDCARD <==> LooksLikeId(segments[i]) || segments[i] == WILDCARD
    ensures forall i | 0 <= i < |path| && path[i] != WILDCARD :: path[i] == segments[i]
  {
    seq(|segments|, i requires 0 <= i < |segments| => if LooksLikeId(segments[i]) then WILDCARD else segments[i])
  }

  /** What URL parsing gives: the lower-case host, the non-empty path segments, the sorted query names. */
  datatype Location = Location(host: string, segments: Path, query: string)

  type Parser = string -> Option<Location>

  datatype Page = Page(raw: string, host: string, path: Path, query: string)

  datatype Template = Template(pattern: string, count: nat, samples: seq<string>)

  predicate Listed(raw: string, parse: Parser) {
    raw != "" && parse(raw).Some?
  }

  function PageOf(raw: string, parse: Parser): Page
    requires Listed(raw, parse)
  {
    var location := parse(raw).value;
    Page(raw, location.host, Generalise(location.segments), location.query)
  }

  /** The URLs that parse, in order. */
  function Pages(urls: seq<string>, parse: Parser): seq<Page> {
    if urls == [] then []
    else
      var rest, raw := Pages(urls[..|urls| - 1], parse), urls[|urls| - 1];
      if Listed(raw, parse) then rest + [PageOf(raw, parse)] else rest
  }

  function PathsOf(pages: seq<Page>, host: string): set<Path> {
    set p | p in pages && p.host == host :: p.path
  }

  function Join(parts: Path, separator: string): string {
    if parts == [] then "" else if |parts| == 1 then parts[0] else parts[0] + separator + Join(parts[1..], separator)
  }

  function Render(template: Path, query: string): string {
    "/" + Join(template, "/") + if query != "" then "?" + query else ""
  }

  /** The pattern the rule of `TemplateRule` gives one page among all pages of its host. */
  function PatternOf(all: seq<Page>, threshold: int, page: Page): string {
    Render(TemplateOf(PathsOf(all, page.host), threshold, page.path), page.query)
  }

  /** How a pattern reads: between its slashes, up to the first question mark, stand the template's
      segments; what follows the mark, which is there if there are query names, is the query. */
  predicate ReadsAs(pattern: string, template: Path, query: string) {
    && Split(UpTo(pattern, '?'), '/') == [""] + (if template == [] then [""] else template)
    && Texts.After(pattern, '?') == if query == "" then None else Some(query)
  }

  /** Segments as they stand between the slashes of a path. */
  predicate IsPlain(path: Path) {
    forall segment | segment in path :: segment != "" && '/' !in segment && '?' !in segment
  }

  lemma {:induction false} JoinSplits(template: Path)
    requires IsPlain(template)
    ensures '?' !in Join(template, "/")
    ensures Split(Join(template, "/"), '/') == if template == [] then [""] else template
  {
    if |template| == 1 {
      assert template[0] in template;
      NoMark(template[0], '/');
    } else if |template| > 1 {
      assert template[0] in template && forall segment | segment in template[1..] :: segment in template;
      JoinSplits(template[1..]);
      SplitAtMark(template[0], '/', Join(template[1..], "/"));
      assert template == [template[0]] + template[1..];
    }
  }

  lemma PatternReads(template: Path, query: string)
    requires IsPlain(template)
    ensures ReadsAs(Render(template, query), template, query)
  {
    var joined := Join(template, "/");
    var path := "/" + joined;
    JoinSplits(template);
    SplitAtMark("", '/', joined);
    assert "" + ['/'] + joined == path;
    assert '?' !in path;
    if query == "" {
      assert Render(template, query) == path;
      NoMark(path, '?');
    } else {
      assert Render(template, query) == path + ['?'] + query;
      CutAtMark(path, '?', query);
    }
  }

  /** No two templates with their queries read alike. */
  lemma ReadingIsUnique(pattern: string, a: Path, aQuery: string, b: Path, bQuery: string)
    requires IsPlain(a) && IsPlain(b) && ReadsAs(pattern, a, aQuery) && ReadsAs(pattern, b, bQuery)
    ensures a == b && aQuery == bQuery
  {
    var pieces := Split(UpTo(pattern, '?'), '/');
    assert a == [] ==> pieces[1] == "";
    assert b == [] ==> pieces[1] == "";
    assert a != [] ==> pieces[1..] == a && a[0] in a;
    assert b != [] ==> pieces[1..] == b && b[0] in b;
  }

  /** The template of one page among all pages of its host. */
  function PlaceOf(all: seq<Page>, threshold: int, page: Page): Path {
    TemplateOf(PathsOf(all, page.host), threshold, page.path)
  }

  lemma PlaceIsPlain(all: seq<Page>, threshold: int, page: Page)
    requires page in all && IsPlain(page.path)
    ensures IsPlain(PlaceOf(all, threshold, page))
  {
    var urls, place := PathsOf(all, page.host), PlaceOf(all, threshold, page);
    assert page.path in urls;
    TrieFollowsRule(urls, threshold);
    forall i | 0 <= i < |place|
      ensures place[i] == WILDCARD || place[i] in page.path
    {
      assert SegmentFollows(urls, threshold, AllTemplates(urls, threshold), page.path, i);
      assert AllTemplates(urls, threshold)[page.path] == place;
    }
  }

  /** A page's pattern reads as its template and its query. */
  lemma PagePatternReads(all: seq<Page>, threshold: int, page: Page)
    requires page in all && IsPlain(page.path)
    ensures ReadsAs(PatternOf(all, threshold, page), PlaceOf(all, threshold, page), page.query)
  {
    PlaceIsPlain(all, threshold, page);
    PatternReads(PlaceOf(all, threshold, page), page.query);
  }

  /** Two pages share a pattern exactly if their templates and their query names agree. */
  lemma SamePatternIff(all: seq<Page>, threshold: int, a: Page, b: Page)
    requires a in all && b in all && IsPlain(a.path) && IsPlain(b.path)
    ensures PatternOf(all, threshold, a) == PatternOf(all, threshold, b)
            <==> PlaceOf(all, threshold, a) == PlaceOf(all, threshold, b) && a.query == b.query
  {
    PagePatternReads(all, threshold, a);
    PagePatternReads(all, threshold, b);
    PlaceIsPlain(all, threshold, a);
    PlaceIsPlain(all, threshold, b);
    if PatternOf(all, threshold, a) == PatternOf(all, threshold, b) {
      ReadingIsUnique(PatternOf(all, threshold, a), PlaceOf(all, threshold, a), a.query, PlaceOf(all, threshold, b), b.query);
    }
  }

  /** The rule in terms of the URL as given: a segment is generalised when it looks like an id, or
      when its place after the first segment takes at least `threshold` different values. */
  lemma WildSegments(all: seq<Page>, threshold: int, raw: string, parse: Parser, i: nat)
    requires Listed(raw, parse) && PageOf(raw, parse) in all && i < |parse(raw).value.segments|
    ensures var segments, urls := parse(raw).value.segments, PathsOf(all, parse(raw).value.host);
            var template := TemplateOf(urls, threshold, Generalise(segments));
            && (template[i] == WILDCARD <==>
                || LooksLikeId(segments[i]) || segments[i] == WILDCARD
                || (i >= 1 && threshold > 0 && |NextSegments(urls, AllTemplates(urls, threshold), template[..i])| >= threshold))
            && (template[i] != WILDCARD ==> template[i] == segments[i])
  {
    var page := PageOf(raw, parse);
    var urls := PathsOf(all, page.host);
    assert page.path in urls;
    TrieFollowsRule(urls, threshold);
    assert SegmentFollows(urls, threshold, AllTemplates(urls, threshold), page.path, i);
    assert AllTemplates(urls, threshold)[page.path] == TemplateOf(urls, threshold, page.path);
  }

  function PatternsOf(all: seq<Page>, threshold: int, pages: seq<Page>): (patterns: seq<string>)
    ensures |patterns| == |pages|
  {
    seq(|pages|, i requires 0 <= i < |pages| => PatternOf(all, threshold, pages[i]))
  }

  /** The first three distinct URLs with this pattern. */
  function SamplesOf(all: seq<Page>, threshold: int, pages: seq<Page>, pattern: string): (samples: seq<string>)
    ensures |samples| <= TEMPLATE_SAMPLE
    ensures forall i, j | 0 <= i < j < |samples| :: samples[i] != samples[j]
    ensures forall s | s in samples :: exists p | p in pages :: p.raw == s && PatternOf(all, threshold, p) == pattern
  {
    if pages == [] then []
    else
      var last := pages[|pages| - 1];
      var samples := SamplesOf(all, threshold, pages[..|pages| - 1], pattern);
      if PatternOf(all, threshold, last) == pattern && |samples| < TEMPLATE_SAMPLE && last.raw !in samples
      then samples + [last.raw]
      else samples
  }

  /** The group of all `pages` with one pattern. */
  function GroupOf(all: seq<Page>, threshold: int, pages: seq<Page>, pattern: string): Template {
    Template(pattern, multiset(PatternsOf(all, threshold, pages))[pattern], SamplesOf(all, threshold, pages, pattern))
  }

  predicate Before(a: Template, b: Template) {
    a.count > b.count || (a.count == b.count && Less(a.pattern, b.pattern))
  }

  predicate Sorted(templates: seq<Template>) {
    forall i, j | 0 <= i < j < |templates| :: Before(templates[i], templates[j])
  }

  /** What `Templates` returns: one group per pattern, larger groups first, then by pattern. */
  ghost predicate IsReport(all: seq<Page>, threshold: int, templates: seq<Template>) {
    && Sorted(templates)
    && (forall t | t in templates :: t.pattern in PatternsOf(all, threshold, all) && t == GroupOf(all, threshold, all, t.pattern))
    && forall p | p in PatternsOf(all, threshold, all) :: GroupOf(all, threshold, all, p) in templates
  }

  lemma BeforeIsTransitive(a: Template, b: Template, c: Template)
    requires Before(a, b) && Before(b, c)
    ensures Before(a, c)
  {
    if a.count == b.count == c.count {
      LessIsTransitive(a.pattern, b.pattern, c.pattern);
    }
  }

  lemma {:induction false} SortedIsUnique(a: seq<Template>, b: seq<Template>)
    requires Sorted(a) && Sorted(b) && forall t :: t in a <==> t in b
    ensures a == b
  {
    assert b == [] || b[0] in b;
    if a == [] {
      return;
    }
    assert a[0] in b && b[0] in a by { assert a[0] in a; assert b != []; assert b[0] in b; }
    var i :| 0 <= i < |b| && b[i] == a[0];
    var j :| 0 <= j < |a| && a[j] == b[0];
    if i > 0 && j > 0 {
      assert Before(b[0], b[i]) && Before(a[0], a[j]);
      LessIsTotal(a[0].pattern, b[0].pattern);
    }
    assert a[0] == b[0];
    forall t
      ensures t in a[1..] <==> t in b[1..]
    {
      RestOfSorted(a, t);
      RestOfSorted(b, t);
    }
    SortedIsUnique(a[1..], b[1..]);
    assert a == [a[0]] + a[1..] && b == [b[0]] + b[1..];
  }

  lemma RestOfSorted(a: seq<Template>, t: Template)
    requires a != [] && Sorted(a)
    ensures t in a[1..] <==> t in a && t != a[0]
  {
    assert a == [a[0]] + a[1..];
    if t in a[1..] {
      var i :| 0 <= i < |a[1..]| && a[1..][i] == t;
      assert Before(a[0], a[i + 1]);
      LessIsTotal(a[0].pattern, t.pattern);
    }
  }

  /** The report is a function of the pages: no map iteration order shows in it. */
  lemma ReportIsUnique(all: seq<Page>, threshold: int, a: seq<Template>, b: seq<Template>)
    requires IsReport(all, threshold, a) && IsReport(all, threshold, b)
    ensures a == b
  {
    SortedIsUnique(a, b);
  }

  function TotalCount(templates: seq<Template>): nat {
    if templates == [] then 0 else templates[0].count + TotalCount(templates[1..])
  }

  lemma {:induction false} CountsCover(patterns: multiset<string>, templates: seq<Template>)
    requires Sorted(templates)
    requires forall i, j | 0 <= i < j < |templates| :: templates[i].pattern != templates[j].pattern
    requires forall t | t in templates :: t.count == patterns[t.pattern]
    requires forall p | p in patterns :: exists t | t in templates :: t.pattern == p
    ensures TotalCount(templates) == |patterns|
    decreases |templates|
  {
    if templates == [] {
      assert patterns == multiset{};
    } else {
      var first, rest := templates[0], templates[1..];
      var others := patterns[first.pattern := 0];
      forall p | p in others
        ensures exists t | t in rest :: t.pattern == p
      {
        var t :| t in templates && t.pattern == p;
        assert t in rest;
      }
      CountsCover(others, rest);
      assert |patterns| == |others| + patterns[first.pattern];
    }
  }

  /** The counts of a report add up to the number of pages. */
  lemma CountsAddUp(all: seq<Page>, threshold: int, templates: seq<Template>)
    requires IsReport(all, threshold, templates)
    ensures TotalCount(templates) == |all|
  {
    var patterns := PatternsOf(all, threshold, all);
    forall i, j | 0 <= i < j < |templates|
      ensures templates[i].pattern != templates[j].pattern
    {
      assert templates[i] in templates && templates[j] in templates && Before(templates[i], templates[j]);
      LessIsTotal(templates[i].pattern, templates[j].pattern);
    }
    forall p | p in multiset(patterns)
      ensures exists t | t in templates :: t.pattern == p
    {
      assert GroupOf(all, threshold, all, p) in templates;
    }
    forall t | t in templates
      ensures t.count == multiset(patterns)[t.pattern]
    {
    }
    CountsCover(multiset(patterns), templates);
    assert |multiset(patterns)| == |patterns|;
  }

  /** Where `sort.Slice` puts one more group. */
  function Placed(templates: seq<Template>, t: Template): (r: seq<Template>)
    requires Sorted(templates) && forall u | u in templates :: u.pattern != t.pattern
    ensures Sorted(r) && multiset(r) == multiset(templates) + multiset{t}
  {
    if templates == [] then [t]
    else if Before(t, templates[0]) then
      FirstComesBefore(t, templates);
      [t] + templates
    else
      var rest := templates[1..];
      assert templates == [templates[0]] + rest;
      LessIsTotal(t.pattern, templates[0].pattern);
      var placed := Placed(rest, t);
      PlacedStaysBehind(templates[0], rest, t, placed);
      [templates[0]] + placed
  }

  lemma FirstComesBefore(t: Template, templates: seq<Template>)
    requires Sorted(templates) && templates != [] && Before(t, templates[0])
    ensures Sorted([t] + templates)
  {
    forall i | 0 < i < |templates|
      ensures Before(t, templates[i])
    {
      BeforeIsTransitive(t, templates[0], templates[i]);
    }
  }

  lemma PlacedStaysBehind(first: Template, rest: seq<Template>, t: Template, placed: seq<Template>)
    requires Sorted([first] + rest) && Before(first, t)
    requires Sorted(placed) && multiset(placed) == multiset(rest) + multiset{t}
    ensures Sorted([first] + placed)
  {
    forall i | 0 <= i < |placed|
      ensures Before(first, placed[i])
    {
      assert placed[i] in multiset(placed);
      if placed[i] != t {
        assert placed[i] in multiset(rest);
        var j :| 0 <= j < |rest| && rest[j] == placed[i];
        assert ([first] + rest)[j + 1] == placed[i] && Before(([first] + rest)[0], ([first] + rest)[j + 1]);
      }
    }
  }

  lemma OneMorePage(all: seq<Page>, threshold: int, pages: seq<Page>, page: Page, pattern: string)
    ensures PatternsOf(all, threshold, pages + [page]) == PatternsOf(all, threshold, pages) + [PatternOf(all, threshold, page)]
    ensures var before, after := GroupOf(all, threshold, pages, pattern), GroupOf(all, threshold, pages + [page], pattern);
            if PatternOf(all, threshold, page) == pattern then
              after == Template(pattern, before.count + 1,
                                if |before.samples| < TEMPLATE_SAMPLE && page.raw !in before.samples then before.samples + [page.raw] else before.samples)
            else after == before
  {
    assert (pages + [page])[..|pages|] == pages;
    assert PatternsOf(all, threshold, pages + [page]) == PatternsOf(all, threshold, pages) + [PatternOf(all, threshold, page)];
  }

  lemma {:induction false} NothingYet(all: seq<Page>, threshold: int, pages: seq<Page>, pattern: string)
    requires pattern !in PatternsOf(all, threshold, pages)
    ensures GroupOf(all, threshold, pages, pattern) == Template(pattern, 0, [])
  {
    if pages != [] {
      var rest, last := pages[..|pages| - 1], pages[|pages| - 1];
      assert PatternsOf(all, threshold, pages)[|pages| - 1] == PatternOf(all, threshold, last);
      OneMorePage(all, threshold, rest, last, pattern);
      assert rest + [last] == pages;
      NothingYet(all, threshold, rest, pattern);
    }
  }
}
