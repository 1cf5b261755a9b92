/** What the report of `Templates` says, told by the templates of the pages rather than by rendered
    patterns: which pages a group has, its first samples, and the order of the groups. */
module TemplateGroups {
  import opened Counting
  import opened Ordering
  import opened Templates

  predicate HasPattern(all: seq<Page>, threshold: int, pattern: string, page: Page) {
    PatternOf(all, threshold, page) == pattern
  }

  /** The pages that share the template and the query names of `page`. */
  function Together(all: seq<Page>, threshold: int, page: Page): Page -> bool {
    (p: Page) => PlaceOf(all, threshold, p) == PlaceOf(all, threshold, page) && p.query == page.query
  }

  predicate FirstWas(pages: seq<Page>, p: Page -> bool, k: nat, raw: string) {
    k < |pages| && p(pages[k]) && pages[k].raw == raw
  }

  /** `raw` belongs to one of the first `n` pages that meet the condition. */
  ghost predicate CameBy(pages: seq<Page>, p: Page -> bool, n: nat, raw: string) {
    exists k: nat :: k < n && FirstWas(pages, p, k, raw)
  }

  /** The samples are the first three distinct URLs, in order of appearance, of the pages that meet the
      condition. */
  ghost predicate AreFirst(samples: seq<string>, pages: seq<Page>, p: Page -> bool) {
    && |samples| <= 3
    && (forall i, j | 0 <= i < j < |samples| :: samples[i] != samples[j])
    && (forall s | s in samples :: CameBy(pages, p, |pages|, s))
    && (forall k: nat | k < |pages| && p(pages[k]) && pages[k].raw !in samples :: |samples| == 3 && forall s | s in samples :: CameBy(pages, p, k, s))
    && (forall i, j | 0 <= i < j < |samples| :: ComesSooner(pages, p, samples[i], samples[j]))
  }

  ghost predicate ComesSooner(pages: seq<Page>, p: Page -> bool, a: string, b: string) {
    exists k: nat :: FirstWas(pages, p, k, a) && !CameBy(pages, p, k, b)
  }

  lemma CameByGrows(pages: seq<Page>, page: Page, p: Page -> bool)
    ensures forall n: nat, raw | n <= |pages| :: CameBy(pages + [page], p, n, raw) <==> CameBy(pages, p, n, raw)
    ensures forall raw :: CameBy(pages + [page], p, |pages| + 1, raw) <==> CameBy(pages, p, |pages|, raw) || (p(page) && page.raw == raw)
    ensures forall a, b | ComesSooner(pages, p, a, b) :: ComesSooner(pages + [page], p, a, b)
  {
    var more := pages + [page];
    assert forall k: nat, raw | k < |pages| :: FirstWas(more, p, k, raw) <==> FirstWas(pages, p, k, raw);
    forall n: nat, raw | n <= |pages|
      ensures CameBy(more, p, n, raw) <==> CameBy(pages, p, n, raw)
    {
    }
    forall raw
      ensures CameBy(more, p, |pages| + 1, raw) <==> CameBy(pages, p, |pages|, raw) || (p(page) && page.raw == raw)
    {
      assert FirstWas(more, p, |pages|, raw) <==> p(page) && page.raw == raw;
    }
    forall a, b | ComesSooner(pages, p, a, b)
      ensures ComesSooner(more, p, a, b)
    {
      var k: nat :| FirstWas(pages, p, k, a) && !CameBy(pages, p, k, b);
      assert FirstWas(more, p, k, a);
    }
  }

  lemma MoreSamples(samples: seq<string>, pages: seq<Page>, page: Page, p: Page -> bool)
    requires AreFirst(samples, pages, p) && p(page) && |samples| < 3 && page.raw !in samples
    ensures AreFirst(samples + [page.raw], pages + [page], p)
  {
    var more, next := pages + [page], samples + [page.raw];
    CameByGrows(pages, page, p);
    assert forall k: nat | k < |pages| && p(pages[k]) :: pages[k].raw in samples;
    assert !CameBy(pages, p, |pages|, page.raw);
    forall i, j | 0 <= i < j < |next|
      ensures ComesSooner(more, p, next[i], next[j])
    {
      if j == |samples| {
        assert samples[i] in samples;
        var k: nat :| k < |pages| && FirstWas(pages, p, k, samples[i]);
        assert FirstWas(more, p, k, samples[i]) && !CameBy(more, p, k, page.raw);
      } else {
        assert ComesSooner(pages, p, samples[i], samples[j]);
      }
    }
    forall k: nat | k < |more| && p(more[k])
      ensures more[k].raw in next
    {
      assert k < |pages| ==> more[k] == pages[k];
    }
  }

  lemma SameSamples(samples: seq<string>, pages: seq<Page>, page: Page, p: Page -> bool)
    requires AreFirst(samples, pages, p) && (p(page) ==> |samples| == 3 || page.raw in samples)
    ensures AreFirst(samples, pages + [page], p)
  {
    CameByGrows(pages, page, p);
    var more := pages + [page];
    forall k: nat | k < |more| && p(more[k]) && more[k].raw !in samples
      ensures |samples| == 3 && forall s | s in samples :: CameBy(more, p, k, s)
    {
      assert k < |pages| ==> pages[k] == more[k];
    }
  }

  lemma {:induction false} SamplesAreFirst(all: seq<Page>, threshold: int, pages: seq<Page>, pattern: string)
    ensures AreFirst(SamplesOf(all, threshold, pages, pattern), pages, (q: Page) => HasPattern(all, threshold, pattern, q))
  {
    if pages != [] {
      var before, last := pages[..|pages| - 1], pages[|pages| - 1];
      var p := (q: Page) => HasPattern(all, threshold, pattern, q);
      var samples := SamplesOf(all, threshold, before, pattern);
      SamplesAreFirst(all, threshold, before, pattern);
      assert before + [last] == pages;
      if p(last) && |samples| < 3 && last.raw !in samples {
        MoreSamples(samples, before, last, p);
      } else {
        SameSamples(samples, before, last, p);
      }
    }
  }

  lemma {:induction false} PatternsCount(all: seq<Page>, threshold: int, pages: seq<Page>, pattern: string)
    ensures multiset(PatternsOf(all, threshold, pages))[pattern] == Count(pages, (q: Page) => HasPattern(all, threshold, pattern, q))
  {
    if pages != [] {
      var before, last := pages[..|pages| - 1], pages[|pages| - 1];
      PatternsCount(all, threshold, before, pattern);
      assert before + [last] == pages;
      OneMorePage(all, threshold, before, last, pattern);
      assert (PatternsOf(all, threshold, before) + [PatternOf(all, threshold, last)]) == PatternsOf(all, threshold, pages);
    }
  }

  ghost predicate ArePlain(all: seq<Page>) {
    forall page | page in all :: IsPlain(page.path)
  }

  lemma {:induction false} CountAgrees(pages: seq<Page>, p: Page -> bool, q: Page -> bool)
    requires forall page | page in pages :: p(page) <==> q(page)
    ensures Count(pages, p) == Count(pages, q)
  {
    if pages != [] {
      assert pages[|pages| - 1] in pages;
      CountAgrees(pages[..|pages| - 1], p, q);
    }
  }

  lemma FirstAgrees(samples: seq<string>, pages: seq<Page>, p: Page -> bool, q: Page -> bool)
    requires (forall page | page in pages :: p(page) <==> q(page)) && AreFirst(samples, pages, p)
    ensures AreFirst(samples, pages, q)
  {
    assert forall k: nat, raw :: FirstWas(pages, p, k, raw) <==> FirstWas(pages, q, k, raw);
    forall n: nat, raw
      ensures CameBy(pages, p, n, raw) <==> CameBy(pages, q, n, raw)
    {
    }
    forall i, j | 0 <= i < j < |samples|
      ensures ComesSooner(pages, q, samples[i], samples[j])
    {
      assert ComesSooner(pages, p, samples[i], samples[j]);
      var k: nat :| FirstWas(pages, p, k, samples[i]) && !CameBy(pages, p, k, samples[j]);
      assert FirstWas(pages, q, k, samples[i]);
    }
  }

  /** The group reads as the page's template and query names, and it counts and samples the pages that
      share both. */
  ghost predicate IsGroupOf(all: seq<Page>, threshold: int, page: Page, t: Template) {
    && ReadsAs(t.pattern, PlaceOf(all, threshold, page), page.query)
    && t.count == Count(all, Together(all, threshold, page))
    && AreFirst(t.samples, all, Together(all, threshold, page))
  }

  lemma GroupTells(all: seq<Page>, threshold: int, page: Page)
    requires ArePlain(all) && page in all
    ensures IsGroupOf(all, threshold, page, GroupOf(all, threshold, all, PatternOf(all, threshold, page)))
  {
    var pattern := PatternOf(all, threshold, page);
    var p := (q: Page) => HasPattern(all, threshold, pattern, q);
    PagePatternReads(all, threshold, page);
    forall other | other in all
      ensures p(other) <==> Together(all, threshold, page)(other)
    {
      SamePatternIff(all, threshold, other, page);
    }
    PatternsCount(all, threshold, all, pattern);
    SamplesAreFirst(all, threshold, all, pattern);
    CountAgrees(all, p, Together(all, threshold, page));
    FirstAgrees(SamplesOf(all, threshold, all, pattern), all, p, Together(all, threshold, page));
  }

  /** Larger groups come first, and groups of one size in the byte order of their patterns. */
  ghost predicate InOrder(templates: seq<Template>) {
    forall i, j | 0 <= i < j < |templates| ::
      || templates[i].count > templates[j].count
      || (templates[i].count == templates[j].count && IsSmaller(templates[i].pattern, templates[j].pattern))
  }

  /** Every page has its group, every group a page, and the groups are in order. */
  ghost predicate Tells(all: seq<Page>, threshold: int, templates: seq<Template>) {
    && InOrder(templates)
    && (forall page | page in all :: exists t | t in templates :: IsGroupOf(all, threshold, page, t))
    && (forall t | t in templates :: exists page | page in all :: IsGroupOf(all, threshold, page, t))
  }

  lemma ReportTells(all: seq<Page>, threshold: int, templates: seq<Template>)
    requires IsReport(all, threshold, templates) && ArePlain(all)
    ensures Tells(all, threshold, templates)
  {
    forall i, j | 0 <= i < j < |templates|
      ensures Less(templates[i].pattern, templates[j].pattern) <==> IsSmaller(templates[i].pattern, templates[j].pattern)
    {
      LessIsByteOrder(templates[i].pattern, templates[j].pattern);
    }
    forall page | page in all
      ensures exists t | t in templates :: IsGroupOf(all, threshold, page, t)
    {
      var pattern := PatternOf(all, threshold, page);
      PatternIsListed(all, threshold, page);
      GroupTells(all, threshold, page);
      assert GroupOf(all, threshold, all, pattern) in templates;
    }
    forall t | t in templates
      ensures exists page | page in all :: IsGroupOf(all, threshold, page, t)
    {
      var i :| 0 <= i < |all| && PatternsOf(all, threshold, all)[i] == t.pattern;
      assert all[i] in all && PatternOf(all, threshold, all[i]) == t.pattern;
      GroupTells(all, threshold, all[i]);
    }
  }

  lemma PatternIsListed(all: seq<Page>, threshold: int, page: Page)
    requires page in all
    ensures PatternOf(all, threshold, page) in PatternsOf(all, threshold, all)
  {
    var i :| 0 <= i < |all| && all[i] == page;
    assert PatternsOf(all, threshold, all)[i] == PatternOf(all, threshold, page);
  }

  /** Pages whose segments contain a decoded question mark can share a pattern without sharing a template. */
  lemma MarksCanCollide() returns (all: seq<Page>)
    ensures |all| == 2 && PatternOf(all, 0, all[0]) == PatternOf(all, 0, all[1]) && PlaceOf(all, 0, all[0]) != PlaceOf(all, 0, all[1])
  {
    all := [Page("u", "h", ["a?b"], ""), Page("v", "h", ["a"], "b")];
  }

  /** The pages are the URLs that are not empty and parse, in order. */
  lemma {:induction false} PagesInOrder(before: seq<string>, urls: seq<string>, parse: Parser)
    ensures Pages(before + urls, parse) == Pages(before, parse) + Pages(urls, parse)
  {
    if urls == [] {
      assert before + urls == before;
    } else {
      var all := before + urls;
      assert all[..|all| - 1] == before + urls[..|urls| - 1];
      PagesInOrder(before, urls[..|urls| - 1], parse);
    }
  }

  lemma OnePage(raw: string, parse: Parser)
    ensures Pages([raw], parse) == if raw == "" || parse(raw).None? then [] else
              var location := parse(raw).value; [Page(raw, location.host, Generalise(location.segments), location.query)]
  {
    assert [raw][..0] == [];
  }
}
