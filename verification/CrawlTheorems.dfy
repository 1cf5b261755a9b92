/** What a whole crawl promises: soundness of its targets, its budgets, and what it leaves out. */
module CrawlTheorems {
  import opened Counting
  import opened CrawlFrontier
  import opened CrawlPages
  import opened CrawlLevels

  /** No target is asked for twice; targets are taken level by level; and the URL of every target but the
      start is in scope, permitted, not blocked by the robots rules, and listed by then. */
  lemma TargetsAreSound(c: Setting, p: Progress, depth: nat, consumed: seq<Target>)
    requires ProgressOk(c, p, depth, consumed)
    ensures forall i, j | 0 <= i < j < |p.fetched| :: Key(c.start, p.fetched[i]) != Key(c.start, p.fetched[j]) && p.fetched[i].depth <= p.fetched[j].depth
    ensures forall t | t in p.fetched ::
              && t.depth < c.maxDepth
              && if t.depth == 0 then t.url == c.first
                 else MayRead(c.site, t.url) && t.url != c.start && exists e :: e in p.state.listing.urls && e.url == t.url
  {
    forall i, j | 0 <= i < j < |p.fetched|
      ensures Key(c.start, p.fetched[i]) != Key(c.start, p.fetched[j])
    {
      assert p.fetched[i] == p.state.planned[i] && p.fetched[j] == p.state.planned[j];
    }
    forall t | t in p.fetched
      ensures t in p.state.planned
    {
    }
  }

  /** Of the targets themselves, whatever they then lead to, only the start may be blocked. */
  lemma OnlyTheStartMayBeBlocked(c: Setting, p: Progress, depth: nat, consumed: seq<Target>)
    requires ProgressOk(c, p, depth, consumed)
    ensures (exists t :: t in p.fetched && c.site.blocks(t.url)) <==> c.site.blocks(c.first) && exists t :: t in p.fetched && t.depth == 0
  {
    TargetsAreSound(c, p, depth, consumed);
  }

  /** The budgets: at most 200 pages are read with success, and the attempts stay within the request's
      limit. */
  lemma BudgetsAreKept(c: Setting, p: Progress, depth: nat, consumed: seq<Target>)
    requires ProgressOk(c, p, depth, consumed)
    ensures p.crawled <= PAGE_LIMIT
    ensures |p.fetched| <= p.state.listing.limit
    ensures c.maxDepth == 1 ==> |p.fetched| <= 1
  {
    if c.maxDepth == 1 {
      TargetsAreSound(c, p, depth, consumed);
      FewFetched(p.fetched, c.start, {c.start});
    }
  }

  predicate SampledAs(site: Site, shape: string, t: Target) {
    t.depth > 0 && site.shape(t.url) == shape
  }

  /** At most twenty targets whose URL has one shape are asked for, besides the start. */
  lemma ShapesAreSampled(c: Setting, p: Progress, depth: nat, consumed: seq<Target>, shape: string)
    requires ProgressOk(c, p, depth, consumed)
    ensures |set t | t in p.fetched && SampledAs(c.site, shape, t)| <= SHAPE_SAMPLE_LIMIT
  {
    assert forall t | t in p.fetched :: t in p.state.planned;
    SetIsSmall(p.state.plan.enqueued, OfShape(c.site, shape), set t | t in p.fetched && SampledAs(c.site, shape, t));
    assert Count(p.state.plan.enqueued, OfShape(c.site, shape)) == Taken(p.state.plan, shape) <= SHAPE_SAMPLE_LIMIT;
  }

  function OfOneShape(c: Setting, p: Progress, shape: string): set<Target> {
    set t | t in p.fetched && c.site.shape(t.url) == shape
  }

  lemma ShapeSplits(c: Setting, p: Progress, shape: string)
    requires forall t | t in p.fetched :: t.depth == 0 ==> t.url == c.first
    ensures var others := set t | t in p.fetched && SampledAs(c.site, shape, t);
            |OfOneShape(c, p, shape)| == |others| + (if Target(c.first, 0) in p.fetched && c.site.shape(c.first) == shape then 1 else 0)
  {
    var start, others := Target(c.first, 0), set t | t in p.fetched && SampledAs(c.site, shape, t);
    if start in p.fetched && c.site.shape(c.first) == shape {
      assert OfOneShape(c, p, shape) == others + {start};
    } else {
      assert OfOneShape(c, p, shape) == others;
    }
  }

  /** Of all targets whose URL has one shape there are at most twenty, and the start. */
  lemma OneShapeIsSampled(c: Setting, p: Progress, depth: nat, consumed: seq<Target>, shape: string)
    requires ProgressOk(c, p, depth, consumed)
    ensures |OfOneShape(c, p, shape)| <= SHAPE_SAMPLE_LIMIT + (if Target(c.first, 0) in p.fetched && c.site.shape(c.first) == shape then 1 else 0)
  {
    ShapesAreSampled(c, p, depth, consumed, shape);
    assert forall t | t in p.fetched :: t.depth == 0 ==> t.url == c.first by {
      TargetsAreSound(c, p, depth, consumed);
    }
    ShapeSplits(c, p, shape);
  }

  lemma {:induction false} FewDistinct(items: seq<Target>, chosen: set<Target>)
    requires forall t | t in chosen :: t in items
    ensures |chosen| <= |items|
  {
    SetIsSmall(items, t => true, chosen);
  }

  lemma {:induction false} SetIsSmall(items: seq<Target>, f: Target -> bool, chosen: set<Target>)
    requires forall t | t in chosen :: t in items && f(t)
    ensures |chosen| <= Count(items, f)
  {
    if items == [] {
      assert chosen == {};
    } else {
      var last := items[|items| - 1];
      SetIsSmall(items[..|items| - 1], f, chosen - {last});
      if last !in chosen {
        assert chosen - {last} == chosen;
      }
    }
  }

  /** The list holds the listable URLs that the sitemaps gave and the listable links of every page that
      was read, and nothing else; only a full list, reported as limited, lacks any of them. */
  lemma ListingIsExact(c: Setting, p: Progress, depth: nat, consumed: seq<Target>, url: string)
    requires ProgressOk(c, p, depth, consumed)
    ensures var l := p.state.listing;
            && (url in l.seen ==> IsListable(c.site, url) && (url in c.before || SomeSays(c.site, c.load, consumed, url)))
            && ((url in c.before || SomeSays(c.site, c.load, consumed, url)) && IsListable(c.site, url) ==> url in l.seen || (l.limited && IsFull(l)))
  {
    if SomeSays(c.site, c.load, consumed, url) {
      var t :| t in consumed && Says(c.site, t, c.load(t), url);
      assert TakenUp(c.site, p.state, t, c.load(t), c.maxDepth);
    }
  }

  predicate WasFetched(p: Progress, url: string) {
    exists t | t in p.fetched :: t.depth > 0 && t.url == url
  }

  /** A crawl that was not cut short has read everything its expanded pages lead to, but for blocked
      pages, each of them counted, and shapes of which twenty pages were read. */
  lemma FinishedCrawlIsClosed(c: Setting, p: Progress, depth: nat, t: Target, url: string)
    requires ProgressOk(c, p, depth, p.fetched) && !p.cut && p.level == [] && p.next == []
    requires t in p.fetched && LeadsTo(c.site, t, c.load(t), c.maxDepth, url) && IsListable(c.site, url)
    ensures || url == c.start || WasFetched(p, url)
            || (c.site.blocks(url) && url in p.state.plan.skipped && p.state.plan.robotsSkipped == |p.state.plan.skipped|)
            || (!c.site.blocks(url) && Taken(p.state.plan, c.site.shape(url)) == SHAPE_SAMPLE_LIMIT)
  {
    assert TakenUp(c.site, p.state, t, c.load(t), c.maxDepth);
    assert p.fetched + [] + [] == p.fetched;
    if url in p.state.plan.queued && url != c.start && url !in p.state.plan.skipped {
      var q :| q in p.state.plan.enqueued && q.url == url;
      assert q in p.fetched;
    }
    assert Count(p.state.plan.enqueued, OfShape(c.site, c.site.shape(url))) == Taken(p.state.plan, c.site.shape(url)) <= SHAPE_SAMPLE_LIMIT;
  }
}
