/** Where everything in a crawl comes from: which page led to a target, which page gave an entry of the
    list, and what a finished crawl has left out. All of it is told by the answers of the pages. */
module CrawlSources {
  import opened Counting
  import opened CrawlFrontier
  import opened CrawlPages
  import opened CrawlLevels
  import opened CrawlMoves
  import opened CrawlTheorems

  /** A page read before, one level up, led to the target. */
  predicate HasSource(c: Setting, consumed: seq<Target>, t: Target) {
    exists r | r in consumed :: r.depth + 1 == t.depth && LeadsTo(c.site, r, c.load(r), c.maxDepth, t.url)
  }

  /** The page gives the URL to the list, with this word for how it was found. */
  predicate Attributes(site: Site, t: Target, a: Answer, e: Entry) {
    && WasRead(site, t, a)
    && var end := if a.finalURL == "" then t.url else a.finalURL;
       var found := if a.rendered then "rendered" else if t.depth == 0 then "page" else "link";
       || (t.depth == 0 && e == Entry(site.normalize(end, end), found))
       || (a.html && e.source == found && exists href | href in a.links :: site.normalize(href, end) == e.url)
       || (a.html && e.source == "explore" && exists href | href in a.explored :: site.normalize(href, end) == e.url)
  }

  predicate HasOrigin(c: Setting, consumed: seq<Target>, e: Entry) {
    (e.source == "sitemap" && e.url in c.before) || exists t | t in consumed :: Attributes(c.site, t, c.load(t), e)
  }

  /** No URL is planned twice, and what is planned is queued. */
  ghost predicate PlannedOnce(p: Plan) {
    && (forall i, j | 0 <= i < j < |p.enqueued| :: p.enqueued[i].url != p.enqueued[j].url)
    && (forall t | t in p.enqueued :: t.url in p.queued)
  }

  lemma EnqueueOnce(site: Site, p: Plan, url: string, depth: nat)
    requires PlannedOnce(p)
    ensures PlannedOnce(Enqueue(site, p, url, depth))
  {
    forall i | 0 <= i < |p.enqueued|
      ensures p.enqueued[i].url in p.queued
    {
      assert p.enqueued[i] in p.enqueued;
    }
  }

  lemma {:induction false} OfferAllOnce(site: Site, s: State, urls: seq<string>, source: string, expand: bool, depth: nat)
    requires PlannedOnce(s.plan)
    ensures PlannedOnce(OfferAll(site, s, urls, source, expand, depth).plan)
  {
    if urls != [] {
      OfferAllOnce(site, s, urls[..|urls| - 1], source, expand, depth);
      EnqueueOnce(site, OfferAll(site, s, urls[..|urls| - 1], source, expand, depth).plan, urls[|urls| - 1], depth);
    }
  }

  lemma ConsumeOnce(site: Site, s: State, t: Target, a: Answer, maxDepth: nat)
    requires PlannedOnce(s.plan)
    ensures PlannedOnce(Consume(site, s, t, a, maxDepth).plan)
  {
    if IsRead(site, t, a) && a.html {
      var listed := ListStart(site, s, t, a);
      var links, explored := Normalize(site, a.links, Final(t, a)), Normalize(site, a.explored, Final(t, a));
      OfferAllOnce(site, listed, links, SourceOf(t, a), Expands(t, a, maxDepth), t.depth + 1);
      OfferAllOnce(site, OfferAll(site, listed, links, SourceOf(t, a), Expands(t, a, maxDepth), t.depth + 1), explored, "explore",
                   Expands(t, a, maxDepth), t.depth + 1);
    }
  }

  lemma {:induction false} OfferAllAttributes(site: Site, s: State, urls: seq<string>, source: string, expand: bool, depth: nat)
    ensures forall e | e in OfferAll(site, s, urls, source, expand, depth).listing.urls ::
              e in s.listing.urls || (e.source == source && e.url in urls)
  {
    if urls != [] {
      OfferAllAttributes(site, s, urls[..|urls| - 1], source, expand, depth);
      assert urls == urls[..|urls| - 1] + [urls[|urls| - 1]];
    }
  }

  /** Whatever reading a page lists, the page attributes to itself. */
  lemma ConsumeAttributes(site: Site, s: State, t: Target, a: Answer, maxDepth: nat)
    ensures forall e | e in Consume(site, s, t, a, maxDepth).listing.urls :: e in s.listing.urls || Attributes(site, t, a, e)
  {
    if IsRead(site, t, a) && a.html {
      var listed := ListStart(site, s, t, a);
      var links, explored := Normalize(site, a.links, Final(t, a)), Normalize(site, a.explored, Final(t, a));
      NormalizedFrom(site, a.links, Final(t, a));
      NormalizedFrom(site, a.explored, Final(t, a));
      OfferAllAttributes(site, listed, links, SourceOf(t, a), Expands(t, a, maxDepth), t.depth + 1);
      OfferAllAttributes(site, OfferAll(site, listed, links, SourceOf(t, a), Expands(t, a, maxDepth), t.depth + 1), explored, "explore",
                         Expands(t, a, maxDepth), t.depth + 1);
    }
  }

  ghost predicate IsTraced(c: Setting, m: Moment) {
    && PlannedOnce(m.progress.state.plan)
    && (forall t | t in m.progress.state.plan.enqueued :: HasSource(c, m.consumed, t))
    && (forall e | e in m.progress.state.listing.urls :: HasOrigin(c, m.consumed, e))
  }

  lemma MoreConsumed(c: Setting, consumed: seq<Target>, t: Target)
    ensures forall r: Target | HasSource(c, consumed, r) :: HasSource(c, consumed + [t], r)
    ensures forall r: Target | r.depth == t.depth + 1 && LeadsTo(c.site, t, c.load(t), c.maxDepth, r.url) :: HasSource(c, consumed + [t], r)
    ensures forall e | HasOrigin(c, consumed, e) || Attributes(c.site, t, c.load(t), e) :: HasOrigin(c, consumed + [t], e)
  {
    assert forall r :: r in consumed + [t] <==> r in consumed || r == t;
  }

  lemma ReadIsTraced(c: Setting, m: Moment)
    requires IsTraced(c, m) && Enabled(c, m, Read)
    ensures IsTraced(c, Apply(c, m, Read))
  {
    var t := m.progress.fetched[|m.consumed|];
    ConsumeOnce(c.site, m.progress.state, t, c.load(t), c.maxDepth);
    ConsumeEnqueues(c.site, m.progress.state, t, c.load(t), c.maxDepth);
    ConsumeAttributes(c.site, m.progress.state, t, c.load(t), c.maxDepth);
    MoreConsumed(c, m.consumed, t);
  }

  lemma MoveIsTraced(c: Setting, m: Moment, move: Move)
    requires IsTraced(c, m) && Enabled(c, m, move)
    ensures IsTraced(c, Apply(c, m, move))
  {
    match move
    case Take =>
    case Read => ReadIsTraced(c, m);
    case Descend =>
  }

  lemma BeginIsTraced(c: Setting, listing: Listing)
    requires IsStart(c, listing)
    ensures IsTraced(c, Begin(c, listing))
  {
    forall e | e in listing.urls
      ensures e.url in c.before
    {
      assert e.url in listing.seen;
    }
  }

  lemma {:induction false} CrawlIsTraced(c: Setting, moments: seq<Moment>, moves: seq<Move>, n: nat)
    requires IsCrawl(c, moments, moves) && n < |moments|
    ensures IsTraced(c, moments[n])
  {
    if n == 0 {
      BeginIsTraced(c, moments[0].progress.state.listing);
    } else {
      CrawlIsTraced(c, moments, moves, n - 1);
      assert IsMove(c, moments[n - 1], moves[n - 1], moments[n]);
      MoveIsTraced(c, moments[n - 1], moves[n - 1]);
    }
  }

  lemma ReachedIsTraced(c: Setting, m: Moment)
    requires IsReached(c, m)
    ensures IsTraced(c, m)
  {
    var moments, moves :| IsCrawl(c, moments, moves) && moments[|moves|] == m;
    CrawlIsTraced(c, moments, moves, |moves|);
  }

  lemma FetchedIsPlanned(c: Setting, p: Progress, depth: nat, consumed: seq<Target>, t: Target)
    requires ProgressOk(c, p, depth, consumed) && t in p.fetched && t.depth > 0
    ensures t in p.state.plan.enqueued
  {
    assert t in p.state.planned;
  }

  /** Beyond the start, nothing is asked for unless a page read before, one level up, led there. */
  lemma NothingUnlinkedIsFetched(c: Setting, m: Moment, t: Target)
    requires IsReached(c, m) && t in m.progress.fetched && t.depth > 0
    ensures HasSource(c, m.consumed, t)
  {
    assert MomentOk(c, m) by {
      ReachedIsOk(c, m);
    }
    FetchedIsPlanned(c, m.progress, m.depth, m.consumed, t);
    ReachedIsTraced(c, m);
  }

  /** Every entry of the list comes from a sitemap or from a page that was read, and says so. */
  lemma EntriesHaveOrigins(c: Setting, m: Moment, e: Entry)
    requires IsReached(c, m) && e in m.progress.state.listing.urls
    ensures HasOrigin(c, m.consumed, e)
  {
    ReachedIsTraced(c, m);
  }

  function Chosen(targets: seq<Target>, f: Target -> bool): set<Target> {
    set t | t in targets && f(t)
  }

  lemma OneMoreChosen(targets: seq<Target>, t: Target, f: Target -> bool)
    ensures Chosen(targets + [t], f) == Chosen(targets, f) + if f(t) then {t} else {}
  {
  }

  lemma {:induction false} DistinctCount(targets: seq<Target>, f: Target -> bool)
    requires forall i, j | 0 <= i < j < |targets| :: targets[i] != targets[j]
    ensures |Chosen(targets, f)| == Count(targets, f)
  {
    if targets == [] {
      assert Chosen(targets, f) == {};
    } else {
      var before, last := targets[..|targets| - 1], targets[|targets| - 1];
      DistinctCount(before, f);
      assert targets == before + [last];
      OneMoreChosen(before, last, f);
      assert last !in before;
    }
  }

  /** A finished crawl has asked for all that it has planned. */
  lemma PlannedAreFetched(c: Setting, p: Progress, depth: nat, shape: string)
    requires ProgressOk(c, p, depth, p.fetched) && PlannedOnce(p.state.plan) && !p.cut && p.level == [] && p.next == []
    ensures |set t | t in p.fetched && SampledAs(c.site, shape, t)| == Taken(p.state.plan, shape)
  {
    var enqueued := p.state.plan.enqueued;
    assert p.fetched + [] + [] == p.fetched;
    forall t
      ensures t in p.fetched && t.depth > 0 <==> t in enqueued
    {
    }
    DistinctCount(enqueued, OfShape(c.site, shape));
    assert (set t | t in p.fetched && SampledAs(c.site, shape, t)) == Chosen(enqueued, OfShape(c.site, shape));
    assert Count(enqueued, OfShape(c.site, shape)) == Taken(p.state.plan, shape);
  }

  predicate IsSaturated(c: Setting, p: Progress, shape: string) {
    |set t | t in p.fetched && SampledAs(c.site, shape, t)| == SHAPE_SAMPLE_LIMIT
  }

  /** What a finished crawl has done with a URL that one of its pages leads to. */
  predicate IsSettled(c: Setting, p: Progress, url: string) {
    || url == c.start
    || (exists t | t in p.fetched :: t.depth > 0 && t.url == url)
    || (c.site.blocks(url) && url in p.state.plan.skipped && p.state.plan.robotsSkipped == |p.state.plan.skipped|)
    || (!c.site.blocks(url) && IsSaturated(c, p, c.site.shape(url)))
  }

  lemma SettledByPlan(c: Setting, p: Progress, depth: nat, t: Target, url: string)
    requires ProgressOk(c, p, depth, p.fetched) && !p.cut && p.level == [] && p.next == []
    requires t in p.fetched && LeadsTo(c.site, t, c.load(t), c.maxDepth, url) && IsListable(c.site, url)
    requires |set t | t in p.fetched && SampledAs(c.site, c.site.shape(url), t)| == Taken(p.state.plan, c.site.shape(url))
    ensures IsSettled(c, p, url)
  {
    FinishedCrawlIsClosed(c, p, depth, t, url);
  }

  /** A crawl that was not cut short: each permitted URL that a page leads to is the start, was asked for,
      is blocked and counted, or is of a shape of which twenty URLs were asked for. */
  lemma FinishedCrawlIsComplete(c: Setting, m: Moment, t: Target, url: string)
    requires IsReached(c, m) && IsBetweenBatches(m) && !m.progress.cut && m.progress.level == [] && m.progress.next == []
    requires t in m.progress.fetched && LeadsTo(c.site, t, c.load(t), c.maxDepth, url) && url != "" && c.site.permitted(url)
    ensures IsSettled(c, m.progress, url)
  {
    assert ProgressOk(c, m.progress, m.depth, m.progress.fetched) by {
      ReachedIsOk(c, m);
    }
    assert PlannedOnce(m.progress.state.plan) by {
      ReachedIsTraced(c, m);
    }
    PlannedAreFetched(c, m.progress, m.depth, c.site.shape(url));
    SettledByPlan(c, m.progress, m.depth, t, url);
  }
}
