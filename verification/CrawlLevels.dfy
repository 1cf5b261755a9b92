/** The breadth-first progress of a crawl: targets are read level by level, in batches. */
module CrawlLevels {
  import opened Counting
  import opened CrawlFrontier
  import opened CrawlPages

  /** What stays fixed during a crawl: `first` is the start page, `start` its normal form, and `before`
      what the sitemaps offered. */
  datatype Setting = Setting(site: Site, first: string, start: string, load: Target -> Answer, maxDepth: nat, before: set<string>)

  /** `fetched` logs the targets taken to be read, `cut` whether a level was left unfinished; `crawled`
      and `rendered` are the report's counters. */
  datatype Progress = Progress(state: State, fetched: seq<Target>, level: seq<Target>, next: seq<Target>, cut: bool, crawled: nat, rendered: nat)

  function ReadIn(c: Setting): Target -> bool {
    (t: Target) => WasRead(c.site, t, c.load(t))
  }

  function RenderedIn(c: Setting): Target -> bool {
    (t: Target) => WasRead(c.site, t, c.load(t)) && c.load(t).rendered
  }

  ghost predicate DepthsAscend(fetched: seq<Target>, depth: nat) {
    && (forall i, j | 0 <= i < j < |fetched| :: fetched[i].depth <= fetched[j].depth)
    && (forall t | t in fetched :: t.depth <= depth)
  }

  ghost predicate LevelsOk(c: Setting, p: Progress, depth: nat) {
    && StateOk(c.site, c.start, p.state) && |p.fetched| <= p.state.listing.limit
    && p.state.planned == p.fetched + p.level + p.next
    && (forall t | t in p.level :: t.depth == depth) && (forall t | t in p.next :: t.depth == depth + 1)
    && DepthsAscend(p.fetched, depth)
    && (forall t | t in p.fetched :: t.depth > 0 ==> t.url in p.state.listing.seen)
    && (p.level != [] ==> depth < c.maxDepth) && (p.next != [] ==> depth + 1 < c.maxDepth)
    && (forall t | t in p.fetched :: t.depth < c.maxDepth)
    && (forall t | t in p.state.planned :: t.depth == 0 ==> t.url == c.first)
    && (p.cut || forall t | t in p.state.plan.enqueued :: t in p.state.planned)
  }

  ghost predicate ProgressOk(c: Setting, p: Progress, depth: nat, consumed: seq<Target>) {
    && LevelsOk(c, p, depth)
    && History(c.site, c.load, c.maxDepth, c.before, consumed, p.state)
    && p.crawled == Count(consumed, ReadIn(c)) <= PAGE_LIMIT
    && p.rendered == Count(consumed, RenderedIn(c))
    && (forall t | t in consumed :: !c.load(t).Saturated?)
  }

  function AfterTake(p: Progress, n: nat): Progress
    requires n <= |p.level|
  {
    p.(fetched := p.fetched + p.level[..n], level := p.level[n..])
  }

  lemma TakingAscends(fetched: seq<Target>, more: seq<Target>, depth: nat)
    requires DepthsAscend(fetched, depth) && forall t | t in more :: t.depth == depth
    ensures DepthsAscend(fetched + more, depth)
  {
    var all := fetched + more;
    forall i | 0 <= i < |all|
      ensures if i < |fetched| then all[i] == fetched[i] && all[i] in fetched else all[i] in more
    {
    }
  }

  lemma {:induction false} FewFetched(fetched: seq<Target>, start: string, listed: set<string>)
    requires forall i, j | 0 <= i < j < |fetched| :: Key(start, fetched[i]) != Key(start, fetched[j])
    requires forall t | t in fetched :: Key(start, t) in listed
    ensures |fetched| <= |listed|
  {
    if fetched != [] {
      var before, last := fetched[..|fetched| - 1], fetched[|fetched| - 1];
      assert last in fetched;
      forall t | t in before
        ensures Key(start, t) in listed - {Key(start, last)}
      {
        var i :| 0 <= i < |before| && before[i] == t;
        assert fetched[i] == t && fetched[i] in fetched;
      }
      FewFetched(before, start, listed - {Key(start, last)});
    }
  }

  lemma {:induction false} SeenCounts(urls: seq<Entry>, seen: set<string>)
    requires forall i, j | 0 <= i < j < |urls| :: urls[i].url != urls[j].url
    requires forall u :: u in seen <==> exists e :: e in urls && e.url == u
    ensures |seen| == |urls|
  {
    if urls == [] {
      assert seen == {};
    } else {
      var before, last := urls[..|urls| - 1], urls[|urls| - 1];
      forall u
        ensures u in seen - {last.url} <==> exists e :: e in before && e.url == u
      {
        if u in seen && u != last.url {
          var e :| e in urls && e.url == u;
          assert e in before;
        }
      }
      SeenCounts(before, seen - {last.url});
      assert last in urls;
    }
  }

  /** What a batch takes is listed, but for the start, so it fits the limit. */
  lemma TakeFits(c: Setting, p: Progress, depth: nat, n: nat)
    requires LevelsOk(c, p, depth) && n <= |p.level| && !IsFull(p.state.listing)
    ensures |p.fetched| + n <= p.state.listing.limit
  {
    var l, taken := p.state.listing, p.fetched + p.level[..n];
    forall i, j | 0 <= i < j < |taken|
      ensures Key(c.start, taken[i]) != Key(c.start, taken[j])
    {
      assert taken[i] == p.state.planned[i] && taken[j] == p.state.planned[j];
    }
    forall t | t in taken
      ensures Key(c.start, t) in l.seen + {c.start}
    {
      assert t in p.state.planned;
    }
    SeenCounts(l.urls, l.seen);
    FewFetched(taken, c.start, l.seen + {c.start});
  }

  lemma TakeKeeps(c: Setting, p: Progress, depth: nat, n: nat)
    requires LevelsOk(c, p, depth) && n <= |p.level| && !IsFull(p.state.listing)
    ensures LevelsOk(c, AfterTake(p, n), depth)
  {
    var next := AfterTake(p, n);
    TakeFits(c, p, depth, n);
    assert p.level == p.level[..n] + p.level[n..];
    assert next.fetched + next.level + next.next == p.state.planned;
    TakingAscends(p.fetched, p.level[..n], depth);
    forall t | t in next.fetched
      ensures t.depth < c.maxDepth && (t.depth > 0 ==> t.url in p.state.listing.seen)
    {
      assert t in p.fetched || t in p.level;
      assert t in p.state.planned;
    }
  }

  /** The new state, with its new targets put behind the next level. */
  function AfterConsume(c: Setting, p: Progress, t: Target): Progress {
    var s := Consume(c.site, p.state, t, c.load(t), c.maxDepth);
    var more := if |p.state.planned| <= |s.planned| then s.planned[|p.state.planned|..] else [];
    p.(state := s, next := p.next + more,
       crawled := p.crawled + (if ReadIn(c)(t) then 1 else 0), rendered := p.rendered + if RenderedIn(c)(t) then 1 else 0)
  }

  lemma Concatenated(planned: seq<Target>, before: seq<Target>, next: seq<Target>, longer: seq<Target>)
    requires planned == before + next && planned <= longer
    ensures longer == before + (next + longer[|planned|..])
  {
  }

  lemma NextIsDeeper(next: seq<Target>, planned: seq<Target>, longer: seq<Target>, depth: nat)
    requires |planned| <= |longer| && forall t | t in next :: t.depth == depth
    requires forall i | |planned| <= i < |longer| :: longer[i].depth == depth
    ensures forall t | t in next + longer[|planned|..] :: t.depth == depth
  {
  }

  lemma ConsumeKeepsLevels(c: Setting, p: Progress, depth: nat, t: Target)
    requires LevelsOk(c, p, depth) && t.depth == depth
    ensures LevelsOk(c, AfterConsume(c, p, t), depth)
  {
    ConsumeKeeps(c.site, c.start, p.state, t, c.load(t), c.maxDepth);
    var s := AfterConsume(c, p, t).state;
    Concatenated(p.state.planned, p.fetched + p.level, p.next, s.planned);
    NextIsDeeper(p.next, p.state.planned, s.planned, depth + 1);
  }

  lemma ConsumeKeepsProgress(c: Setting, p: Progress, depth: nat, consumed: seq<Target>, t: Target)
    requires ProgressOk(c, p, depth, consumed) && t.depth == depth && !c.load(t).Saturated? && p.crawled < PAGE_LIMIT
    ensures ProgressOk(c, AfterConsume(c, p, t), depth, consumed + [t])
  {
    ConsumeKeepsLevels(c, p, depth, t);
    ConsumeKeepsHistory(c.site, c.start, c.load, c.maxDepth, c.before, consumed, p.state, t);
    CountAppend(consumed, t, ReadIn(c));
    CountAppend(consumed, t, RenderedIn(c));
  }

  /** The rest of a level that was cut short is dropped. */
  function AfterLevel(p: Progress): Progress {
    p.(state := p.state.(planned := p.fetched + p.next), level := p.next, next := [], cut := p.cut || p.level != [])
  }

  lemma DroppingKeepsQueue(start: string, l: Listing, p: Plan, a: seq<Target>, b: seq<Target>, c: seq<Target>)
    requires QueueOk(start, l, p, a + b + c)
    ensures QueueOk(start, l, p, a + c)
  {
    var all, kept := a + b + c, a + c;
    forall i | 0 <= i < |kept|
      ensures kept[i] == all[if i < |a| then i else i + |b|]
    {
    }
    forall t | t in kept
      ensures t in all
    {
    }
  }

  lemma LevelKeepsProgress(c: Setting, p: Progress, depth: nat, consumed: seq<Target>)
    requires ProgressOk(c, p, depth, consumed)
    ensures ProgressOk(c, AfterLevel(p), depth + 1, consumed)
  {
    var next := AfterLevel(p);
    DroppingKeepsQueue(c.start, p.state.listing, p.state.plan, p.fetched, p.level, p.next);
    assert next.fetched + next.level + next.next == p.fetched + p.next;
    assert p.level == [] ==> p.fetched + p.level + p.next == p.fetched + p.next;
    assert forall t | t in p.fetched + p.next :: t in p.fetched + p.level + p.next;
    forall t | t in consumed
      ensures TakenUp(c.site, next.state, t, c.load(t), c.maxDepth)
    {
      assert TakenUp(c.site, p.state, t, c.load(t), c.maxDepth);
    }
  }
}
