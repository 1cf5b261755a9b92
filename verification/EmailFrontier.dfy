/** The worklist of an email search (pkg/emails/search.go): which URLs are queued, and which are taken. */
module EmailFrontier {
  import opened Counting
  import opened Ordering

  const MAX_CANDIDATES: nat := 1000
  const MAX_DEPTH: nat := 2
  const MAX_SITEMAPS: nat := 4

  datatype Target = Target(url: string, depth: nat, score: int, sitemap: bool)

  /** The worklist fields of `search`, and three logs: `offered` holds every URL given to `add`, `loads`
      every target taken to be loaded, `reached` the final URLs of the pages that answered. */
  datatype Frontier = Frontier(queue: seq<Target>, seen: set<string>, visited: set<string>, sitemapRequests: nat,
                               candidatesDropped: bool, sitemapLimited: bool, depthLimited: bool,
                               offered: set<string>, loads: seq<Target>, reached: set<string>)

  const NOTHING: Frontier := Frontier([], {}, {}, 0, false, false, false, {}, [], {})

  /** `add`. */
  function Add(f: Frontier, t: Target): Frontier {
    var told := f.(offered := f.offered + {t.url});
    if t.url in f.seen then told
    else if t.depth > MAX_DEPTH then told.(depthLimited := true)
    else if |f.seen| >= MAX_CANDIDATES then told.(candidatesDropped := true)
    else told.(seen := f.seen + {t.url}, queue := f.queue + [t])
  }

  /** One turn of `take`: the head of the queue is dropped or taken. */
  function Pop(f: Frontier): Frontier
    requires f.queue != []
  {
    var t, rest := f.queue[0], f.(queue := f.queue[1..]);
    if t.url in f.visited then rest
    else if t.sitemap && f.sitemapRequests >= MAX_SITEMAPS then rest.(sitemapLimited := true)
    else rest.(sitemapRequests := f.sitemapRequests + if t.sitemap then 1 else 0,
               visited := f.visited + {t.url}, loads := f.loads + [t])
  }

  function Reach(f: Frontier, url: string): Frontier {
    f.(visited := f.visited + {url}, reached := f.reached + {url})
  }

  predicate IsQueued(queue: seq<Target>, url: string) {
    exists t | t in queue :: t.url == url
  }

  predicate Loaded(f: Frontier, url: string) {
    IsQueued(f.loads, url)
  }

  predicate IsSitemap(t: Target) {
    t.sitemap
  }

  ghost predicate EachOnce(loads: seq<Target>) {
    forall i, j | 0 <= i < j < |loads| :: loads[i].url != loads[j].url
  }

  /** Nothing offered is lost: a URL waits, was visited, or one of the three limits was hit. */
  ghost predicate NothingLost(f: Frontier) {
    && (forall u | u in f.offered :: u in f.seen || f.depthLimited || f.candidatesDropped)
    && (forall u | u in f.seen :: u in f.visited || IsQueued(f.queue, u) || f.sitemapLimited)
    && (forall u | u in f.visited :: Loaded(f, u) || u in f.reached)
  }

  ghost predicate Bounded(f: Frontier) {
    && |f.seen| <= MAX_CANDIDATES
    && (forall t | t in f.queue :: t.url in f.seen && t.depth <= MAX_DEPTH)
    && (forall t | t in f.loads :: t.url in f.seen && t.url in f.visited && t.depth <= MAX_DEPTH)
    && EachOnce(f.loads)
    && f.sitemapRequests == Count(f.loads, IsSitemap) <= MAX_SITEMAPS
    && (f.candidatesDropped ==> |f.seen| == MAX_CANDIDATES) && (f.sitemapLimited ==> f.sitemapRequests == MAX_SITEMAPS)
  }

  ghost predicate Inv(f: Frontier) {
    NothingLost(f) && Bounded(f)
  }

  lemma AddKeepsBounds(f: Frontier, t: Target)
    requires Bounded(f)
    ensures Bounded(Add(f, t))
  {
    var next := Add(f, t);
    assert next.loads == f.loads && f.seen <= next.seen && next.visited == f.visited;
    assert forall q :: q in next.queue ==> q in f.queue || (q == t && t.url in next.seen && t.depth <= MAX_DEPTH);
  }

  lemma AddKeeps(f: Frontier, t: Target)
    requires Inv(f)
    ensures Inv(Add(f, t)) && t.url in Add(f, t).offered && Add(f, t).loads == f.loads
  {
    AddKeepsBounds(f, t);
    var next := Add(f, t);
    assert next.queue != f.queue ==> next.queue[|f.queue|] == t;
    forall u | IsQueued(f.queue, u)
      ensures IsQueued(next.queue, u)
    {
      var q :| q in f.queue && q.url == u;
      assert q in next.queue;
    }
  }

  function AddAll(f: Frontier, targets: seq<Target>): Frontier {
    if targets == [] then f else Add(AddAll(f, targets[..|targets| - 1]), targets[|targets| - 1])
  }

  lemma {:induction false} AddAllKeeps(f: Frontier, targets: seq<Target>)
    requires Inv(f)
    ensures var next := AddAll(f, targets);
            && Inv(next) && next.loads == f.loads && next.visited == f.visited && next.reached == f.reached
            && f.offered <= next.offered && (forall t | t in targets :: t.url in next.offered)
  {
    if targets != [] {
      var before, last := targets[..|targets| - 1], targets[|targets| - 1];
      AddAllKeeps(f, before);
      AddKeeps(AddAll(f, before), last);
      assert targets == before + [last];
    }
  }

  /** Nothing is queued, and no depth limit hit, but by one of the targets. */
  lemma {:induction false} AddAllTells(f: Frontier, targets: seq<Target>)
    ensures var next := AddAll(f, targets);
            && (forall t | t in next.queue :: t in f.queue || t in targets)
            && (forall u | u in next.seen :: u in f.seen || IsQueued(targets, u))
            && (next.depthLimited ==> f.depthLimited || AnyTooDeep(targets))
  {
    if targets != [] {
      var before, last := targets[..|targets| - 1], targets[|targets| - 1];
      AddAllTells(f, before);
      OneMoreTarget(before, last);
      assert targets == before + [last];
    }
  }

  predicate AnyTooDeep(targets: seq<Target>) {
    exists t | t in targets :: t.depth > MAX_DEPTH
  }

  lemma OneMoreTarget(before: seq<Target>, last: Target)
    ensures forall t :: t in before + [last] <==> t in before || t == last
    ensures forall u :: IsQueued(before + [last], u) <==> IsQueued(before, u) || u == last.url
    ensures AnyTooDeep(before + [last]) <==> AnyTooDeep(before) || last.depth > MAX_DEPTH
  {
    assert forall t :: t in before + [last] <==> t in before || t == last;
    forall u
      ensures IsQueued(before + [last], u) <==> IsQueued(before, u) || u == last.url
    {
      assert last in before + [last];
      if IsQueued(before, u) {
        var q :| q in before && q.url == u;
        assert q in before + [last];
      }
    }
  }

  lemma PopKeepsBounds(f: Frontier)
    requires Inv(f) && f.queue != []
    ensures Bounded(Pop(f))
  {
    var next := Pop(f);
    if next.loads != f.loads {
      CountAppend(f.loads, f.queue[0], IsSitemap);
      forall i | 0 <= i < |f.loads|
        ensures f.loads[i].url != f.queue[0].url
      {
        assert f.loads[i] in f.loads;
      }
    }
  }

  lemma PopKeeps(f: Frontier)
    requires Inv(f) && f.queue != []
    ensures Inv(Pop(f))
  {
    PopKeepsBounds(f);
    PopLosesNoSeen(f);
    PopLosesNoVisited(f);
  }

  lemma PopLosesNoSeen(f: Frontier)
    requires Inv(f) && f.queue != []
    ensures forall u | u in Pop(f).seen :: u in Pop(f).visited || IsQueued(Pop(f).queue, u) || Pop(f).sitemapLimited
  {
    var next := Pop(f);
    forall u | u in f.seen
      ensures u in next.visited || IsQueued(next.queue, u) || next.sitemapLimited
    {
      if IsQueued(f.queue, u) {
        var q :| q in f.queue && q.url == u;
        assert f.queue == [f.queue[0]] + f.queue[1..];
      }
    }
  }

  lemma PopLosesNoVisited(f: Frontier)
    requires Inv(f) && f.queue != []
    ensures forall u | u in Pop(f).visited :: Loaded(Pop(f), u) || u in Pop(f).reached
  {
    var next := Pop(f);
    forall u | u in next.visited
      ensures Loaded(next, u) || u in next.reached
    {
      if u in f.visited && Loaded(f, u) {
        var q :| q in f.loads && q.url == u;
        assert q in next.loads;
      } else if u !in f.visited {
        assert f.queue[0] in next.loads;
      }
    }
  }

  lemma ReachKeeps(f: Frontier, url: string)
    requires Inv(f)
    ensures Inv(Reach(f, url))
  {
    forall u | u in f.visited && Loaded(f, u)
      ensures Loaded(Reach(f, url), u)
    {
    }
  }

  /** `orderTargets` compares by score, then depth, then URL. */
  predicate ComesFirst(a: Target, b: Target) {
    a.score > b.score || (a.score == b.score && (a.depth < b.depth || (a.depth == b.depth && !Less(b.url, a.url))))
  }

  lemma ComesFirstIsAnOrder()
    ensures IsTotalOrder(ComesFirst)
  {
    forall a: Target, b: Target
      ensures ComesFirst(a, b) || ComesFirst(b, a)
    {
      LessIsTotal(a.url, b.url);
    }
    forall a: Target, b: Target, c: Target | ComesFirst(a, b) && ComesFirst(b, c)
      ensures ComesFirst(a, c)
    {
      LessIsTotal(a.url, b.url);
      LessIsTotal(b.url, c.url);
      LessIsTotal(a.url, c.url);
      if Less(a.url, b.url) && Less(b.url, c.url) {
        LessIsTransitive(a.url, b.url, c.url);
      }
    }
  }

  lemma ReorderKeeps(f: Frontier, queue: seq<Target>)
    requires Inv(f) && multiset(queue) == multiset(f.queue)
    ensures Inv(f.(queue := queue))
  {
    forall t: Target
      ensures t in queue <==> t in f.queue
    {
      assert t in queue <==> t in multiset(queue);
      assert t in f.queue <==> t in multiset(f.queue);
    }
    forall u: string
      ensures IsQueued(queue, u) == IsQueued(f.queue, u)
    {
    }
  }

  lemma {:induction false} FewLoads(loads: seq<Target>, seen: set<string>)
    requires EachOnce(loads) && forall t | t in loads :: t.url in seen
    ensures |loads| <= |seen|
  {
    if loads != [] {
      var last := loads[|loads| - 1];
      assert last in loads;
      FewLoads(loads[..|loads| - 1], seen - {last.url});
    }
  }

  /** The search ends: no more than a thousand loads, whatever the pages say. */
  lemma LoadsAreBounded(f: Frontier)
    requires Inv(f)
    ensures |f.loads| <= |f.seen| <= MAX_CANDIDATES
  {
    FewLoads(f.loads, f.seen);
  }

  /** An empty queue and no limit hit: whatever was offered has been visited. */
  lemma DoneMeansVisited(f: Frontier)
    requires Inv(f) && f.queue == [] && !f.depthLimited && !f.candidatesDropped && !f.sitemapLimited
    ensures f.offered <= f.visited
  {
  }
}
