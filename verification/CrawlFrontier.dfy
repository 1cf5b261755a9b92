/** What a site map lists and what its crawl still plans to read (`run.add`, `enqueue` and `Sampler.Allow`
    in pkg/sitemap). URL handling is given by a `Site`. */
module CrawlFrontier {
  import opened Wrappers
  import opened Counting
  import Robots

  const SHAPE_SAMPLE_LIMIT: nat := 20

  /** `normalize` gives "" for a URL out of scope, `path` is what the robots rules look at, and `blocks`
      is their verdict. */
  datatype Site = Site(normalize: (string, string) -> string, permitted: string -> bool, shape: string -> string,
                       path: string -> Option<string>, rules: seq<Robots.Rule>, blocks: string -> bool)

  ghost predicate Verdict(site: Site, url: string) {
    site.path(url).Some? && Robots.IsBlocked(site.rules, site.path(url).value)
  }

  ghost predicate FollowsRules(site: Site) {
    forall url {:trigger Verdict(site, url)} :: site.blocks(url) <==> Verdict(site, url)
  }

  datatype Entry = Entry(url: string, source: string)

  /** The listing part of the report; `offered` logs every URL given to `add`. */
  datatype Listing = Listing(limit: nat, seen: set<string>, urls: seq<Entry>, limited: bool, offered: set<string>)

  function NothingListed(limit: nat): Listing {
    Listing(limit, {}, [], false, {})
  }

  predicate IsFull(l: Listing) {
    |l.urls| >= l.limit
  }

  predicate IsListable(site: Site, url: string) {
    url != "" && site.permitted(url)
  }

  /** `run.add`. */
  function Add(site: Site, l: Listing, url: string, source: string): Listing {
    var told := l.(offered := l.offered + {url});
    if url == "" || url in l.seen || !site.permitted(url) then told
    else if IsFull(l) then told.(limited := true)
    else told.(seen := l.seen + {url}, urls := l.urls + [Entry(url, source)])
  }

  /** The listing holds the listable URLs it was offered, each once; only a full list lacks any. */
  ghost predicate ListingOk(site: Site, l: Listing) {
    && |l.urls| <= l.limit
    && (forall i, j | 0 <= i < j < |l.urls| :: l.urls[i].url != l.urls[j].url)
    && (forall u :: u in l.seen <==> exists e :: e in l.urls && e.url == u)
    && (forall u | u in l.seen :: u in l.offered && IsListable(site, u))
    && (forall u | u in l.offered && IsListable(site, u) :: u in l.seen || l.limited)
    && (l.limited ==> IsFull(l))
  }

  lemma AddKeeps(site: Site, l: Listing, url: string, source: string)
    requires ListingOk(site, l)
    ensures var next := Add(site, l, url, source);
            && ListingOk(site, next) && url in next.offered && l.offered <= next.offered && l.seen <= next.seen
            && |l.urls| <= |next.urls| && next.limit == l.limit && (l.limited ==> next.limited)
            && (IsListable(site, url) ==> url in next.seen || IsFull(next))
  {
    var next := Add(site, l, url, source);
    if next.urls != l.urls {
      assert next.urls[|l.urls|] == Entry(url, source);
      assert forall e :: e in next.urls <==> e in l.urls || e == Entry(url, source);
      forall i | 0 <= i < |l.urls|
        ensures l.urls[i].url != url
      {
        assert l.urls[i] in l.urls;
      }
    }
  }

  datatype Target = Target(url: string, depth: nat)

  /** The crawler's bookkeeping; `enqueued` logs every target ever queued and `skipped` every URL left
      to the robots rules. `counts` is the sampler. */
  datatype Plan = Plan(queued: set<string>, counts: map<string, nat>, robotsSkipped: nat, skipped: set<string>, enqueued: seq<Target>)

  function JustStart(start: string): Plan {
    Plan({start}, map[], 0, {}, [])
  }

  function Taken(p: Plan, shape: string): nat {
    if shape in p.counts then p.counts[shape] else 0
  }

  /** `enqueue`. */
  function Enqueue(site: Site, p: Plan, url: string, depth: nat): (r: Plan)
    ensures r.enqueued == p.enqueued || r.enqueued == p.enqueued + [Target(url, depth)]
    ensures p.queued <= r.queued && forall s :: Taken(p, s) <= Taken(r, s)
  {
    if url == "" || url in p.queued || !site.permitted(url) then p
    else if site.blocks(url) then p.(queued := p.queued + {url}, skipped := p.skipped + {url}, robotsSkipped := p.robotsSkipped + 1)
    else if Taken(p, site.shape(url)) >= SHAPE_SAMPLE_LIMIT then p
    else p.(queued := p.queued + {url}, counts := p.counts[site.shape(url) := Taken(p, site.shape(url)) + 1],
            enqueued := p.enqueued + [Target(url, depth)])
  }

  function OfShape(site: Site, shape: string): Target -> bool {
    (t: Target) => site.shape(t.url) == shape
  }

  /** A queued target may be read: it is permitted and not blocked. */
  predicate MayRead(site: Site, url: string) {
    IsListable(site, url) && !site.blocks(url)
  }

  predicate IsPlanned(p: Plan, url: string) {
    exists t | t in p.enqueued :: t.url == url
  }

  ghost predicate PlanOk(site: Site, start: string, p: Plan) {
    && (forall u :: u in p.queued <==> u == start || u in p.skipped || IsPlanned(p, u))
    && (forall u | u in p.skipped :: site.blocks(u) && IsListable(site, u))
    && p.robotsSkipped == |p.skipped|
    && (forall t | t in p.enqueued :: MayRead(site, t.url) && t.url != start && t.depth > 0)
  }

  ghost predicate SampleOk(site: Site, p: Plan) {
    forall shape :: Count(p.enqueued, OfShape(site, shape)) == Taken(p, shape) <= SHAPE_SAMPLE_LIMIT
  }

  lemma OneMorePlanned(p: Plan, next: Plan, t: Target)
    requires next.enqueued == p.enqueued + [t]
    ensures forall u :: IsPlanned(next, u) <==> IsPlanned(p, u) || u == t.url
    ensures forall s :: s in next.enqueued <==> s in p.enqueued || s == t
  {
    assert forall s :: s in next.enqueued <==> s in p.enqueued || s == t;
    forall u
      ensures IsPlanned(next, u) <==> IsPlanned(p, u) || u == t.url
    {
      assert t in next.enqueued;
      if IsPlanned(p, u) {
        var s :| s in p.enqueued && s.url == u;
        assert s in next.enqueued;
      }
    }
  }

  lemma SkippingKeepsPlan(site: Site, start: string, p: Plan, url: string)
    requires PlanOk(site, start, p) && url !in p.queued && site.blocks(url) && IsListable(site, url)
    ensures PlanOk(site, start, p.(queued := p.queued + {url}, skipped := p.skipped + {url}, robotsSkipped := p.robotsSkipped + 1))
  {
    var next := p.(queued := p.queued + {url}, skipped := p.skipped + {url}, robotsSkipped := p.robotsSkipped + 1);
    assert forall u :: IsPlanned(next, u) == IsPlanned(p, u);
  }

  lemma PlanningKeepsPlan(site: Site, start: string, p: Plan, next: Plan, t: Target)
    requires PlanOk(site, start, p) && t.url !in p.queued && MayRead(site, t.url) && t.depth > 0
    requires next == p.(queued := p.queued + {t.url}, counts := next.counts, enqueued := p.enqueued + [t])
    ensures PlanOk(site, start, next)
  {
    OneMorePlanned(p, next, t);
  }

  lemma EnqueueKeepsPlan(site: Site, start: string, p: Plan, url: string, depth: nat)
    requires PlanOk(site, start, p) && depth > 0
    ensures PlanOk(site, start, Enqueue(site, p, url, depth))
  {
    var next := Enqueue(site, p, url, depth);
    if next.enqueued != p.enqueued {
      PlanningKeepsPlan(site, start, p, next, Target(url, depth));
    } else if next != p {
      SkippingKeepsPlan(site, start, p, url);
    }
  }

  lemma EnqueueKeepsSample(site: Site, p: Plan, url: string, depth: nat)
    requires SampleOk(site, p)
    ensures SampleOk(site, Enqueue(site, p, url, depth))
  {
    var next := Enqueue(site, p, url, depth);
    forall shape
      ensures Count(next.enqueued, OfShape(site, shape)) == Taken(next, shape) <= SHAPE_SAMPLE_LIMIT
    {
      assert Count(p.enqueued, OfShape(site, shape)) == Taken(p, shape) <= SHAPE_SAMPLE_LIMIT;
      CountAppend(p.enqueued, Target(url, depth), OfShape(site, shape));
    }
  }

  /** The targets read so far and still to read: each once, and each listed unless the list is full. */
  ghost predicate QueueOk(start: string, l: Listing, p: Plan, planned: seq<Target>) {
    && (forall i, j | 0 <= i < j < |planned| :: Key(start, planned[i]) != Key(start, planned[j]))
    && (forall t | t in planned :: t.depth == 0 || (t in p.enqueued && (t.url in l.seen || IsFull(l))))
  }

  /** The start page has depth 0 and is queued in its normal form. */
  function Key(start: string, t: Target): string {
    if t.depth == 0 then start else t.url
  }

  /** What one more link does to the queue of planned targets. */
  function Grow(p: Plan, next: Plan, planned: seq<Target>): seq<Target>
    requires p.enqueued <= next.enqueued
  {
    planned + next.enqueued[|p.enqueued|..]
  }

  lemma EnqueueKeepsQueue(site: Site, start: string, l: Listing, p: Plan, planned: seq<Target>, url: string, depth: nat)
    requires PlanOk(site, start, p) && QueueOk(start, l, p, planned) && depth > 0
    requires IsListable(site, url) ==> url in l.seen || IsFull(l)
    ensures var next := Enqueue(site, p, url, depth);
            p.enqueued <= next.enqueued && QueueOk(start, l, next, Grow(p, next, planned))
  {
    var next := Enqueue(site, p, url, depth);
    if next.enqueued != p.enqueued {
      assert next.enqueued[|p.enqueued|..] == [Target(url, depth)];
      assert Target(url, depth) in next.enqueued;
      forall i | 0 <= i < |planned|
        ensures Key(start, planned[i]) in p.queued
      {
        assert planned[i] in planned;
        assert planned[i].depth > 0 ==> IsPlanned(p, planned[i].url);
      }
    } else {
      assert Grow(p, next, planned) == planned;
    }
  }

  /** A longer list keeps the queue good. */
  lemma ListingKeepsQueue(start: string, l: Listing, next: Listing, p: Plan, planned: seq<Target>)
    requires QueueOk(start, l, p, planned) && l.seen <= next.seen && |l.urls| <= |next.urls| && next.limit == l.limit
    ensures QueueOk(start, next, p, planned)
  {
  }

  /** The listing, the plan, and the targets read and to be read. */
  datatype State = State(listing: Listing, plan: Plan, planned: seq<Target>)

  /** What a page's link does: it is listed and, from a page that is expanded, queued. */
  function Offer(site: Site, s: State, url: string, source: string, expand: bool, depth: nat): State {
    var plan := if expand then Enqueue(site, s.plan, url, depth) else s.plan;
    State(Add(site, s.listing, url, source), plan, Grow(s.plan, plan, s.planned))
  }

  function OfferAll(site: Site, s: State, urls: seq<string>, source: string, expand: bool, depth: nat): State {
    if urls == [] then s
    else Offer(site, OfferAll(site, s, urls[..|urls| - 1], source, expand, depth), urls[|urls| - 1], source, expand, depth)
  }

  ghost predicate StateOk(site: Site, start: string, s: State) {
    ListingOk(site, s.listing) && PlanOk(site, start, s.plan) && SampleOk(site, s.plan) && QueueOk(start, s.listing, s.plan, s.planned)
  }

  /** Nothing told, listed or planned is ever taken back. */
  ghost predicate Grows(s: State, next: State) {
    && s.listing.offered <= next.listing.offered && s.listing.seen <= next.listing.seen
    && s.listing.limit == next.listing.limit && |s.listing.urls| <= |next.listing.urls|
    && s.plan.queued <= next.plan.queued && (forall shape :: Taken(s.plan, shape) <= Taken(next.plan, shape))
    && s.planned <= next.planned
    && (forall t | t in next.plan.enqueued :: t in s.plan.enqueued || t in next.planned)
  }

  /** A link that the crawl follows is planned or skipped, unless its shape has been sampled enough. */
  predicate IsFollowed(site: Site, p: Plan, url: string) {
    IsListable(site, url) ==> url in p.queued || (!site.blocks(url) && Taken(p, site.shape(url)) >= SHAPE_SAMPLE_LIMIT)
  }

  lemma OfferKeeps(site: Site, start: string, s: State, url: string, source: string, expand: bool, depth: nat)
    requires StateOk(site, start, s) && depth > 0
    ensures var next := Offer(site, s, url, source, expand, depth);
            && StateOk(site, start, next) && Grows(s, next)
            && next.listing.offered == s.listing.offered + {url}
            && (forall i | |s.planned| <= i < |next.planned| :: next.planned[i].depth == depth)
            && (!expand ==> next.planned == s.planned)
  {
    var next := Offer(site, s, url, source, expand, depth);
    AddKeeps(site, s.listing, url, source);
    ListingKeepsQueue(start, s.listing, next.listing, s.plan, s.planned);
    if expand {
      EnqueueKeepsPlan(site, start, s.plan, url, depth);
      EnqueueKeepsSample(site, s.plan, url, depth);
      EnqueueKeepsQueue(site, start, next.listing, s.plan, s.planned, url, depth);
    } else {
      assert next.planned == s.planned;
    }
  }

  lemma GrowsOn(site: Site, a: State, b: State, c: State, url: string)
    requires Grows(a, b) && Grows(b, c)
    ensures Grows(a, c)
    ensures (IsFollowed(site, b.plan, url) ==> IsFollowed(site, c.plan, url))
  {
  }

  lemma {:induction false} OfferAllKeeps(site: Site, start: string, s: State, urls: seq<string>, source: string, expand: bool, depth: nat)
    requires StateOk(site, start, s) && depth > 0
    ensures var next := OfferAll(site, s, urls, source, expand, depth);
            && StateOk(site, start, next) && Grows(s, next)
            && (forall i | |s.planned| <= i < |next.planned| :: next.planned[i].depth == depth)
            && (!expand ==> next.planned == s.planned)
  {
    if urls != [] {
      var before, last := urls[..|urls| - 1], urls[|urls| - 1];
      var mid, next := OfferAll(site, s, before, source, expand, depth), OfferAll(site, s, urls, source, expand, depth);
      OfferAllKeeps(site, start, s, before, source, expand, depth);
      OfferKeeps(site, start, mid, last, source, expand, depth);
      GrowsOn(site, s, mid, next, last);
    }
  }

  lemma {:induction false} OfferAllLists(site: Site, s: State, urls: seq<string>, source: string, expand: bool, depth: nat)
    ensures forall u :: u in OfferAll(site, s, urls, source, expand, depth).listing.offered <==> u in s.listing.offered || u in urls
  {
    if urls != [] {
      OfferAllLists(site, s, urls[..|urls| - 1], source, expand, depth);
      assert urls == urls[..|urls| - 1] + [urls[|urls| - 1]];
    }
  }

  lemma OfferFollows(site: Site, s: State, url: string, source: string, depth: nat, u: string)
    requires IsFollowed(site, s.plan, u) || u == url
    ensures IsFollowed(site, Offer(site, s, url, source, true, depth).plan, u)
  {
  }

  lemma {:induction false} OfferAllFollows(site: Site, s: State, urls: seq<string>, source: string, depth: nat, i: nat)
    requires i < |urls|
    ensures IsFollowed(site, OfferAll(site, s, urls, source, true, depth).plan, urls[i])
  {
    var before, last := urls[..|urls| - 1], urls[|urls| - 1];
    if i < |before| {
      OfferAllFollows(site, s, before, source, depth, i);
    }
    OfferFollows(site, OfferAll(site, s, before, source, true, depth), last, source, depth, urls[i]);
  }

  lemma {:induction false} OfferAllKeepsFollowing(site: Site, s: State, urls: seq<string>, source: string, expand: bool, depth: nat, u: string)
    requires IsFollowed(site, s.plan, u)
    ensures IsFollowed(site, OfferAll(site, s, urls, source, expand, depth).plan, u)
  {
    if urls != [] {
      OfferAllKeepsFollowing(site, s, urls[..|urls| - 1], source, expand, depth, u);
    }
  }
}
