/** `Map` of pkg/sitemap/service.go: the sitemap worklist, and the crawl that follows it. */
module SiteMap {
  import opened CrawlFrontier
  import opened CrawlPages
  import opened CrawlLevels
  import opened CrawlMoves
  import opened SiteCrawl
  import opened CrawlRun
  import opened CrawlTheorems
  import opened CrawlSources

  const MAXIMUM_SITEMAPS: nat := 25
  const SITEMAP_BATCH: nat := 4

  /** What loading a sitemap comes to; `base` is its final URL. */
  datatype SitemapAnswer = Crowded | Unreadable | Sitemap(base: string, locations: seq<string>, sitemaps: seq<string>)

  function EntriesOf(site: Site, a: SitemapAnswer): seq<string> {
    if a.Sitemap? then Normalize(site, a.locations, a.base) else []
  }

  function ChildrenOf(site: Site, a: SitemapAnswer): seq<string> {
    if a.Sitemap? then Normalize(site, a.sitemaps, a.base) else []
  }

  /** The worklist of `Map`; `loaded` logs the sitemaps taken. */
  datatype Worklist = Worklist(queue: seq<string>, visited: set<string>, loaded: seq<string>, listing: Listing)

  ghost predicate AllDiffer(items: seq<string>) {
    forall i, j | 0 <= i < j < |items| :: items[i] != items[j]
  }

  /** Every sitemap is loaded at most once; none that was met is lost. */
  ghost predicate WorklistOk(site: Site, w: Worklist) {
    && ListingOk(site, w.listing) && (forall e | e in w.listing.urls :: e.source == "sitemap")
    && AllDiffer(w.loaded + w.queue)
    && (forall u :: u in w.visited <==> u in w.loaded + w.queue)
  }

  /** Told by the answer alone: the sitemap lists a location, or names another sitemap. */
  predicate Gives(site: Site, a: SitemapAnswer, url: string) {
    a.Sitemap? && exists location | location in a.locations :: site.normalize(location, a.base) == url
  }

  predicate NamesSitemap(site: Site, a: SitemapAnswer, child: string) {
    a.Sitemap? && child != "" && exists location | location in a.sitemaps :: site.normalize(location, a.base) == child
  }

  ghost predicate Given(site: Site, load: string -> SitemapAnswer, taken: seq<string>, url: string) {
    exists s :: s in taken && Gives(site, load(s), url)
  }

  ghost predicate Called(site: Site, load: string -> SitemapAnswer, first: set<string>, taken: seq<string>, s: string) {
    s in first || exists r :: r in taken && NamesSitemap(site, load(r), s)
  }

  /** What the sitemaps in `taken` say has been taken up, and nothing else was but the first ones. */
  ghost predicate TellsOf(site: Site, load: string -> SitemapAnswer, first: set<string>, w: Worklist, taken: seq<string>) {
    && (forall u :: u in w.listing.offered <==> Given(site, load, taken, u))
    && (forall s :: s in w.visited <==> Called(site, load, first, taken, s))
  }

  function Enqueue(w: Worklist, url: string): Worklist {
    if url == "" || url in w.visited then w else w.(visited := w.visited + {url}, queue := w.queue + [url])
  }

  function EnqueueAll(w: Worklist, urls: seq<string>): Worklist {
    if urls == [] then w else Enqueue(EnqueueAll(w, urls[..|urls| - 1]), urls[|urls| - 1])
  }

  lemma {:induction false} EnqueueAllKeeps(site: Site, w: Worklist, urls: seq<string>)
    requires WorklistOk(site, w)
    ensures var next := EnqueueAll(w, urls);
            && WorklistOk(site, next) && next.listing == w.listing && next.loaded == w.loaded && w.visited <= next.visited
            && forall u :: u in next.visited <==> u in w.visited || (u in urls && u != "")
  {
    if urls != [] {
      var mid, last := EnqueueAll(w, urls[..|urls| - 1]), urls[|urls| - 1];
      EnqueueAllKeeps(site, w, urls[..|urls| - 1]);
      var next := Enqueue(mid, last);
      assert urls == urls[..|urls| - 1] + [last];
      if next != mid {
        assert next.loaded + next.queue == (mid.loaded + mid.queue) + [last];
        assert forall u :: u in next.loaded + next.queue <==> u in mid.loaded + mid.queue || u == last;
        forall i | 0 <= i < |mid.loaded + mid.queue|
          ensures (mid.loaded + mid.queue)[i] != last
        {
          assert (mid.loaded + mid.queue)[i] in mid.loaded + mid.queue;
        }
      }
    }
  }

  function AddAll(site: Site, l: Listing, urls: seq<string>): Listing {
    if urls == [] then l else Add(site, AddAll(site, l, urls[..|urls| - 1]), urls[|urls| - 1], "sitemap")
  }

  lemma {:induction false} AddAllKeeps(site: Site, l: Listing, urls: seq<string>)
    requires ListingOk(site, l)
    ensures var next := AddAll(site, l, urls);
            && ListingOk(site, next) && next.limit == l.limit && (forall u :: u in next.offered <==> u in l.offered || u in urls)
            && (forall e | e in next.urls :: e in l.urls || e.source == "sitemap")
  {
    if urls != [] {
      AddAllKeeps(site, l, urls[..|urls| - 1]);
      AddKeeps(site, AddAll(site, l, urls[..|urls| - 1]), urls[|urls| - 1], "sitemap");
      assert urls == urls[..|urls| - 1] + [urls[|urls| - 1]];
    }
  }

  /** `consumeSitemap` and the `enqueue` of its children. */
  function ConsumeSitemap(site: Site, w: Worklist, a: SitemapAnswer): Worklist {
    EnqueueAll(w.(listing := AddAll(site, w.listing, EntriesOf(site, a))), ChildrenOf(site, a))
  }

  lemma SitemapTells(site: Site, a: SitemapAnswer)
    ensures forall u :: u in EntriesOf(site, a) <==> Gives(site, a, u)
    ensures forall u :: u in ChildrenOf(site, a) && u != "" <==> NamesSitemap(site, a, u)
  {
    if a.Sitemap? {
      NormalizedFrom(site, a.locations, a.base);
      NormalizedFrom(site, a.sitemaps, a.base);
    }
  }

  lemma OneMoreTold(site: Site, load: string -> SitemapAnswer, first: set<string>, taken: seq<string>, s: string)
    ensures forall u :: Given(site, load, taken + [s], u) <==> Given(site, load, taken, u) || Gives(site, load(s), u)
    ensures forall u :: Called(site, load, first, taken + [s], u) <==> Called(site, load, first, taken, u) || NamesSitemap(site, load(s), u)
  {
    assert forall r :: r in taken + [s] <==> r in taken || r == s;
  }

  lemma ConsumeSitemapKeeps(site: Site, load: string -> SitemapAnswer, first: set<string>, w: Worklist, taken: seq<string>, s: string)
    requires WorklistOk(site, w) && TellsOf(site, load, first, w, taken)
    ensures var next := ConsumeSitemap(site, w, load(s));
            && WorklistOk(site, next) && TellsOf(site, load, first, next, taken + [s])
            && next.loaded == w.loaded && next.listing.limit == w.listing.limit && w.visited <= next.visited
  {
    AddAllKeeps(site, w.listing, EntriesOf(site, load(s)));
    var listed := w.(listing := AddAll(site, w.listing, EntriesOf(site, load(s))));
    EnqueueAllKeeps(site, listed, ChildrenOf(site, load(s)));
    SitemapTells(site, load(s));
    OneMoreTold(site, load, first, taken, s);
  }

  function Take(w: Worklist, n: nat): Worklist
    requires n <= |w.queue|
  {
    w.(loaded := w.loaded + w.queue[..n], queue := w.queue[n..])
  }

  lemma TakeKeeps(site: Site, w: Worklist, n: nat)
    requires WorklistOk(site, w) && n <= |w.queue|
    ensures WorklistOk(site, Take(w, n))
  {
    assert Take(w, n).loaded + Take(w, n).queue == w.loaded + w.queue;
  }

  lemma OneMoreTaken(taken: seq<string>, batch: seq<string>, i: nat)
    requires i < |batch|
    ensures taken + batch[..i + 1] == (taken + batch[..i]) + [batch[i]]
  {
  }

  /** The sitemaps of one batch, in order. */
  method ReadSitemapBatch(site: Site, load: string -> SitemapAnswer, start: Worklist, batch: seq<string>, ghost first: set<string>, ghost taken: seq<string>)
    returns (crowded: bool, w: Worklist)
    requires WorklistOk(site, start) && TellsOf(site, load, first, start, taken)
    ensures crowded ==> exists s | s in batch :: load(s).Crowded?
    ensures !crowded ==> WorklistOk(site, w) && TellsOf(site, load, first, w, taken + batch)
    ensures w.loaded == start.loaded && w.listing.limit == start.listing.limit && start.visited <= w.visited
  {
    crowded, w := false, start;
    var i := 0;
    ghost var done := taken;
    assert taken + batch[..0] == taken;
    while i < |batch| && !crowded
      invariant i <= |batch| && w.loaded == start.loaded && w.listing.limit == start.listing.limit && start.visited <= w.visited
      invariant done == taken + batch[..i]
      invariant if crowded then i < |batch| && load(batch[i]).Crowded? else WorklistOk(site, w) && TellsOf(site, load, first, w, done)
      decreases |batch| - i, !crowded
    {
      if load(batch[i]).Crowded? {
        crowded := true;
      } else {
        OneMoreTaken(taken, batch, i);
        ConsumeSitemapKeeps(site, load, first, w, done, batch[i]);
        w := ConsumeSitemap(site, w, load(batch[i]));
        i, done := i + 1, done + [batch[i]];
      }
    }
    assert batch[..|batch|] == batch;
  }

  predicate SitemapsLeft(w: Worklist, left: nat) {
    w.queue != [] && !IsFull(w.listing) && left > 0
  }

  /** One turn of the sitemap loop: a batch is taken and read. */
  method SitemapTurn(site: Site, load: string -> SitemapAnswer, start: Worklist, ghost first: set<string>) returns (crowded: bool, w: Worklist)
    requires WorklistOk(site, start) && TellsOf(site, load, first, start, start.loaded) && start.queue != [] && |start.loaded| < MAXIMUM_SITEMAPS
    ensures crowded ==> exists s | s in w.loaded :: load(s).Crowded?
    ensures !crowded ==> WorklistOk(site, w) && TellsOf(site, load, first, w, w.loaded)
    ensures |start.loaded| < |w.loaded| <= MAXIMUM_SITEMAPS && w.listing.limit == start.listing.limit && start.visited <= w.visited
  {
    var size := if |start.queue| < SITEMAP_BATCH then |start.queue| else SITEMAP_BATCH;
    size := if size < MAXIMUM_SITEMAPS - |start.loaded| then size else MAXIMUM_SITEMAPS - |start.loaded|;
    TakeKeeps(site, start, size);
    crowded, w := ReadSitemapBatch(site, load, Take(start, size), start.queue[..size], first, start.loaded);
  }

  /** The sitemap loop; without a limit hit, every sitemap that a sitemap names has been read. */
  method ReadSitemaps(site: Site, load: string -> SitemapAnswer, start: Worklist, deadline: nat) returns (crowded: bool, w: Worklist, left: nat)
    requires WorklistOk(site, start) && start.loaded == [] && start.listing.offered == {}
    ensures crowded ==> exists s | s in w.loaded :: load(s).Crowded?
    ensures !crowded ==> WorklistOk(site, w) && TellsOf(site, load, start.visited, w, w.loaded)
    ensures |w.loaded| <= MAXIMUM_SITEMAPS && w.listing.limit == start.listing.limit && start.visited <= w.visited && left <= deadline
    ensures !crowded && w.queue != [] ==> IsFull(w.listing) || left == 0 || |w.loaded| == MAXIMUM_SITEMAPS
  {
    crowded, w, left := false, start, deadline;
    assert forall s :: Called(site, load, start.visited, [], s) <==> s in start.visited;
    while SitemapsLeft(w, left) && |w.loaded| < MAXIMUM_SITEMAPS && !crowded
      invariant crowded ==> exists s | s in w.loaded :: load(s).Crowded?
      invariant !crowded ==> WorklistOk(site, w) && TellsOf(site, load, start.visited, w, w.loaded)
      invariant |w.loaded| <= MAXIMUM_SITEMAPS && w.listing.limit == start.listing.limit && start.visited <= w.visited && left <= deadline
      decreases MAXIMUM_SITEMAPS - |w.loaded|, !crowded
    {
      crowded, w := SitemapTurn(site, load, w, start.visited);
      left := left - 1;
    }
  }

  /** A finished worklist is closed: the sitemaps loaded are the first ones and those that a loaded one names. */
  lemma FinishedSitemapsAreClosed(site: Site, load: string -> SitemapAnswer, first: set<string>, w: Worklist, s: string)
    requires WorklistOk(site, w) && TellsOf(site, load, first, w, w.loaded) && w.queue == []
    ensures s in w.loaded <==> Called(site, load, first, w.loaded, s)
  {
    assert w.loaded + [] == w.loaded;
  }

  /** The sitemaps to begin with: those of robots.txt, or the two usual places. */
  function FirstSitemaps(site: Site, robotsURL: string, locations: seq<string>, origin: string, limit: nat): Worklist {
    var named := EnqueueAll(Worklist([], {}, [], NothingListed(limit)), Normalize(site, locations, robotsURL));
    if named.queue == [] then EnqueueAll(named, [site.normalize("/sitemap.xml", origin), site.normalize("/sitemap_index.xml", origin)])
    else named
  }

  datatype Request = Request(url: string, origin: string, robotsURL: string, sitemaps: seq<string>, maxDepth: nat, limit: nat)

  /** The sitemaps to begin with, told by the request alone. */
  function FirstOnes(site: Site, request: Request): set<string> {
    var named := set location | location in request.sitemaps :: site.normalize(location, request.robotsURL);
    if named - {""} != {} then named - {""}
    else {site.normalize("/sitemap.xml", request.origin), site.normalize("/sitemap_index.xml", request.origin)} - {""}
  }

  /** The loaders' answers. */
  datatype Net = Net(sitemap: string -> SitemapAnswer, page: Target -> Answer)

  /** The targets are sound, and beyond the start each was led to by a page one level up. */
  ghost predicate TargetsOk(c: Setting, p: Progress) {
    && (forall i, j | 0 <= i < j < |p.fetched| :: Key(c.start, p.fetched[i]) != Key(c.start, p.fetched[j]) && p.fetched[i].depth <= p.fetched[j].depth)
    && (forall t | t in p.fetched ::
          && t.depth < c.maxDepth
          && if t.depth == 0 then t.url == c.first
             else MayRead(c.site, t.url) && t.url != c.start && exists e :: e in p.state.listing.urls && e.url == t.url)
    && p.crawled <= PAGE_LIMIT && |p.fetched| <= p.state.listing.limit
    && (forall t | t in p.fetched && t.depth > 0 :: HasSource(c, p.fetched, t))
  }

  /** The listed URLs are the listable ones that the sitemaps give or a page says, each with its origin. */
  ghost predicate ListsWhatWasFound(site: Site, net: Net, urls: seq<Entry>, limit: nat, limited: bool, sitemaps: seq<string>, pages: seq<Target>) {
    && |urls| <= limit
    && (forall i, j | 0 <= i < j < |urls| :: urls[i].url != urls[j].url)
    && (forall e | e in urls ::
          && IsListable(site, e.url)
          && ((e.source == "sitemap" && Given(site, net.sitemap, sitemaps, e.url)) || exists t | t in pages :: Attributes(site, t, net.page(t), e)))
    && (forall u | IsListable(site, u) && (Given(site, net.sitemap, sitemaps, u) || SomeSays(site, net.page, pages, u)) ::
          (exists e :: e in urls && e.url == u) || (limited && |urls| == limit))
  }

  /** The sitemaps loaded are first ones or named by one of them; without a limit hit, they are all of those. */
  ghost predicate SitemapsOk(site: Site, request: Request, load: string -> SitemapAnswer, sitemaps: seq<string>, open: bool) {
    && |sitemaps| <= MAXIMUM_SITEMAPS && AllDiffer(sitemaps)
    && (forall s | s in sitemaps :: Called(site, load, FirstOnes(site, request), sitemaps, s))
    && (open && |sitemaps| < MAXIMUM_SITEMAPS ==> forall s | Called(site, load, FirstOnes(site, request), sitemaps, s) :: s in sitemaps)
  }

  lemma SitemapsAreOk(site: Site, request: Request, load: string -> SitemapAnswer, w: Worklist, open: bool)
    requires WorklistOk(site, w) && TellsOf(site, load, FirstOnes(site, request), w, w.loaded) && |w.loaded| <= MAXIMUM_SITEMAPS
    requires open && |w.loaded| < MAXIMUM_SITEMAPS ==> w.queue == []
    ensures SitemapsOk(site, request, load, w.loaded, open)
  {
    TakenDiffer(site, w);
    assert forall s | s in w.loaded :: s in w.loaded + w.queue;
    if w.queue == [] {
      assert w.loaded + w.queue == w.loaded;
    }
  }

  lemma SitemapsAreListed(site: Site, net: Net, w: Worklist)
    requires WorklistOk(site, w) && forall u :: u in w.listing.offered <==> Given(site, net.sitemap, w.loaded, u)
    ensures ListsWhatWasFound(site, net, w.listing.urls, w.listing.limit, w.listing.limited, w.loaded, [])
  {
    forall e | e in w.listing.urls
      ensures e.url in w.listing.seen
    {
    }
  }

  lemma CrawlIsListed(c: Setting, net: Net, p: Progress, depth: nat, sitemaps: seq<string>)
    requires IsReached(c, Moment(p, depth, p.fetched)) && c.load == net.page
    requires forall u :: u in c.before <==> Given(c.site, net.sitemap, sitemaps, u)
    ensures ListsWhatWasFound(c.site, net, p.state.listing.urls, p.state.listing.limit, p.state.listing.limited, sitemaps, p.fetched)
  {
    var l := p.state.listing;
    assert ProgressOk(c, p, depth, p.fetched) by {
      ReachedIsOk(c, Moment(p, depth, p.fetched));
    }
    forall e | e in l.urls
      ensures IsListable(c.site, e.url)
      ensures (e.source == "sitemap" && Given(c.site, net.sitemap, sitemaps, e.url)) || exists t | t in p.fetched :: Attributes(c.site, t, net.page(t), e)
    {
      EntriesHaveOrigins(c, Moment(p, depth, p.fetched), e);
      assert e.url in l.seen;
      ListingIsExact(c, p, depth, p.fetched, e.url);
    }
    forall u | IsListable(c.site, u) && (Given(c.site, net.sitemap, sitemaps, u) || SomeSays(c.site, net.page, p.fetched, u))
      ensures u in l.seen || (l.limited && IsFull(l))
    {
      ListingIsExact(c, p, depth, p.fetched, u);
    }
  }

  lemma CrawlIsSound(c: Setting, p: Progress, depth: nat)
    requires IsReached(c, Moment(p, depth, p.fetched))
    ensures TargetsOk(c, p)
  {
    assert ProgressOk(c, p, depth, p.fetched) by {
      ReachedIsOk(c, Moment(p, depth, p.fetched));
    }
    TargetsAreSound(c, p, depth, p.fetched);
    BudgetsAreKept(c, p, depth, p.fetched);
    forall t | t in p.fetched && t.depth > 0
      ensures HasSource(c, p.fetched, t)
    {
      NothingUnlinkedIsFetched(c, Moment(p, depth, p.fetched), t);
    }
  }

  function SettingOf(site: Site, request: Request, net: Net, before: set<string>): Setting {
    Setting(site, request.url, site.normalize(request.url, request.url), net.page, request.maxDepth, before)
  }

  method Begin(setting: Setting, listing: Listing) returns (c: Crawler)
    requires FollowsRules(setting.site) && setting.maxDepth > 0 && ListingOk(setting.site, listing) && listing.offered == setting.before
    requires forall e | e in listing.urls :: e.source == "sitemap"
    ensures fresh(c) && c.setting == setting && RunOk(c, 0, []) && c.Listed() == listing
    ensures c.level == [Target(setting.first, 0)] && c.next == c.fetched == [] && !c.cut && !c.pageLimitHit && c.crawled == 0
  {
    c := new Crawler(setting, listing);
    c.level := [Target(setting.first, 0)];
    StartIsFine(c);
  }

  /** The crawl, after the sitemaps. */
  method CrawlAfter(setting: Setting, listing: Listing, deadline: nat)
    returns (crowded: bool, urls: seq<Entry>, limited: bool, ghost p: Progress, left: nat)
    requires FollowsRules(setting.site) && setting.maxDepth > 0 && ListingOk(setting.site, listing) && listing.offered == setting.before
    requires forall e | e in listing.urls :: e.source == "sitemap"
    requires !IsFull(listing) && deadline > 0
    ensures crowded ==> exists t | t in p.fetched :: setting.load(t).Saturated?
    ensures !crowded ==> exists depth: nat :: IsReached(setting, Moment(p, depth, p.fetched))
    ensures !crowded ==> p.level == p.next == [] && (p.cut ==> IsFull(p.state.listing) || p.crawled >= PAGE_LIMIT || left == 0)
    ensures urls == p.state.listing.urls && limited == p.state.listing.limited && p.state.listing.limit == listing.limit
    ensures [Target(setting.first, 0)] <= p.fetched
  {
    var c := Begin(setting, listing);
    crowded, left := ReadLevels(c, deadline);
    p := c.Now();
    urls, limited := c.urls, c.limited;
    if !crowded {
      ghost var depth: nat :| RunOk(c, depth, c.fetched);
      assert IsReached(setting, Moment(p, depth, p.fetched));
    }
  }

  lemma QueuedFrom(site: Site, urls: seq<string>, limit: nat)
    ensures var w := EnqueueAll(Worklist([], {}, [], NothingListed(limit)), urls);
            && WorklistOk(site, w) && w.loaded == [] && w.listing == NothingListed(limit)
            && w.visited == (set u | u in urls) - {""} && (w.queue == [] <==> w.visited == {})
  {
    var empty := Worklist([], {}, [], NothingListed(limit));
    var w := EnqueueAll(empty, urls);
    EnqueueAllKeeps(site, empty, urls);
    assert w.loaded + w.queue == w.queue;
    assert w.queue != [] ==> w.queue[0] in w.queue;
  }

  lemma NamedAreNormalized(site: Site, hrefs: seq<string>, base: string)
    ensures (set u | u in Normalize(site, hrefs, base)) == set href | href in hrefs :: site.normalize(href, base)
  {
    NormalizedFrom(site, hrefs, base);
  }

  lemma FirstSitemapsAreOk(site: Site, request: Request)
    ensures var w := FirstSitemaps(site, request.robotsURL, request.sitemaps, request.origin, request.limit);
            WorklistOk(site, w) && w.visited == FirstOnes(site, request) && w.loaded == [] && w.listing == NothingListed(request.limit)
  {
    var usual := [site.normalize("/sitemap.xml", request.origin), site.normalize("/sitemap_index.xml", request.origin)];
    var named := EnqueueAll(Worklist([], {}, [], NothingListed(request.limit)), Normalize(site, request.sitemaps, request.robotsURL));
    QueuedFrom(site, Normalize(site, request.sitemaps, request.robotsURL), request.limit);
    NamedAreNormalized(site, request.sitemaps, request.robotsURL);
    if named.queue == [] {
      assert named == Worklist([], {}, [], NothingListed(request.limit));
      QueuedFrom(site, usual, request.limit);
    }
  }

  /** A crawl that ended by itself has settled every permitted URL that its pages lead to. */
  ghost predicate EndedByItself(c: Setting, p: Progress) {
    && !p.cut && p.level == p.next == []
    && (exists depth: nat :: IsReached(c, Moment(p, depth, p.fetched)))
    && forall t, url | t in p.fetched && LeadsTo(c.site, t, c.load(t), c.maxDepth, url) && url != "" && c.site.permitted(url) :: IsSettled(c, p, url)
  }

  lemma EndedCrawlIsComplete(c: Setting, p: Progress, depth: nat)
    requires IsReached(c, Moment(p, depth, p.fetched)) && !p.cut && p.level == p.next == []
    ensures EndedByItself(c, p)
  {
    var m := Moment(p, depth, p.fetched);
    forall t, url | t in p.fetched && LeadsTo(c.site, t, c.load(t), c.maxDepth, url) && url != "" && c.site.permitted(url)
      ensures IsSettled(c, p, url)
    {
      FinishedCrawlIsComplete(c, m, t, url);
    }
  }

  /** What is promised of a crawl that has come back. */
  ghost predicate CrawlIsFine(site: Site, request: Request, net: Net, p: Progress, open: bool) {
    exists before :: var c := SettingOf(site, request, net, before);
      TargetsOk(c, p) && (p.fetched != [] && open && p.crawled < PAGE_LIMIT ==> EndedByItself(c, p))
  }

  /** `Map`: the sitemaps, then the crawl. `sitemaps` and `p.fetched` are all that was loaded. */
  method Map(site: Site, request: Request, net: Net, deadline: nat)
    returns (crowded: bool, urls: seq<Entry>, limited: bool, expired: bool, ghost sitemaps: seq<string>, ghost p: Progress)
    requires FollowsRules(site) && request.maxDepth > 0
    ensures !crowded ==> SitemapsOk(site, request, net.sitemap, sitemaps, !expired && |urls| < request.limit)
    ensures !crowded ==> ListsWhatWasFound(site, net, urls, request.limit, limited, sitemaps, p.fetched) && p.state.listing.urls == urls
    ensures !crowded ==> CrawlIsFine(site, request, net, p, !expired && |urls| < request.limit)
    ensures !crowded && !expired && |urls| < request.limit ==> [Target(request.url, 0)] <= p.fetched
    ensures |sitemaps| <= MAXIMUM_SITEMAPS
  {
    FirstSitemapsAreOk(site, request);
    var crowdedSitemaps, w, left := ReadSitemaps(site, net.sitemap, FirstSitemaps(site, request.robotsURL, request.sitemaps, request.origin, request.limit), deadline);
    sitemaps := w.loaded;
    urls, limited := w.listing.urls, w.listing.limited;
    crowded, expired := crowdedSitemaps, left == 0;
    p := Progress(State(w.listing, JustStart(""), []), [], [], [], true, 0, 0);
    if crowded {
      return;
    }
    SitemapsAreOk(site, request, net.sitemap, w, !expired && !IsFull(w.listing));
    if !IsFull(w.listing) && !expired {
      crowded, urls, limited, expired, p := RunCrawl(site, request, net, w, left);
    } else {
      SitemapsAreListed(site, net, w);
      assert TargetsOk(SettingOf(site, request, net, w.listing.offered), p);
    }
  }

  lemma TakenDiffer(site: Site, w: Worklist)
    requires WorklistOk(site, w)
    ensures AllDiffer(w.loaded)
  {
    forall i, j | 0 <= i < j < |w.loaded|
      ensures w.loaded[i] != w.loaded[j]
    {
      assert (w.loaded + w.queue)[i] == w.loaded[i] && (w.loaded + w.queue)[j] == w.loaded[j];
    }
  }

  method RunCrawl(site: Site, request: Request, net: Net, w: Worklist, deadline: nat)
    returns (crowded: bool, urls: seq<Entry>, limited: bool, expired: bool, ghost p: Progress)
    requires FollowsRules(site) && request.maxDepth > 0 && deadline > 0
    requires WorklistOk(site, w) && !IsFull(w.listing) && forall u :: u in w.listing.offered <==> Given(site, net.sitemap, w.loaded, u)
    ensures urls == p.state.listing.urls
    ensures !crowded ==> ListsWhatWasFound(site, net, urls, w.listing.limit, limited, w.loaded, p.fetched)
    ensures !crowded ==> CrawlIsFine(site, request, net, p, !expired && |urls| < w.listing.limit)
    ensures [Target(request.url, 0)] <= p.fetched
  {
    var left;
    crowded, urls, limited, p, left := CrawlAfter(SettingOf(site, request, net, w.listing.offered), w.listing, deadline);
    expired := left == 0;
    if !crowded {
      ghost var setting := SettingOf(site, request, net, w.listing.offered);
      ghost var depth: nat :| IsReached(setting, Moment(p, depth, p.fetched));
      CrawlIsSound(setting, p, depth);
      CrawlIsListed(setting, net, p, depth, w.loaded);
      if !p.cut {
        EndedCrawlIsComplete(setting, p, depth);
      }
      assert TargetsOk(setting, p) && (p.fetched != [] && !expired && |urls| < w.listing.limit && p.crawled < PAGE_LIMIT ==> EndedByItself(setting, p));
    }
  }
}
