/** The email search of pkg/emails: `search` updated in place, and the `Find` loop that drives it. */
module EmailSearch {
  import opened Wrappers
  import opened Counting
  import opened Ordering
  import F = EmailFrontier
  import G = EmailFindings

  type Target = F.Target

  datatype Link = Link(url: string, score: int)

  datatype Match = Match(address: string, source: string, kind: string)

  /** What loading a target comes to; `links` and `listed` are the in-scope links of a page and of a
      sitemap, `found` the addresses on a page. */
  datatype Answer = Saturated | Failed | Loaded(status: int, finalURL: string, links: seq<Link>, listed: seq<Target>, found: seq<Match>)

  /** `normalize` gives "" for a URL out of scope. */
  datatype Site = Site(normalize: string -> string, publicURL: string -> string)

  datatype Page = Page(url: string, finalURL: string, ok: bool)

  datatype Report = Report(outcome: string, emails: seq<G.Address>, pages: seq<Page>, pagesFailed: nat, warnings: seq<string>, limited: bool)

  function FinalURL(t: Target, a: Answer): string {
    if a.Loaded? && a.finalURL != "" then a.finalURL else t.url
  }

  predicate IsGood(site: Site, t: Target, a: Answer) {
    a.Loaded? && a.status < 400 && site.normalize(FinalURL(t, a)) != ""
  }

  function LinkTargets(links: seq<Link>, depth: nat): (r: seq<Target>)
    ensures |r| == |links|
  {
    seq(|links|, i requires 0 <= i < |links| => F.Target(links[i].url, depth, links[i].score, false))
  }

  function PairOf(site: Site, m: Match, base: string): (string, G.Source) {
    (m.address, G.Source(site.publicURL(if m.source == "" then base else m.source), m.kind))
  }

  function Pairs(site: Site, t: Target, a: Answer): seq<(string, G.Source)> {
    if !IsGood(site, t, a) || t.sitemap then []
    else seq(|a.found|, i requires 0 <= i < |a.found| => PairOf(site, a.found[i], FinalURL(t, a)))
  }

  function Candidates(site: Site, t: Target, a: Answer): seq<Target> {
    if !IsGood(site, t, a) then []
    else if t.sitemap then a.listed
    else LinkTargets(a.links, t.depth + 1)
  }

  predicate ReachesFinal(site: Site, t: Target, a: Answer) {
    IsGood(site, t, a) && !t.sitemap
  }

  /** `consume`, on the worklist and on the findings. */
  function ConsumeFront(site: Site, f: F.Frontier, t: Target, a: Answer): F.Frontier {
    F.AddAll(if ReachesFinal(site, t, a) then F.Reach(f, site.normalize(FinalURL(t, a))) else f, Candidates(site, t, a))
  }

  function ConsumeFound(site: Site, g: G.Findings, t: Target, a: Answer): G.Findings {
    G.RecordAll(g, Pairs(site, t, a))
  }

  /** Told by the answer alone: the page was loaded without an error status, and it ended within the site. */
  predicate AnsweredWell(site: Site, t: Target, a: Answer) {
    && a.Loaded? && a.status < 400
    && var end := if a.finalURL == "" then t.url else a.finalURL; site.normalize(end) != ""
  }

  /** The page's `i`-th address, with the source the report has to name. */
  predicate SaysAt(site: Site, t: Target, a: Answer, i: nat, p: (string, G.Source)) {
    && !t.sitemap && AnsweredWell(site, t, a) && i < |a.found|
    && var end := if a.finalURL == "" then t.url else a.finalURL;
       p.0 == a.found[i].address && p.1.foundIn == a.found[i].kind
       && p.1.url == site.publicURL(if a.found[i].source == "" then end else a.found[i].source)
  }

  /** What a sitemap lists, and what a page links to, one level deeper. */
  predicate Offers(site: Site, t: Target, a: Answer, c: Target) {
    && AnsweredWell(site, t, a)
    && if t.sitemap then c in a.listed
       else exists link | link in a.links :: c.url == link.url && c.score == link.score && c.depth == t.depth + 1 && !c.sitemap
  }

  /** The page, by its final URL. */
  predicate EndsAt(site: Site, t: Target, a: Answer, url: string) {
    && !t.sitemap && AnsweredWell(site, t, a)
    && var end := if a.finalURL == "" then t.url else a.finalURL; site.normalize(end) == url
  }

  /** How a page is reported. */
  function Row(site: Site, t: Target, a: Answer): Page {
    Page(site.publicURL(t.url), site.publicURL(if !a.Loaded? || a.finalURL == "" then t.url else a.finalURL), AnsweredWell(site, t, a))
  }

  function Rows(site: Site, load: Target -> Answer, consumed: seq<Target>): seq<Page> {
    if consumed == [] then []
    else
      var before, last := Rows(site, load, consumed[..|consumed| - 1]), consumed[|consumed| - 1];
      if last.sitemap then before else before + [Row(site, last, load(last))]
  }

  lemma CandidatesAreOffered(site: Site, t: Target, a: Answer)
    ensures forall c :: c in Candidates(site, t, a) <==> Offers(site, t, a, c)
  {
    if AnsweredWell(site, t, a) && !t.sitemap {
      var targets := LinkTargets(a.links, t.depth + 1);
      forall c | Offers(site, t, a, c)
        ensures c in targets
      {
        var link :| link in a.links && c.url == link.url && c.score == link.score && c.depth == t.depth + 1 && !c.sitemap;
        var i :| 0 <= i < |a.links| && a.links[i] == link;
        assert targets[i] == c;
      }
      forall c | c in targets
        ensures Offers(site, t, a, c)
      {
        var i :| 0 <= i < |a.links| && targets[i] == c;
        assert a.links[i] in a.links;
      }
    }
  }

  lemma PairsAreSaid(site: Site, t: Target, a: Answer)
    ensures forall p :: p in Pairs(site, t, a) <==> exists i: nat :: SaysAt(site, t, a, i, p)
  {
    forall p | p in Pairs(site, t, a)
      ensures exists i: nat :: SaysAt(site, t, a, i, p)
    {
      var i: nat :| i < |Pairs(site, t, a)| && Pairs(site, t, a)[i] == p;
      assert SaysAt(site, t, a, i, p);
    }
    forall p, i: nat | SaysAt(site, t, a, i, p)
      ensures p in Pairs(site, t, a)
    {
      assert Pairs(site, t, a)[i] == p;
    }
  }

  /** All that the answer says has been taken up. */
  ghost predicate TakenUp(site: Site, f: F.Frontier, g: G.Findings, t: Target, a: Answer) {
    && (forall c | Offers(site, t, a, c) :: c.url in f.offered)
    && (forall i: nat, p | SaysAt(site, t, a, i, p) :: p in g.recorded)
    && (forall u | EndsAt(site, t, a, u) :: u in f.visited)
  }

  ghost predicate Says(site: Site, load: Target -> Answer, consumed: seq<Target>, p: (string, G.Source)) {
    exists t, i: nat :: t in consumed && SaysAt(site, t, load(t), i, p)
  }

  ghost predicate LeadsTo(site: Site, load: Target -> Answer, consumed: seq<Target>, url: string) {
    exists t | t in consumed :: EndsAt(site, t, load(t), url)
  }

  /** The target is a first one, or a page or a sitemap offers it. */
  ghost predicate HasSource(site: Site, load: Target -> Answer, first: set<Target>, consumed: seq<Target>, c: Target) {
    c in first || exists t | t in consumed :: Offers(site, t, load(t), c)
  }

  ghost predicate UrlHasSource(site: Site, load: Target -> Answer, first: set<Target>, consumed: seq<Target>, url: string) {
    exists c: Target :: c.url == url && HasSource(site, load, first, consumed, c)
  }

  /** Some target was offered that lies too deep. */
  ghost predicate GoesTooDeep(site: Site, load: Target -> Answer, first: set<Target>, consumed: seq<Target>) {
    exists c: Target :: c.depth > 2 && HasSource(site, load, first, consumed, c)
  }

  /** The state tells what the consumed answers said, and nothing else. */
  ghost predicate History(site: Site, load: Target -> Answer, first: set<Target>, consumed: seq<Target>, f: F.Frontier, g: G.Findings) {
    && (forall t | t in consumed :: TakenUp(site, f, g, t, load(t)))
    && (forall p | p in g.recorded :: Says(site, load, consumed, p))
    && (forall u | u in f.reached :: LeadsTo(site, load, consumed, u))
    && (forall c | c in f.queue || c in f.loads :: HasSource(site, load, first, consumed, c))
    && (forall u | u in f.seen :: UrlHasSource(site, load, first, consumed, u))
    && (f.depthLimited ==> GoesTooDeep(site, load, first, consumed))
  }

  lemma ConsumeFrontKeeps(site: Site, f: F.Frontier, t: Target, a: Answer)
    requires F.Inv(f)
    ensures var next := ConsumeFront(site, f, t, a);
            && F.Inv(next) && next.loads == f.loads && f.offered <= next.offered && f.visited <= next.visited
            && (forall u :: u in next.reached <==> u in f.reached || EndsAt(site, t, a, u))
            && (forall c | Offers(site, t, a, c) :: c.url in next.offered)
            && (forall c | c in next.queue :: c in f.queue || Offers(site, t, a, c))
            && (forall u | u in next.seen :: u in f.seen || exists c: Target :: c.url == u && Offers(site, t, a, c))
            && (next.depthLimited ==> f.depthLimited || exists c: Target :: c.depth > 2 && Offers(site, t, a, c))
            && (forall u | EndsAt(site, t, a, u) :: u in next.visited)
  {
    CandidatesAreOffered(site, t, a);
    F.ReachKeeps(f, site.normalize(FinalURL(t, a)));
    var reached := if ReachesFinal(site, t, a) then F.Reach(f, site.normalize(FinalURL(t, a))) else f;
    F.AddAllKeeps(reached, Candidates(site, t, a));
    F.AddAllTells(reached, Candidates(site, t, a));
  }

  lemma OneMoreSays(site: Site, load: Target -> Answer, first: set<Target>, consumed: seq<Target>, t: Target)
    ensures forall p :: Says(site, load, consumed, p) ==> Says(site, load, consumed + [t], p)
    ensures forall i: nat, p | SaysAt(site, t, load(t), i, p) :: Says(site, load, consumed + [t], p)
    ensures forall u | LeadsTo(site, load, consumed, u) || EndsAt(site, t, load(t), u) :: LeadsTo(site, load, consumed + [t], u)
    ensures forall c | HasSource(site, load, first, consumed, c) || Offers(site, t, load(t), c) :: HasSource(site, load, first, consumed + [t], c)
    ensures forall u | UrlHasSource(site, load, first, consumed, u) :: UrlHasSource(site, load, first, consumed + [t], u)
    ensures GoesTooDeep(site, load, first, consumed) ==> GoesTooDeep(site, load, first, consumed + [t])
  {
    assert forall r :: r in consumed + [t] <==> r in consumed || r == t;
    forall p | Says(site, load, consumed, p)
      ensures Says(site, load, consumed + [t], p)
    {
      var r, i: nat :| r in consumed && SaysAt(site, r, load(r), i, p);
      assert r in consumed + [t];
    }
  }

  lemma ConsumeTakesUp(site: Site, f: F.Frontier, g: G.Findings, t: Target, a: Answer, u: Target, ua: Answer)
    requires F.Inv(f) && G.Inv(g) && (TakenUp(site, f, g, u, ua) || (u == t && ua == a))
    ensures TakenUp(site, ConsumeFront(site, f, t, a), ConsumeFound(site, g, t, a), u, ua)
  {
    ConsumeFrontKeeps(site, f, t, a);
    G.RecordAllKeeps(g, Pairs(site, t, a));
    PairsAreSaid(site, t, a);
  }

  lemma ConsumeKeepsHistory(site: Site, load: Target -> Answer, first: set<Target>, consumed: seq<Target>, f: F.Frontier, g: G.Findings, t: Target)
    requires F.Inv(f) && G.Inv(g) && History(site, load, first, consumed, f, g)
    ensures History(site, load, first, consumed + [t], ConsumeFront(site, f, t, load(t)), ConsumeFound(site, g, t, load(t)))
  {
    forall u | u in consumed + [t]
      ensures TakenUp(site, ConsumeFront(site, f, t, load(t)), ConsumeFound(site, g, t, load(t)), u, load(u))
    {
      assert u in consumed || u == t;
      ConsumeTakesUp(site, f, g, t, load(t), u, load(u));
    }
    ConsumeFrontKeeps(site, f, t, load(t));
    G.RecordAllKeeps(g, Pairs(site, t, load(t)));
    PairsAreSaid(site, t, load(t));
    OneMoreSays(site, load, first, consumed, t);
  }

  function PageOf(site: Site, t: Target, a: Answer): Page {
    Page(site.publicURL(t.url), site.publicURL(FinalURL(t, a)), IsGood(site, t, a))
  }

  predicate IsPage(t: Target) {
    !t.sitemap
  }

  predicate HasFailed(p: Page) {
    !p.ok
  }

  /** The higher score is better, then the smaller depth, and then the URL that is not later in byte order. */
  ghost predicate IsBetter(a: Target, b: Target) {
    || a.score > b.score
    || (a.score == b.score && a.depth < b.depth)
    || (a.score == b.score && a.depth == b.depth && !IsSmaller(b.url, a.url))
  }

  /** What `take` does with the head of the queue: it joins the batch, and a page counts. */
  method Append(batch: seq<Target>, planned: nat, taken: Option<Target>) returns (longer: seq<Target>, total: nat)
    ensures longer == batch + (if taken.Some? then [taken.value] else [])
    ensures total - Count(longer, IsPage) == planned - Count(batch, IsPage)
    ensures total == planned || (total == planned + 1 && taken.Some? && !taken.value.sitemap)
  {
    longer, total := batch, planned;
    if taken.Some? {
      CountAppend(batch, taken.value, IsPage);
      longer := batch + [taken.value];
      if !taken.value.sitemap {
        total := planned + 1;
      }
    } else {
      assert batch + [] == batch;
    }
  }

  lemma Regroup(a: seq<Target>, b: seq<Target>, c: seq<Target>)
    ensures (a + b) + c == a + (b + c)
  {
  }

  lemma OneMoreGone(gone: seq<Target>, queue: seq<Target>, batch: seq<Target>)
    requires queue != [] && forall c | c in batch :: c in gone
    ensures gone + queue == (gone + [queue[0]]) + queue[1..]
    ensures forall c | c in batch || c in batch + [queue[0]] :: c in gone + [queue[0]]
  {
  }

  class Search {
    const site: Site
    const maxPages: nat
    const maxEmails: nat
    /** What the search begins with. */
    ghost const first: set<Target>
    var queue: seq<Target>
    var seen: set<string>
    var visited: set<string>
    var sitemapRequests: nat
    var candidatesDropped: bool
    var sitemapLimited: bool
    var depthLimited: bool
    ghost var offered: set<string>
    ghost var loads: seq<Target>
    ghost var reached: set<string>
    var addresses: map<string, nat>
    var emails: seq<G.Address>
    var warnings: seq<string>
    var limited: bool
    ghost var recorded: set<(string, G.Source)>
    var pages: seq<Page>
    var pagesFailed: nat

    ghost function Front(): F.Frontier
      reads this
    {
      F.Frontier(queue, seen, visited, sitemapRequests, candidatesDropped, sitemapLimited, depthLimited, offered, loads, reached)
    }

    ghost function Found(): G.Findings
      reads this
    {
      G.Findings(maxEmails, addresses, emails, warnings, limited, recorded)
    }

    constructor (site: Site, maxPages: nat, maxEmails: nat, ghost first: set<Target>)
      ensures this.site == site && this.maxPages == maxPages && this.maxEmails == maxEmails && this.first == first
      ensures Front() == F.NOTHING && Found() == G.Nothing(maxEmails) && pages == [] && pagesFailed == 0
    {
      this.site, this.maxPages, this.maxEmails, this.first := site, maxPages, maxEmails, first;
      queue, seen, visited, sitemapRequests := [], {}, {}, 0;
      candidatesDropped, sitemapLimited, depthLimited := false, false, false;
      offered, loads, reached, recorded := {}, [], {}, {};
      addresses, emails, warnings, limited := map[], [], [], false;
      pages, pagesFailed := [], 0;
    }

    /** `add`. */
    method Add(item: Target)
      modifies this`offered, this`seen, this`queue, this`depthLimited, this`candidatesDropped
      ensures Front() == F.Add(old(Front()), item)
    {
      offered := offered + {item.url};
      if item.url in seen {
        return;
      }
      if item.depth > F.MAX_DEPTH {
        depthLimited := true;
        return;
      }
      if |seen| >= F.MAX_CANDIDATES {
        candidatesDropped := true;
        return;
      }
      seen := seen + {item.url};
      queue := queue + [item];
    }

    method AddAll(items: seq<Target>)
      modifies this`offered, this`seen, this`queue, this`depthLimited, this`candidatesDropped
      ensures Front() == F.AddAll(old(Front()), items)
    {
      for i := 0 to |items|
        invariant Front() == F.AddAll(old(Front()), items[..i])
      {
        Add(items[i]);
        assert items[..i + 1][..i] == items[..i];
      }
      assert items[..|items|] == items;
    }

    /** `orderTargets`. */
    method Order()
      requires F.Inv(Front())
      modifies this`queue
      ensures F.Inv(Front()) && multiset(queue) == multiset(old(queue))
      ensures forall i, j | 0 <= i < j < |queue| :: IsBetter(queue[i], queue[j])
    {
      F.ComesFirstIsAnOrder();
      F.ReorderKeeps(Front(), Sort(queue, F.ComesFirst));
      queue := Sort(queue, F.ComesFirst);
      forall i, j | 0 <= i < j < |queue|
        ensures IsBetter(queue[i], queue[j])
      {
        LessIsByteOrder(queue[j].url, queue[i].url);
      }
    }

    /** One turn of `take`. */
    method Pop() returns (taken: Option<Target>)
      requires queue != []
      modifies this`queue, this`sitemapLimited, this`sitemapRequests, this`visited, this`loads
      ensures Front() == F.Pop(old(Front()))
      ensures loads == old(loads) + if taken.Some? then [taken.value] else []
      ensures taken.Some? ==> taken.value == old(queue)[0]
      ensures |queue| == |old(queue)| - 1
    {
      var item := queue[0];
      queue := queue[1..];
      if item.url in visited {
        return None;
      }
      if item.sitemap {
        if sitemapRequests >= F.MAX_SITEMAPS {
          sitemapLimited := true;
          return None;
        }
        sitemapRequests := sitemapRequests + 1;
      }
      visited := visited + {item.url};
      loads := loads + [item];
      taken := Some(item);
    }

    method TakeHead() returns (taken: Option<Target>)
      requires F.Inv(Front()) && queue != []
      modifies this`queue, this`sitemapLimited, this`sitemapRequests, this`visited, this`loads
      ensures F.Inv(Front()) && queue == old(queue)[1..] && old(visited) <= visited
      ensures loads == old(loads) + if taken.Some? then [taken.value] else []
      ensures taken.Some? ==> taken.value == old(queue)[0]
    {
      F.PopKeeps(Front());
      taken := Pop();
    }

    /** `take`: the next targets to load at once. */
    method Take(concurrency: nat) returns (batch: seq<Target>, ghost gone: seq<Target>)
      requires F.Inv(Front()) && |pages| <= maxPages
      modifies this`queue, this`sitemapLimited, this`sitemapRequests, this`visited, this`loads
      ensures F.Inv(Front()) && loads == old(loads) + batch && old(visited) <= visited
      ensures |batch| <= concurrency && |pages| + Count(batch, IsPage) <= maxPages
      ensures batch == [] && concurrency > 0 && |pages| < maxPages ==> queue == []
      ensures gone + queue == old(queue) && forall c | c in batch :: c in gone
    {
      batch, gone := [], [];
      var planned := |pages|;
      while queue != [] && |batch| < concurrency
        invariant F.Inv(Front()) && loads == old(loads) + batch && old(visited) <= visited
        invariant |batch| <= concurrency && planned == |pages| + Count(batch, IsPage) <= maxPages
        invariant batch == [] ==> planned == |pages|
        invariant gone + queue == old(queue) && forall c | c in batch :: c in gone
        decreases |queue|
      {
        if !queue[0].sitemap && planned >= maxPages {
          break;
        }
        OneMoreGone(gone, queue, batch);
        gone := gone + [queue[0]];
        ghost var before := batch;
        var taken := TakeHead();
        batch, planned := Append(batch, planned, taken);
        Regroup(old(loads), before, if taken.Some? then [taken.value] else []);
      }
    }

    /** `warn`. */
    method Warn(message: string)
      modifies this`warnings, this`limited
      ensures Found() == G.Warn(old(Found()), message)
    {
      if message in warnings {
        return;
      }
      limited := true;
      warnings := warnings + [message];
    }

    /** `record`. */
    method Record(address: string, source: G.Source)
      requires G.Inv(Found())
      modifies this`recorded, this`emails, this`addresses, this`warnings, this`limited
      ensures Found() == G.Record(old(Found()), address, source)
    {
      recorded := recorded + {(address, source)};
      if address !in addresses {
        if |emails| >= maxEmails {
          Warn(G.EMAIL_LIMIT);
          return;
        }
        addresses := addresses[address := |emails|];
        emails := emails + [G.Address(address, [])];
      }
      var position := addresses[address];
      if source in emails[position].sources {
        return;
      }
      emails := emails[position := emails[position].(sources := emails[position].sources + [source])];
      ghost var none: seq<G.Source> := [];
      assert none + [source] == [source];
      assert address !in old(addresses) ==> emails == old(emails) + [G.Address(address, [source])];
    }

    method RecordPair(pair: (string, G.Source))
      requires G.Inv(Found())
      modifies this`recorded, this`emails, this`addresses, this`warnings, this`limited
      ensures G.Inv(Found()) && Found() == G.Record(old(Found()), pair.0, pair.1)
    {
      G.RecordKeeps(Found(), pair.0, pair.1);
      Record(pair.0, pair.1);
    }

    method RecordAll(pairs: seq<(string, G.Source)>)
      requires G.Inv(Found())
      modifies this`recorded, this`emails, this`addresses, this`warnings, this`limited
      ensures Found() == G.RecordAll(old(Found()), pairs)
    {
      ghost var before := Found();
      for i := 0 to |pairs|
        invariant G.Inv(Found()) && Found() == G.RecordAll(before, pairs[..i])
      {
        assert pairs[..i + 1][..i] == pairs[..i];
        RecordPair(pairs[i]);
      }
      assert pairs[..|pairs|] == pairs;
    }

    /** The report's line on a page; a failed page counts as visited too. */
    method ReportPage(t: Target, a: Answer, normalized: string) returns (good: bool)
      requires !t.sitemap && normalized == site.normalize(FinalURL(t, a))
      modifies this`pages, this`pagesFailed
      ensures good == IsGood(site, t, a)
      ensures pages == old(pages) + [PageOf(site, t, a)]
      ensures pagesFailed == old(pagesFailed) + if good then 0 else 1
    {
      good := a.Loaded? && a.status < 400 && normalized != "";
      if !good {
        pagesFailed := pagesFailed + 1;
      }
      pages := pages + [Page(site.publicURL(t.url), site.publicURL(FinalURL(t, a)), good)];
    }

    method Visit(normalized: string)
      modifies this`visited, this`reached
      ensures Front() == F.Reach(old(Front()), normalized)
    {
      visited, reached := visited + {normalized}, reached + {normalized};
    }

    /** The links of a good page. */
    method TakeUpLinks(t: Target, a: Answer, normalized: string)
      requires ReachesFinal(site, t, a) && normalized == site.normalize(FinalURL(t, a))
      modifies this`visited, this`reached, this`offered, this`seen, this`queue, this`depthLimited, this`candidatesDropped
      ensures Front() == ConsumeFront(site, old(Front()), t, a)
    {
      assert Candidates(site, t, a) == LinkTargets(a.links, t.depth + 1);
      Visit(normalized);
      AddAll(LinkTargets(a.links, t.depth + 1));
    }

    /** What a good page says. */
    method TakeUp(t: Target, a: Answer, normalized: string)
      requires G.Inv(Found()) && ReachesFinal(site, t, a) && normalized == site.normalize(FinalURL(t, a))
      modifies this`recorded, this`emails, this`addresses, this`warnings, this`limited,
               this`visited, this`reached, this`offered, this`seen, this`queue, this`depthLimited, this`candidatesDropped
      ensures Front() == ConsumeFront(site, old(Front()), t, a) && Found() == ConsumeFound(site, old(Found()), t, a)
    {
      RecordAll(Pairs(site, t, a));
      TakeUpLinks(t, a, normalized);
    }

    method ConsumePage(t: Target, a: Answer)
      requires G.Inv(Found()) && !t.sitemap
      modifies this
      ensures Front() == ConsumeFront(site, old(Front()), t, a) && Found() == ConsumeFound(site, old(Found()), t, a)
      ensures pages == old(pages) + [PageOf(site, t, a)]
      ensures pagesFailed == old(pagesFailed) + if IsGood(site, t, a) then 0 else 1
    {
      var normalized := site.normalize(FinalURL(t, a));
      var good := ReportPage(t, a, normalized);
      if good {
        TakeUp(t, a, normalized);
      }
    }

    /** `consume`: one answer. */
    method Consume(t: Target, a: Answer)
      requires G.Inv(Found())
      modifies this
      ensures Front() == ConsumeFront(site, old(Front()), t, a) && Found() == ConsumeFound(site, old(Found()), t, a)
      ensures pages == if t.sitemap then old(pages) else old(pages) + [PageOf(site, t, a)]
      ensures pagesFailed == old(pagesFailed) + if !t.sitemap && !IsGood(site, t, a) then 1 else 0
    {
      if !t.sitemap {
        ConsumePage(t, a);
      } else if a.Loaded? && a.status < 400 && site.normalize(FinalURL(t, a)) != "" {
        AddAll(a.listed);
      }
    }
  }
}
