/** What reading one page does to a crawl (`consume` in pkg/sitemap/crawl.go), and what a level of the
    breadth-first crawl keeps. */
module CrawlPages {
  import opened CrawlFrontier

  const PAGE_LIMIT: nat := 200

  /** What loading a page comes to. `hops` are the URLs asked for on the way, by redirects or by a browser
      whose page was not used. `duplicate` is the similarity index's verdict; `explored` are the URLs that
      the browser reached by itself. */
  datatype Answer = Saturated | Failed(hops: seq<string>)
                  | Loaded(status: int, finalURL: string, html: bool, rendered: bool, duplicate: bool,
                           links: seq<string>, explored: seq<string>, hops: seq<string>)

  function Final(t: Target, a: Answer): string {
    if a.Loaded? && a.finalURL != "" then a.finalURL else t.url
  }

  function Normalized(site: Site, t: Target, a: Answer): string {
    site.normalize(Final(t, a), Final(t, a))
  }

  /** The page loaded, and it lies within the site. */
  predicate IsRead(site: Site, t: Target, a: Answer) {
    a.Loaded? && a.status < 400 && Normalized(site, t, a) != ""
  }

  function SourceOf(t: Target, a: Answer): string {
    if a.Loaded? && a.rendered then "rendered" else if t.depth == 0 then "page" else "link"
  }

  function Normalize(site: Site, hrefs: seq<string>, base: string): (r: seq<string>)
    ensures |r| == |hrefs|
  {
    seq(|hrefs|, i requires 0 <= i < |hrefs| => site.normalize(hrefs[i], base))
  }

  /** All links of a page that was read, in the order in which they are looked at. */
  function LinksOf(site: Site, t: Target, a: Answer): seq<string> {
    if IsRead(site, t, a) && a.html then Normalize(site, a.links, Final(t, a)) + Normalize(site, a.explored, Final(t, a)) else []
  }

  predicate Expands(t: Target, a: Answer, maxDepth: nat) {
    t.depth + 1 < maxDepth && a.Loaded? && !a.duplicate
  }

  function ListStart(site: Site, s: State, t: Target, a: Answer): State {
    if t.depth == 0 then Offer(site, s, Normalized(site, t, a), SourceOf(t, a), false, 1) else s
  }

  /** The links of a page, and then what the browser explored. */
  function OfferLinks(site: Site, s: State, t: Target, a: Answer, maxDepth: nat): State
    requires a.Loaded?
  {
    var linked := OfferAll(site, s, Normalize(site, a.links, Final(t, a)), SourceOf(t, a), Expands(t, a, maxDepth), t.depth + 1);
    OfferAll(site, linked, Normalize(site, a.explored, Final(t, a)), "explore", Expands(t, a, maxDepth), t.depth + 1)
  }

  /** `consume`. */
  function Consume(site: Site, s: State, t: Target, a: Answer, maxDepth: nat): State {
    if !IsRead(site, t, a) then s
    else
      var listed := ListStart(site, s, t, a);
      if a.html then OfferLinks(site, listed, t, a, maxDepth) else listed
  }

  /** Told by the answer alone: the page was loaded without an error status, and it ended within the site. */
  predicate WasRead(site: Site, t: Target, a: Answer) {
    && a.Loaded? && a.status < 400
    && var end := if a.finalURL == "" then t.url else a.finalURL; site.normalize(end, end) != ""
  }

  /** A page of HTML that was read, with an href or an explored URL that normalises to `url`. */
  predicate Names(site: Site, t: Target, a: Answer, url: string) {
    && WasRead(site, t, a) && a.html
    && var end := if a.finalURL == "" then t.url else a.finalURL;
       exists href | href in a.links + a.explored :: site.normalize(href, end) == url
  }

  /** The page is no duplicate either, and lies above the last level: its links are to be followed. */
  predicate LeadsTo(site: Site, t: Target, a: Answer, maxDepth: nat, url: string) {
    Names(site, t, a, url) && !a.duplicate && t.depth + 1 < maxDepth
  }

  /** What a page gives to the list: what it names, and itself if it is the start. */
  predicate Says(site: Site, t: Target, a: Answer, url: string) {
    || Names(site, t, a, url)
    || (t.depth == 0 && WasRead(site, t, a) && var end := if a.finalURL == "" then t.url else a.finalURL; site.normalize(end, end) == url)
  }

  /** What the page says is listed, and what it leads to is followed. */
  ghost predicate TakenUp(site: Site, s: State, t: Target, a: Answer, maxDepth: nat) {
    && (forall u | Says(site, t, a, u) :: u in s.listing.offered)
    && (forall u | LeadsTo(site, t, a, maxDepth, u) :: IsFollowed(site, s.plan, u))
  }

  lemma NormalizedFrom(site: Site, hrefs: seq<string>, base: string)
    ensures forall u :: u in Normalize(site, hrefs, base) <==> exists href | href in hrefs :: site.normalize(href, base) == u
  {
    forall u | u in Normalize(site, hrefs, base)
      ensures exists href | href in hrefs :: site.normalize(href, base) == u
    {
      var i :| 0 <= i < |hrefs| && Normalize(site, hrefs, base)[i] == u;
      assert hrefs[i] in hrefs;
    }
    forall href | href in hrefs
      ensures site.normalize(href, base) in Normalize(site, hrefs, base)
    {
      var i :| 0 <= i < |hrefs| && hrefs[i] == href;
      assert Normalize(site, hrefs, base)[i] == site.normalize(href, base);
    }
  }

  lemma LinksAreNamed(site: Site, t: Target, a: Answer)
    ensures forall u :: u in LinksOf(site, t, a) <==> Names(site, t, a, u)
  {
    if WasRead(site, t, a) && a.html {
      NormalizedFrom(site, a.links, Final(t, a));
      NormalizedFrom(site, a.explored, Final(t, a));
      forall href
        ensures href in a.links + a.explored <==> href in a.links || href in a.explored
      {
      }
    }
  }

  ghost predicate NewAreDeeper(s: State, next: State, t: Target, maxDepth: nat) {
    && (forall i | |s.planned| <= i < |next.planned| :: next.planned[i].depth == t.depth + 1)
    && (t.depth + 1 >= maxDepth ==> next.planned == s.planned)
  }

  lemma ListStartKeeps(site: Site, start: string, s: State, t: Target, a: Answer)
    requires StateOk(site, start, s)
    ensures var next := ListStart(site, s, t, a);
            && StateOk(site, start, next) && Grows(s, next) && next.planned == s.planned
            && next.listing.offered == s.listing.offered + if t.depth == 0 then {Normalized(site, t, a)} else {}
  {
    OfferKeeps(site, start, s, Normalized(site, t, a), SourceOf(t, a), false, 1);
  }

  /** Offering a page's links keeps the state good, and what is new lies one level deeper. */
  lemma LinksKeep(site: Site, start: string, s: State, urls: seq<string>, source: string, t: Target, a: Answer, maxDepth: nat)
    requires StateOk(site, start, s)
    ensures var next := OfferAll(site, s, urls, source, Expands(t, a, maxDepth), t.depth + 1);
            StateOk(site, start, next) && Grows(s, next) && NewAreDeeper(s, next, t, maxDepth)
  {
    OfferAllKeeps(site, start, s, urls, source, Expands(t, a, maxDepth), t.depth + 1);
  }

  lemma DeeperStill(s: State, mid: State, next: State, t: Target, maxDepth: nat)
    requires Grows(s, mid) && Grows(mid, next) && NewAreDeeper(s, mid, t, maxDepth) && NewAreDeeper(mid, next, t, maxDepth)
    ensures Grows(s, next) && NewAreDeeper(s, next, t, maxDepth)
  {
    assert forall i | |s.planned| <= i < |mid.planned| :: next.planned[i] == mid.planned[i];
  }

  lemma OfferLinksKeeps(site: Site, start: string, s: State, t: Target, a: Answer, maxDepth: nat)
    requires StateOk(site, start, s) && a.Loaded?
    ensures var next := OfferLinks(site, s, t, a, maxDepth);
            StateOk(site, start, next) && Grows(s, next) && NewAreDeeper(s, next, t, maxDepth)
  {
    var links, explored := Normalize(site, a.links, Final(t, a)), Normalize(site, a.explored, Final(t, a));
    var linked := OfferAll(site, s, links, SourceOf(t, a), Expands(t, a, maxDepth), t.depth + 1);
    LinksKeep(site, start, s, links, SourceOf(t, a), t, a, maxDepth);
    LinksKeep(site, start, linked, explored, "explore", t, a, maxDepth);
    DeeperStill(s, linked, OfferLinks(site, s, t, a, maxDepth), t, maxDepth);
  }

  lemma ConsumeKeeps(site: Site, start: string, s: State, t: Target, a: Answer, maxDepth: nat)
    requires StateOk(site, start, s)
    ensures var next := Consume(site, s, t, a, maxDepth);
            StateOk(site, start, next) && Grows(s, next) && NewAreDeeper(s, next, t, maxDepth)
  {
    if IsRead(site, t, a) {
      var listed := ListStart(site, s, t, a);
      ListStartKeeps(site, start, s, t, a);
      if a.html {
        OfferLinksKeeps(site, start, listed, t, a, maxDepth);
        DeeperStill(s, listed, OfferLinks(site, listed, t, a, maxDepth), t, maxDepth);
      }
    }
  }

  lemma ConsumeLists(site: Site, s: State, t: Target, a: Answer, maxDepth: nat)
    ensures forall u :: u in Consume(site, s, t, a, maxDepth).listing.offered <==> u in s.listing.offered || Says(site, t, a, u)
  {
    LinksAreNamed(site, t, a);
    if IsRead(site, t, a) && a.html {
      var listed := ListStart(site, s, t, a);
      var links, explored := Normalize(site, a.links, Final(t, a)), Normalize(site, a.explored, Final(t, a));
      var linked := OfferAll(site, listed, links, SourceOf(t, a), Expands(t, a, maxDepth), t.depth + 1);
      OfferAllLists(site, listed, links, SourceOf(t, a), Expands(t, a, maxDepth), t.depth + 1);
      OfferAllLists(site, linked, explored, "explore", Expands(t, a, maxDepth), t.depth + 1);
    }
  }

  lemma ConsumeFollows(site: Site, s: State, t: Target, a: Answer, maxDepth: nat, u: string)
    requires u in LinksOf(site, t, a) && Expands(t, a, maxDepth)
    ensures IsFollowed(site, Consume(site, s, t, a, maxDepth).plan, u)
  {
    var listed := ListStart(site, s, t, a);
    var links, explored := Normalize(site, a.links, Final(t, a)), Normalize(site, a.explored, Final(t, a));
    var linked := OfferAll(site, listed, links, SourceOf(t, a), true, t.depth + 1);
    if u in links {
      var i :| 0 <= i < |links| && links[i] == u;
      OfferAllFollows(site, listed, links, SourceOf(t, a), t.depth + 1, i);
      OfferAllKeepsFollowing(site, linked, explored, "explore", true, t.depth + 1, u);
    } else {
      var i :| 0 <= i < |explored| && explored[i] == u;
      OfferAllFollows(site, linked, explored, "explore", t.depth + 1, i);
    }
  }

  lemma ConsumeTells(site: Site, s: State, t: Target, a: Answer, maxDepth: nat)
    ensures var next := Consume(site, s, t, a, maxDepth);
            && TakenUp(site, next, t, a, maxDepth)
            && forall u :: u in next.listing.offered <==> u in s.listing.offered || Says(site, t, a, u)
  {
    ConsumeLists(site, s, t, a, maxDepth);
    LinksAreNamed(site, t, a);
    forall u | LeadsTo(site, t, a, maxDepth, u)
      ensures IsFollowed(site, Consume(site, s, t, a, maxDepth).plan, u)
    {
      ConsumeFollows(site, s, t, a, maxDepth, u);
    }
  }

  lemma {:induction false} OfferAllEnqueues(site: Site, s: State, urls: seq<string>, source: string, expand: bool, depth: nat)
    ensures forall e | e in OfferAll(site, s, urls, source, expand, depth).plan.enqueued ::
              e in s.plan.enqueued || (expand && e.depth == depth && e.url in urls)
  {
    if urls != [] {
      OfferAllEnqueues(site, s, urls[..|urls| - 1], source, expand, depth);
      assert urls == urls[..|urls| - 1] + [urls[|urls| - 1]];
    }
  }

  /** Whatever reading a page queues is something that the page leads to, one level below it. */
  lemma ConsumeEnqueues(site: Site, s: State, t: Target, a: Answer, maxDepth: nat)
    ensures forall e | e in Consume(site, s, t, a, maxDepth).plan.enqueued ::
              e in s.plan.enqueued || (e.depth == t.depth + 1 && LeadsTo(site, t, a, maxDepth, e.url))
  {
    if IsRead(site, t, a) && a.html {
      LinksAreNamed(site, t, a);
      var listed := ListStart(site, s, t, a);
      var links, explored := Normalize(site, a.links, Final(t, a)), Normalize(site, a.explored, Final(t, a));
      var linked := OfferAll(site, listed, links, SourceOf(t, a), Expands(t, a, maxDepth), t.depth + 1);
      OfferAllEnqueues(site, listed, links, SourceOf(t, a), Expands(t, a, maxDepth), t.depth + 1);
      OfferAllEnqueues(site, linked, explored, "explore", Expands(t, a, maxDepth), t.depth + 1);
    }
  }

  /** Everything read so far has been taken up, and nothing was offered that no page said. */
  ghost predicate History(site: Site, load: Target -> Answer, maxDepth: nat, before: set<string>, consumed: seq<Target>, s: State) {
    && (forall t | t in consumed :: TakenUp(site, s, t, load(t), maxDepth))
    && before <= s.listing.offered
    && (forall u | u in s.listing.offered :: u in before || SomeSays(site, load, consumed, u))
  }

  predicate SomeSays(site: Site, load: Target -> Answer, consumed: seq<Target>, url: string) {
    exists t | t in consumed :: Says(site, t, load(t), url)
  }

  lemma ConsumeKeepsHistory(site: Site, start: string, load: Target -> Answer, maxDepth: nat, before: set<string>, consumed: seq<Target>, s: State, t: Target)
    requires StateOk(site, start, s) && History(site, load, maxDepth, before, consumed, s)
    ensures History(site, load, maxDepth, before, consumed + [t], Consume(site, s, t, load(t), maxDepth))
  {
    var next := Consume(site, s, t, load(t), maxDepth);
    ConsumeKeeps(site, start, s, t, load(t), maxDepth);
    ConsumeTells(site, s, t, load(t), maxDepth);
    forall r | r in consumed
      ensures TakenUp(site, next, r, load(r), maxDepth)
    {
      assert TakenUp(site, s, r, load(r), maxDepth);
      forall u | LeadsTo(site, r, load(r), maxDepth, u)
        ensures IsFollowed(site, next.plan, u)
      {
        GrowsOn(site, s, s, next, u);
      }
    }
    assert t in consumed + [t];
    forall u | u in next.listing.offered
      ensures u in before || SomeSays(site, load, consumed + [t], u)
    {
      if SomeSays(site, load, consumed, u) {
        var r :| r in consumed && Says(site, r, load(r), u);
        assert r in consumed + [t];
      }
    }
  }
}
