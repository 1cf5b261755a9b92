/** `Find` of pkg/emails/service.go: the whole search, from the request to the report. */
module EmailFind {
  import opened Wrappers
  import opened Counting
  import opened Ordering
  import F = EmailFrontier
  import G = EmailFindings
  import opened EmailSearch

  const PAGE_LIMIT: string := "page limit reached"
  const CANDIDATE_LIMIT: string := "candidate URL limit reached"
  const SITEMAP_LIMIT: string := "sitemap request limit reached"
  const DEPTH_LIMIT: string := "crawl depth limit reached"
  const DURATION_LIMIT: string := "duration limit reached"

  /** The parts of a request that steer the search. `sitemap` is the site's own sitemap URL. */
  datatype Request = Request(url: string, sitemap: string, maxPages: int, maxEmails: int, hasProfile: bool)

  datatype Error = InvalidRequest | QueueFull | Cancelled

  /** What the search begins with. */
  function FirstTargets(request: Request, maxPages: int): set<Target> {
    {F.Target(request.url, 0, 200, false)} + if request.hasProfile || maxPages <= 1 then {} else {F.Target(request.sitemap, 0, 110, true)}
  }

  function Limit(value: int, byDefault: nat, maximum: nat): (r: Option<nat>)
    requires 1 <= byDefault <= maximum
    ensures r.Some? ==> 1 <= r.value <= maximum
  {
    if value == 0 then Some(byDefault) else if 1 <= value <= maximum then Some(value) else None
  }

  /** Everything up to `consumed` has been taken up, and nothing else. */
  ghost predicate TakenUpTo(site: Site, load: Target -> Answer, first: set<Target>, consumed: seq<Target>, f: F.Frontier, g: G.Findings, pages: seq<Page>, failed: nat) {
    && F.Inv(f) && G.Inv(g)
    && History(site, load, first, consumed, f, g)
    && (forall t | t in consumed :: !load(t).Saturated?)
    && pages == Rows(site, load, consumed) && |pages| == Count(consumed, IsPage)
    && failed == Count(pages, HasFailed)
  }

  lemma ConsumingKeeps(site: Site, load: Target -> Answer, first: set<Target>, consumed: seq<Target>, f: F.Frontier, g: G.Findings, pages: seq<Page>, failed: nat, t: Target)
    requires TakenUpTo(site, load, first, consumed, f, g, pages, failed) && !load(t).Saturated?
    ensures var a := load(t);
            && TakenUpTo(site, load, first, consumed + [t], ConsumeFront(site, f, t, a), ConsumeFound(site, g, t, a),
                         if t.sitemap then pages else pages + [PageOf(site, t, a)],
                         failed + if !t.sitemap && !IsGood(site, t, a) then 1 else 0)
            && ConsumeFront(site, f, t, a).loads == f.loads && f.offered <= ConsumeFront(site, f, t, a).offered
  {
    ConsumeFrontKeeps(site, f, t, load(t));
    G.RecordAllKeeps(g, Pairs(site, t, load(t)));
    ConsumeKeepsHistory(site, load, first, consumed, f, g, t);
    CountAppend(consumed, t, IsPage);
    CountAppend(pages, PageOf(site, t, load(t)), HasFailed);
    assert (consumed + [t])[..|consumed|] == consumed;
  }

  lemma TakingKeeps(site: Site, load: Target -> Answer, first: set<Target>, consumed: seq<Target>, f: F.Frontier, f': F.Frontier, g: G.Findings, pages: seq<Page>, failed: nat)
    requires TakenUpTo(site, load, first, consumed, f, g, pages, failed) && F.Inv(f')
    requires f'.offered == f.offered && f'.reached == f.reached && f.visited <= f'.visited
    requires forall c | c in f'.queue || c in f'.loads :: c in f.queue || c in f.loads
    requires f'.seen == f.seen && f'.depthLimited == f.depthLimited
    ensures TakenUpTo(site, load, first, consumed, f', g, pages, failed)
  {
    forall t | t in consumed
      ensures TakenUp(site, f', g, t, load(t))
    {
      assert TakenUp(site, f, g, t, load(t));
    }
  }

  ghost predicate RunOk(s: Search, load: Target -> Answer, consumed: seq<Target>)
    reads s
  {
    && TakenUpTo(s.site, load, s.first, consumed, s.Front(), s.Found(), s.pages, s.pagesFailed)
    && OnlyEmailWarnings(s.warnings)
  }

  /** What can be warned of before the search ends. */
  ghost predicate OnlyEmailWarnings(warnings: seq<string>) {
    forall m | m in warnings :: m == G.EMAIL_LIMIT
  }

  lemma ConsumingWarns(site: Site, g: G.Findings, t: Target, a: Answer)
    requires G.Inv(g) && OnlyEmailWarnings(g.warnings)
    ensures OnlyEmailWarnings(ConsumeFound(site, g, t, a).warnings)
  {
    G.RecordAllKeeps(g, Pairs(site, t, a));
  }

  method ConsumeOne(s: Search, load: Target -> Answer, ghost consumed: seq<Target>, t: Target)
    requires RunOk(s, load, consumed) && !load(t).Saturated?
    modifies s
    ensures RunOk(s, load, consumed + [t])
    ensures s.loads == old(s.loads) && old(s.offered) <= s.offered
    ensures |s.pages| == old(|s.pages|) + if t.sitemap then 0 else 1
  {
    ConsumingWarns(s.site, s.Found(), t, load(t));
    ConsumingKeeps(s.site, load, s.first, consumed, s.Front(), s.Found(), s.pages, s.pagesFailed, t);
    s.Consume(t, load(t));
  }

  method ConsumeNext(s: Search, load: Target -> Answer, batch: seq<Target>, i: nat, ghost consumed: seq<Target>)
    requires i < |batch| && !load(batch[i]).Saturated? && RunOk(s, load, consumed + batch[..i])
    modifies s
    ensures RunOk(s, load, consumed + batch[..i + 1])
    ensures s.loads == old(s.loads) && old(s.offered) <= s.offered
    ensures |s.pages| - Count(batch[..i + 1], IsPage) == old(|s.pages|) - Count(batch[..i], IsPage)
  {
    assert batch[..i + 1] == batch[..i] + [batch[i]];
    assert consumed + batch[..i + 1] == (consumed + batch[..i]) + [batch[i]];
    CountAppend(batch[..i], batch[i], IsPage);
    ConsumeOne(s, load, consumed + batch[..i], batch[i]);
  }

  /** The results of one batch, in order; a full queue ends the search. */
  method ConsumeBatch(s: Search, load: Target -> Answer, batch: seq<Target>, ghost consumed: seq<Target>) returns (full: bool)
    requires RunOk(s, load, consumed + batch[..0])
    modifies s
    ensures s.loads == old(s.loads) && old(s.offered) <= s.offered
    ensures full ==> exists t | t in batch :: load(t).Saturated?
    ensures !full ==> RunOk(s, load, consumed + batch[..|batch|]) && |s.pages| == old(|s.pages|) + Count(batch[..|batch|], IsPage)
  {
    var i := 0;
    ghost var done := consumed + batch[..0];
    full := false;
    while i < |batch| && !full
      invariant i <= |batch| && s.loads == old(s.loads) && old(s.offered) <= s.offered
      invariant done == consumed + batch[..i]
      invariant if full then i < |batch| && load(batch[i]).Saturated? else RunOk(s, load, done)
      invariant |s.pages| == old(|s.pages|) + Count(batch[..i], IsPage)
      decreases |batch| - i, !full
    {
      if load(batch[i]).Saturated? {
        full := true;
      } else {
        ConsumeNext(s, load, batch, i, consumed);
        i, done := i + 1, consumed + batch[..i + 1];
      }
    }
  }

  lemma SameMembers(a: seq<Target>, b: seq<Target>)
    requires multiset(a) == multiset(b)
    ensures forall c :: c in a <==> c in b
  {
    forall c
      ensures c in a <==> c in b
    {
      assert c in a <==> c in multiset(a);
    }
  }

  /** The worklist is ordered, and the next batch taken from it: nothing that waits is better. */
  method OrderAndTake(s: Search, concurrency: nat) returns (batch: seq<Target>)
    requires F.Inv(s.Front()) && |s.pages| < s.maxPages && concurrency > 0
    modifies s`queue, s`sitemapLimited, s`sitemapRequests, s`visited, s`loads
    ensures F.Inv(s.Front()) && s.loads == old(s.loads) + batch && old(s.visited) <= s.visited
    ensures forall c | c in s.queue || c in batch :: c in old(s.queue)
    ensures forall c, d | c in batch && d in s.queue :: IsBetter(c, d)
    ensures |s.pages| + Count(batch, IsPage) <= s.maxPages
    ensures batch == [] ==> s.queue == []
  {
    s.Order();
    ghost var ordered := s.queue;
    SameMembers(ordered, old(s.queue));
    ghost var gone;
    batch, gone := s.Take(concurrency);
    assert forall c | c in s.queue || c in gone :: c in ordered;
    forall c, d | c in batch && d in s.queue
      ensures IsBetter(c, d)
    {
      var i :| 0 <= i < |gone| && gone[i] == c;
      var j :| 0 <= j < |s.queue| && s.queue[j] == d;
      assert ordered[i] == c && ordered[|gone| + j] == d;
    }
  }

  /** The batch of one turn of the loop of `Find`. */
  method NextBatch(s: Search, load: Target -> Answer, concurrency: nat) returns (batch: seq<Target>)
    requires RunOk(s, load, s.loads) && |s.pages| < s.maxPages && concurrency > 0
    modifies s`queue, s`sitemapLimited, s`sitemapRequests, s`visited, s`loads
    ensures RunOk(s, load, old(s.loads)) && s.loads == old(s.loads) + batch
    ensures |s.pages| + Count(batch, IsPage) <= s.maxPages
    ensures batch == [] ==> s.queue == []
  {
    ghost var f, consumed := s.Front(), s.loads;
    batch := OrderAndTake(s, concurrency);
    TakingKeeps(s.site, load, s.first, consumed, f, s.Front(), s.Found(), s.pages, s.pagesFailed);
  }

  /** One turn of that loop. */
  method Turn(s: Search, load: Target -> Answer, concurrency: nat) returns (stop: bool, full: bool)
    requires RunOk(s, load, s.loads) && |s.pages| < s.maxPages && concurrency > 0
    modifies s
    ensures old(s.offered) <= s.offered
    ensures full ==> exists t | t in s.loads :: load(t).Saturated?
    ensures !full ==> RunOk(s, load, s.loads) && |s.pages| <= s.maxPages
    ensures !full ==> if stop then s.queue == [] else |s.loads| > old(|s.loads|)
  {
    ghost var consumed := s.loads;
    var batch := NextBatch(s, load, concurrency);
    assert consumed + batch[..0] == consumed && batch[..|batch|] == batch;
    stop, full := batch == [], false;
    if !stop {
      full := ConsumeBatch(s, load, batch, consumed);
    }
  }

  /** The loop of `Find`; the deadline passes after some number of turns, or right after the last one. */
  method Drive(s: Search, load: Target -> Answer, concurrency: nat, deadline: nat) returns (full: bool, expired: bool)
    requires RunOk(s, load, s.loads) && |s.pages| <= s.maxPages && concurrency > 0
    modifies s
    ensures old(s.offered) <= s.offered
    ensures full ==> exists t | t in s.loads :: load(t).Saturated?
    ensures !full ==> RunOk(s, load, s.loads) && |s.pages| <= s.maxPages
    ensures !full && !expired ==> s.queue == [] || |s.pages| >= s.maxPages || |s.emails| >= s.maxEmails
  {
    full := false;
    var stop, turns := false, 0;
    while s.queue != [] && |s.pages| < s.maxPages && |s.emails| < s.maxEmails && turns < deadline && !stop && !full
      invariant old(s.offered) <= s.offered
      invariant full ==> exists t | t in s.loads :: load(t).Saturated?
      invariant !full ==> RunOk(s, load, s.loads) && |s.pages| <= s.maxPages
      invariant !full && stop ==> s.queue == []
      decreases !full, !stop, F.MAX_CANDIDATES - |s.loads|
    {
      ghost var before := |s.loads|;
      stop, full := Turn(s, load, concurrency);
      if !full {
        F.LoadsAreBounded(s.Front());
      }
      turns := turns + 1;
    }
    expired := turns + 1 >= deadline;
  }

  method WarnIf(s: Search, condition: bool, message: string)
    requires G.Inv(s.Found()) && (condition && message == G.EMAIL_LIMIT ==> |s.emails| == s.maxEmails)
    modifies s`warnings, s`limited
    ensures G.Inv(s.Found())
    ensures s.limited <==> old(s.limited) || condition
    ensures forall m :: m in s.warnings <==> m in old(s.warnings) || (condition && m == message)
  {
    if condition {
      G.WarnKeeps(s.Found(), message);
      s.Warn(message);
    }
  }

  /** A search that hit no limit is over. */
  predicate HitsALimit(s: Search)
    reads s
  {
    || |s.emails| >= s.maxEmails || (s.queue != [] && |s.pages| >= s.maxPages)
    || s.candidatesDropped || s.sitemapLimited || s.depthLimited
  }

  /** What each warning of `finish` says. */
  predicate IsMeant(s: Search, message: string)
    reads s
  {
    || (message == G.EMAIL_LIMIT && |s.emails| >= s.maxEmails)
    || (message == PAGE_LIMIT && s.queue != [] && |s.pages| >= s.maxPages)
    || (message == CANDIDATE_LIMIT && s.candidatesDropped)
    || (message == SITEMAP_LIMIT && s.sitemapLimited)
    || (message == DEPTH_LIMIT && s.depthLimited)
  }

  lemma MessagesDiffer()
    ensures var all := [G.EMAIL_LIMIT, PAGE_LIMIT, CANDIDATE_LIMIT, SITEMAP_LIMIT, DEPTH_LIMIT, DURATION_LIMIT];
            forall i, j | 0 <= i < j < |all| :: all[i] != all[j]
  {
    assert G.EMAIL_LIMIT[0] == 'e' && PAGE_LIMIT[0] == 'p' && CANDIDATE_LIMIT[..2] == "ca";
    assert SITEMAP_LIMIT[0] == 's' && DEPTH_LIMIT[..2] == "cr" && DURATION_LIMIT[0] == 'd';
    assert "ca"[1] != "cr"[1];
  }

  /** The warnings of `finish`. */
  method WarnOfLimits(s: Search)
    requires G.Inv(s.Found())
    modifies s`warnings, s`limited
    ensures G.Inv(s.Found())
    ensures s.limited <==> old(s.limited) || HitsALimit(s)
    ensures G.EMAIL_LIMIT in s.warnings ==> |s.emails| == s.maxEmails
    ensures forall m :: m in s.warnings <==> m in old(s.warnings) || IsMeant(s, m)
  {
    MessagesDiffer();
    WarnIf(s, |s.emails| >= s.maxEmails, G.EMAIL_LIMIT);
    WarnIf(s, s.queue != [] && |s.pages| >= s.maxPages, PAGE_LIMIT);
    WarnIf(s, s.candidatesDropped, CANDIDATE_LIMIT);
    WarnIf(s, s.sitemapLimited, SITEMAP_LIMIT);
    WarnIf(s, s.depthLimited, DEPTH_LIMIT);
  }

  /** A report fails when there were pages and all failed; it is partial when some failed or a limit was hit. */
  ghost predicate OutcomeFits(r: Report) {
    && r.pagesFailed == Count(r.pages, HasFailed)
    && (r.outcome == "failed" <==> r.pages != [] && forall p | p in r.pages :: !p.ok)
    && (r.outcome == "ok" <==> !r.limited && forall p | p in r.pages :: p.ok)
    && r.outcome in {"ok", "partial", "failed"}
    && (r.limited <==> r.warnings != [])
  }

  /** Addresses in byte order, each once, and their sources in the byte order of URL and place. */
  ghost predicate InOrder(emails: seq<G.Address>) {
    && (forall i, j | 0 <= i < j < |emails| :: IsSmaller(emails[i].address, emails[j].address))
    && (forall e, i, j | e in emails && 0 <= i < j < |e.sources| :: ComesBefore(e.sources[i], e.sources[j]))
  }

  ghost predicate ComesBefore(a: G.Source, b: G.Source) {
    if a.url == b.url then !IsSmaller(b.foundIn, a.foundIn) else IsSmaller(a.url, b.url)
  }

  lemma SourcesInOrder(a: G.Source, b: G.Source)
    requires G.SourceOrder(a, b)
    ensures ComesBefore(a, b)
  {
    LessIsByteOrder(b.foundIn, a.foundIn);
    LessIsByteOrder(a.url, b.url);
  }

  lemma SortedIsInOrder(g: G.Findings)
    requires G.Inv(g)
    ensures InOrder(G.Sorted(g.emails))
  {
    var emails := G.Sorted(g.emails);
    G.SortedIsSorted(g.emails);
    G.SortedNamesEachOnce(g);
    forall i, j | 0 <= i < j < |emails|
      ensures IsSmaller(emails[i].address, emails[j].address)
    {
      LessIsByteOrder(emails[i].address, emails[j].address);
    }
    forall e, i, j | e in emails && 0 <= i < j < |e.sources|
      ensures ComesBefore(e.sources[i], e.sources[j])
    {
      SourcesInOrder(e.sources[i], e.sources[j]);
    }
  }

  /** The outcome of `finish`. */
  method OutcomeOf(pages: seq<Page>, pagesFailed: nat, limited: bool) returns (outcome: string)
    requires pagesFailed == Count(pages, HasFailed)
    ensures outcome == "failed" <==> pages != [] && forall p | p in pages :: !p.ok
    ensures outcome == "ok" <==> !limited && forall p | p in pages :: p.ok
    ensures outcome in {"ok", "partial", "failed"}
  {
    outcome := "ok";
    if pagesFailed > 0 || limited {
      outcome := "partial";
    }
    if |pages| > 0 && pagesFailed == |pages| {
      outcome := "failed";
    }
    AllCount(pages, HasFailed);
    NoneCount(pages, HasFailed);
    assert forall p :: p in pages <==> exists i :: 0 <= i < |pages| && pages[i] == p;
    assert "ok"[0] != "partial"[0] && "ok"[0] != "failed"[0] && "partial"[0] != "failed"[0];
  }

  lemma SortedTells(emails: seq<G.Address>)
    ensures forall a, x :: G.Tells(G.Sorted(emails), a, x) <==> G.Tells(emails, a, x)
    ensures |G.Sorted(emails)| == |emails|
  {
    G.SortedIsSorted(emails);
    forall a, x
      ensures G.Tells(G.Sorted(emails), a, x) <==> G.Tells(emails, a, x)
    {
      G.SortedTellsTheSame(emails, a, x);
    }
  }

  /** `finish`. */
  method Finish(s: Search) returns (r: Report)
    requires G.Inv(s.Found()) && s.pagesFailed == Count(s.pages, HasFailed)
    modifies s`warnings, s`limited
    ensures OutcomeFits(r) && InOrder(r.emails) && r.pages == s.pages && |r.emails| == |s.emails|
    ensures r.limited <==> old(s.limited) || HitsALimit(s)
    ensures forall a, x :: G.Tells(r.emails, a, x) <==> G.Tells(s.emails, a, x)
    ensures forall m :: m in r.warnings <==> m in old(s.warnings) || IsMeant(s, m)
    ensures G.EMAIL_LIMIT in r.warnings <==> G.EMAIL_LIMIT in s.warnings
    ensures G.Inv(s.Found())
  {
    WarnOfLimits(s);
    var outcome := OutcomeOf(s.pages, s.pagesFailed, s.limited);
    SortedIsInOrder(s.Found());
    SortedTells(s.emails);
    r := Report(outcome, G.Sorted(s.emails), s.pages, s.pagesFailed, s.warnings, s.limited);
  }

  /** Nothing is loaded twice, and every budget is kept. */
  ghost predicate KeepsBudgets(r: Report, maxPages: nat, maxEmails: nat, loads: seq<Target>) {
    && |r.pages| <= maxPages && |r.pages| == Count(loads, IsPage) && |r.emails| <= maxEmails
    && |loads| <= F.MAX_CANDIDATES && F.EachOnce(loads)
    && Count(loads, F.IsSitemap) <= F.MAX_SITEMAPS
    && forall t | t in loads :: t.depth <= F.MAX_DEPTH
  }

  /** A report warns of a limit only if it was met. */
  ghost predicate LimitsAreReal(site: Site, load: Target -> Answer, first: set<Target>, loads: seq<Target>, r: Report, maxPages: nat, maxEmails: nat) {
    && (forall m | m in r.warnings :: m in {G.EMAIL_LIMIT, PAGE_LIMIT, CANDIDATE_LIMIT, SITEMAP_LIMIT, DEPTH_LIMIT, DURATION_LIMIT})
    && (G.EMAIL_LIMIT in r.warnings ==> |r.emails| == maxEmails)
    && (PAGE_LIMIT in r.warnings ==> |r.pages| == maxPages)
    && (SITEMAP_LIMIT in r.warnings ==> Count(loads, F.IsSitemap) == 4)
    && (DEPTH_LIMIT in r.warnings ==> GoesTooDeep(site, load, first, loads))
    && (CANDIDATE_LIMIT in r.warnings ==> exists urls: set<string> :: |urls| == 1000 && forall u | u in urls :: UrlHasSource(site, load, first, loads, u))
  }

  lemma WarningsAreReal(s: Search, load: Target -> Answer, r: Report, before: seq<string>)
    requires IsHistory(s, load) && |s.pages| <= s.maxPages && r.pages == s.pages && |r.emails| == |s.emails|
    requires forall m | m in before :: m == G.EMAIL_LIMIT || m == DURATION_LIMIT
    requires G.EMAIL_LIMIT in r.warnings ==> |s.emails| == s.maxEmails
    requires forall m :: m in r.warnings <==> m in before || IsMeant(s, m)
    ensures LimitsAreReal(s.site, load, s.first, s.loads, r, s.maxPages, s.maxEmails)
  {
    MessagesDiffer();
    var all := [G.EMAIL_LIMIT, PAGE_LIMIT, CANDIDATE_LIMIT, SITEMAP_LIMIT, DEPTH_LIMIT, DURATION_LIMIT];
    assert all[0] != all[1] && all[0] != all[2] && all[0] != all[3] && all[0] != all[4];
    assert all[1] != all[2] && all[1] != all[3] && all[1] != all[4] && all[1] != all[5];
    assert all[2] != all[3] && all[2] != all[4] && all[2] != all[5];
    assert all[3] != all[4] && all[3] != all[5] && all[4] != all[5];
    assert s.candidatesDropped ==> |s.seen| == 1000;
  }

  /** The report tells exactly what the loaded pages say; only the address limit may hide some of it. */
  ghost predicate TellsExactly(site: Site, load: Target -> Answer, loads: seq<Target>, r: Report) {
    && (forall a, s | G.Tells(r.emails, a, s) :: Says(site, load, loads, (a, s)))
    && (G.EMAIL_LIMIT !in r.warnings ==> forall a, s | Says(site, load, loads, (a, s)) :: G.Tells(r.emails, a, s))
  }

  ghost predicate IsVisited(site: Site, load: Target -> Answer, loads: seq<Target>, url: string) {
    F.IsQueued(loads, url) || LeadsTo(site, load, loads, url)
  }

  /** Every link of every page and sitemap that was read has itself been visited. */
  ghost predicate IsClosed(site: Site, load: Target -> Answer, loads: seq<Target>) {
    forall t, c | t in loads && Offers(site, t, load(t), c) :: IsVisited(site, load, loads, c.url)
  }

  /** The search tells what all of its loads said. */
  ghost predicate IsHistory(s: Search, load: Target -> Answer)
    reads s
  {
    TakenUpTo(s.site, load, s.first, s.loads, s.Front(), s.Found(), s.pages, s.pagesFailed)
  }

  lemma HistoryTells(s: Search, load: Target -> Answer, r: Report)
    requires IsHistory(s, load)
    requires forall a, x :: G.Tells(r.emails, a, x) <==> G.Tells(s.emails, a, x)
    requires G.EMAIL_LIMIT in r.warnings <==> G.EMAIL_LIMIT in s.warnings
    ensures TellsExactly(s.site, load, s.loads, r)
  {
    forall a, x
      ensures G.Tells(s.emails, a, x) ==> Says(s.site, load, s.loads, (a, x))
      ensures G.EMAIL_LIMIT !in r.warnings && Says(s.site, load, s.loads, (a, x)) ==> G.Tells(s.emails, a, x)
    {
      G.TellsIsRecorded(s.Found(), a, x);
      if Says(s.site, load, s.loads, (a, x)) {
        var t, i: nat :| t in s.loads && SaysAt(s.site, t, load(t), i, (a, x));
        assert TakenUp(s.site, s.Front(), s.Found(), t, load(t));
      }
    }
  }

  lemma HistoryCloses(s: Search, load: Target -> Answer)
    requires IsHistory(s, load)
    requires s.queue == [] && !s.candidatesDropped && !s.sitemapLimited && !s.depthLimited
    ensures IsClosed(s.site, load, s.loads)
    ensures forall u | u in s.offered :: IsVisited(s.site, load, s.loads, u)
  {
    F.DoneMeansVisited(s.Front());
    forall u | u in s.visited
      ensures IsVisited(s.site, load, s.loads, u)
    {
    }
    forall t, c | t in s.loads && Offers(s.site, t, load(t), c)
      ensures c.url in s.offered
    {
      assert TakenUp(s.site, s.Front(), s.Found(), t, load(t));
    }
  }

  lemma WarningKeeps(site: Site, load: Target -> Answer, first: set<Target>, consumed: seq<Target>, f: F.Frontier, g: G.Findings, g': G.Findings, pages: seq<Page>, failed: nat)
    requires TakenUpTo(site, load, first, consumed, f, g, pages, failed) && G.Inv(g') && g'.recorded == g.recorded
    ensures TakenUpTo(site, load, first, consumed, f, g', pages, failed)
  {
    forall t | t in consumed
      ensures TakenUp(site, f, g', t, load(t))
    {
      assert TakenUp(site, f, g, t, load(t));
    }
  }

  /** What a report has to be, for a search that began with `first` and loaded `loads`. */
  ghost predicate ReportIsRight(site: Site, load: Target -> Answer, first: set<Target>, loads: seq<Target>, r: Report, maxPages: nat, maxEmails: nat) {
    && KeepsBudgets(r, maxPages, maxEmails, loads)
    && (forall t | t in loads :: HasSource(site, load, first, loads, t) && !load(t).Saturated?)
    && TellsExactly(site, load, loads, r) && r.pages == Rows(site, load, loads)
    && OutcomeFits(r) && InOrder(r.emails)
    && LimitsAreReal(site, load, first, loads, r, maxPages, maxEmails)
    && (!r.limited ==> IsClosed(site, load, loads) && forall c | c in first :: IsVisited(site, load, loads, c.url))
  }

  /** The end of `Find`: the duration warning, and `finish`. */
  method Close(s: Search, load: Target -> Answer, expired: bool) returns (r: Report)
    requires RunOk(s, load, s.loads) && |s.pages| <= s.maxPages
    requires !expired ==> s.queue == [] || |s.pages| >= s.maxPages || |s.emails| >= s.maxEmails
    requires forall c | c in s.first :: c.url in s.offered
    modifies s`warnings, s`limited
    ensures ReportIsRight(s.site, load, s.first, s.loads, r, s.maxPages, s.maxEmails)
  {
    ghost var g := s.Found();
    MessagesDiffer();
    WarnIf(s, expired, DURATION_LIMIT);
    ghost var before := s.warnings;
    r := Finish(s);
    WarningKeeps(s.site, load, s.first, s.loads, s.Front(), g, s.Found(), s.pages, s.pagesFailed);
    Conclude(s, load, r, expired);
    WarningsAreReal(s, load, r, before);
  }

  /** `Find`, once the request's limits are known. */
  method Run(site: Site, request: Request, maxPages: nat, maxEmails: nat, load: Target -> Answer, workers: int, deadline: nat, cancelled: bool)
    returns (answer: Result<Report, Error>, ghost loads: seq<Target>)
    ensures answer != Err(InvalidRequest)
    ensures answer == Err(QueueFull) ==> exists t | t in loads :: load(t).Saturated?
    ensures answer.Ok? ==> ReportIsRight(site, load, FirstTargets(request, maxPages), loads, answer.value, maxPages, maxEmails)
  {
    var s := Begin(site, request, maxPages, maxEmails, load);
    var concurrency := if request.hasProfile then 1 else Clamp(workers);
    var full, expired := Drive(s, load, concurrency, deadline);
    loads := s.loads;
    if full {
      return Err(QueueFull), loads;
    }
    if cancelled {
      return Err(Cancelled), loads;
    }
    var report := Close(s, load, expired);
    answer := Ok(report);
  }

  /** `Find`: `load` stands for the loader, which is asked for each URL at most once. */
  method Find(site: Site, request: Request, load: Target -> Answer, workers: int, deadline: nat, cancelled: bool)
    returns (answer: Result<Report, Error>, ghost loads: seq<Target>)
    ensures answer == Err(InvalidRequest) <==> !(0 <= request.maxPages <= 100) || !(0 <= request.maxEmails <= 1000)
    ensures answer == Err(QueueFull) ==> exists t | t in loads :: load(t).Saturated?
    ensures answer.Ok? ==>
              var maxPages := if request.maxPages == 0 then 20 else request.maxPages;
              var maxEmails := if request.maxEmails == 0 then 100 else request.maxEmails;
              ReportIsRight(site, load, FirstTargets(request, maxPages), loads, answer.value, maxPages, maxEmails)
  {
    loads := [];
    var maxPages, maxEmails := Limit(request.maxPages, 20, 100), Limit(request.maxEmails, 100, 1000);
    if maxPages == None || maxEmails == None {
      return Err(InvalidRequest), [];
    }
    answer, loads := Run(site, request, maxPages.value, maxEmails.value, load, workers, deadline, cancelled);
  }

  function Clamp(workers: int): (r: nat)
    ensures 1 <= r <= 4 && (1 <= workers <= 4 ==> r == workers)
  {
    if workers < 1 then 1 else if workers > 4 then 4 else workers
  }

  lemma FirstKeepsHistory(site: Site, load: Target -> Answer, first: set<Target>, f: F.Frontier, g: G.Findings, t: Target)
    requires F.Inv(f) && History(site, load, first, [], f, g) && t in first
    ensures History(site, load, first, [], F.Add(f, t), g)
  {
    assert HasSource(site, load, first, [], t);
    assert forall c | c in F.Add(f, t).queue :: c in f.queue || c == t;
  }

  lemma OfferingKeeps(site: Site, load: Target -> Answer, first: set<Target>, f: F.Frontier, g: G.Findings, pages: seq<Page>, failed: nat, t: Target)
    requires TakenUpTo(site, load, first, [], f, g, pages, failed) && t in first
    ensures TakenUpTo(site, load, first, [], F.Add(f, t), g, pages, failed)
  {
    assert F.Inv(F.Add(f, t)) by {
      F.AddKeeps(f, t);
    }
    assert History(site, load, first, [], F.Add(f, t), g) by {
      FirstKeepsHistory(site, load, first, f, g, t);
    }
  }

  method Offer(s: Search, load: Target -> Answer, t: Target)
    requires RunOk(s, load, []) && t in s.first
    modifies s`offered, s`seen, s`queue, s`depthLimited, s`candidatesDropped
    ensures RunOk(s, load, []) && s.offered == old(s.offered) + {t.url}
  {
    OfferingKeeps(s.site, load, s.first, s.Front(), s.Found(), s.pages, s.pagesFailed, t);
    s.Add(t);
  }

  method NewSearch(site: Site, request: Request, maxPages: nat, maxEmails: nat, load: Target -> Answer) returns (s: Search)
    ensures fresh(s) && s.site == site && s.maxPages == maxPages && s.maxEmails == maxEmails && s.first == FirstTargets(request, maxPages)
    ensures RunOk(s, load, []) && s.loads == [] && s.pages == []
  {
    s := new Search(site, maxPages, maxEmails, FirstTargets(request, maxPages));
  }

  /** The first candidates: the start and, without a profile, the site's sitemap. */
  method Begin(site: Site, request: Request, maxPages: nat, maxEmails: nat, load: Target -> Answer) returns (s: Search)
    ensures fresh(s) && s.site == site && s.maxPages == maxPages && s.maxEmails == maxEmails && s.first == FirstTargets(request, maxPages)
    ensures RunOk(s, load, []) && s.loads == [] && s.pages == [] && forall c | c in s.first :: c.url in s.offered
  {
    s := NewSearch(site, request, maxPages, maxEmails, load);
    Offer(s, load, F.Target(request.url, 0, 200, false));
    if !request.hasProfile && s.maxPages > 1 {
      Offer(s, load, F.Target(request.sitemap, 0, 110, true));
    }
  }

  lemma Conclude(s: Search, load: Target -> Answer, r: Report, expired: bool)
    requires IsHistory(s, load) && |s.pages| <= s.maxPages
    requires r.pages == s.pages && |r.emails| == |s.emails|
    requires forall a, x :: G.Tells(r.emails, a, x) <==> G.Tells(s.emails, a, x)
    requires G.EMAIL_LIMIT in r.warnings <==> G.EMAIL_LIMIT in s.warnings
    requires expired || HitsALimit(s) ==> r.limited
    requires !expired ==> s.queue == [] || |s.pages| >= s.maxPages || |s.emails| >= s.maxEmails
    ensures KeepsBudgets(r, s.maxPages, s.maxEmails, s.loads) && TellsExactly(s.site, load, s.loads, r)
    ensures !r.limited ==> IsClosed(s.site, load, s.loads) && forall u | u in s.offered :: IsVisited(s.site, load, s.loads, u)
  {
    F.LoadsAreBounded(s.Front());
    HistoryTells(s, load, r);
    if !r.limited {
      HistoryCloses(s, load);
    }
  }
}
