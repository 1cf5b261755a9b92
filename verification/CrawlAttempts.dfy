/** Which crawls there are. How many pages one may try to load: pages that cannot be read are not counted
    against the page limit, so what bounds the attempts is the request's limit on URLs. And which pages are
    loaded though robots.txt forbids them. */
module CrawlAttempts {
  import opened Wrappers
  import opened CrawlFrontier
  import opened CrawlPages
  import opened CrawlLevels
  import opened CrawlMoves
  import opened CrawlTheorems
  import Robots

  /** The names of the links of one page, all different. */
  function Name(i: nat): (s: string)
    ensures |s| == i + 1 && s[0] == 'a' && s != "" && s != "/"
  {
    seq(i + 1, _ => 'a')
  }

  lemma NamesDiffer(i: nat, j: nat)
    ensures Name(i) == Name(j) <==> i == j
  {
    assert |Name(i)| == i + 1 && |Name(j)| == j + 1;
  }

  function Names(n: nat): seq<string> {
    seq(n, i requires 0 <= i < n => Name(i))
  }

  function Targets(n: nat): seq<Target> {
    seq(n, i requires 0 <= i < n => Target(Name(i), 1))
  }

  /** A site whose start page is excluded from the list, and has the shape of its first twenty links. */
  const LINKS_ONLY: Site :=
    Site((href, base) => href, url => url != "/", url => if |url| <= SHAPE_SAMPLE_LIMIT then "/" else url, url => None, [], url => false)

  /** The start page links to `n` pages, none of which can be loaded. */
  function BrokenLinks(n: nat, maxDepth: nat): Setting {
    Setting(LINKS_ONLY, "/", "/",
            (t: Target) => if t.depth == 0 then Loaded(200, "", true, false, false, Names(n), [], []) else Failed([]), maxDepth, {})
  }

  const START: Target := Target("/", 0)

  function Offered(s: State, k: nat): State {
    OfferAll(LINKS_ONLY, s, Names(k), "page", true, 1)
  }

  /** Nothing is known of the names from `k` on, and the sampler lets the next one pass. */
  ghost predicate IsNew(s: State, k: nat) {
    && (forall i: nat {:trigger Name(i)} | k <= i :: Name(i) !in s.listing.seen && Name(i) !in s.plan.queued)
    && Taken(s.plan, "/") == (if k < SHAPE_SAMPLE_LIMIT then k else SHAPE_SAMPLE_LIMIT)
    && (forall i: nat {:trigger Name(i)} | k <= i && SHAPE_SAMPLE_LIMIT <= i :: Name(i) !in s.plan.counts)
  }

  /** `next` is `s` with `k` names listed and planned. */
  ghost predicate HasListed(s: State, next: State, k: nat) {
    && |next.listing.urls| == k && next.listing.limit == s.listing.limit && !next.listing.limited && IsNew(next, k)
    && next.planned == s.planned + Targets(k)
  }

  lemma OfferName(s: State, k: nat)
    requires k < s.listing.limit && |s.listing.urls| == k && !s.listing.limited && IsNew(s, k)
    ensures var next := Offer(LINKS_ONLY, s, Name(k), "page", true, 1);
            && |next.listing.urls| == k + 1 && next.listing.limit == s.listing.limit && !next.listing.limited && IsNew(next, k + 1)
            && next.planned == s.planned + [Target(Name(k), 1)]
  {
    var next := Offer(LINKS_ONLY, s, Name(k), "page", true, 1);
    assert Name(k) !in s.listing.seen;
    assert LINKS_ONLY.shape(Name(k)) == if k < SHAPE_SAMPLE_LIMIT then "/" else Name(k);
    forall i: nat {:trigger Name(i)} | k + 1 <= i
      ensures Name(i) !in next.listing.seen && Name(i) !in next.plan.queued
      ensures SHAPE_SAMPLE_LIMIT <= i ==> Name(i) !in next.plan.counts
    {
      NamesDiffer(i, k);
    }
  }

  lemma OfferNext(s: State, before: State, k: nat)
    requires k < s.listing.limit && HasListed(s, before, k)
    ensures HasListed(s, Offer(LINKS_ONLY, before, Name(k), "page", true, 1), k + 1)
  {
    OfferName(before, k);
    assert Targets(k + 1) == Targets(k) + [Target(Name(k), 1)];
    assert s.planned + Targets(k) + [Target(Name(k), 1)] == s.planned + (Targets(k) + [Target(Name(k), 1)]);
  }

  lemma OfferedOnce(s: State, k: nat)
    ensures Offered(s, k + 1) == Offer(LINKS_ONLY, Offered(s, k), Name(k), "page", true, 1)
  {
    assert Names(k + 1)[..k] == Names(k);
  }

  lemma {:induction false} OfferNames(s: State, k: nat)
    requires HasListed(s, s, 0) && k <= s.listing.limit
    ensures HasListed(s, Offered(s, k), k)
  {
    if k > 0 {
      OfferNames(s, k - 1);
      OfferNext(s, Offered(s, k - 1), k - 1);
      OfferedOnce(s, k - 1);
    }
  }

  /** The start page has been read and its `n` links are the next level. */
  ghost predicate AfterStart(c: Setting, m: Moment, n: nat, limit: nat) {
    && IsReached(c, m) && m.progress.fetched == m.consumed == [START] && !m.progress.cut && m.progress.crawled == 1
    && m.progress.state.listing.limit == limit && |m.progress.state.listing.urls| == n
    && m.progress.level == [] && m.progress.next == Targets(n)
  }

  lemma StartTaken(c: Setting, listing: Listing) returns (m: Moment)
    requires IsStart(c, listing) && !IsFull(listing)
    ensures IsReached(c, m)
    ensures m == Moment(Progress(Begin(c, listing).progress.state, [Target(c.first, 0)], [], [], false, 0, 0), 0, [])
  {
    var first := Begin(c, listing);
    StartIsReached(c, listing);
    NextIsReached(c, first, Take);
    m := Apply(c, first, Take);
    assert [] + first.progress.level[..1] == [Target(c.first, 0)] && first.progress.level[1..] == [];
  }

  lemma StartOffers(n: nat, maxDepth: nat, limit: nat)
    requires n < limit && maxDepth >= 2
    ensures var c := BrokenLinks(n, maxDepth);
            var s := State(NothingListed(limit), JustStart("/"), [START]);
            var next := Consume(LINKS_ONLY, s, START, c.load(START), maxDepth);
            && next.planned == [START] + Targets(n) && |next.listing.urls| == n && next.listing.limit == limit
  {
    var c := BrokenLinks(n, maxDepth);
    var s := State(NothingListed(limit), JustStart("/"), [START]);
    var listed := ListStart(LINKS_ONLY, s, START, c.load(START));
    assert listed.planned == s.planned && listed.plan == s.plan && listed.listing == s.listing.(offered := {"/"});
    assert listed.planned + Targets(0) == listed.planned;
    OfferNames(listed, n);
    assert Normalize(LINKS_ONLY, Names(n), "/") == Names(n);
  }

  lemma StartRead(n: nat, maxDepth: nat, limit: nat) returns (m: Moment)
    requires n < limit && maxDepth >= 2
    ensures AfterStart(BrokenLinks(n, maxDepth), m, n, limit)
  {
    var c := BrokenLinks(n, maxDepth);
    var taken := StartTaken(c, NothingListed(limit));
    StartOffers(n, maxDepth, limit);
    NextIsReached(c, taken, Read);
    m := Apply(c, taken, Read);
    assert [] + ([START] + Targets(n))[1..] == Targets(n);
  }

  /** A page that cannot be read leaves the crawl as it was. */
  lemma FailureIsFree(c: Setting, p: Progress, t: Target)
    requires !IsRead(c.site, t, c.load(t))
    ensures AfterConsume(c, p, t) == p
  {
    assert p.next + [] == p.next;
  }

  /** The start page has been read, and its `n` links are being tried. */
  ghost predicate IsTrying(c: Setting, m: Moment, n: nat, limit: nat) {
    && IsReached(c, m) && !m.progress.cut && m.progress.crawled == 1
    && m.progress.state.listing.limit == limit && |m.progress.state.listing.urls| == n
    && m.progress.fetched + m.progress.level == [START] + Targets(n)
    && [START] <= m.consumed <= m.progress.fetched
  }

  lemma LinksFail(n: nat, maxDepth: nat, m: Moment, limit: nat)
    requires IsTrying(BrokenLinks(n, maxDepth), m, n, limit)
    ensures forall i | |m.consumed| <= i < |m.progress.fetched| :: BrokenLinks(n, maxDepth).load(m.progress.fetched[i]).Failed?
  {
    forall i | |m.consumed| <= i < |m.progress.fetched|
      ensures m.progress.fetched[i].depth == 1
    {
      assert m.progress.fetched[i] == ([START] + Targets(n))[i];
    }
  }

  /** The rest of a batch is read. */
  lemma {:induction false} FinishBatch(n: nat, maxDepth: nat, m: Moment, limit: nat) returns (done: Moment)
    requires IsTrying(BrokenLinks(n, maxDepth), m, n, limit)
    ensures IsTrying(BrokenLinks(n, maxDepth), done, n, limit)
    ensures done == m.(consumed := m.progress.fetched)
    decreases |m.progress.fetched| - |m.consumed|
  {
    done := m;
    if m.consumed != m.progress.fetched {
      var c, t := BrokenLinks(n, maxDepth), m.progress.fetched[|m.consumed|];
      LinksFail(n, maxDepth, m, limit);
      FailureIsFree(c, m.progress, t);
      NextIsReached(c, m, Read);
      assert Apply(c, m, Read) == m.(consumed := m.consumed + [t]);
      done := FinishBatch(n, maxDepth, m.(consumed := m.consumed + [t]), limit);
    }
  }

  /** All links are tried, in batches. */
  lemma {:induction false} TryAll(n: nat, maxDepth: nat, m: Moment, limit: nat) returns (done: Moment)
    requires n < limit && IsTrying(BrokenLinks(n, maxDepth), m, n, limit) && IsBetweenBatches(m)
    ensures IsTrying(BrokenLinks(n, maxDepth), done, n, limit) && done.progress.level == []
    decreases |m.progress.level|
  {
    done := m;
    if m.progress.level != [] {
      var c, size := BrokenLinks(n, maxDepth), BatchSize(m.progress);
      NextIsReached(c, m, Take);
      var taken := Apply(c, m, Take);
      assert taken.progress.fetched + taken.progress.level == m.progress.fetched + m.progress.level;
      var read := FinishBatch(n, maxDepth, taken, limit);
      done := TryAll(n, maxDepth, read, limit);
    }
  }

  lemma TryLinks(n: nat, limit: nat, maxDepth: nat) returns (m: Moment)
    requires n < limit && maxDepth >= 2
    ensures IsTrying(BrokenLinks(n, maxDepth), m, n, limit) && m.progress.fetched == [START] + Targets(n)
  {
    var c := BrokenLinks(n, maxDepth);
    var read := StartRead(n, maxDepth, limit);
    NextIsReached(c, read, Descend);
    m := TryAll(n, maxDepth, Apply(c, read, Descend), limit);
    assert m.progress.fetched + [] == m.progress.fetched;
  }

  /** With one page read and no level left early, a crawl can try as many pages as the limit allows. */
  lemma AttemptsReachTheLimit(limit: nat, maxDepth: nat) returns (c: Setting, m: Moment)
    requires limit > 0 && maxDepth >= 2
    ensures c.maxDepth == maxDepth && IsReached(c, m) && m.progress.state.listing.limit == limit
    ensures |m.progress.fetched| == limit && m.progress.crawled == 1 && !m.progress.cut
  {
    c := BrokenLinks(limit - 1, maxDepth);
    m := TryLinks(limit - 1, limit, maxDepth);
  }

  /** Some crawl to the given depth, with the given limit on URLs, tries more than `n` pages. */
  ghost predicate CanTryMoreThan(n: nat, limit: nat, maxDepth: nat) {
    exists c, m :: IsReached(c, m) && c.maxDepth == maxDepth && m.progress.state.listing.limit == limit && |m.progress.fetched| > n
  }

  lemma StartIsTried(limit: nat, maxDepth: nat)
    requires limit > 0 && maxDepth > 0
    ensures CanTryMoreThan(0, limit, maxDepth)
  {
    var c := BrokenLinks(0, maxDepth);
    var m := StartTaken(c, NothingListed(limit));
    assert IsReached(c, m);
  }

  /** The exact bound on attempts: the limit, and the start alone when there is one level only. */
  lemma AttemptsAreBoundedByTheLimit(n: nat, limit: nat, maxDepth: nat)
    requires maxDepth > 0
    ensures CanTryMoreThan(n, limit, maxDepth) <==> n < limit && (n == 0 || maxDepth >= 2)
  {
    if n < limit && maxDepth >= 2 {
      var c, m := AttemptsReachTheLimit(limit, maxDepth);
    } else if n < limit && n == 0 {
      StartIsTried(limit, maxDepth);
    }
    if CanTryMoreThan(n, limit, maxDepth) {
      var c, m :| IsReached(c, m) && c.maxDepth == maxDepth && m.progress.state.listing.limit == limit && |m.progress.fetched| > n;
      ReachedIsOk(c, m);
      BudgetsAreKept(c, m.progress, m.depth, m.consumed);
    }
  }

  /** The page limit that the documentation states for attempts holds exactly for requests that ask for
      at most that many URLs, or for the start page alone. */
  lemma PageLimitBoundsAttemptsIff(limit: nat, maxDepth: nat)
    requires maxDepth > 0
    ensures (forall c, m | IsReached(c, m) && c.maxDepth == maxDepth && m.progress.state.listing.limit == limit :: |m.progress.fetched| <= PAGE_LIMIT)
            <==> limit <= PAGE_LIMIT || maxDepth < 2
  {
    AttemptsAreBoundedByTheLimit(PAGE_LIMIT, limit, maxDepth);
  }

  lemma {:induction false} DistinctSize(targets: seq<Target>)
    requires forall i, j | 0 <= i < j < |targets| :: targets[i] != targets[j]
    ensures |set t | t in targets| == |targets|
  {
    if targets != [] {
      var before, last := targets[..|targets| - 1], targets[|targets| - 1];
      DistinctSize(before);
      assert (set t | t in targets) == (set t | t in before) + {last};
    }
  }

  /** Twenty URLs of the start's own shape are tried besides it. */
  lemma StartIsOneMore(limit: nat, maxDepth: nat) returns (c: Setting, m: Moment)
    requires limit > SHAPE_SAMPLE_LIMIT && maxDepth >= 2
    ensures c.maxDepth == maxDepth && IsReached(c, m) && m.progress.state.listing.limit == limit
    ensures |OfOneShape(c, m.progress, c.site.shape(c.first))| == SHAPE_SAMPLE_LIMIT + 1
  {
    var n := SHAPE_SAMPLE_LIMIT;
    c := BrokenLinks(n, maxDepth);
    m := TryLinks(n, limit, maxDepth);
    var tried := m.progress.fetched;
    forall i, j | 0 <= i < j < |tried|
      ensures tried[i] != tried[j]
    {
      assert tried[j] == Target(Name(j - 1), 1);
      if i > 0 {
        NamesDiffer(i - 1, j - 1);
      }
    }
    DistinctSize(tried);
    assert OfOneShape(c, m.progress, "/") == set t | t in tried;
  }

  /** Some crawl to the given depth, with the given limit on URLs, tries more than twenty URLs of one shape. */
  ghost predicate CanOversample(limit: nat, maxDepth: nat) {
    exists c, m, shape ::
      IsReached(c, m) && c.maxDepth == maxDepth && m.progress.state.listing.limit == limit && |OfOneShape(c, m.progress, shape)| > SHAPE_SAMPLE_LIMIT
  }

  /** With the start among them, the URLs of one shape can be twenty-one, for exactly the requests that leave
      room for that many. */
  lemma OversamplesIff(limit: nat, maxDepth: nat)
    requires maxDepth > 0
    ensures CanOversample(limit, maxDepth) <==> limit > SHAPE_SAMPLE_LIMIT && maxDepth >= 2
  {
    if limit > SHAPE_SAMPLE_LIMIT && maxDepth >= 2 {
      var c, m := StartIsOneMore(limit, maxDepth);
    }
    if CanOversample(limit, maxDepth) {
      var c, m, shape :| IsReached(c, m) && c.maxDepth == maxDepth && m.progress.state.listing.limit == limit
                         && |OfOneShape(c, m.progress, shape)| > SHAPE_SAMPLE_LIMIT;
      ReachedIsOk(c, m);
      BudgetsAreKept(c, m.progress, m.depth, m.consumed);
      FewDistinct(m.progress.fetched, OfOneShape(c, m.progress, shape));
    }
  }

  /** Whatever the robots rules say, a start page that can be read is read, unless the sitemaps have
      filled the list. */
  lemma StartIsRead(c: Setting, listing: Listing) returns (m: Moment)
    requires IsStart(c, listing) && !IsFull(listing) && !c.load(Target(c.first, 0)).Saturated?
    ensures IsReached(c, m) && m.consumed == m.progress.fetched == [Target(c.first, 0)]
    ensures m.progress.crawled == if IsRead(c.site, Target(c.first, 0), c.load(Target(c.first, 0))) then 1 else 0
  {
    var taken := StartTaken(c, listing);
    NextIsReached(c, taken, Read);
    m := Apply(c, taken, Read);
  }

  /** `Disallow: /`. */
  const ALL_BLOCKED: Site := Site((href, base) => href, url => true, url => url, url => Some("/"), [Robots.Rule(false, "/")], url => true)

  /** The documented rule that blocked pages are never fetched fails at the start. */
  lemma BlockedStartIsRead(limit: nat) returns (c: Setting, m: Moment)
    requires limit > 0
    ensures IsReached(c, m) && c.site.blocks(c.first) && Target(c.first, 0) in m.consumed && m.progress.crawled == 1
  {
    c := Setting(ALL_BLOCKED, "/", "/", (t: Target) => Loaded(200, "", false, false, false, [], [], []), 1, {});
    forall url {:trigger Verdict(c.site, url)}
      ensures Verdict(c.site, url)
    {
      var d := Robots.Rule(false, "/");
      assert d in c.site.rules && Robots.Matches("", "") && Robots.Matches(d.pattern, "/") && Robots.OutweighsAllows(c.site.rules, "/", d);
    }
    m := StartIsRead(c, NothingListed(limit));
  }

  /** Where loading a target leads besides the target's own URL: redirects, where they end, and what the
      browser explores. Nobody asks the robots rules there. */
  function Elsewhere(t: Target, a: Answer): set<string> {
    match a
    case Saturated => {}
    case Failed(hops) => (set u | u in hops) - {t.url}
    case Loaded(_, _, _, _, _, _, explored, hops) => ((set u | u in hops) + {Final(t, a)} + (set u | u in explored)) - {t.url}
  }

  /** All URLs that reading a target loads. */
  function Loads(t: Target, a: Answer): set<string> {
    {t.url} + Elsewhere(t, a)
  }

  /** `governs` tells the URLs of the host whose robots.txt it is; the rules themselves look at the path alone. */
  predicate IsDisallowed(site: Site, governs: string -> bool, url: string) {
    governs(url) && site.blocks(url)
  }

  predicate LoadsDisallowed(c: Setting, governs: string -> bool, t: Target) {
    exists u | u in Loads(t, c.load(t)) :: IsDisallowed(c.site, governs, u)
  }

  predicate IsLedAstray(c: Setting, governs: string -> bool, t: Target) {
    exists u | u in Elsewhere(t, c.load(t)) :: IsDisallowed(c.site, governs, u)
  }

  lemma ConsumedIsFetched(p: Progress, depth: nat, consumed: seq<Target>, t: Target)
    requires BatchOk(p, depth, consumed) && t in consumed
    ensures t in p.fetched
  {
    var i :| 0 <= i < |consumed| && consumed[i] == t;
    assert p.fetched[i] == t;
  }

  lemma FetchedIsAsked(c: Setting, p: Progress, depth: nat, consumed: seq<Target>, t: Target)
    requires ProgressOk(c, p, depth, consumed) && t in p.fetched
    ensures t == Target(c.first, 0) || !c.site.blocks(t.url)
  {
    TargetsAreSound(c, p, depth, consumed);
  }

  lemma OnlyTheStartIsUnasked(c: Setting, m: Moment, t: Target)
    requires IsReached(c, m) && t in m.consumed && t != Target(c.first, 0)
    ensures !c.site.blocks(t.url)
  {
    assert MomentOk(c, m) by {
      ReachedIsOk(c, m);
    }
    ConsumedIsFetched(m.progress, m.depth, m.consumed, t);
    FetchedIsAsked(c, m.progress, m.depth, m.consumed, t);
  }

  lemma LoadsDisallowedIff(c: Setting, governs: string -> bool, m: Moment, t: Target)
    requires IsReached(c, m) && t in m.consumed
    ensures LoadsDisallowed(c, governs, t)
            <==> (t == Target(c.first, 0) && IsDisallowed(c.site, governs, c.first)) || IsLedAstray(c, governs, t)
  {
    if t != Target(c.first, 0) {
      OnlyTheStartIsUnasked(c, m, t);
    }
  }

  /** A crawl loads a disallowed page exactly when its start, once read, is one, or when loading one of its
      targets leads to one elsewhere. */
  lemma DisallowedIsLoadedIff(c: Setting, governs: string -> bool, m: Moment)
    requires IsReached(c, m)
    ensures (exists t | t in m.consumed :: LoadsDisallowed(c, governs, t))
            <==> || (Target(c.first, 0) in m.consumed && IsDisallowed(c.site, governs, c.first))
                 || exists t | t in m.consumed :: IsLedAstray(c, governs, t)
  {
    forall t | t in m.consumed
      ensures LoadsDisallowed(c, governs, t)
              <==> (t == Target(c.first, 0) && IsDisallowed(c.site, governs, c.first)) || IsLedAstray(c, governs, t)
    {
      LoadsDisallowedIff(c, governs, m, t);
    }
  }

  /** Without redirects and exploration, it is the start alone. */
  lemma WithoutDetoursOnlyTheStart(c: Setting, governs: string -> bool, m: Moment)
    requires IsReached(c, m) && forall t | t in m.consumed :: Elsewhere(t, c.load(t)) == {}
    ensures (exists t | t in m.consumed :: LoadsDisallowed(c, governs, t))
            <==> Target(c.first, 0) in m.consumed && IsDisallowed(c.site, governs, c.first)
  {
    DisallowedIsLoadedIff(c, governs, m);
  }

  /** `Disallow: /b`. */
  const B_BLOCKED: Site :=
    Site((href, base) => href, url => true, url => url, url => Some(url), [Robots.Rule(false, "/b")], url => Robots.Matches("/b", url))

  lemma BlockedByItsRules()
    ensures FollowsRules(B_BLOCKED) && B_BLOCKED.blocks("/b") && !B_BLOCKED.blocks("/a")
  {
    var d := Robots.Rule(false, "/b");
    forall url {:trigger Verdict(B_BLOCKED, url)}
      ensures B_BLOCKED.blocks(url) <==> Verdict(B_BLOCKED, url)
    {
      assert B_BLOCKED.rules == [d] && d in B_BLOCKED.rules && Robots.OutweighsAllows(B_BLOCKED.rules, url, d);
    }
    assert "/b"[1..] == "b" && "b"[1..] == "" && "/a"[1..] == "a";
    assert Robots.Matches("", "") && Robots.Matches("b", "b") && !Robots.Matches("b", "a");
  }

  /** A start page that is allowed, with the given answer. */
  function Answering(a: Answer): Setting {
    Setting(B_BLOCKED, "/a", "/a", (t: Target) => a, 1, {})
  }

  lemma AllowedStartIsRead(limit: nat, a: Answer) returns (m: Moment)
    requires limit > 0 && a.Loaded? && a.status < 400
    ensures IsReached(Answering(a), m) && m.consumed == [Target("/a", 0)] && m.progress.crawled == 1
    ensures !B_BLOCKED.blocks("/a") && B_BLOCKED.blocks("/b")
  {
    BlockedByItsRules();
    m := StartIsRead(Answering(a), NothingListed(limit));
  }

  /** It fails at an allowed page that redirects: the disallowed page is loaded, read and counted. */
  lemma RedirectIsFollowed(limit: nat) returns (c: Setting, m: Moment)
    requires limit > 0
    ensures IsReached(c, m) && m.progress.crawled == 1 && !c.site.blocks(c.first)
    ensures m.consumed == [Target(c.first, 0)]
    ensures var t := m.consumed[0]; IsRead(c.site, t, c.load(t)) && c.site.blocks(Normalized(c.site, t, c.load(t)))
  {
    var a := Loaded(200, "/b", false, false, false, [], [], []);
    c := Answering(a);
    m := AllowedStartIsRead(limit, a);
  }

  /** And at a page that the browser explores, though no redirect leads there. */
  lemma ExploredIsLoaded(limit: nat) returns (c: Setting, m: Moment)
    requires limit > 0
    ensures IsReached(c, m) && m.progress.crawled == 1 && !c.site.blocks(c.first)
    ensures m.consumed == [Target(c.first, 0)]
    ensures var t := m.consumed[0]; Final(t, c.load(t)) == t.url && c.load(t).Loaded? && exists u | u in c.load(t).explored :: c.site.blocks(u)
  {
    var a := Loaded(200, "", true, true, false, [], ["/b"], []);
    c := Answering(a);
    m := AllowedStartIsRead(limit, a);
    assert "/b" in a.explored;
  }
}
