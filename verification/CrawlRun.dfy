/** The loops of `crawl` in pkg/sitemap/crawl.go, and what a whole crawl keeps. */
module CrawlRun {
  import opened CrawlFrontier
  import opened CrawlPages
  import opened CrawlLevels
  import opened CrawlMoves
  import opened SiteCrawl

  ghost predicate RunOk(c: Crawler, depth: nat, consumed: seq<Target>)
    reads c
  {
    && c.site == c.setting.site && FollowsRules(c.site)
    && IsReached(c.setting, Moment(c.Now(), depth, consumed))
  }

  lemma NextAfterConsume(front: seq<Target>, next: seq<Target>, later: seq<Target>)
    requires front + next <= front + later
    ensures later == next + (front + later)[|front + next|..]
  {
    assert next == (front + next)[|front|..];
    assert later == (front + later)[|front|..];
  }

  lemma IsAfterConsume(c: Setting, p: Progress, q: Progress, t: Target)
    requires q.state == Consume(c.site, p.state, t, c.load(t), c.maxDepth) && p.state.planned <= q.state.planned
    requires p.state.planned == (p.fetched + p.level) + p.next && q.state.planned == (q.fetched + q.level) + q.next
    requires q.fetched == p.fetched && q.level == p.level && q.cut == p.cut
    requires q.crawled == p.crawled + (if IsRead(c.site, t, c.load(t)) then 1 else 0)
    requires q.rendered == p.rendered + (if IsRead(c.site, t, c.load(t)) && c.load(t).rendered then 1 else 0)
    ensures q == AfterConsume(c, p, t)
  {
    NextAfterConsume(p.fetched + p.level, p.next, q.next);
  }

  method ConsumeStep(c: Crawler, t: Target)
    requires c.site == c.setting.site && FollowsRules(c.site) && StateOk(c.site, c.setting.start, c.Value())
    modifies c
    ensures c.Now() == AfterConsume(c.setting, old(c.Now()), t)
    ensures c.level == old(c.level) && c.fetched == old(c.fetched) && c.pageLimitHit == old(c.pageLimitHit)
    ensures c.cut == old(c.cut) && old(c.crawled) <= c.crawled
  {
    ghost var before := c.Now();
    ConsumeKeeps(c.site, c.setting.start, c.Value(), t, c.setting.load(t), c.setting.maxDepth);
    c.Consume(t, c.setting.load(t));
    IsAfterConsume(c.setting, before, c.Now(), t);
  }

  /** Reading a target that was fetched and not yet consumed is a move. */
  lemma ReadIsMove(c: Setting, p: Progress, depth: nat, consumed: seq<Target>, t: Target)
    requires IsReached(c, Moment(p, depth, consumed)) && consumed + [t] <= p.fetched && !c.load(t).Saturated?
    ensures IsReached(c, Moment(AfterConsume(c, p, t), depth, consumed + [t]))
  {
    var m := Moment(p, depth, consumed);
    assert p.fetched[|consumed|] == (consumed + [t])[|consumed|];
    NextIsReached(c, m, Read);
    assert Apply(c, m, Read) == Moment(AfterConsume(c, p, t), depth, consumed + [t]);
  }

  method ConsumeOne(c: Crawler, depth: nat, ghost consumed: seq<Target>, t: Target)
    requires RunOk(c, depth, consumed) && t.depth == depth && !c.setting.load(t).Saturated? && c.crawled < PAGE_LIMIT
    requires consumed + [t] <= c.fetched
    modifies c
    ensures RunOk(c, depth, consumed + [t]) && c.crawled <= old(c.crawled) + 1
    ensures c.level == old(c.level) && c.fetched == old(c.fetched) && c.pageLimitHit == old(c.pageLimitHit)
    ensures c.cut == old(c.cut) && old(c.crawled) <= c.crawled
  {
    ReachedIsOk(c.setting, Moment(c.Now(), depth, consumed));
    ReadIsMove(c.setting, c.Now(), depth, consumed, t);
    ConsumeStep(c, t);
  }

  method ConsumeNext(c: Crawler, depth: nat, batch: seq<Target>, i: nat, ghost consumed: seq<Target>)
    requires i < |batch| && RunOk(c, depth, consumed + batch[..i]) && c.fetched == consumed + batch
    requires batch[i].depth == depth && !c.setting.load(batch[i]).Saturated? && c.crawled < PAGE_LIMIT
    modifies c
    ensures RunOk(c, depth, consumed + batch[..i + 1]) && c.crawled <= old(c.crawled) + 1
    ensures c.level == old(c.level) && c.fetched == old(c.fetched) && c.pageLimitHit == old(c.pageLimitHit)
    ensures c.cut == old(c.cut) && old(c.crawled) <= c.crawled
  {
    assert consumed + batch[..i + 1] == (consumed + batch[..i]) + [batch[i]];
    ConsumeOne(c, depth, consumed + batch[..i], batch[i]);
  }

  /** The results of one batch, in order. */
  method ConsumeBatch(c: Crawler, depth: nat, batch: seq<Target>, ghost consumed: seq<Target>) returns (full: bool)
    requires RunOk(c, depth, consumed + batch[..0]) && c.crawled + |batch| <= PAGE_LIMIT && c.fetched == consumed + batch
    requires forall t | t in batch :: t.depth == depth
    modifies c
    ensures c.level == old(c.level) && c.fetched == old(c.fetched) && c.pageLimitHit == old(c.pageLimitHit)
    ensures c.cut == old(c.cut) && old(c.crawled) <= c.crawled
    ensures full ==> exists t | t in batch :: c.setting.load(t).Saturated?
    ensures !full ==> RunOk(c, depth, consumed + batch[..|batch|])
  {
    var i := 0;
    full := false;
    while i < |batch| && !full
      invariant i <= |batch| && c.crawled + |batch| - i <= PAGE_LIMIT
      invariant c.level == old(c.level) && c.fetched == old(c.fetched) && c.pageLimitHit == old(c.pageLimitHit)
      invariant c.cut == old(c.cut) && old(c.crawled) <= c.crawled
      invariant if full then i < |batch| && c.setting.load(batch[i]).Saturated? else RunOk(c, depth, consumed + batch[..i])
      decreases |batch| - i, !full
    {
      if c.setting.load(batch[i]).Saturated? {
        full := true;
      } else {
        ConsumeNext(c, depth, batch, i, consumed);
        i := i + 1;
      }
    }
  }

  lemma LevelIsOfDepth(c: Setting, m: Moment)
    requires IsReached(c, m)
    ensures forall t | t in m.progress.level :: t.depth == m.depth
  {
    ReachedIsOk(c, m);
  }

  lemma TakeIsMove(c: Setting, p: Progress, depth: nat, size: nat)
    requires IsReached(c, Moment(p, depth, p.fetched)) && p.level != [] && !IsFull(p.state.listing) && p.crawled < PAGE_LIMIT
    requires size == BatchSize(p)
    ensures IsReached(c, Moment(AfterTake(p, size), depth, p.fetched))
  {
    NextIsReached(c, Moment(p, depth, p.fetched), Take);
  }

  /** The next batch of a level: no page is planned beyond the page limit. */
  method TakeBatch(c: Crawler, depth: nat, ghost consumed: seq<Target>) returns (batch: seq<Target>)
    requires RunOk(c, depth, consumed) && consumed == c.fetched && c.level != [] && !c.Full() && c.crawled < PAGE_LIMIT
    modifies c`level, c`fetched
    ensures RunOk(c, depth, consumed) && batch != [] && c.crawled + |batch| <= PAGE_LIMIT
    ensures c.fetched == old(c.fetched) + batch && c.fetched + c.level == old(c.fetched + c.level) && |c.level| < |old(c.level)|
    ensures forall t | t in batch :: t.depth == depth
  {
    var size := if |c.level| < BATCH_SIZE then |c.level| else BATCH_SIZE;
    size := if size < PAGE_LIMIT - c.crawled then size else PAGE_LIMIT - c.crawled;
    ghost var p := c.Now();
    LevelIsOfDepth(c.setting, Moment(p, depth, consumed));
    TakeIsMove(c.setting, p, depth, size);
    batch := c.level[..size];
    c.fetched := c.fetched + batch;
    c.level := c.level[size..];
    assert c.fetched + c.level == p.fetched + p.level;
    assert c.Now() == AfterTake(p, size);
  }

  /** One turn of the loop over a level. */
  method ReadBatch(c: Crawler, depth: nat) returns (full: bool)
    requires RunOk(c, depth, c.fetched) && c.level != [] && !c.Full() && c.crawled < PAGE_LIMIT
    modifies c
    ensures |c.level| < |old(c.level)| && c.pageLimitHit == old(c.pageLimitHit)
    ensures c.cut == old(c.cut) && old(c.crawled) <= c.crawled
    ensures old(c.fetched) <= c.fetched && c.fetched + c.level == old(c.fetched + c.level)
    ensures full ==> exists t | t in c.fetched :: c.setting.load(t).Saturated?
    ensures !full ==> RunOk(c, depth, c.fetched)
  {
    ghost var consumed := c.fetched;
    var batch := TakeBatch(c, depth, consumed);
    assert consumed + batch[..0] == consumed && consumed + batch[..|batch|] == c.fetched;
    ghost var all := c.fetched + c.level;
    full := ConsumeBatch(c, depth, batch, consumed);
    assert c.fetched + c.level == all;
  }

  /** One turn of the loop over a level: the page limit is looked at first. */
  method LevelTurn(c: Crawler, depth: nat) returns (stop: bool, full: bool)
    requires RunOk(c, depth, c.fetched) && c.level != [] && !c.Full()
    modifies c
    ensures old(c.fetched) <= c.fetched && c.fetched + c.level == old(c.fetched + c.level) && c.cut == old(c.cut) && old(c.crawled) <= c.crawled
    ensures full ==> !stop && exists t | t in c.fetched :: c.setting.load(t).Saturated?
    ensures !full ==> RunOk(c, depth, c.fetched)
    ensures stop <==> old(c.crawled) >= PAGE_LIMIT
    ensures if stop then c.pageLimitHit && !full && c.level == old(c.level) && c.crawled == old(c.crawled) else |c.level| < |old(c.level)| && c.pageLimitHit == old(c.pageLimitHit)
  {
    stop, full := c.crawled >= PAGE_LIMIT, false;
    if stop {
      c.pageLimitHit := true;
    } else {
      full := ReadBatch(c, depth);
    }
  }

  /** The loop over a level; `deadline` batches may be read before the deadline passes. */
  method ReadLevel(c: Crawler, depth: nat, deadline: nat) returns (full: bool, left: nat)
    requires RunOk(c, depth, c.fetched)
    modifies c
    ensures old(c.fetched) <= c.fetched && c.fetched + c.level == old(c.fetched + c.level) && left <= deadline
    ensures full ==> exists t | t in c.fetched :: c.setting.load(t).Saturated?
    ensures !full ==> RunOk(c, depth, c.fetched)
    ensures !full && c.level != [] ==> c.Full() || left == 0 || c.pageLimitHit
    ensures old(c.pageLimitHit) ==> c.pageLimitHit
    ensures c.pageLimitHit && !full ==> old(c.pageLimitHit) || c.crawled >= PAGE_LIMIT
    ensures c.cut == old(c.cut) && old(c.crawled) <= c.crawled && (old(c.Full()) ==> c.Full())
    ensures deadline > 0 && !old(c.Full()) && old(c.crawled) < PAGE_LIMIT && old(c.level) != [] && old(c.fetched) == [] ==> old(c.level)[..1] <= c.fetched
  {
    full, left := false, deadline;
    var stop := false;
    while c.level != [] && !c.Full() && left > 0 && !stop && !full
      invariant old(c.fetched) <= c.fetched && c.fetched + c.level == old(c.fetched + c.level) && left <= deadline
      invariant full ==> exists t | t in c.fetched :: c.setting.load(t).Saturated?
      invariant !full ==> RunOk(c, depth, c.fetched)
      invariant if stop then c.pageLimitHit && !full else c.pageLimitHit == old(c.pageLimitHit)
      invariant stop ==> c.crawled >= PAGE_LIMIT
      invariant c.cut == old(c.cut) && old(c.crawled) <= c.crawled && (old(c.Full()) ==> c.Full())
      invariant left < deadline ==> |c.fetched| > |old(c.fetched)|
      invariant left == deadline && !stop ==> c.Full() == old(c.Full()) && c.level == old(c.level) && !full
      invariant left == deadline ==> c.crawled == old(c.crawled)
      decreases |c.level|, !stop
    {
      stop, full := LevelTurn(c, depth);
      left := if stop then left else left - 1;
    }
    StartsWith(old(c.fetched), old(c.level), c.fetched, c.level);
  }

  lemma IsAfterLevel(p: Progress, q: Progress)
    requires q.state == p.state.(planned := q.fetched + q.level + q.next)
    requires q.fetched == p.fetched && q.level == p.next && q.next == []
    requires q.cut == (p.cut || p.level != []) && q.crawled == p.crawled && q.rendered == p.rendered
    ensures q == AfterLevel(p)
  {
    assert p.fetched + p.next + [] == p.fetched + p.next;
  }

  method TurnOver(c: Crawler)
    modifies c`level, c`next, c`cut
    ensures c.Now() == AfterLevel(old(c.Now()))
  {
    ghost var before := c.Now();
    c.cut := c.cut || c.level != [];
    c.level, c.next := c.next, [];
    IsAfterLevel(before, c.Now());
  }

  method NextLevel(c: Crawler, depth: nat)
    requires RunOk(c, depth, c.fetched)
    modifies c`level, c`next, c`cut
    ensures RunOk(c, depth + 1, c.fetched) && c.next == []
    ensures c.cut <==> old(c.cut) || old(c.level) != []
  {
    NextIsReached(c.setting, Moment(c.Now(), depth, c.fetched), Descend);
    TurnOver(c);
  }

  /** The crawl was cut short only by a full list, the page limit or the deadline. */
  predicate HasReason(c: Crawler, left: nat)
    reads c
  {
    c.Full() || c.pageLimitHit || left == 0
  }

  lemma StartIsFine(c: Crawler)
    requires c.site == c.setting.site && FollowsRules(c.site) && c.setting.maxDepth > 0
    requires ListingOk(c.site, c.Listed()) && c.Listed().offered == c.setting.before && forall e | e in c.urls :: e.source == "sitemap"
    requires c.Planned() == JustStart(c.setting.start) && c.level == [Target(c.setting.first, 0)] && c.next == [] && c.fetched == []
    requires c.crawled == c.rendered == 0 && !c.cut
    ensures RunOk(c, 0, [])
  {
    assert c.fetched + c.level + c.next == [Target(c.setting.first, 0)];
    StartIsReached(c.setting, c.Listed());
  }

  /** One level, and on to the next. */
  method ReadOn(c: Crawler, depth: nat, deadline: nat) returns (full: bool, left: nat)
    requires RunOk(c, depth, c.fetched) && (c.cut ==> HasReason(c, deadline)) && (c.pageLimitHit ==> c.crawled >= PAGE_LIMIT)
    modifies c
    ensures old(c.fetched) <= c.fetched && left <= deadline
    ensures full ==> exists t | t in c.fetched :: c.setting.load(t).Saturated?
    ensures !full ==> RunOk(c, depth + 1, c.fetched) && c.next == []
    ensures !full ==> (c.cut ==> HasReason(c, left)) && (c.pageLimitHit ==> c.crawled >= PAGE_LIMIT)
    ensures deadline > 0 && !old(c.Full()) && old(c.crawled) < PAGE_LIMIT && old(c.level) != [] && old(c.fetched) == [] ==> old(c.level)[..1] <= c.fetched
  {
    full, left := ReadLevel(c, depth, deadline);
    if !full {
      NextLevel(c, depth);
    }
  }

  lemma StartsWith(a: seq<Target>, b: seq<Target>, c: seq<Target>, d: seq<Target>)
    requires a + b == c + d
    ensures a == [] && c != [] && b != [] ==> b[..1] <= c
  {
    if a == [] && c != [] && b != [] {
      assert (a + b)[0] == b[0] && (c + d)[0] == c[0];
    }
  }

  /** The loop over levels. */
  method ReadLevels(c: Crawler, deadline: nat) returns (full: bool, left: nat)
    requires RunOk(c, 0, c.fetched) && c.fetched == [] && c.level == [Target(c.setting.first, 0)] && c.next == [] && !c.cut && !c.pageLimitHit
    requires c.setting.maxDepth > 0 && c.crawled == 0
    modifies c
    ensures full ==> exists t | t in c.fetched :: c.setting.load(t).Saturated?
    ensures !full ==> exists depth: nat :: RunOk(c, depth, c.fetched)
    ensures !full ==> c.level == c.next == [] && (c.cut ==> HasReason(c, left)) && (c.pageLimitHit ==> c.crawled >= PAGE_LIMIT)
    ensures deadline > 0 && !old(c.Full()) ==> [Target(c.setting.first, 0)] <= c.fetched
  {
    assert c.level[..1] == [Target(c.setting.first, 0)];
    full, left := ReadOn(c, 0, deadline);
    var depth := 1;
    while depth < c.setting.maxDepth && c.level != [] && !full
      invariant 1 <= depth <= c.setting.maxDepth
      invariant full ==> exists t | t in c.fetched :: c.setting.load(t).Saturated?
      invariant !full ==> RunOk(c, depth, c.fetched) && c.next == []
      invariant !full ==> (c.cut ==> HasReason(c, left)) && (c.pageLimitHit ==> c.crawled >= PAGE_LIMIT)
      invariant deadline > 0 && !old(c.Full()) ==> [Target(c.setting.first, 0)] <= c.fetched
      decreases c.setting.maxDepth - depth
    {
      full, left := ReadOn(c, depth, left);
      depth := depth + 1;
    }
    if !full {
      ReachedIsOk(c.setting, Moment(c.Now(), depth, c.fetched));
    }
  }
}
