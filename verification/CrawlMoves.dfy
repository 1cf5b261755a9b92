/** A crawl as a run of moves: a batch is taken, its pages are read one by one, the next level begins. */
module CrawlMoves {
  import opened CrawlFrontier
  import opened CrawlPages
  import opened CrawlLevels

  const BATCH_SIZE: nat := 6

  /** `consumed` are the fetched targets whose pages have been read. */
  datatype Moment = Moment(progress: Progress, depth: nat, consumed: seq<Target>)

  datatype Move = Take | Read | Descend

  /** No page is planned beyond the page limit. */
  function BatchSize(p: Progress): (n: nat)
    ensures p.level != [] && p.crawled < PAGE_LIMIT ==> 0 < n <= |p.level| && p.crawled + n <= PAGE_LIMIT
  {
    var size := if |p.level| < BATCH_SIZE then |p.level| else BATCH_SIZE;
    if p.crawled >= PAGE_LIMIT then 0 else if size < PAGE_LIMIT - p.crawled then size else PAGE_LIMIT - p.crawled
  }

  predicate IsBetweenBatches(m: Moment) {
    m.consumed == m.progress.fetched
  }

  /** A level may be left at any time, since the deadline may pass at any time; what it leaves is `cut`. */
  predicate Enabled(c: Setting, m: Moment, move: Move) {
    match move
    case Take => IsBetweenBatches(m) && m.progress.level != [] && !IsFull(m.progress.state.listing) && m.progress.crawled < PAGE_LIMIT
    case Read => m.consumed < m.progress.fetched && !c.load(m.progress.fetched[|m.consumed|]).Saturated?
    case Descend => IsBetweenBatches(m)
  }

  function Apply(c: Setting, m: Moment, move: Move): Moment
    requires Enabled(c, m, move)
  {
    match move
    case Take => m.(progress := AfterTake(m.progress, BatchSize(m.progress)))
    case Read =>
      var t := m.progress.fetched[|m.consumed|];
      m.(progress := AfterConsume(c, m.progress, t), consumed := m.consumed + [t])
    case Descend => m.(progress := AfterLevel(m.progress), depth := m.depth + 1)
  }

  function Begin(c: Setting, listing: Listing): Moment {
    var start := Target(c.first, 0);
    Moment(Progress(State(listing, JustStart(c.start), [start]), [], [start], [], false, 0, 0), 0, [])
  }

  ghost predicate IsStart(c: Setting, listing: Listing) {
    && c.maxDepth > 0 && FollowsRules(c.site) && ListingOk(c.site, listing) && listing.offered == c.before
    && forall e | e in listing.urls :: e.source == "sitemap"
  }

  predicate IsMove(c: Setting, m: Moment, move: Move, next: Moment) {
    Enabled(c, m, move) && next == Apply(c, m, move)
  }

  ghost predicate IsCrawl(c: Setting, moments: seq<Moment>, moves: seq<Move>) {
    && |moments| == |moves| + 1
    && IsStart(c, moments[0].progress.state.listing) && moments[0] == Begin(c, moments[0].progress.state.listing)
    && forall n | 0 <= n < |moves| :: IsMove(c, moments[n], moves[n], moments[n + 1])
  }

  /** Some run of moves leads to `m`. */
  ghost predicate IsReached(c: Setting, m: Moment) {
    exists moments, moves :: IsCrawl(c, moments, moves) && moments[|moves|] == m
  }

  lemma StartIsReached(c: Setting, listing: Listing)
    requires IsStart(c, listing)
    ensures IsReached(c, Begin(c, listing))
  {
    var moments, moves: seq<Move> := [Begin(c, listing)], [];
    assert IsCrawl(c, moments, moves) && moments[|moves|] == Begin(c, listing);
  }

  lemma OneMoveMore(c: Setting, moments: seq<Moment>, moves: seq<Move>, move: Move, next: Moment)
    requires IsCrawl(c, moments, moves) && IsMove(c, moments[|moves|], move, next)
    ensures IsCrawl(c, moments + [next], moves + [move])
  {
    var longer, more := moments + [next], moves + [move];
    forall n: nat | n < |more|
      ensures IsMove(c, longer[n], more[n], longer[n + 1])
    {
      if n < |moves| {
        assert IsMove(c, moments[n], moves[n], moments[n + 1]);
      }
    }
  }

  lemma NextIsReached(c: Setting, m: Moment, move: Move)
    requires IsReached(c, m) && Enabled(c, m, move)
    ensures IsReached(c, Apply(c, m, move))
  {
    var moments, moves :| IsCrawl(c, moments, moves) && moments[|moves|] == m;
    var next := Apply(c, m, move);
    OneMoveMore(c, moments, moves, move, next);
    assert (moments + [next])[|moves + [move]|] == next;
  }

  /** What is left of a batch is of the current level and fits the page limit. */
  predicate BatchOk(p: Progress, depth: nat, consumed: seq<Target>) {
    && consumed <= p.fetched && p.crawled + |p.fetched| - |consumed| <= PAGE_LIMIT
    && (forall i | |consumed| <= i < |p.fetched| :: p.fetched[i].depth == depth)
  }

  ghost predicate MomentOk(c: Setting, m: Moment) {
    ProgressOk(c, m.progress, m.depth, m.consumed) && BatchOk(m.progress, m.depth, m.consumed)
  }

  lemma BeginKeeps(c: Setting, listing: Listing)
    requires IsStart(c, listing)
    ensures MomentOk(c, Begin(c, listing))
  {
    var p := Begin(c, listing).progress;
    assert p.fetched + p.level + p.next == [Target(c.first, 0)];
  }

  lemma TakeMoveKeeps(c: Setting, m: Moment)
    requires MomentOk(c, m) && Enabled(c, m, Take)
    ensures MomentOk(c, Apply(c, m, Take))
  {
    TakeKeeps(c, m.progress, m.depth, BatchSize(m.progress));
    var p := m.progress;
    var taken := p.level[..BatchSize(p)];
    assert forall i | 0 <= i < |taken| :: taken[i] in p.level;
  }

  lemma ReadKeepsBatch(c: Setting, p: Progress, depth: nat, consumed: seq<Target>)
    requires BatchOk(p, depth, consumed) && consumed < p.fetched
    ensures BatchOk(AfterConsume(c, p, p.fetched[|consumed|]), depth, consumed + [p.fetched[|consumed|]])
  {
  }

  lemma ReadMoveKeeps(c: Setting, m: Moment)
    requires MomentOk(c, m) && Enabled(c, m, Read)
    ensures MomentOk(c, Apply(c, m, Read))
  {
    var t := m.progress.fetched[|m.consumed|];
    var next, consumed := AfterConsume(c, m.progress, t), m.consumed + [t];
    ReadKeepsBatch(c, m.progress, m.depth, m.consumed);
    assert ProgressOk(c, next, m.depth, consumed) by {
      ConsumeKeepsProgress(c, m.progress, m.depth, m.consumed, t);
    }
    assert Apply(c, m, Read) == m.(progress := next, consumed := consumed);
  }

  lemma DescendKeeps(c: Setting, m: Moment)
    requires MomentOk(c, m) && Enabled(c, m, Descend)
    ensures MomentOk(c, Apply(c, m, Descend))
  {
    var next := AfterLevel(m.progress);
    assert ProgressOk(c, next, m.depth + 1, m.consumed) by {
      LevelKeepsProgress(c, m.progress, m.depth, m.consumed);
    }
    assert Apply(c, m, Descend) == m.(progress := next, depth := m.depth + 1);
  }

  lemma MoveKeeps(c: Setting, m: Moment, move: Move)
    requires MomentOk(c, m) && Enabled(c, m, move)
    ensures MomentOk(c, Apply(c, m, move))
  {
    match move
    case Take => TakeMoveKeeps(c, m);
    case Read => ReadMoveKeeps(c, m);
    case Descend => DescendKeeps(c, m);
  }

  lemma IsMoveKeeps(c: Setting, m: Moment, move: Move, next: Moment)
    requires MomentOk(c, m) && IsMove(c, m, move, next)
    ensures MomentOk(c, next)
  {
    MoveKeeps(c, m, move);
  }

  lemma {:induction false} MovesKeep(c: Setting, moments: seq<Moment>, moves: seq<Move>, n: nat)
    requires n < |moments| == |moves| + 1 && MomentOk(c, moments[0])
    requires forall k | 0 <= k < |moves| :: IsMove(c, moments[k], moves[k], moments[k + 1])
    ensures MomentOk(c, moments[n])
  {
    if n > 0 {
      var before := n - 1;
      MovesKeep(c, moments, moves, before);
      IsMoveKeeps(c, moments[before], moves[before], moments[before + 1]);
    }
  }

  lemma CrawlKeeps(c: Setting, moments: seq<Moment>, moves: seq<Move>, n: nat)
    requires IsCrawl(c, moments, moves) && n < |moments|
    ensures MomentOk(c, moments[n])
  {
    BeginKeeps(c, moments[0].progress.state.listing);
    MovesKeep(c, moments, moves, n);
  }

  /** In every crawl, at every moment, the levels, the counters and the history are good. */
  lemma ReachedIsOk(c: Setting, m: Moment)
    requires IsReached(c, m)
    ensures MomentOk(c, m) && FollowsRules(c.site) && c.maxDepth > 0
  {
    var moments, moves :| IsCrawl(c, moments, moves) && moments[|moves|] == m;
    CrawlKeeps(c, moments, moves, |moves|);
  }
}
