/** The totals of pkg/batch/progress.go, computed by subtraction from counts per stage and state, and
    the per-URL truth they stand for. */
module BatchProgress {
  import opened BatchTypes
  import opened BatchQueue

  /** The grouped count query: only groups that exist are listed. */
  type Counts = map<Kind, map<Shown, nat>>

  datatype Totals = Totals(urls: int, done: int, dead: int, failed: int) {
    function Finished(): int {
      done + dead + failed
    }
  }

  const BAR_WIDTH := 24

  const SHOWN: set<Shown> := {ShownPending, ShownRunning, ShownRetrying, ShownDone, ShownDead, ShownFailed}

  function Get(counts: map<Shown, nat>, shown: Shown): nat {
    if shown in counts then counts[shown] else 0
  }

  function Stage(counts: Counts, kind: Kind): map<Shown, nat> {
    if kind in counts then counts[kind] else map[]
  }

  function Part(counts: map<Shown, nat>, some: set<Shown>, shown: Shown): nat {
    if shown in some then Get(counts, shown) else 0
  }

  /** The sum of the groups in `some`. */
  function Sum(counts: map<Shown, nat>, some: set<Shown>): nat {
    Part(counts, some, ShownPending) + Part(counts, some, ShownRunning) + Part(counts, some, ShownRetrying)
    + Part(counts, some, ShownDone) + Part(counts, some, ShownDead) + Part(counts, some, ShownFailed)
  }

  /** What `Totals` computes. */
  function TotalsOf(counts: Counts): Totals {
    var http, browser := Stage(counts, Http), Stage(counts, Browser);
    Totals(Sum(http, http.Keys),
           Get(http, ShownDone) - Sum(browser, browser.Keys) + Get(browser, ShownDone),
           Get(http, ShownDead) + Get(browser, ShownDead),
           Get(http, ShownFailed) + Get(browser, ShownFailed))
  }

  lemma SumOneMore(counts: map<Shown, nat>, some: set<Shown>, shown: Shown)
    requires shown !in some
    ensures Sum(counts, some + {shown}) == Sum(counts, some) + Get(counts, shown)
  {
    match shown
    case ShownPending =>
    case ShownRunning =>
    case ShownRetrying =>
    case ShownDone =>
    case ShownDead =>
    case ShownFailed =>
  }

  method SumOf(counts: map<Shown, nat>) returns (sum: nat)
    ensures sum == Sum(counts, counts.Keys)
  {
    sum := 0;
    var todo, done := counts.Keys, {};
    while todo != {}
      invariant done !! todo && done + todo == counts.Keys
      invariant sum == Sum(counts, done)
      decreases todo
    {
      var shown :| shown in todo;
      SumOneMore(counts, done, shown);
      sum := sum + counts[shown];
      todo, done := todo - {shown}, done + {shown};
    }
    assert done == counts.Keys;
  }

  method ComputeTotals(counts: Counts) returns (totals: Totals)
    ensures totals == TotalsOf(counts)
  {
    var http := if Http in counts then counts[Http] else map[];
    var browser := if Browser in counts then counts[Browser] else map[];
    var urls := SumOf(http);
    var handedOff := SumOf(browser);
    totals := Totals(urls, Get(http, ShownDone) - handedOff + Get(browser, ShownDone),
                     Get(http, ShownDead) + Get(browser, ShownDead), Get(http, ShownFailed) + Get(browser, ShownFailed));
  }

  /** `bar`: the filled and the empty part. */
  function Bar(part: int, whole: int): (int, int) {
    var filled := if whole > 0 then part * BAR_WIDTH / whole else 0;
    (filled, BAR_WIDTH - filled)
  }

  function Group(q: Queue, kind: Kind, shown: Shown): set<string> {
    set k | k in q.jobs && k.kind == kind && StateOf(q.jobs[k]) == shown :: k.url
  }

  function OfKind(q: Queue, kind: Kind): set<string> {
    set k | k in q.jobs && k.kind == kind :: k.url
  }

  /** The counts a snapshot of the queue gives. */
  ghost predicate AreCounts(q: Queue, counts: Counts) {
    && (forall kind, shown :: Get(Stage(counts, kind), shown) == |Group(q, kind, shown)|)
    && forall kind, shown | kind in counts && shown in counts[kind] :: counts[kind][shown] > 0
  }

  /** The state of a URL: that of its browser job once it has one, else that of its HTTP job. */
  function UrlState(q: Queue, url: string): Shown
    requires JobKey(Http, url) in q.jobs
  {
    var browser := JobKey(Browser, url);
    StateOf(if browser in q.jobs then q.jobs[browser] else q.jobs[JobKey(Http, url)])
  }

  function UrlsIn(q: Queue, shown: Shown): set<string> {
    set url | url in OfKind(q, Http) && UrlState(q, url) == shown
  }

  /** The URLs that `states` puts in one state. */
  function Having(states: map<string, Shown>, shown: Shown): set<string> {
    set url | url in states && states[url] == shown
  }

  lemma HavingOneMore(states: map<string, Shown>, url: string, shown: Shown)
    requires url in states
    ensures |Having(states, shown)| == |Having(states - {url}, shown)| + if states[url] == shown then 1 else 0
  {
    assert Having(states, shown) == Having(states - {url}, shown) + if states[url] == shown then {url} else {};
  }

  /** The sum of the group sizes. */
  function Sizes(states: map<string, Shown>): nat {
    |Having(states, ShownPending)| + |Having(states, ShownRunning)| + |Having(states, ShownRetrying)|
    + |Having(states, ShownDone)| + |Having(states, ShownDead)| + |Having(states, ShownFailed)|
  }

  lemma {:induction false} SizesAddUp(states: map<string, Shown>)
    ensures |states| == Sizes(states)
    decreases |states|
  {
    if states != map[] {
      var url :| url in states;
      assert (states - {url}).Keys == states.Keys - {url};
      SizesAddUp(states - {url});
      HavingOneMore(states, url, ShownPending);
      HavingOneMore(states, url, ShownRunning);
      HavingOneMore(states, url, ShownRetrying);
      HavingOneMore(states, url, ShownDone);
      HavingOneMore(states, url, ShownDead);
      HavingOneMore(states, url, ShownFailed);
    }
  }

  lemma UnfinishedSizes(states: map<string, Shown>)
    ensures |Having(states, ShownPending) + Having(states, ShownRunning) + Having(states, ShownRetrying)|
            == |Having(states, ShownPending)| + |Having(states, ShownRunning)| + |Having(states, ShownRetrying)|
  {
    var a, b, c := Having(states, ShownPending), Having(states, ShownRunning), Having(states, ShownRetrying);
    assert a !! b && (a + b) !! c;
  }

  function StatesOf(q: Queue, kind: Kind): map<string, Shown> {
    map url | url in OfKind(q, kind) :: StateOf(q.jobs[JobKey(kind, url)])
  }

  lemma GroupIsHaving(q: Queue, kind: Kind, shown: Shown)
    ensures Group(q, kind, shown) == Having(StatesOf(q, kind), shown)
  {
    forall url | url in Having(StatesOf(q, kind), shown)
      ensures url in Group(q, kind, shown)
    {
      assert JobKey(kind, url) in q.jobs;
    }
  }

  lemma GroupsCoverKind(q: Queue, kind: Kind)
    ensures |OfKind(q, kind)| == |Group(q, kind, ShownPending)| + |Group(q, kind, ShownRunning)| + |Group(q, kind, ShownRetrying)|
                                 + |Group(q, kind, ShownDone)| + |Group(q, kind, ShownDead)| + |Group(q, kind, ShownFailed)|
  {
    forall shown
      ensures Group(q, kind, shown) == Having(StatesOf(q, kind), shown)
    {
      GroupIsHaving(q, kind, shown);
    }
    SizesAddUp(StatesOf(q, kind));
    assert StatesOf(q, kind).Keys == OfKind(q, kind);
  }

  lemma SumIsAll(q: Queue, counts: Counts, kind: Kind)
    requires AreCounts(q, counts)
    ensures Sum(Stage(counts, kind), Stage(counts, kind).Keys) == |OfKind(q, kind)|
  {
    GroupsCoverKind(q, kind);
  }

  /** Every URL with a browser job has a completed HTTP job. */
  lemma HandedAreDone(q: Queue)
    requires HandedOff(q)
    ensures OfKind(q, Browser) <= Group(q, Http, ShownDone) && Group(q, Browser, ShownDone) <= OfKind(q, Browser)
  {
    forall url | url in OfKind(q, Browser)
      ensures url in Group(q, Http, ShownDone)
    {
      assert In(q, JobKey(Http, url), Completed);
    }
  }

  lemma StoredUrl(q: Queue, url: string)
    requires HandedOff(q)
    ensures url in UrlsIn(q, ShownDone) <==> url in (Group(q, Http, ShownDone) - OfKind(q, Browser)) + Group(q, Browser, ShownDone)
  {
    var http, browser := JobKey(Http, url), JobKey(Browser, url);
    assert url in OfKind(q, Http) <==> http in q.jobs;
    assert url in OfKind(q, Browser) <==> browser in q.jobs;
    assert url in Group(q, Http, ShownDone) <==> http in q.jobs && StateOf(q.jobs[http]) == ShownDone;
    assert url in Group(q, Browser, ShownDone) <==> browser in q.jobs && StateOf(q.jobs[browser]) == ShownDone;
    assert browser in q.jobs ==> In(q, http, Completed);
  }

  lemma StoredUrls(q: Queue)
    requires HandedOff(q)
    ensures |UrlsIn(q, ShownDone)| == |Group(q, Http, ShownDone)| - |OfKind(q, Browser)| + |Group(q, Browser, ShownDone)|
  {
    var http, browser, done := Group(q, Http, ShownDone), OfKind(q, Browser), Group(q, Browser, ShownDone);
    HandedAreDone(q);
    forall url
      ensures url in UrlsIn(q, ShownDone) <==> url in (http - browser) + done
    {
      StoredUrl(q, url);
    }
    assert UrlsIn(q, ShownDone) == (http - browser) + done && (http - browser) !! done;
    assert http == (http - browser) + browser;
  }

  lemma UnsuccessfulUrls(q: Queue, shown: Shown)
    requires HandedOff(q) && shown != ShownDone
    ensures |UrlsIn(q, shown)| == |Group(q, Http, shown)| + |Group(q, Browser, shown)|
  {
    var http, browser := Group(q, Http, shown), Group(q, Browser, shown);
    forall url | url in http
      ensures url in UrlsIn(q, shown) && url !in browser
    {
      assert JobKey(Http, url) in q.jobs;
      assert JobKey(Browser, url) in q.jobs ==> In(q, JobKey(Http, url), Completed);
    }
    forall url | url in browser
      ensures url in UrlsIn(q, shown)
    {
      assert JobKey(Browser, url) in q.jobs && In(q, JobKey(Http, url), Completed);
    }
    forall url | url in UrlsIn(q, shown)
      ensures url in http + browser
    {
      assert JobKey(Http, url) in q.jobs;
    }
    assert UrlsIn(q, shown) == http + browser && http !! browser;
  }

  /** The totals are the truth about each URL, in whichever stage it is. */
  lemma TotalsAreTruth(q: Queue, counts: Counts)
    requires HandedOff(q) && AreCounts(q, counts)
    ensures TotalsOf(counts) == Totals(|Urls(q)|, |UrlsIn(q, ShownDone)|, |UrlsIn(q, ShownDead)|, |UrlsIn(q, ShownFailed)|)
  {
    SumIsAll(q, counts, Http);
    SumIsAll(q, counts, Browser);
    StoredUrls(q);
    UnsuccessfulUrls(q, ShownDead);
    UnsuccessfulUrls(q, ShownFailed);
    assert Urls(q) == OfKind(q, Http);
  }

  function UrlStates(q: Queue): map<string, Shown> {
    map url | url in OfKind(q, Http) :: UrlState(q, url)
  }

  lemma UrlStatesGroup(q: Queue, shown: Shown)
    ensures Having(UrlStates(q), shown) == UrlsIn(q, shown)
  {
  }

  /** What is left after the finished URLs are the URLs still pending, running or retrying. */
  lemma RemainingAreUnfinished(q: Queue, counts: Counts)
    requires HandedOff(q) && AreCounts(q, counts)
    ensures TotalsOf(counts).urls - TotalsOf(counts).Finished()
            == |UrlsIn(q, ShownPending) + UrlsIn(q, ShownRunning) + UrlsIn(q, ShownRetrying)|
  {
    TotalsAreTruth(q, counts);
    var states := UrlStates(q);
    UrlStatesGroup(q, ShownPending);
    UrlStatesGroup(q, ShownRunning);
    UrlStatesGroup(q, ShownRetrying);
    UrlStatesGroup(q, ShownDone);
    UrlStatesGroup(q, ShownDead);
    UrlStatesGroup(q, ShownFailed);
    SizesAddUp(states);
    UnfinishedSizes(states);
    assert states.Keys == OfKind(q, Http) == Urls(q);
  }

  /** The URLs counted as done are those with a stored result. */
  lemma DoneMeansStored(q: Queue, url: string)
    requires HandedOff(q) && ResultsMatch(q)
    ensures url in UrlsIn(q, ShownDone) <==> JobKey(Http, url) in q.results || JobKey(Browser, url) in q.results
  {
    if url in UrlsIn(q, ShownDone) {
      assert JobKey(Http, url) in q.jobs;
    }
    if JobKey(Http, url) in q.results {
      assert In(q, JobKey(Http, url), Completed);
    } else if JobKey(Browser, url) in q.results {
      assert In(q, JobKey(Browser, url), Completed) && In(q, JobKey(Http, url), Completed);
    }
  }

  lemma FilledFits(part: int, whole: int)
    requires 0 <= part <= whole && whole > 0
    ensures 0 <= part * BAR_WIDTH / whole <= BAR_WIDTH
  {
    assert part * BAR_WIDTH <= whole * BAR_WIDTH;
    assert part * BAR_WIDTH / whole <= BAR_WIDTH;
  }

  lemma BarFits(part: int, whole: int)
    requires 0 <= part <= whole
    ensures Bar(part, whole).0 >= 0 && Bar(part, whole).1 >= 0
  {
    if whole > 0 {
      FilledFits(part, whole);
    }
  }

  lemma FinishedFits(q: Queue, counts: Counts)
    requires HandedOff(q) && AreCounts(q, counts)
    ensures 0 <= TotalsOf(counts).Finished() <= TotalsOf(counts).urls
  {
    TotalsAreTruth(q, counts);
    RemainingAreUnfinished(q, counts);
  }

  /** So the bar never repeats a character a negative number of times. */
  lemma BarIsDrawable(q: Queue, counts: Counts)
    requires HandedOff(q) && AreCounts(q, counts)
    ensures var totals := TotalsOf(counts);
            && 0 <= totals.Finished() <= totals.urls
            && Bar(totals.Finished(), totals.urls).0 >= 0 && Bar(totals.Finished(), totals.urls).1 >= 0
  {
    FinishedFits(q, counts);
    BarFits(TotalsOf(counts).Finished(), TotalsOf(counts).urls);
  }

  /** `busy`: some job of the kinds watched is not in a final state. */
  predicate Busy(q: Queue, kinds: set<Kind>) {
    exists k | k in q.jobs :: k.kind in kinds && q.jobs[k] in {Available, Pending, Retryable, Running, Scheduled}
  }

  function Left(q: Queue): set<string> {
    UrlsIn(q, ShownPending) + UrlsIn(q, ShownRunning) + UrlsIn(q, ShownRetrying)
  }

  lemma BusyJobIsLeft(q: Queue, k: JobKey)
    requires HandedOff(q) && k in q.jobs && q.jobs[k] in {Available, Pending, Retryable, Running, Scheduled}
    ensures k.url in Left(q)
  {
    var url := k.url;
    assert k == JobKey(k.kind, url);
    if k.kind == Http {
      assert JobKey(Browser, url) in q.jobs ==> In(q, JobKey(Http, url), Completed);
    } else {
      assert In(q, JobKey(Http, url), Completed);
    }
    assert url in OfKind(q, Http) && StateOf(q.jobs[k]) == UrlState(q, url);
  }

  lemma LeftIsBusy(q: Queue, url: string)
    requires url in Left(q)
    ensures Busy(q, {Http, Browser})
  {
    assert JobKey(Http, url) in q.jobs;
    var k := if JobKey(Browser, url) in q.jobs then JobKey(Browser, url) else JobKey(Http, url);
    assert StateOf(q.jobs[k]) == UrlState(q, url);
    assert k in q.jobs && k.kind in {Http, Browser} && q.jobs[k] in {Available, Pending, Retryable, Running, Scheduled};
  }

  /** When no job of either stage is busy, every URL is finished. */
  lemma IdleMeansComplete(q: Queue, counts: Counts)
    requires HandedOff(q) && AreCounts(q, counts)
    ensures !Busy(q, {Http, Browser}) <==> TotalsOf(counts).Finished() == TotalsOf(counts).urls
  {
    RemainingAreUnfinished(q, counts);
    if Busy(q, {Http, Browser}) {
      var k :| k in q.jobs && q.jobs[k] in {Available, Pending, Retryable, Running, Scheduled};
      BusyJobIsLeft(q, k);
    }
    if Left(q) != {} {
      var url :| url in Left(q);
      LeftIsBusy(q, url);
    }
  }
}
