/** The browser budgets of `fetch` in pkg/sitemap/crawl.go. Any number of fetches run side by side and
    share two atomic counters; every event is one atomic operation or the end of one call. */
module CrawlBrowser {
  import opened Counting

  const MAXIMUM_EXPLORES: nat := 5
  const MAXIMUM_RENDERS: nat := 25

  datatype Mode = Never | Auto | Always

  /** Where a fetch stands: `Deciding` is past the explore branch, `Needs` has an HTTP page that asks
      for a browser. */
  datatype Pc = Start | Exploring | Deciding | Rendering | Loading | Needs | Rerendering | Done(rendered: bool)

  /** `explored` and `rendered`: the browser was called for this page, one way or the other. */
  datatype Fetch = Fetch(pc: Pc, explored: bool, rendered: bool)

  datatype State = State(hasBrowser: bool, explore: bool, mode: Mode, explores: nat, renders: nat, fetches: seq<Fetch>)

  function Init(hasBrowser: bool, explore: bool, mode: Mode): State {
    State(hasBrowser, explore, mode, 0, 0, [])
  }

  /** `Settle(k, good)`: a call ended; for the HTTP load `good` means that the page needs no browser. */
  datatype Event = Begin | TryExplore(k: nat) | TryRender(k: nat) | TryRerender(k: nat) | Settle(k: nat, good: bool)

  predicate At(s: State, k: nat, pc: Pc) {
    k < |s.fetches| && s.fetches[k].pc == pc
  }

  predicate Enabled(s: State, e: Event) {
    match e
    case Begin => true
    case TryExplore(k) => At(s, k, Start)
    case TryRender(k) => At(s, k, Deciding)
    case TryRerender(k) => At(s, k, Needs)
    case Settle(k, _) => k < |s.fetches| && s.fetches[k].pc in {Exploring, Rendering, Loading, Rerendering}
  }

  function Move(s: State, k: nat, f: Fetch): State
    requires k < |s.fetches|
  {
    s.(fetches := s.fetches[k := f])
  }

  /** A failed browser call falls back to HTTP, but for the one that followed an HTTP load. */
  function Settled(s: State, f: Fetch, good: bool): Fetch {
    match f.pc
    case Exploring => f.(pc := if good then Done(true) else Loading)
    case Rendering => f.(pc := if good then Done(true) else Loading)
    case Loading => f.(pc := if !good && s.hasBrowser && s.mode == Auto then Needs else Done(false))
    case _ => f.(pc := Done(good))
  }

  function Apply(s: State, e: Event): State
    requires Enabled(s, e)
  {
    match e
    case Begin => s.(fetches := s.fetches + [Fetch(Start, false, false)])
    case TryExplore(k) =>
      if s.hasBrowser && s.explore then
        if s.explores + 1 <= MAXIMUM_EXPLORES then Move(s, k, s.fetches[k].(pc := Exploring, explored := true)).(explores := s.explores + 1)
        else Move(s, k, s.fetches[k].(pc := Deciding)).(explores := s.explores + 1)
      else Move(s, k, s.fetches[k].(pc := Deciding))
    case TryRender(k) =>
      if s.hasBrowser && s.mode == Always then
        if s.renders + 1 <= MAXIMUM_RENDERS then Move(s, k, s.fetches[k].(pc := Rendering, rendered := true)).(renders := s.renders + 1)
        else Move(s, k, s.fetches[k].(pc := Loading)).(renders := s.renders + 1)
      else Move(s, k, s.fetches[k].(pc := Loading))
    case TryRerender(k) =>
      if s.renders + 1 <= MAXIMUM_RENDERS then Move(s, k, s.fetches[k].(pc := Rerendering, rendered := true)).(renders := s.renders + 1)
      else Move(s, k, s.fetches[k].(pc := Done(false))).(renders := s.renders + 1)
    case Settle(k, good) => Move(s, k, Settled(s, s.fetches[k], good))
  }

  predicate WasExplored(f: Fetch) {
    f.explored
  }

  predicate WasRendered(f: Fetch) {
    f.rendered
  }

  function AtMost(n: nat, limit: nat): nat {
    if n <= limit then n else limit
  }

  /** A counter runs past its limit, but each call is granted one number, and only small ones count. */
  predicate FetchOk(s: State, f: Fetch) {
    && (f.pc in {Start, Deciding} ==> !f.explored && !f.rendered)
    && (f.pc == Exploring ==> f.explored && !f.rendered) && (f.pc == Rendering ==> f.rendered && s.mode == Always)
    && (f.pc == Needs ==> s.mode == Auto && s.hasBrowser && !f.rendered)
    && (f.pc == Loading && f.rendered ==> s.mode == Always)
    && (f.rendered ==> s.mode != Never) && (f.explored ==> s.explore)
    && (f.explored || f.rendered ==> s.hasBrowser)
    && (f.pc == Done(true) ==> f.explored || f.rendered)
    && (f.pc == Rerendering ==> f.rendered)
  }

  ghost predicate Inv(s: State) {
    && Count(s.fetches, WasExplored) == AtMost(s.explores, MAXIMUM_EXPLORES)
    && Count(s.fetches, WasRendered) == AtMost(s.renders, MAXIMUM_RENDERS)
    && (forall k | 0 <= k < |s.fetches| :: FetchOk(s, s.fetches[k]))
  }

  lemma MoveKeepsFetch(s: State, e: Event)
    requires Inv(s) && Enabled(s, e) && !e.Begin?
    ensures FetchOk(s, Apply(s, e).fetches[e.k])
  {
    assert FetchOk(s, s.fetches[e.k]);
  }

  lemma MoveKeepsExplores(s: State, e: Event)
    requires Inv(s) && Enabled(s, e) && !e.Begin?
    ensures Count(Apply(s, e).fetches, WasExplored) == AtMost(Apply(s, e).explores, MAXIMUM_EXPLORES)
  {
    assert FetchOk(s, s.fetches[e.k]);
    CountUpdate(s.fetches, e.k, Apply(s, e).fetches[e.k], WasExplored);
  }

  lemma MoveKeepsRenders(s: State, e: Event)
    requires Inv(s) && Enabled(s, e) && !e.Begin?
    ensures Count(Apply(s, e).fetches, WasRendered) == AtMost(Apply(s, e).renders, MAXIMUM_RENDERS)
  {
    assert FetchOk(s, s.fetches[e.k]);
    CountUpdate(s.fetches, e.k, Apply(s, e).fetches[e.k], WasRendered);
  }

  lemma MoveKeeps(s: State, e: Event)
    requires Inv(s) && Enabled(s, e) && !e.Begin?
    ensures Inv(Apply(s, e))
  {
    MoveKeepsFetch(s, e);
    MoveKeepsExplores(s, e);
    MoveKeepsRenders(s, e);
    var next := Apply(s, e);
    assert next.mode == s.mode && next.explore == s.explore && next.hasBrowser == s.hasBrowser;
    assert next.fetches == s.fetches[e.k := next.fetches[e.k]];
  }

  lemma StepKeeps(s: State, e: Event)
    requires Inv(s) && Enabled(s, e)
    ensures Inv(Apply(s, e))
  {
    match e
    case Begin =>
      CountAppend(s.fetches, Fetch(Start, false, false), WasExplored);
      CountAppend(s.fetches, Fetch(Start, false, false), WasRendered);
    case _ => MoveKeeps(s, e);
  }

  ghost predicate IsRun(states: seq<State>, events: seq<Event>) {
    && |states| == |events| + 1 && states[0] == Init(states[0].hasBrowser, states[0].explore, states[0].mode)
    && forall n | 0 <= n < |events| :: Enabled(states[n], events[n]) && states[n + 1] == Apply(states[n], events[n])
  }

  lemma {:induction false} RunKeeps(states: seq<State>, events: seq<Event>, n: nat)
    requires IsRun(states, events) && n < |states|
    ensures Inv(states[n])
  {
    if n > 0 {
      RunKeeps(states, events, n - 1);
      StepKeeps(states[n - 1], events[n - 1]);
    }
  }

  predicate IsFromBrowser(f: Fetch) {
    f.pc == Done(true)
  }

  /** However the fetches interleave, the browser explores at most 5 pages and renders at most 25, and
      only such pages are reported as rendered; nothing is rendered that was not asked for. */
  lemma BrowserBudgetsHold(states: seq<State>, events: seq<Event>, n: nat)
    requires IsRun(states, events) && n < |states|
    ensures var fetches := states[n].fetches;
            && Count(fetches, WasExplored) <= MAXIMUM_EXPLORES && Count(fetches, WasRendered) <= MAXIMUM_RENDERS
            && Count(fetches, IsFromBrowser) <= MAXIMUM_EXPLORES + MAXIMUM_RENDERS
            && forall f | f in fetches :: (f.pc == Done(true) ==> f.explored || f.rendered) && (f.explored ==> states[n].explore) && (f.rendered ==> states[n].mode != Never)
  {
    RunKeeps(states, events, n);
    var s := states[n];
    EitherCount(s.fetches, WasExplored, WasRendered, (f: Fetch) => f.explored || f.rendered);
    MoreCount(s.fetches, IsFromBrowser, (f: Fetch) => f.explored || f.rendered);
  }

  /** When the browser is called, in every interleaving: to explore, as long as fewer than five pages have
      been explored; to render, as long as fewer than 25 have been rendered, every page if rendering is
      always asked for, and else those whose plain response needs it. */
  lemma BrowserIsCalledIff(states: seq<State>, events: seq<Event>, n: nat, k: nat)
    requires IsRun(states, events) && n < |events|
    ensures events[n] == TryExplore(k) ==>
              k < |states[n + 1].fetches|
              && (states[n + 1].fetches[k].explored <==> states[n].hasBrowser && states[n].explore && Count(states[n].fetches, WasExplored) < 5)
    ensures events[n] == TryRender(k) ==>
              k < |states[n + 1].fetches|
              && (states[n + 1].fetches[k].rendered <==> states[n].hasBrowser && states[n].mode == Always && Count(states[n].fetches, WasRendered) < 25)
    ensures events[n] == TryRerender(k) ==>
              k < |states[n + 1].fetches|
              && (states[n + 1].fetches[k].rendered <==> Count(states[n].fetches, WasRendered) < 25)
    ensures events[n].Settle? && events[n].k == k && At(states[n], k, Loading) ==>
              (At(states[n + 1], k, Needs) <==> !events[n].good && states[n].hasBrowser && states[n].mode == Auto)
  {
    RunKeeps(states, events, n);
    if k < |states[n].fetches| {
      assert FetchOk(states[n], states[n].fetches[k]);
    }
  }
}
