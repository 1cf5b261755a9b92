/** The loader waterfall of pkg/fetch/orchestrator.go, and its split into an HTTP and a browser stage.
    The specification speaks about the list of loaders visited and what each of them answered. */
module Waterfall {
  import opened Wrappers

  datatype Provider = Replay | Tls | Patchright | CapSolver

  datatype Content = Html | Text | Pdf | Unknown

  /** `Unsupported` stands for any classification the waterfall does not know. */
  datatype Kind = Accept | Dead | Blocked | NeedsRender | Retryable | Unsupported

  datatype Session = NoSession | Session(name: string, replayable: bool)

  datatype Page = Page(content: string, links: seq<string>, title: string)

  /** `page` is what the document's text or HTML yields, unless that is blank. */
  datatype Document = Document(provider: Provider, finalURL: string, title: string, content: Content, session: Session, page: Option<Page>)

  /** What one call of a loader comes to. `capacity`: the error is a full or unreachable browser. */
  datatype Reply = Failed(capacity: bool) | Got(document: Document, kind: Kind)

  /** The answers the loaders would give. The browser and the solver may be left out of a service. */
  datatype World = World(replay: Session -> Reply, tls: Reply, browser: Option<Session -> Reply>, capsolver: Option<Session -> Reply>)

  /** The remembered routes and clearances, by host, and the domains that always need the browser. */
  datatype Memory = Memory(isProtected: set<string>, routes: map<string, Provider>, clearances: map<string, Session>)

  datatype Attempt = Attempt(provider: Provider, outcome: string)

  datatype Fetched = Fetched(finalURL: string, page: Page, content: Content, provider: Option<Provider>, outcome: string, attempts: seq<Attempt>)

  datatype Error = UnsupportedClassification | BrowserCapacity

  type Outcome = Result<Fetched, Error>

  datatype Visit = Visit(provider: Provider, reply: Reply)

  predicate Resolves(r: Reply) {
    r.Got? && r.kind == Accept && r.document.content in {Html, Text} && r.document.page.Some?
  }

  /** The answer ends the waterfall: usable content, a dead page, or a response no browser can improve. */
  predicate Conclusive(v: Visit) {
    && v.reply.Got?
    && (Resolves(v.reply) || v.reply.kind == Dead
        || (v.provider == Tls && (v.reply.kind == Unsupported || (v.reply.kind == Accept && v.reply.document.content != Html))))
  }

  predicate Concluded(visits: seq<Visit>) {
    visits != [] && Conclusive(visits[|visits| - 1])
  }

  function KindName(k: Kind): string {
    match k
    case Accept => "ok"
    case Dead => "dead"
    case Blocked => "blocked"
    case NeedsRender => "needs_render"
    case Retryable => "retryable"
    case Unsupported => "unsupported"
  }

  predicate IsEmptyHtml(r: Reply) {
    r.Got? && r.kind == Accept && r.document.content == Html && r.document.page == None
  }

  function AttemptOf(v: Visit): Attempt {
    Attempt(v.provider, if v.reply.Failed? then "error" else if IsEmptyHtml(v.reply) then "empty" else KindName(v.reply.kind))
  }

  function Attempts(visits: seq<Visit>): (r: seq<Attempt>)
    ensures |r| == |visits|
  {
    seq(|visits|, i requires 0 <= i < |visits| => AttemptOf(visits[i]))
  }

  const NO_PAGE: Page := Page("", [], "")

  function Success(d: Document, attempts: seq<Attempt>): Fetched
    requires d.page.Some?
  {
    Fetched(d.finalURL, d.page.value, d.content, Some(d.provider), "ok", attempts)
  }

  function Failure(d: Document, outcome: string, attempts: seq<Attempt>): Fetched {
    Fetched(d.finalURL, Page("", [], d.title), d.content, Some(d.provider), outcome, attempts)
  }

  const NO_ANSWER: Document := Document(CapSolver, "", "", Unknown, NoSession, None)

  function NeedsBrowser(attempts: seq<Attempt>): Fetched {
    Fetched("", NO_PAGE, Unknown, None, "needs_browser", attempts)
  }

  /** The result is the last visit's. */
  function Settle(visits: seq<Visit>): Outcome {
    var attempts := Attempts(visits);
    if visits == [] || visits[|visits| - 1].reply.Failed? then Ok(Failure(NO_ANSWER, "failed", attempts))
    else
      var last := visits[|visits| - 1];
      if Resolves(last.reply) then Ok(Success(last.reply.document, attempts))
      else if last.reply.kind == Dead then Ok(Failure(last.reply.document, "dead", attempts))
      else if Conclusive(last) && last.reply.kind == Unsupported then Err(UnsupportedClassification)
      else if Conclusive(last) || last.provider == CapSolver then Ok(Failure(last.reply.document, "failed", attempts))
      else Ok(Failure(NO_ANSWER, "failed", attempts))
  }

  predicate IsUnder(host: string, domain: string) {
    host == domain || (|host| > |domain| && host[|host| - |domain| - 1..] == "." + domain)
  }

  predicate Prefers(m: Memory, host: string) {
    (exists domain | domain in m.isProtected :: IsUnder(host, domain)) || (host in m.routes && m.routes[host] == Patchright)
  }

  function AsReplay(r: Reply): Reply {
    if r.Got? then Got(r.document.(provider := Replay), r.kind) else r
  }

  /** The HTTP stage: the stored clearance first, then a plain request unless the host goes straight to
      the browser. */
  function HttpVisits(w: World, m: Memory, host: string): seq<Visit> {
    var replayed := if host in m.clearances then [Visit(Replay, AsReplay(w.replay(m.clearances[host])))] else [];
    if Concluded(replayed) || (Prefers(m, host) && w.browser.Some?) then replayed else replayed + [Visit(Tls, w.tls)]
  }

  /** The session the HTTP stage passes on. */
  function HttpSession(visits: seq<Visit>): Session {
    if visits != [] && visits[|visits| - 1].provider == Tls && visits[|visits| - 1].reply.Got? then visits[|visits| - 1].reply.document.session
    else NoSession
  }

  function CapSolverVisits(w: World, session: Session): seq<Visit> {
    if w.capsolver.Some? then [Visit(CapSolver, w.capsolver.value(session))] else []
  }

  /** The browser stage; `deferring` gives up on a browser without capacity. */
  function BrowserVisits(w: World, session: Session, deferring: bool): seq<Visit> {
    if w.browser.None? then CapSolverVisits(w, session)
    else
      var first := Visit(Patchright, w.browser.value(session));
      if Conclusive(first) || (deferring && LacksCapacity(first)) then [first]
      else [first] + CapSolverVisits(w, if first.reply.Got? then first.reply.document.session else session)
  }

  predicate LacksCapacity(v: Visit) {
    v.provider == Patchright && v.reply.Failed? && v.reply.capacity
  }

  /** What a run leaves behind: a clearance that did not help is forgotten, a browser that did is remembered. */
  function After(m: Memory, host: string, visits: seq<Visit>): Memory {
    if visits == [] then m
    else
      var last := visits[|visits| - 1];
      var kept := if visits[0].provider == Replay && !Conclusive(visits[0]) then m.(clearances := m.clearances - {host}) else m;
      if last.provider != Patchright || !Resolves(last.reply) then kept
      else
        var session := last.reply.document.session;
        kept.(routes := kept.routes[host := Patchright],
              clearances := if session.Session? && session.replayable then kept.clearances[host := session] else kept.clearances)
  }

  function AllVisits(w: World, m: Memory, host: string): seq<Visit> {
    var http := HttpVisits(w, m, host);
    if Concluded(http) then http else http + BrowserVisits(w, HttpSession(http), false)
  }

  /** `Extract`. */
  function Whole(w: World, m: Memory, host: string): (Outcome, Memory) {
    var visits := AllVisits(w, m, host);
    (Settle(visits), After(m, host, visits))
  }

  /** `ExtractHTTP`. */
  function HttpStage(w: World, m: Memory, host: string): (Outcome, Memory) {
    var visits := HttpVisits(w, m, host);
    (if Concluded(visits) then Settle(visits) else Ok(NeedsBrowser(Attempts(visits))), After(m, host, visits))
  }

  /** `ExtractBrowser`. */
  function BrowserStage(w: World, m: Memory, host: string): (Outcome, Memory) {
    var visits := BrowserVisits(w, NoSession, true);
    (if visits != [] && LacksCapacity(visits[|visits| - 1]) then Err(BrowserCapacity) else Settle(visits), After(m, host, visits))
  }

  /** The answer is an accepted document of HTML or text with readable content. */
  predicate IsReadable(r: Reply) {
    r.Got? && r.kind == Accept && (r.document.content == Html || r.document.content == Text) && r.document.page.Some?
  }

  /** What the record of an attempt tells of a visit. */
  predicate AttemptTells(a: Attempt, v: Visit) {
    var empty := v.reply.Got? && v.reply.kind == Accept && v.reply.document.content == Html && v.reply.document.page.None?;
    && a.provider == v.provider
    && (a.outcome == "error" <==> v.reply.Failed?)
    && (a.outcome == "empty" <==> empty)
    && (a.outcome == "ok" <==> v.reply.Got? && v.reply.kind == Accept && !empty)
    && (a.outcome == "dead" <==> v.reply.Got? && v.reply.kind == Dead)
    && (a.outcome == "blocked" <==> v.reply.Got? && v.reply.kind == Blocked)
    && (a.outcome == "needs_render" <==> v.reply.Got? && v.reply.kind == NeedsRender)
    && (a.outcome == "retryable" <==> v.reply.Got? && v.reply.kind == Retryable)
  }

  ghost predicate AttemptsTell(attempts: seq<Attempt>, visits: seq<Visit>) {
    |attempts| == |visits| && forall i | 0 <= i < |visits| :: AttemptTells(attempts[i], visits[i])
  }

  predicate HasNoContent(f: Fetched) {
    f.page.content == "" && f.page.links == []
  }

  /** What a run that made these visits has to answer, told by the visits alone. */
  ghost predicate ResultTells(visits: seq<Visit>, o: Outcome) {
    var read := visits != [] && IsReadable(visits[|visits| - 1].reply);
    var dead := visits != [] && visits[|visits| - 1].reply.Got? && visits[|visits| - 1].reply.kind == Dead;
    var unknown := visits != [] && visits[|visits| - 1].provider == Tls && visits[|visits| - 1].reply.Got? && visits[|visits| - 1].reply.kind == Unsupported;
    && (if unknown then o == Err(UnsupportedClassification) else o.Ok?)
    && (o.Ok? ==>
          && o.value.outcome == (if read then "ok" else if dead then "dead" else "failed")
          && AttemptsTell(o.value.attempts, visits)
          && (if read then ShowsDocument(o.value, visits[|visits| - 1].reply.document) else HasNoContent(o.value))
          && (!read ==> if dead || (visits != [] && IsLastWord(visits[|visits| - 1])) then IsBare(o.value, visits[|visits| - 1].reply.document)
                        else IsBare(o.value, NO_ANSWER)))
  }

  /** A response that leaves nothing else to try: the solver's, or a plain one that no browser can improve. */
  predicate IsLastWord(v: Visit) {
    v.reply.Got? && (v.provider == CapSolver || (v.provider == Tls && v.reply.kind == Accept && v.reply.document.content != Html))
  }

  /** The document's address and title, without its content. */
  predicate IsBare(f: Fetched, d: Document) {
    NamesDocument(f, d) && f.page == Page("", [], d.title)
  }

  predicate NamesDocument(f: Fetched, d: Document) {
    f.finalURL == d.finalURL && f.content == d.content && f.provider == Some(d.provider)
  }

  predicate ShowsDocument(f: Fetched, d: Document) {
    NamesDocument(f, d) && d.page == Some(f.page)
  }

  lemma AttemptIsTold(v: Visit)
    ensures AttemptTells(AttemptOf(v), v)
  {
    assert "error"[0] != "ok"[0] && "error"[1] != "empty"[1] && "dead"[0] != "blocked"[0] && "needs_render"[0] != "retryable"[0];
    assert "unsupported"[0] == 'u' && "empty"[0] == 'e' && "retryable"[0] == 'r' && "ok"[0] == 'o';
  }

  lemma AttemptsAreTold(visits: seq<Visit>)
    ensures AttemptsTell(Attempts(visits), visits)
  {
    forall i | 0 <= i < |visits|
      ensures AttemptTells(Attempts(visits)[i], visits[i])
    {
      AttemptIsTold(visits[i]);
    }
  }

  lemma SettleTells(visits: seq<Visit>)
    ensures ResultTells(visits, Settle(visits))
  {
    AttemptsAreTold(visits);
  }

  /** The stage hands over, and tells nothing but its attempts. */
  ghost predicate HandsOver(visits: seq<Visit>, o: Outcome) {
    o.Ok? && o.value.outcome == "needs_browser" && HasNoContent(o.value) && o.value.provider == None && AttemptsTell(o.value.attempts, visits)
  }

  function Rank(p: Provider): nat {
    match p
    case Replay => 0
    case Tls => 1
    case Patchright => 2
    case CapSolver => 3
  }

  /** No loader is asked twice, and none after a dearer one. */
  lemma EachLoaderOnceInOrder(w: World, m: Memory, host: string)
    ensures var visits := AllVisits(w, m, host);
            forall i, j | 0 <= i < j < |visits| :: Rank(visits[i].provider) < Rank(visits[j].provider)
  {
  }

  predicate Visited(visits: seq<Visit>, p: Provider) {
    exists v | v in visits :: v.provider == p
  }

  /** The host is the domain, or ends with a dot and the domain. */
  predicate LiesUnder(host: string, domain: string) {
    host == domain || exists n | 0 <= n <= |host| :: host[n..] == "." + domain
  }

  lemma UnderIsUnder(host: string, domain: string)
    ensures IsUnder(host, domain) <==> LiesUnder(host, domain)
  {
    if |host| > |domain| {
      var n := |host| - |domain| - 1;
      assert IsUnder(host, domain) && host != domain ==> host[n..] == "." + domain;
    }
  }

  /** The loaders that a host may need. */
  predicate IsOpen(w: World, m: Memory, host: string, p: Provider) {
    match p
    case Replay => host in m.clearances
    case Tls => w.browser.None? || !((exists domain | domain in m.isProtected :: LiesUnder(host, domain)) || (host in m.routes && m.routes[host] == Patchright))
    case Patchright => w.browser.Some?
    case CapSolver => w.capsolver.Some?
  }

  /** The answer ends the waterfall, told by the answer alone: readable content, a dead page, or a plain
      response that no browser can improve. */
  predicate EndsIt(v: Visit) {
    || IsReadable(v.reply)
    || (v.reply.Got? && v.reply.kind == Dead)
    || (v.provider == Tls && v.reply.Got? && (v.reply.kind == Unsupported || (v.reply.kind == Accept && v.reply.document.content != Html)))
  }

  lemma OpenIsOpen(w: World, m: Memory, host: string)
    ensures IsOpen(w, m, host, Tls) <==> !(Prefers(m, host) && w.browser.Some?)
  {
    forall domain | domain in m.isProtected
      ensures IsUnder(host, domain) <==> LiesUnder(host, domain)
    {
      UnderIsUnder(host, domain);
    }
  }

  /** The waterfall stops at the first answer that ends it, and it does not stop before one: without one,
      every loader the service has was asked, but for plain HTTP on a host that needs the browser. No
      other loader is asked in any case. */
  lemma StopsAtTheFirstAnswer(w: World, m: Memory, host: string)
    ensures var visits := AllVisits(w, m, host);
            && (forall i | 0 <= i < |visits| - 1 :: !EndsIt(visits[i]))
            && (visits == [] || !EndsIt(visits[|visits| - 1]) ==> forall p: Provider :: IsOpen(w, m, host, p) ==> Visited(visits, p))
            && (forall p: Provider :: Visited(visits, p) ==> IsOpen(w, m, host, p))
  {
    var http := HttpVisits(w, m, host);
    var visits := AllVisits(w, m, host);
    OpenIsOpen(w, m, host);
    if !Concluded(http) {
      var browser := BrowserVisits(w, HttpSession(http), false);
      assert visits == http + browser;
      VisitedBy(http);
      VisitedBy(browser);
      assert forall v :: v in visits <==> v in http || v in browser;
    }
  }

  /** What each loader was asked and answered: the replay with the stored clearance, the others with the
      session of the answer before theirs. */
  predicate IsAnswerOf(w: World, m: Memory, host: string, v: Visit, session: Session) {
    match v.provider
    case Replay =>
      && host in m.clearances
      && var r := w.replay(m.clearances[host]);
         if r.Failed? then v.reply == r
         else v.reply.Got? && v.reply.kind == r.kind && v.reply.document.provider == Replay && v.reply.document.(provider := r.document.provider) == r.document
    case Tls => v.reply == w.tls
    case Patchright => w.browser.Some? && v.reply == w.browser.value(session)
    case CapSolver => w.capsolver.Some? && v.reply == w.capsolver.value(session)
  }

  /** The session handed to visit `i`: none from a replay, and a failed call hands on what it was given. */
  function SessionAt(visits: seq<Visit>, i: nat): Session
    requires i <= |visits|
  {
    if i == 0 || visits[i - 1].provider == Replay then NoSession
    else if visits[i - 1].reply.Got? then visits[i - 1].reply.document.session
    else SessionAt(visits, i - 1)
  }

  lemma AnswersAreTheLoaders(w: World, m: Memory, host: string)
    ensures var visits := AllVisits(w, m, host);
            forall i | 0 <= i < |visits| :: IsAnswerOf(w, m, host, visits[i], SessionAt(visits, i))
  {
    var http := HttpVisits(w, m, host);
    var visits := AllVisits(w, m, host);
    if !Concluded(http) {
      var browser := BrowserVisits(w, HttpSession(http), false);
      assert visits == http + browser;
      SessionsOfHttp(w, m, host, browser);
    }
  }

  lemma SessionsOfHttp(w: World, m: Memory, host: string, more: seq<Visit>)
    ensures var http := HttpVisits(w, m, host);
            && SessionAt(http + more, |http|) == HttpSession(http)
            && (more == [] || SessionAt(http + more, |http| + 1) == (if more[0].provider == Replay then NoSession
                                                                     else if more[0].reply.Got? then more[0].reply.document.session
                                                                     else HttpSession(http)))
  {
    var http := HttpVisits(w, m, host);
    var all := http + more;
    assert SessionAt(all, 0) == NoSession;
    if |http| > 0 {
      assert all[|http| - 1] == http[|http| - 1];
      assert |http| == 2 ==> all[0] == http[0] && SessionAt(all, 1) == NoSession;
    }
  }

  /** A list of at most two visits, spelled out. */
  lemma VisitedBy(visits: seq<Visit>)
    requires |visits| <= 2
    ensures forall v :: v in visits <==> (|visits| > 0 && v == visits[0]) || (|visits| > 1 && v == visits[1])
  {
  }

  function WithAttempts(o: Outcome, before: seq<Attempt>): Outcome {
    if o.Ok? then Ok(o.value.(attempts := before + o.value.attempts)) else o
  }

  /** Running the two stages one after the other, as the batch does. */
  function Split(w: World, m: Memory, host: string): (Outcome, Memory) {
    var (http, remembered) := HttpStage(w, m, host);
    if http.Err? || http.value.outcome != "needs_browser" then (http, remembered)
    else
      var (browser, after) := BrowserStage(w, remembered, host);
      (WithAttempts(browser, http.value.attempts), after)
  }

  /** The loaders after the HTTP stage do not care about the session it hands them. */
  ghost predicate IgnoresSession(w: World, session: Session) {
    && (w.browser.Some? ==> w.browser.value(session) == w.browser.value(NoSession))
    && (w.capsolver.Some? ==> w.capsolver.value(session) == w.capsolver.value(NoSession))
  }

  /** The browser is needed but has no capacity. */
  ghost predicate Saturated(w: World, m: Memory, host: string) {
    && !Concluded(HttpVisits(w, m, host))
    && w.browser.Some? && LacksCapacity(Visit(Patchright, w.browser.value(NoSession)))
  }

  lemma AttemptsAppend(a: seq<Visit>, b: seq<Visit>)
    ensures Attempts(a + b) == Attempts(a) + Attempts(b)
  {
  }

  /** The stages share no visit and no memory but what the first one leaves to the second. */
  lemma AfterBothStages(w: World, m: Memory, host: string, browser: seq<Visit>)
    requires !Concluded(HttpVisits(w, m, host)) && forall v | v in browser :: v.provider in {Patchright, CapSolver}
    ensures After(m, host, HttpVisits(w, m, host) + browser) == After(After(m, host, HttpVisits(w, m, host)), host, browser)
  {
    var http := HttpVisits(w, m, host);
    if browser == [] {
      assert http + browser == http;
    } else {
      assert browser[0] in browser && browser[|browser| - 1] in browser;
      assert (http + browser)[|http + browser| - 1] == browser[|browser| - 1];
    }
  }

  /** The split run is the whole run (same outcome, same content, same routes and clearances, and the
      attempts of the two stages one after the other) exactly when no saturated browser is needed, as
      long as the later loaders do not care about the session of the plain response. */
  lemma SplitAgreesIff(w: World, m: Memory, host: string)
    requires IgnoresSession(w, HttpSession(HttpVisits(w, m, host)))
    ensures Split(w, m, host) == Whole(w, m, host) <==> !Saturated(w, m, host)
  {
    var http := HttpVisits(w, m, host);
    if Concluded(http) {
      ConcludedIsNotHandedOver(http);
    } else {
      var browser := BrowserVisits(w, NoSession, false);
      StageIgnoresSession(w, HttpSession(http));
      assert AllVisits(w, m, host) == http + browser;
      SettleIsLast(http, browser);
      if !Saturated(w, m, host) {
        BrowserStageVisits(w);
        AfterBothStages(w, m, host, browser);
        AttemptsAppend(http, browser);
      }
    }
  }

  function WithoutSession(r: Reply): Reply {
    if r.Got? then Got(r.document.(session := NoSession), r.kind) else r
  }

  /** The same loaders, but that the plain response brings no session. */
  function Forgetful(w: World): World {
    w.(tls := WithoutSession(w.tls))
  }

  lemma HttpVisitsForget(w: World, m: Memory, host: string)
    ensures var visits, forgetful := HttpVisits(w, m, host), HttpVisits(Forgetful(w), m, host);
            && Concluded(forgetful) == Concluded(visits) && Attempts(forgetful) == Attempts(visits)
            && Settle(forgetful) == Settle(visits) && After(m, host, forgetful) == After(m, host, visits)
            && HttpSession(forgetful) == NoSession
  {
  }

  /** Without a session to lose, the split run is what it was. */
  lemma SplitForgets(w: World, m: Memory, host: string)
    ensures Split(Forgetful(w), m, host) == Split(w, m, host)
    ensures Saturated(Forgetful(w), m, host) <==> Saturated(w, m, host)
  {
    HttpVisitsForget(w, m, host);
  }

  /** For all loaders: what the split run loses is the session of the plain response, and nothing else,
      exactly when no saturated browser is needed. */
  lemma SplitLosesOnlyTheSession(w: World, m: Memory, host: string)
    ensures Split(w, m, host) == Whole(Forgetful(w), m, host) <==> !Saturated(w, m, host)
  {
    SplitForgets(w, m, host);
    HttpVisitsForget(w, m, host);
    SplitAgreesIff(Forgetful(w), m, host);
  }

  /** A saturated browser shows in the split run alone. */
  lemma SaturationShows(w: World, m: Memory, host: string)
    requires Saturated(w, m, host)
    ensures Split(w, m, host).0 == Err(BrowserCapacity) != Whole(w, m, host).0
  {
    SettleNeverLacksCapacity(AllVisits(w, m, host));
  }

  lemma SettleNeverLacksCapacity(visits: seq<Visit>)
    ensures Settle(visits) != Err(BrowserCapacity)
  {
  }

  /** So for all loaders the split run is the whole run exactly when no saturated browser is needed and
      the whole run does not depend on the session of the plain response. */
  lemma SplitIsWholeIff(w: World, m: Memory, host: string)
    ensures Split(w, m, host) == Whole(w, m, host) <==> !Saturated(w, m, host) && Whole(Forgetful(w), m, host) == Whole(w, m, host)
  {
    SplitLosesOnlyTheSession(w, m, host);
    if Saturated(w, m, host) {
      SaturationShows(w, m, host);
    }
  }

  /** A plain response that asks for a browser and sets a cookie, and a browser that is let in with it. */
  function CookieWorld(): World {
    var shell := Document(Tls, "u", "", Html, Session("cookie", false), None);
    var full := Document(Patchright, "u", "", Html, NoSession, Some(Page("text", [], "")));
    World((s: Session) => Failed(false), Got(shell, NeedsRender), Some((s: Session) => if s.Session? then Got(full, Accept) else Got(full, Blocked)), None)
  }

  /** That can matter: the whole run succeeds where the split run fails. */
  lemma SessionCanMatter(host: string) returns (w: World, m: Memory)
    ensures !Saturated(w, m, host)
    ensures Whole(w, m, host).0.Ok? && Whole(w, m, host).0.value.outcome == "ok"
    ensures Split(w, m, host).0.Ok? && Split(w, m, host).0.value.outcome == "failed"
  {
    w, m := CookieWorld(), Memory({}, map[], map[]);
    var http := HttpVisits(w, m, host);
    assert http == [Visit(Tls, w.tls)];
    assert AllVisits(w, m, host) == http + BrowserVisits(w, HttpSession(http), false);
  }

  lemma ConcludedIsNotHandedOver(visits: seq<Visit>)
    requires Concluded(visits)
    ensures Settle(visits).Ok? ==> Settle(visits).value.outcome != "needs_browser"
  {
    assert "ok"[0] != "needs_browser"[0] && "dead"[0] != "needs_browser"[0] && "failed"[0] != "needs_browser"[0];
  }

  lemma StageIgnoresSession(w: World, session: Session)
    requires IgnoresSession(w, session)
    ensures BrowserVisits(w, session, false) == BrowserVisits(w, NoSession, false)
  {
  }

  lemma BrowserStageVisits(w: World)
    requires w.browser.Some? ==> !LacksCapacity(Visit(Patchright, w.browser.value(NoSession)))
    ensures var visits := BrowserVisits(w, NoSession, true);
            && visits == BrowserVisits(w, NoSession, false)
            && (visits != [] ==> !LacksCapacity(visits[|visits| - 1]))
            && (forall v | v in visits :: v.provider in {Patchright, CapSolver})
  {
  }

  lemma SettleIsLast(http: seq<Visit>, browser: seq<Visit>)
    requires !Concluded(http) && forall v | v in http :: v.provider in {Replay, Tls}
    ensures Settle(http + browser) == WithAttempts(Settle(browser), Attempts(http))
  {
    AttemptsAppend(http, browser);
    if browser == [] {
      assert http + browser == http;
    } else {
      assert (http + browser)[|http + browser| - 1] == browser[|browser| - 1];
    }
  }

  predicate Earns(visits: seq<Visit>, session: Session) {
    && visits != [] && visits[|visits| - 1].provider == Patchright && Resolves(visits[|visits| - 1].reply)
    && visits[|visits| - 1].reply.document.session == session && session.Session? && session.replayable
  }

  /** What a run teaches the next one about the same host: a clearance that the browser earned is the
      first thing replayed, one that did not help is not replayed again, and a browser success sends the
      host to the browser before any plain request. No other host is affected. */
  lemma NextRunBenefits(w: World, m: Memory, host: string, next: World)
    ensures var visits := AllVisits(w, m, host); var (_, after) := Whole(w, m, host); var later := HttpVisits(next, after, host);
            && (forall session | Earns(visits, session) :: later != [] && later[0] == Visit(Replay, AsReplay(next.replay(session))))
            && (visits != [] && visits[0].provider == Replay && !Conclusive(visits[0]) && (forall session :: !Earns(visits, session)) ==>
                  forall v | v in later :: v.provider != Replay)
            && (visits != [] && visits[|visits| - 1].provider == Patchright && Resolves(visits[|visits| - 1].reply) && next.browser.Some? ==>
                  forall v | v in later :: v.provider != Tls)
            && (forall other | other != host ::
                  && (other in after.clearances <==> other in m.clearances) && (other in m.clearances ==> after.clearances[other] == m.clearances[other])
                  && (other in after.routes <==> other in m.routes) && (other in m.routes ==> after.routes[other] == m.routes[other]))
  {
    var visits := AllVisits(w, m, host);
    if visits != [] && visits[|visits| - 1].provider == Patchright && Resolves(visits[|visits| - 1].reply) {
      var session := visits[|visits| - 1].reply.document.session;
      assert session.Session? && session.replayable ==> Earns(visits, session);
    }
  }
}
