/** The `Service` of pkg/fetch/orchestrator.go: `attempt`, `resolveDocument` and the try functions over
    a mutable run state, against the specification of the waterfall. */
module WaterfallService {
  import opened Wrappers
  import opened Waterfall

  lemma BrowserAlone(w: World, session: Session, deferring: bool)
    ensures forall v | v in BrowserVisits(w, session, deferring) :: v.provider in {Patchright, CapSolver}
  {
  }

  lemma VisitAppends(visits: seq<Visit>, v: Visit)
    ensures Attempts(visits + [v]) == Attempts(visits) + [AttemptOf(v)]
    ensures forall p :: Visited(visits + [v], p) <==> Visited(visits, p) || v.provider == p
  {
    assert forall u :: u in visits + [v] <==> u in visits || u == v;
    assert v in visits + [v];
  }

  /** The browser stage begins with the browser's answer, and may end with it. */
  lemma BrowserFirst(w: World, session: Session, deferring: bool)
    requires w.browser.Some?
    ensures var visits, first := BrowserVisits(w, session, deferring), Visit(Patchright, w.browser.value(session));
            && visits != [] && visits[0] == first
            && (Conclusive(first) || (deferring && LacksCapacity(first)) ==> visits == [first])
            && (!Conclusive(first) && !(deferring && LacksCapacity(first)) ==>
                  && visits == [first] + CapSolverVisits(w, if first.reply.Got? then first.reply.document.session else session)
                  && forall m, host :: After(m, host, visits) == m)
  {
  }

  /** The deferring stage gives up exactly on a browser without capacity, and is else the stage itself. */
  lemma SaturationIsCapacity(w: World)
    ensures var visits := BrowserVisits(w, NoSession, true);
            if w.browser.Some? && w.browser.value(NoSession).Failed? && w.browser.value(NoSession).capacity
            then visits != [] && LacksCapacity(visits[|visits| - 1])
            else visits == BrowserVisits(w, NoSession, false) && (visits != [] ==> !LacksCapacity(visits[|visits| - 1]))
  {
  }

  class RunState {
    var tried: set<Provider>
    var attempts: seq<Attempt>
    const deferOnCapacity: bool
    var capacityErr: bool
    /** Every answer so far, in order. */
    ghost var visits: seq<Visit>

    constructor (deferOnCapacity: bool)
      ensures tried == {} && attempts == [] && visits == [] && !capacityErr && this.deferOnCapacity == deferOnCapacity
    {
      this.deferOnCapacity := deferOnCapacity;
      tried, attempts, visits, capacityErr := {}, [], [], false;
    }

    ghost predicate Valid()
      reads this
    {
      && attempts == Attempts(visits)
      && (forall p :: p in tried <==> Visited(visits, p))
    }
  }

  class Service {
    const world: World
    const isProtected: set<string>
    var routes: map<string, Provider>
    var clearances: map<string, Session>

    constructor (world: World, memory: Memory)
      ensures this.world == world && Value() == memory
    {
      this.world := world;
      isProtected, routes, clearances := memory.isProtected, memory.routes, memory.clearances;
    }

    ghost function Value(): Memory
      reads this
    {
      Memory(isProtected, routes, clearances)
    }

    /** `attempt`, given the loader's answer. */
    method Attempt(state: RunState, provider: Provider, reply: Reply) returns (ok: bool)
      requires state.Valid()
      modifies state
      ensures ok == reply.Got?
      ensures state.visits == old(state.visits) + [Visit(provider, reply)]
      ensures state.tried == old(state.tried) + {provider}
      ensures state.attempts == old(state.attempts) + [Waterfall.Attempt(provider, if reply.Failed? then "error" else KindName(reply.kind))]
      ensures reply.Failed? ==> state.Valid()
      ensures state.capacityErr <==> old(state.capacityErr) || (state.deferOnCapacity && LacksCapacity(Visit(provider, reply)))
    {
      state.tried := state.tried + {provider};
      state.visits := state.visits + [Visit(provider, reply)];
      VisitAppends(old(state.visits), Visit(provider, reply));
      if reply.Failed? {
        state.attempts := state.attempts + [Waterfall.Attempt(provider, "error")];
        if state.deferOnCapacity && provider == Patchright && reply.capacity {
          state.capacityErr := true;
        }
      } else {
        state.attempts := state.attempts + [Waterfall.Attempt(provider, KindName(reply.kind))];
      }
      ok := reply.Got?;
    }

    /** `resolveDocument`, right after the attempt that brought the document. */
    method ResolveDocument(state: RunState, reply: Reply) returns (result: Option<Fetched>)
      requires reply.Got? && state.visits != [] && state.visits[|state.visits| - 1].reply == reply
      requires |state.attempts| == |state.visits|
      requires state.attempts == Attempts(state.visits[..|state.visits| - 1])
                                 + [Waterfall.Attempt(state.visits[|state.visits| - 1].provider, KindName(reply.kind))]
      requires forall p :: p in state.tried <==> Visited(state.visits, p)
      modifies state`attempts
      ensures state.Valid()
      ensures result.Some? <==> IsReadable(reply)
      ensures result.Some? ==> ShowsDocument(result.value, reply.document) && result.value.outcome == "ok" && AttemptsTell(result.value.attempts, state.visits)
      ensures result.Some? ==> result.value == Success(reply.document, state.attempts)
    {
      AttemptsAreTold(state.visits);
      var last := |state.attempts| - 1;
      ghost var visits := state.visits;
      assert visits == visits[..last] + [visits[last]];
      AttemptsAppend(visits[..last], [visits[last]]);
      if reply.kind != Accept {
        return None;
      }
      match reply.document.content {
        case Text =>
          if reply.document.page == None {
            return None;
          }
          return Some(Success(reply.document, state.attempts));
        case Html =>
          if reply.document.page == None {
            state.attempts := state.attempts[last := state.attempts[last].(outcome := "empty")];
            return None;
          }
          return Some(Success(reply.document, state.attempts));
        case _ =>
          return None;
      }
    }

    /** `attempt`, and `resolveDocument` on the document it brought. */
    method Ask(state: RunState, provider: Provider, reply: Reply) returns (result: Option<Fetched>)
      requires state.Valid()
      modifies state
      ensures state.Valid() && state.visits == old(state.visits) + [Visit(provider, reply)]
      ensures result.Some? <==> Resolves(reply)
      ensures result.Some? ==> Settle(state.visits) == Ok(result.value)
      ensures state.capacityErr <==> old(state.capacityErr) || (state.deferOnCapacity && LacksCapacity(Visit(provider, reply)))
    {
      var ok := Attempt(state, provider, reply);
      result := None;
      if ok {
        result := ResolveDocument(state, reply);
      }
    }

    method TryReplay(state: RunState, host: string) returns (result: Option<Fetched>)
      requires state.Valid() && state.visits == []
      modifies this`clearances, state
      ensures state.Valid() && state.capacityErr == old(state.capacityErr)
      ensures state.visits == if host in old(clearances) then [Visit(Replay, AsReplay(world.replay(old(clearances)[host])))] else []
      ensures result.Some? <==> Concluded(state.visits)
      ensures result.Some? ==> Settle(state.visits) == Ok(result.value)
      ensures Value() == After(old(Value()), host, state.visits)
    {
      if host !in clearances {
        return None;
      }
      var reply := AsReplay(world.replay(clearances[host]));
      result := Ask(state, Replay, reply);
      if result.Some? {
        return;
      }
      if reply.Got? && reply.kind == Dead {
        return Some(Failure(reply.document, "dead", state.attempts));
      }
      clearances := clearances - {host};
      result := None;
    }

    /** The plain request of `httpStage`: an outcome, or the session for the browser. */
    method TryTls(state: RunState) returns (outcome: Option<Outcome>, session: Session)
      requires state.Valid()
      modifies state
      ensures state.Valid() && state.capacityErr == old(state.capacityErr)
      ensures state.visits == old(state.visits) + [Visit(Tls, world.tls)]
      ensures outcome.Some? <==> Concluded(state.visits)
      ensures outcome.Some? ==> outcome.value == Settle(state.visits)
      ensures outcome.None? ==> session == HttpSession(state.visits)
    {
      var resolved := Ask(state, Tls, world.tls);
      if resolved.Some? {
        return Some(Ok(resolved.value)), NoSession;
      }
      if world.tls.Failed? {
        return None, NoSession;
      }
      var document := world.tls.document;
      match world.tls.kind {
        case Dead => return Some(Ok(Failure(document, "dead", state.attempts))), NoSession;
        case Accept =>
          if document.content != Html {
            return Some(Ok(Failure(document, "failed", state.attempts))), NoSession;
          }
          return None, document.session;
        case Unsupported => return Some(Err(UnsupportedClassification)), NoSession;
        case _ => return None, document.session;
      }
    }

    /** `httpStage`: the stage's outcome, or the session for the browser. */
    method RunHttpStage(state: RunState, host: string) returns (outcome: Option<Outcome>, session: Session)
      requires state.Valid() && state.visits == []
      modifies this`clearances, state
      ensures state.Valid() && state.capacityErr == old(state.capacityErr)
      ensures state.visits == HttpVisits(world, old(Value()), host)
      ensures outcome.Some? <==> Concluded(state.visits)
      ensures outcome.Some? ==> outcome.value == Settle(state.visits)
      ensures outcome.None? ==> session == HttpSession(state.visits)
      ensures Value() == After(old(Value()), host, state.visits)
    {
      var replayed := TryReplay(state, host);
      if replayed.Some? {
        return Some(Ok(replayed.value)), NoSession;
      }
      if Prefers(Memory(isProtected, routes, clearances), host) && world.browser.Some? {
        return None, NoSession;
      }
      ghost var before := state.visits;
      outcome, session := TryTls(state);
      assert state.visits[0] == if before == [] then Visit(Tls, world.tls) else before[0];
    }

    /** `tryCapSolver`. */
    method TryCapSolver(state: RunState, session: Session) returns (result: Fetched)
      requires state.Valid() && CapSolver !in state.tried && !Concluded(state.visits)
      requires forall v | v in state.visits :: v.provider != CapSolver
      modifies state
      ensures state.Valid() && state.visits == old(state.visits) + CapSolverVisits(world, session)
      ensures Settle(state.visits) == Ok(result)
    {
      if world.capsolver == None || CapSolver in state.tried {
        assert state.visits != [] ==> state.visits[|state.visits| - 1] in state.visits;
        return Failure(NO_ANSWER, "failed", state.attempts);
      }
      var reply := world.capsolver.value(session);
      var resolved := Ask(state, CapSolver, reply);
      if resolved.Some? {
        return resolved.value;
      }
      if reply.Failed? {
        return Failure(NO_ANSWER, "failed", state.attempts);
      }
      return Failure(reply.document, if reply.kind == Dead then "dead" else "failed", state.attempts);
    }

    /** `Routes.Record` and `Clearances.Record`. */
    method Remember(host: string, session: Session)
      modifies this`routes, this`clearances
      ensures routes == old(routes)[host := Patchright]
      ensures clearances == if session.Session? && session.replayable then old(clearances)[host := session] else old(clearances)
    {
      routes := routes[host := Patchright];
      if session.Session? && session.replayable {
        clearances := clearances[host := session];
      }
    }

    /** `tryPatchright`. */
    method TryPatchright(state: RunState, host: string, session: Session) returns (outcome: Outcome)
      requires state.Valid() && !state.capacityErr && !Concluded(state.visits)
      requires forall v | v in state.visits :: v.provider in {Replay, Tls}
      modifies this`routes, this`clearances, state
      ensures var browser := BrowserVisits(world, session, state.deferOnCapacity);
              && state.visits == old(state.visits) + browser
              && outcome == (if state.deferOnCapacity && browser != [] && LacksCapacity(browser[|browser| - 1]) then Err(BrowserCapacity) else Settle(state.visits))
              && Value() == After(old(Value()), host, browser)
    {
      if world.browser == None || Patchright in state.tried {
        var solved := TryCapSolver(state, session);
        return Ok(solved);
      }
      var reply := world.browser.value(session);
      BrowserFirst(world, session, state.deferOnCapacity);
      var resolved := Ask(state, Patchright, reply);
      if resolved.Some? {
        Remember(host, reply.document.session);
        return Ok(resolved.value);
      }
      if state.capacityErr {
        return Err(BrowserCapacity);
      }
      if reply.Got? && reply.kind == Dead {
        return Ok(Failure(reply.document, "dead", state.attempts));
      }
      var solved := TryCapSolver(state, if reply.Got? then reply.document.session else session);
      return Ok(solved);
    }

    method Extract(host: string) returns (outcome: Outcome)
      modifies this
      ensures (outcome, Value()) == Whole(world, old(Value()), host)
      ensures ResultTells(AllVisits(world, old(Value()), host), outcome)
    {
      SettleTells(AllVisits(world, Value(), host));
      var state := new RunState(false);
      var settled, session := RunHttpStage(state, host);
      if settled.Some? {
        return settled.value;
      }
      ghost var browser := BrowserVisits(world, session, false);
      BrowserAlone(world, session, false);
      AfterBothStages(world, old(Value()), host, browser);
      outcome := TryPatchright(state, host, session);
    }

    method ExtractHTTP(host: string) returns (outcome: Outcome)
      modifies this
      ensures (outcome, Value()) == HttpStage(world, old(Value()), host)
      ensures var visits := HttpVisits(world, old(Value()), host);
              if visits != [] && EndsIt(visits[|visits| - 1]) then ResultTells(visits, outcome) else HandsOver(visits, outcome)
    {
      SettleTells(HttpVisits(world, Value(), host));
      AttemptsAreTold(HttpVisits(world, Value(), host));
      var state := new RunState(false);
      var settled, _ := RunHttpStage(state, host);
      if settled.Some? {
        return settled.value;
      }
      return Ok(NeedsBrowser(state.attempts));
    }

    method ExtractBrowser(host: string) returns (outcome: Outcome)
      modifies this
      ensures (outcome, Value()) == BrowserStage(world, old(Value()), host)
      ensures if world.browser.Some? && world.browser.value(NoSession).Failed? && world.browser.value(NoSession).capacity then outcome == Err(BrowserCapacity)
              else ResultTells(BrowserVisits(world, NoSession, false), outcome)
    {
      SettleTells(BrowserVisits(world, NoSession, false));
      SaturationIsCapacity(world);
      var state := new RunState(true);
      ghost var browser := BrowserVisits(world, NoSession, true);
      assert [] + browser == browser;
      outcome := TryPatchright(state, host, NoSession);
    }
  }
}
