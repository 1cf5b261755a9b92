/** What the profile locks and the browser sessions promise together, over every run. */
module SessionTheorems {
  import opened Wrappers
  import opened Counting
  import opened DirectoryChain
  import opened ProfileLocks
  import opened BrowserSessions

  datatype Owner = Render(o: nat) | Session(k: nat)

  /** A running render of the profile, or a session from its hold to its release. */
  predicate Owns(s: State, w: Owner, name: string) {
    match w
    case Render(o) => IsRunning(s.locks, o) && s.locks.renders.occupants[o].directory == name
    case Session(k) => HoldsProfile(s, k, name)
  }

  /** A profile has one owner at a time, be it a render or a session. */
  lemma OneOwner(states: seq<State>, events: seq<Event>, n: nat, name: string, v: Owner, w: Owner)
    requires IsRun(states, events) && n < |states|
    requires Owns(states[n], v, name) && Owns(states[n], w, name)
    ensures v == w
  {
    RunKeeps(states, events, n);
    var s := states[n];
    match (v, w)
    case (Render(a), Render(b)) =>
      if a < b {
        EarlierOccupantsAreGone(s.locks.renders, a, b);
      } else if b < a {
        EarlierOccupantsAreGone(s.locks.renders, b, a);
      }
    case (Render(a), Session(k)) => HeldMeansNoRender(s.locks, name, a);
    case (Session(k), Render(a)) => HeldMeansNoRender(s.locks, name, a);
    case (Session(j), Session(k)) =>
  }

  /** Renders of a profile run in the order in which they came, and the next in line may start as soon
      as, and no sooner than, every earlier one is over. */
  lemma RendersRunInOrder(states: seq<State>, events: seq<Event>, n: nat, o: nat)
    requires IsRun(states, events) && n < |states| && o < |states[n].locks.renders.occupants|
    ensures var renders := states[n].locks.renders;
            && (renders.occupants[o].admitted ==> forall a: nat | a < o && SameDirectory(renders, a, o) :: renders.occupants[a].vacated)
            && (!renders.occupants[o].admitted ==>
                  (Enabled(states[n], RenderEnters(o)) <==> forall a: nat | a < o && SameDirectory(renders, a, o) :: renders.occupants[a].vacated))
  {
    RunKeeps(states, events, n);
    var renders := states[n].locks.renders;
    if renders.occupants[o].admitted {
      forall a: nat | a < o && SameDirectory(renders, a, o)
        ensures renders.occupants[a].vacated
      {
        EarlierOccupantsAreGone(renders, a, o);
      }
    } else {
      NextMayEnter(renders, o);
    }
  }

  /** A profile is held exactly while one session has it, and every attempt that is over has given its
      hold back once, after its Chrome's close had settled if it ever had a Chrome. */
  lemma HoldsEndOnce(states: seq<State>, events: seq<Event>, n: nat, k: nat)
    requires IsRun(states, events) && n < |states| && k < |states[n].attempts|
    ensures var s := states[n]; var a := s.attempts[k];
            && (forall name :: name in s.locks.sessions <==> exists j: nat :: HoldsProfile(s, j, name))
            && a.releases == (if a.phase == Over && a.profile.Some? then 1 else 0)
            && (a.releases == 1 ==> a.chrome in {NotLaunched, CloseSettled})
  {
    RunKeeps(states, events, n);
    var s := states[n];
    assert AttemptOk(s.attempts[k]);
    forall name
      ensures name in s.locks.sessions <==> exists j: nat :: HoldsProfile(s, j, name)
    {
    }
  }

  /** The only ways out of a hold are a cleaned-up open and a settled close; both free the profile,
      and no attempt takes a hold again or keeps one that it gave back. */
  lemma HoldsAreGivenBack(states: seq<State>, events: seq<Event>, n: nat, k: nat)
    requires IsRun(states, events) && n < |events| && k < |states[n].attempts|
    ensures k < |states[n + 1].attempts|
    ensures var before, after, e := states[n].attempts[k], states[n + 1].attempts[k], events[n];
            && (Holds(after) ==> Holds(before))
            && (Holds(before) && !Holds(after) <==> e == CleanupSettles(k) || e == CloseSettles(k))
            && (Holds(before) && !Holds(after) && before.profile.Some? ==>
                  before.profile.value !in states[n + 1].locks.sessions && after.releases == before.releases + 1)
            && (Holds(after) == Holds(before) ==> after.releases == before.releases)
  {
    RunKeeps(states, events, n);
    StepGivesBack(states[n], events[n], k);
  }

  lemma StepGivesBack(s: State, e: Event, k: nat)
    requires Inv(s) && Enabled(s, e) && k < |s.attempts|
    ensures var next := Apply(s, e);
            && |next.attempts| >= |s.attempts|
            && (Holds(next.attempts[k]) ==> Holds(s.attempts[k]))
            && (Holds(s.attempts[k]) && !Holds(next.attempts[k]) <==> e == CleanupSettles(k) || e == CloseSettles(k))
            && (!Holds(next.attempts[k]) && Holds(s.attempts[k]) && s.attempts[k].profile.Some? ==>
                  s.attempts[k].profile.value !in next.locks.sessions && next.attempts[k].releases == s.attempts[k].releases + 1)
            && (Holds(next.attempts[k]) == Holds(s.attempts[k]) ==> next.attempts[k].releases == s.attempts[k].releases)
  {
    if e == CleanupSettles(k) || e == CloseSettles(k) {
      FinishGivesBack(s, k);
    } else {
      OthersKeepHolding(s, e, k);
    }
  }

  lemma FinishGivesBack(s: State, k: nat)
    requires k < |s.attempts|
    ensures var before, after := s.attempts[k], Finish(s, k).attempts[k];
            && !Holds(after) && after.releases == before.releases + (if before.profile.Some? then 1 else 0)
            && (before.profile.Some? ==> before.profile.value !in Finish(s, k).locks.sessions)
  {
  }

  lemma OthersKeepHolding(s: State, e: Event, k: nat)
    requires Inv(s) && Enabled(s, e) && k < |s.attempts| && e != CleanupSettles(k) && e != CloseSettles(k)
    ensures var next := Apply(s, e);
            && |next.attempts| >= |s.attempts|
            && (Holds(next.attempts[k]) <==> Holds(s.attempts[k])) && next.attempts[k].releases == s.attempts[k].releases
  {
  }

  /** How a creation is answered, in every run: it is turned away at once exactly if listed and starting
      sessions make up the limit; else its profile decides, which is taken exactly if a session holds it or
      a render of it is not over. */
  lemma CreateIsAnswered(states: seq<State>, events: seq<Event>, n: nat)
    requires IsRun(states, events) && n < |events| && events[n].Create?
    ensures var s, next, profile := states[n], states[n + 1], events[n].profile;
            var taken := profile.Some? && ((exists k: nat :: HoldsProfile(s, k, profile.value))
                         || exists o: nat :: o < |s.locks.renders.occupants| && s.locks.renders.occupants[o].directory == profile.value && !s.locks.renders.occupants[o].vacated);
            if Count(s.attempts, IsListed) + Count(s.attempts, IsStarting) >= s.maxSessions then next == s
            else
              && |next.attempts| == |s.attempts| + 1
              && next.attempts[|s.attempts|].phase == (if taken then Refused else Opening)
              && next.attempts[|s.attempts|].profile == profile
  {
    RunKeeps(states, events, n);
    CountIsSize(states[n].attempts, IsListed, states[n].table);
    if events[n].profile.Some? {
      FreeIffUnowned(states[n].locks, events[n].profile.value);
    }
  }

  /** At most `maxSessions` sessions are starting or open at once. */
  lemma SessionsAreBounded(states: seq<State>, events: seq<Event>, n: nat)
    requires IsRun(states, events) && n < |states|
    ensures Count(states[n].attempts, TakesASlot) <= states[0].maxSessions
    ensures |states[n].table| == Count(states[n].attempts, IsListed) <= states[0].maxSessions
  {
    RunKeeps(states, events, n);
    CountIsSize(states[n].attempts, IsListed, states[n].table);
    MoreCount(states[n].attempts, IsListed, TakesASlot);
  }

  /** A close that has resolved found the session over and its profile given back, unless the browser
      died by itself while the cookies were being saved. */
  lemma AnsweredCloseIsOver(states: seq<State>, events: seq<Event>, n: nat, k: nat)
    requires IsRun(states, events) && n < |states| && k < |states[n].attempts|
    requires states[n].attempts[k].shutdown == Resolved && !states[n].attempts[k].diedAlone
    ensures states[n].attempts[k].phase == Over && states[n].attempts[k].chrome == CloseSettled
    ensures forall name :: !HoldsProfile(states[n], k, name)
  {
    RunKeeps(states, events, n);
    assert AttemptOk(states[n].attempts[k]);
  }

  /** `get` finds no such session: the caller is told so at once. */
  predicate IsRefused(s: State, e: Event, k: nat) {
    e == Ask(k) && k !in s.table
  }

  /** A refused close changes nothing, and finds the session not yet open, being released, or over. */
  lemma RefusedCloseFinds(states: seq<State>, events: seq<Event>, n: nat, k: nat)
    requires IsRun(states, events) && n < |events| && k < |states[n].attempts| && IsRefused(states[n], events[n], k)
    ensures states[n + 1] == states[n] && states[n].attempts[k].phase != Listed
    ensures Holds(states[n].attempts[k]) <==> states[n].attempts[k].phase in {Opening, CleaningUp, Releasing}
    ensures Holds(states[n].attempts[k]) && !states[n].attempts[k].starting ==> states[n].attempts[k].phase == Releasing
  {
    RunKeeps(states, events, n);
    assert AttemptOk(states[n].attempts[k]);
  }

  /** This step resolves a close, or refuses one. */
  predicate AnswersClose(s: State, e: Event, next: State, k: nat)
    requires k < |s.attempts| <= |next.attempts|
  {
    (s.attempts[k].shutdown != Resolved && next.attempts[k].shutdown == Resolved) || IsRefused(s, e, k)
  }

  /** This step answers a close, though the session still has its profile and its Chrome. */
  predicate AnswersEarly(s: State, e: Event, next: State, k: nat)
    requires k < |s.attempts| <= |next.attempts|
  {
    AnswersClose(s, e, next, k) && Holds(next.attempts[k])
  }

  /** Exactly when a close of a session that was handed out is answered early: while a release is waiting
      for Chrome, the cookies of a close that did not start it settle, or another close comes, and is
      told that there is no such session. */
  lemma CloseAnswersEarlyIff(states: seq<State>, events: seq<Event>, n: nat, k: nat)
    requires IsRun(states, events) && n < |events| && k < |states[n].attempts|
    ensures |states[n + 1].attempts| >= |states[n].attempts|
    ensures AnswersEarly(states[n], events[n], states[n + 1], k)
            <==> || (states[n].attempts[k].phase == Releasing && (events[n] == SaveSettles(k) || events[n] == Ask(k)))
                 || (states[n].attempts[k].phase in {Opening, CleaningUp} && events[n] == Ask(k))
    ensures states[n].attempts[k].phase in {Opening, CleaningUp} ==> states[n].attempts[k].starting
  {
    RunKeeps(states, events, n);
    assert AttemptOk(states[n].attempts[k]);
    StepAnswersEarly(states[n], events[n], k);
  }

  lemma AskAnswersEarly(s: State, k: nat)
    requires Inv(s) && k < |s.attempts|
    ensures |Apply(s, Ask(k)).attempts| == |s.attempts|
    ensures AnswersEarly(s, Ask(k), Apply(s, Ask(k)), k) <==> s.attempts[k].phase in {Opening, CleaningUp, Releasing}
  {
    assert k in s.table <==> s.attempts[k].phase == Listed;
  }

  lemma SaveAnswersEarly(s: State, k: nat)
    requires Inv(s) && Enabled(s, SaveSettles(k))
    ensures |Apply(s, SaveSettles(k)).attempts| == |s.attempts|
    ensures AnswersEarly(s, SaveSettles(k), Apply(s, SaveSettles(k)), k) <==> s.attempts[k].phase == Releasing
  {
    assert AttemptOk(s.attempts[k]);
    assert k in s.table <==> s.attempts[k].phase == Listed;
  }

  lemma OthersDoNotAnswer(s: State, e: Event, k: nat)
    requires Inv(s) && Enabled(s, e) && k < |s.attempts| && e != Ask(k) && e != SaveSettles(k)
    ensures |Apply(s, e).attempts| >= |s.attempts|
    ensures !AnswersEarly(s, e, Apply(s, e), k)
  {
    assert AttemptOk(s.attempts[k]);
  }

  lemma StepAnswersEarly(s: State, e: Event, k: nat)
    requires Inv(s) && Enabled(s, e) && k < |s.attempts|
    ensures |Apply(s, e).attempts| >= |s.attempts|
    ensures AnswersEarly(s, e, Apply(s, e), k)
            <==> || (s.attempts[k].phase == Releasing && (e == SaveSettles(k) || e == Ask(k)))
                 || (s.attempts[k].phase in {Opening, CleaningUp} && e == Ask(k))
  {
    if e == Ask(k) {
      AskAnswersEarly(s, k);
    } else if e == SaveSettles(k) {
      SaveAnswersEarly(s, k);
    } else {
      OthersDoNotAnswer(s, e, k);
    }
  }

  function OneSession(table: set<nat>, starting: int, phase: Phase, chrome: Chrome, shutdown: Shutdown, diedAlone: bool): State {
    State(1, Locks(EMPTY, {"shop"}), table, starting, [Attempt(Some("shop"), starting == 1, phase, chrome, shutdown, 0, diedAlone)])
  }

  function EarlyState(n: nat): State
    requires n < 8
  {
    if n == 0 then Init(1)
    else if n == 1 then OneSession({}, 1, Opening, NotLaunched, NotAsked, false)
    else if n == 2 then OneSession({}, 1, Opening, Running, NotAsked, false)
    else if n == 3 then OneSession({0}, 1, Listed, Running, NotAsked, false)
    else if n == 4 then OneSession({0}, 0, Listed, Running, NotAsked, false)
    else if n == 5 then OneSession({0}, 0, Listed, Running, Saving, false)
    else if n == 6 then OneSession({}, 0, Releasing, CloseCalled, Saving, true)
    else OneSession({}, 0, Releasing, CloseCalled, Resolved, true)
  }

  function EarlyEvent(n: nat): Event
    requires n < 7
  {
    if n == 0 then Create(Some("shop"))
    else if n == 1 then ChromeOpens(0)
    else if n == 2 then Register(0)
    else if n == 3 then CreateReturns(0)
    else if n == 4 then Ask(0)
    else if n == 5 then BrowserDies(0)
    else SaveSettles(0)
  }

  lemma EarlyStep(n: nat)
    requires n < 7
    ensures Enabled(EarlyState(n), EarlyEvent(n)) && EarlyState(n + 1) == Apply(EarlyState(n), EarlyEvent(n))
  {
  }

  /** That happens: a browser closes during the save, and the answered caller finds the profile taken. */
  lemma CloseCanAnswerEarly() returns (states: seq<State>, events: seq<Event>)
    ensures IsRun(states, events)
    ensures var s := states[|events|];
            |s.attempts| == 1 && s.attempts[0].shutdown == Resolved && Blocked(s.locks, s.attempts[0].profile)
  {
    states, events := seq(8, n requires 0 <= n < 8 => EarlyState(n)), seq(7, n requires 0 <= n < 7 => EarlyEvent(n));
    forall n | 0 <= n < 7
      ensures Enabled(states[n], events[n]) && states[n + 1] == Apply(states[n], events[n])
    {
      EarlyStep(n);
    }
  }

  /** Likewise, but the release is waiting because the browser died, or because of a first close. */
  function RefusedState(n: nat, died: bool): State {
    if n < 5 || (n == 5 && !died) then EarlyState(n)
    else OneSession({}, 0, Releasing, CloseCalled, if died then NotAsked else Awaiting, died)
  }

  function RefusedEvent(n: nat, died: bool): Event {
    if n < 4 then EarlyEvent(n)
    else if n == 4 then if died then BrowserDies(0) else Ask(0)
    else if n == 5 && !died then SaveSettles(0)
    else Ask(0)
  }

  lemma RefusedStep(n: nat, died: bool)
    requires n < 7
    ensures Enabled(RefusedState(n, died), RefusedEvent(n, died))
    ensures RefusedState(n + 1, died) == Apply(RefusedState(n, died), RefusedEvent(n, died))
  {
    if n < 4 {
      EarlyStep(n);
    } else if died {
      assert n == 4 || RefusedEvent(n, died) == Ask(0);
    }
  }

  /** In both cases the last close is refused, and the caller finds the profile taken. */
  lemma CloseCanBeRefusedEarly(died: bool) returns (states: seq<State>, events: seq<Event>)
    ensures IsRun(states, events) && |events| == 7
    ensures IsRefused(states[6], events[6], 0) && |states[7].attempts| == 1
    ensures states[7].attempts[0].diedAlone == died && Blocked(states[7].locks, states[7].attempts[0].profile)
  {
    states, events := seq(8, n requires 0 <= n < 8 => RefusedState(n, died)), seq(7, n requires 0 <= n < 7 => RefusedEvent(n, died));
    forall n | 0 <= n < 7
      ensures Enabled(states[n], events[n]) && states[n + 1] == Apply(states[n], events[n])
    {
      RefusedStep(n, died);
    }
  }
}
