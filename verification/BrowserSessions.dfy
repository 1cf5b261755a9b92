/** The remote browser sessions of browser-service/src/sessions/sessions.ts over the profile locks, as a
    transition system: creations, closes, expiries and dying browsers interleave between `await`s. */
module BrowserSessions {
  import opened Wrappers
  import opened Counting
  import opened DirectoryChain
  import opened ProfileLocks

  /** `Releasing`: gone from the table, its Chrome still closing. */
  datatype Phase = Refused | Opening | CleaningUp | Listed | Releasing | Over

  datatype Chrome = NotLaunched | Running | CloseCalled | CloseSettled

  /** The session's `closing` promise. `Awaiting`: waiting for the `#release` it has called. */
  datatype Shutdown = NotAsked | Saving | Awaiting | Resolved

  /** One call of `create`; `starting` while that call has not returned, `releases` the calls of
      `releaseSession` made for it, `diedAlone` when its browser closed by itself. */
  datatype Attempt = Attempt(profile: Option<string>, starting: bool, phase: Phase, chrome: Chrome,
                             shutdown: Shutdown, releases: nat, diedAlone: bool)

  /** `table` is `#sessions` and `starting` is `#starting`. */
  datatype State = State(maxSessions: nat, locks: Locks, table: set<nat>, starting: int, attempts: seq<Attempt>)

  function Init(maxSessions: nat): State {
    State(maxSessions, UNLOCKED, {}, 0, [])
  }

  /** `Ask` is an explicit close, an expiry or the service's shutdown. */
  datatype Event =
    | RenderArrives(name: string)
    | RenderEnters(o: nat)
    | RenderEnds(o: nat)
    | Create(profile: Option<string>)
    | ChromeOpens(k: nat)
    | Register(k: nat)
    | OpenFails(k: nat)
    | CleanupSettles(k: nat)
    | CreateReturns(k: nat)
    | Ask(k: nat)
    | SaveSettles(k: nat)
    | BrowserDies(k: nat)
    | CloseSettles(k: nat)

  predicate In(s: State, k: nat, phase: Phase) {
    k < |s.attempts| && s.attempts[k].phase == phase
  }

  predicate Enabled(s: State, e: Event) {
    match e
    case RenderArrives(_) => true
    case RenderEnters(o) => MayEnter(s.locks.renders, o)
    case RenderEnds(o) => IsRunning(s.locks, o)
    case Create(_) => true
    case ChromeOpens(k) => In(s, k, Opening) && s.attempts[k].chrome == NotLaunched
    case Register(k) => In(s, k, Opening) && s.attempts[k].chrome == Running
    case OpenFails(k) => In(s, k, Opening)
    case CleanupSettles(k) => In(s, k, CleaningUp)
    case CreateReturns(k) => k < |s.attempts| && s.attempts[k].starting && s.attempts[k].phase !in {Opening, CleaningUp}
    case Ask(_) => true
    case SaveSettles(k) => k < |s.attempts| && s.attempts[k].shutdown == Saving
    case BrowserDies(k) => In(s, k, Listed)
    case CloseSettles(k) => In(s, k, Releasing)
  }

  function Put(s: State, k: nat, a: Attempt): State
    requires k < |s.attempts|
  {
    s.(attempts := s.attempts[k := a])
  }

  function HoldFor(l: Locks, profile: Option<string>): Locks
    requires profile.Some? ==> IsFree(l, profile.value)
  {
    if profile.Some? then Hold(l, profile.value) else l
  }

  predicate Blocked(l: Locks, profile: Option<string>) {
    profile.Some? && !IsFree(l, profile.value)
  }

  /** `create` up to its first `await`; `Refused` leaves only the `finally` to run. */
  function ApplyCreate(s: State, profile: Option<string>): State {
    if |s.table| + s.starting >= s.maxSessions then s
    else if Blocked(s.locks, profile) then
      s.(starting := s.starting + 1, attempts := s.attempts + [Attempt(profile, true, Refused, NotLaunched, NotAsked, 0, false)])
    else
      s.(starting := s.starting + 1, locks := HoldFor(s.locks, profile),
         attempts := s.attempts + [Attempt(profile, true, Opening, NotLaunched, NotAsked, 0, false)])
  }

  /** The end of a failed open or of `#release`: the hold on the profile is given back. */
  function Finish(s: State, k: nat): State
    requires k < |s.attempts|
  {
    var a := s.attempts[k];
    var over := a.(phase := Over,
                   chrome := if a.chrome == NotLaunched then NotLaunched else CloseSettled,
                   shutdown := if a.shutdown == Awaiting then Resolved else a.shutdown,
                   releases := a.releases + if a.profile.Some? then 1 else 0);
    Put(s, k, over).(locks := if a.profile.Some? then Drop(s.locks, a.profile.value) else s.locks)
  }

  /** `#release` up to its `await`: only the first caller finds the session in the table. */
  function Release(s: State, k: nat): State
    requires k < |s.attempts|
  {
    if k !in s.table then s
    else Put(s, k, s.attempts[k].(phase := Releasing, chrome := CloseCalled)).(table := s.table - {k})
  }

  /** The `#shutdown` of a session whose cookies are saved or need not be. */
  function ShutDown(s: State, k: nat): State
    requires k < |s.attempts|
  {
    var released := Release(s, k);
    Put(released, k, released.attempts[k].(shutdown := if k in s.table then Awaiting else Resolved))
  }

  function ApplyAsk(s: State, k: nat): State {
    if k !in s.table || k >= |s.attempts| || s.attempts[k].shutdown != NotAsked then s
    else if s.attempts[k].profile.Some? then Put(s, k, s.attempts[k].(shutdown := Saving))
    else ShutDown(s, k)
  }

  function Apply(s: State, e: Event): State
    requires Enabled(s, e)
  {
    match e
    case RenderArrives(name) => s.(locks := Arrive(s.locks, name))
    case RenderEnters(o) => s.(locks := Enter(s.locks, o))
    case RenderEnds(o) => s.(locks := Leave(s.locks, o))
    case Create(profile) => ApplyCreate(s, profile)
    case ChromeOpens(k) => Put(s, k, s.attempts[k].(chrome := Running))
    case Register(k) => Put(s, k, s.attempts[k].(phase := Listed)).(table := s.table + {k})
    case OpenFails(k) =>
      Put(s, k, s.attempts[k].(phase := CleaningUp, chrome := if s.attempts[k].chrome == Running then CloseCalled else NotLaunched))
    case CleanupSettles(k) => Finish(s, k)
    case CreateReturns(k) => Put(s, k, s.attempts[k].(starting := false)).(starting := s.starting - 1)
    case Ask(k) => ApplyAsk(s, k)
    case SaveSettles(k) => ShutDown(s, k)
    case BrowserDies(k) => Release(Put(s, k, s.attempts[k].(diedAlone := true)), k)
    case CloseSettles(k) => Finish(s, k)
  }

  predicate Holds(a: Attempt) {
    a.phase in {Opening, CleaningUp, Listed, Releasing}
  }

  predicate HoldsProfile(s: State, k: nat, name: string) {
    k < |s.attempts| && Holds(s.attempts[k]) && s.attempts[k].profile == Some(name)
  }

  predicate IsStarting(a: Attempt) {
    a.starting
  }

  predicate IsListed(a: Attempt) {
    a.phase == Listed
  }

  predicate TakesASlot(a: Attempt) {
    a.starting || a.phase == Listed
  }

  /** What is true of one attempt, whatever the others do. */
  predicate AttemptOk(a: Attempt) {
    && a.releases == (if a.phase == Over && a.profile.Some? then 1 else 0)
    && (match a.phase
        case Refused => a.chrome == NotLaunched
        case Opening => a.starting && a.chrome in {NotLaunched, Running}
        case CleaningUp => a.starting && a.chrome in {NotLaunched, CloseCalled}
        case Listed => a.chrome == Running
        case Releasing => a.chrome == CloseCalled
        case Over => a.chrome in {NotLaunched, CloseSettled})
    && (a.phase in {Refused, Opening, CleaningUp} ==> a.shutdown == NotAsked && !a.diedAlone)
    && (a.phase == Listed ==> a.shutdown in {NotAsked, Saving} && !a.diedAlone)
    && (a.phase == Releasing && !a.diedAlone ==> a.shutdown == Awaiting)
    && (a.phase == Releasing && a.diedAlone ==> a.shutdown != Awaiting)
    && (a.chrome == NotLaunched ==> a.shutdown == NotAsked)
    && (a.shutdown == Awaiting ==> a.phase == Releasing)
  }

  ghost predicate HoldsAreExact(s: State) {
    && (forall k, name | 0 <= k < |s.attempts| && HoldsProfile(s, k, name) :: name in s.locks.sessions)
    && (forall j, k, name | 0 <= j < |s.attempts| && 0 <= k < |s.attempts| && HoldsProfile(s, j, name) && HoldsProfile(s, k, name) :: j == k)
    && (forall name | name in s.locks.sessions :: exists k: nat :: HoldsProfile(s, k, name))
  }

  ghost predicate GaugesAreExact(s: State) {
    && s.starting == Count(s.attempts, IsStarting)
    && (forall k: nat :: k in s.table <==> k < |s.attempts| && IsListed(s.attempts[k]))
    && Count(s.attempts, TakesASlot) <= s.maxSessions
  }

  ghost predicate Inv(s: State) {
    && Exclusive(s.locks)
    && (forall k | 0 <= k < |s.attempts| :: AttemptOk(s.attempts[k]))
    && HoldsAreExact(s)
    && GaugesAreExact(s)
  }

  lemma CreateKeepsGauges(s: State, profile: Option<string>)
    requires Inv(s)
    ensures GaugesAreExact(ApplyCreate(s, profile))
  {
    var next := ApplyCreate(s, profile);
    if next != s {
      var a := next.attempts[|s.attempts|];
      CountAppend(s.attempts, a, IsStarting);
      CountAppend(s.attempts, a, TakesASlot);
      CountIsSize(s.attempts, IsListed, s.table);
      EitherCount(s.attempts, IsListed, IsStarting, TakesASlot);
    }
  }

  lemma CreateKeepsHolds(s: State, profile: Option<string>)
    requires Inv(s)
    ensures HoldsAreExact(ApplyCreate(s, profile)) && Exclusive(ApplyCreate(s, profile).locks)
  {
    var next := ApplyCreate(s, profile);
    if next != s {
      forall name | name in next.locks.sessions
        ensures exists k: nat :: HoldsProfile(next, k, name)
      {
        if name in s.locks.sessions {
          var k: nat :| HoldsProfile(s, k, name);
          assert HoldsProfile(next, k, name);
        } else {
          assert HoldsProfile(next, |s.attempts|, name);
        }
      }
      forall k, name | 0 <= k < |s.attempts| && HoldsProfile(next, k, name)
        ensures HoldsProfile(s, k, name)
      {
      }
    }
  }

  lemma CreateKeeps(s: State, profile: Option<string>)
    requires Inv(s)
    ensures Inv(ApplyCreate(s, profile))
  {
    CreateKeepsGauges(s, profile);
    CreateKeepsHolds(s, profile);
  }

  /** One attempt moves on and keeps its hold. */
  lemma MoveKeepsHolds(s: State, next: State, k: nat)
    requires Inv(s) && k < |s.attempts| == |next.attempts| && next.locks == s.locks
    requires next.attempts == s.attempts[k := next.attempts[k]]
    requires next.attempts[k].profile == s.attempts[k].profile && Holds(next.attempts[k]) == Holds(s.attempts[k])
    ensures HoldsAreExact(next)
  {
    assert forall j: nat, name :: HoldsProfile(next, j, name) == HoldsProfile(s, j, name);
  }

  lemma FinishKeepsHolds(s: State, k: nat)
    requires Inv(s) && k < |s.attempts| && Holds(s.attempts[k])
    ensures HoldsAreExact(Finish(s, k)) && Exclusive(Finish(s, k).locks)
  {
    var next := Finish(s, k);
    assert forall j: nat, name :: HoldsProfile(next, j, name) <==> j != k && HoldsProfile(s, j, name);
    forall name | name in next.locks.sessions
      ensures exists j: nat :: HoldsProfile(next, j, name)
    {
      var j: nat :| HoldsProfile(s, j, name);
      assert HoldsProfile(next, j, name);
    }
    forall j: nat, name | j < |s.attempts| && HoldsProfile(next, j, name)
      ensures name in next.locks.sessions
    {
      assert HoldsProfile(s, k, name) ==> j == k;
    }
  }

  lemma MoveKeepsGauges(s: State, next: State, k: nat)
    requires Inv(s) && k < |s.attempts| == |next.attempts| && next.maxSessions == s.maxSessions
    requires next.attempts == s.attempts[k := next.attempts[k]]
    requires next.starting - s.starting == (if next.attempts[k].starting then 1 else 0) - (if s.attempts[k].starting then 1 else 0)
    requires TakesASlot(next.attempts[k]) ==> TakesASlot(s.attempts[k])
    requires next.table == if IsListed(next.attempts[k]) then s.table + {k} else s.table - {k}
    ensures GaugesAreExact(next)
  {
    CountUpdate(s.attempts, k, next.attempts[k], IsStarting);
    CountUpdate(s.attempts, k, next.attempts[k], TakesASlot);
  }

  lemma FinishKeeps(s: State, k: nat)
    requires Inv(s) && k < |s.attempts| && s.attempts[k].phase in {CleaningUp, Releasing}
    ensures Inv(Finish(s, k))
  {
    FinishKeepsHolds(s, k);
    MoveKeepsGauges(s, Finish(s, k), k);
  }

  predicate MovesOneAttempt(e: Event) {
    e.ChromeOpens? || e.Register? || e.OpenFails? || e.CreateReturns? || e.SaveSettles? || e.BrowserDies?
  }

  lemma MoveIsOfOneAttempt(s: State, e: Event)
    requires Inv(s) && Enabled(s, e) && MovesOneAttempt(e)
    ensures var next := Apply(s, e);
            && |next.attempts| == |s.attempts| && next.attempts == s.attempts[e.k := next.attempts[e.k]]
            && next.locks == s.locks && next.maxSessions == s.maxSessions
            && AttemptOk(next.attempts[e.k])
            && next.attempts[e.k].profile == s.attempts[e.k].profile && Holds(next.attempts[e.k]) == Holds(s.attempts[e.k])
            && (TakesASlot(next.attempts[e.k]) ==> TakesASlot(s.attempts[e.k]))
  {
    assert AttemptOk(s.attempts[e.k]);
  }

  lemma MoveKeeps(s: State, e: Event)
    requires Inv(s) && Enabled(s, e) && MovesOneAttempt(e)
    ensures Inv(Apply(s, e))
  {
    var next := Apply(s, e);
    MoveIsOfOneAttempt(s, e);
    MoveKeepsHolds(s, next, e.k);
    assert e.k in s.table <==> IsListed(s.attempts[e.k]);
    MoveKeepsGauges(s, next, e.k);
  }

  lemma AskKeeps(s: State, k: nat)
    requires Inv(s)
    ensures Inv(ApplyAsk(s, k))
  {
    var next := ApplyAsk(s, k);
    if next != s {
      assert next.attempts == s.attempts[k := next.attempts[k]];
      MoveKeepsHolds(s, next, k);
      MoveKeepsGauges(s, next, k);
    }
  }

  lemma RenderStepKeeps(s: State, e: Event)
    requires Inv(s) && Enabled(s, e) && (e.RenderArrives? || e.RenderEnters? || e.RenderEnds?)
    ensures Inv(Apply(s, e))
  {
    match e {
      case RenderArrives(name) => ArriveKeeps(s.locks, name);
      case RenderEnters(o) => EnterKeeps(s.locks, o);
      case RenderEnds(o) => LeaveKeeps(s.locks, o);
    }
    var next := Apply(s, e);
    assert next.locks.sessions == s.locks.sessions;
    assert forall j: nat, name :: HoldsProfile(next, j, name) == HoldsProfile(s, j, name);
  }

  lemma StepKeeps(s: State, e: Event)
    requires Inv(s) && Enabled(s, e)
    ensures Inv(Apply(s, e))
  {
    match e
    case Create(profile) => CreateKeeps(s, profile);
    case CleanupSettles(k) => FinishKeeps(s, k);
    case CloseSettles(k) => FinishKeeps(s, k);
    case Ask(k) => AskKeeps(s, k);
    case RenderArrives(_) => RenderStepKeeps(s, e);
    case RenderEnters(_) => RenderStepKeeps(s, e);
    case RenderEnds(_) => RenderStepKeeps(s, e);
    case _ => MoveKeeps(s, e);
  }

  ghost predicate IsRun(states: seq<State>, events: seq<Event>) {
    && |states| == |events| + 1 && states[0] == Init(states[0].maxSessions)
    && forall n | 0 <= n < |events| :: Enabled(states[n], events[n]) && states[n + 1] == Apply(states[n], events[n])
  }

  lemma {:induction false} RunKeeps(states: seq<State>, events: seq<Event>, n: nat)
    requires IsRun(states, events) && n < |states|
    ensures Inv(states[n]) && states[n].maxSessions == states[0].maxSessions
  {
    if n > 0 {
      RunKeeps(states, events, n - 1);
      StepKeeps(states[n - 1], events[n - 1]);
    }
  }
}
