/** What the identity pool promises, in every reachable state and over every run. */
module PoolTheorems {
  import opened Wrappers
  import opened Counting
  import opened DirectoryChain
  import opened IdentityPool
  import opened PoolInvariant

  lemma InitHolds(maxIdentities: nat)
    ensures Inv(Init(maxIdentities))
  {
  }

  lemma {:induction false} RunKeeps(states: seq<Pool>, events: seq<Event>, n: nat)
    requires IsRun(states, events) && n < |states|
    ensures Inv(states[n])
  {
    if n == 0 {
      InitHolds(states[0].maxIdentities);
    } else {
      RunKeeps(states, events, n - 1);
      StepKeeps(states[n - 1], events[n - 1]);
    }
  }

  /** A Chrome, or a removal, is at work in the directory of job `o`. */
  predicate Working(p: Pool, o: nat) {
    && o < |p.jobs|
    && match p.jobs[o].stage
       case Running => true
       case Opened(b) => b < |p.browsers| && p.browsers[b].ending != Over
       case _ => false
  }

  /** No two Chromes, and no Chrome and removal, ever work in one profile directory; and they get
      there in the order in which they asked. */
  lemma OneWorkerPerDirectory(states: seq<Pool>, events: seq<Event>, n: nat, a: nat, b: nat)
    requires IsRun(states, events) && n < |states|
    requires a < b < |states[n].jobs| && SameDirectory(states[n].chain, a, b) && states[n].jobs[b].stage != Queued
    ensures states[n].jobs[a].stage != Queued && !Working(states[n], a)
    ensures states[n].chain.occupants[a].vacated
  {
    RunKeeps(states, events, n);
    var p := states[n];
    assert JobOk(p, a) && JobOk(p, b);
    EarlierOccupantsAreGone(p.chain, a, b);
  }

  predicate GivesUp(p: Pool, e: Event, o: nat)
    requires e.CloseEnds? ==> e.browser < |p.browsers|
  {
    e == LaunchFails(o) || e == DirectoryRemoved(o) || (e.CloseEnds? && p.browsers[e.browser].occupant == o)
  }

  lemma JoiningStays(p: Pool, e: Event, o: nat)
    requires Enabled(p, e) && o < |p.chain.occupants| && (e.Attach? || e.Rotate? || e.Acquire?)
    ensures |Apply(p, e).chain.occupants| >= |p.chain.occupants|
    ensures Apply(p, e).chain.occupants[o] == p.chain.occupants[o]
  {
    match e
    case Acquire(_, _, _, _, _) =>
    case Attach(_, _) =>
    case Rotate(_) =>
  }

  lemma OthersStay(p: Pool, e: Event, o: nat)
    requires Enabled(p, e) && o < |p.chain.occupants| && !GivesUp(p, e, o)
    ensures |Apply(p, e).chain.occupants| >= |p.chain.occupants|
    ensures Apply(p, e).chain.occupants[o].vacated == p.chain.occupants[o].vacated
  {
    if e.Attach? || e.Rotate? || e.Acquire? {
      JoiningStays(p, e, o);
    } else {
      match e
      case LaunchOpens(_) =>
      case Release(_, _) =>
      case _ =>
    }
  }

  /** Whoever gives up a directory has not given it up before, and has finished its work there: its
      launch failed, its removal ended, or its Chrome's close settled or timed out into a kill. */
  lemma VacatesOnce(p: Pool, e: Event, o: nat)
    requires Inv(p) && Enabled(p, e) && o < |p.chain.occupants|
    ensures var next := Apply(p, e);
            && |next.chain.occupants| >= |p.chain.occupants|
            && (p.chain.occupants[o].vacated ==> next.chain.occupants[o].vacated)
            && (next.chain.occupants[o].vacated && !p.chain.occupants[o].vacated <==> GivesUp(p, e, o))
  {
    if GivesUp(p, e, o) {
      assert JobOk(p, o);
      if e.CloseEnds? {
        assert BrowserOk(p, e.browser);
      }
    } else {
      OthersStay(p, e, o);
    }
  }

  predicate SamePlace(p: Pool, next: Pool, o: nat) {
    && o < |p.chain.occupants| <= |next.chain.occupants|
    && next.chain.occupants[o].directory == p.chain.occupants[o].directory
    && (p.chain.occupants[o].vacated ==> next.chain.occupants[o].vacated)
  }

  lemma PlaceStays(p: Pool, e: Event, o: nat)
    requires Inv(p) && Enabled(p, e) && o < |p.chain.occupants|
    ensures SamePlace(p, Apply(p, e), o)
  {
    VacatesOnce(p, e, o);
    if e.Attach? || e.Rotate? || e.Acquire? {
      JoiningStays(p, e, o);
    } else {
      match e
      case LaunchOpens(_) =>
      case Release(_, _) =>
      case _ =>
    }
  }

  ghost predicate PlacesAreKept(p: Pool, next: Pool) {
    forall o: nat {:trigger SamePlace(p, next, o)} | o < |p.chain.occupants| :: SamePlace(p, next, o)
  }

  lemma PlacesStayInStep(p: Pool, e: Event)
    requires Inv(p) && Enabled(p, e)
    ensures PlacesAreKept(p, Apply(p, e))
  {
    var next := Apply(p, e);
    forall o: nat {:trigger SamePlace(p, next, o)} | o < |p.chain.occupants|
      ensures SamePlace(p, next, o)
    {
      PlaceStays(p, e, o);
    }
  }

  lemma PlacesStayInRun(states: seq<Pool>, events: seq<Event>, n: nat)
    requires IsRun(states, events) && n < |events|
    ensures PlacesAreKept(states[n], states[n + 1])
  {
    RunKeeps(states, events, n);
    PlacesStayInStep(states[n], events[n]);
  }

  lemma {:induction false} PlacesStayAlong(states: seq<Pool>, n: nat, m: nat, o: nat)
    requires n <= m < |states| && o < |states[n].chain.occupants|
    requires forall k | 0 <= k < |states| - 1 :: PlacesAreKept(states[k], states[k + 1])
    ensures SamePlace(states[n], states[m], o)
  {
    if n < m {
      PlacesStayAlong(states, n, m - 1, o);
      assert PlacesAreKept(states[m - 1], states[(m - 1) + 1]);
      assert SamePlace(states[m - 1], states[m], o);
    }
  }

  lemma PlacesStay(states: seq<Pool>, events: seq<Event>, n: nat, m: nat, o: nat)
    requires IsRun(states, events) && n <= m < |states| && o < |states[n].chain.occupants|
    ensures SamePlace(states[n], states[m], o)
  {
    forall k | 0 <= k < |states| - 1
      ensures PlacesAreKept(states[k], states[k + 1])
    {
      PlacesStayInRun(states, events, k);
    }
    PlacesStayAlong(states, n, m, o);
  }

  /** What the end of the service's `close` waits for: once the promises registered when it began have
      resolved, everyone who had asked for a directory by then has vacated it. */
  lemma CloseWaitsForEveryone(states: seq<Pool>, events: seq<Event>, n: nat, m: nat, o: nat)
    requires IsRun(states, events) && n < |events| && events[n] == CloseService && n <= m < |states|
    requires forall d | d in states[n].chain.tails :: states[n].chain.tails[d] < |states[m].chain.occupants| && Free(states[m].chain, states[n].chain.tails[d])
    requires o < |states[n].chain.occupants|
    ensures o < |states[m].chain.occupants| && states[m].chain.occupants[o].vacated
  {
    RunKeeps(states, events, n);
    RunKeeps(states, events, m);
    PlacesStay(states, events, n, m, o);
    var before := states[n].chain;
    assert Registered(before, o);
    var directory := before.occupants[o].directory;
    if directory in before.tails {
      PlacesStay(states, events, n, m, before.tails[directory]);
      FreeMeansAllBeforeAreFree(states[m].chain, before.tails[directory], o);
    }
  }

  function Rank(ending: Ending): nat {
    match ending
    case Open => 0
    case Closing => 1
    case Settled => 2
    case Killed => 2
    case Over => 3
  }

  /** One step of a browser's life: no user joins a retired browser, and its shutdown starts once,
      when nobody uses it any more. */
  ghost predicate Drains(before: Browser, after: Browser, forced: bool) {
    && (before.retired ==> after.retired && after.users <= before.users)
    && Rank(before.ending) <= Rank(after.ending) <= Rank(before.ending) + 1
    && (before.ending == Open && after.ending != Open ==> after.retired && (after.users == 0 || forced))
  }

  lemma RetireDrains(p: Pool, b: nat, c: nat)
    requires c < |p.browsers| && b < |p.browsers| && p.browsers[b].identity < |p.identities|
    ensures |Retire(p, b).browsers| == |p.browsers| && Drains(p.browsers[c], Retire(p, b).browsers[c], false)
  {
  }

  lemma AcquireDrains(p: Pool, e: Event, c: nat)
    requires Inv(p) && Enabled(p, e) && e.Acquire? && c < |p.browsers|
    ensures |Apply(p, e).browsers| == |p.browsers| && Drains(p.browsers[c], Apply(p, e).browsers[c], false)
  {
    if !Conflicts(p, e.key, e.proxy) && e.key !in p.table && e.victim.Some? {
      var i := p.table[e.victim.value];
      if p.identities[i].browser.Some? {
        RetireDrains(p.(table := p.table - {e.victim.value}), p.identities[i].browser.value, c);
      }
    }
  }

  lemma RotateDrains(p: Pool, e: Event, c: nat)
    requires Inv(p) && Enabled(p, e) && e.Rotate? && c < |p.browsers|
    ensures |Apply(p, e).browsers| == |p.browsers| && Drains(p.browsers[c], Apply(p, e).browsers[c], false)
  {
    if Known(p, e.key) && p.identities[p.table[e.key]].users <= 0 {
      var i := p.table[e.key];
      if p.identities[i].browser.Some? {
        RetireDrains(p.(table := p.table - {e.key}), p.identities[i].browser.value, c);
      }
    }
  }

  lemma LaunchDrains(p: Pool, e: Event, c: nat)
    requires Inv(p) && Enabled(p, e) && e.LaunchOpens? && c < |p.browsers|
    ensures |Apply(p, e).browsers| == |p.browsers| + 1 && Drains(p.browsers[c], Apply(p, e).browsers[c], false)
  {
  }

  lemma AttachDrains(p: Pool, e: Event, c: nat)
    requires Inv(p) && Enabled(p, e) && e.Attach? && c < |p.browsers|
    ensures |Apply(p, e).browsers| == |p.browsers| && Drains(p.browsers[c], Apply(p, e).browsers[c], false)
  {
    assert IdentityOk(p, p.leases[e.lease].identity);
  }

  lemma ReleaseDrains(p: Pool, e: Event, c: nat)
    requires Inv(p) && Enabled(p, e) && e.Release? && c < |p.browsers|
    ensures |Apply(p, e).browsers| == |p.browsers| && Drains(p.browsers[c], Apply(p, e).browsers[c], false)
  {
    assert BrowserOk(p, c);
  }

  lemma OtherDrains(p: Pool, e: Event, c: nat)
    requires Inv(p) && Enabled(p, e) && c < |p.browsers|
    requires !e.Acquire? && !e.Rotate? && !e.LaunchOpens? && !e.Attach?
    ensures |Apply(p, e).browsers| == |p.browsers| && Drains(p.browsers[c], Apply(p, e).browsers[c], e == CloseService)
  {
    match e
    case Wedge(l) => RetireDrains(p, p.leases[l].hold.browser, c);
    case ChromeCloses(b) => RetireDrains(p, b, c);
    case Release(_, _) => ReleaseDrains(p, e, c);
    case _ =>
  }

  /** A browser's user count is the leases attached to it; once it is retired no lease joins it; its
      shutdown starts once, at the moment the last user leaves a retired browser or an unused one is
      retired, and otherwise only because the service closes. */
  lemma RetiredBrowsersDrain(p: Pool, e: Event, b: nat)
    requires Inv(p) && Enabled(p, e) && b < |p.browsers|
    ensures var next := Apply(p, e);
            && |next.browsers| >= |p.browsers|
            && next.browsers[b].users == HoldersOf(next, b)
            && Drains(p.browsers[b], next.browsers[b], e == CloseService)
            && (next.browsers[b].retired && next.browsers[b].users == 0 ==> next.browsers[b].ending != Open)
  {
    StepKeeps(p, e);
    var next := Apply(p, e);
    match e {
      case Acquire(_, _, _, _, _) => AcquireDrains(p, e, b);
      case Rotate(_) => RotateDrains(p, e, b);
      case LaunchOpens(_) => LaunchDrains(p, e, b);
      case Attach(_, _) => AttachDrains(p, e, b);
      case _ => OtherDrains(p, e, b);
    }
    assert BrowserOk(next, b);
  }

  /** Until the service closes, whoever holds a lease holds the identity that is listed under its key. */
  lemma LeasedIdentitiesAreListed(p: Pool, l: nat)
    requires Inv(p) && !p.closed && l < |p.leases| && !p.leases[l].released
    ensures p.leases[l].identity < |p.identities| && InTable(p, p.leases[l].identity)
  {
    assert LeaseOk(p, l);
    var i := p.leases[l].identity;
    assert IdentityOk(p, i);
    CountIsPositive(p.leases, l, (lease: Lease) => lease.identity == i && !lease.released);
  }

  /** So the launch a lease waits for becomes the identity's browser. */
  lemma LeasedLaunchIsNotDropped(p: Pool, l: nat, o: nat)
    requires Inv(p) && !p.closed && l < |p.leases| && !p.leases[l].released
    requires Enabled(p, LaunchOpens(o)) && p.jobs[o].task == Launch(p.leases[l].identity)
    ensures var next, i := Apply(p, LaunchOpens(o)), p.leases[l].identity;
            && next.identities[i].browser == Some(|p.browsers|)
            && !next.browsers[|p.browsers|].retired && next.browsers[|p.browsers|].identity == i
  {
    LeasedIdentitiesAreListed(p, l);
  }

  /** At most one launch of an identity is in flight. */
  lemma OneLaunchAtATime(p: Pool, a: nat, b: nat)
    requires Inv(p) && a < |p.jobs| && b < |p.jobs| && p.jobs[a].task.Launch? && p.jobs[b].task == p.jobs[a].task
    requires !p.jobs[a].cleared && !p.jobs[b].cleared
    ensures a == b
  {
    assert JobOk(p, a) && JobOk(p, b);
  }

  /** Nobody's identity is renamed, and no lease changes hands. */
  predicate IsNamed(p: Pool, next: Pool, i: nat) {
    && i < |p.identities| <= |next.identities|
    && next.identities[i].key == p.identities[i].key && next.identities[i].proxy == p.identities[i].proxy
    && next.identities[i].directory == p.identities[i].directory
  }

  predicate StaysWith(p: Pool, next: Pool, l: nat) {
    l < |p.leases| <= |next.leases| && next.leases[l].identity == p.leases[l].identity
  }

  lemma RetireNames(p: Pool, b: nat, i: nat)
    requires b < |p.browsers| && p.browsers[b].identity < |p.identities| && i < |p.identities|
    ensures IsNamed(p, Retire(p, b), i) && Retire(p, b).leases == p.leases
  {
  }

  lemma AcquireNames(p: Pool, e: Event, i: nat)
    requires Inv(p) && Enabled(p, e) && e.Acquire? && i < |p.identities|
    ensures IsNamed(p, Apply(p, e), i)
  {
    if e.key !in p.table && e.victim.Some? {
      var v := p.table[e.victim.value];
      if p.identities[v].browser.Some? {
        RetireNames(p.(table := p.table - {e.victim.value}), p.identities[v].browser.value, i);
      }
    }
  }

  lemma RotateNames(p: Pool, e: Event, i: nat)
    requires Inv(p) && Enabled(p, e) && e.Rotate? && i < |p.identities|
    ensures IsNamed(p, Apply(p, e), i) && Apply(p, e).leases == p.leases
  {
    if Known(p, e.key) && p.identities[p.table[e.key]].users <= 0 && p.identities[p.table[e.key]].browser.Some? {
      RetireNames(p.(table := p.table - {e.key}), p.identities[p.table[e.key]].browser.value, i);
    }
  }

  lemma RetiringNames(p: Pool, e: Event, i: nat)
    requires Inv(p) && Enabled(p, e) && (e.Wedge? || e.ChromeCloses? || e.LaunchOpens?) && i < |p.identities|
    ensures IsNamed(p, Apply(p, e), i) && Apply(p, e).leases == p.leases
  {
    match e
    case Wedge(l) => RetireNames(p, p.leases[l].hold.browser, i);
    case ChromeCloses(b) => RetireNames(p, b, i);
    case LaunchOpens(o) =>
  }

  lemma OthersName(p: Pool, e: Event, i: nat)
    requires Inv(p) && Enabled(p, e) && i < |p.identities|
    requires !e.Acquire? && !e.Rotate? && !e.Wedge? && !e.ChromeCloses? && !e.LaunchOpens?
    ensures IsNamed(p, Apply(p, e), i)
  {
    match e
    case Attach(_, _) =>
    case Release(_, _) =>
    case LaunchSettles(_) =>
    case CloseService =>
    case _ =>
  }

  lemma NamesStay(p: Pool, e: Event, i: nat)
    requires Inv(p) && Enabled(p, e) && i < |p.identities|
    ensures IsNamed(p, Apply(p, e), i)
  {
    if e.Acquire? {
      AcquireNames(p, e, i);
    } else if e.Rotate? {
      RotateNames(p, e, i);
    } else if e.Wedge? || e.ChromeCloses? || e.LaunchOpens? {
      RetiringNames(p, e, i);
    } else {
      OthersName(p, e, i);
    }
  }

  /** What `acquire` asks of the identity listed under the key, if there is one. */
  predicate MayShare(p: Pool, e: Event)
    requires e.Acquire?
  {
    e.key in p.table ==> p.table[e.key] < |p.identities| && p.identities[p.table[e.key]].proxy == e.proxy
  }

  /** An acquire under a key bound to another proxy changes nothing; any other takes a new lease, on an
      identity with the key and the proxy asked for. */
  lemma AcquireTakesWhatItAsks(p: Pool, e: Event)
    requires Inv(p) && Enabled(p, e) && e.Acquire?
    ensures var next := Apply(p, e);
            if MayShare(p, e) then
              && |next.leases| == |p.leases| + 1 && next.leases[..|p.leases|] == p.leases
              && !next.leases[|p.leases|].released && next.leases[|p.leases|].hold == Idle
              && var i := next.leases[|p.leases|].identity;
                 i < |next.identities| && next.identities[i].key == e.key && next.identities[i].proxy == e.proxy
            else next == p
  {
    if e.key in p.table {
      assert TableOk(p);
    }
  }

  lemma RetireLeases(p: Pool, b: nat)
    requires b < |p.browsers| && p.browsers[b].identity < |p.identities|
    ensures Retire(p, b).leases == p.leases
  {
  }

  lemma RetiringLeases(p: Pool, e: Event)
    requires Inv(p) && Enabled(p, e) && (e.Wedge? || e.ChromeCloses? || e.LaunchOpens? || e.Rotate?)
    ensures Apply(p, e).leases == p.leases
  {
    match e
    case Wedge(l) => RetireLeases(p, p.leases[l].hold.browser);
    case ChromeCloses(b) => RetireLeases(p, b);
    case LaunchOpens(_) =>
    case Rotate(key) =>
      if Known(p, key) && p.identities[p.table[key]].users <= 0 && p.identities[p.table[key]].browser.Some? {
        RetireLeases(p.(table := p.table - {key}), p.identities[p.table[key]].browser.value);
      }
  }

  lemma OtherLeases(p: Pool, e: Event)
    requires Inv(p) && Enabled(p, e) && !e.Acquire?
    ensures |Apply(p, e).leases| == |p.leases| && forall l | 0 <= l < |p.leases| :: Apply(p, e).leases[l].identity == p.leases[l].identity
  {
    if e.Wedge? || e.ChromeCloses? || e.LaunchOpens? || e.Rotate? {
      RetiringLeases(p, e);
    } else {
      match e
      case Attach(_, _) =>
      case Release(_, _) =>
      case _ =>
    }
  }

  lemma LeasesStay(p: Pool, e: Event, l: nat)
    requires Inv(p) && Enabled(p, e) && l < |p.leases|
    ensures StaysWith(p, Apply(p, e), l)
  {
    if e.Acquire? {
      AcquireTakesWhatItAsks(p, e);
      assert MayShare(p, e) ==> Apply(p, e).leases[..|p.leases|][l] == p.leases[l];
    } else {
      OtherLeases(p, e);
    }
  }

  ghost predicate KeepsNames(p: Pool, next: Pool) {
    && (forall i: nat {:trigger IsNamed(p, next, i)} | i < |p.identities| :: IsNamed(p, next, i))
    && (forall l: nat {:trigger StaysWith(p, next, l)} | l < |p.leases| :: StaysWith(p, next, l))
  }

  lemma NamesStayInRun(states: seq<Pool>, events: seq<Event>, n: nat)
    requires IsRun(states, events) && n < |events|
    ensures KeepsNames(states[n], states[n + 1])
  {
    RunKeeps(states, events, n);
    var p, next := states[n], states[n + 1];
    forall i: nat {:trigger IsNamed(p, next, i)} | i < |p.identities|
      ensures IsNamed(p, next, i)
    {
      NamesStay(p, events[n], i);
    }
    forall l: nat {:trigger StaysWith(p, next, l)} | l < |p.leases|
      ensures StaysWith(p, next, l)
    {
      LeasesStay(p, events[n], l);
    }
  }

  lemma {:induction false} NamesStayAlong(states: seq<Pool>, m: nat, n: nat, l: nat)
    requires m <= n < |states| && l < |states[m].leases| && states[m].leases[l].identity < |states[m].identities|
    requires forall k | 0 <= k < |states| - 1 :: KeepsNames(states[k], states[k + 1])
    ensures StaysWith(states[m], states[n], l) && IsNamed(states[m], states[n], states[m].leases[l].identity)
  {
    if m < n {
      var p, last := states[n - 1], states[(n - 1) + 1];
      NamesStayAlong(states, m, n - 1, l);
      assert KeepsNames(p, last);
      assert StaysWith(p, last, l) && IsNamed(p, last, states[m].leases[l].identity);
    }
  }

  /** For as long as the pool runs, the identity behind a lease has the key and the proxy of the acquire
      that took it. */
  lemma LeaseIsWhatWasAsked(states: seq<Pool>, events: seq<Event>, m: nat, n: nat)
    requires IsRun(states, events) && m < n < |states| && events[m].Acquire? && MayShare(states[m], events[m])
    ensures var p, l := states[n], |states[m].leases|;
            && l < |p.leases| && p.leases[l].identity < |p.identities|
            && p.identities[p.leases[l].identity].key == events[m].key && p.identities[p.leases[l].identity].proxy == events[m].proxy
  {
    RunKeeps(states, events, m);
    AcquireTakesWhatItAsks(states[m], events[m]);
    assert states[m + 1] == Apply(states[m], events[m]);
    forall k | 0 <= k < |states| - 1
      ensures KeepsNames(states[k], states[k + 1])
    {
      NamesStayInRun(states, events, k);
    }
    NamesStayAlong(states, m + 1, n, |states[m].leases|);
  }

  /** And every lease was taken by such an acquire. */
  lemma {:induction false} EveryLeaseWasAsked(states: seq<Pool>, events: seq<Event>, n: nat, l: nat) returns (m: nat)
    requires IsRun(states, events) && n < |states| && l < |states[n].leases|
    ensures m < n && events[m].Acquire? && MayShare(states[m], events[m]) && |states[m].leases| == l
  {
    m := n - 1;
    RunKeeps(states, events, m);
    if l < |states[m].leases| {
      m := EveryLeaseWasAsked(states, events, m, l);
    } else if events[m].Acquire? {
      AcquireTakesWhatItAsks(states[m], events[m]);
    } else {
      OtherLeases(states[m], events[m]);
    }
  }

  /** The keys whose identity is leased. */
  function LeasedKeys(p: Pool): set<string> {
    set k | k in p.table && p.table[k] < |p.identities| && p.identities[p.table[k]].users > 0
  }

  function Larger(a: nat, b: nat): nat {
    if a < b then b else a
  }

  /** The most identities leased at once in any of the states. */
  function Peak(states: seq<Pool>): nat {
    if states == [] then 0 else Larger(Peak(states[..|states| - 1]), |LeasedKeys(states[|states| - 1])|)
  }

  lemma EvictMakesRoom(p: Pool, victim: string)
    requires Known(p, victim) && CurrentExists(p, p.table[victim])
    ensures Evict(p, Some(victim)).table == p.table - {victim} && |Evict(p, Some(victim)).table| == |p.table| - 1
  {
    assert (p.table - {victim}).Keys == p.table.Keys - {victim};
  }

  lemma FullTableIsLeased(p: Pool, key: string, proxy: Option<string>, directory: string, now: int)
    requires Inv(p) && key !in p.table && forall k | k in p.table :: !IsIdle(p, k)
    ensures var next := TakeLease(Create(p, key, proxy, directory, now), |p.identities|);
            next.table.Keys == LeasedKeys(next)
  {
    var next := TakeLease(Create(p, key, proxy, directory, now), |p.identities|);
    forall k | k in next.table
      ensures k in LeasedKeys(next)
    {
      if k != key {
        assert !IsIdle(p, k) && p.table[k] < |p.identities|;
        assert IdentityOk(p, p.table[k]);
      }
    }
  }

  lemma AcquireGrowth(p: Pool, key: string, proxy: Option<string>, directory: string, victim: Option<string>, now: int)
    requires Inv(p) && Enabled(p, Acquire(key, proxy, directory, victim, now)) && key !in p.table
    ensures var next := ApplyAcquire(p, key, proxy, directory, victim, now);
            |next.table| <= |p.table| || |next.table| <= p.maxIdentities || next.table.Keys == LeasedKeys(next)
  {
    if victim == None && |p.table| >= p.maxIdentities {
      FullTableIsLeased(p, key, proxy, directory, now);
    } else {
      if victim.Some? {
        EvictMakesRoom(p, victim.value);
      }
      assert |Evict(p, victim).table| < |p.table| || |Evict(p, victim).table| < p.maxIdentities;
      var room := Evict(p, victim);
      assert |room.table[key := |room.identities|]| <= |room.table| + 1;
    }
  }

  lemma RetireStays(p: Pool, b: nat)
    requires b < |p.browsers| && p.browsers[b].identity < |p.identities|
    ensures Retire(p, b).table == p.table && Retire(p, b).chain == p.chain
  {
  }

  lemma RetiringGrowth(p: Pool, e: Event)
    requires Enabled(p, e) && (e.Wedge? || e.ChromeCloses? || e.LaunchOpens? || e.Release?)
    ensures Apply(p, e).table == p.table
  {
    match e
    case Wedge(l) => RetireStays(p, p.leases[l].hold.browser);
    case ChromeCloses(b) => RetireStays(p, b);
    case LaunchOpens(o) =>
    case Release(l, now) =>
  }

  lemma RotateGrowth(p: Pool, key: string)
    requires Enabled(p, Rotate(key))
    ensures Apply(p, Rotate(key)).table == p.table || Apply(p, Rotate(key)).table == p.table - {key}
  {
  }

  lemma OtherGrowth(p: Pool, e: Event)
    requires Enabled(p, e)
    requires e.Acquire? ==> Conflicts(p, e.key, e.proxy) || e.key in p.table
    ensures Apply(p, e).table == p.table || (e.Rotate? && Apply(p, e).table == p.table - {e.key}) || Apply(p, e).table == map[]
  {
    if e.Wedge? || e.ChromeCloses? || e.LaunchOpens? || e.Release? {
      RetiringGrowth(p, e);
    } else if e.Rotate? {
      RotateGrowth(p, e.key);
    }
  }

  lemma RetiringLimit(p: Pool, e: Event)
    requires Enabled(p, e) && (e.Wedge? || e.ChromeCloses? || e.LaunchOpens? || e.Release?)
    ensures Apply(p, e).maxIdentities == p.maxIdentities
  {
  }

  lemma TableLimit(p: Pool, e: Event)
    requires Enabled(p, e) && (e.Rotate? || e.Acquire?)
    ensures Apply(p, e).maxIdentities == p.maxIdentities
  {
  }

  lemma LimitIsConstant(p: Pool, e: Event)
    requires Enabled(p, e)
    ensures Apply(p, e).maxIdentities == p.maxIdentities
  {
    if e.Wedge? || e.ChromeCloses? || e.LaunchOpens? || e.Release? {
      RetiringLimit(p, e);
    } else if e.Rotate? || e.Acquire? {
      TableLimit(p, e);
    }
  }

  lemma TableGrowsOnlyWhenAllAreLeased(p: Pool, e: Event)
    requires Inv(p) && Enabled(p, e)
    ensures var next := Apply(p, e);
            |next.table| <= |p.table| || |next.table| <= p.maxIdentities || next.table.Keys == LeasedKeys(next)
  {
    if e.Acquire? && !Conflicts(p, e.key, e.proxy) && e.key !in p.table {
      AcquireGrowth(p, e.key, e.proxy, e.directory, e.victim, e.now);
    } else {
      OtherGrowth(p, e);
      if e.Rotate? {
        assert (p.table - {e.key}).Keys == p.table.Keys - {e.key};
      }
    }
  }

  lemma NewKeySize(room: Pool, key: string, proxy: Option<string>, directory: string, now: int)
    requires key !in room.table
    ensures |TakeLease(Create(room, key, proxy, directory, now), |room.identities|).table| == |room.table| + 1
  {
    assert room.table[key := |room.identities|].Keys == room.table.Keys + {key};
  }

  lemma AcquireSize(p: Pool, e: Event)
    requires Inv(p) && Enabled(p, e) && e.Acquire? && e.key !in p.table
    ensures |Apply(p, e).table| == if e.victim == None then |p.table| + 1 else |p.table|
  {
    if e.victim.Some? {
      EvictMakesRoom(p, e.victim.value);
    }
    NewKeySize(Evict(p, e.victim), e.key, e.proxy, e.directory, e.now);
  }

  lemma OtherSize(p: Pool, e: Event)
    requires Inv(p) && Enabled(p, e) && (e.Acquire? ==> e.key in p.table)
    ensures |Apply(p, e).table| <= |p.table|
  {
    OtherGrowth(p, e);
    if e.Rotate? {
      assert (p.table - {e.key}).Keys == p.table.Keys - {e.key};
    }
  }

  /** Exactly one step takes the table past its limit: a new key, asked for while the table is full and
      none of its identities is idle. */
  lemma GrowsPastTheLimitIff(p: Pool, e: Event)
    requires Inv(p) && Enabled(p, e)
    ensures |Apply(p, e).table| > |p.table| && |Apply(p, e).table| > p.maxIdentities
            <==> e.Acquire? && e.key !in p.table && |p.table| >= p.maxIdentities && forall k | k in p.table :: !IsIdle(p, k)
  {
    if e.Acquire? && e.key !in p.table {
      AcquireSize(p, e);
    } else {
      OtherSize(p, e);
    }
  }

  /** A step that takes the table past its limit. */
  ghost predicate OverflowsAt(states: seq<Pool>, events: seq<Event>, n: nat)
    requires n < |states| && n < |events|
  {
    var p, e := states[n], events[n];
    e.Acquire? && e.key !in p.table && |p.table| >= p.maxIdentities && forall k | k in p.table :: !IsIdle(p, k)
  }

  lemma OverflowStep(states: seq<Pool>, events: seq<Event>, n: nat)
    requires IsRun(states, events) && n < |events|
    ensures states[n + 1].maxIdentities == states[n].maxIdentities
    ensures |states[n + 1].table| > |states[n].table| && |states[n + 1].table| > states[n].maxIdentities <==> OverflowsAt(states, events, n)
  {
    RunKeeps(states, events, n);
    LimitIsConstant(states[n], events[n]);
    GrowsPastTheLimitIff(states[n], events[n]);
  }

  /** Sizes that start within a limit stay there until one grows past it. */
  lemma {:induction false} StaysWithinIff(sizes: seq<nat>, over: seq<bool>, limit: nat, n: nat)
    requires |sizes| == |over| + 1 && n <= |over| && sizes[0] <= limit
    requires forall k | 0 <= k < |over| :: over[k] <==> sizes[k + 1] > sizes[k] && sizes[k + 1] > limit
    ensures (forall m | 0 <= m <= n :: sizes[m] <= limit) <==> forall m | 0 <= m < n :: !over[m]
  {
    if n > 0 {
      StaysWithinIff(sizes, over, limit, n - 1);
      assert over[n - 1] <==> sizes[n] > sizes[n - 1] && sizes[n] > limit;
    }
  }

  /** A run keeps the limit exactly as long as no such step has come. */
  lemma LimitIsKeptIff(states: seq<Pool>, events: seq<Event>, n: nat)
    requires IsRun(states, events) && n < |states|
    ensures (forall m | 0 <= m <= n :: |states[m].table| <= states[0].maxIdentities) <==> forall m | 0 <= m < n :: !OverflowsAt(states, events, m)
  {
    var sizes := seq(|states|, m requires 0 <= m < |states| => |states[m].table|);
    var over := seq(|events|, m requires 0 <= m < |events| => OverflowsAt(states, events, m));
    forall m | 0 <= m < |events|
      ensures over[m] <==> sizes[m + 1] > sizes[m] && sizes[m + 1] > states[0].maxIdentities
    {
      LimitOverRun(states, events, m);
      OverflowStep(states, events, m);
    }
    StaysWithinIff(sizes, over, states[0].maxIdentities, n);
    assert forall m | 0 <= m <= n :: sizes[m] == |states[m].table|;
    assert forall m | 0 <= m < n :: over[m] == OverflowsAt(states, events, m);
  }

  lemma {:induction false} LimitOverRun(states: seq<Pool>, events: seq<Event>, n: nat)
    requires IsRun(states, events) && n < |states|
    ensures states[n].maxIdentities == states[0].maxIdentities
  {
    if n > 0 {
      LimitOverRun(states, events, n - 1);
      LimitIsConstant(states[n - 1], events[n - 1]);
    }
  }

  function LeasedOnce(key: string): Identity {
    Identity(key, key, None, None, None, 1, 0)
  }

  function TwoKeys(n: nat): Pool {
    match n
    case 0 => Init(1)
    case 1 => Pool(1, map["a" := 0], [LeasedOnce("a")], [], [Lease(0, Idle, false)], [], EMPTY, false)
    case _ =>
      Pool(1, map["a" := 0, "b" := 1], [LeasedOnce("a"), LeasedOnce("b")], [], [Lease(0, Idle, false), Lease(1, Idle, false)], [], EMPTY, false)
  }

  function TwoKeysEvent(n: nat): Event {
    Acquire(if n == 0 then "a" else "b", None, if n == 0 then "a" else "b", None, 0)
  }

  lemma TwoKeysStep(n: nat)
    requires n < 2
    ensures Enabled(TwoKeys(n), TwoKeysEvent(n)) && Apply(TwoKeys(n), TwoKeysEvent(n)) == TwoKeys(n + 1)
  {
    assert "a" != "b";
  }

  /** With room for one identity and two keys in use, the table holds two. */
  lemma TableCanExceedItsLimit() returns (states: seq<Pool>, events: seq<Event>)
    ensures IsRun(states, events) && |states[|events|].table| > states[|events|].maxIdentities
  {
    states, events := [TwoKeys(0), TwoKeys(1), TwoKeys(2)], [TwoKeysEvent(0), TwoKeysEvent(1)];
    TwoKeysStep(0);
    TwoKeysStep(1);
    assert "a" != "b";
    assert TwoKeys(2).table.Keys == {"a", "b"};
  }

  /** The table shrank, is within its limit, or is leased through and through. */
  ghost predicate Contained(p: Pool, next: Pool, limit: nat) {
    |next.table| <= |p.table| || |next.table| <= limit || |next.table| == |LeasedKeys(next)|
  }

  lemma TableStep(states: seq<Pool>, events: seq<Event>, n: nat)
    requires IsRun(states, events) && n < |events|
    ensures Contained(states[n], states[n + 1], states[0].maxIdentities)
  {
    RunKeeps(states, events, n);
    LimitOverRun(states, events, n);
    TableGrowsOnlyWhenAllAreLeased(states[n], events[n]);
    var next := states[n + 1];
    assert next.table.Keys == LeasedKeys(next) ==> |next.table| == |LeasedKeys(next)|;
  }

  lemma {:induction false} PeakBounds(states: seq<Pool>, limit: nat, n: nat)
    requires n < |states| && |states[0].table| <= limit
    requires forall k | 0 <= k < |states| - 1 :: Contained(states[k], states[k + 1], limit)
    ensures |states[n].table| <= Larger(limit, Peak(states[..n + 1]))
  {
    assert states[..n + 1][..n] == states[..n];
    if n > 0 {
      PeakBounds(states, limit, n - 1);
      assert Contained(states[n - 1], states[n], limit);
    }
  }

  /** The table never exceeds the larger of its limit and the most identities ever leased at once. */
  lemma TableIsBounded(states: seq<Pool>, events: seq<Event>, n: nat)
    requires IsRun(states, events) && n < |states|
    ensures states[n].maxIdentities == states[0].maxIdentities
    ensures |states[n].table| <= Larger(states[0].maxIdentities, Peak(states[..n + 1]))
  {
    LimitOverRun(states, events, n);
    forall k | 0 <= k < |states| - 1
      ensures Contained(states[k], states[k + 1], states[0].maxIdentities)
    {
      TableStep(states, events, k);
    }
    PeakBounds(states, states[0].maxIdentities, n);
  }
}
