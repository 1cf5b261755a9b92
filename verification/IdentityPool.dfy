/** The warm identity pool of browser-service/src/identities/pool.ts as a transition system. Every
    event is one synchronous stretch of code between two `await`s; the stretches of all leases,
    launches, closes and rotations interleave freely. Objects are named by their order of creation. */
module IdentityPool {
  import opened Wrappers
  import opened DirectoryChain

  datatype Identity = Identity(key: string, directory: string, proxy: Option<string>,
                               browser: Option<nat>, launching: Option<nat>, users: int, lastUsed: int)

  /** How far the shutdown of a Chrome has come: `close()` called, settled or timed out and killed,
      and finished (its directory vacated). */
  datatype Ending = Open | Closing | Settled | Killed | Over

  datatype Browser = Browser(identity: nat, occupant: nat, users: int, retired: bool, ending: Ending)

  /** Where a lease's `context` call stands. `Counted` lies between `#attach` counting the user and
      the caller learning the browser. */
  datatype Hold = Idle | Waiting(launch: nat) | Counted(browser: nat) | Attached(browser: nat) | Failed

  datatype Lease = Lease(identity: nat, hold: Hold, released: bool)

  datatype Task = Launch(identity: nat) | Removal

  datatype Stage = Queued | Running | Opened(browser: nat) | Broken | Removed

  /** What an occupant of a directory does there. `cleared`: the launch promise has settled. */
  datatype Job = Job(task: Task, stage: Stage, cleared: bool)

  datatype Pool = Pool(maxIdentities: nat, table: map<string, nat>, identities: seq<Identity>, browsers: seq<Browser>,
                       leases: seq<Lease>, jobs: seq<Job>, chain: Chain, closed: bool)

  datatype Event =
    | Acquire(key: string, proxy: Option<string>, directory: string, victim: Option<string>, now: int)
    | Attach(lease: nat, aborted: bool)
    | Abort(lease: nat)
    | LaunchRejected(lease: nat)
    | Deliver(lease: nat)
    | Wedge(lease: nat)
    | Release(lease: nat, now: int)
    | Enter(job: nat)
    | LaunchFails(job: nat)
    | LaunchOpens(job: nat)
    | LaunchSettles(job: nat)
    | DirectoryRemoved(job: nat)
    | ChromeCloses(browser: nat)
    | CloseSettles(browser: nat)
    | CloseTimesOut(browser: nat)
    | CloseEnds(browser: nat)
    | Rotate(key: string)
    | ForgetTail(job: nat)
    | CloseService

  function Init(maxIdentities: nat): Pool {
    Pool(maxIdentities, map[], [], [], [], [], EMPTY, false)
  }

  predicate InTable(p: Pool, i: nat)
    requires i < |p.identities|
  {
    p.identities[i].key in p.table && p.table[p.identities[i].key] == i
  }

  predicate Known(p: Pool, key: string) {
    key in p.table && p.table[key] < |p.identities|
  }

  /** `#shutdown`: the close starts once. */
  function Shutdown(p: Pool, b: nat): Pool
    requires b < |p.browsers|
  {
    if p.browsers[b].ending == Open then p.(browsers := p.browsers[b := p.browsers[b].(ending := Closing)]) else p
  }

  /** `#retire`. */
  function Retire(p: Pool, b: nat): Pool
    requires b < |p.browsers| && p.browsers[b].identity < |p.identities|
  {
    if p.browsers[b].retired then p
    else
      var i := p.browsers[b].identity;
      var retired := p.(browsers := p.browsers[b := p.browsers[b].(retired := true)]);
      var dropped :=
        if p.identities[i].browser == Some(b) then retired.(identities := p.identities[i := p.identities[i].(browser := None)])
        else retired;
      if p.browsers[b].users == 0 then Shutdown(dropped, b) else dropped
  }

  predicate IsIdle(p: Pool, key: string) {
    Known(p, key) && p.identities[p.table[key]].users == 0
  }

  /** The choice of `#evictIdle`: an idle identity used least recently, if the pool is full. */
  ghost predicate IsVictim(p: Pool, victim: Option<string>) {
    match victim
    case None => |p.table| < p.maxIdentities || forall k | k in p.table :: !IsIdle(p, k)
    case Some(v) =>
      && |p.table| >= p.maxIdentities && IsIdle(p, v)
      && forall k | k in p.table && IsIdle(p, k) :: p.identities[p.table[v]].lastUsed <= p.identities[p.table[k]].lastUsed
  }

  function RetireCurrent(p: Pool, i: nat): Pool
    requires i < |p.identities|
    requires p.identities[i].browser.Some? ==> p.identities[i].browser.value < |p.browsers| && p.browsers[p.identities[i].browser.value].identity < |p.identities|
  {
    if p.identities[i].browser.Some? then Retire(p, p.identities[i].browser.value) else p
  }

  predicate CurrentExists(p: Pool, i: nat)
    requires i < |p.identities|
  {
    p.identities[i].browser.Some? ==>
      p.identities[i].browser.value < |p.browsers| && p.browsers[p.identities[i].browser.value].identity < |p.identities|
  }

  function Evict(p: Pool, victim: Option<string>): Pool
    requires victim.Some? ==> Known(p, victim.value) && CurrentExists(p, p.table[victim.value])
  {
    if victim == None then p
    else
      var i := p.table[victim.value];
      RetireCurrent(p.(table := p.table - {victim.value}), i)
  }

  function Create(p: Pool, key: string, proxy: Option<string>, directory: string, now: int): Pool {
    p.(identities := p.identities + [Identity(key, directory, proxy, None, None, 0, now)],
       table := p.table[key := |p.identities|])
  }

  function TakeLease(p: Pool, i: nat): Pool
    requires i < |p.identities|
  {
    p.(identities := p.identities[i := p.identities[i].(users := p.identities[i].users + 1)],
       leases := p.leases + [Lease(i, Idle, false)])
  }

  predicate Conflicts(p: Pool, key: string, proxy: Option<string>) {
    Known(p, key) && p.identities[p.table[key]].proxy != proxy
  }

  function ApplyAcquire(p: Pool, key: string, proxy: Option<string>, directory: string, victim: Option<string>, now: int): Pool
    requires key in p.table ==> Known(p, key)
    requires victim.Some? ==> Known(p, victim.value) && CurrentExists(p, p.table[victim.value])
  {
    if Conflicts(p, key, proxy) then p
    else if key in p.table then TakeLease(p, p.table[key])
    else
      var room := Evict(p, victim);
      TakeLease(Create(room, key, proxy, directory, now), |room.identities|)
  }

  function SetHold(p: Pool, l: nat, hold: Hold): Pool
    requires l < |p.leases|
  {
    p.(leases := p.leases[l := p.leases[l].(hold := hold)])
  }

  /** `#startLaunch`, up to the first `await` of `#launch`. */
  function StartLaunch(p: Pool, i: nat): Pool
    requires i < |p.identities|
  {
    p.(jobs := p.jobs + [Job(Launch(i), Queued, false)],
       chain := Occupy(p.chain, p.identities[i].directory),
       identities := p.identities[i := p.identities[i].(launching := Some(|p.jobs|))])
  }

  function ApplyAttach(p: Pool, l: nat, aborted: bool): Pool
    requires l < |p.leases| && p.leases[l].identity < |p.identities|
    requires p.identities[p.leases[l].identity].browser.Some? ==> p.identities[p.leases[l].identity].browser.value < |p.browsers|
  {
    var i := p.leases[l].identity;
    if aborted then SetHold(p, l, Failed)
    else if p.identities[i].browser.Some? then
      var b := p.identities[i].browser.value;
      SetHold(p.(browsers := p.browsers[b := p.browsers[b].(users := p.browsers[b].users + 1)]), l, Counted(b))
    else if p.identities[i].launching.Some? then SetHold(p, l, Waiting(p.identities[i].launching.value))
    else SetHold(StartLaunch(p, i), l, Waiting(|p.jobs|))
  }

  function ApplyRelease(p: Pool, l: nat, now: int): Pool
    requires l < |p.leases| && p.leases[l].identity < |p.identities|
    requires p.leases[l].hold.Attached? ==> p.leases[l].hold.browser < |p.browsers|
  {
    if p.leases[l].released then p
    else
      var i := p.leases[l].identity;
      var left := p.(leases := p.leases[l := p.leases[l].(released := true)],
                     identities := p.identities[i := p.identities[i].(users := p.identities[i].users - 1, lastUsed := now)]);
      if !p.leases[l].hold.Attached? then left
      else
        var b := p.leases[l].hold.browser;
        var fewer := left.(browsers := p.browsers[b := p.browsers[b].(users := p.browsers[b].users - 1)]);
        if fewer.browsers[b].retired && fewer.browsers[b].users == 0 then Shutdown(fewer, b) else fewer
  }

  function SetStage(p: Pool, o: nat, stage: Stage): Pool
    requires o < |p.jobs|
  {
    p.(jobs := p.jobs[o := p.jobs[o].(stage := stage)])
  }

  function ApplyLaunchOpens(p: Pool, o: nat): Pool
    requires o < |p.jobs| && p.jobs[o].task.Launch? && p.jobs[o].task.identity < |p.identities|
  {
    var i, b := p.jobs[o].task.identity, |p.browsers|;
    var launched := SetStage(p, o, Opened(b)).(browsers := p.browsers + [Browser(i, o, 0, false, Open)]);
    if InTable(p, i) then launched.(identities := p.identities[i := p.identities[i].(browser := Some(b))])
    else Retire(launched, b)
  }

  function ApplyLaunchSettles(p: Pool, o: nat): Pool
    requires o < |p.jobs| && p.jobs[o].task.Launch? && p.jobs[o].task.identity < |p.identities|
  {
    var i := p.jobs[o].task.identity;
    var cleared := p.(jobs := p.jobs[o := p.jobs[o].(cleared := true)]);
    if p.identities[i].launching == Some(o) then cleared.(identities := p.identities[i := p.identities[i].(launching := None)])
    else cleared
  }

  function ApplyRotate(p: Pool, key: string): Pool
    requires Known(p, key) ==> CurrentExists(p, p.table[key])
  {
    if !Known(p, key) || p.identities[p.table[key]].users > 0 then p
    else
      var i := p.table[key];
      var gone := RetireCurrent(p.(table := p.table - {key}), i);
      gone.(jobs := gone.jobs + [Job(Removal, Queued, false)], chain := Occupy(gone.chain, p.identities[i].directory))
  }

  /** The browser is the current one of an identity in the table. */
  predicate Warm(p: Pool, b: nat)
    requires b < |p.browsers|
  {
    var i := p.browsers[b].identity;
    i < |p.identities| && InTable(p, i) && p.identities[i].browser == Some(b)
  }

  function ApplyCloseService(p: Pool): Pool {
    p.(table := map[], closed := true,
       browsers := seq(|p.browsers|, b requires 0 <= b < |p.browsers| =>
         if Warm(p, b) then p.browsers[b].(retired := true, ending := if p.browsers[b].ending == Open then Closing else p.browsers[b].ending)
         else p.browsers[b]),
       identities := seq(|p.identities|, i requires 0 <= i < |p.identities| =>
         if InTable(p, i) then p.identities[i].(browser := None) else p.identities[i]))
  }

  function SetEnding(p: Pool, b: nat, ending: Ending): Pool
    requires b < |p.browsers|
  {
    p.(browsers := p.browsers[b := p.browsers[b].(ending := ending)])
  }

  predicate LeaseStep(p: Pool, l: nat) {
    l < |p.leases| && p.leases[l].identity < |p.identities| && !p.leases[l].released
  }

  predicate JobStep(p: Pool, o: nat) {
    && o < |p.jobs| && |p.jobs| == |p.chain.occupants|
    && (p.jobs[o].task.Launch? ==> p.jobs[o].task.identity < |p.identities|)
  }

  predicate BrowserStep(p: Pool, b: nat) {
    b < |p.browsers| && p.browsers[b].identity < |p.identities| && p.browsers[b].occupant < |p.chain.occupants|
  }

  /** The launch promise a lease waits for has settled. */
  predicate LaunchOver(p: Pool, l: nat)
    requires l < |p.leases|
  {
    var hold := p.leases[l].hold;
    hold.Waiting? && hold.launch < |p.jobs| && p.jobs[hold.launch].cleared
  }

  /** Which events can happen. Leases follow the renderer's discipline: one `context` call, and
      `release` only after it has settled. */
  ghost predicate Enabled(p: Pool, e: Event) {
    match e
    case Acquire(key, _, _, victim, _) =>
      && (key in p.table ==> Known(p, key))
      && (key !in p.table ==> IsVictim(p, victim) && (victim.Some? ==> CurrentExists(p, p.table[victim.value])))
      && (key in p.table ==> victim == None)
    case Attach(l, _) =>
      && LeaseStep(p, l) && CurrentExists(p, p.leases[l].identity)
      && (p.leases[l].hold == Idle || (LaunchOver(p, l) && p.jobs[p.leases[l].hold.launch].stage != Broken))
    case Abort(l) => LeaseStep(p, l) && p.leases[l].hold.Waiting?
    case LaunchRejected(l) => LeaseStep(p, l) && LaunchOver(p, l) && p.jobs[p.leases[l].hold.launch].stage == Broken
    case Deliver(l) => LeaseStep(p, l) && p.leases[l].hold.Counted?
    case Wedge(l) => LeaseStep(p, l) && p.leases[l].hold.Attached? && BrowserStep(p, p.leases[l].hold.browser)
    case Release(l, _) =>
      && l < |p.leases| && p.leases[l].identity < |p.identities|
      && !p.leases[l].hold.Waiting? && !p.leases[l].hold.Counted?
      && (p.leases[l].hold.Attached? ==> p.leases[l].hold.browser < |p.browsers|)
    case Enter(o) => JobStep(p, o) && p.jobs[o].stage == Queued && MayEnter(p.chain, o)
    case LaunchFails(o) => JobStep(p, o) && p.jobs[o].task.Launch? && p.jobs[o].stage == Running
    case LaunchOpens(o) => JobStep(p, o) && p.jobs[o].task.Launch? && p.jobs[o].stage == Running
    case LaunchSettles(o) => JobStep(p, o) && p.jobs[o].task.Launch? && !p.jobs[o].cleared && (p.jobs[o].stage.Opened? || p.jobs[o].stage == Broken)
    case DirectoryRemoved(o) => JobStep(p, o) && p.jobs[o].task == Removal && p.jobs[o].stage == Running
    case ChromeCloses(b) => BrowserStep(p, b)
    case CloseSettles(b) => BrowserStep(p, b) && p.browsers[b].ending == Closing
    case CloseTimesOut(b) => BrowserStep(p, b) && p.browsers[b].ending == Closing
    case CloseEnds(b) => BrowserStep(p, b) && (p.browsers[b].ending == Settled || p.browsers[b].ending == Killed)
    case Rotate(key) => Known(p, key) ==> CurrentExists(p, p.table[key])
    case ForgetTail(o) => o < |p.chain.occupants| && Free(p.chain, o)
    case CloseService => true
  }

  ghost function Apply(p: Pool, e: Event): Pool
    requires Enabled(p, e)
  {
    match e
    case Acquire(key, proxy, directory, victim, now) => ApplyAcquire(p, key, proxy, directory, victim, now)
    case Attach(l, aborted) => ApplyAttach(p, l, aborted)
    case Abort(l) => SetHold(p, l, Failed)
    case LaunchRejected(l) => SetHold(p, l, Failed)
    case Deliver(l) => SetHold(p, l, Attached(p.leases[l].hold.browser))
    case Wedge(l) => Retire(p, p.leases[l].hold.browser)
    case Release(l, now) => ApplyRelease(p, l, now)
    case Enter(o) => SetStage(p, o, Running).(chain := Admit(p.chain, o))
    case LaunchFails(o) => SetStage(p, o, Broken).(chain := Vacate(p.chain, o))
    case LaunchOpens(o) => ApplyLaunchOpens(p, o)
    case LaunchSettles(o) => ApplyLaunchSettles(p, o)
    case DirectoryRemoved(o) => SetStage(p, o, Removed).(chain := Vacate(p.chain, o))
    case ChromeCloses(b) => Retire(p, b)
    case CloseSettles(b) => SetEnding(p, b, Settled)
    case CloseTimesOut(b) => SetEnding(p, b, Killed)
    case CloseEnds(b) => SetEnding(p, b, Over).(chain := Vacate(p.chain, p.browsers[b].occupant))
    case Rotate(key) => ApplyRotate(p, key)
    case ForgetTail(o) => p.(chain := Forget(p.chain, o))
    case CloseService => ApplyCloseService(p)
  }

  /** A run: the states a sequence of events goes through. */
  ghost predicate IsRun(states: seq<Pool>, events: seq<Event>) {
    && |states| == |events| + 1
    && states[0] == Init(states[0].maxIdentities)
    && forall n | 0 <= n < |events| :: Enabled(states[n], events[n]) && states[n + 1] == Apply(states[n], events[n])
  }
}
