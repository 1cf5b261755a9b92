/** The `Identities` class of browser-service/src/identities/pool.ts, stretch by stretch, updated in
    place. References to identities, browsers, leases and occupants are indexes. */
module PoolService {
  import opened Wrappers
  import opened DirectoryChain
  import IdentityPool
  import opened PoolInvariant
  import opened PoolTheorems

  type Event = IdentityPool.Event
  type Pool = IdentityPool.Pool

  class Identities {
    const maxIdentities: nat
    var table: map<string, nat>
    var identities: seq<IdentityPool.Identity>
    var browsers: seq<IdentityPool.Browser>
    var leases: seq<IdentityPool.Lease>
    var jobs: seq<IdentityPool.Job>
    var chain: Chain
    var closed: bool

    ghost function State(): Pool
      reads this
    {
      IdentityPool.Pool(maxIdentities, table, identities, browsers, leases, jobs, chain, closed)
    }

    ghost predicate Valid()
      reads this
    {
      Inv(State())
    }

    constructor (maxIdentities: nat)
      ensures Valid() && State() == IdentityPool.Init(maxIdentities)
    {
      this.maxIdentities := maxIdentities;
      table, identities, browsers, leases, jobs, chain, closed := map[], [], [], [], [], EMPTY, false;
    }

    method Shutdown(b: nat)
      requires b < |browsers|
      modifies this`browsers
      ensures State() == IdentityPool.Shutdown(old(State()), b)
    {
      if browsers[b].ending == IdentityPool.Open {
        browsers := browsers[b := browsers[b].(ending := IdentityPool.Closing)];
      }
    }

    method Retire(b: nat)
      requires b < |browsers| && browsers[b].identity < |identities|
      modifies this`browsers, this`identities
      ensures State() == IdentityPool.Retire(old(State()), b)
    {
      if browsers[b].retired {
        return;
      }
      var i := browsers[b].identity;
      browsers := browsers[b := browsers[b].(retired := true)];
      if identities[i].browser == Some(b) {
        identities := identities[i := identities[i].(browser := None)];
      }
      if browsers[b].users == 0 {
        Shutdown(b);
      }
    }

    /** The search of `#evictIdle`. */
    method OldestIdle() returns (oldest: Option<string>)
      requires Valid() && |table| >= maxIdentities
      ensures IdentityPool.IsVictim(State(), oldest)
    {
      oldest := None;
      var todo := table.Keys;
      while todo != {}
        invariant todo <= table.Keys
        invariant oldest == None ==> forall k | k in table && k !in todo :: !IdentityPool.IsIdle(State(), k)
        invariant oldest.Some? ==>
          && IdentityPool.IsIdle(State(), oldest.value)
          && forall k | k in table && k !in todo && IdentityPool.IsIdle(State(), k) ::
               identities[table[oldest.value]].lastUsed <= identities[table[k]].lastUsed
        decreases todo
      {
        var key :| key in todo;
        todo := todo - {key};
        var identity := identities[table[key]];
        if identity.users == 0 && (oldest == None || identity.lastUsed < identities[table[oldest.value]].lastUsed) {
          oldest := Some(key);
        }
      }
    }

    method LeaveTable(key: string)
      requires Valid() && IdentityPool.IsIdle(State(), key)
      modifies this`table, this`browsers, this`identities
      ensures var i := old(table[key]);
              && IdentityPool.CurrentExists(old(State()), i)
              && State() == IdentityPool.RetireCurrent(old(State()).(table := old(table) - {key}), i)
      ensures Valid()
    {
      LeaveTableKeeps(State(), key);
      var i := table[key];
      table := table - {key};
      if identities[i].browser.Some? {
        Retire(identities[i].browser.value);
      }
    }

    method EvictIdle() returns (ghost victim: Option<string>)
      requires Valid()
      modifies this`table, this`browsers, this`identities
      ensures IdentityPool.IsVictim(old(State()), victim)
      ensures victim.Some? ==> IdentityPool.CurrentExists(old(State()), old(table)[victim.value])
      ensures State() == IdentityPool.Evict(old(State()), victim) && Valid()
    {
      victim := None;
      if |table| < maxIdentities {
        return;
      }
      var oldest := OldestIdle();
      victim := oldest;
      if oldest.Some? {
        LeaveTable(oldest.value);
      }
    }

    /** Makes room and lists a new identity. */
    method Create(key: string, proxy: Option<string>, directory: string, now: int) returns (ghost victim: Option<string>)
      requires Valid() && key !in table
      modifies this`table, this`browsers, this`identities
      ensures IdentityPool.IsVictim(old(State()), victim)
      ensures victim.Some? ==> IdentityPool.CurrentExists(old(State()), old(table)[victim.value])
      ensures State() == IdentityPool.Create(IdentityPool.Evict(old(State()), victim), key, proxy, directory, now)
      ensures key in table && table[key] == |identities| - 1
    {
      victim := EvictIdle();
      identities := identities + [IdentityPool.Identity(key, directory, proxy, None, None, 0, now)];
      table := table[key := |identities| - 1];
    }

    method TakeLease(i: nat) returns (lease: nat)
      requires i < |identities|
      modifies this`identities, this`leases
      ensures State() == IdentityPool.TakeLease(old(State()), i) && lease == old(|leases|)
    {
      identities := identities[i := identities[i].(users := identities[i].users + 1)];
      leases := leases + [IdentityPool.Lease(i, IdentityPool.Idle, false)];
      lease := |leases| - 1;
    }

    /** The accepting part of `acquire`. */
    method Share(key: string, proxy: Option<string>, directory: string, now: int) returns (lease: nat, ghost victim: Option<string>)
      requires Valid() && (key in table ==> table[key] < |identities| && identities[table[key]].proxy == proxy)
      modifies this
      ensures var e := IdentityPool.Acquire(key, proxy, directory, victim, now);
              IdentityPool.Enabled(old(State()), e) && State() == IdentityPool.Apply(old(State()), e)
      ensures lease == old(|leases|) < |leases| && key in table && leases[lease].identity == table[key]
    {
      victim := None;
      ghost var before := State();
      assert TableOk(before);
      if key !in table {
        victim := Create(key, proxy, directory, now);
      }
      lease := TakeLease(table[key]);
    }

    /** `acquire`. */
    method Acquire(key: string, proxy: Option<string>, directory: string, now: int)
      returns (lease: Option<nat>, ghost victim: Option<string>)
      requires Valid()
      modifies this
      ensures var e := IdentityPool.Acquire(key, proxy, directory, victim, now);
              IdentityPool.Enabled(old(State()), e) && State() == IdentityPool.Apply(old(State()), e)
      ensures lease.Some? <==> (key in old(table) ==> old(identities)[old(table)[key]].proxy == proxy)
      ensures if lease == None then State() == old(State())
              else && lease.value == old(|leases|) < |leases| && leases[lease.value].identity < |identities|
                   && identities[leases[lease.value].identity].key == key && identities[leases[lease.value].identity].proxy == proxy
      ensures Valid()
    {
      victim := None;
      ghost var before := State();
      assert TableOk(before);
      if key in table && identities[table[key]].proxy != proxy {
        lease := None;
        return;
      }
      var l;
      l, victim := Share(key, proxy, directory, now);
      lease := Some(l);
      ghost var e := IdentityPool.Acquire(key, proxy, directory, victim, now);
      StepKeeps(before, e);
      AcquireTakesWhatItAsks(before, e);
    }

    method SetHold(l: nat, hold: IdentityPool.Hold)
      requires l < |leases|
      modifies this`leases
      ensures State() == IdentityPool.SetHold(old(State()), l, hold)
    {
      leases := leases[l := leases[l].(hold := hold)];
    }

    method Occupy(directory: string) returns (occupant: nat)
      modifies this`chain
      ensures chain == DirectoryChain.Occupy(old(chain), directory) && occupant == old(|chain.occupants|)
    {
      var previous := if directory in chain.tails then Some(chain.tails[directory]) else None;
      occupant := |chain.occupants|;
      chain := Chain(chain.occupants + [Occupant(directory, previous, false, false)], chain.tails[directory := occupant]);
    }

    /** One turn of the loop of `#attach`. */
    method Attach(l: nat, aborted: bool)
      requires Valid() && IdentityPool.Enabled(State(), IdentityPool.Attach(l, aborted))
      modifies this
      ensures State() == IdentityPool.Apply(old(State()), IdentityPool.Attach(l, aborted)) && Valid()
    {
      AttachKeeps(State(), l, aborted);
      var i := leases[l].identity;
      if aborted {
        SetHold(l, IdentityPool.Failed);
        return;
      }
      match identities[i].browser
      case Some(b) =>
        browsers := browsers[b := browsers[b].(users := browsers[b].users + 1)];
        SetHold(l, IdentityPool.Counted(b));
      case None =>
        if identities[i].launching == None {
          var o := Occupy(identities[i].directory);
          jobs := jobs + [IdentityPool.Job(IdentityPool.Launch(i), IdentityPool.Queued, false)];
          identities := identities[i := identities[i].(launching := Some(o))];
        }
        SetHold(l, IdentityPool.Waiting(identities[i].launching.value));
    }

    /** The abort signal, or a failed launch, ends the wait of `#attach`. */
    method FailWait(l: nat, e: Event)
      requires Valid() && (e == IdentityPool.Abort(l) || e == IdentityPool.LaunchRejected(l)) && IdentityPool.Enabled(State(), e)
      modifies this`leases
      ensures State() == IdentityPool.Apply(old(State()), e) && Valid()
    {
      SetHoldKeeps(State(), l, IdentityPool.Failed);
      SetHold(l, IdentityPool.Failed);
    }

    method Deliver(l: nat)
      requires Valid() && IdentityPool.Enabled(State(), IdentityPool.Deliver(l))
      modifies this`leases
      ensures State() == IdentityPool.Apply(old(State()), IdentityPool.Deliver(l)) && Valid()
    {
      StepKeeps(State(), IdentityPool.Deliver(l));
      SetHold(l, IdentityPool.Attached(leases[l].hold.browser));
    }

    /** The lease's `retire`, and the `close` listener. */
    method Discard(b: nat, e: Event)
      requires Valid() && IdentityPool.Enabled(State(), e)
      requires e == IdentityPool.ChromeCloses(b) || (e.Wedge? && leases[e.lease].hold == IdentityPool.Attached(b))
      modifies this`browsers, this`identities
      ensures State() == IdentityPool.Apply(old(State()), e) && Valid()
    {
      StepKeeps(State(), e);
      Retire(b);
    }

    /** The lease's `release`. */
    method Release(l: nat, now: int)
      requires Valid() && IdentityPool.Enabled(State(), IdentityPool.Release(l, now))
      modifies this`leases, this`identities, this`browsers
      ensures State() == IdentityPool.Apply(old(State()), IdentityPool.Release(l, now)) && Valid()
    {
      ReleaseKeeps(State(), l, now);
      if leases[l].released {
        return;
      }
      leases := leases[l := leases[l].(released := true)];
      var i := leases[l].identity;
      identities := identities[i := identities[i].(users := identities[i].users - 1, lastUsed := now)];
      if !leases[l].hold.Attached? {
        return;
      }
      var b := leases[l].hold.browser;
      browsers := browsers[b := browsers[b].(users := browsers[b].users - 1)];
      if browsers[b].retired && browsers[b].users == 0 {
        Shutdown(b);
      }
    }

    method Enter(o: nat)
      requires Valid() && IdentityPool.Enabled(State(), IdentityPool.Enter(o))
      modifies this`jobs, this`chain
      ensures State() == IdentityPool.Apply(old(State()), IdentityPool.Enter(o)) && Valid()
    {
      EnterKeeps(State(), o);
      chain := chain.(occupants := chain.occupants[o := chain.occupants[o].(admitted := true)]);
      jobs := jobs[o := jobs[o].(stage := IdentityPool.Running)];
    }

    method Vacate(o: nat)
      requires o < |chain.occupants|
      modifies this`chain
      ensures chain == DirectoryChain.Vacate(old(chain), o)
    {
      chain := chain.(occupants := chain.occupants[o := chain.occupants[o].(vacated := true)]);
    }

    /** The two ends of `launchBrowser` in `#launch`. */
    method LaunchFails(o: nat)
      requires Valid() && IdentityPool.Enabled(State(), IdentityPool.LaunchFails(o))
      modifies this`jobs, this`chain
      ensures State() == IdentityPool.Apply(old(State()), IdentityPool.LaunchFails(o)) && Valid()
    {
      LaunchFailsKeeps(State(), o);
      Vacate(o);
      jobs := jobs[o := jobs[o].(stage := IdentityPool.Broken)];
    }

    method LaunchOpens(o: nat)
      requires Valid() && IdentityPool.Enabled(State(), IdentityPool.LaunchOpens(o))
      modifies this`jobs, this`browsers, this`identities
      ensures State() == IdentityPool.Apply(old(State()), IdentityPool.LaunchOpens(o)) && Valid()
    {
      LaunchOpensKeeps(State(), o);
      var i, b := jobs[o].task.identity, |browsers|;
      browsers := browsers + [IdentityPool.Browser(i, o, 0, false, IdentityPool.Open)];
      jobs := jobs[o := jobs[o].(stage := IdentityPool.Opened(b))];
      var key := identities[i].key;
      if key in table && table[key] == i {
        identities := identities[i := identities[i].(browser := Some(b))];
      } else {
        Retire(b);
      }
    }

    /** The `finally` of `#startLaunch`. */
    method LaunchSettles(o: nat)
      requires Valid() && IdentityPool.Enabled(State(), IdentityPool.LaunchSettles(o))
      modifies this`jobs, this`identities
      ensures State() == IdentityPool.Apply(old(State()), IdentityPool.LaunchSettles(o)) && Valid()
    {
      LaunchSettlesKeeps(State(), o);
      var i := jobs[o].task.identity;
      if identities[i].launching == Some(o) {
        identities := identities[i := identities[i].(launching := None)];
      }
      jobs := jobs[o := jobs[o].(cleared := true)];
    }

    /** The steps of `#close`. */
    method CloseSettles(b: nat, timedOut: bool)
      requires Valid() && IdentityPool.Enabled(State(), if timedOut then IdentityPool.CloseTimesOut(b) else IdentityPool.CloseSettles(b))
      modifies this`browsers
      ensures State() == IdentityPool.Apply(old(State()), if timedOut then IdentityPool.CloseTimesOut(b) else IdentityPool.CloseSettles(b))
      ensures Valid()
    {
      StepKeeps(State(), if timedOut then IdentityPool.CloseTimesOut(b) else IdentityPool.CloseSettles(b));
      browsers := browsers[b := browsers[b].(ending := if timedOut then IdentityPool.Killed else IdentityPool.Settled)];
    }

    method CloseEnds(b: nat)
      requires Valid() && IdentityPool.Enabled(State(), IdentityPool.CloseEnds(b))
      modifies this`browsers, this`chain
      ensures State() == IdentityPool.Apply(old(State()), IdentityPool.CloseEnds(b)) && Valid()
    {
      StepKeeps(State(), IdentityPool.CloseEnds(b));
      Vacate(browsers[b].occupant);
      browsers := browsers[b := browsers[b].(ending := IdentityPool.Over)];
    }

    /** An idle identity leaves the table, and its removal queues for the directory. */
    method StartRemoval(key: string)
      requires Valid() && IdentityPool.IsIdle(State(), key)
      modifies this
      ensures IdentityPool.Enabled(old(State()), IdentityPool.Rotate(key))
      ensures State() == IdentityPool.Apply(old(State()), IdentityPool.Rotate(key))
    {
      RotateIsEnabled(State(), key);
      var i := table[key];
      LeaveTable(key);
      var o := Occupy(identities[i].directory);
      jobs := jobs + [IdentityPool.Job(IdentityPool.Removal, IdentityPool.Queued, false)];
    }

    /** `rotate` up to its first `await`; it refuses while renders are in progress. */
    method Rotate(key: string) returns (accepted: bool)
      requires Valid()
      modifies this
      ensures IdentityPool.Enabled(old(State()), IdentityPool.Rotate(key))
      ensures State() == IdentityPool.Apply(old(State()), IdentityPool.Rotate(key)) && Valid()
      ensures !accepted <==> old(key in table && table[key] < |identities| && identities[table[key]].users > 0)
    {
      RotateIsEnabled(State(), key);
      RotateKeeps(State(), key);
      accepted := true;
      if key !in table {
        return;
      }
      var i := table[key];
      if identities[i].users > 0 {
        accepted := false;
        return;
      }
      StartRemoval(key);
    }

    method DirectoryRemoved(o: nat)
      requires Valid() && IdentityPool.Enabled(State(), IdentityPool.DirectoryRemoved(o))
      modifies this`jobs, this`chain
      ensures State() == IdentityPool.Apply(old(State()), IdentityPool.DirectoryRemoved(o)) && Valid()
    {
      DirectoryRemovedKeeps(State(), o);
      Vacate(o);
      jobs := jobs[o := jobs[o].(stage := IdentityPool.Removed)];
    }

    /** The clean-up of `#occupy`. */
    method ForgetTail(o: nat)
      requires Valid() && IdentityPool.Enabled(State(), IdentityPool.ForgetTail(o))
      modifies this`chain
      ensures State() == IdentityPool.Apply(old(State()), IdentityPool.ForgetTail(o)) && Valid()
    {
      ForgetKeeps(State(), o);
      var directory := chain.occupants[o].directory;
      if directory in chain.tails && chain.tails[directory] == o {
        chain := chain.(tails := chain.tails - {directory});
      }
    }
  
    static function ForcedShut(browser: IdentityPool.Browser): IdentityPool.Browser {
      browser.(retired := true, ending := if browser.ending == IdentityPool.Open then IdentityPool.Closing else browser.ending)
    }

    /** The first `i` identities have been dealt with. */
    ghost predicate ClosedUpTo(before: Pool, i: nat)
      reads this
    {
      && i <= |identities| == |before.identities| && |browsers| == |before.browsers|
      && State() == before.(browsers := browsers, identities := identities)
      && (forall j | 0 <= j < |identities| ::
            identities[j] == if j < i && IdentityPool.InTable(before, j) then before.identities[j].(browser := None) else before.identities[j])
      && (forall b | 0 <= b < |browsers| ::
            browsers[b] == if before.browsers[b].identity < i && IdentityPool.Warm(before, b) then ForcedShut(before.browsers[b]) else before.browsers[b])
    }

    method ForceShut(i: nat, ghost before: Pool)
      requires Inv(before) && ClosedUpTo(before, i) && i < |identities|
      modifies this`browsers, this`identities
      ensures ClosedUpTo(before, i + 1)
    {
      assert IdentityOk(before, i) && WarmIsListed(before, i);
      if identities[i].key in table && table[identities[i].key] == i && identities[i].browser.Some? {
        ForceShutBrowser(i, identities[i].browser.value);
      }
    }

    method ForceShutBrowser(i: nat, b: nat)
      requires i < |identities| && b < |browsers| && !browsers[b].retired
      requires browsers[b].identity == i && identities[i].browser == Some(b)
      modifies this`browsers, this`identities
      ensures browsers == old(browsers)[b := ForcedShut(old(browsers)[b])]
      ensures identities == old(identities)[i := old(identities)[i].(browser := None)]
    {
      Retire(b);
      Shutdown(b);
    }

    /** `close` of the whole service: the one place where a Chrome that still has users is shut down. */
    method CloseService()
      requires Valid()
      modifies this
      ensures State() == IdentityPool.Apply(old(State()), IdentityPool.CloseService) && Valid()
    {
      ghost var before := State();
      CloseServiceKeeps(before);
      var i := 0;
      while i < |identities|
        invariant ClosedUpTo(before, i)
      {
        ForceShut(i, before);
        i := i + 1;
      }
      table, closed := map[], true;
      AllIdentitiesExist(before);
      assert State() == IdentityPool.ApplyCloseService(before);
    }

    static lemma AllIdentitiesExist(p: Pool)
      requires Inv(p)
      ensures forall b | 0 <= b < |p.browsers| :: p.browsers[b].identity < |p.identities|
    {
      forall b | 0 <= b < |p.browsers|
        ensures p.browsers[b].identity < |p.identities|
      {
        assert BrowserOk(p, b);
      }
    }
  }
}
