/** What every step of the identity pool keeps. */
module PoolInvariant {
  import opened Wrappers
  import opened Counting
  import opened DirectoryChain
  import opened IdentityPool

  predicate Holds(lease: Lease, b: nat) {
    !lease.released && (lease.hold == Counted(b) || lease.hold == Attached(b))
  }

  /** The leases of identity `i` that are not yet released. */
  function LeasesOf(p: Pool, i: nat): nat {
    Count(p.leases, (lease: Lease) => lease.identity == i && !lease.released)
  }

  /** The leases attached to browser `b` and not yet released. */
  function HoldersOf(p: Pool, b: nat): nat {
    Count(p.leases, (lease: Lease) => Holds(lease, b))
  }

  ghost predicate IdentityOk(p: Pool, i: nat)
    requires i < |p.identities|
  {
    var identity := p.identities[i];
    && identity.users == LeasesOf(p, i)
    && (!p.closed && identity.users > 0 ==> InTable(p, i))
    && (identity.browser.Some? ==>
          && identity.browser.value < |p.browsers| && p.browsers[identity.browser.value].identity == i
          && !p.browsers[identity.browser.value].retired)
    && (identity.launching.Some? ==>
          identity.launching.value < |p.jobs| && p.jobs[identity.launching.value].task == Launch(i) && !p.jobs[identity.launching.value].cleared)
  }

  ghost predicate BrowserOk(p: Pool, b: nat)
    requires b < |p.browsers|
  {
    var browser := p.browsers[b];
    && browser.users == HoldersOf(p, b)
    && browser.identity < |p.identities|
    && browser.occupant < |p.jobs| && p.jobs[browser.occupant].task == Launch(browser.identity) && p.jobs[browser.occupant].stage == Opened(b)
    && (browser.retired && browser.users == 0 ==> browser.ending != Open)
    && (browser.ending != Open ==> browser.retired && (browser.users == 0 || p.closed))
  }

  /** A browser that is not retired is its identity's current one. */
  ghost predicate IsCurrent(p: Pool, b: nat)
    requires b < |p.browsers|
  {
    !p.browsers[b].retired ==> p.browsers[b].identity < |p.identities| && p.identities[p.browsers[b].identity].browser == Some(b)
  }

  ghost predicate WarmIsListed(p: Pool, i: nat)
    requires i < |p.identities|
  {
    p.identities[i].browser.Some? ==> InTable(p, i)
  }

  ghost predicate LeaseOk(p: Pool, l: nat)
    requires l < |p.leases|
  {
    var lease := p.leases[l];
    && lease.identity < |p.identities|
    && (lease.hold.Waiting? ==> lease.hold.launch < |p.jobs| && p.jobs[lease.hold.launch].task == Launch(lease.identity))
    && (lease.hold.Counted? || lease.hold.Attached? ==> lease.hold.browser < |p.browsers| && p.browsers[lease.hold.browser].identity == lease.identity)
    && (lease.released ==> !lease.hold.Waiting? && !lease.hold.Counted?)
  }

  ghost predicate JobOk(p: Pool, o: nat)
    requires o < |p.jobs| && |p.jobs| == |p.chain.occupants|
  {
    var job, occupant := p.jobs[o], p.chain.occupants[o];
    && (occupant.admitted <==> job.stage != Queued)
    && (occupant.vacated <==> job.stage == Broken || job.stage == Removed || (job.stage.Opened? && job.stage.browser < |p.browsers| && p.browsers[job.stage.browser].ending == Over))
    && (job.stage.Opened? ==> job.stage.browser < |p.browsers| && p.browsers[job.stage.browser].occupant == o)
    && match job.task
       case Launch(i) =>
         && i < |p.identities| && occupant.directory == p.identities[i].directory
         && job.stage != Removed
         && (!job.cleared ==> p.identities[i].launching == Some(o))
         && (job.cleared ==> job.stage.Opened? || job.stage == Broken)
         && (job.stage == Queued || job.stage == Running ==> p.identities[i].browser == None)
       case Removal => job.stage == Queued || job.stage == Running || job.stage == Removed
  }

  ghost predicate TableOk(p: Pool) {
    forall k | k in p.table :: p.table[k] < |p.identities| && p.identities[p.table[k]].key == k
  }

  ghost predicate Core(p: Pool) {
    && TableOk(p) && Orderly(p.chain) && |p.jobs| == |p.chain.occupants|
    && (forall i | 0 <= i < |p.identities| :: IdentityOk(p, i))
    && (forall b | 0 <= b < |p.browsers| :: BrowserOk(p, b))
    && (forall l | 0 <= l < |p.leases| :: LeaseOk(p, l))
    && (forall o | 0 <= o < |p.jobs| :: JobOk(p, o))
  }

  ghost predicate Inv(p: Pool) {
    && Core(p)
    && (forall i | 0 <= i < |p.identities| :: WarmIsListed(p, i))
    && (forall b | 0 <= b < |p.browsers| :: IsCurrent(p, b))
  }

  /** `Inv` in the middle of a stretch that is about to retire browser `b`. */
  ghost predicate Almost(p: Pool, b: nat) {
    && Core(p)
    && (forall i | 0 <= i < |p.identities| :: WarmIsListed(p, i) || p.identities[i].browser == Some(b))
    && (forall c | 0 <= c < |p.browsers| && c != b :: IsCurrent(p, c))
  }

  lemma SetHoldKeeps(p: Pool, l: nat, hold: Hold)
    requires Inv(p) && l < |p.leases| && !p.leases[l].released
    requires forall b: nat :: Holds(p.leases[l].(hold := hold), b) <==> Holds(p.leases[l], b)
    requires hold.Waiting? ==> hold.launch < |p.jobs| && p.jobs[hold.launch].task == Launch(p.leases[l].identity)
    ensures Inv(SetHold(p, l, hold))
  {
    if hold.Counted? || hold.Attached? {
      assert Holds(p.leases[l].(hold := hold), hold.browser);
    }
    var next, lease := SetHold(p, l, hold), p.leases[l].(hold := hold);
    forall i | 0 <= i < |p.identities|
      ensures IdentityOk(next, i) && WarmIsListed(next, i)
    {
      CountUpdate(p.leases, l, lease, (x: Lease) => x.identity == i && !x.released);
      assert IdentityOk(p, i) && WarmIsListed(p, i);
    }
    forall b | 0 <= b < |p.browsers|
      ensures BrowserOk(next, b) && IsCurrent(next, b)
    {
      CountUpdate(p.leases, l, lease, (x: Lease) => Holds(x, b));
      assert BrowserOk(p, b) && IsCurrent(p, b);
    }
    forall k | 0 <= k < |p.leases|
      ensures LeaseOk(next, k)
    {
      assert LeaseOk(p, k);
    }
    forall o | 0 <= o < |p.jobs|
      ensures JobOk(next, o)
    {
      assert JobOk(p, o);
    }
  }

  lemma RetireKeepsBrowser(p: Pool, b: nat, c: nat)
    requires Almost(p, b) && b < |p.browsers| && !p.browsers[b].retired && p.browsers[b].identity < |p.identities|
    requires c < |p.browsers|
    ensures BrowserOk(Retire(p, b), c)
  {
    assert BrowserOk(p, c);
    var next := Retire(p, b);
    assert next.leases == p.leases && next.jobs == p.jobs && next.closed == p.closed;
  }

  lemma RetireKeepsCurrent(p: Pool, b: nat, c: nat)
    requires Almost(p, b) && b < |p.browsers| && !p.browsers[b].retired && p.browsers[b].identity < |p.identities|
    requires c < |p.browsers|
    ensures IsCurrent(Retire(p, b), c)
  {
    assert c != b ==> IsCurrent(p, c);
  }

  lemma RetireKeepsIdentity(p: Pool, b: nat, i: nat)
    requires Almost(p, b) && b < |p.browsers| && !p.browsers[b].retired && p.browsers[b].identity < |p.identities|
    requires i < |p.identities|
    ensures IdentityOk(Retire(p, b), i)
  {
    assert IdentityOk(p, i);
    var next := Retire(p, b);
    assert next.leases == p.leases && next.jobs == p.jobs && next.table == p.table;
  }

  lemma RetireKeepsIdentities(p: Pool, b: nat, i: nat)
    requires Almost(p, b) && b < |p.browsers| && !p.browsers[b].retired && p.browsers[b].identity < |p.identities|
    requires i < |p.identities|
    ensures IdentityOk(Retire(p, b), i) && WarmIsListed(Retire(p, b), i)
  {
    RetireKeepsIdentity(p, b, i);
    assert IdentityOk(p, i) && (WarmIsListed(p, i) || p.identities[i].browser == Some(b));
  }

  lemma RetireKeepsJobs(p: Pool, b: nat, o: nat)
    requires Almost(p, b) && b < |p.browsers| && !p.browsers[b].retired && p.browsers[b].identity < |p.identities|
    requires o < |p.jobs|
    ensures JobOk(Retire(p, b), o)
  {
    assert JobOk(p, o) && BrowserOk(p, b);
  }

  lemma RetireKeeps(p: Pool, b: nat)
    requires Almost(p, b) && b < |p.browsers| && (p.browsers[b].retired ==> Inv(p))
    ensures p.browsers[b].identity < |p.identities| && Inv(Retire(p, b))
  {
    assert BrowserOk(p, b);
    if !p.browsers[b].retired {
      var next := Retire(p, b);
      forall i | 0 <= i < |p.identities|
        ensures IdentityOk(next, i) && WarmIsListed(next, i)
      {
        RetireKeepsIdentities(p, b, i);
      }
      forall c | 0 <= c < |p.browsers|
        ensures BrowserOk(next, c) && IsCurrent(next, c)
      {
        RetireKeepsBrowser(p, b, c);
        RetireKeepsCurrent(p, b, c);
      }
      forall l | 0 <= l < |p.leases|
        ensures LeaseOk(next, l)
      {
        assert LeaseOk(p, l);
      }
      forall o | 0 <= o < |p.jobs|
        ensures JobOk(next, o)
      {
        RetireKeepsJobs(p, b, o);
      }
    }
  }

  lemma LeaveTableKeeps(p: Pool, key: string)
    requires Inv(p) && IsIdle(p, key)
    ensures CurrentExists(p, p.table[key]) && Inv(RetireCurrent(p.(table := p.table - {key}), p.table[key]))
  {
    var i := p.table[key];
    var next := p.(table := p.table - {key});
    assert IdentityOk(p, i);
    forall j | 0 <= j < |p.identities|
      ensures IdentityOk(next, j) && (j != i ==> WarmIsListed(next, j))
    {
      assert IdentityOk(p, j) && WarmIsListed(p, j);
    }
    forall c | 0 <= c < |p.browsers|
      ensures BrowserOk(next, c) && IsCurrent(next, c)
    {
      assert BrowserOk(p, c) && IsCurrent(p, c);
    }
    forall l | 0 <= l < |p.leases|
      ensures LeaseOk(next, l)
    {
      assert LeaseOk(p, l);
    }
    forall o | 0 <= o < |p.jobs|
      ensures JobOk(next, o)
    {
      assert JobOk(p, o);
    }
    if p.identities[i].browser.Some? {
      RetireKeeps(next, p.identities[i].browser.value);
    }
  }

  lemma CreateKeeps(p: Pool, key: string, proxy: Option<string>, directory: string, now: int)
    requires Inv(p) && key !in p.table
    ensures Inv(Create(p, key, proxy, directory, now)) && InTable(Create(p, key, proxy, directory, now), |p.identities|)
  {
    var next, n := Create(p, key, proxy, directory, now), |p.identities|;
    forall x | x in p.leases
      ensures x.identity != n
    {
      var l :| 0 <= l < |p.leases| && p.leases[l] == x;
      assert LeaseOk(p, l);
    }
    CountIsZero(p.leases, (lease: Lease) => lease.identity == n && !lease.released);
    forall i | 0 <= i < |next.identities|
      ensures IdentityOk(next, i) && WarmIsListed(next, i)
    {
      if i < n { assert IdentityOk(p, i) && WarmIsListed(p, i); }
    }
    forall b | 0 <= b < |p.browsers|
      ensures BrowserOk(next, b) && IsCurrent(next, b)
    {
      assert BrowserOk(p, b) && IsCurrent(p, b);
    }
    forall l | 0 <= l < |p.leases|
      ensures LeaseOk(next, l)
    {
      assert LeaseOk(p, l);
    }
    forall o | 0 <= o < |p.jobs|
      ensures JobOk(next, o)
    {
      assert JobOk(p, o);
    }
  }

  lemma TakeLeaseKeeps(p: Pool, i: nat)
    requires Inv(p) && i < |p.identities| && InTable(p, i)
    ensures Inv(TakeLease(p, i))
  {
    var next, lease := TakeLease(p, i), Lease(i, Idle, false);
    forall j | 0 <= j < |p.identities|
      ensures IdentityOk(next, j) && WarmIsListed(next, j)
    {
      CountAppend(p.leases, lease, (x: Lease) => x.identity == j && !x.released);
      assert IdentityOk(p, j) && WarmIsListed(p, j);
    }
    forall b | 0 <= b < |p.browsers|
      ensures BrowserOk(next, b) && IsCurrent(next, b)
    {
      CountAppend(p.leases, lease, (x: Lease) => Holds(x, b));
      assert BrowserOk(p, b) && IsCurrent(p, b);
    }
    forall l | 0 <= l < |next.leases|
      ensures LeaseOk(next, l)
    {
      if l < |p.leases| { assert LeaseOk(p, l); }
    }
    forall o | 0 <= o < |p.jobs|
      ensures JobOk(next, o)
    {
      assert JobOk(p, o);
    }
  }

  lemma StartLaunchKeeps(p: Pool, i: nat)
    requires Inv(p) && i < |p.identities| && p.identities[i].browser == None && p.identities[i].launching == None
    ensures Inv(StartLaunch(p, i))
  {
    var next, n := StartLaunch(p, i), |p.jobs|;
    OccupyIsOrderly(p.chain, p.identities[i].directory);
    forall j | 0 <= j < |p.identities|
      ensures IdentityOk(next, j) && WarmIsListed(next, j)
    {
      assert IdentityOk(p, j) && WarmIsListed(p, j);
    }
    forall b | 0 <= b < |p.browsers|
      ensures BrowserOk(next, b) && IsCurrent(next, b)
    {
      assert BrowserOk(p, b) && IsCurrent(p, b);
    }
    forall l | 0 <= l < |p.leases|
      ensures LeaseOk(next, l)
    {
      assert LeaseOk(p, l);
    }
    forall o | 0 <= o < |next.jobs|
      ensures JobOk(next, o)
    {
      if o < n { assert JobOk(p, o); }
    }
  }

  lemma CountUserKeeps(p: Pool, l: nat)
    requires Inv(p) && LeaseStep(p, l) && (p.leases[l].hold == Idle || p.leases[l].hold.Waiting?)
    requires p.identities[p.leases[l].identity].browser.Some?
    ensures CurrentExists(p, p.leases[l].identity) && Inv(ApplyAttach(p, l, false))
  {
    var i := p.leases[l].identity;
    assert IdentityOk(p, i);
    var b := p.identities[i].browser.value;
    var next, lease := ApplyAttach(p, l, false), p.leases[l].(hold := Counted(b));
    assert !p.browsers[b].retired;
    forall j | 0 <= j < |p.identities|
      ensures IdentityOk(next, j) && WarmIsListed(next, j)
    {
      CountUpdate(p.leases, l, lease, (x: Lease) => x.identity == j && !x.released);
      assert IdentityOk(p, j) && WarmIsListed(p, j);
    }
    forall c | 0 <= c < |p.browsers|
      ensures BrowserOk(next, c) && IsCurrent(next, c)
    {
      CountUpdate(p.leases, l, lease, (x: Lease) => Holds(x, c));
      assert BrowserOk(p, c) && IsCurrent(p, c);
    }
    forall k | 0 <= k < |p.leases|
      ensures LeaseOk(next, k)
    {
      assert LeaseOk(p, k);
    }
    forall o | 0 <= o < |p.jobs|
      ensures JobOk(next, o)
    {
      assert JobOk(p, o);
    }
  }

  lemma AttachKeeps(p: Pool, l: nat, aborted: bool)
    requires Inv(p) && Enabled(p, Attach(l, aborted))
    ensures Inv(ApplyAttach(p, l, aborted))
  {
    var i := p.leases[l].identity;
    assert IdentityOk(p, i);
    if aborted {
      SetHoldKeeps(p, l, Failed);
    } else if p.identities[i].browser.Some? {
      CountUserKeeps(p, l);
    } else if p.identities[i].launching.Some? {
      SetHoldKeeps(p, l, Waiting(p.identities[i].launching.value));
    } else {
      StartLaunchKeeps(p, i);
      SetHoldKeeps(StartLaunch(p, i), l, Waiting(|p.jobs|));
    }
  }

  lemma ReleaseKeepsBrowsers(p: Pool, l: nat, now: int, c: nat)
    requires Inv(p) && Enabled(p, Release(l, now)) && !p.leases[l].released
    requires c < |p.browsers|
    ensures var next := ApplyRelease(p, l, now);
            |next.browsers| == |p.browsers| && BrowserOk(next, c) && IsCurrent(next, c)
  {
    var next, lease := ApplyRelease(p, l, now), p.leases[l].(released := true);
    CountUpdate(p.leases, l, lease, (x: Lease) => Holds(x, c));
    assert next.leases == p.leases[l := lease];
    assert LeaseOk(p, l) && BrowserOk(p, c) && IsCurrent(p, c);
  }

  lemma ReleaseStays(p: Pool, l: nat, now: int)
    requires Inv(p) && Enabled(p, Release(l, now)) && !p.leases[l].released
    ensures var next := ApplyRelease(p, l, now);
            && next.table == p.table && next.jobs == p.jobs && next.closed == p.closed && |next.browsers| == |p.browsers|
            && next.leases == p.leases[l := p.leases[l].(released := true)]
            && forall b | 0 <= b < |p.browsers| :: next.browsers[b].identity == p.browsers[b].identity && next.browsers[b].retired == p.browsers[b].retired
  {
  }

  lemma ReleaseKeepsIdentities(p: Pool, l: nat, now: int, i: nat)
    requires Inv(p) && Enabled(p, Release(l, now)) && !p.leases[l].released
    requires i < |p.identities|
    ensures var next := ApplyRelease(p, l, now);
            |next.identities| == |p.identities| && IdentityOk(next, i) && WarmIsListed(next, i)
  {
    var lease := p.leases[l].(released := true);
    CountUpdate(p.leases, l, lease, (x: Lease) => x.identity == i && !x.released);
    ReleaseStays(p, l, now);
    assert IdentityOk(p, i) && WarmIsListed(p, i) && LeaseOk(p, l);
  }

  lemma ReleaseKeeps(p: Pool, l: nat, now: int)
    requires Inv(p) && Enabled(p, Release(l, now))
    ensures Inv(ApplyRelease(p, l, now))
  {
    if !p.leases[l].released {
      var next := ApplyRelease(p, l, now);
      forall j | 0 <= j < |p.identities|
        ensures IdentityOk(next, j) && WarmIsListed(next, j)
      {
        ReleaseKeepsIdentities(p, l, now, j);
      }
      forall c | 0 <= c < |p.browsers|
        ensures BrowserOk(next, c) && IsCurrent(next, c)
      {
        ReleaseKeepsBrowsers(p, l, now, c);
      }
      forall k | 0 <= k < |p.leases|
        ensures LeaseOk(next, k)
      {
        assert LeaseOk(p, k);
      }
      forall o | 0 <= o < |p.jobs|
        ensures JobOk(next, o)
      {
        assert JobOk(p, o);
      }
    }
  }

  lemma EnterKeeps(p: Pool, o: nat)
    requires Inv(p) && Enabled(p, Enter(o))
    ensures Inv(Apply(p, Enter(o)))
  {
    assert JobOk(p, o);
    AdmitIsOrderly(p.chain, o);
    JobChangeKeeps(p, o, Apply(p, Enter(o)));
  }

  /** An event that changes only the stage of job `o` and its place in the directory chain. */
  lemma JobChangeKeeps(p: Pool, o: nat, next: Pool)
    requires Inv(p) && o < |p.jobs| && !p.jobs[o].stage.Opened?
    requires |next.jobs| == |p.jobs| && next == p.(jobs := p.jobs[o := next.jobs[o]], chain := next.chain)
    requires next.jobs[o].task == p.jobs[o].task && next.jobs[o].cleared == p.jobs[o].cleared
    requires |next.chain.occupants| == |p.chain.occupants| && next.chain.occupants == p.chain.occupants[o := next.chain.occupants[o]]
    requires Orderly(next.chain) && JobOk(next, o)
    ensures Inv(next)
  {
    forall j | 0 <= j < |p.identities|
      ensures IdentityOk(next, j) && WarmIsListed(next, j)
    {
      assert IdentityOk(p, j) && WarmIsListed(p, j);
    }
    forall b | 0 <= b < |p.browsers|
      ensures BrowserOk(next, b) && IsCurrent(next, b)
    {
      assert BrowserOk(p, b) && IsCurrent(p, b);
    }
    forall l | 0 <= l < |p.leases|
      ensures LeaseOk(next, l)
    {
      assert LeaseOk(p, l);
    }
    forall n | 0 <= n < |p.jobs|
      ensures JobOk(next, n)
    {
      if n != o { assert JobOk(p, n); }
    }
  }

  lemma LaunchFailsKeeps(p: Pool, o: nat)
    requires Inv(p) && Enabled(p, LaunchFails(o))
    ensures Inv(Apply(p, LaunchFails(o)))
  {
    assert JobOk(p, o);
    VacateIsOrderly(p.chain, o);
    JobChangeKeeps(p, o, Apply(p, LaunchFails(o)));
  }

  lemma DirectoryRemovedKeeps(p: Pool, o: nat)
    requires Inv(p) && Enabled(p, DirectoryRemoved(o))
    ensures Inv(Apply(p, DirectoryRemoved(o)))
  {
    assert JobOk(p, o);
    VacateIsOrderly(p.chain, o);
    JobChangeKeeps(p, o, Apply(p, DirectoryRemoved(o)));
  }

  lemma LaunchSettlesKeeps(p: Pool, o: nat)
    requires Inv(p) && Enabled(p, LaunchSettles(o))
    ensures Inv(ApplyLaunchSettles(p, o))
  {
    var next := ApplyLaunchSettles(p, o);
    assert JobOk(p, o);
    forall j | 0 <= j < |p.identities|
      ensures IdentityOk(next, j) && WarmIsListed(next, j)
    {
      assert IdentityOk(p, j) && WarmIsListed(p, j);
    }
    forall b | 0 <= b < |p.browsers|
      ensures BrowserOk(next, b) && IsCurrent(next, b)
    {
      assert BrowserOk(p, b) && IsCurrent(p, b);
    }
    forall l | 0 <= l < |p.leases|
      ensures LeaseOk(next, l)
    {
      assert LeaseOk(p, l);
    }
    forall n | 0 <= n < |p.jobs|
      ensures JobOk(next, n)
    {
      assert JobOk(p, n);
    }
  }

  /** The state in which a fresh Chrome is known but not yet its identity's browser. */
  function Launched(p: Pool, o: nat): Pool
    requires o < |p.jobs| && p.jobs[o].task.Launch?
  {
    SetStage(p, o, Opened(|p.browsers|)).(browsers := p.browsers + [Browser(p.jobs[o].task.identity, o, 0, false, Open)])
  }

  lemma LaunchedIsCore(p: Pool, o: nat)
    requires Inv(p) && Enabled(p, LaunchOpens(o))
    ensures Core(Launched(p, o)) && (forall i | 0 <= i < |p.identities| :: WarmIsListed(Launched(p, o), i))
    ensures forall c | 0 <= c < |p.browsers| :: IsCurrent(Launched(p, o), c)
  {
    var next, n := Launched(p, o), |p.browsers|;
    assert JobOk(p, o);
    forall x | x in p.leases
      ensures !Holds(x, n)
    {
      var l :| 0 <= l < |p.leases| && p.leases[l] == x;
      assert LeaseOk(p, l);
    }
    CountIsZero(p.leases, (x: Lease) => Holds(x, n));
    forall j | 0 <= j < |p.identities|
      ensures IdentityOk(next, j) && WarmIsListed(next, j)
    {
      assert IdentityOk(p, j) && WarmIsListed(p, j);
    }
    forall b | 0 <= b < |next.browsers|
      ensures BrowserOk(next, b) && (b < n ==> IsCurrent(next, b))
    {
      if b < n { assert BrowserOk(p, b) && IsCurrent(p, b); }
    }
    forall l | 0 <= l < |p.leases|
      ensures LeaseOk(next, l)
    {
      assert LeaseOk(p, l);
    }
    forall m | 0 <= m < |p.jobs|
      ensures JobOk(next, m)
    {
      assert JobOk(p, m);
    }
  }

  lemma LaunchOpensKeeps(p: Pool, o: nat)
    requires Inv(p) && Enabled(p, LaunchOpens(o))
    ensures Inv(ApplyLaunchOpens(p, o))
  {
    var launched, next, i := Launched(p, o), ApplyLaunchOpens(p, o), p.jobs[o].task.identity;
    LaunchedIsCore(p, o);
    if !InTable(p, i) {
      RetireKeeps(launched, |p.browsers|);
    } else {
      assert JobOk(p, o);
      forall j | 0 <= j < |p.identities|
        ensures IdentityOk(next, j) && WarmIsListed(next, j)
      {
        assert IdentityOk(launched, j) && WarmIsListed(launched, j);
      }
      forall b | 0 <= b < |next.browsers|
        ensures BrowserOk(next, b) && IsCurrent(next, b)
      {
        assert BrowserOk(launched, b) && (b < |p.browsers| ==> IsCurrent(launched, b));
      }
      forall l | 0 <= l < |p.leases|
        ensures LeaseOk(next, l)
      {
        assert LeaseOk(launched, l);
      }
      forall m | 0 <= m < |p.jobs|
        ensures JobOk(next, m)
      {
        assert JobOk(launched, m);
        assert m != o ==> JobOk(p, m);
      }
    }
  }

  lemma EndingKeeps(p: Pool, b: nat, next: Pool)
    requires Inv(p) && BrowserStep(p, b) && p.browsers[b].ending != Open && p.browsers[b].ending != Over
    requires |next.browsers| == |p.browsers| && next == p.(browsers := p.browsers[b := p.browsers[b].(ending := next.browsers[b].ending)], chain := next.chain)
    requires next.browsers[b].ending != Open
    requires next.chain == if next.browsers[b].ending == Over then Vacate(p.chain, p.browsers[b].occupant) else p.chain
    ensures Inv(next)
  {
    assert BrowserOk(p, b) && JobOk(p, p.browsers[b].occupant);
    if next.browsers[b].ending == Over {
      VacateIsOrderly(p.chain, p.browsers[b].occupant);
    }
    forall j | 0 <= j < |p.identities|
      ensures IdentityOk(next, j) && WarmIsListed(next, j)
    {
      assert IdentityOk(p, j) && WarmIsListed(p, j);
    }
    forall c | 0 <= c < |p.browsers|
      ensures BrowserOk(next, c) && IsCurrent(next, c)
    {
      assert BrowserOk(p, c) && IsCurrent(p, c);
    }
    forall l | 0 <= l < |p.leases|
      ensures LeaseOk(next, l)
    {
      assert LeaseOk(p, l);
    }
    forall o | 0 <= o < |p.jobs|
      ensures JobOk(next, o)
    {
      assert JobOk(p, o);
    }
  }

  lemma RotateIsEnabled(p: Pool, key: string)
    requires Inv(p)
    ensures Enabled(p, Rotate(key)) && (key in p.table ==> Known(p, key) && p.identities[p.table[key]].users >= 0)
  {
    if key in p.table {
      assert IdentityOk(p, p.table[key]);
      if p.identities[p.table[key]].browser.Some? {
        assert BrowserOk(p, p.identities[p.table[key]].browser.value);
      }
    }
  }

  lemma RotateKeeps(p: Pool, key: string)
    requires Inv(p) && Enabled(p, Rotate(key))
    ensures Inv(ApplyRotate(p, key))
  {
    if Known(p, key) && p.identities[p.table[key]].users <= 0 {
      var i := p.table[key];
      assert IdentityOk(p, i);
      LeaveTableKeeps(p, key);
      RemovalKeeps(RetireCurrent(p.(table := p.table - {key}), i), p.identities[i].directory);
    }
  }

  lemma RemovalKeeps(p: Pool, directory: string)
    requires Inv(p)
    ensures Inv(p.(jobs := p.jobs + [Job(Removal, Queued, false)], chain := Occupy(p.chain, directory)))
  {
    var next := p.(jobs := p.jobs + [Job(Removal, Queued, false)], chain := Occupy(p.chain, directory));
    OccupyIsOrderly(p.chain, directory);
    forall j | 0 <= j < |p.identities|
      ensures IdentityOk(next, j) && WarmIsListed(next, j)
    {
      assert IdentityOk(p, j) && WarmIsListed(p, j);
    }
    forall b | 0 <= b < |p.browsers|
      ensures BrowserOk(next, b) && IsCurrent(next, b)
    {
      assert BrowserOk(p, b) && IsCurrent(p, b);
    }
    forall l | 0 <= l < |p.leases|
      ensures LeaseOk(next, l)
    {
      assert LeaseOk(p, l);
    }
    forall o | 0 <= o < |next.jobs|
      ensures JobOk(next, o)
    {
      if o < |p.jobs| { assert JobOk(p, o); }
    }
  }

  lemma ForgetKeeps(p: Pool, o: nat)
    requires Inv(p) && Enabled(p, ForgetTail(o))
    ensures Inv(Apply(p, ForgetTail(o)))
  {
    var next := Apply(p, ForgetTail(o));
    ForgetIsOrderly(p.chain, o);
    forall j | 0 <= j < |p.identities|
      ensures IdentityOk(next, j) && WarmIsListed(next, j)
    {
      assert IdentityOk(p, j) && WarmIsListed(p, j);
    }
    forall b | 0 <= b < |p.browsers|
      ensures BrowserOk(next, b) && IsCurrent(next, b)
    {
      assert BrowserOk(p, b) && IsCurrent(p, b);
    }
    forall l | 0 <= l < |p.leases|
      ensures LeaseOk(next, l)
    {
      assert LeaseOk(p, l);
    }
    forall m | 0 <= m < |p.jobs|
      ensures JobOk(next, m)
    {
      assert JobOk(p, m);
    }
  }

  lemma CloseServiceKeeps(p: Pool)
    requires Inv(p)
    ensures Inv(ApplyCloseService(p))
  {
    var next := ApplyCloseService(p);
    forall j | 0 <= j < |p.identities|
      ensures IdentityOk(next, j) && WarmIsListed(next, j)
    {
      assert IdentityOk(p, j) && WarmIsListed(p, j);
    }
    forall b | 0 <= b < |p.browsers|
      ensures BrowserOk(next, b) && IsCurrent(next, b)
    {
      assert BrowserOk(p, b) && IsCurrent(p, b);
      assert WarmIsListed(p, p.browsers[b].identity);
    }
    forall l | 0 <= l < |p.leases|
      ensures LeaseOk(next, l)
    {
      assert LeaseOk(p, l);
    }
    forall o | 0 <= o < |p.jobs|
      ensures JobOk(next, o)
    {
      assert JobOk(p, o);
    }
  }

  lemma AcquireKeeps(p: Pool, key: string, proxy: Option<string>, directory: string, victim: Option<string>, now: int)
    requires Inv(p) && Enabled(p, Acquire(key, proxy, directory, victim, now))
    ensures Inv(ApplyAcquire(p, key, proxy, directory, victim, now))
  {
    if Conflicts(p, key, proxy) {
    } else if key in p.table {
      TakeLeaseKeeps(p, p.table[key]);
    } else {
      var room := Evict(p, victim);
      if victim.Some? {
        LeaveTableKeeps(p, victim.value);
      }
      CreateKeeps(room, key, proxy, directory, now);
      TakeLeaseKeeps(Create(room, key, proxy, directory, now), |room.identities|);
    }
  }

  /** Every event keeps the invariant. */
  lemma StepKeeps(p: Pool, e: Event)
    requires Inv(p) && Enabled(p, e)
    ensures Inv(Apply(p, e))
  {
    match e
    case Acquire(key, proxy, directory, victim, now) => AcquireKeeps(p, key, proxy, directory, victim, now);
    case Attach(l, aborted) => AttachKeeps(p, l, aborted);
    case Abort(l) => SetHoldKeeps(p, l, Failed);
    case LaunchRejected(l) => SetHoldKeeps(p, l, Failed);
    case Deliver(l) => SetHoldKeeps(p, l, Attached(p.leases[l].hold.browser));
    case Wedge(l) => RetireKeeps(p, p.leases[l].hold.browser);
    case Release(l, now) => ReleaseKeeps(p, l, now);
    case Enter(o) => EnterKeeps(p, o);
    case LaunchFails(o) => LaunchFailsKeeps(p, o);
    case LaunchOpens(o) => LaunchOpensKeeps(p, o);
    case LaunchSettles(o) => LaunchSettlesKeeps(p, o);
    case DirectoryRemoved(o) => DirectoryRemovedKeeps(p, o);
    case ChromeCloses(b) => RetireKeeps(p, b);
    case CloseSettles(b) => EndingKeeps(p, b, Apply(p, e));
    case CloseTimesOut(b) => EndingKeeps(p, b, Apply(p, e));
    case CloseEnds(b) => EndingKeeps(p, b, Apply(p, e));
    case Rotate(key) => RotateKeeps(p, key);
    case ForgetTail(o) => ForgetKeeps(p, o);
    case CloseService => CloseServiceKeeps(p);
  }
}
