/** What each operation of the identity pool does for its caller, told by the objects it concerns. */
module PoolEffects {
  import opened Wrappers
  import opened Counting
  import opened IdentityPool
  import opened PoolInvariant
  import opened PoolTheorems

  /** The identity is listed and nobody leases it. */
  predicate MayRotate(p: Pool, key: string) {
    key in p.table && p.table[key] < |p.identities| && p.identities[p.table[key]].users == 0
  }

  /** A rotation of an identity that is leased, or of none, changes nothing. Any other takes the key, and no
      other, from the table, queues a removal for the identity's directory, and shuts its browser down. */
  lemma RotateMeans(p: Pool, key: string)
    requires Inv(p) && Enabled(p, Rotate(key))
    ensures var next := Apply(p, Rotate(key));
            if MayRotate(p, key) then
              && next.table == p.table - {key}
              && |next.jobs| == |p.jobs| + 1 && next.jobs[|p.jobs|] == Job(Removal, Queued, false)
              && |next.chain.occupants| == |p.chain.occupants| + 1
              && next.chain.occupants[|p.jobs|].directory == p.identities[p.table[key]].directory
            else next == p
  {
    if key in p.table {
      assert IdentityOk(p, p.table[key]);
      if MayRotate(p, key) && p.identities[p.table[key]].browser.Some? {
        RetireStays(p.(table := p.table - {key}), p.identities[p.table[key]].browser.value);
      }
    }
  }

  lemma RotateShutsDown(p: Pool, key: string, b: nat)
    requires Inv(p) && Enabled(p, Rotate(key)) && MayRotate(p, key) && p.identities[p.table[key]].browser == Some(b)
    ensures b < |Apply(p, Rotate(key)).browsers|
    ensures Apply(p, Rotate(key)).browsers[b].retired && Apply(p, Rotate(key)).browsers[b].ending != Open
  {
    var i := p.table[key];
    assert IdentityOk(p, i) && BrowserOk(p, b);
    NoUsersNoHolders(p, i, b);
  }

  lemma NoUsersNoHolders(p: Pool, i: nat, b: nat)
    requires Inv(p) && i < |p.identities| && b < |p.browsers| && p.browsers[b].identity == i && p.identities[i].users == 0
    ensures p.browsers[b].users == 0
  {
    assert IdentityOk(p, i) && BrowserOk(p, b);
    forall lease | lease in p.leases && Holds(lease, b)
      ensures lease.identity == i && !lease.released
    {
      var l :| 0 <= l < |p.leases| && p.leases[l] == lease;
      assert LeaseOk(p, l);
    }
    MoreCount(p.leases, (lease: Lease) => Holds(lease, b), (lease: Lease) => lease.identity == i && !lease.released);
  }

  /** The close of the service empties the table, and leaves no browser that is not retired. */
  lemma CloseMeans(p: Pool, b: nat)
    requires Inv(p) && b < |p.browsers|
    ensures Apply(p, CloseService).table == map[] && |Apply(p, CloseService).browsers| == |p.browsers|
    ensures Apply(p, CloseService).browsers[b].retired
    ensures !p.browsers[b].retired ==> Apply(p, CloseService).browsers[b].ending != Open
  {
    assert IsCurrent(p, b);
    if !p.browsers[b].retired {
      assert WarmIsListed(p, p.browsers[b].identity);
    }
  }

  /** Attaching a lease: an aborted wait fails; a browser that is there gets one user more; else the lease
      waits for the identity's one launch, which is started in the identity's directory if none is under way. */
  lemma AttachMeans(p: Pool, l: nat, aborted: bool)
    requires Inv(p) && Enabled(p, Attach(l, aborted))
    ensures var next, i := Apply(p, Attach(l, aborted)), p.leases[l].identity;
            && |next.leases| == |p.leases|
            && if aborted then next.leases[l].hold == Failed && next.jobs == p.jobs && next.browsers == p.browsers
               else if p.identities[i].browser.Some? then
                 var b := p.identities[i].browser.value;
                 && next.leases[l].hold == Counted(b) && next.jobs == p.jobs
                 && b < |next.browsers| == |p.browsers| && next.browsers[b].users == p.browsers[b].users + 1 && !next.browsers[b].retired
               else
                 && next.browsers == p.browsers && next.leases[l].hold.Waiting? && next.identities[i].launching == Some(next.leases[l].hold.launch)
                 && |next.jobs| == |p.jobs| + (if p.identities[i].launching == None then 1 else 0)
  {
    assert IdentityOk(p, p.leases[l].identity);
  }

  /** A first release gives back the lease and marks the time; a second one changes nothing. */
  lemma ReleaseMeans(p: Pool, l: nat, now: int)
    requires Inv(p) && Enabled(p, Release(l, now))
    ensures var next, i := Apply(p, Release(l, now)), p.leases[l].identity;
            if p.leases[l].released then next == p
            else
              && |next.leases| == |p.leases| && next.leases[l] == p.leases[l].(released := true)
              && |next.identities| == |p.identities|
              && next.identities[i].users == p.identities[i].users - 1 && next.identities[i].lastUsed == now
  {
  }

  /** Nothing but its own release changes when an identity was last used. */
  lemma RetireKeepsUse(p: Pool, b: nat, i: nat)
    requires b < |p.browsers| && p.browsers[b].identity < |p.identities| && i < |p.identities|
    ensures |Retire(p, b).identities| == |p.identities| && Retire(p, b).identities[i].lastUsed == p.identities[i].lastUsed
  {
  }

  lemma AcquireKeepsUse(p: Pool, e: Event, i: nat)
    requires Inv(p) && Enabled(p, e) && e.Acquire? && i < |p.identities|
    ensures |Apply(p, e).identities| >= |p.identities| && Apply(p, e).identities[i].lastUsed == p.identities[i].lastUsed
    ensures |Apply(p, e).identities| > |p.identities| ==> Apply(p, e).identities[|p.identities|].lastUsed == e.now
  {
    if e.key !in p.table && e.victim.Some? {
      var v := p.table[e.victim.value];
      if p.identities[v].browser.Some? {
        RetireKeepsUse(p.(table := p.table - {e.victim.value}), p.identities[v].browser.value, i);
      }
    }
  }

  lemma RetiringKeepsUse(p: Pool, e: Event, i: nat)
    requires Inv(p) && Enabled(p, e) && (e.Wedge? || e.ChromeCloses? || e.Rotate?) && i < |p.identities|
    ensures |Apply(p, e).identities| == |p.identities| && Apply(p, e).identities[i].lastUsed == p.identities[i].lastUsed
  {
    match e
    case Wedge(l) => RetireKeepsUse(p, p.leases[l].hold.browser, i);
    case ChromeCloses(b) => RetireKeepsUse(p, b, i);
    case Rotate(key) =>
      if Known(p, key) && p.identities[p.table[key]].users <= 0 && p.identities[p.table[key]].browser.Some? {
        RetireKeepsUse(p.(table := p.table - {key}), p.identities[p.table[key]].browser.value, i);
      }
  }

  lemma UseIsRelease(p: Pool, e: Event, i: nat)
    requires Inv(p) && Enabled(p, e) && i < |p.identities|
    ensures |Apply(p, e).identities| >= |p.identities|
    ensures Apply(p, e).identities[i].lastUsed
            == if e.Release? && !p.leases[e.lease].released && p.leases[e.lease].identity == i then e.now else p.identities[i].lastUsed
  {
    if e.Acquire? {
      AcquireKeepsUse(p, e, i);
    } else if e.Wedge? || e.ChromeCloses? || e.Rotate? {
      RetiringKeepsUse(p, e, i);
    } else {
      match e
      case Attach(_, _) =>
      case LaunchOpens(_) =>
      case LaunchSettles(_) =>
      case Release(_, _) =>
      case CloseService =>
      case _ =>
    }
  }
}
