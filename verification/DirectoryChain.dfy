/** The per-directory promise chain of browser-service/src/identities/pool.ts (`#occupy`). A
    directory's occupants wait for each other: each one's `free` promise resolves once the previous
    occupant's has and its own `vacate` was called. Occupants are named by their order of arrival. */
module DirectoryChain {
  import opened Wrappers

  datatype Occupant = Occupant(directory: string, previous: Option<nat>, admitted: bool, vacated: bool)

  /** `tails` is the `#profiles` map: a directory's last `free` promise, while it is registered. */
  datatype Chain = Chain(occupants: seq<Occupant>, tails: map<string, nat>)

  const EMPTY: Chain := Chain([], map[])

  /** The occupant's `free` promise has resolved. */
  predicate Free(chain: Chain, o: nat)
    requires o < |chain.occupants|
    decreases o
  {
    && chain.occupants[o].vacated
    && match chain.occupants[o].previous
       case None => true
       case Some(p) => p < o && Free(chain, p)
  }

  /** The occupant may go past `await previous`. */
  predicate MayEnter(chain: Chain, o: nat) {
    && o < |chain.occupants| && !chain.occupants[o].admitted
    && match chain.occupants[o].previous
       case None => true
       case Some(p) => p < o && Free(chain, p)
  }

  function Occupy(chain: Chain, directory: string): Chain {
    var previous := if directory in chain.tails then Some(chain.tails[directory]) else None;
    Chain(chain.occupants + [Occupant(directory, previous, false, false)], chain.tails[directory := |chain.occupants|])
  }

  function Admit(chain: Chain, o: nat): Chain
    requires MayEnter(chain, o)
  {
    chain.(occupants := chain.occupants[o := chain.occupants[o].(admitted := true)])
  }

  function Vacate(chain: Chain, o: nat): Chain
    requires o < |chain.occupants|
  {
    chain.(occupants := chain.occupants[o := chain.occupants[o].(vacated := true)])
  }

  /** The clean-up that runs once a `free` promise has resolved. */
  function Forget(chain: Chain, o: nat): Chain
    requires o < |chain.occupants| && Free(chain, o)
  {
    var directory := chain.occupants[o].directory;
    if directory in chain.tails && chain.tails[directory] == o then chain.(tails := chain.tails - {directory}) else chain
  }

  predicate SameDirectory(chain: Chain, a: nat, b: nat) {
    a < |chain.occupants| && b < |chain.occupants| && chain.occupants[a].directory == chain.occupants[b].directory
  }

  /** Everyone who came to `o`'s directory before `o` is before `o` in its chain, or gone. */
  ghost predicate Linked(chain: Chain, o: nat)
    requires o < |chain.occupants|
  {
    match chain.occupants[o].previous
    case None => forall a: nat | a < o && SameDirectory(chain, a, o) :: Free(chain, a)
    case Some(p) => p < o && SameDirectory(chain, p, o) && forall a: nat | a < o && SameDirectory(chain, a, o) :: a <= p
  }

  /** The registered tail is the directory's last occupant; without one, all occupants are gone. */
  ghost predicate Registered(chain: Chain, o: nat)
    requires o < |chain.occupants|
  {
    var directory := chain.occupants[o].directory;
    if directory in chain.tails
    then chain.tails[directory] < |chain.occupants| && SameDirectory(chain, chain.tails[directory], o) && o <= chain.tails[directory]
    else Free(chain, o)
  }

  ghost predicate Orderly(chain: Chain) {
    && (forall d | d in chain.tails :: chain.tails[d] < |chain.occupants| && chain.occupants[chain.tails[d]].directory == d)
    && (forall o | 0 <= o < |chain.occupants| :: Linked(chain, o) && Registered(chain, o))
    && (forall o | 0 <= o < |chain.occupants| && chain.occupants[o].admitted :: Entered(chain, o))
    && (forall o | 0 <= o < |chain.occupants| && chain.occupants[o].vacated :: chain.occupants[o].admitted)
  }

  ghost predicate Entered(chain: Chain, o: nat)
    requires o < |chain.occupants|
  {
    match chain.occupants[o].previous
    case None => true
    case Some(p) => p < o && Free(chain, p)
  }

  lemma {:induction false} FreeIsKept(chain: Chain, next: Chain, o: nat)
    requires |chain.occupants| <= |next.occupants| && o < |chain.occupants| && Free(chain, o)
    requires forall a | 0 <= a < |chain.occupants| ::
      next.occupants[a].previous == chain.occupants[a].previous && (chain.occupants[a].vacated ==> next.occupants[a].vacated)
    ensures Free(next, o)
    decreases o
  {
    match chain.occupants[o].previous
    case None =>
    case Some(p) => FreeIsKept(chain, next, p);
  }

  /** If an occupant's promise has resolved, everyone before it in the directory is gone. */
  lemma {:induction false} FreeMeansAllBeforeAreFree(chain: Chain, o: nat, a: nat)
    requires Orderly(chain) && o < |chain.occupants| && Free(chain, o) && a <= o && SameDirectory(chain, a, o)
    ensures Free(chain, a)
    decreases o
  {
    assert Linked(chain, o);
    if a < o {
      match chain.occupants[o].previous
      case None =>
      case Some(p) => FreeMeansAllBeforeAreFree(chain, p, a);
    }
  }

  /** An admitted occupant finds everyone who came before it gone: admission is first come, first
      served, and at most one admitted occupant of a directory has not vacated. */
  lemma EarlierOccupantsAreGone(chain: Chain, a: nat, b: nat)
    requires Orderly(chain) && a < b && SameDirectory(chain, a, b) && chain.occupants[b].admitted
    ensures chain.occupants[a].admitted && chain.occupants[a].vacated && Free(chain, a)
  {
    assert Linked(chain, b) && Entered(chain, b);
    match chain.occupants[b].previous
    case None =>
    case Some(p) => FreeMeansAllBeforeAreFree(chain, p, a);
  }

  lemma OccupyIsOrderly(chain: Chain, directory: string)
    requires Orderly(chain)
    ensures Orderly(Occupy(chain, directory))
  {
    var next, last := Occupy(chain, directory), |chain.occupants|;
    forall o | 0 <= o < last && Free(chain, o)
      ensures Free(next, o)
    {
      FreeIsKept(chain, next, o);
    }
    forall o | 0 <= o < last
      ensures Linked(next, o) && Registered(next, o) && (next.occupants[o].admitted ==> Entered(next, o))
    {
      assert Linked(chain, o) && Registered(chain, o);
      assert forall a: nat | a < o :: SameDirectory(next, a, o) == SameDirectory(chain, a, o);
    }
    assert Linked(next, last) by {
      forall a: nat | a < last && SameDirectory(next, a, last)
        ensures Registered(chain, a)
      {
      }
    }
  }

  lemma ChangeIsOrderly(chain: Chain, next: Chain, o: nat)
    requires Orderly(chain) && o < |chain.occupants|
    requires next.tails == chain.tails
    requires |next.occupants| == |chain.occupants| && next.occupants == chain.occupants[o := next.occupants[o]]
    requires next.occupants[o].directory == chain.occupants[o].directory && next.occupants[o].previous == chain.occupants[o].previous
    requires chain.occupants[o].vacated ==> next.occupants[o].vacated
    requires next.occupants[o].vacated ==> next.occupants[o].admitted
    requires next.occupants[o].admitted ==> Entered(chain, o)
    ensures Orderly(next)
  {
    forall a | 0 <= a < |chain.occupants| && Free(chain, a)
      ensures Free(next, a)
    {
      FreeIsKept(chain, next, a);
    }
    forall a | 0 <= a < |chain.occupants|
      ensures Linked(next, a) && Registered(next, a) && (next.occupants[a].admitted ==> Entered(next, a))
    {
      assert Linked(chain, a) && Registered(chain, a);
      assert forall b: nat | b < a :: SameDirectory(next, b, a) == SameDirectory(chain, b, a);
      assert chain.occupants[a].admitted ==> Entered(chain, a);
    }
  }

  lemma AdmitIsOrderly(chain: Chain, o: nat)
    requires Orderly(chain) && MayEnter(chain, o)
    ensures Orderly(Admit(chain, o))
  {
    ChangeIsOrderly(chain, Admit(chain, o), o);
  }

  lemma VacateIsOrderly(chain: Chain, o: nat)
    requires Orderly(chain) && o < |chain.occupants| && chain.occupants[o].admitted
    ensures Orderly(Vacate(chain, o))
  {
    assert Entered(chain, o);
    ChangeIsOrderly(chain, Vacate(chain, o), o);
  }

  lemma ForgetIsOrderly(chain: Chain, o: nat)
    requires Orderly(chain) && o < |chain.occupants| && Free(chain, o)
    ensures Orderly(Forget(chain, o))
  {
    var next := Forget(chain, o);
    forall a | 0 <= a < |chain.occupants| && Free(chain, a)
      ensures Free(next, a)
    {
      FreeIsKept(chain, next, a);
    }
    forall a | 0 <= a < |chain.occupants|
      ensures Linked(next, a) && Registered(next, a) && (next.occupants[a].admitted ==> Entered(next, a))
    {
      assert Linked(chain, a) && Registered(chain, a);
      assert forall b: nat | b < a :: SameDirectory(next, b, a) == SameDirectory(chain, b, a);
      if SameDirectory(chain, a, o) && a <= o {
        FreeMeansAllBeforeAreFree(chain, o, a);
      }
    }
  }

  lemma {:induction false} FreeOnceAllAreGone(chain: Chain, o: nat)
    requires Orderly(chain) && o < |chain.occupants|
    requires forall a: nat | a <= o && SameDirectory(chain, a, o) :: chain.occupants[a].vacated
    ensures Free(chain, o)
    decreases o
  {
    assert Linked(chain, o) && SameDirectory(chain, o, o);
    match chain.occupants[o].previous
    case None =>
    case Some(p) => FreeOnceAllAreGone(chain, p);
  }

  /** No wake-up is lost: whoever waits may enter as soon as everyone before it has vacated. */
  lemma NextMayEnter(chain: Chain, o: nat)
    requires Orderly(chain) && o < |chain.occupants| && !chain.occupants[o].admitted
    ensures MayEnter(chain, o) <==> forall a: nat | a < o && SameDirectory(chain, a, o) :: chain.occupants[a].vacated
  {
    assert Linked(chain, o);
    match chain.occupants[o].previous {
      case None =>
      case Some(p) =>
        if forall a: nat | a < o && SameDirectory(chain, a, o) :: chain.occupants[a].vacated {
          FreeOnceAllAreGone(chain, p);
        } else if Free(chain, p) {
          forall a: nat | a < o && SameDirectory(chain, a, o)
            ensures chain.occupants[a].vacated
          {
            FreeMeansAllBeforeAreFree(chain, p, a);
          }
        }
    }
  }
}
