/** The profile locks of browser-service/src/profiles/locks.ts: renders of one profile queue up behind
    each other, and an open session keeps everyone else out. */
module ProfileLocks {
  import opened Wrappers
  import opened DirectoryChain

  /** `renders` is the promise chain of `#renders`; a render's occupant is its place in it. */
  datatype Locks = Locks(renders: Chain, sessions: set<string>)

  const UNLOCKED: Locks := Locks(EMPTY, {})

  /** `withRender`, up to its `await previous`. */
  function Arrive(l: Locks, name: string): Locks {
    if name in l.sessions then l else l.(renders := Occupy(l.renders, name))
  }

  function Enter(l: Locks, o: nat): Locks
    requires MayEnter(l.renders, o)
  {
    l.(renders := Admit(l.renders, o))
  }

  predicate IsRunning(l: Locks, o: nat) {
    o < |l.renders.occupants| && l.renders.occupants[o].admitted && !l.renders.occupants[o].vacated
  }

  /** The `finally` of `withRender`: the next render may enter, and the last one clears the entry. */
  function Leave(l: Locks, o: nat): Locks
    requires o < |l.renders.occupants|
  {
    var left := Vacate(l.renders, o);
    var name := left.occupants[o].directory;
    l.(renders := if name in left.tails && left.tails[name] == o then left.(tails := left.tails - {name}) else left)
  }

  predicate IsFree(l: Locks, name: string) {
    name !in l.sessions && name !in l.renders.tails
  }

  function Hold(l: Locks, name: string): Locks
    requires IsFree(l, name)
  {
    l.(sessions := l.sessions + {name})
  }

  function Drop(l: Locks, name: string): Locks {
    l.(sessions := l.sessions - {name})
  }

  ghost predicate Exclusive(l: Locks) {
    && Orderly(l.renders)
    && (forall name | name in l.renders.tails :: !l.renders.occupants[l.renders.tails[name]].vacated)
    && forall name | name in l.sessions :: name !in l.renders.tails
  }

  lemma ArriveKeeps(l: Locks, name: string)
    requires Exclusive(l)
    ensures Exclusive(Arrive(l, name))
  {
    OccupyIsOrderly(l.renders, name);
  }

  lemma EnterKeeps(l: Locks, o: nat)
    requires Exclusive(l) && MayEnter(l.renders, o)
    ensures Exclusive(Enter(l, o))
  {
    AdmitIsOrderly(l.renders, o);
  }

  lemma LeaveKeeps(l: Locks, o: nat)
    requires Exclusive(l) && IsRunning(l, o)
    ensures Exclusive(Leave(l, o))
  {
    VacateIsOrderly(l.renders, o);
    var left := Vacate(l.renders, o);
    assert Entered(left, o);
    assert Leave(l, o).renders == Forget(left, o);
    ForgetIsOrderly(left, o);
  }

  /** A session that holds a profile finds every render of it over, those still queued included. */
  lemma HeldMeansNoRender(l: Locks, name: string, o: nat)
    requires Exclusive(l) && name in l.sessions && o < |l.renders.occupants| && l.renders.occupants[o].directory == name
    ensures l.renders.occupants[o].admitted && l.renders.occupants[o].vacated
  {
    assert Registered(l.renders, o);
  }

  /** A session is let in exactly when no other session holds the profile and every render that ever
      asked for it is over. */
  lemma FreeIffUnowned(l: Locks, name: string)
    requires Exclusive(l)
    ensures IsFree(l, name) <==>
              && name !in l.sessions
              && forall o | 0 <= o < |l.renders.occupants| && l.renders.occupants[o].directory == name :: l.renders.occupants[o].vacated
  {
    if name !in l.renders.tails {
      forall o | 0 <= o < |l.renders.occupants| && l.renders.occupants[o].directory == name
        ensures l.renders.occupants[o].vacated
      {
        assert Registered(l.renders, o);
      }
    }
  }

  /** The two fields of `ProfileLocks`, updated in place. */
  class ProfileLocks {
    var renders: Chain
    var sessions: set<string>

    ghost function Value(): Locks
      reads this
    {
      Locks(renders, sessions)
    }

    constructor ()
      ensures Value() == UNLOCKED && Exclusive(Value())
    {
      renders, sessions := EMPTY, {};
    }

    method ArriveForRender(name: string) returns (place: Result<nat, string>)
      requires Exclusive(Value())
      modifies this
      ensures Value() == Arrive(old(Value()), name) && Exclusive(Value())
      ensures place.Ok? <==> name !in old(sessions)
      ensures place.Ok? ==> place.value < |renders.occupants| && !renders.occupants[place.value].admitted && renders.occupants[place.value].directory == name
    {
      ArriveKeeps(Value(), name);
      if name in sessions {
        return Err("profile_in_use");
      }
      place := Ok(|renders.occupants|);
      var previous := if name in renders.tails then Some(renders.tails[name]) else None;
      renders := Chain(renders.occupants + [Occupant(name, previous, false, false)], renders.tails[name := |renders.occupants|]);
    }

    method LeaveRender(o: nat)
      requires Exclusive(Value()) && IsRunning(Value(), o)
      modifies this
      ensures Value() == Leave(old(Value()), o) && Exclusive(Value())
    {
      LeaveKeeps(Value(), o);
      renders := Vacate(renders, o);
      var name := renders.occupants[o].directory;
      if name in renders.tails && renders.tails[name] == o {
        renders := renders.(tails := renders.tails - {name});
      }
    }

    method HoldForSession(name: string) returns (held: bool)
      requires Exclusive(Value())
      modifies this`sessions
      ensures held <==> IsFree(old(Value()), name)
      ensures Value() == if held then Hold(old(Value()), name) else old(Value())
      ensures Exclusive(Value())
    {
      held := name !in sessions && name !in renders.tails;
      if held {
        sessions := sessions + {name};
      }
    }

    method ReleaseSession(name: string)
      requires Exclusive(Value())
      modifies this`sessions
      ensures Value() == Drop(old(Value()), name) && Exclusive(Value())
    {
      sessions := sessions - {name};
    }
  }
}
