/** The generations of pkg/browser/identity.go when several processes share one database: each reads a
    slot's generation once, when it starts, and a rotation overwrites what is stored. */
module IdentityProcesses {
  import G = IdentityGenerations

  /** `running` holds, by process, the generations of the slots it has read so far; `ever` logs the keys
      that any process has retired. */
  datatype Fleet = Fleet(stored: seq<nat>, running: map<nat, seq<nat>>, ever: set<G.Identity>)

  /** `Load` reads the next slot of a starting process. When a process rotates is told by
      `RotatesOnTheSecondBlock`. */
  datatype Event = Start(process: nat) | Load(process: nat) | Rotate(process: nat, slot: nat, saved: bool) | Stop(process: nat)

  function Init(stored: seq<nat>): Fleet {
    Fleet(stored, map[], {})
  }

  predicate Enabled(f: Fleet, e: Event) {
    match e
    case Start(p) => p !in f.running
    case Load(p) => p in f.running && |f.running[p]| < |f.stored|
    case Rotate(p, i, _) => p in f.running && i < |f.running[p]| == |f.stored|
    case Stop(p) => p in f.running
  }

  function Apply(f: Fleet, e: Event): Fleet
    requires Enabled(f, e)
  {
    match e
    case Start(p) => f.(running := f.running[p := []])
    case Load(p) => f.(running := f.running[p := f.running[p] + [f.stored[|f.running[p]|]]])
    case Rotate(p, i, saved) =>
      var g := f.running[p][i];
      Fleet(if saved then f.stored[i := g + 1] else f.stored, f.running[p := f.running[p][i := g + 1]], f.ever + {G.Identity(i, g)})
    case Stop(p) => f.(running := f.running - {p})
  }

  predicate IsLive(f: Fleet, p: nat, id: G.Identity) {
    p in f.running && id.slot < |f.running[p]| && f.running[p][id.slot] == id.generation
  }

  /** No process uses a key that was retired. */
  ghost predicate IsClean(f: Fleet) {
    forall p, id {:trigger IsLive(f, p, id)} | id in f.ever :: !IsLive(f, p, id)
  }

  predicate IsShared(f: Fleet, p: nat, i: nat) {
    exists q | q in f.running :: q != p && i < |f.running[q]|
  }

  /** Another process has the same key. */
  predicate SharesKey(f: Fleet, p: nat, i: nat)
    requires p in f.running && i < |f.running[p]|
  {
    exists q | q in f.running :: q != p && i < |f.running[q]| && f.running[q][i] == f.running[p][i]
  }

  /** The step reads a retired generation, moves on to one, or retires what another process uses. */
  predicate UsesRetired(f: Fleet, e: Event)
    requires Enabled(f, e)
  {
    match e
    case Load(p) => G.Identity(|f.running[p]|, f.stored[|f.running[p]|]) in f.ever
    case Rotate(p, i, _) => SharesKey(f, p, i) || G.Identity(i, f.running[p][i] + 1) in f.ever
    case _ => false
  }

  lemma LoadIsCleanIff(f: Fleet, p: nat)
    requires IsClean(f) && Enabled(f, Load(p))
    ensures IsClean(Apply(f, Load(p))) <==> !UsesRetired(f, Load(p))
  {
    var next, read := Apply(f, Load(p)), G.Identity(|f.running[p]|, f.stored[|f.running[p]|]);
    assert IsLive(next, p, read);
    forall q, id | IsLive(next, q, id)
      ensures IsLive(f, q, id) || (q == p && id == read)
    {
    }
  }

  lemma RotateIsCleanIff(f: Fleet, p: nat, i: nat, saved: bool)
    requires IsClean(f) && Enabled(f, Rotate(p, i, saved))
    ensures IsClean(Apply(f, Rotate(p, i, saved))) <==> !UsesRetired(f, Rotate(p, i, saved))
  {
    var next, gone, coming := Apply(f, Rotate(p, i, saved)), G.Identity(i, f.running[p][i]), G.Identity(i, f.running[p][i] + 1);
    assert IsLive(next, p, coming);
    forall q, id | IsLive(next, q, id)
      ensures (IsLive(f, q, id) && !(q == p && id == gone)) || (q == p && id == coming)
    {
    }
    if SharesKey(f, p, i) {
      var q :| q in f.running && q != p && i < |f.running[q]| && f.running[q][i] == f.running[p][i];
      assert IsLive(next, q, gone);
    }
  }

  /** A step brings a retired key into use exactly if it is one of those. */
  lemma StaysCleanIff(f: Fleet, e: Event)
    requires IsClean(f) && Enabled(f, e)
    ensures IsClean(Apply(f, e)) <==> !UsesRetired(f, e)
  {
    match e
    case Load(p) => LoadIsCleanIff(f, p);
    case Rotate(p, i, saved) => RotateIsCleanIff(f, p, i, saved);
    case Start(p) =>
      assert forall q, id | IsLive(Apply(f, e), q, id) :: IsLive(f, q, id);
    case Stop(p) =>
      assert forall q, id | IsLive(Apply(f, e), q, id) :: IsLive(f, q, id);
  }

  ghost predicate IsRun(states: seq<Fleet>, events: seq<Event>) {
    && |states| == |events| + 1 && states[0] == Init(states[0].stored)
    && forall n | 0 <= n < |events| :: Enabled(states[n], events[n]) && states[n + 1] == Apply(states[n], events[n])
  }

  lemma {:induction false} CleanSoFar(states: seq<Fleet>, events: seq<Event>, n: nat)
    requires IsRun(states, events) && n < |states|
    requires forall k | 0 <= k < n :: !UsesRetired(states[k], events[k])
    ensures IsClean(states[n])
  {
    if n > 0 {
      CleanSoFar(states, events, n - 1);
      StaysCleanIff(states[n - 1], events[n - 1]);
    }
  }

  /** Over every run of any number of processes, saved or not: no retired key is ever used exactly when no
      step is one of those. */
  lemma RunIsCleanIff(states: seq<Fleet>, events: seq<Event>)
    requires IsRun(states, events)
    ensures (forall n | 0 <= n < |states| :: IsClean(states[n])) <==> (forall n | 0 <= n < |events| :: !UsesRetired(states[n], events[n]))
  {
    if forall n | 0 <= n < |events| :: !UsesRetired(states[n], events[n]) {
      forall n | 0 <= n < |states|
        ensures IsClean(states[n])
      {
        CleanSoFar(states, events, n);
      }
    }
    if forall n | 0 <= n < |states| :: IsClean(states[n]) {
      forall n | 0 <= n < |events|
        ensures !UsesRetired(states[n], events[n])
      {
        var next := states[n + 1];
        assert IsClean(states[n]) && IsClean(next);
        StaysCleanIff(states[n], events[n]);
      }
    }
  }

  /** Every process agrees with the database, and what was retired is older. */
  ghost predicate IsLevel(f: Fleet) {
    && (forall p | p in f.running :: f.running[p] <= f.stored)
    && (forall id | id in f.ever :: id.slot < |f.stored| && id.generation < f.stored[id.slot])
  }

  predicate RotatesShared(f: Fleet, e: Event) {
    e.Rotate? && IsShared(f, e.process, e.slot)
  }

  lemma StaysLevel(f: Fleet, e: Event)
    requires IsLevel(f) && Enabled(f, e) && (e.Rotate? ==> e.saved) && !RotatesShared(f, e)
    ensures IsLevel(Apply(f, e))
  {
    if e.Rotate? {
      var next := Apply(f, e);
      forall q | q in next.running
        ensures next.running[q] <= next.stored
      {
        assert q == e.process || |f.running[q]| <= e.slot;
      }
    }
  }

  lemma LevelUsesRetiredIff(f: Fleet, e: Event)
    requires IsLevel(f) && Enabled(f, e)
    ensures UsesRetired(f, e) <==> RotatesShared(f, e)
  {
    if e.Rotate? {
      var p, i := e.process, e.slot;
      assert f.running[p] <= f.stored;
      if IsShared(f, p, i) {
        var q :| q in f.running && q != p && i < |f.running[q]|;
        assert f.running[q] <= f.stored;
      }
    }
  }

  lemma {:induction false} LevelSoFar(states: seq<Fleet>, events: seq<Event>, n: nat)
    requires IsRun(states, events) && n < |states|
    requires forall k | 0 <= k < n && events[k].Rotate? :: events[k].saved
    requires forall k | 0 <= k < n :: !RotatesShared(states[k], events[k])
    ensures IsLevel(states[n])
  {
    if n > 0 {
      LevelSoFar(states, events, n - 1);
      StaysLevel(states[n - 1], events[n - 1]);
    }
  }

  /** The first `n` steps use no retired key exactly when none of them rotates a shared slot. */
  lemma {:induction false} NoneUsesIff(states: seq<Fleet>, events: seq<Event>, n: nat)
    requires IsRun(states, events) && n <= |events|
    requires forall k | 0 <= k < n && events[k].Rotate? :: events[k].saved
    ensures (forall k | 0 <= k < n :: !UsesRetired(states[k], events[k])) <==> (forall k | 0 <= k < n :: !RotatesShared(states[k], events[k]))
  {
    if n > 0 {
      NoneUsesIff(states, events, n - 1);
      if forall k | 0 <= k < n - 1 :: !RotatesShared(states[k], events[k]) {
        LevelSoFar(states, events, n - 1);
        LevelUsesRetiredIff(states[n - 1], events[n - 1]);
      }
    }
  }

  /** Even with every generation saved, processes that share the database keep retired keys out of use
      exactly when a slot is rotated only while no other running process has read it. */
  lemma SharingIsCleanIff(states: seq<Fleet>, events: seq<Event>)
    requires IsRun(states, events) && forall k | 0 <= k < |events| && events[k].Rotate? :: events[k].saved
    ensures (forall n | 0 <= n < |states| :: IsClean(states[n])) <==> (forall n | 0 <= n < |events| :: !RotatesShared(states[n], events[n]))
  {
    RunIsCleanIff(states, events);
    NoneUsesIff(states, events, |events|);
  }

  function TwoState(n: nat): Fleet {
    var first := G.Identity(0, 0);
    match n
    case 0 => Init([0])
    case 1 => Fleet([0], map[1 := []], {})
    case 2 => Fleet([0], map[1 := [0]], {})
    case 3 => Fleet([0], map[1 := [0], 2 := []], {})
    case 4 => Fleet([0], map[1 := [0], 2 := [0]], {})
    case 5 => Fleet([1], map[1 := [1], 2 := [0]], {first})
    case 6 => Fleet([2], map[1 := [2], 2 := [0]], {first, G.Identity(0, 1)})
    case _ => Fleet([1], map[1 := [2], 2 := [1]], {first, G.Identity(0, 1)})
  }

  function TwoEvent(n: nat): Event {
    match n
    case 0 => Start(1)
    case 1 => Load(1)
    case 2 => Start(2)
    case 3 => Load(2)
    case 4 => Rotate(1, 0, true)
    case 5 => Rotate(1, 0, true)
    case _ => Rotate(2, 0, true)
  }

  lemma TwoStep(n: nat)
    requires n < 7
    ensures Enabled(TwoState(n), TwoEvent(n)) && Apply(TwoState(n), TwoEvent(n)) == TwoState(n + 1)
  {
    var empty: seq<nat> := [];
    assert empty + [0] == [0] && [0][0 := 1] == [1] && [1][0 := 2] == [2] && [2][0 := 1] == [1];
  }

  /** Two processes with every save successful: a key retired by one stays in use in the other, and the
      stored generation goes back to one that was retired. */
  lemma TwoProcessesCollide() returns (states: seq<Fleet>, events: seq<Event>)
    ensures IsRun(states, events) && |states| == 8 && forall e | e in events && e.Rotate? :: e.saved
    ensures IsLive(states[5], 2, G.Identity(0, 0)) && G.Identity(0, 0) in states[5].ever
    ensures states[7].stored == [1] && states[6].stored == [2] && G.Identity(0, 1) in states[7].ever
  {
    states, events := seq(8, n requires 0 <= n < 8 => TwoState(n)), seq(7, n requires 0 <= n < 7 => TwoEvent(n));
    forall n | 0 <= n < 7
      ensures Enabled(states[n], events[n]) && states[n + 1] == Apply(states[n], events[n])
    {
      TwoStep(n);
    }
  }

  function Generations(s: G.State): seq<nat> {
    seq(|s.slots|, i requires 0 <= i < |s.slots| => s.slots[i].generation)
  }

  /** One process, as seen from the database. */
  function Alone(s: G.State): Fleet {
    Fleet(s.stored, map[0 := Generations(s)], s.ever)
  }

  /** A process on its own does nothing else: a report that rotates is `Rotate`, and any other is nothing. */
  lemma ReportIsRotate(setup: G.Setup, s: G.State, e: G.Event)
    requires G.Enabled(setup, s, e) && !e.Restart?
    ensures G.Rotates(setup, s, e) ==>
              && Enabled(Alone(s), Rotate(0, setup.slotOf(e.host), e.saved))
              && Alone(G.Apply(setup, s, e)) == Apply(Alone(s), Rotate(0, setup.slotOf(e.host), e.saved))
    ensures !G.Rotates(setup, s, e) ==> Alone(G.Apply(setup, s, e)) == Alone(s)
  {
    var next := G.Apply(setup, s, e);
    if G.Rotates(setup, s, e) {
      var i := setup.slotOf(e.host);
      assert Generations(next) == Generations(s)[i := Generations(s)[i] + 1];
    } else {
      assert Generations(next) == Generations(s);
    }
  }
}
