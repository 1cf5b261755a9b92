/** What the identities promise over whole runs, restarts included. */
module IdentityTheorems {
  import opened IdentityKeys
  import opened IdentityGenerations

  function KeyOf(setup: Setup, id: Identity): string {
    Key(setup.base, id.slot, id.generation)
  }

  /** However many renders report a block, a process retires a key once, and never a key that is live:
      told by the keys themselves. */
  lemma KeysAreRetiredOnce(setup: Setup, states: seq<State>, events: seq<Event>, n: nat)
    requires IsRun(setup, states, events) && n < |states|
    ensures var s := states[n];
            && (forall i, j | 0 <= i < j < |s.retired| :: KeyOf(setup, s.retired[i]) != KeyOf(setup, s.retired[j]))
            && (forall i, k | 0 <= i < |s.slots| && 0 <= k < |s.retired| :: LiveKey(setup, s, i) != KeyOf(setup, s.retired[k]))
  {
    RunKeeps(setup, states, events, n);
    var s := states[n];
    forall i, j | 0 <= i < j < |s.retired|
      ensures KeyOf(setup, s.retired[i]) != KeyOf(setup, s.retired[j])
    {
      KeyIsInjective(setup.base, s.retired[i].slot, s.retired[i].generation, s.retired[j].slot, s.retired[j].generation);
    }
    forall i, k | 0 <= i < |s.slots| && 0 <= k < |s.retired|
      ensures LiveKey(setup, s, i) != KeyOf(setup, s.retired[k])
    {
      assert s.retired[k] in s.retired;
      KeyIsInjective(setup.base, i, s.slots[i].generation, s.retired[k].slot, s.retired[k].generation);
    }
  }

  /** A retired key waits in exactly one place until it is deleted or dropped, and at most 64 are pending. */
  lemma RetiredKeysAreInOnePlace(setup: Setup, states: seq<State>, events: seq<Event>, n: nat, id: Identity)
    requires IsRun(setup, states, events) && n < |states|
    ensures Places(states[n], id) == if id in states[n].retired then 1 else 0
    ensures |states[n].pending| <= MAX_PENDING
  {
    RunKeeps(setup, states, events, n);
  }

  /** Generations only grow, one at a time, and only by a rotation. */
  lemma GenerationsGrow(setup: Setup, s: State, e: Event, i: nat)
    requires Enabled(setup, s, e) && !e.Restart? && i < |s.slots|
    ensures var next := Apply(setup, s, e);
            && |next.slots| == |s.slots|
            && next.slots[i].generation == s.slots[i].generation + (if Rotates(setup, s, e) && setup.slotOf(e.host) == i then 1 else 0)
  {
  }

  ghost predicate EverIsOld(s: State) {
    forall id | id in s.ever :: id.slot < |s.slots| && id.generation < s.slots[id.slot].generation
  }

  /** The database holds what the process knows. */
  ghost predicate IsSaved(s: State) {
    |s.slots| == |s.stored| && forall i | 0 <= i < |s.slots| :: s.stored[i] == s.slots[i].generation
  }

  lemma StaysOld(setup: Setup, s: State, e: Event)
    requires Inv(s) && Enabled(setup, s, e) && EverIsOld(s)
    requires e.Restart? ==> IsSaved(s)
    ensures EverIsOld(Apply(setup, s, e))
  {
    var next := Apply(setup, s, e);
    forall id | id in next.ever
      ensures id.slot < |next.slots| && id.generation < next.slots[id.slot].generation
    {
      assert id in s.ever ==> id.slot < |s.slots| && id.generation < s.slots[id.slot].generation;
    }
  }

  lemma {:induction false} EverStaysOld(setup: Setup, states: seq<State>, events: seq<Event>, n: nat)
    requires IsRun(setup, states, events) && n < |states|
    requires forall k | 0 <= k < n && events[k].Restart? :: IsSaved(states[k])
    ensures EverIsOld(states[n])
  {
    if n > 0 {
      EverStaysOld(setup, states, events, n - 1);
      RunKeeps(setup, states, events, n - 1);
      StaysOld(setup, states[n - 1], events[n - 1]);
    }
  }

  /** While every restart finds the generations saved, no key that was ever retired comes back. */
  lemma KeysNeverComeBack(setup: Setup, states: seq<State>, events: seq<Event>, n: nat)
    requires IsRun(setup, states, events) && n < |states|
    requires forall k | 0 <= k < n && events[k].Restart? :: IsSaved(states[k])
    ensures EverIsOld(states[n])
    ensures forall i, id | 0 <= i < |states[n].slots| && id in states[n].ever :: LiveKey(setup, states[n], i) != KeyOf(setup, id)
  {
    EverStaysOld(setup, states, events, n);
    var s := states[n];
    forall i, id | 0 <= i < |s.slots| && id in s.ever
      ensures LiveKey(setup, s, i) != KeyOf(setup, id)
    {
      KeyIsInjective(setup.base, i, s.slots[i].generation, id.slot, id.generation);
    }
  }

  /** At some state up to `n`, the identity's slot had a later generation. */
  ghost predicate WasPassed(states: seq<State>, n: nat, id: Identity)
    requires n < |states|
  {
    exists k: nat {:trigger states[k].slots} ::
      k <= n && id.slot < |states[k].slots| && id.generation < states[k].slots[id.slot].generation
  }

  lemma WasPassedStep(states: seq<State>, n: nat, id: Identity)
    requires n + 1 < |states|
    ensures WasPassed(states, n + 1, id)
            <==> WasPassed(states, n, id) || (id.slot < |states[n + 1].slots| && id.generation < states[n + 1].slots[id.slot].generation)
  {
    if WasPassed(states, n, id) {
      var k: nat :| k <= n && id.slot < |states[k].slots| && id.generation < states[k].slots[id.slot].generation;
    }
  }

  /** The identities ever retired are those from the first one stored up to the latest their slot has
      passed, restarts or not. */
  lemma {:induction false} EverIsPassed(setup: Setup, states: seq<State>, events: seq<Event>, n: nat, id: Identity)
    requires IsRun(setup, states, events) && n < |states|
    ensures states[n].first == states[0].stored
    ensures id in states[n].ever
            <==> id.slot < |states[n].slots| == |states[0].stored| && states[0].stored[id.slot] <= id.generation && WasPassed(states, n, id)
  {
    RunKeeps(setup, states, events, n);
    var s := states[n];
    if n == 0 {
      if WasPassed(states, 0, id) {
        assert id.slot < |s.slots| && id.generation < s.slots[id.slot].generation;
      }
    } else {
      EverIsPassed(setup, states, events, n - 1, id);
      WasPassedStep(states, n - 1, id);
      RunKeeps(setup, states, events, n - 1);
      EverGrows(setup, states[n - 1], events[n - 1], id);
    }
  }

  lemma EverGrows(setup: Setup, s: State, e: Event, id: Identity)
    requires Inv(s) && Enabled(setup, s, e)
    ensures var next := Apply(setup, s, e);
            && next.first == s.first && |next.slots| == |s.slots|
            && (id in s.ever ==> id in next.ever)
            && (id in next.ever && id !in s.ever
                ==> id.slot < |s.slots| && s.first[id.slot] <= id.generation < next.slots[id.slot].generation)
  {
  }

  ghost predicate ComesBack(setup: Setup, s: State, i: nat) {
    i < |s.slots| && exists id :: id in s.ever && KeyOf(setup, id) == LiveKey(setup, s, i)
  }

  /** Without a saved generation they do: in any reachable state, a restart brings a retired key of a
      slot back exactly when the slot has once been past the generation in the database; while no key
      has come back yet, exactly when the database lags behind the process. */
  lemma RestartReusesIff(setup: Setup, states: seq<State>, events: seq<Event>, n: nat, i: nat)
    requires IsRun(setup, states, events) && n < |states| && i < |states[n].slots|
    ensures Enabled(setup, states[n], Restart) && i < |states[n].stored|
    ensures var s, next := states[n], Apply(setup, states[n], Restart);
            var back := Identity(i, s.stored[i]);
            && (ComesBack(setup, next, i) <==> back in s.ever)
            && (ComesBack(setup, next, i) <==> WasPassed(states, n, back))
            && (EverIsOld(s) ==> (ComesBack(setup, next, i) <==> s.stored[i] < s.slots[i].generation))
  {
    RunKeeps(setup, states, events, n);
    var s := states[n];
    var next := Apply(setup, s, Restart);
    var back := Identity(i, s.stored[i]);
    EverIsPassed(setup, states, events, n, back);
    assert next.slots[i].generation == s.stored[i];
    if back in s.ever {
      assert KeyOf(setup, back) == LiveKey(setup, next, i);
    }
    forall id | id in s.ever && KeyOf(setup, id) == LiveKey(setup, next, i)
      ensures id == back
    {
      KeyIsInjective(setup.base, id.slot, id.generation, i, s.stored[i]);
    }
  }

  const UNSAVED: Setup := Setup("gofetch", host => 0, true)

  function UnsavedEvent(n: nat): Event {
    if n < 2 then Observe("host", Key("gofetch", 0, 0), 0, true, false) else Restart
  }

  function UnsavedState(n: nat): State {
    var blocked := State([Slot(0, map["host" := 1])], [0], [0], [], {}, [], [], [], [], []);
    var gone := Identity(0, 0);
    if n == 0 then Init([0])
    else if n == 1 then blocked
    else if n == 2 then State([Slot(1, map[])], [0], [0], [gone], {gone}, [Retirement(0, gone)], [], [], [], [])
    else State(Fresh([0]), [0], [0], [], {gone}, [], [], [], [], [])
  }

  lemma UnsavedStep(n: nat)
    requires n < 3
    ensures Enabled(UNSAVED, UnsavedState(n), UnsavedEvent(n))
    ensures Apply(UNSAVED, UnsavedState(n), UnsavedEvent(n)) == UnsavedState(n + 1)
  {
    assert Fresh([0]) == [Slot(0, map[])];
  }

  /** Two blocks rotate an identity whose new generation cannot be saved; after a restart its key is live
      again, though it was retired. */
  lemma KeysCanComeBack() returns (states: seq<State>, events: seq<Event>)
    ensures IsRun(UNSAVED, states, events) && |states| == 4
    ensures ComesBack(UNSAVED, states[3], 0)
  {
    states := [UnsavedState(0), UnsavedState(1), UnsavedState(2), UnsavedState(3)];
    events := [UnsavedEvent(0), UnsavedEvent(1), UnsavedEvent(2)];
    forall n: nat | n < |events|
      ensures Enabled(UNSAVED, states[n], events[n]) && states[n + 1] == Apply(UNSAVED, states[n], events[n])
    {
      UnsavedStep(n);
    }
    var gone := Identity(0, 0);
    assert gone in states[3].ever && KeyOf(UNSAVED, gone) == LiveKey(UNSAVED, states[3], 0);
  }

  /** Event `k` is a block of the host on its slot's live identity that does not rotate it. */
  ghost predicate IsFirstBlock(setup: Setup, states: seq<State>, events: seq<Event>, k: nat, host: string)
    requires |states| == |events| + 1 && k < |events|
  {
    IsAboutLive(setup, states[k], events[k]) && events[k].host == host && events[k].blocked && !Rotates(setup, states[k], events[k])
  }

  /** Event `k` is no success of the host, no rotation of its slot, and no restart. */
  ghost predicate KeepsBlocks(setup: Setup, states: seq<State>, events: seq<Event>, k: nat, host: string)
    requires |states| == |events| + 1 && k < |events|
  {
    && !events[k].Restart?
    && !(Rotates(setup, states[k], events[k]) && setup.slotOf(events[k].host) == setup.slotOf(host))
    && !(IsAboutLive(setup, states[k], events[k]) && events[k].host == host && !events[k].blocked)
  }

  ghost predicate BlockedSince(setup: Setup, states: seq<State>, events: seq<Event>, m: nat, n: nat, host: string)
    requires |states| == |events| + 1 && m < n <= |events|
  {
    IsFirstBlock(setup, states, events, m, host) && forall k | m < k < n :: KeepsBlocks(setup, states, events, k, host)
  }

  ghost predicate WasBlocked(setup: Setup, states: seq<State>, events: seq<Event>, n: nat, host: string)
    requires |states| == |events| + 1 && n <= |events|
  {
    exists m: nat :: m < n && BlockedSince(setup, states, events, m, n, host)
  }

  /** One event later, the same report still counts, or the event is itself the report. */
  lemma WasBlockedStep(setup: Setup, states: seq<State>, events: seq<Event>, n: nat, host: string)
    requires |states| == |events| + 1 && n < |events|
    ensures WasBlocked(setup, states, events, n + 1, host)
            <==> IsFirstBlock(setup, states, events, n, host)
                 || (KeepsBlocks(setup, states, events, n, host) && WasBlocked(setup, states, events, n, host))
  {
    var later := n + 1;
    if IsFirstBlock(setup, states, events, n, host) {
      assert BlockedSince(setup, states, events, n, later, host);
    }
    if WasBlocked(setup, states, events, n, host) {
      var m: nat :| m < n && BlockedSince(setup, states, events, m, n, host);
      assert KeepsBlocks(setup, states, events, n, host) ==> BlockedSince(setup, states, events, m, later, host);
    }
    if WasBlocked(setup, states, events, later, host) {
      var m: nat :| m < later && BlockedSince(setup, states, events, m, later, host);
      assert m < n ==> KeepsBlocks(setup, states, events, n, host) && BlockedSince(setup, states, events, m, n, host);
    }
  }

  /** A counted block is an earlier report, with nothing in between that would clear it. */
  lemma {:induction false} BlocksAreReports(setup: Setup, states: seq<State>, events: seq<Event>, n: nat, host: string)
    requires IsRun(setup, states, events) && n < |states| && setup.slotOf(host) < |states[0].slots|
    ensures |states[n].slots| == |states[0].slots|
    ensures Blocks(states[n].slots[setup.slotOf(host)], host) > 0 <==> WasBlocked(setup, states, events, n, host)
  {
    RunKeeps(setup, states, events, n);
    if n > 0 {
      BlocksAreReports(setup, states, events, n - 1, host);
      BlocksStep(setup, states, events, n - 1, host);
      WasBlockedStep(setup, states, events, n - 1, host);
    }
  }

  lemma BlocksStep(setup: Setup, states: seq<State>, events: seq<Event>, n: nat, host: string)
    requires IsRun(setup, states, events) && n < |events| && setup.slotOf(host) < |states[n].slots| == |states[n + 1].slots|
    ensures var before, after := Blocks(states[n].slots[setup.slotOf(host)], host), Blocks(states[n + 1].slots[setup.slotOf(host)], host);
            after > 0 <==> IsFirstBlock(setup, states, events, n, host) || (before > 0 && KeepsBlocks(setup, states, events, n, host))
  {
  }

  /** With a changeable session, an identity is rotated exactly by the second block of one host that no
      success of the host, no rotation and no restart separates from the first. */
  lemma RotatesOnTheSecondBlock(setup: Setup, states: seq<State>, events: seq<Event>, n: nat)
    requires IsRun(setup, states, events) && n < |events| && IsAboutLive(setup, states[n], events[n]) && events[n].blocked
    ensures Rotates(setup, states[n], events[n])
            <==> setup.sticky && WasBlocked(setup, states, events, n, events[n].host)
  {
    RunKeeps(setup, states, events, n);
    BlocksAreReports(setup, states, events, n, events[n].host);
  }
}
