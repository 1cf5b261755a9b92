/** `Identities` of pkg/browser/identity.go and the retirement list of `Client` in pkg/browser/client.go,
    updated in place. */
module IdentityService {
  import opened IdentityKeys
  import opened IdentityGenerations

  /** The deletions of a batch that failed, in order. */
  method Failed(batch: seq<Retirement>, failed: seq<bool>) returns (left: seq<Retirement>)
    requires |failed| == |batch|
    ensures left == Chosen(batch, failed, true)
  {
    left := [];
    for i := 0 to |batch|
      invariant left + Chosen(batch[i..], failed[i..], true) == Chosen(batch, failed, true)
    {
      if failed[i] {
        left := left + [batch[i]];
      }
    }
  }

  class Client {
    const setup: Setup
    var slots: seq<Slot>
    var pending: seq<Retirement>
    /** The database, and what goroutines hold. */
    var stored: seq<nat>
    var handed: seq<Retirement>
    var inFlight: seq<seq<Retirement>>
    ghost var first: seq<nat>
    ghost var retired: seq<Identity>
    ghost var ever: set<Identity>
    ghost var deleted: seq<Retirement>
    ghost var dropped: seq<Retirement>

    ghost function Value(): State
      reads this
    {
      State(slots, stored, first, retired, ever, handed, pending, inFlight, deleted, dropped)
    }

    /** `NewIdentities`, given what the database holds for each slot. */
    constructor (setup: Setup, stored: seq<nat>)
      ensures this.setup == setup && Value() == Init(stored)
    {
      this.setup := setup;
      slots, this.stored, first := Fresh(stored), stored, stored;
      retired, ever, handed, pending, inFlight, deleted, dropped := [], {}, [], [], [], [], [];
    }

    /** The next generation of a slot. */
    method Rotate(i: nat, node: nat, saved: bool)
      requires i < |slots| == |stored|
      modifies this`slots, this`stored, this`retired, this`ever, this`handed
      ensures var gone := Identity(i, old(slots)[i].generation);
              Value() == old(Value()).(slots := old(slots)[i := Slot(gone.generation + 1, map[])],
                                       stored := if saved then old(stored)[i := gone.generation + 1] else old(stored),
                                       retired := old(retired) + [gone], ever := old(ever) + {gone}, handed := old(handed) + [Retirement(node, gone)])
    {
      var gone := Identity(i, slots[i].generation);
      slots := slots[i := Slot(gone.generation + 1, map[])];
      if saved {
        stored := stored[i := gone.generation + 1];
      }
      retired, ever := retired + [gone], ever + {gone};
      handed := handed + [Retirement(node, gone)];
    }

    /** `Identities.observe`, and the rotated key in the caller's hand. */
    method Observe(host: string, key: string, node: nat, blocked: bool, saved: bool) returns (rotated: bool)
      requires Inv(Value()) && setup.slotOf(host) < |slots|
      modifies this
      ensures Value() == Apply(setup, old(Value()), Event.Observe(host, key, node, blocked, saved)) && Inv(Value())
      ensures rotated <==> Rotates(setup, old(Value()), Event.Observe(host, key, node, blocked, saved))
    {
      ObserveKeeps(setup, Value(), Event.Observe(host, key, node, blocked, saved));
      var i := setup.slotOf(host);
      var slot := slots[i];
      if key != Key(setup.base, i, slot.generation) {
        return false;
      }
      if !blocked {
        slots := slots[i := slot.(blocks := slot.blocks - {host})];
        return false;
      }
      var count := Blocks(slot, host) + 1;
      if count < ROTATE_AFTER_BLOCKS || !setup.sticky {
        slots := slots[i := slot.(blocks := slot.blocks[host := count])];
        return false;
      }
      Rotate(i, node, saved);
      rotated := true;
    }

    /** `Client.observe` under its lock: the whole pending list leaves as one batch. */
    method TakeBatch(h: nat) returns (batch: seq<Retirement>)
      requires Inv(Value()) && h < |handed|
      modifies this
      ensures Value() == Apply(setup, old(Value()), HandOver(h)) && Inv(Value())
      ensures batch == old(pending) + [old(handed)[h]]
    {
      HandOverKeeps(setup, Value(), h);
      pending := pending + [handed[h]];
      handed := handed[..h] + handed[h + 1..];
      batch := pending;
      pending := [];
      inFlight := inFlight + [batch];
    }

    /** `Client.retire`: what failed goes back to the front, and the oldest entries over the limit go. */
    method Retire(b: nat, failed: seq<bool>)
      requires Inv(Value()) && b < |inFlight| && |failed| == |inFlight[b]|
      modifies this
      ensures Value() == Apply(setup, old(Value()), RetireEnds(b, failed)) && Inv(Value())
    {
      RetireEndsKeeps(Value(), b, failed);
      var batch := inFlight[b];
      var left := Failed(batch, failed);
      deleted := deleted + Chosen(batch, failed, false);
      inFlight := inFlight[..b] + inFlight[b + 1..];
      if |left| == 0 {
        return;
      }
      pending := left + pending;
      var excess := |pending| - MAX_PENDING;
      if excess > 0 {
        dropped := dropped + pending[..excess];
        pending := pending[excess..];
      }
    }
  }
}
