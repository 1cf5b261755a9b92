/** The generations of browser identities (`observe` in pkg/browser/identity.go) and the list of retired
    keys (`observe` and `retire` in pkg/browser/client.go), over renders, deletions and restarts. */
module IdentityGenerations {
  import opened Counting
  import opened IdentityKeys

  const ROTATE_AFTER_BLOCKS: nat := 2
  const MAX_PENDING: nat := 64

  /** `sticky`: the proxy has a session that can be changed. */
  datatype Setup = Setup(base: string, slotOf: string -> nat, sticky: bool)

  datatype Slot = Slot(generation: nat, blocks: map<string, nat>)

  datatype Identity = Identity(slot: nat, generation: nat)

  datatype Retirement = Retirement(node: nat, identity: Identity)

  /** `stored` is what the database holds, and `first` held when the first process started. `retired`
      logs what this process has retired, `ever` what any has. A retired key is `handed` between the
      slot's lock and the client's, then `pending` or in a batch in flight. */
  datatype State = State(slots: seq<Slot>, stored: seq<nat>, first: seq<nat>, retired: seq<Identity>, ever: set<Identity>,
                         handed: seq<Retirement>, pending: seq<Retirement>, inFlight: seq<seq<Retirement>>,
                         deleted: seq<Retirement>, dropped: seq<Retirement>)

  /** `failed` marks the deletions of a batch that did not succeed. */
  datatype Event =
    | Observe(host: string, key: string, node: nat, blocked: bool, saved: bool)
    | HandOver(h: nat)
    | RetireEnds(b: nat, failed: seq<bool>)
    | Restart

  function Fresh(stored: seq<nat>): (r: seq<Slot>)
    ensures |r| == |stored|
  {
    seq(|stored|, i requires 0 <= i < |stored| => Slot(stored[i], map[]))
  }

  function Init(stored: seq<nat>): State {
    State(Fresh(stored), stored, stored, [], {}, [], [], [], [], [])
  }

  function LiveKey(setup: Setup, s: State, i: nat): string
    requires i < |s.slots|
  {
    Key(setup.base, i, s.slots[i].generation)
  }

  function Blocks(slot: Slot, host: string): nat {
    if host in slot.blocks then slot.blocks[host] else 0
  }

  predicate Enabled(setup: Setup, s: State, e: Event) {
    match e
    case Observe(host, _, _, _, _) => setup.slotOf(host) < |s.slots| == |s.stored|
    case HandOver(h) => h < |s.handed|
    case RetireEnds(b, failed) => b < |s.inFlight| && |failed| == |s.inFlight[b]|
    case Restart => |s.slots| == |s.stored|
  }

  /** The report is about the slot's current identity. */
  predicate IsAboutLive(setup: Setup, s: State, e: Event) {
    e.Observe? && setup.slotOf(e.host) < |s.slots| && e.key == LiveKey(setup, s, setup.slotOf(e.host))
  }

  predicate Rotates(setup: Setup, s: State, e: Event) {
    && IsAboutLive(setup, s, e) && e.blocked && setup.sticky
    && Blocks(s.slots[setup.slotOf(e.host)], e.host) + 1 >= ROTATE_AFTER_BLOCKS
  }

  function ApplyObserve(setup: Setup, s: State, e: Event): State
    requires e.Observe? && Enabled(setup, s, e)
  {
    var i := setup.slotOf(e.host);
    var slot := s.slots[i];
    if e.key != LiveKey(setup, s, i) then s
    else if !e.blocked then s.(slots := s.slots[i := slot.(blocks := slot.blocks - {e.host})])
    else if !Rotates(setup, s, e) then s.(slots := s.slots[i := slot.(blocks := slot.blocks[e.host := Blocks(slot, e.host) + 1])])
    else
      var gone := Identity(i, slot.generation);
      s.(slots := s.slots[i := Slot(slot.generation + 1, map[])],
         stored := if e.saved then s.stored[i := slot.generation + 1] else s.stored,
         retired := s.retired + [gone], ever := s.ever + {gone}, handed := s.handed + [Retirement(e.node, gone)])
  }

  function Without<T>(items: seq<T>, i: nat): seq<T>
    requires i < |items|
  {
    items[..i] + items[i + 1..]
  }

  function Chosen(batch: seq<Retirement>, failed: seq<bool>, which: bool): seq<Retirement>
    requires |failed| == |batch|
  {
    if batch == [] then []
    else (if failed[0] == which then [batch[0]] else []) + Chosen(batch[1..], failed[1..], which)
  }

  /** How many of the oldest entries are over the limit. */
  function Excess(items: seq<Retirement>): nat {
    if |items| > MAX_PENDING then |items| - MAX_PENDING else 0
  }

  function ApplyRetireEnds(s: State, b: nat, failed: seq<bool>): State
    requires b < |s.inFlight| && |failed| == |s.inFlight[b]|
  {
    var left := Chosen(s.inFlight[b], failed, true);
    var done := s.(inFlight := Without(s.inFlight, b), deleted := s.deleted + Chosen(s.inFlight[b], failed, false));
    if left == [] then done
    else
      var all := left + s.pending;
      done.(pending := all[Excess(all)..], dropped := s.dropped + all[..Excess(all)])
  }

  function Apply(setup: Setup, s: State, e: Event): State
    requires Enabled(setup, s, e)
  {
    match e
    case Observe(_, _, _, _, _) => ApplyObserve(setup, s, e)
    case HandOver(h) => s.(handed := Without(s.handed, h), pending := [], inFlight := s.inFlight + [s.pending + [s.handed[h]]])
    case RetireEnds(b, failed) => ApplyRetireEnds(s, b, failed)
    case Restart => s.(slots := Fresh(s.stored), retired := [], handed := [], pending := [], inFlight := [], deleted := [], dropped := [])
  }

  ghost predicate Ordered(s: State) {
    && |s.slots| == |s.stored| == |s.first|
    && (forall i | 0 <= i < |s.slots| :: s.first[i] <= s.stored[i] <= s.slots[i].generation)
    && (forall i, g: nat | 0 <= i < |s.slots| && s.first[i] <= g < s.slots[i].generation :: Identity(i, g) in s.ever)
  }

  /** What this process retired is older than what is live, and was retired once. */
  ghost predicate RetiredOnce(s: State) {
    && (forall id | id in s.retired :: id.slot < |s.slots| && id.generation < s.slots[id.slot].generation)
    && (forall i, j | 0 <= i < j < |s.retired| :: s.retired[i] != s.retired[j])
  }

  function Of(id: Identity): Retirement -> bool {
    (r: Retirement) => r.identity == id
  }

  function Flying(batches: seq<seq<Retirement>>, id: Identity): nat {
    if batches == [] then 0 else Flying(batches[..|batches| - 1], id) + Count(batches[|batches| - 1], Of(id))
  }

  /** In how many places a key is: in hand, pending, in flight, deleted, dropped. */
  function Places(s: State, id: Identity): nat {
    Count(s.handed, Of(id)) + Count(s.pending, Of(id)) + Flying(s.inFlight, id) + Count(s.deleted, Of(id)) + Count(s.dropped, Of(id))
  }

  /** Every retired key is in exactly one place, and no other key is in any. */
  ghost predicate Accounted(s: State) {
    forall id: Identity :: Places(s, id) == if id in s.retired then 1 else 0
  }

  ghost predicate Inv(s: State) {
    Ordered(s) && RetiredOnce(s) && Accounted(s) && |s.pending| <= MAX_PENDING
  }

  lemma {:induction false} FlyingWithout(batches: seq<seq<Retirement>>, b: nat, id: Identity)
    requires b < |batches|
    ensures Flying(batches, id) == Flying(Without(batches, b), id) + Count(batches[b], Of(id))
  {
    var last := |batches| - 1;
    if b == last {
      assert Without(batches, b) == batches[..last];
    } else {
      FlyingWithout(batches[..last], b, id);
      assert Without(batches, b)[..last - 1] == Without(batches[..last], b);
    }
  }

  lemma {:induction false} ChosenSplits(batch: seq<Retirement>, failed: seq<bool>, id: Identity)
    requires |failed| == |batch|
    ensures Count(batch, Of(id)) == Count(Chosen(batch, failed, true), Of(id)) + Count(Chosen(batch, failed, false), Of(id))
  {
    if batch != [] {
      ChosenSplits(batch[1..], failed[1..], id);
      assert batch == [batch[0]] + batch[1..];
      CountConcat([batch[0]], batch[1..], Of(id));
      CountConcat([batch[0]], Chosen(batch[1..], failed[1..], failed[0]), Of(id));
      assert Chosen(batch, failed, !failed[0]) == Chosen(batch[1..], failed[1..], !failed[0]);
    }
  }

  lemma {:induction false} ChosenConcat(a: seq<Retirement>, af: seq<bool>, b: seq<Retirement>, bf: seq<bool>, which: bool)
    requires |af| == |a| && |bf| == |b|
    ensures Chosen(a + b, af + bf, which) == Chosen(a, af, which) + Chosen(b, bf, which)
  {
    if a == [] {
      assert a + b == b && af + bf == bf;
    } else {
      var rest, head := Chosen(a[1..], af[1..], which), if af[0] == which then [a[0]] else [];
      ChosenConcat(a[1..], af[1..], b, bf, which);
      assert (a + b)[1..] == a[1..] + b && (af + bf)[1..] == af[1..] + bf && (a + b)[0] == a[0] && (af + bf)[0] == af[0];
      calc {
        Chosen(a + b, af + bf, which);
        head + Chosen(a[1..] + b, af[1..] + bf, which);
        head + (rest + Chosen(b, bf, which));
        (head + rest) + Chosen(b, bf, which);
      }
    }
  }

  lemma OneChosen(r: Retirement, failed: bool, which: bool)
    ensures Chosen([r], [failed], which) == if failed == which then [r] else []
  {
    assert Chosen([r][1..], [failed][1..], which) == [];
  }

  /** The choice goes through the batch in order, entry by entry: it takes an entry exactly if its deletion
      went that way. */
  lemma ChosenIsExact(batch: seq<Retirement>, failed: seq<bool>, k: nat, which: bool)
    requires k < |failed| == |batch|
    ensures Chosen(batch, failed, which)
            == Chosen(batch[..k], failed[..k], which) + (if failed[k] == which then [batch[k]] else []) + Chosen(batch[k + 1..], failed[k + 1..], which)
  {
    OneChosen(batch[k], failed[k], which);
    ChosenConcat([batch[k]], [failed[k]], batch[k + 1..], failed[k + 1..], which);
    ChosenConcat(batch[..k], failed[..k], [batch[k]] + batch[k + 1..], [failed[k]] + failed[k + 1..], which);
    assert batch == batch[..k] + ([batch[k]] + batch[k + 1..]) && failed == failed[..k] + ([failed[k]] + failed[k + 1..]);
  }

  /** What a hand-over does: the key leaves at the end of one batch with everything that was pending. */
  lemma HandOverTells(setup: Setup, s: State, h: nat)
    requires h < |s.handed|
    ensures var next := Apply(setup, s, HandOver(h));
            && next.pending == [] && |next.inFlight| == |s.inFlight| + 1 && next.inFlight[..|s.inFlight|] == s.inFlight
            && |next.inFlight[|s.inFlight|]| == |s.pending| + 1
            && next.inFlight[|s.inFlight|][..|s.pending|] == s.pending && next.inFlight[|s.inFlight|][|s.pending|] == s.handed[h]
  {
  }

  /** How a batch ends: what was deleted is told so; what failed goes in front of what is pending, of
      which the last 64 are kept and the oldest dropped. */
  lemma RetireEndsTells(s: State, b: nat, failed: seq<bool>)
    requires b < |s.inFlight| && |failed| == |s.inFlight[b]| && |s.pending| <= 64
    ensures var next := ApplyRetireEnds(s, b, failed);
            var all := Chosen(s.inFlight[b], failed, true) + s.pending;
            && next.deleted == s.deleted + Chosen(s.inFlight[b], failed, false)
            && next.dropped[..|s.dropped|] == s.dropped && next.dropped[|s.dropped|..] + next.pending == all
            && |next.pending| == (if |all| <= 64 then |all| else 64)
  {
  }

  lemma RotationKeepsRetired(setup: Setup, s: State, e: Event)
    requires Inv(s) && Enabled(setup, s, e) && Rotates(setup, s, e)
    ensures var next := Apply(setup, s, e);
            RetiredOnce(next) && Identity(setup.slotOf(e.host), s.slots[setup.slotOf(e.host)].generation) !in s.retired
  {
    var gone := Identity(setup.slotOf(e.host), s.slots[setup.slotOf(e.host)].generation);
    assert gone !in s.retired;
    forall i | 0 <= i < |s.retired|
      ensures s.retired[i] != gone
    {
      assert s.retired[i] in s.retired;
    }
  }

  lemma RotationIsAccounted(setup: Setup, s: State, e: Event)
    requires Inv(s) && Enabled(setup, s, e) && Rotates(setup, s, e)
    ensures Accounted(Apply(setup, s, e))
  {
    var next := Apply(setup, s, e);
    var gone := Identity(setup.slotOf(e.host), s.slots[setup.slotOf(e.host)].generation);
    RotationKeepsRetired(setup, s, e);
    forall id: Identity
      ensures Places(next, id) == if id in next.retired then 1 else 0
    {
      CountAppend(s.handed, Retirement(e.node, gone), Of(id));
      assert id in next.retired <==> id in s.retired || id == gone;
    }
  }

  lemma RotationReaches(setup: Setup, s: State, e: Event, i: nat, g: nat)
    requires Inv(s) && Enabled(setup, s, e) && Rotates(setup, s, e)
    requires i < |s.slots| && s.first[i] <= g < Apply(setup, s, e).slots[i].generation
    ensures Identity(i, g) in Apply(setup, s, e).ever
  {
    assert g < s.slots[i].generation ==> Identity(i, g) in s.ever;
  }

  lemma RotationKeepsOrder(setup: Setup, s: State, e: Event)
    requires Inv(s) && Enabled(setup, s, e) && Rotates(setup, s, e)
    ensures Ordered(Apply(setup, s, e))
  {
    var next := Apply(setup, s, e);
    forall i, g: nat | 0 <= i < |next.slots| && s.first[i] <= g < next.slots[i].generation
      ensures Identity(i, g) in next.ever
    {
      RotationReaches(setup, s, e, i, g);
    }
  }

  lemma ObserveKeeps(setup: Setup, s: State, e: Event)
    requires Inv(s) && e.Observe? && Enabled(setup, s, e)
    ensures Inv(Apply(setup, s, e))
  {
    if Rotates(setup, s, e) {
      RotationKeepsRetired(setup, s, e);
      RotationIsAccounted(setup, s, e);
      RotationKeepsOrder(setup, s, e);
    } else {
      QuietKeeps(s, Apply(setup, s, e));
    }
  }

  /** A step that only touches the blocks of a slot. */
  lemma QuietKeeps(s: State, next: State)
    requires Inv(s) && next == s.(slots := next.slots) && |next.slots| == |s.slots|
    requires forall i | 0 <= i < |s.slots| :: next.slots[i].generation == s.slots[i].generation
    ensures Inv(next)
  {
    assert forall id: Identity :: Places(next, id) == Places(s, id);
  }

  lemma HandOverKeeps(setup: Setup, s: State, h: nat)
    requires Inv(s) && h < |s.handed|
    ensures Inv(Apply(setup, s, HandOver(h)))
  {
    var next := Apply(setup, s, HandOver(h));
    assert next.inFlight[..|s.inFlight|] == s.inFlight;
    forall id: Identity
      ensures Places(next, id) == Places(s, id)
    {
      CountRemove(s.handed, h, Of(id));
      CountAppend(s.pending, s.handed[h], Of(id));
    }
  }

  lemma RetireEndsKeepsPlaces(s: State, b: nat, failed: seq<bool>, id: Identity)
    requires b < |s.inFlight| && |failed| == |s.inFlight[b]|
    ensures Places(ApplyRetireEnds(s, b, failed), id) == Places(s, id)
  {
    var batch, left, gone := s.inFlight[b], Chosen(s.inFlight[b], failed, true), Chosen(s.inFlight[b], failed, false);
    FlyingWithout(s.inFlight, b, id);
    ChosenSplits(batch, failed, id);
    CountConcat(s.deleted, gone, Of(id));
    if left != [] {
      var all := left + s.pending;
      var kept, cut := all[Excess(all)..], all[..Excess(all)];
      assert all == cut + kept;
      CountConcat(left, s.pending, Of(id));
      CountConcat(cut, kept, Of(id));
      CountConcat(s.dropped, cut, Of(id));
    }
  }

  lemma RetireEndsKeeps(s: State, b: nat, failed: seq<bool>)
    requires Inv(s) && b < |s.inFlight| && |failed| == |s.inFlight[b]|
    ensures Inv(ApplyRetireEnds(s, b, failed))
  {
    var next := ApplyRetireEnds(s, b, failed);
    forall id: Identity
      ensures Places(next, id) == Places(s, id)
    {
      RetireEndsKeepsPlaces(s, b, failed, id);
    }
  }

  lemma StepKeeps(setup: Setup, s: State, e: Event)
    requires Inv(s) && Enabled(setup, s, e)
    ensures Inv(Apply(setup, s, e))
  {
    match e
    case Observe(_, _, _, _, _) => ObserveKeeps(setup, s, e);
    case HandOver(h) => HandOverKeeps(setup, s, h);
    case RetireEnds(b, failed) => RetireEndsKeeps(s, b, failed);
    case Restart =>
  }

  ghost predicate IsRun(setup: Setup, states: seq<State>, events: seq<Event>) {
    && |states| == |events| + 1 && states[0] == Init(states[0].stored)
    && forall n | 0 <= n < |events| :: Enabled(setup, states[n], events[n]) && states[n + 1] == Apply(setup, states[n], events[n])
  }

  lemma {:induction false} RunKeeps(setup: Setup, states: seq<State>, events: seq<Event>, n: nat)
    requires IsRun(setup, states, events) && n < |states|
    ensures Inv(states[n]) && |states[n].slots| == |states[0].slots|
  {
    if n > 0 {
      RunKeeps(setup, states, events, n - 1);
      StepKeeps(setup, states[n - 1], events[n - 1]);
    }
  }
}
