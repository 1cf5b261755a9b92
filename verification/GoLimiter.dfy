/** The limiter of pkg/fetch/limit.go, at the grain of its atomic operations. Any number of callers
    interleave between any two of them. */
module GoLimiter {
  import opened Counting

  /** Where a caller stands in `Run`. `queued` tells a caller that went through the waiting counter.
      `Counted(w)`: the counter has just answered `w`. `Freeing`/`Lowering`: the two halves of `release`. */
  datatype Pc =
    | Start
    | Full
    | Counted(w: int)
    | Blocked
    | Took(queued: bool)
    | Working(queued: bool)
    | Freeing(queued: bool)
    | Lowering(queued: bool)
    | Leaving
    | Saturated
    | Done

  datatype State = State(capacity: nat, maxWaiting: int, slots: int, active: int, waiting: int, callers: seq<Pc>)

  function Init(capacity: nat, maxWaiting: int): State {
    State(capacity, maxWaiting, 0, 0, 0, [])
  }

  datatype Event =
    | Call
    | TryFast(c: nat)
    | CountIn(c: nat)
    | Judge(c: nat)
    | GetSlot(c: nat)
    | GiveUp(c: nat)
    | RaiseActive(c: nat)
    | EndWork(c: nat)
    | FreeSlot(c: nat)
    | LowerActive(c: nat)
    | CountOut(c: nat)

  predicate At(s: State, c: nat, pc: Pc) {
    c < |s.callers| && s.callers[c] == pc
  }

  predicate Enabled(s: State, e: Event) {
    match e
    case Call => true
    case TryFast(c) => At(s, c, Start)
    case CountIn(c) => At(s, c, Full)
    case Judge(c) => c < |s.callers| && s.callers[c].Counted?
    case GetSlot(c) => At(s, c, Blocked) && s.slots < s.capacity
    case GiveUp(c) => At(s, c, Blocked)
    case RaiseActive(c) => c < |s.callers| && s.callers[c].Took?
    case EndWork(c) => c < |s.callers| && s.callers[c].Working?
    case FreeSlot(c) => c < |s.callers| && s.callers[c].Freeing?
    case LowerActive(c) => c < |s.callers| && s.callers[c].Lowering?
    case CountOut(c) => At(s, c, Leaving) || At(s, c, Saturated)
  }

  function Go(s: State, c: nat, pc: Pc): State
    requires c < |s.callers|
  {
    s.(callers := s.callers[c := pc])
  }

  function Apply(s: State, e: Event): State
    requires Enabled(s, e)
  {
    match e
    case Call => s.(callers := s.callers + [Start])
    case TryFast(c) => if s.slots < s.capacity then Go(s, c, Took(false)).(slots := s.slots + 1) else Go(s, c, Full)
    case CountIn(c) => Go(s, c, Counted(s.waiting + 1)).(waiting := s.waiting + 1)
    case Judge(c) => Go(s, c, if s.callers[c].w > s.maxWaiting then Saturated else Blocked)
    case GetSlot(c) => Go(s, c, Took(true)).(slots := s.slots + 1)
    case GiveUp(c) => Go(s, c, Leaving)
    case RaiseActive(c) => Go(s, c, Working(s.callers[c].queued)).(active := s.active + 1)
    case EndWork(c) => Go(s, c, Freeing(s.callers[c].queued))
    case FreeSlot(c) => Go(s, c, Lowering(s.callers[c].queued)).(slots := s.slots - 1)
    case LowerActive(c) => Go(s, c, if s.callers[c].queued then Leaving else Done).(active := s.active - 1)
    case CountOut(c) => Go(s, c, Done).(waiting := s.waiting - 1)
  }

  predicate HoldsSlot(pc: Pc) {
    pc.Took? || pc.Working? || pc.Freeing?
  }

  predicate IsActive(pc: Pc) {
    pc.Working? || pc.Freeing? || pc.Lowering?
  }

  predicate WentThroughQueue(pc: Pc) {
    (pc.Took? || pc.Working? || pc.Freeing? || pc.Lowering?) && pc.queued
  }

  predicate IsCounted(pc: Pc) {
    pc.Counted? || pc == Blocked || pc == Leaving || pc == Saturated || WentThroughQueue(pc)
  }

  /** A caller the waiting counter let in: blocked, or running after having been blocked, or on its way out. */
  predicate Admitted(pc: Pc, maxWaiting: int) {
    (pc.Counted? && pc.w <= maxWaiting) || pc == Blocked || pc == Leaving || WentThroughQueue(pc)
  }

  function Many(s: State, p: Pc -> bool): nat {
    Count(s.callers, p)
  }

  function AdmittedTo(maxWaiting: int): Pc -> bool {
    (pc: Pc) => Admitted(pc, maxWaiting)
  }

  ghost predicate Inv(s: State) {
    && s.slots == Many(s, HoldsSlot) && s.slots <= s.capacity
    && s.active == Many(s, IsActive)
    && s.waiting == Many(s, IsCounted)
    && (Many(s, AdmittedTo(s.maxWaiting)) > 0 ==> Many(s, AdmittedTo(s.maxWaiting)) <= s.maxWaiting)
  }

  lemma GoCounts(s: State, c: nat, pc: Pc)
    requires c < |s.callers|
    ensures var next := Go(s, c, pc);
            && Many(next, HoldsSlot) == Many(s, HoldsSlot) - (if HoldsSlot(s.callers[c]) then 1 else 0) + (if HoldsSlot(pc) then 1 else 0)
            && Many(next, IsActive) == Many(s, IsActive) - (if IsActive(s.callers[c]) then 1 else 0) + (if IsActive(pc) then 1 else 0)
            && Many(next, IsCounted) == Many(s, IsCounted) - (if IsCounted(s.callers[c]) then 1 else 0) + (if IsCounted(pc) then 1 else 0)
            && Many(next, AdmittedTo(s.maxWaiting))
               == Many(s, AdmittedTo(s.maxWaiting)) - (if Admitted(s.callers[c], s.maxWaiting) then 1 else 0) + (if Admitted(pc, s.maxWaiting) then 1 else 0)
  {
    CountUpdate(s.callers, c, pc, HoldsSlot);
    CountUpdate(s.callers, c, pc, IsActive);
    CountUpdate(s.callers, c, pc, IsCounted);
    CountUpdate(s.callers, c, pc, AdmittedTo(s.maxWaiting));
  }

  /** The counter's answer bounds the callers it has let in, whatever happens before the answer is judged. */
  lemma CountInKeeps(s: State, c: nat)
    requires Inv(s) && Enabled(s, CountIn(c))
    ensures Inv(Apply(s, CountIn(c)))
  {
    var next := Apply(s, CountIn(c));
    GoCounts(s, c, Counted(s.waiting + 1));
    MoreCount(next.callers, AdmittedTo(s.maxWaiting), IsCounted);
  }

  lemma CallKeeps(s: State)
    requires Inv(s)
    ensures Inv(Apply(s, Call))
  {
    CountAppend(s.callers, Start, HoldsSlot);
    CountAppend(s.callers, Start, IsActive);
    CountAppend(s.callers, Start, IsCounted);
    CountAppend(s.callers, Start, AdmittedTo(s.maxWaiting));
  }

  lemma MoveKeeps(s: State, e: Event)
    requires Inv(s) && Enabled(s, e) && !e.Call? && !e.CountIn?
    ensures Inv(Apply(s, e))
  {
    GoCounts(s, e.c, Apply(s, e).callers[e.c]);
  }

  lemma StepKeeps(s: State, e: Event)
    requires Inv(s) && Enabled(s, e)
    ensures Inv(Apply(s, e))
  {
    match e
    case Call => CallKeeps(s);
    case CountIn(c) => CountInKeeps(s, c);
    case _ => MoveKeeps(s, e);
  }

  ghost predicate IsRun(states: seq<State>, events: seq<Event>) {
    && |states| == |events| + 1 && states[0] == Init(states[0].capacity, states[0].maxWaiting)
    && forall n | 0 <= n < |events| :: Enabled(states[n], events[n]) && states[n + 1] == Apply(states[n], events[n])
  }

  lemma {:induction false} RunKeeps(states: seq<State>, events: seq<Event>, n: nat)
    requires IsRun(states, events) && n < |states|
    ensures Inv(states[n]) && states[n].capacity == states[0].capacity && states[n].maxWaiting == states[0].maxWaiting
  {
    if n > 0 {
      RunKeeps(states, events, n - 1);
      StepKeeps(states[n - 1], events[n - 1]);
    }
  }

  predicate AtWork(pc: Pc) {
    pc.Working?
  }

  /** How a caller is let in, in every interleaving: at once exactly while a slot is free; through the queue
      exactly if the counter, raised for it, stood within the limit. The counter counts those that were
      counted in and not yet out. */
  lemma CallersAreLetIn(states: seq<State>, events: seq<Event>, n: nat, c: nat)
    requires IsRun(states, events) && n < |events|
    ensures events[n] == TryFast(c) ==>
              (if Many(states[n], HoldsSlot) < states[0].capacity then At(states[n + 1], c, Took(false)) else At(states[n + 1], c, Full))
    ensures events[n] == CountIn(c) ==> At(states[n + 1], c, Counted(Many(states[n], IsCounted) + 1))
    ensures events[n] == Judge(c) ==>
              c < |states[n].callers| && states[n].callers[c].Counted?
              && (if states[n].callers[c].w <= states[0].maxWaiting then At(states[n + 1], c, Blocked) else At(states[n + 1], c, Saturated))
  {
    RunKeeps(states, events, n);
  }

  /** In every interleaving at most `capacity` callers work at once, and at most `maxWaiting` of the
      callers let in through the queue are there at once. */
  lemma LimitsHold(states: seq<State>, events: seq<Event>, n: nat)
    requires IsRun(states, events) && n < |states|
    ensures var s := states[n];
            && Many(s, AtWork) <= s.slots <= s.capacity == states[0].capacity && s.maxWaiting == states[0].maxWaiting
            && (s.maxWaiting >= 0 ==> Many(s, AdmittedTo(s.maxWaiting)) <= s.maxWaiting)
            && (s.maxWaiting < 0 ==> Many(s, AdmittedTo(s.maxWaiting)) == 0)
  {
    RunKeeps(states, events, n);
    MoreCount(states[n].callers, AtWork, HoldsSlot);
  }

  predicate IsOver(pc: Pc) {
    pc == Done || pc == Start
  }

  /** Whatever was taken is given back: once no caller is inside, the slots and both gauges are empty. */
  lemma QuietMeansEmpty(states: seq<State>, events: seq<Event>, n: nat)
    requires IsRun(states, events) && n < |states| && forall pc | pc in states[n].callers :: IsOver(pc)
    ensures states[n].slots == 0 && states[n].active == 0 && states[n].waiting == 0
  {
    RunKeeps(states, events, n);
    CountIsZero(states[n].callers, HoldsSlot);
    CountIsZero(states[n].callers, IsActive);
    CountIsZero(states[n].callers, IsCounted);
  }

  /** The limiter's channel and gauges, one atomic operation of `Run` or `release` a method. `slots` is
      the number of tokens in the channel. */
  class Limiter {
    const capacity: nat
    const maxWaiting: int
    var slots: int
    var active: int
    var waiting: int
    ghost var callers: seq<Pc>

    ghost function Value(): State
      reads this
    {
      State(capacity, maxWaiting, slots, active, waiting, callers)
    }

    constructor (capacity: nat, maxWaiting: int)
      ensures Value() == Init(capacity, maxWaiting) && Inv(Value())
    {
      this.capacity, this.maxWaiting := capacity, maxWaiting;
      slots, active, waiting, callers := 0, 0, 0, [];
    }

    /** The first `select`: a slot at once, or on to the queue. */
    method TryFast(c: nat) returns (taken: bool)
      requires Inv(Value()) && Enabled(Value(), Event.TryFast(c))
      modifies this
      ensures Value() == Apply(old(Value()), Event.TryFast(c)) && Inv(Value())
      ensures taken <==> callers[c] == Took(false)
    {
      StepKeeps(Value(), Event.TryFast(c));
      taken := slots < capacity;
      if taken {
        slots := slots + 1;
      }
      callers := callers[c := if taken then Took(false) else Full];
    }

    method CountIn(c: nat) returns (counted: int)
      requires Inv(Value()) && Enabled(Value(), Event.CountIn(c))
      modifies this
      ensures Value() == Apply(old(Value()), Event.CountIn(c)) && Inv(Value())
      ensures callers[c] == Counted(counted)
    {
      StepKeeps(Value(), Event.CountIn(c));
      waiting := waiting + 1;
      counted := waiting;
      callers := callers[c := Counted(counted)];
    }

    /** The comparison with the limit; the refusal still has to count itself out. */
    method Judge(c: nat, counted: int) returns (saturated: bool)
      requires Inv(Value()) && c < |callers| && callers[c] == Counted(counted)
      modifies this`callers
      ensures Value() == Apply(old(Value()), Event.Judge(c)) && Inv(Value())
      ensures saturated <==> callers[c] == Saturated
    {
      StepKeeps(Value(), Event.Judge(c));
      saturated := counted > maxWaiting;
      callers := callers[c := if saturated then Saturated else Blocked];
    }

    /** The second `select`: a slot, or the context's end. */
    method Wait(c: nat, cancelled: bool)
      requires Inv(Value()) && Enabled(Value(), if cancelled then GiveUp(c) else GetSlot(c))
      modifies this
      ensures Value() == Apply(old(Value()), if cancelled then GiveUp(c) else GetSlot(c)) && Inv(Value())
    {
      StepKeeps(Value(), if cancelled then GiveUp(c) else GetSlot(c));
      if !cancelled {
        slots := slots + 1;
      }
      callers := callers[c := if cancelled then Leaving else Took(true)];
    }

    method RaiseActive(c: nat)
      requires Inv(Value()) && Enabled(Value(), Event.RaiseActive(c))
      modifies this
      ensures Value() == Apply(old(Value()), Event.RaiseActive(c)) && Inv(Value())
    {
      StepKeeps(Value(), Event.RaiseActive(c));
      active := active + 1;
      callers := callers[c := Working(callers[c].queued)];
    }

    /** The two halves of `release`. */
    method FreeSlot(c: nat)
      requires Inv(Value()) && Enabled(Value(), Event.FreeSlot(c))
      modifies this
      ensures Value() == Apply(old(Value()), Event.FreeSlot(c)) && Inv(Value())
    {
      StepKeeps(Value(), Event.FreeSlot(c));
      slots := slots - 1;
      callers := callers[c := Lowering(callers[c].queued)];
    }

    method LowerActive(c: nat)
      requires Inv(Value()) && Enabled(Value(), Event.LowerActive(c))
      modifies this
      ensures Value() == Apply(old(Value()), Event.LowerActive(c)) && Inv(Value())
    {
      StepKeeps(Value(), Event.LowerActive(c));
      active := active - 1;
      callers := callers[c := if callers[c].queued then Leaving else Done];
    }

    /** The deferred decrement of `waiting`, and the one of a refused caller. */
    method CountOut(c: nat)
      requires Inv(Value()) && Enabled(Value(), Event.CountOut(c))
      modifies this
      ensures Value() == Apply(old(Value()), Event.CountOut(c)) && Inv(Value())
    {
      StepKeeps(Value(), Event.CountOut(c));
      waiting := waiting - 1;
      callers := callers[c := Done];
    }
  }
}
