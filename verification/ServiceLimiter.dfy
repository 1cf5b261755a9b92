/** The capacity limiter of browser-service/src/shared/limiter.ts. Each event is one synchronous
    stretch; runs are numbered by arrival. */
module ServiceLimiter {
  import opened Counting

  /** `Refused`: the signal had already fired, or the queue was full. */
  datatype Run = Queued | Granted | Refused | Abandoned | Finished

  datatype State = State(concurrency: nat, maxWaiting: nat, active: int, queue: seq<nat>, runs: seq<Run>)

  function Init(concurrency: nat, maxWaiting: nat): State {
    State(concurrency, maxWaiting, 0, [], [])
  }

  datatype Event = Arrive(aborted: bool) | Abort(run: nat) | Finish(run: nat)

  predicate IsA(s: State, r: nat, run: Run) {
    r < |s.runs| && s.runs[r] == run
  }

  /** A queued run listens for its signal until it is granted; a granted run finishes once. */
  predicate Enabled(s: State, e: Event) {
    match e
    case Arrive(_) => true
    case Abort(r) => IsA(s, r, Queued)
    case Finish(r) => IsA(s, r, Granted)
  }

  function Without(queue: seq<nat>, r: nat): (rest: seq<nat>)
    ensures r !in queue ==> rest == queue
    ensures forall x :: x in rest ==> x in queue
  {
    if queue == [] then [] else if queue[0] == r then queue[1..] else [queue[0]] + Without(queue[1..], r)
  }

  function ApplyArrive(s: State, aborted: bool): State {
    var r := |s.runs|;
    if aborted then s.(runs := s.runs + [Refused])
    else if s.active < s.concurrency then s.(runs := s.runs + [Granted], active := s.active + 1)
    else if |s.queue| >= s.maxWaiting then s.(runs := s.runs + [Refused])
    else s.(runs := s.runs + [Queued], queue := s.queue + [r])
  }

  function Grant(s: State, r: nat): State
    requires r < |s.runs|
  {
    s.(runs := s.runs[r := Granted], active := s.active + 1)
  }

  /** The `finally` of `run`: the freed slot goes to the head of the queue. */
  function ApplyFinish(s: State, r: nat): State
    requires r < |s.runs| && forall x | x in s.queue :: x < |s.runs|
  {
    var freed := s.(runs := s.runs[r := Finished], active := s.active - 1);
    if s.queue == [] then freed
    else
      assert s.queue[0] in s.queue;
      Grant(freed.(queue := s.queue[1..]), s.queue[0])
  }

  function Apply(s: State, e: Event): State
    requires Enabled(s, e) && forall x | x in s.queue :: x < |s.runs|
  {
    match e
    case Arrive(aborted) => ApplyArrive(s, aborted)
    case Abort(r) => s.(runs := s.runs[r := Abandoned], queue := Without(s.queue, r))
    case Finish(r) => ApplyFinish(s, r)
  }

  ghost predicate Rising(queue: seq<nat>) {
    forall i, j | 0 <= i < j < |queue| :: queue[i] < queue[j]
  }

  /** The queue holds the waiting runs in order of arrival, and nobody waits beside a free slot. */
  ghost predicate Inv(s: State) {
    && s.active == Count(s.runs, (run: Run) => run == Granted)
    && s.active <= s.concurrency && |s.queue| <= s.maxWaiting
    && (s.queue != [] ==> s.active == s.concurrency)
    && Rising(s.queue)
    && (forall r :: r in s.queue <==> 0 <= r < |s.runs| && s.runs[r] == Queued)
  }

  lemma RisingFrom(first: nat, rest: seq<nat>)
    requires Rising(rest) && forall x | x in rest :: first < x
    ensures Rising([first] + rest)
  {
    var queue := [first] + rest;
    forall i, j | 0 <= i < j < |queue| ensures queue[i] < queue[j] {
      assert queue[j] == rest[j - 1] && rest[j - 1] in rest;
      assert i > 0 ==> queue[i] == rest[i - 1];
    }
  }

  lemma {:induction false} WithoutIsInOrder(queue: seq<nat>, r: nat)
    requires r in queue && Rising(queue)
    ensures var rest := Without(queue, r);
            |rest| == |queue| - 1 && Rising(rest) && forall x :: x in rest <==> x in queue && x != r
  {
    assert queue == [queue[0]] + queue[1..];
    assert forall x | x in queue[1..] :: queue[0] < x;
    if queue[0] != r {
      WithoutIsInOrder(queue[1..], r);
      RisingFrom(queue[0], Without(queue[1..], r));
    }
  }

  /** Leaving out `r` is cutting the queue at `r`'s index. */
  lemma {:induction false} WithoutCutsAt(queue: seq<nat>, index: nat)
    requires index < |queue| && queue[index] !in queue[..index]
    ensures Without(queue, queue[index]) == queue[..index] + queue[index + 1..]
  {
    if index > 0 {
      assert queue[0] in queue[..index];
      assert queue[1..][..index - 1] == queue[1..index];
      WithoutCutsAt(queue[1..], index - 1);
      assert queue[..index] == [queue[0]] + queue[1..index];
    }
  }

  lemma QueueingKeeps(s: State)
    requires Inv(s) && s.active >= s.concurrency && |s.queue| < s.maxWaiting
    ensures Inv(s.(runs := s.runs + [Queued], queue := s.queue + [|s.runs|]))
  {
    CountAppend(s.runs, Queued, (run: Run) => run == Granted);
    assert forall i | 0 <= i < |s.queue| :: s.queue[i] in s.queue;
  }

  lemma ArriveKeeps(s: State, aborted: bool)
    requires Inv(s)
    ensures Inv(ApplyArrive(s, aborted))
  {
    CountAppend(s.runs, Refused, (run: Run) => run == Granted);
    CountAppend(s.runs, Granted, (run: Run) => run == Granted);
    if !aborted && s.active >= s.concurrency && |s.queue| < s.maxWaiting {
      QueueingKeeps(s);
    }
  }

  lemma HeadLeaves(queue: seq<nat>)
    requires queue != [] && Rising(queue)
    ensures Rising(queue[1..]) && forall x :: x in queue[1..] <==> x in queue && x != queue[0]
  {
    assert queue == [queue[0]] + queue[1..];
  }

  lemma FinishKeeps(s: State, r: nat)
    requires Inv(s) && Enabled(s, Finish(r))
    ensures Inv(ApplyFinish(s, r))
  {
    var granted := (run: Run) => run == Granted;
    CountUpdate(s.runs, r, Finished, granted);
    if s.queue != [] {
      assert s.queue[0] in s.queue;
      CountUpdate(s.runs[r := Finished], s.queue[0], Granted, granted);
      HeadLeaves(s.queue);
    }
  }

  lemma StepKeeps(s: State, e: Event)
    requires Inv(s) && Enabled(s, e)
    ensures Inv(Apply(s, e))
  {
    match e
    case Arrive(aborted) => ArriveKeeps(s, aborted);
    case Abort(r) =>
      CountUpdate(s.runs, r, Abandoned, (run: Run) => run == Granted);
      WithoutIsInOrder(s.queue, r);
    case Finish(r) => FinishKeeps(s, r);
  }

  ghost predicate IsRun(states: seq<State>, events: seq<Event>) {
    && |states| == |events| + 1 && states[0] == Init(states[0].concurrency, states[0].maxWaiting)
    && forall n | 0 <= n < |events| ::
         && (forall x | x in states[n].queue :: x < |states[n].runs|)
         && Enabled(states[n], events[n]) && states[n + 1] == Apply(states[n], events[n])
  }

  lemma {:induction false} RunKeeps(states: seq<State>, events: seq<Event>, n: nat)
    requires IsRun(states, events) && n < |states|
    ensures Inv(states[n])
  {
    if n > 0 {
      RunKeeps(states, events, n - 1);
      StepKeeps(states[n - 1], events[n - 1]);
    }
  }

  /** Slots are granted first come, first served: whoever gets one leaves no earlier run waiting. */
  lemma GrantsInOrder(states: seq<State>, events: seq<Event>, n: nat, r: nat, earlier: nat)
    requires IsRun(states, events) && n < |events| && earlier < r
    requires !IsA(states[n], r, Granted) && IsA(states[n + 1], r, Granted)
    ensures !IsA(states[n], earlier, Queued)
  {
    RunKeeps(states, events, n);
    assert forall x | x in states[n].queue :: states[n].queue[0] <= x;
  }

  /** A queued run is answered once: by the grant or by its own abort, never by both. */
  lemma QueuedRunsAreAnsweredOnce(states: seq<State>, events: seq<Event>, n: nat, r: nat)
    requires IsRun(states, events) && n < |events| && r < |states[n].runs|
    ensures |states[n + 1].runs| >= |states[n].runs|
    ensures var before, after, e := states[n].runs[r], states[n + 1].runs[r], events[n];
            after != before ==>
              || (before == Queued && after == Granted && e.Finish? && states[n].queue[..1] == [r])
              || (before == Queued && after == Abandoned && e == Abort(r))
              || (before == Granted && after == Finished && e == Finish(r))
  {
    RunKeeps(states, events, n);
    assert states[n].queue != [] ==> states[n].queue[0] in states[n].queue && states[n].queue[..1] == [states[n].queue[0]];
  }

  /** In every run: the slots taken are the granted runs, at most `concurrency`; at most `maxWaiting`
      runs wait; and a run waits only while every slot is taken. */
  lemma LimitsHold(states: seq<State>, events: seq<Event>, n: nat)
    requires IsRun(states, events) && n < |states|
    ensures var s := states[n];
            && s.active == Count(s.runs, (run: Run) => run == Granted) <= s.concurrency == states[0].concurrency
            && |s.queue| <= s.maxWaiting == states[0].maxWaiting
            && (forall r | IsA(s, r, Queued) :: s.active == s.concurrency)
  {
    RunKeeps(states, events, n);
    LimitsAreFixed(states, events, n);
  }

  lemma {:induction false} LimitsAreFixed(states: seq<State>, events: seq<Event>, n: nat)
    requires IsRun(states, events) && n < |states|
    ensures states[n].concurrency == states[0].concurrency && states[n].maxWaiting == states[0].maxWaiting
  {
    if n > 0 {
      LimitsAreFixed(states, events, n - 1);
    }
  }

  function Members(queue: seq<nat>): set<nat> {
    set r | r in queue
  }

  lemma OneMoreMember(before: seq<nat>, last: nat)
    ensures Members(before + [last]) == Members(before) + {last}
  {
  }

  lemma {:induction false} RisingSize(queue: seq<nat>)
    requires Rising(queue)
    ensures |Members(queue)| == |queue|
  {
    if queue == [] {
      assert Members(queue) == {};
    } else {
      var before, last := queue[..|queue| - 1], queue[|queue| - 1];
      RisingSize(before);
      assert queue == before + [last];
      OneMoreMember(before, last);
      assert last !in before;
    }
  }

  /** The queue's length is the number of runs that wait. */
  lemma QueueSize(s: State)
    requires Inv(s)
    ensures |s.queue| == Count(s.runs, (run: Run) => run == Queued)
  {
    RisingSize(s.queue);
    forall r: nat
      ensures r in Members(s.queue) <==> r < |s.runs| && s.runs[r] == Queued
    {
    }
    CountIsSize(s.runs, (run: Run) => run == Queued, Members(s.queue));
  }

  /** How an arrival is answered, in every run: it is granted a slot if one is free, and refused exactly
      if it was aborted, or every slot is taken and as many runs wait as may. */
  lemma ArrivalIsAnswered(states: seq<State>, events: seq<Event>, n: nat)
    requires IsRun(states, events) && n < |events| && events[n].Arrive?
    ensures var runs, aborted := states[n].runs, events[n].aborted;
            var granted, queued := Count(runs, (run: Run) => run == Granted), Count(runs, (run: Run) => run == Queued);
            && |states[n + 1].runs| == |runs| + 1
            && var answer := states[n + 1].runs[|runs|];
               && (answer == Refused <==> aborted || (granted == states[0].concurrency && queued == states[0].maxWaiting))
               && (answer == Granted <==> !aborted && granted < states[0].concurrency)
               && (answer in {Refused, Granted, Queued})
  {
    RunKeeps(states, events, n);
    LimitsAreFixed(states, events, n);
    QueueSize(states[n]);
  }

  /** The limiter's fields, updated in place. */
  class Limiter {
    const concurrency: nat
    const maxWaiting: nat
    var active: int
    var queue: seq<nat>
    ghost var runs: seq<Run>

    ghost function Value(): State
      reads this
    {
      State(concurrency, maxWaiting, active, queue, runs)
    }

    constructor (concurrency: nat, maxWaiting: nat)
      ensures Value() == Init(concurrency, maxWaiting) && Inv(Value())
    {
      this.concurrency, this.maxWaiting := concurrency, maxWaiting;
      active, queue, runs := 0, [], [];
    }

    /** `#acquire`; `run` is the arrival's number. */
    method Acquire(aborted: bool, run: nat) returns (answer: Run)
      requires Inv(Value()) && run == |runs|
      modifies this
      ensures Value() == Apply(old(Value()), Arrive(aborted)) && Inv(Value())
      ensures runs == old(runs) + [answer]
    {
      ArriveKeeps(Value(), aborted);
      if aborted {
        answer := Refused;
      } else if active < concurrency {
        active := active + 1;
        answer := Granted;
      } else if |queue| >= maxWaiting {
        answer := Refused;
      } else {
        queue := queue + [run];
        answer := Queued;
      }
      runs := runs + [answer];
    }

    /** The `abandon` listener. */
    method Abandon(run: nat)
      requires Inv(Value()) && Enabled(Value(), Abort(run))
      modifies this
      ensures Value() == Apply(old(Value()), Abort(run)) && Inv(Value())
    {
      StepKeeps(Value(), Abort(run));
      var index := 0;
      while index < |queue| && queue[index] != run
        invariant 0 <= index <= |queue| && run !in queue[..index]
      {
        index := index + 1;
      }
      WithoutCutsAt(queue, index);
      queue := queue[..index] + queue[index + 1..];
      runs := runs[run := Abandoned];
    }

    /** The `finally` of `run`. */
    method Release(run: nat)
      requires Inv(Value()) && Enabled(Value(), Finish(run))
      modifies this
      ensures Value() == Apply(old(Value()), Finish(run)) && Inv(Value())
    {
      FinishKeeps(Value(), run);
      active := active - 1;
      runs := runs[run := Finished];
      if queue != [] {
        assert queue[0] in queue;
        var grant := queue[0];
        queue := queue[1..];
        active := active + 1;
        runs := runs[grant := Granted];
      }
    }
  }
}
