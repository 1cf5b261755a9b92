/** The workers of pkg/batch/batch.go over the queue and the page writer. */
module BatchRun {
  import opened Wrappers
  import opened Counting
  import opened BatchTypes
  import Q = BatchQueue
  import W = OutputWriter

  datatype Outcome = PageOk | PageDead | NeedsBrowser | PageFailed

  /** How one load of a page went: the host's gate, the job's context after the load, and the result. */
  datatype Load = Load(hostFree: bool, stopped: bool, failed: bool, noCapacity: bool, outcome: Outcome)

  /** How the bookkeeping after it went: the writer's answer, recording the output, the hand-off's commit. */
  datatype Books = Books(written: Option<Ref>, recorded: bool, committed: bool)

  datatype Stats = Stats(done: nat, dead: nat, failed: nat, needsBrowser: nat, deferred: nat)

  const NO_STATS: Stats := Stats(0, 0, 0, 0, 0)

  function AfterStore(job: JobKey, books: Books): Q.Event {
    match books.written
    case None => Q.Snooze(job, false)
    case Some(ref) => if books.recorded then Q.Store(job, ref) else Q.Fail(job, false)
  }

  /** What becomes of a job of either kind. Only the HTTP stage hands off; only the browser stage is
      put back for want of capacity. */
  function WorkEvent(job: JobKey, load: Load, books: Books): Q.Event {
    if !load.hostFree then Q.Snooze(job, true)
    else if load.stopped then Q.Snooze(job, false)
    else if job.kind == Browser && load.failed && load.noCapacity then Q.Snooze(job, true)
    else if load.failed then Q.Fail(job, false)
    else
      match load.outcome
      case PageOk => AfterStore(job, books)
      case PageDead => if books.recorded then Q.Die(job) else Q.Fail(job, false)
      case NeedsBrowser => if job.kind == Http && books.recorded && books.committed then Q.HandOff(job.url) else Q.Fail(job, false)
      case PageFailed => Q.Fail(job, false)
  }

  /** Which counter a worker's turn adds to. */
  function Counted(stats: Stats, job: JobKey, load: Load, books: Books): Stats {
    if !load.hostFree || load.stopped || (job.kind == Browser && load.failed && load.noCapacity) then
      stats.(deferred := stats.deferred + 1)
    else if load.failed then stats.(failed := stats.failed + 1)
    else
      match load.outcome
      case PageOk =>
        if books.written == None then stats.(deferred := stats.deferred + 1)
        else if books.recorded then stats.(done := stats.done + 1)
        else stats
      case PageDead => stats.(dead := stats.dead + 1)
      case NeedsBrowser =>
        if job.kind == Browser then stats.(failed := stats.failed + 1)
        else if books.recorded && books.committed then stats.(needsBrowser := stats.needsBrowser + 1)
        else stats
      case PageFailed => stats.(failed := stats.failed + 1)
  }

  /** A job leaves a worker completed only with a written page, or by being handed off. */
  lemma CompletionNeedsAPage(q: Q.Queue, job: JobKey, load: Load, books: Books)
    requires Q.In(q, job, Q.Running)
    ensures var e := WorkEvent(job, load, books);
            && Q.Enabled(q, e)
            && (Q.In(Q.Apply(q, e), job, Q.Completed) <==>
                  && load.hostFree && !load.stopped && !load.failed && books.recorded
                  && ((load.outcome == PageOk && books.written.Some?) || (load.outcome == NeedsBrowser && job.kind == Http && books.committed)))
            && (e.HandOff? ==> JobKey(Browser, job.url) in Q.Apply(q, e).jobs)
  {
    assert job == JobKey(job.kind, job.url);
  }

  /** The page was loaded, with a result. */
  predicate HasResult(load: Load) {
    load.hostFree && !load.stopped && !load.failed
  }

  /** How a worker leaves a job that it does not complete: a recorded dead page, and no other, ends
      cancelled; a job is put back for a busy host, a stop, a page that was not written, or a browser
      without capacity; and it fails in all other cases. */
  lemma UnfinishedJobs(q: Q.Queue, job: JobKey, load: Load, books: Books)
    requires Q.In(q, job, Q.Running)
    ensures var e := WorkEvent(job, load, books);
            && Q.Enabled(q, e)
            && var after := Q.Apply(q, e);
               var putBack := || !load.hostFree || load.stopped || (job.kind == Browser && load.failed && load.noCapacity)
                              || (HasResult(load) && load.outcome == PageOk && books.written == None);
               && (Q.In(after, job, Q.Cancelled) <==> HasResult(load) && load.outcome == PageDead && books.recorded)
               && (Q.In(after, job, Q.Available) || Q.In(after, job, Q.Scheduled) <==> putBack)
               && (Q.In(after, job, Q.Discarded) <==>
                     !putBack && !Q.In(after, job, Q.Cancelled) && !Q.In(after, job, Q.Completed))
  {
    assert job == JobKey(job.kind, job.url);
  }

  /** `httpWorker.Work` and `browserWorker.Work`, with the runner's counters. */
  class Runner {
    var queue: Q.Queue
    var stats: Stats

    constructor ()
      ensures queue == Q.EMPTY && stats == NO_STATS
    {
      queue, stats := Q.EMPTY, NO_STATS;
    }

    method Snooze(job: JobKey, delayed: bool)
      requires Q.In(queue, job, Q.Running)
      modifies this
      ensures queue == Q.Apply(old(queue), Q.Snooze(job, delayed))
      ensures stats == old(stats).(deferred := old(stats).deferred + 1)
    {
      stats := stats.(deferred := stats.deferred + 1);
      queue := queue.(jobs := queue.jobs[job := if delayed then Q.Scheduled else Q.Available]);
    }

    method Discard(job: JobKey)
      requires Q.In(queue, job, Q.Running)
      modifies this`queue
      ensures queue == Q.Apply(old(queue), Q.Fail(job, false))
    {
      queue := queue.(jobs := queue.jobs[job := Q.Discarded]);
    }

    method Store(job: JobKey, books: Books)
      requires Q.In(queue, job, Q.Running)
      modifies this
      ensures queue == Q.Apply(old(queue), AfterStore(job, books))
      ensures stats == if books.written == None then old(stats).(deferred := old(stats).deferred + 1)
                       else if books.recorded then old(stats).(done := old(stats).done + 1) else old(stats)
    {
      if books.written == None {
        Snooze(job, false);
      } else if !books.recorded {
        Discard(job);
      } else {
        stats := stats.(done := stats.done + 1);
        queue := queue.(jobs := queue.jobs[job := Q.Completed], results := queue.results[job := books.written.value]);
      }
    }

    method HandOff(job: JobKey, books: Books)
      requires Q.In(queue, job, Q.Running) && job.kind == Http
      modifies this
      ensures queue == Q.Apply(old(queue), if books.recorded && books.committed then Q.HandOff(job.url) else Q.Fail(job, false))
      ensures stats == if books.recorded && books.committed then old(stats).(needsBrowser := old(stats).needsBrowser + 1) else old(stats)
    {
      assert job == JobKey(Http, job.url);
      if !books.recorded || !books.committed {
        Discard(job);
        return;
      }
      var browser := JobKey(Browser, job.url);
      var jobs := queue.jobs;
      if browser !in jobs {
        jobs := jobs[browser := Q.Available];
      }
      queue := queue.(jobs := jobs[job := Q.Completed]);
      stats := stats.(needsBrowser := stats.needsBrowser + 1);
    }

    method Work(job: JobKey, load: Load, books: Books)
      requires Q.In(queue, job, Q.Running)
      modifies this
      ensures queue == Q.Apply(old(queue), WorkEvent(job, load, books))
      ensures stats == Counted(old(stats), job, load, books)
    {
      assert job == JobKey(job.kind, job.url);
      if !load.hostFree {
        Snooze(job, true);
        return;
      }
      if load.stopped {
        Snooze(job, false);
        return;
      }
      if job.kind == Browser && load.failed && load.noCapacity {
        Snooze(job, true);
        return;
      }
      if load.failed {
        stats := stats.(failed := stats.failed + 1);
        Discard(job);
        return;
      }
      match load.outcome
      case PageOk =>
        Store(job, books);
      case PageDead =>
        stats := stats.(dead := stats.dead + 1);
        if books.recorded {
          queue := queue.(jobs := queue.jobs[job := Q.Cancelled]);
        } else {
          Discard(job);
        }
      case NeedsBrowser =>
        if job.kind == Http {
          HandOff(job, books);
        } else {
          stats := stats.(failed := stats.failed + 1);
          Discard(job);
        }
      case PageFailed =>
        stats := stats.(failed := stats.failed + 1);
        Discard(job);
    }
  }

  /** The queue together with one process's writer. */
  datatype System = System(queue: Q.Queue, writer: W.State)

  /** A worker stores only with the reference the writer sent to its own record. */
  datatype Event = QueueStep(e: Q.Event) | WriterStep(w: W.Event) | StoreStep(job: JobKey, request: nat)

  function RefFor(s: System, request: nat): Option<Ref> {
    if request < |s.writer.replies| && |s.writer.replies[request]| == 1 && s.writer.replies[request][0].Written?
    then Some(s.writer.replies[request][0].ref) else None
  }

  predicate Enabled(s: System, e: Event) {
    match e
    case QueueStep(q) => Q.Enabled(s.queue, q) && Q.OneRetryAtATime(s.queue, q) && !q.Store?
    case WriterStep(w) => W.Enabled(s.writer, w)
    case StoreStep(job, request) =>
      && Q.In(s.queue, job, Q.Running) && RefFor(s, request).Some?
      && request < |s.writer.requests| && s.writer.requests[request].id == job
  }

  function Apply(s: System, e: Event): System
    requires Enabled(s, e)
  {
    match e
    case QueueStep(q) => s.(queue := Q.Apply(s.queue, q))
    case WriterStep(w) => s.(writer := W.Apply(s.writer, w))
    case StoreStep(job, request) => s.(queue := Q.Apply(s.queue, Q.Store(job, RefFor(s, request).value)))
  }

  /** The reference leads to a line of a renamed file that holds the job's own record. */
  predicate Durable(w: W.State, ref: Ref, job: JobKey) {
    && ref.file in w.disk && 1 <= ref.line <= |w.disk[ref.file]|
    && w.disk[ref.file][ref.line - 1] < |w.requests| && w.requests[w.disk[ref.file][ref.line - 1]].id == job
  }

  ghost predicate Inv(s: System) {
    && Q.Inv(s.queue) && W.Inv(s.writer)
    && forall job | job in s.queue.results :: Durable(s.writer, s.queue.results[job], job)
  }

  lemma StepKeeps(s: System, e: Event)
    requires Inv(s) && Enabled(s, e)
    ensures Inv(Apply(s, e))
  {
    match e
    case QueueStep(q) =>
      Q.StepKeeps(s.queue, q);
      assert Q.Apply(s.queue, q).results == s.queue.results;
    case WriterStep(w) =>
      W.StepKeeps(s.writer, w);
      W.StepExtends(s.writer, w);
      forall job | job in s.queue.results
        ensures Durable(W.Apply(s.writer, w), s.queue.results[job], job)
      {
        assert Durable(s.writer, s.queue.results[job], job);
      }
    case StoreStep(job, request) =>
      var ref := RefFor(s, request).value;
      Q.StepKeeps(s.queue, Q.Store(job, ref));
      assert W.RequestOk(s.writer, request) && s.writer.replies[request] == [W.Written(ref)];
      assert W.Stored(s.writer, ref, request);
  }

  ghost predicate IsRun(states: seq<System>, events: seq<Event>) {
    && |states| == |events| + 1 && states[0] == System(Q.EMPTY, W.STARTED)
    && forall n | 0 <= n < |events| :: Enabled(states[n], events[n]) && states[n + 1] == Apply(states[n], events[n])
  }

  lemma {:induction false} RunKeeps(states: seq<System>, events: seq<Event>, n: nat)
    requires IsRun(states, events) && n < |states|
    ensures Inv(states[n])
  {
    if n > 0 {
      RunKeeps(states, events, n - 1);
      StepKeeps(states[n - 1], events[n - 1]);
    }
  }

  /** In every run, each stored job points at a durable record of its own, and no two jobs share one. */
  lemma StoredPagesAreDurable(states: seq<System>, events: seq<Event>, n: nat, a: JobKey, b: JobKey)
    requires IsRun(states, events) && n < |states|
    requires a in states[n].queue.results && b in states[n].queue.results
    ensures Durable(states[n].writer, states[n].queue.results[a], a)
    ensures states[n].queue.results[a] == states[n].queue.results[b] ==> a == b
  {
    RunKeeps(states, events, n);
    assert Durable(states[n].writer, states[n].queue.results[b], b);
  }

  /** What drives the system: a worker's turn, whose record is number `request` if it wrote one, or
      anything else that happens. */
  datatype Step = Turn(job: JobKey, load: Load, books: Books, request: nat) | Other(event: Event)

  function EventOf(step: Step): Event {
    match step
    case Turn(job, load, books, request) =>
      var e := WorkEvent(job, load, books);
      if e.Store? then StoreStep(job, request) else QueueStep(e)
    case Other(event) => event
  }

  /** A worker has a running job, and the reference it stores is the writer's reply to a record of that
      job. Only workers store pages and hand jobs off. */
  predicate MayStep(s: System, step: Step) {
    match step
    case Turn(job, load, books, request) =>
      && Q.In(s.queue, job, Q.Running)
      && (WorkEvent(job, load, books).Store? ==>
            request < |s.writer.requests| && s.writer.requests[request].id == job && books.written == RefFor(s, request))
    case Other(event) => Enabled(s, event) && !event.StoreStep? && !(event.QueueStep? && event.e.HandOff?)
  }

  /** What a worker does to the queue is a step of the system. */
  lemma TurnIsAStep(s: System, step: Step)
    requires step.Turn? && MayStep(s, step)
    ensures Q.Enabled(s.queue, WorkEvent(step.job, step.load, step.books))
    ensures Enabled(s, EventOf(step))
    ensures Apply(s, EventOf(step)) == s.(queue := Q.Apply(s.queue, WorkEvent(step.job, step.load, step.books)))
  {
    assert step.job == JobKey(step.job.kind, step.job.url);
  }

  function BrowserJobs(q: Q.Queue): set<JobKey> {
    set k | k in q.jobs && k.kind == Browser
  }

  predicate Stores(step: Step) {
    step.Turn? && WorkEvent(step.job, step.load, step.books).Store?
  }

  predicate HandsOff(step: Step) {
    step.Turn? && WorkEvent(step.job, step.load, step.books).HandOff?
  }

  predicate PutsBack(step: Step) {
    step.Turn? && WorkEvent(step.job, step.load, step.books).Snooze?
  }

  predicate Ends(step: Step) {
    step.Turn? && (WorkEvent(step.job, step.load, step.books).Fail? || WorkEvent(step.job, step.load, step.books).Die?)
  }

  /** The page was good, or a browser was needed, but the bookkeeping failed: no counter tells. */
  predicate IsUntold(step: Step) {
    && Ends(step) && !step.load.failed
    && (step.load.outcome == PageOk || (step.load.outcome == NeedsBrowser && step.job.kind == Http))
  }

  /** The page was found dead, whether that could be recorded or not. */
  predicate FindsDead(step: Step) {
    step.Turn? && HasResult(step.load) && step.load.outcome == PageDead
  }

  /** The load failed for another reason than a browser without capacity, or a browser was no help. */
  predicate Fails(step: Step) {
    && step.Turn? && step.load.hostFree && !step.load.stopped
    && if step.load.failed then step.job.kind == Http || !step.load.noCapacity
       else step.load.outcome == PageFailed || (step.load.outcome == NeedsBrowser && step.job.kind == Browser)
  }

  function One(p: bool): nat {
    if p then 1 else 0
  }

  /** One turn counts what it does. */
  lemma TurnCounts(stats: Stats, step: Step)
    requires step.Turn?
    ensures var next := Counted(stats, step.job, step.load, step.books);
            && next.done == stats.done + One(Stores(step))
            && next.needsBrowser == stats.needsBrowser + One(HandsOff(step))
            && next.deferred == stats.deferred + One(PutsBack(step))
            && next.dead == stats.dead + One(FindsDead(step)) && next.failed == stats.failed + One(Fails(step))
            && next.dead + next.failed + One(IsUntold(step)) == stats.dead + stats.failed + One(Ends(step))
  {
  }

  /** The runner's counters after some steps. */
  function StatsAfter(steps: seq<Step>): Stats {
    if steps == [] then NO_STATS
    else
      var before, last := StatsAfter(steps[..|steps| - 1]), steps[|steps| - 1];
      if last.Turn? then Counted(before, last.job, last.load, last.books) else before
  }

  /** The counters over any number of turns: the pages stored, the jobs handed off and put back, and the
      jobs ended, but for those that the bookkeeping failed. */
  lemma {:induction false} StatsCount(steps: seq<Step>)
    ensures var stats := StatsAfter(steps);
            && stats.done == Count(steps, Stores) && stats.needsBrowser == Count(steps, HandsOff) && stats.deferred == Count(steps, PutsBack)
            && stats.dead == Count(steps, FindsDead) && stats.failed == Count(steps, Fails)
            && stats.dead + stats.failed + Count(steps, IsUntold) == Count(steps, Ends)
  {
    if steps != [] {
      var last := steps[|steps| - 1];
      StatsCount(steps[..|steps| - 1]);
      if last.Turn? {
        TurnCounts(StatsAfter(steps[..|steps| - 1]), last);
      }
    }
  }

  lemma StoringGrows(q: Q.Queue, job: JobKey, ref: Ref)
    requires Q.StagesInOrder(q) && Q.In(q, job, Q.Running)
    ensures |Q.Apply(q, Q.Store(job, ref)).results| == |q.results| + 1
    ensures BrowserJobs(Q.Apply(q, Q.Store(job, ref))) == BrowserJobs(q)
  {
    assert job !in q.results && q.results[job := ref].Keys == q.results.Keys + {job};
  }

  lemma HandingOffGrows(q: Q.Queue, url: string)
    requires Q.StagesInOrder(q) && Q.In(q, JobKey(Http, url), Q.Running)
    ensures |BrowserJobs(Q.Apply(q, Q.HandOff(url)))| == |BrowserJobs(q)| + 1
  {
    assert JobKey(Browser, url) !in q.jobs;
    assert BrowserJobs(Q.Apply(q, Q.HandOff(url))) == BrowserJobs(q) + {JobKey(Browser, url)};
  }

  lemma OthersStay(q: Q.Queue, e: Q.Event)
    requires Q.Enabled(q, e) && !e.Store? && !e.HandOff?
    ensures Q.Apply(q, e).results == q.results && BrowserJobs(Q.Apply(q, e)) == BrowserJobs(q)
  {
  }

  /** No job is stored twice, and none is handed off twice. */
  lemma QueueGrows(q: Q.Queue, e: Q.Event)
    requires Q.StagesInOrder(q) && Q.Enabled(q, e)
    ensures |Q.Apply(q, e).results| == |q.results| + One(e.Store?)
    ensures |BrowserJobs(Q.Apply(q, e))| == |BrowserJobs(q)| + One(e.HandOff?)
  {
    if e.Store? {
      StoringGrows(q, e.job, e.ref);
    } else if e.HandOff? {
      HandingOffGrows(q, e.url);
    } else {
      OthersStay(q, e);
    }
  }

  predicate Grew(q: Q.Queue, next: Q.Queue, step: Step) {
    && |next.results| == |q.results| + One(Stores(step))
    && |BrowserJobs(next)| == |BrowserJobs(q)| + One(HandsOff(step))
  }

  lemma StepGrows(s: System, step: Step)
    requires Inv(s) && MayStep(s, step)
    ensures Enabled(s, EventOf(step)) && Grew(s.queue, Apply(s, EventOf(step)).queue, step)
  {
    if step.Turn? {
      TurnIsAStep(s, step);
      QueueGrows(s.queue, WorkEvent(step.job, step.load, step.books));
    } else if step.event.QueueStep? {
      QueueGrows(s.queue, step.event.e);
    }
  }

  ghost predicate IsShift(states: seq<System>, steps: seq<Step>) {
    && |states| == |steps| + 1 && Inv(states[0])
    && forall n | 0 <= n < |steps| ::
         MayStep(states[n], steps[n]) && Enabled(states[n], EventOf(steps[n])) && states[n + 1] == Apply(states[n], EventOf(steps[n]))
  }

  lemma {:induction false} ShiftKeeps(states: seq<System>, steps: seq<Step>, n: nat)
    requires IsShift(states, steps) && n < |states|
    ensures Inv(states[n])
  {
    if n > 0 {
      ShiftKeeps(states, steps, n - 1);
      StepKeeps(states[n - 1], EventOf(steps[n - 1]));
    }
  }

  lemma ShiftGrows(states: seq<System>, steps: seq<Step>, n: nat)
    requires IsShift(states, steps) && n < |steps|
    ensures Grew(states[n].queue, states[n + 1].queue, steps[n])
  {
    ShiftKeeps(states, steps, n);
    StepGrows(states[n], steps[n]);
  }

  lemma {:induction false} GrowthAddsUp(states: seq<System>, steps: seq<Step>, n: nat)
    requires n <= |steps| < |states| && forall k | 0 <= k < |steps| :: Grew(states[k].queue, states[k + 1].queue, steps[k])
    ensures |states[n].queue.results| == |states[0].queue.results| + Count(steps[..n], Stores)
    ensures |BrowserJobs(states[n].queue)| == |BrowserJobs(states[0].queue)| + Count(steps[..n], HandsOff)
  {
    if n > 0 {
      var m := n - 1;
      GrowthAddsUp(states, steps, m);
      assert Grew(states[m].queue, states[m + 1].queue, steps[m]);
      assert steps[..n] == steps[..m] + [steps[m]];
      CountAppend(steps[..m], steps[m], Stores);
      CountAppend(steps[..m], steps[m], HandsOff);
    }
  }

  /** What the runner reports at any moment is what its process has changed: as many pages are done as
      results have been stored, and as many needed a browser as browser jobs have come. */
  lemma StatsAreTrue(states: seq<System>, steps: seq<Step>, n: nat)
    requires IsShift(states, steps) && n < |states|
    ensures var stats := StatsAfter(steps[..n]);
            && |states[n].queue.results| == |states[0].queue.results| + stats.done
            && |BrowserJobs(states[n].queue)| == |BrowserJobs(states[0].queue)| + stats.needsBrowser
  {
    forall k | 0 <= k < |steps|
      ensures Grew(states[k].queue, states[k + 1].queue, steps[k])
    {
      ShiftGrows(states, steps, k);
    }
    GrowthAddsUp(states, steps, n);
    StatsCount(steps[..n]);
  }
}
