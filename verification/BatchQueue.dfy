/** The two-stage queue of pkg/batch on River, as a map from job to state. A job is named by its kind
    and URL, which River keeps unique in every state. Each event is one transaction. */
module BatchQueue {
  import opened Wrappers
  import opened BatchTypes

  datatype JobState = Available | Pending | Running | Retryable | Scheduled | Completed | Cancelled | Discarded

  /** The states shown to the user. */
  datatype Shown = ShownPending | ShownRunning | ShownRetrying | ShownDone | ShownDead | ShownFailed

  function StateOf(state: JobState): Shown {
    match state
    case Running => ShownRunning
    case Retryable => ShownRetrying
    case Completed => ShownDone
    case Cancelled => ShownDead
    case Discarded => ShownFailed
    case _ => ShownPending
  }

  /** `RetryFrom`: only failed and dead jobs can be asked for. */
  function RetryFrom(shown: Shown): (state: Option<JobState>)
    ensures state.Some? ==> StateOf(state.value) == shown && (state.value == Discarded || state.value == Cancelled)
    ensures state == None <==> shown != ShownFailed && shown != ShownDead
  {
    match shown
    case ShownFailed => Some(Discarded)
    case ShownDead => Some(Cancelled)
    case _ => None
  }

  /** `results` holds the content reference recorded with a completed job; `listed` holds, for each
      retry command under way, the jobs it has listed and not yet retried. */
  datatype Queue = Queue(jobs: map<JobKey, JobState>, results: map<JobKey, Ref>, listed: seq<set<JobKey>>)

  const EMPTY: Queue := Queue(map[], map[], [])

  datatype Event =
    | Import(url: string)
    | Promote(job: JobKey)
    | Fetch(job: JobKey)
    | Snooze(job: JobKey, delayed: bool)
    | Store(job: JobKey, ref: Ref)
    | Die(job: JobKey)
    | Fail(job: JobKey, again: bool)
    | HandOff(url: string)
    | Rescue(job: JobKey, again: bool)
    | ListForRetry(shown: Shown)
    | Retry(command: nat, job: JobKey)
    | EndRetry(command: nat)

  predicate In(q: Queue, job: JobKey, state: JobState) {
    job in q.jobs && q.jobs[job] == state
  }

  predicate Enabled(q: Queue, e: Event) {
    match e
    case Import(_) => true
    case Promote(job) => In(q, job, Scheduled) || In(q, job, Retryable) || In(q, job, Pending)
    case Fetch(job) => In(q, job, Available)
    case Snooze(job, _) => In(q, job, Running)
    case Store(job, _) => In(q, job, Running)
    case Die(job) => In(q, job, Running)
    case Fail(job, _) => In(q, job, Running)
    case HandOff(url) => In(q, JobKey(Http, url), Running)
    case Rescue(job, _) => In(q, job, Running)
    case ListForRetry(shown) => RetryFrom(shown).Some?
    case Retry(command, job) => command < |q.listed| && job in q.listed[command] && job in q.jobs
    case EndRetry(command) => command < |q.listed|
  }

  function Move(q: Queue, job: JobKey, state: JobState): Queue {
    q.(jobs := q.jobs[job := state])
  }

  /** Insertion under `uniqueByURL`: a job that exists in any state is left alone. */
  function Insert(jobs: map<JobKey, JobState>, job: JobKey): map<JobKey, JobState> {
    if job in jobs then jobs else jobs[job := Available]
  }

  /** River's `JobRetry`: a running job is left alone, any other becomes available. */
  function ApplyRetry(q: Queue, command: nat, job: JobKey): Queue
    requires command < |q.listed| && job in q.jobs
  {
    var rest := q.(listed := q.listed[command := q.listed[command] - {job}]);
    if q.jobs[job] == Running then rest else Move(rest, job, Available)
  }

  function Apply(q: Queue, e: Event): Queue
    requires Enabled(q, e)
  {
    match e
    case Import(url) => q.(jobs := Insert(q.jobs, JobKey(Http, url)))
    case Promote(job) => Move(q, job, Available)
    case Fetch(job) => Move(q, job, Running)
    case Snooze(job, delayed) => Move(q, job, if delayed then Scheduled else Available)
    case Store(job, ref) => Move(q, job, Completed).(results := q.results[job := ref])
    case Die(job) => Move(q, job, Cancelled)
    case Fail(job, again) => Move(q, job, if again then Retryable else Discarded)
    case HandOff(url) => q.(jobs := Insert(q.jobs, JobKey(Browser, url))[JobKey(Http, url) := Completed])
    case Rescue(job, again) => Move(q, job, if again then Retryable else Discarded)
    case ListForRetry(shown) => q.(listed := q.listed + [set k | k in q.jobs && q.jobs[k] == RetryFrom(shown).value])
    case Retry(command, job) => ApplyRetry(q, command, job)
    case EndRetry(command) => q.(listed := q.listed[..command] + q.listed[command + 1..])
  }

  function Urls(q: Queue): set<string> {
    set k | k in q.jobs && k.kind == Http :: k.url
  }

  /** A browser job exists only for a URL whose HTTP job is completed. */
  ghost predicate HandedOff(q: Queue) {
    forall url | JobKey(Browser, url) in q.jobs :: In(q, JobKey(Http, url), Completed)
  }

  /** A completed job has a stored result, unless it is an HTTP job that was handed off. */
  ghost predicate ResultsMatch(q: Queue) {
    && (forall k | k in q.results :: In(q, k, Completed) && (k.kind == Http ==> JobKey(Browser, k.url) !in q.jobs))
    && (forall k | k in q.jobs && q.jobs[k] == Completed && k !in q.results :: k.kind == Http && JobKey(Browser, k.url) in q.jobs)
  }

  /** What a retry command has listed is still in a final, unsuccessful state. */
  ghost predicate ListedAreFinal(q: Queue) {
    && |q.listed| <= 1
    && forall c, k | 0 <= c < |q.listed| && k in q.listed[c] :: In(q, k, Discarded) || In(q, k, Cancelled)
  }

  ghost predicate StagesInOrder(q: Queue) {
    HandedOff(q) && ResultsMatch(q)
  }

  ghost predicate Inv(q: Queue) {
    StagesInOrder(q) && ListedAreFinal(q)
  }

  /** No retry command starts while another is under way. */
  predicate OneRetryAtATime(q: Queue, e: Event) {
    e.ListForRetry? ==> q.listed == []
  }

  /** What a retry must not meet: a job that a second retry command, and a run since, have completed. */
  predicate Overtaken(q: Queue, job: JobKey) {
    In(q, job, Completed)
  }

  predicate MeetsCompleted(q: Queue, e: Event) {
    e.Retry? && Overtaken(q, e.job)
  }

  /** A job that is not completed, before and after, matters to nobody else. */
  lemma MoveKeepsOrder(q: Queue, job: JobKey, state: JobState)
    requires StagesInOrder(q) && job in q.jobs && q.jobs[job] != Completed && state != Completed
    ensures StagesInOrder(Move(q, job, state))
  {
    assert job !in q.results;
  }

  lemma StoreKeepsOrder(q: Queue, job: JobKey, ref: Ref)
    requires StagesInOrder(q) && In(q, job, Running)
    ensures StagesInOrder(Apply(q, Store(job, ref)))
  {
  }

  lemma HandOffKeepsOrder(q: Queue, url: string)
    requires StagesInOrder(q) && In(q, JobKey(Http, url), Running)
    ensures StagesInOrder(Apply(q, HandOff(url)))
  {
  }

  lemma StepKeepsOrder(q: Queue, e: Event)
    requires StagesInOrder(q) && Enabled(q, e) && !MeetsCompleted(q, e)
    ensures StagesInOrder(Apply(q, e))
  {
    match e
    case Import(url) =>
    case Store(job, ref) => StoreKeepsOrder(q, job, ref);
    case HandOff(url) => HandOffKeepsOrder(q, url);
    case Retry(command, job) => MoveKeepsOrder(q, job, Available);
    case ListForRetry(_) =>
    case EndRetry(_) =>
    case _ => MoveKeepsOrder(q, e.job, Apply(q, e).jobs[e.job]);
  }

  lemma StepKeepsListed(q: Queue, e: Event)
    requires Inv(q) && Enabled(q, e) && OneRetryAtATime(q, e)
    ensures ListedAreFinal(Apply(q, e))
  {
    match e
    case ListForRetry(shown) =>
      var next := Apply(q, e);
      forall k | k in next.listed[0]
        ensures In(next, k, Discarded) || In(next, k, Cancelled)
      {
        assert RetryFrom(shown).value == Discarded || RetryFrom(shown).value == Cancelled;
      }
    case Retry(command, job) =>
      var next := Apply(q, e);
      forall c, k | 0 <= c < |next.listed| && k in next.listed[c]
        ensures In(next, k, Discarded) || In(next, k, Cancelled)
      {
        assert command == c == 0 && k in q.listed[c] && k != job;
        assert In(q, k, Discarded) || In(q, k, Cancelled);
      }
    case EndRetry(command) =>
    case _ =>
      var next := Apply(q, e);
      forall c, k | 0 <= c < |next.listed| && k in next.listed[c]
        ensures In(next, k, Discarded) || In(next, k, Cancelled)
      {
        assert In(q, k, Discarded) || In(q, k, Cancelled);
      }
  }

  lemma StepKeeps(q: Queue, e: Event)
    requires Inv(q) && Enabled(q, e) && OneRetryAtATime(q, e)
    ensures Inv(Apply(q, e))
  {
    assert e.Retry? ==> In(q, e.job, Discarded) || In(q, e.job, Cancelled);
    StepKeepsOrder(q, e);
    StepKeepsListed(q, e);
  }

  ghost predicate IsRun(states: seq<Queue>, events: seq<Event>) {
    && |states| == |events| + 1 && states[0] == EMPTY
    && forall n | 0 <= n < |events| :: Enabled(states[n], events[n]) && states[n + 1] == Apply(states[n], events[n])
  }

  lemma {:induction false} RunKeeps(states: seq<Queue>, events: seq<Event>, n: nat)
    requires IsRun(states, events) && n < |states|
    requires forall m | 0 <= m < |events| :: OneRetryAtATime(states[m], events[m])
    ensures Inv(states[n])
  {
    if n > 0 {
      RunKeeps(states, events, n - 1);
      StepKeeps(states[n - 1], events[n - 1]);
    }
  }

  /** With any number of retry commands under way, a retry keeps the stages in order exactly when the
      job it reopens has not been completed in the meantime. */
  lemma RetryIsSafeIff(q: Queue, command: nat, job: JobKey)
    requires StagesInOrder(q) && Enabled(q, Retry(command, job))
    ensures StagesInOrder(Apply(q, Retry(command, job))) <==> !Overtaken(q, job)
  {
    var next := Apply(q, Retry(command, job));
    if Overtaken(q, job) {
      assert next.jobs[job] == Available;
      if job in q.results {
        assert job in next.results;
      } else {
        assert JobKey(Browser, job.url) in next.jobs && job == JobKey(Http, job.url);
      }
    } else {
      StepKeepsOrder(q, Retry(command, job));
    }
  }

  lemma {:induction false} SafeRunKeepsOrder(states: seq<Queue>, events: seq<Event>, n: nat)
    requires IsRun(states, events) && n < |states|
    requires forall m | 0 <= m < n :: !MeetsCompleted(states[m], events[m])
    ensures StagesInOrder(states[n])
  {
    if n > 0 {
      SafeRunKeepsOrder(states, events, n - 1);
      StepKeepsOrder(states[n - 1], events[n - 1]);
    }
  }

  /** Over a whole run with any number of retry commands: the stages stay in order exactly when no retry
      meets a completed job. */
  lemma RunIsSafeIff(states: seq<Queue>, events: seq<Event>)
    requires IsRun(states, events)
    ensures (forall n | 0 <= n < |states| :: StagesInOrder(states[n])) <==> (forall n | 0 <= n < |events| :: !MeetsCompleted(states[n], events[n]))
  {
    if forall n | 0 <= n < |events| :: !MeetsCompleted(states[n], events[n]) {
      forall n | 0 <= n < |states|
        ensures StagesInOrder(states[n])
      {
        SafeRunKeepsOrder(states, events, n);
      }
    }
    if forall n | 0 <= n < |states| :: StagesInOrder(states[n]) {
      forall n | 0 <= n < |events|
        ensures !MeetsCompleted(states[n], events[n])
      {
        var next := states[n + 1];
        assert StagesInOrder(states[n]) && StagesInOrder(next);
        if events[n].Retry? {
          RetryIsSafeIff(states[n], events[n].command, events[n].job);
        }
      }
    }
  }

  const CONTESTED: JobKey := JobKey(Http, "u")

  /** The queue of one URL that is only known to the HTTP stage. */
  function OneUrl(state: JobState, listed: seq<set<JobKey>>): Queue {
    Queue(map[CONTESTED := state], map[], listed)
  }

  lemma OneUrlListed(listed: seq<set<JobKey>>)
    ensures Apply(OneUrl(Discarded, listed), ListForRetry(ShownFailed)) == OneUrl(Discarded, listed + [{CONTESTED}])
  {
    assert (set k | k in map[CONTESTED := Discarded] && map[CONTESTED := Discarded][k] == Discarded) == {CONTESTED};
  }

  function OverlapState(n: nat): Queue {
    var job, both := CONTESTED, map[CONTESTED := Completed, JobKey(Browser, "u") := Available];
    match n
    case 0 => EMPTY
    case 1 => OneUrl(Available, [])
    case 2 => OneUrl(Running, [])
    case 3 => OneUrl(Discarded, [])
    case 4 => OneUrl(Discarded, [{job}])
    case 5 => OneUrl(Discarded, [{job}, {job}])
    case 6 => OneUrl(Available, [{}, {job}])
    case 7 => OneUrl(Running, [{}, {job}])
    case 8 => Queue(both, map[], [{}, {job}])
    case _ => Queue(both[job := Available], map[], [{}, {}])
  }

  function OverlapEvent(n: nat): Event {
    match n
    case 0 => Import("u")
    case 1 => Fetch(CONTESTED)
    case 2 => Fail(CONTESTED, false)
    case 3 => ListForRetry(ShownFailed)
    case 4 => ListForRetry(ShownFailed)
    case 5 => Retry(0, CONTESTED)
    case 6 => Fetch(CONTESTED)
    case 7 => HandOff("u")
    case _ => Retry(1, CONTESTED)
  }

  lemma OverlapStep(n: nat)
    requires n < 9
    ensures Enabled(OverlapState(n), OverlapEvent(n)) && Apply(OverlapState(n), OverlapEvent(n)) == OverlapState(n + 1)
  {
    if n == 3 {
      OneUrlListed([]);
    } else if n == 4 {
      OneUrlListed([{CONTESTED}]);
    } else if n == 5 || n == 8 {
      assert {CONTESTED} - {CONTESTED} == {};
    }
  }

  /** Two overlapping retry commands can reopen an HTTP job that was handed off in between. */
  lemma OverlappingRetriesBreakTheOrder() returns (states: seq<Queue>, events: seq<Event>)
    ensures IsRun(states, events) && !HandedOff(states[|events|])
  {
    states, events := seq(10, n requires 0 <= n < 10 => OverlapState(n)), seq(9, n requires 0 <= n < 9 => OverlapEvent(n));
    forall n | 0 <= n < 9
      ensures Enabled(states[n], events[n]) && states[n + 1] == Apply(states[n], events[n])
    {
      OverlapStep(n);
    }
    assert JobKey(Browser, "u") in states[9].jobs && !In(states[9], CONTESTED, Completed);
  }
}
