/** The page writer of pkg/batch/writer.go: it takes records, appends them to one open file, and
    answers each only once its file has been closed and renamed, or has failed. */
module OutputWriter {
  import opened Wrappers
  import opened BatchTypes

  const FILE_RECORDS := 5000

  datatype Record = Record(id: JobKey, content: string)

  datatype Reply = Written(ref: Ref) | Rejected

  /** The open file: its number, and the requests whose records it holds and who wait for it. */
  datatype OutputFile = OutputFile(name: nat, lines: seq<nat>, waiting: seq<nat>)

  /** `requests` are the accepted records in order; `replies[i]` is what was sent to request `i`;
      `disk` holds the renamed files, line by line. */
  datatype State = State(requests: seq<Record>, replies: seq<seq<Reply>>, disk: map<nat, seq<nat>>,
                         current: Option<OutputFile>, sequence: nat, running: bool)

  const STARTED: State := State([], [], map[], None, 0, true)

  /** The cases of the writer's loop, with the outcome of opening, encoding and closing files. */
  datatype Event = Take(record: Record, opens: bool, encodes: bool, closes: bool) | Quiet(closes: bool) | Close(closes: bool)

  function Position(waiting: seq<nat>, request: nat): nat
    requires request in waiting
  {
    if waiting[0] == request then 0 else 1 + Position(waiting[1..], request)
  }

  function Answer(file: OutputFile, closes: bool, request: nat): Reply
    requires request in file.waiting
  {
    if closes then Written(Ref(file.name, Position(file.waiting, request) + 1)) else Rejected
  }

  /** One reply to everyone who waits. */
  function ReplyAll(replies: seq<seq<Reply>>, file: OutputFile, closes: bool): (r: seq<seq<Reply>>)
    ensures |r| == |replies|
  {
    seq(|replies|, i requires 0 <= i < |replies| => if i in file.waiting then replies[i] + [Answer(file, closes, i)] else replies[i])
  }

  /** `finish`: close and rename, then answer. */
  function Finish(s: State, closes: bool): State {
    match s.current
    case None => s
    case Some(file) =>
      State(s.requests, ReplyAll(s.replies, file, closes), if closes then s.disk[file.name := file.lines] else s.disk,
            None, s.sequence, s.running && closes)
  }

  function Accept(s: State, record: Record): State {
    s.(requests := s.requests + [record], replies := s.replies + [[]])
  }

  function Enqueue(file: OutputFile, request: nat, encodes: bool): OutputFile {
    file.(lines := if encodes then file.lines + [request] else file.lines, waiting := file.waiting + [request])
  }

  /** The record is in the current file, or in a new one; `encodes` tells whether it became a line. */
  function Write(s: State, record: Record, encodes: bool): State {
    var sequence := if s.current == None then s.sequence + 1 else s.sequence;
    var file := Enqueue(if s.current == None then OutputFile(sequence, [], []) else s.current.value, |s.requests|, encodes);
    Accept(s, record).(current := Some(file), sequence := sequence)
  }

  function ApplyTake(s: State, record: Record, opens: bool, encodes: bool, closes: bool): State {
    if s.current == None && !opens then
      Accept(s, record).(replies := s.replies + [[Rejected]], sequence := s.sequence + 1, running := false)
    else
      var written := Write(s, record, encodes);
      if !encodes then Finish(written, false)
      else if |written.current.value.waiting| >= FILE_RECORDS then Finish(written, closes)
      else written
  }

  predicate Enabled(s: State, e: Event) {
    s.running
  }

  function Apply(s: State, e: Event): State {
    match e
    case Take(record, opens, encodes, closes) => ApplyTake(s, record, opens, encodes, closes)
    case Quiet(closes) => Finish(s, closes)
    case Close(closes) => Finish(s, closes).(running := false)
  }

  predicate IsWaiting(s: State, request: nat) {
    s.current.Some? && request in s.current.value.waiting
  }

  /** The line a reference names holds the record of `request`. */
  predicate Stored(s: State, ref: Ref, request: nat) {
    && ref.file in s.disk && 1 <= ref.line <= |s.disk[ref.file]| && s.disk[ref.file][ref.line - 1] == request
    && request < |s.requests|
  }

  ghost predicate FileOk(s: State, file: OutputFile) {
    && file.lines == file.waiting && 0 < |file.waiting| < FILE_RECORDS
    && file.name == s.sequence && s.running
    && (forall r | r in file.waiting :: r < |s.requests|)
    && (forall i, j | 0 <= i < j < |file.waiting| :: file.waiting[i] != file.waiting[j])
  }

  /** Every accepted record waits unanswered or has had exactly one reply, and a reference it was
      sent leads to its own line. */
  ghost predicate RequestOk(s: State, request: nat)
    requires request < |s.replies|
  {
    && |s.replies[request]| == (if IsWaiting(s, request) then 0 else 1)
    && forall ref | s.replies[request] == [Written(ref)] :: Stored(s, ref, request)
  }

  ghost predicate Inv(s: State) {
    && |s.replies| == |s.requests|
    && (s.current.Some? ==> FileOk(s, s.current.value) && s.sequence !in s.disk)
    && (forall n | n in s.disk :: n <= s.sequence)
    && (forall r | 0 <= r < |s.requests| :: RequestOk(s, r))
  }

  lemma {:induction false} PositionIsRight(waiting: seq<nat>, request: nat)
    requires request in waiting
    ensures Position(waiting, request) < |waiting| && waiting[Position(waiting, request)] == request
  {
    if waiting[0] != request {
      PositionIsRight(waiting[1..], request);
    }
  }

  /** A file ready to be finished; the last record may have failed to encode. */
  ghost predicate Ready(s: State, closes: bool) {
    && s.current.Some?
    && (closes ==> s.current.value.lines == s.current.value.waiting)
    && s.current.value.name == s.sequence
    && (forall r | r in s.current.value.waiting :: r < |s.requests|)
  }

  lemma FinishKeeps(s: State, closes: bool)
    requires |s.replies| == |s.requests| && Ready(s, closes) && s.sequence !in s.disk
    requires (forall n | n in s.disk :: n <= s.sequence) && (forall r | 0 <= r < |s.requests| :: RequestOk(s, r))
    ensures Inv(Finish(s, closes))
  {
    var next, file := Finish(s, closes), s.current.value;
    forall r | 0 <= r < |s.requests|
      ensures RequestOk(next, r)
    {
      assert RequestOk(s, r);
      if r in file.waiting {
        PositionIsRight(file.waiting, r);
        assert s.replies[r] == [] && next.replies[r] == [Answer(file, closes, r)];
      }
    }
  }

  lemma RejectKeeps(s: State, record: Record, next: State)
    requires Inv(s) && s.running && s.current == None
    requires next == Accept(s, record).(replies := s.replies + [[Rejected]], sequence := s.sequence + 1, running := false)
    ensures Inv(next)
  {
    forall r | 0 <= r < |next.requests|
      ensures RequestOk(next, r)
    {
      if r < |s.requests| {
        assert RequestOk(s, r);
      }
    }
  }

  /** The records before the last are those that waited already. */
  lemma WriteQueues(s: State, record: Record, encodes: bool)
    requires Inv(s) && s.running
    ensures var file := Write(s, record, encodes).current.value;
            && |file.waiting| > 0 && file.waiting[|file.waiting| - 1] == |s.requests|
            && (forall r :: r in file.waiting <==> r == |s.requests| || IsWaiting(s, r))
            && (forall i, j | 0 <= i < j < |file.waiting| :: file.waiting[i] != file.waiting[j])
  {
    var earlier := if s.current == None then [] else s.current.value.waiting;
    assert Write(s, record, encodes).current.value.waiting == earlier + [|s.requests|];
    assert forall i | 0 <= i < |earlier| :: earlier[i] in earlier && earlier[i] < |s.requests|;
  }

  lemma WriteKeepsRequests(s: State, record: Record, encodes: bool, r: nat)
    requires Inv(s) && s.running && r < |s.requests| + 1
    ensures var written := Write(s, record, encodes);
            |written.replies| == |written.requests| == |s.requests| + 1 && RequestOk(written, r)
  {
    WriteQueues(s, record, encodes);
    if r < |s.requests| {
      assert RequestOk(s, r);
    }
  }

  lemma TakeKeeps(s: State, record: Record, opens: bool, encodes: bool, closes: bool)
    requires Inv(s) && s.running
    ensures Inv(ApplyTake(s, record, opens, encodes, closes))
  {
    if s.current == None && !opens {
      RejectKeeps(s, record, ApplyTake(s, record, opens, encodes, closes));
    } else {
      var written := Write(s, record, encodes);
      WriteQueues(s, record, encodes);
      forall r | 0 <= r < |written.requests|
        ensures RequestOk(written, r)
      {
        WriteKeepsRequests(s, record, encodes, r);
      }
      if !encodes {
        FinishKeeps(written, false);
      } else if |written.current.value.waiting| >= FILE_RECORDS {
        FinishKeeps(written, closes);
      }
    }
  }

  lemma StepKeeps(s: State, e: Event)
    requires Inv(s) && Enabled(s, e)
    ensures Inv(Apply(s, e))
  {
    match e
    case Take(record, opens, encodes, closes) => TakeKeeps(s, record, opens, encodes, closes);
    case Quiet(closes) =>
      if s.current.Some? { FinishKeeps(s, closes); }
    case Close(closes) =>
      if s.current.Some? { FinishKeeps(s, closes); }
      var done := Finish(s, closes);
      forall r | 0 <= r < |s.requests|
        ensures RequestOk(done.(running := false), r)
      {
        assert RequestOk(done, r);
      }
  }

  ghost predicate IsRun(states: seq<State>, events: seq<Event>) {
    && |states| == |events| + 1 && states[0] == STARTED
    && forall n | 0 <= n < |events| :: Enabled(states[n], events[n]) && states[n + 1] == Apply(states[n], events[n])
  }

  lemma {:induction false} RunKeeps(states: seq<State>, events: seq<Event>, n: nat)
    requires IsRun(states, events) && n < |states|
    ensures Inv(states[n])
  {
    if n > 0 {
      RunKeeps(states, events, n - 1);
      StepKeeps(states[n - 1], events[n - 1]);
    }
  }

  /** The record's number, in a file that the event finishes: it waits there, or is the one just taken. */
  predicate IsFinished(s: State, e: Event, request: nat) {
    match e
    case Take(_, opens, encodes, _) =>
      var waiting := if s.current.Some? then s.current.value.waiting else [];
      (s.current.Some? || opens) && (!encodes || |waiting| + 1 == 5000) && (request in waiting || request == |s.requests|)
    case Quiet(_) => s.current.Some? && request in s.current.value.waiting
    case Close(_) => s.current.Some? && request in s.current.value.waiting
  }

  /** The file is closed and renamed. */
  predicate IsRenamed(e: Event) {
    e.closes && (e.Take? ==> e.encodes)
  }

  function RepliesTo(s: State, request: nat): seq<Reply> {
    if request < |s.replies| then s.replies[request] else []
  }

  lemma FinishReplies(s: State, closes: bool, request: nat)
    requires |s.replies| == |s.requests| && s.current.Some? && request < |s.requests|
    ensures |Finish(s, closes).replies| == |s.replies|
    ensures Finish(s, closes).replies[request]
            == s.replies[request] + (if request in s.current.value.waiting then [Answer(s.current.value, closes, request)] else [])
  {
  }

  lemma TakeReplies(s: State, e: Event, request: nat)
    requires Inv(s) && e.Take? && request < |Apply(s, e).replies|
    ensures var before, after := RepliesTo(s, request), RepliesTo(Apply(s, e), request);
            if IsFinished(s, e, request) then |after| == |before| + 1 && after[..|before|] == before && (after[|before|].Written? <==> IsRenamed(e))
            else after == before + if request == |s.requests| && s.current == None && !e.opens then [Rejected] else []
  {
    if s.current.Some? || e.opens {
      var written := Write(s, e.record, e.encodes);
      if request < |s.requests| {
        assert RequestOk(s, request);
      }
      FinishReplies(written, e.closes, request);
      FinishReplies(written, false, request);
    }
  }

  /** Who is answered, and how: every record of a file that is finished, with a reference if and only if
      the file was closed and renamed; and a record for which no file could be opened, with a rejection. */
  lemma RecordsAreAnswered(states: seq<State>, events: seq<Event>, n: nat, request: nat)
    requires IsRun(states, events) && n < |events| && request < |states[n + 1].replies|
    ensures var s, e, before, after := states[n], events[n], RepliesTo(states[n], request), RepliesTo(states[n + 1], request);
            if IsFinished(s, e, request) then |after| == |before| + 1 && after[..|before|] == before && (after[|before|].Written? <==> IsRenamed(e))
            else after == before + if e.Take? && request == |s.requests| && s.current == None && !e.opens then [Rejected] else []
  {
    RunKeeps(states, events, n);
    if events[n].Take? {
      TakeReplies(states[n], events[n], request);
    } else if states[n].current.Some? {
      FinishReplies(states[n], events[n].closes, request);
    }
  }

  /** Once the writer has stopped, every record it accepted has had its one reply. */
  lemma NobodyIsLeftWaiting(states: seq<State>, events: seq<Event>, n: nat, request: nat)
    requires IsRun(states, events) && n < |states| && !states[n].running && request < |states[n].requests|
    ensures |states[n].replies| == |states[n].requests| && |states[n].replies[request]| == 1
  {
    RunKeeps(states, events, n);
    assert RequestOk(states[n], request);
  }

  /** What is on disk, what was accepted and what was answered stays. */
  ghost predicate Extends(before: State, after: State) {
    && (forall n | n in before.disk :: n in after.disk && after.disk[n] == before.disk[n])
    && before.requests <= after.requests && |before.replies| <= |after.replies|
    && (forall r | 0 <= r < |before.replies| && before.replies[r] != [] :: after.replies[r] == before.replies[r])
  }

  /** Only records that wait get an answer. */
  lemma FinishAnswersTheWaiting(s: State, closes: bool)
    requires |s.replies| == |s.requests| && (s.current.Some? ==> s.sequence !in s.disk && s.current.value.name == s.sequence)
    requires forall r | 0 <= r < |s.requests| :: RequestOk(s, r)
    ensures Extends(s, Finish(s, closes))
  {
    forall r | 0 <= r < |s.replies| && s.replies[r] != []
      ensures Finish(s, closes).replies[r] == s.replies[r]
    {
      assert RequestOk(s, r);
    }
  }

  lemma WriteExtends(s: State, record: Record, encodes: bool)
    requires Inv(s) && s.running
    ensures Extends(s, Write(s, record, encodes))
  {
  }

  lemma TakeExtends(s: State, record: Record, opens: bool, encodes: bool, closes: bool)
    requires Inv(s) && s.running
    ensures Extends(s, ApplyTake(s, record, opens, encodes, closes))
  {
    if s.current.Some? || opens {
      var written := Write(s, record, encodes);
      WriteExtends(s, record, encodes);
      forall r | 0 <= r < |written.requests|
        ensures RequestOk(written, r)
      {
        WriteKeepsRequests(s, record, encodes, r);
      }
      FinishAnswersTheWaiting(written, false);
      FinishAnswersTheWaiting(written, closes);
    }
  }

  lemma StepExtends(s: State, e: Event)
    requires Inv(s) && Enabled(s, e)
    ensures Extends(s, Apply(s, e))
  {
    match e
    case Take(record, opens, encodes, closes) => TakeExtends(s, record, opens, encodes, closes);
    case Quiet(closes) => FinishAnswersTheWaiting(s, closes);
    case Close(closes) => FinishAnswersTheWaiting(s, closes);
  }

  lemma NextExtends(states: seq<State>, events: seq<Event>, n: nat)
    requires IsRun(states, events) && n < |events|
    ensures Extends(states[n], states[n + 1])
  {
    RunKeeps(states, events, n);
    StepExtends(states[n], events[n]);
  }

  /** A file once on disk and an answer once given never change, whatever comes later. */
  lemma {:induction false} WhatWasAnsweredStays(states: seq<State>, events: seq<Event>, m: nat, n: nat)
    requires IsRun(states, events) && m <= n < |states|
    ensures Extends(states[m], states[n])
  {
    if m < n {
      WhatWasAnsweredStays(states, events, m, n - 1);
      NextExtends(states, events, n - 1);
      ExtendsOn(states[m], states[n - 1], states[n]);
    }
  }

  lemma ExtendsOn(a: State, b: State, c: State)
    requires Extends(a, b) && Extends(b, c)
    ensures Extends(a, c)
  {
  }

  /** In every run a record waits unanswered or has had its one reply, and a reference that was sent
      leads to the line of a finished file that holds the record. */
  lemma RepliesAreRight(states: seq<State>, events: seq<Event>, n: nat, request: nat)
    requires IsRun(states, events) && n < |states| && request < |states[n].requests|
    ensures |states[n].replies| == |states[n].requests|
    ensures |states[n].replies[request]| == (if IsWaiting(states[n], request) then 0 else 1)
    ensures forall ref | states[n].replies[request] == [Written(ref)] :: Stored(states[n], ref, request)
  {
    RunKeeps(states, events, n);
    assert RequestOk(states[n], request);
  }

  /** Records that were answered with a reference have references of their own. */
  lemma RefsAreDistinct(s: State, a: nat, b: nat, ref: Ref)
    requires Inv(s) && a < |s.requests| && b < |s.requests|
    requires s.replies[a] == [Written(ref)] && s.replies[b] == [Written(ref)]
    ensures a == b
  {
    assert RequestOk(s, a) && RequestOk(s, b);
  }

  /** The writer itself: the goroutine's variables, the disk, and the reply channels. */
  class Writer {
    var requests: seq<Record>
    var replies: seq<seq<Reply>>
    var disk: map<nat, seq<nat>>
    var current: Option<OutputFile>
    var sequence: nat
    var running: bool

    ghost function Value(): State
      reads this
    {
      State(requests, replies, disk, current, sequence, running)
    }

    constructor ()
      ensures Value() == STARTED
    {
      requests, replies, disk, current, sequence, running := [], [], map[], None, 0, true;
    }

    /** The reply loops of `finish` and `reject`. */
    method AnswerAll(file: OutputFile, closes: bool)
      requires (forall i, j | 0 <= i < j < |file.waiting| :: file.waiting[i] != file.waiting[j])
      requires forall r | r in file.waiting :: r < |replies|
      modifies this`replies
      ensures replies == ReplyAll(old(replies), file, closes)
    {
      for index := 0 to |file.waiting|
        invariant |replies| == |old(replies)|
        invariant forall r | 0 <= r < |replies| ::
          replies[r] == if r in file.waiting[..index] then old(replies)[r] + [Answer(file, closes, r)] else old(replies)[r]
      {
        var request := file.waiting[index];
        assert file.waiting[..index + 1] == file.waiting[..index] + [request];
        assert request in file.waiting;
        PositionIsRight(file.waiting, request);
        var reply := if closes then Written(Ref(file.name, index + 1)) else Rejected;
        replies := replies[request := replies[request] + [reply]];
      }
      assert file.waiting[..|file.waiting|] == file.waiting;
    }

    method FinishFile(file: OutputFile, closes: bool)
      requires current == Some(file)
      requires (forall i, j | 0 <= i < j < |file.waiting| :: file.waiting[i] != file.waiting[j])
      requires forall r | r in file.waiting :: r < |replies|
      modifies this
      ensures Value() == Finish(old(Value()), closes)
    {
      if closes {
        disk := disk[file.name := file.lines];
      }
      AnswerAll(file, closes);
      current := None;
      running := running && closes;
    }

    /** The record joins the current file. */
    method Enqueue(record: Record, encodes: bool)
      requires Inv(Value()) && running
      modifies this
      ensures Value() == Write(old(Value()), record, encodes)
    {
      var request := |requests|;
      requests, replies := requests + [record], replies + [[]];
      if current == None {
        sequence := sequence + 1;
        current := Some(OutputFile(sequence, [], []));
      }
      var file := current.value.(waiting := current.value.waiting + [request]);
      if encodes {
        file := file.(lines := file.lines + [request]);
      }
      current := Some(file);
    }

    /** One turn of the loop that receives a record. */
    method Receive(record: Record, opens: bool, encodes: bool, closes: bool)
      requires Inv(Value()) && running
      modifies this
      ensures Value() == ApplyTake(old(Value()), record, opens, encodes, closes) && Inv(Value())
    {
      TakeKeeps(Value(), record, opens, encodes, closes);
      if current == None && !opens {
        sequence := sequence + 1;
        requests, replies := requests + [record], replies + [[Rejected]];
        running := false;
        return;
      }
      WriteQueues(Value(), record, encodes);
      Enqueue(record, encodes);
      var file := current.value;
      if !encodes {
        FinishFile(file, false);
      } else if |file.waiting| >= FILE_RECORDS {
        FinishFile(file, closes);
      }
    }

    /** The ticker's turn, and the turn that finds the channel closed. */
    method Flush(e: Event)
      requires Inv(Value()) && running && !e.Take?
      modifies this
      ensures Value() == Apply(old(Value()), e) && Inv(Value())
    {
      StepKeeps(Value(), e);
      if current.Some? {
        FinishFile(current.value, e.closes);
      }
      if e.Close? {
        running := false;
      }
    }
  }
}
