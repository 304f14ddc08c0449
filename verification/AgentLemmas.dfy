/** Unrolling the loop's specification from the end, as the loops of the imperative
    code build it. */
module AgentLemmas {
  import opened Messages
  import opened ToolCalls
  import opened Batch
  import opened Streaming
  import opened Loop

  lemma {:induction false} BracketsSnoc(messages: seq<Message>, k: nat)
    requires k < |messages|
    ensures Brackets(messages[..k + 1]) == Brackets(messages[..k]) + Bracket(messages[k])
  {
    if k == 0 {
      assert messages[..1] == [messages[0]] && [messages[0]][1..] == [] && messages[..0] == [];
    } else {
      assert messages[..k + 1][1..] == messages[1..][..k];
      assert messages[..k][1..] == messages[1..][..k - 1];
      BracketsSnoc(messages[1..], k - 1);
      Assoc(Bracket(messages[0]), Brackets(messages[1..][..k - 1]), Bracket(messages[k]));
    }
  }

  lemma {:induction false} SequentialSnoc(tools: seq<Tool>, jobs: seq<Job>, k: nat)
    requires k < |jobs|
    ensures SequentialLog(tools, jobs[..k + 1]) == SequentialLog(tools, jobs[..k]) + CallLog(tools, jobs[k])
    decreases k
  {
    if k == 0 {
      assert jobs[..1] == [jobs[0]] && [jobs[0]][1..] == [] && jobs[..0] == [];
    } else {
      assert jobs[..k + 1][1..] == jobs[1..][..k];
      assert jobs[..k][1..] == jobs[1..][..k - 1];
      SequentialSnoc(tools, jobs[1..], k - 1);
      Assoc(CallLog(tools, jobs[0]), SequentialLog(tools, jobs[1..][..k - 1]), CallLog(tools, jobs[k]));
    }
  }

  /** What preparing one call logs. */
  function PrepareOne(tools: seq<Tool>, job: Job): Log {
    [StartEvent(job.call)]
    + if PrepareToolCall(tools, job).Immediate? then [EndEvent(OutcomeOf(tools, job))] else []
  }

  lemma {:induction false} PrepareSnoc(tools: seq<Tool>, jobs: seq<Job>, k: nat)
    requires k < |jobs|
    ensures PrepareLog(tools, jobs[..k + 1]) == PrepareLog(tools, jobs[..k]) + PrepareOne(tools, jobs[k])
    decreases k
  {
    if k == 0 {
      assert jobs[..1] == [jobs[0]] && [jobs[0]][1..] == [] && jobs[..0] == [];
    } else {
      assert jobs[..k + 1][1..] == jobs[1..][..k];
      assert jobs[..k][1..] == jobs[1..][..k - 1];
      PrepareSnoc(tools, jobs[1..], k - 1);
      Assoc(PrepareOne(tools, jobs[0]), PrepareLog(tools, jobs[1..][..k - 1]), PrepareOne(tools, jobs[k]));
    }
  }

  /** Whether the batch goes on after call `k`. */
  lemma {:induction false} ReachedStep(jobs: seq<Job>, k: nat)
    requires k < |jobs| && Reached(jobs) == jobs[..k] + Reached(jobs[k..])
    ensures Reached(jobs) == jobs[..k + 1] + if jobs[k].oracle.abortedAfterwards then [] else Reached(jobs[k + 1..])
  {
    var rest := if jobs[k].oracle.abortedAfterwards then [] else Reached(jobs[k + 1..]);
    assert Reached(jobs[k..]) == [jobs[k]] + rest by {
      assert jobs[k..][1..] == jobs[k + 1..];
    }
    Assoc(jobs[..k], [jobs[k]], rest);
    assert jobs[..k + 1] == jobs[..k] + [jobs[k]];
  }

  lemma {:induction false} ReachedAll(jobs: seq<Job>, k: nat, aborted: bool)
    requires k <= |jobs| && (aborted || k == |jobs|)
    requires Reached(jobs) == jobs[..k] + if aborted then [] else Reached(jobs[k..])
    ensures Reached(jobs) == jobs[..k]
  {
    assert k == |jobs| ==> jobs[k..] == [];
  }

  /** The fiber belongs to the job, so it ends with the job's outcome. */
  predicate Serves(tools: seq<Tool>, job: Job, fiber: Fiber) {
    match fiber
    case Done(f) => f == OutcomeOf(tools, job)
    case Ready(j, args) => j == job && PrepareToolCall(tools, job) == Prepared(args)
    case Busy(j, _) => j == job && PrepareToolCall(tools, job).Prepared?
  }

  lemma {:induction false} ServesAdvance(tools: seq<Tool>, job: Job, fiber: Fiber)
    requires Serves(tools, job, fiber) && !fiber.Done?
    ensures Serves(tools, job, Advance(fiber))
  {
  }

  lemma {:induction false} EndedGrows(log: Log, longer: Log)
    requires log <= longer
    ensures Ended(log) <= Ended(longer)
  {
    assert longer == log + longer[|log|..];
    EndedConcat(log, longer[|log|..]);
  }

  /** The end of the turn after its tool batch. */
  lemma {:induction false} RunToolsParts(s: LoopState, t: TurnScript, worked: LoopState)
    requires var results := ResultMessages(BatchOutcomes(s.context.tools, t));
      worked == AddMessages(AddLog(s, BatchLog(s.context.tools, s.config, t)), results)
    ensures var results := ResultMessages(BatchOutcomes(s.context.tools, t));
      RunTools(s, t) == AddLog(worked, [Emit(TurnEnd(Assistant(t.stream.result), results))])
  {
    Assoc(s.log, BatchLog(s.context.tools, s.config, t),
          [Emit(TurnEnd(Assistant(t.stream.result), ResultMessages(BatchOutcomes(s.context.tools, t))))]);
  }

  // ---- streams ----

  lemma {:induction false} HeardSnoc(events: seq<StreamEvent>, e: StreamEvent)
    ensures Heard(events + [e]) == if Heard(events) != [] || e.Begin? then Heard(events) + [e] else []
    decreases |events|
  {
    if events == [] {
      assert events + [e] == [e] && [e][1..] == [];
    } else if !events[0].Begin? {
      assert (events + [e])[1..] == events[1..] + [e];
      HeardSnoc(events[1..], e);
    }
  }

  /** The announcements made so far, and the transcript as it stands, after `n` events. */
  function Said(events: seq<StreamEvent>): (log: Log)
    requires forall e :: e in events ==> !e.Finish?
  {
    HeardLive(events);
    Announcements(Heard(events))
  }

  lemma {:induction false} SaidSnoc(events: seq<StreamEvent>, e: StreamEvent)
    requires forall x :: x in events ==> !x.Finish?
    requires !e.Finish?
    ensures forall x :: x in events + [e] ==> !x.Finish?
    ensures Said(events + [e]) ==
      Said(events) + if Heard(events) != [] || e.Begin? then [Announcement(e)] else []
    ensures Shown(Heard(events + [e])) ==
      if e.Begin? then Shown(Heard(events)) + [Assistant(e.partial)]
      else if Shown(Heard(events)) == [] then []
      else Shown(Heard(events))[..|Shown(Heard(events))| - 1] + [Assistant(e.partial)]
    ensures Shown(Heard(events)) == [] <==> Heard(events) == []
  {
    HeardLive(events);
    HeardLive(events + [e]);
    HeardSnoc(events, e);
    var heard := Heard(events);
    ShownCount(heard);
    if heard != [] || e.Begin? {
      assert (heard + [e])[..|heard|] == heard;
    }
  }

  lemma {:induction false} EmptyBatch(tools: seq<Tool>, config: Config, t: TurnScript)
    requires Reached(Jobs(t)) == []
    ensures BatchLog(tools, config, t) == [] && BatchOutcomes(tools, t) == []
  {
    assert FibersOf(tools, []) == [] && ResultMessages(OutcomesOf(tools, [])) == [];
  }

  lemma {:induction false} OutcomesSnoc(tools: seq<Tool>, jobs: seq<Job>, k: nat)
    requires k < |jobs|
    ensures OutcomesOf(tools, jobs[..k + 1]) == OutcomesOf(tools, jobs[..k]) + [OutcomeOf(tools, jobs[k])]
    ensures FibersOf(tools, jobs[..k + 1]) == FibersOf(tools, jobs[..k]) + [FiberOf(tools, jobs[k])]
  {
  }

  /** Appending the k-th block to what the first k blocks logged. */
  lemma {:induction false} SequentialGrows(base: Log, tools: seq<Tool>, jobs: seq<Job>, k: nat, log: Log)
    requires k < |jobs| && log == base + SequentialLog(tools, jobs[..k])
    ensures log + CallLog(tools, jobs[k]) == base + SequentialLog(tools, jobs[..k + 1])
  {
    SequentialSnoc(tools, jobs, k);
    Assoc(base, SequentialLog(tools, jobs[..k]), CallLog(tools, jobs[k]));
  }

  lemma {:induction false} PrepareGrows(base: Log, tools: seq<Tool>, jobs: seq<Job>, k: nat, log: Log)
    requires k < |jobs| && log == base + PrepareLog(tools, jobs[..k])
    ensures log + PrepareOne(tools, jobs[k]) == base + PrepareLog(tools, jobs[..k + 1])
  {
    PrepareSnoc(tools, jobs, k);
    Assoc(base, PrepareLog(tools, jobs[..k]), PrepareOne(tools, jobs[k]));
  }

  lemma {:induction false} BracketsGrow(base: Log, messages: seq<Message>, k: nat, log: Log)
    requires k < |messages| && log == base + Brackets(messages[..k])
    ensures log + Bracket(messages[k]) == base + Brackets(messages[..k + 1])
  {
    BracketsSnoc(messages, k);
    Assoc(base, Brackets(messages[..k]), Bracket(messages[k]));
  }

  ghost predicate AllServe(tools: seq<Tool>, jobs: seq<Job>, fibers: seq<Fiber>) {
    |fibers| == |jobs| && forall i :: 0 <= i < |jobs| ==> Serves(tools, jobs[i], fibers[i])
  }

  lemma {:induction false} ServeAtFirst(tools: seq<Tool>, jobs: seq<Job>)
    ensures AllServe(tools, jobs, FibersOf(tools, jobs))
  {
  }

  /** One move of the fiber the schedule picks. */
  lemma {:induction false} MergeMoves(tools: seq<Tool>, jobs: seq<Job>, fibers: seq<Fiber>, order: seq<nat>, log: Log)
    requires AllServe(tools, jobs, fibers) && !AllDone(fibers)
    ensures var k := Pick(fibers, order);
      var next := fibers[k := Advance(fibers[k])];
      && AllServe(tools, jobs, next) && TotalLeft(next) < TotalLeft(fibers)
      && (log + [NextEntry(fibers[k])]) + Merge(next, Tail(order)) == log + Merge(fibers, order)
  {
    var k := Pick(fibers, order);
    var next := fibers[k := Advance(fibers[k])];
    Progress(fibers, k);
    ServesAdvance(tools, jobs[k], fibers[k]);
    Assoc(log, [NextEntry(fibers[k])], Merge(next, Tail(order)));
  }

  lemma {:induction false} ServedToTheEnd(tools: seq<Tool>, jobs: seq<Job>, fibers: seq<Fiber>)
    requires AllServe(tools, jobs, fibers) && AllDone(fibers)
    ensures seq(|fibers|, i requires 0 <= i < |fibers| => fibers[i].final) == OutcomesOf(tools, jobs)
  {
    forall i | 0 <= i < |fibers|
      ensures fibers[i].final == OutcomesOf(tools, jobs)[i]
    {
      assert Serves(tools, jobs[i], fibers[i]);
    }
  }

  lemma {:induction false} ParallelParts(base: Log, tools: seq<Tool>, jobs: seq<Job>, schedule: seq<nat>)
    ensures ((base + PrepareLog(tools, jobs)) + Merge(FibersOf(tools, jobs), schedule))
        + Brackets(ResultMessages(OutcomesOf(tools, jobs)))
      == base + ParallelLog(tools, jobs, schedule)
  {
    var prepare, merge := PrepareLog(tools, jobs), Merge(FibersOf(tools, jobs), schedule);
    Assoc(base, prepare, merge);
    Assoc(base, prepare + merge, Brackets(ResultMessages(OutcomesOf(tools, jobs))));
  }

  // ---- the state while a reply streams in ----

  ghost predicate NoFinish(events: seq<StreamEvent>) {
    forall e :: e in events ==> !e.Finish?
  }

  /** After the events read so far, the transcript shows the partials and the log tells of them. */
  ghost predicate StreamSoFar(
    base: seq<Message>, asked: Log, read: seq<StreamEvent>, messages: seq<Message>, log: Log, addedPartial: bool)
  {
    && NoFinish(read)
    && messages == base + Shown(Heard(read))
    && log == asked + Said(read)
    && (addedPartial <==> Heard(read) != [])
    && (addedPartial <==> Shown(Heard(read)) != [])
  }

  /** What handling one event does to the transcript. */
  function ShowPartial(messages: seq<Message>, e: StreamEvent, addedPartial: bool): seq<Message>
    requires !e.Finish? && (addedPartial ==> messages != [])
  {
    if e.Begin? then messages + [Assistant(e.partial)]
    else if addedPartial then messages[..|messages| - 1] + [Assistant(e.partial)]
    else messages
  }

  lemma {:induction false} StreamGrows(
    base: seq<Message>, asked: Log, read: seq<StreamEvent>, messages: seq<Message>, log: Log, addedPartial: bool, e: StreamEvent)
    requires StreamSoFar(base, asked, read, messages, log, addedPartial) && !e.Finish?
    ensures addedPartial ==> messages != []
    ensures StreamSoFar(base, asked, read + [e], ShowPartial(messages, e, addedPartial),
                        log + if e.Begin? || addedPartial then [Announcement(e)] else [], addedPartial || e.Begin?)
  {
    SaidSnoc(read, e);
    HeardSnoc(read, e);
    var shown := Shown(Heard(read));
    Assoc(asked, Said(read), if e.Begin? || addedPartial then [Announcement(e)] else []);
    if e.Begin? {
      Assoc(base, shown, [Assistant(e.partial)]);
    } else if addedPartial {
      assert (base + shown)[..|base + shown| - 1] == base + shown[..|shown| - 1];
      Assoc(base, shown[..|shown| - 1], [Assistant(e.partial)]);
    }
  }

  /** Replacing the last partial, or announcing the reply at once, completes the stream. */
  lemma {:induction false} StreamCompletes(
    base: seq<Message>, asked: Log, stream: Stream, n: nat, messages: seq<Message>, log: Log, addedPartial: bool)
    requires n <= |stream.events| && (n < |stream.events| ==> stream.events[n].Finish?)
    requires StreamSoFar(base, asked, stream.events[..n], messages, log, addedPartial)
    ensures addedPartial ==> messages != []
    ensures var final := Assistant(stream.result);
      && (if addedPartial then messages[..|messages| - 1] else messages) + [final] == Streamed(base, stream)
      && log + (if addedPartial then [] else [Emit(MessageStart(final))]) + [Emit(MessageEnd(final))] == asked + StreamLog(stream)
  {
    LiveAt(stream.events, n);
    var read, final := stream.events[..n], Assistant(stream.result);
    var shown := Shown(Heard(read));
    HeardLive(read);
    if addedPartial {
      assert (base + shown)[..|base + shown| - 1] == base + shown[..|shown| - 1];
      assert log + [] == log;
      Assoc(asked, Said(read), [Emit(MessageEnd(final))]);
    } else {
      assert Said(read) == [] && asked + Said(read) == asked;
      Assoc(asked, [Emit(MessageStart(final))], [Emit(MessageEnd(final))]);
      assert base + [] == base;
    }
  }

  // ---- the nested loops ----

  /** Where the run gets to from inside the nested loops, after `i` turns. */
  ghost function Onward(s: LoopState, hasMore: bool, script: seq<TurnScript>, i: nat): LoopState
    requires i <= |script| && (hasMore || i > 0)
  {
    if s.exit != Running || hasMore || s.pending != [] then Run(s, script[i..])
    else Run(AskFollowUp(s, script[i - 1]), script[i..])
  }

  ghost predicate Leads(s: LoopState, hasMore: bool, script: seq<TurnScript>, i: nat, target: LoopState) {
    i <= |script| && (hasMore || i > 0) && Onward(s, hasMore, script, i) == target
  }

  lemma {:induction false} OnwardTurn(s: LoopState, hadMore: bool, script: seq<TurnScript>, i: nat, hasMore: bool)
    requires i < |script| && s.exit == Running && (hadMore || i > 0) && (hadMore || s.pending != [])
    requires script[i].stream.result.Failed() || hasMore == Continuing(s.context.tools, script[i])
    ensures Onward(OneTurn(s, script[i]), hasMore, script, i + 1) == Onward(s, hadMore, script, i)
  {
    TurnSplit(s, script[i]);
    assert script[i..][1..] == script[i + 1..];
  }

  lemma {:induction false} OnwardEnds(s: LoopState, hasMore: bool, script: seq<TurnScript>, i: nat)
    requires i <= |script| && (hasMore || i > 0)
    requires s.exit != Running || (i == |script| && (hasMore || s.pending != []))
    ensures Onward(s, hasMore, script, i) == s
  {
    if i == |script| {
      assert script[i..] == [];
    }
  }

  // ---- starting and failing a run ----

  /** The message that reports a run which threw. */
  function FailureReply(error: string, aborted: bool): AssistantMessage {
    AssistantMessage([Text("")], if aborted then StopReason.Aborted else StopReason.Error, Some(error))
  }

  /** How `continue` starts a run. */
  datatype Resumption = Resumption(prompts: seq<Message>, skipPoll: bool, queues: Queues)

  /** A transcript that does not end in an assistant message is continued as it is; one
      that does needs queued messages, and the steering queue goes first. */
  function Continuation(messages: seq<Message>, queues: Queues): (c: Option<Resumption>) {
    if !EndsInAssistant(messages) then Some(Resumption([], false, queues))
    else if queues.steering.items != [] then
      var (batch, rest) := queues.steering.Drain();
      Some(Resumption(batch, true, queues.(steering := rest)))
    else if queues.followUp.items != [] then
      var (batch, rest) := queues.followUp.Drain();
      Some(Resumption(batch, false, queues.(followUp := rest)))
    else None
  }

  /** What a drain takes, by the queue's mode, and what it leaves. */
  predicate Takes(q: Queue, batch: seq<Message>, rest: Queue)
    requires q.items != []
  {
    && batch == (if q.mode == All then q.items else [q.items[0]])
    && q.items == batch + rest.items && rest.mode == q.mode
  }

  /** Which queue `continue` takes from: after an assistant message the steering queue, the
      follow-up queue only if that is empty, and only one of them. A steering batch lets the
      run skip its first poll. Any other transcript is continued without taking anything. */
  lemma {:induction false} ContinuationExact(messages: seq<Message>, queues: Queues)
    requires messages != []
    ensures var c := Continuation(messages, queues);
      if !messages[|messages| - 1].Assistant? then
        c == Some(Resumption([], false, queues))
      else if queues.steering.items != [] then
        && c.Some? && c.value.skipPoll && c.value.queues.followUp == queues.followUp
        && Takes(queues.steering, c.value.prompts, c.value.queues.steering)
      else if queues.followUp.items != [] then
        && c.Some? && !c.value.skipPoll && c.value.queues.steering == queues.steering
        && Takes(queues.followUp, c.value.prompts, c.value.queues.followUp)
      else c.None?
  {
  }

  /** `continue` is refused exactly when the transcript ends in an assistant message and
      both queues are empty; otherwise its first request can be sent, provided nobody
      queued an assistant message. */
  lemma {:induction false} ContinuationSound(messages: seq<Message>, queues: Queues)
    requires messages != []
    ensures var c := Continuation(messages, queues);
      && (c.None? <==> EndsInAssistant(messages) && queues.steering.items == [] && queues.followUp.items == [])
      && (c.Some? && !EndsInAssistant(c.value.prompts) ==> !EndsInAssistant(messages + c.value.prompts))
  {
    var c := Continuation(messages, queues);
    if c.Some? && c.value.prompts == [] {
      assert messages + c.value.prompts == messages;
    }
  }

  lemma {:induction false} LeadsAtFirst(s: LoopState, script: seq<TurnScript>)
    ensures Leads(s, true, script, 0, Run(s, script))
  {
    assert script[0..] == script;
  }

  lemma {:induction false} LeadsHome(s: LoopState, hasMore: bool, script: seq<TurnScript>, i: nat, target: LoopState)
    requires Leads(s, hasMore, script, i, target)
    requires s.exit != Running || (i == |script| && (hasMore || s.pending != []))
    ensures s == target
  {
    OnwardEnds(s, hasMore, script, i);
  }

  /** Polling for follow-ups goes on towards the same end. */
  lemma {:induction false} LeadsThroughFollowUp(s: LoopState, script: seq<TurnScript>, i: nat, target: LoopState)
    requires Leads(s, false, script, i, target) && s.exit == Running && s.pending == []
    ensures var asked := PollFollowUp(s, script[i - 1].beforeFollowUp);
      && (asked.pending != [] ==> Leads(asked, true, script, i, target))
      && (asked.pending == [] ==> asked.(exit := Natural) == target)
  {
  }
}
