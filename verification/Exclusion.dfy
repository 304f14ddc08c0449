/** Sequential exclusion: in a turn whose batch runs sequentially, calls do not overlap. */
module Exclusion {
  import opened Messages
  import opened ToolCalls
  import opened Batch
  import opened AgentView
  import opened Loop
  import opened LoopProtocol
  import opened Transcripts
  import opened TurnLogs

  // ---- sequential batches ----

  /** One lane for the whole batch: a call occupies it from its start to its result. */
  datatype Lane = Vacant | Occupied(id: string) | Finished(id: string) | Jammed

  function LaneStep(lane: Lane, e: Entry): Lane {
    match e
    case Execute(id, _) => if lane == Occupied(id) then lane else Jammed
    case Emit(ToolStart(id, _, _)) => if lane.Vacant? then Occupied(id) else Jammed
    case Emit(ToolUpdate(id, _, _, _)) => if lane == Occupied(id) then lane else Jammed
    case Emit(ToolEnd(id, _, _, _)) => if lane == Occupied(id) then Finished(id) else Jammed
    case Emit(MessageStart(m)) => if m.ToolResult? && lane == Finished(m.toolCallId) then lane else Jammed
    case Emit(MessageEnd(m)) => if m.ToolResult? && lane == Finished(m.toolCallId) then Vacant else Jammed
    case _ => Jammed
  }

  function LaneAfter(lane: Lane, log: Log): Lane
    decreases |log|
  {
    if log == [] then lane else LaneAfter(LaneStep(lane, log[0]), log[1..])
  }

  lemma {:induction false} LaneConcat(lane: Lane, a: Log, b: Log)
    ensures LaneAfter(lane, a + b) == LaneAfter(LaneAfter(lane, a), b)
    decreases |a|
  {
    if a == [] {
      assert a + b == b;
    } else {
      assert (a + b)[1..] == a[1..] + b;
      LaneConcat(LaneStep(lane, a[0]), a[1..], b);
    }
  }

  lemma {:induction false} JammedForever(log: Log)
    ensures LaneAfter(Jammed, log) == Jammed
    decreases |log|
  {
    if log != [] {
      JammedForever(log[1..]);
    }
  }

  lemma {:induction false} LaneUpdates(call: ToolCall, updates: seq<ToolOutcome>)
    ensures LaneAfter(Occupied(call.id), UpdateEvents(call, updates)) == Occupied(call.id)
    decreases |updates|
  {
    if updates != [] {
      assert UpdateEvents(call, updates)[1..] == UpdateEvents(call, updates[1..]);
      LaneUpdates(call, updates[1..]);
    }
  }

  lemma {:induction false} LaneOne(lane: Lane, e: Entry)
    ensures LaneAfter(lane, [e]) == LaneStep(lane, e)
  {
    assert [e][1..] == [];
  }

  lemma {:induction false} LaneBody(tools: seq<Tool>, job: Job)
    ensures LaneAfter(Occupied(job.call.id), Body(tools, job)) == Finished(job.call.id)
  {
    var end := EndEvent(OutcomeOf(tools, job));
    LaneOne(Occupied(job.call.id), end);
    match PrepareToolCall(tools, job)
    case Immediate(_, _) =>
    case Prepared(args) =>
      var first, updates := [Execute(job.call.id, args)], UpdateEvents(job.call, Delivered(job.oracle));
      LaneOne(Occupied(job.call.id), first[0]);
      LaneConcat(Occupied(job.call.id), first + updates, [end]);
      LaneConcat(Occupied(job.call.id), first, updates);
      LaneUpdates(job.call, Delivered(job.oracle));
  }

  lemma {:induction false} LaneCall(tools: seq<Tool>, job: Job)
    ensures LaneAfter(Vacant, CallLog(tools, job)) == Vacant
  {
    var m := ResultMessage(OutcomeOf(tools, job));
    LaneOne(Vacant, StartEvent(job.call));
    LaneBody(tools, job);
    LaneConcat(Vacant, [StartEvent(job.call)] + Body(tools, job), Bracket(m));
    LaneConcat(Vacant, [StartEvent(job.call)], Body(tools, job));
    LaneConcat(Finished(job.call.id), [Emit(MessageStart(m))], [Emit(MessageEnd(m))]);
    LaneOne(Finished(job.call.id), Emit(MessageStart(m)));
    LaneOne(Finished(job.call.id), Emit(MessageEnd(m)));
    assert Bracket(m) == [Emit(MessageStart(m))] + [Emit(MessageEnd(m))];
  }

  lemma {:induction false} LaneSequential(tools: seq<Tool>, jobs: seq<Job>)
    ensures LaneAfter(Vacant, SequentialLog(tools, jobs)) == Vacant
  {
    if jobs != [] {
      LaneCall(tools, jobs[0]);
      LaneSequential(tools, jobs[1..]);
      LaneConcat(Vacant, CallLog(tools, jobs[0]), SequentialLog(tools, jobs[1..]));
    }
  }

  /** Along a lane at most the occupant is pending. */
  lemma {:induction false} LanePending(v: View, lane: Lane, log: Log)
    requires v.pendingToolCalls == (if lane.Occupied? then {lane.id} else {}) && !lane.Jammed?
    requires !LaneAfter(lane, log).Jammed?
    ensures var after := LaneAfter(lane, log);
      ReduceLog(v, log).pendingToolCalls == if after.Occupied? then {after.id} else {}
    decreases |log|
  {
    if log != [] {
      var next := LaneStep(lane, log[0]);
      if next.Jammed? {
        JammedForever(log[1..]);
      }
      LanePending(ReduceEntry(v, log[0]), next, log[1..]);
    }
  }

  lemma {:induction false} LaneGuarantees(v: View, log: Log, k: nat)
    requires v.pendingToolCalls == {} && k <= |log| && !LaneAfter(Vacant, log).Jammed?
    ensures |ReduceLog(v, log[..k]).pendingToolCalls| <= 1
    ensures k < |log| && log[k].Emit? && log[k].event.ToolStart? ==> LaneAfter(Vacant, log[..k]) == Vacant
  {
    LanePrefix(log, k);
    LanePending(v, Vacant, log[..k]);
  }

  /** A lane that is never jammed is not jammed on the way. */
  lemma {:induction false} LanePrefix(log: Log, k: nat)
    requires k <= |log| && !LaneAfter(Vacant, log).Jammed?
    ensures !LaneAfter(Vacant, log[..k]).Jammed?
    ensures k < |log| ==> !LaneStep(LaneAfter(Vacant, log[..k]), log[k]).Jammed?
  {
    assert log == log[..k] + log[k..];
    LaneConcat(Vacant, log[..k], log[k..]);
    var lane := LaneAfter(Vacant, log[..k]);
    if lane.Jammed? {
      JammedForever(log[k..]);
    } else if k < |log| {
      assert LaneAfter(lane, log[k..]) == LaneAfter(LaneStep(lane, log[k]), log[k..][1..]);
      if LaneStep(lane, log[k]).Jammed? {
        JammedForever(log[k..][1..]);
      }
    }
  }

  /** When a call of a sequential batch starts, the results announced so far are exactly
      those of all the calls before it. */
  lemma {:induction false} StartsAfterResults(tools: seq<Tool>, jobs: seq<Job>, k: nat)
    requires k < |SequentialLog(tools, jobs)| && IsToolStart(SequentialLog(tools, jobs)[k])
    ensures Due(tools, jobs, SequentialLog(tools, jobs)[k], Ended(SequentialLog(tools, jobs)[..k]))
    decreases |jobs|
  {
    var first, rest := CallLog(tools, jobs[0]), SequentialLog(tools, jobs[1..]);
    if k < |first| {
      CallStartsOnce(tools, jobs[0]);
      assert k == 0 && SequentialLog(tools, jobs)[..0] == [];
    } else {
      var j := k - |first|;
      Beyond(first, rest, k);
      StartsAfterResults(tools, jobs[1..], j);
      CallEnded(tools, jobs[0]);
      EndedConcat(first, rest[..j]);
      DueLater(tools, jobs, rest[j], Ended(rest[..j]));
    }
  }

  /** The entry starts a call, and the messages are the results of all the calls before it. */
  predicate Due(tools: seq<Tool>, jobs: seq<Job>, e: Entry, announced: seq<Message>) {
    && |announced| < |jobs| && e == StartEvent(jobs[|announced|].call)
    && announced == ResultMessages(OutcomesOf(tools, jobs))[..|announced|]
  }

  lemma {:induction false} DueLater(tools: seq<Tool>, jobs: seq<Job>, e: Entry, announced: seq<Message>)
    requires jobs != [] && Due(tools, jobs[1..], e, announced)
    ensures Due(tools, jobs, e, [ResultMessage(OutcomeOf(tools, jobs[0]))] + announced)
  {
    ResultsPrefix(tools, jobs, |announced|);
  }

  lemma {:induction false} Beyond(first: Log, rest: Log, k: nat)
    requires |first| <= k < |first + rest|
    ensures (first + rest)[k] == rest[k - |first|]
    ensures (first + rest)[..k] == first + rest[..k - |first|]
  {
  }

  predicate IsToolStart(e: Entry) {
    e.Emit? && e.event.ToolStart?
  }

  lemma {:induction false} CallStartsOnce(tools: seq<Tool>, job: Job)
    ensures forall k :: 0 < k < |CallLog(tools, job)| ==> !IsToolStart(CallLog(tools, job)[k])
  {
    var body, report := Body(tools, job), Bracket(ResultMessage(OutcomeOf(tools, job)));
    forall k | 0 < k < |CallLog(tools, job)|
      ensures !IsToolStart(CallLog(tools, job)[k])
    {
      assert CallLog(tools, job)[k] == if k <= |body| then body[k - 1] else report[k - 1 - |body|];
    }
  }

  lemma {:induction false} ResultsPrefix(tools: seq<Tool>, jobs: seq<Job>, m: nat)
    requires jobs != [] && m < |jobs|
    ensures [ResultMessage(OutcomeOf(tools, jobs[0]))] + ResultMessages(OutcomesOf(tools, jobs[1..]))[..m]
      == ResultMessages(OutcomesOf(tools, jobs))[..m + 1]
  {
    OutcomesCons(tools, jobs);
    ConsPrefix(ResultMessage(OutcomeOf(tools, jobs[0])), ResultMessages(OutcomesOf(tools, jobs[1..])), m);
  }

  lemma {:induction false} ConsPrefix<T>(x: T, xs: seq<T>, m: nat)
    requires m <= |xs|
    ensures [x] + xs[..m] == ([x] + xs)[..m + 1]
  {
  }

  // ---- every batch leaves nothing pending ----

  /** The calls that a parallel batch has still to end. */
  function OpenFibers(fibers: seq<Fiber>): set<string> {
    set i | 0 <= i < |fibers| && !fibers[i].Done? :: fibers[i].job.call.id
  }

  lemma {:induction false} MergeSettles(v: View, fibers: seq<Fiber>, schedule: seq<nat>)
    requires v.pendingToolCalls <= OpenFibers(fibers)
    ensures ReduceLog(v, Merge(fibers, schedule)).pendingToolCalls == {}
    decreases TotalLeft(fibers)
  {
    if !AllDone(fibers) {
      var k := Pick(fibers, schedule);
      var next := fibers[k := Advance(fibers[k])];
      var e := NextEntry(fibers[k]);
      Progress(fibers, k);
      MoveKeepsOpen(v, fibers, k);
      MergeSettles(ReduceEntry(v, e), next, Tail(schedule));
      assert Merge(fibers, schedule)[1..] == Merge(next, Tail(schedule));
    }
  }

  lemma {:induction false} MoveKeepsOpen(v: View, fibers: seq<Fiber>, k: nat)
    requires k < |fibers| && !fibers[k].Done? && v.pendingToolCalls <= OpenFibers(fibers)
    ensures ReduceEntry(v, NextEntry(fibers[k])).pendingToolCalls <= OpenFibers(fibers[k := Advance(fibers[k])])
  {
    var next := fibers[k := Advance(fibers[k])];
    forall id | id in ReduceEntry(v, NextEntry(fibers[k])).pendingToolCalls
      ensures id in OpenFibers(next)
    {
      var i :| 0 <= i < |fibers| && !fibers[i].Done? && fibers[i].job.call.id == id;
      assert !next[i].Done? && next[i].job == fibers[i].job;
    }
  }

  lemma {:induction false} PrepareOpens(v: View, tools: seq<Tool>, jobs: seq<Job>, known: set<string>)
    requires v.pendingToolCalls <= known
    ensures ReduceLog(v, PrepareLog(tools, jobs)).pendingToolCalls <= known + OpenFibers(FibersOf(tools, jobs))
    decreases |jobs|
  {
    if jobs != [] {
      var first := [StartEvent(jobs[0].call)]
        + if PrepareToolCall(tools, jobs[0]).Immediate? then [EndEvent(OutcomeOf(tools, jobs[0]))] else [];
      var mine := if PrepareToolCall(tools, jobs[0]).Immediate? then {} else {jobs[0].call.id};
      ReduceConcat(v, first, PrepareLog(tools, jobs[1..]));
      ReduceConcat(v, [StartEvent(jobs[0].call)], first[1..]);
      assert first == [StartEvent(jobs[0].call)] + first[1..];
      var next := ReduceLog(v, first);
      assert next.pendingToolCalls <= known + mine;
      PrepareOpens(next, tools, jobs[1..], known + mine);
      OpenTail(tools, jobs);
    }
  }

  lemma {:induction false} OpenTail(tools: seq<Tool>, jobs: seq<Job>)
    requires jobs != []
    ensures OpenFibers(FibersOf(tools, jobs[1..])) <= OpenFibers(FibersOf(tools, jobs))
    ensures PrepareToolCall(tools, jobs[0]).Prepared? ==> jobs[0].call.id in OpenFibers(FibersOf(tools, jobs))
  {
    var fibers, rest := FibersOf(tools, jobs), FibersOf(tools, jobs[1..]);
    forall id | id in OpenFibers(rest)
      ensures id in OpenFibers(fibers)
    {
      var i :| 0 <= i < |rest| && !rest[i].Done? && rest[i].job.call.id == id;
      assert fibers[i + 1] == rest[i];
    }
    assert fibers[0] == FiberOf(tools, jobs[0]);
  }

  /** Entries that neither start nor end a call. */
  predicate Calm(log: Log) {
    forall e :: e in log ==> !IsToolStart(e) && !IsToolEnd(e)
  }

  lemma {:induction false} CalmPending(v: View, log: Log)
    requires Calm(log)
    ensures ReduceLog(v, log).pendingToolCalls == v.pendingToolCalls
    decreases |log|
  {
    if log != [] {
      assert log[0] in log && forall e :: e in log[1..] ==> e in log;
      CalmPending(ReduceEntry(v, log[0]), log[1..]);
    }
  }

  lemma {:induction false} ParallelSettles(v: View, tools: seq<Tool>, jobs: seq<Job>, schedule: seq<nat>)
    requires v.pendingToolCalls == {}
    ensures ReduceLog(v, ParallelLog(tools, jobs, schedule)).pendingToolCalls == {}
  {
    var prepare, merge := PrepareLog(tools, jobs), Merge(FibersOf(tools, jobs), schedule);
    var reports := Brackets(ResultMessages(OutcomesOf(tools, jobs)));
    PrepareOpens(v, tools, jobs, {});
    ReduceConcat(v, prepare, merge);
    MergeSettles(ReduceLog(v, prepare), FibersOf(tools, jobs), schedule);
    ReduceConcat(v, prepare + merge, reports);
    BracketsShape(ResultMessages(OutcomesOf(tools, jobs)));
    CalmPending(ReduceLog(v, prepare + merge), reports);
  }

  lemma {:induction false} BatchSettles(v: View, s: LoopState, t: TurnScript)
    requires v.pendingToolCalls == {}
    ensures ReduceLog(v, BatchPart(s, t)).pendingToolCalls == {}
  {
    var jobs := Reached(Jobs(t));
    if !t.stream.result.Failed() {
      if RunsSequentially(s.context.tools, s.config, t.stream.result.ToolCalls()) {
        LaneSequential(s.context.tools, jobs);
        LanePending(v, Vacant, SequentialLog(s.context.tools, jobs));
      } else {
        ParallelSettles(v, s.context.tools, jobs, t.schedule);
      }
    }
  }

  // ---- one turn ----

  /** The turn's calls, if any, are processed one after the other. */
  predicate OneByOne(s: LoopState, t: TurnScript) {
    t.stream.result.Failed() || RunsSequentially(s.context.tools, s.config, t.stream.result.ToolCalls())
  }

  /** A log in three parts of which only the middle one is about calls. */
  lemma {:induction false} PartsPending(v: View, opening: Log, batch: Log, closing: Log, j: nat)
    requires v.pendingToolCalls == {} && Calm(opening) && Calm(closing) && LaneAfter(Vacant, batch) == Vacant
    requires j <= |opening + batch + closing|
    ensures |ReduceLog(v, (opening + batch + closing)[..j]).pendingToolCalls| <= 1
  {
    var log := opening + batch + closing;
    if j <= |opening| {
      assert log[..j] == opening[..j] && Calm(opening[..j]);
      CalmPending(v, opening[..j]);
    } else {
      var w := ReduceLog(v, opening);
      CalmPending(v, opening);
      if j <= |opening + batch| {
        var i := j - |opening|;
        assert log[..j] == opening + batch[..i];
        ReduceConcat(v, opening, batch[..i]);
        LaneGuarantees(w, batch, i);
      } else {
        var i := j - |opening + batch|;
        assert log[..j] == (opening + batch) + closing[..i] && Calm(closing[..i]);
        ReduceConcat(v, opening + batch, closing[..i]);
        ReduceConcat(v, opening, batch);
        LanePending(w, Vacant, batch);
        CalmPending(ReduceLog(v, opening + batch), closing[..i]);
      }
    }
  }

  lemma {:induction false} TurnParts(s: LoopState, t: TurnScript) returns (closing: Log)
    ensures Turn(s, t).log == s.log + (Opening(s, t) + BatchPart(s, t) + closing)
    ensures Calm(Opening(s, t)) && Calm(closing)
  {
    var rest := TurnLog(s, t);
    var end := if Closes(t) then [Emit(AgentEnd(Turn(s, t).newMessages))] else [];
    closing := rest + end;
    OpeningCalm(s, t);
    ClosingCalm(rest, end);
    FiveParts(s.log, Opening(s, t), BatchPart(s, t), rest, end, Turn(s, t).log);
  }

  lemma {:induction false} OpeningCalm(s: LoopState, t: TurnScript)
    ensures Calm(Opening(s, t))
  {
    OpeningShape(s, t);
  }

  lemma {:induction false} ClosingCalm(rest: Log, end: Log)
    requires forall e :: e in rest ==> e.Poll? || IsTurnEnd(e)
    requires forall e :: e in end ==> e.Emit? && e.event.AgentEnd?
    ensures Calm(rest + end)
  {
  }

  lemma {:induction false} FiveParts(a: Log, b: Log, c: Log, d: Log, e: Log, log: Log)
    requires log == a + b + c + d + e
    ensures log == a + (b + c + (d + e))
  {
  }

  lemma {:induction false} TurnSettles(v: View, s: LoopState, t: TurnScript)
    requires ReduceLog(v, s.log).pendingToolCalls == {}
    ensures ReduceLog(v, Turn(s, t).log).pendingToolCalls == {}
  {
    var closing := TurnParts(s, t);
    SettledParts(v, s.log, Opening(s, t), BatchPart(s, t), closing);
    var w := ReduceLog(ReduceLog(v, s.log), Opening(s, t));
    CalmPending(ReduceLog(v, s.log), Opening(s, t));
    BatchSettles(w, s, t);
  }

  lemma {:induction false} SettledParts(v: View, before: Log, opening: Log, batch: Log, closing: Log)
    requires Calm(closing)
    ensures ReduceLog(v, before + (opening + batch + closing)).pendingToolCalls
      == ReduceLog(ReduceLog(ReduceLog(v, before), opening), batch).pendingToolCalls
  {
    var w := ReduceLog(v, before);
    ReduceConcat(v, before, opening + batch + closing);
    ReduceConcat(w, opening + batch, closing);
    ReduceConcat(w, opening, batch);
    CalmPending(ReduceLog(w, opening + batch), closing);
  }

  lemma {:induction false} BatchLane(s: LoopState, t: TurnScript)
    requires OneByOne(s, t)
    ensures LaneAfter(Vacant, BatchPart(s, t)) == Vacant
  {
    LaneSequential(s.context.tools, Reached(Jobs(t)));
  }

  lemma {:induction false} TurnExclusion(v: View, s: LoopState, t: TurnScript, k: nat)
    requires ReduceLog(v, s.log).pendingToolCalls == {} && OneByOne(s, t) && |s.log| <= k <= |Turn(s, t).log|
    ensures |ReduceLog(v, Turn(s, t).log[..k]).pendingToolCalls| <= 1
  {
    var closing := TurnParts(s, t);
    BatchLane(s, t);
    var added := Opening(s, t) + BatchPart(s, t) + closing;
    PrefixOf(s.log, added, k);
    ReduceConcat(v, s.log, added[..k - |s.log|]);
    PartsPending(ReduceLog(v, s.log), Opening(s, t), BatchPart(s, t), closing, k - |s.log|);
  }

  lemma {:induction false} PrefixOf(before: Log, added: Log, k: nat)
    requires |before| <= k <= |before + added|
    ensures (before + added)[..k] == before + added[..k - |before|]
  {
  }

  /** In the same turn, a call starts only after the results of all the calls before it. */
  lemma {:induction false} TurnStarts(s: LoopState, t: TurnScript, opening: Log, batch: Log, closing: Log, log: Log, k: nat)
    requires |opening| == |Opening(s, t)| && Calm(opening) && Calm(closing)
    requires AllAnswered(t.stream.result.ToolCalls(), TurnResults(s, t), batch)
    requires s.log + (opening + batch + closing) <= log
    requires |s.log| <= k < |s.log + (opening + batch + closing)| && IsToolStart(log[k])
    ensures CallDue(s, t, log, k)
  {
    DueAt(t.stream.result.ToolCalls(), TurnResults(s, t), s.log, opening, batch, closing, log, |s.log| + |Opening(s, t)|, k);
  }

  lemma {:induction false} AnsweredParts(s: LoopState, t: TurnScript) returns (opening: Log, batch: Log, closing: Log)
    requires OneByOne(s, t)
    ensures Turn(s, t).log == s.log + (opening + batch + closing) && |opening| == |Opening(s, t)|
    ensures Calm(opening) && Calm(closing) && AllAnswered(t.stream.result.ToolCalls(), TurnResults(s, t), batch)
  {
    opening, batch := Opening(s, t), BatchPart(s, t);
    closing := TurnParts(s, t);
    BatchAnswered(s, t);
  }

  lemma {:induction false} DueAt(
    calls: seq<ToolCall>, results: seq<Message>, before: Log, opening: Log, batch: Log, closing: Log, log: Log,
    at: nat, k: nat)
    requires before + (opening + batch + closing) <= log && at == |before| + |opening| && Calm(opening) && Calm(closing)
    requires |before| <= k < |before + (opening + batch + closing)| && IsToolStart(log[k]) && AllAnswered(calls, results, batch)
    ensures at <= k && NextCall(calls, results, Ended(log[at..k])) == Some(log[k])
  {
    var turn := before + (opening + batch + closing);
    InBatch(before, opening, batch, closing, turn, k);
    assert log[at..k] == turn[at..k];
  }

  lemma {:induction false} BatchAnswered(s: LoopState, t: TurnScript)
    requires OneByOne(s, t)
    ensures AllAnswered(t.stream.result.ToolCalls(), TurnResults(s, t), BatchPart(s, t))
  {
    var batch := BatchPart(s, t);
    ReachedExact(Jobs(t));
    forall j | 0 <= j < |batch| && IsToolStart(batch[j])
      ensures NextCall(t.stream.result.ToolCalls(), TurnResults(s, t), Ended(batch[..j])) == Some(batch[j])
    {
      StartsAfterResults(s.context.tools, Reached(Jobs(t)), j);
    }
  }

  /** The entry starts the turn's next call, and the results announced in the turn's batch
      so far are exactly those of all the calls before it. */
  predicate CallDue(s: LoopState, t: TurnScript, log: Log, k: nat)
    requires k < |log|
  {
    var at := |s.log| + |Opening(s, t)|;
    at <= k && NextCall(t.stream.result.ToolCalls(), TurnResults(s, t), Ended(log[at..k])) == Some(log[k])
  }

  /** The call that may start when exactly these results have been announced: the first
      one without a result, if they are the results of all the calls before it. */
  function NextCall(calls: seq<ToolCall>, results: seq<Message>, announced: seq<Message>): Option<Entry> {
    var m := |announced|;
    if m < |results| <= |calls| && announced == results[..m] then Some(StartEvent(calls[m])) else None
  }

  predicate AllAnswered(calls: seq<ToolCall>, results: seq<Message>, batch: Log) {
    forall j :: 0 <= j < |batch| && IsToolStart(batch[j]) ==> NextCall(calls, results, Ended(batch[..j])) == Some(batch[j])
  }

  lemma {:induction false} InBatch(before: Log, opening: Log, batch: Log, closing: Log, log: Log, k: nat)
    requires log == before + (opening + batch + closing) && Calm(opening) && Calm(closing)
    requires |before| <= k < |log| && IsToolStart(log[k])
    ensures var at := |before| + |opening|;
      && at <= k < at + |batch| && log[k] == batch[k - at] && log[at..k] == batch[..k - at]
  {
    var at := |before| + |opening|;
    assert forall j :: |before| <= j < at ==> log[j] == opening[j - |before|] && log[j] in opening;
    assert forall j :: at + |batch| <= j < |log| ==> log[j] == closing[j - at - |batch|] && log[j] in closing;
  }

  // ---- which batches are sequential ----

  /** Of the tools with this name, the k-th is the first. */
  predicate FirstNamed(tools: seq<Tool>, name: string, k: nat)
    requires k < |tools|
  {
    tools[k].name == name && forall j :: 0 <= j < k ==> tools[j].name != name
  }

  predicate HitsSequentialTool(tools: seq<Tool>, call: ToolCall) {
    exists k: nat :: k < |tools| && FirstNamed(tools, call.name, k) && tools[k].mode == Some(ExecutionMode.Sequential)
  }

  /** The configuration is sequential, or some call of the reply is for a sequential tool. */
  predicate MustNotOverlap(s: LoopState, t: TurnScript) {
    || s.config.toolExecution == ExecutionMode.Sequential
    || exists i :: 0 <= i < |t.stream.result.ToolCalls()| && HitsSequentialTool(s.context.tools, t.stream.result.ToolCalls()[i])
  }

  lemma {:induction false} HitsExactly(tools: seq<Tool>, call: ToolCall)
    ensures HitsSequentialTool(tools, call) <==> IsSequentialTool(tools, call.name)
  {
    if FindTool(tools, call.name).Some? {
      var k := FirstIndex(tools, call.name);
      FirstToolFound(tools, call.name, k);
      assert FirstNamed(tools, call.name, k);
      forall j: nat | j < |tools| && FirstNamed(tools, call.name, j)
        ensures FindTool(tools, call.name) == Some(tools[j])
      {
        FirstToolFound(tools, call.name, j);
      }
    }
  }

  lemma {:induction false} FirstIndex(tools: seq<Tool>, name: string) returns (k: nat)
    requires exists t :: t in tools && t.name == name
    ensures k < |tools| && FirstNamed(tools, name, k)
    decreases |tools|
  {
    if tools[0].name == name {
      k := 0;
    } else {
      k := FirstIndex(tools[1..], name);
      k := k + 1;
      assert forall j :: 0 < j < k ==> tools[j] == tools[1..][j - 1];
    }
  }

  /** The dispatch is exactly this. */
  lemma {:induction false} DispatchExact(s: LoopState, t: TurnScript)
    ensures MustNotOverlap(s, t) <==> RunsSequentially(s.context.tools, s.config, t.stream.result.ToolCalls())
  {
    var calls := t.stream.result.ToolCalls();
    forall i | 0 <= i < |calls|
      ensures HitsSequentialTool(s.context.tools, calls[i]) <==> IsSequentialTool(s.context.tools, calls[i].name)
    {
      HitsExactly(s.context.tools, calls[i]);
    }
  }

  /** The converse of exclusion: where nothing asks for it, every call the batch gets to is
      started and prepared before any of them executes. The log is that of any run which
      takes this turn. */
  lemma {:induction false} OtherwiseParallel(s: LoopState, t: TurnScript, log: Log)
    requires !t.stream.result.Failed() && !MustNotOverlap(s, t) && Turn(s, t).log <= log
    ensures ComesNext(log, BatchStart(s, t), PrepareLog(s.context.tools, Reached(Jobs(t))))
  {
    var opening, batch, closing := PreparedParts(s, t);
    PrefixInside(s.log, opening, batch, closing, PrepareLog(s.context.tools, Reached(Jobs(t))), BatchStart(s, t), log);
  }

  lemma {:induction false} PreparedParts(s: LoopState, t: TurnScript) returns (opening: Log, batch: Log, closing: Log)
    requires !t.stream.result.Failed() && !MustNotOverlap(s, t)
    ensures Turn(s, t).log == s.log + (opening + batch + closing) && BatchStart(s, t) == |s.log| + |opening|
    ensures PrepareLog(s.context.tools, Reached(Jobs(t))) <= batch
  {
    opening, batch := Opening(s, t), BatchPart(s, t);
    closing := TurnParts(s, t);
    ParallelBatch(s, t);
  }

  lemma {:induction false} ParallelBatch(s: LoopState, t: TurnScript)
    requires !t.stream.result.Failed() && !MustNotOverlap(s, t)
    ensures PrepareLog(s.context.tools, Reached(Jobs(t))) <= BatchPart(s, t)
  {
    DispatchExact(s, t);
    var jobs := Reached(Jobs(t));
    Assoc(PrepareLog(s.context.tools, jobs), Merge(FibersOf(s.context.tools, jobs), t.schedule),
          Brackets(ResultMessages(OutcomesOf(s.context.tools, jobs))));
  }

  /** The point in the log at which the turn's batch starts. */
  function BatchStart(s: LoopState, t: TurnScript): nat {
    |s.log| + |Opening(s, t)|
  }

  predicate ComesNext(log: Log, at: nat, part: Log) {
    at + |part| <= |log| && log[at..at + |part|] == part
  }

  lemma {:induction false} PrefixInside(before: Log, opening: Log, batch: Log, closing: Log, part: Log, at: nat, log: Log)
    requires before + (opening + batch + closing) <= log && part <= batch && at == |before| + |opening|
    ensures ComesNext(log, at, part)
  {
    var turn := before + (opening + batch + closing);
    assert turn[at..at + |part|] == part;
    assert log[at..at + |part|] == turn[at..at + |part|];
  }

  /** With two cleared calls in such a batch, both are pending at once. */
  lemma {:induction false} ParallelOverlaps(v: View, tools: seq<Tool>, jobs: seq<Job>, i: nat)
    requires DistinctIds(jobs) && i < |jobs| && Cleared(tools, jobs[i])
    ensures jobs[i].call.id in ReduceLog(v, PrepareLog(tools, jobs)).pendingToolCalls
    decreases |jobs|
  {
    var first := [StartEvent(jobs[0].call)]
      + if PrepareToolCall(tools, jobs[0]).Immediate? then [EndEvent(OutcomeOf(tools, jobs[0]))] else [];
    ReduceConcat(v, first, PrepareLog(tools, jobs[1..]));
    DistinctTail(jobs);
    if i == 0 {
      PreparationExact(tools, jobs[0]);
      assert first[1..] == [];
      StaysPending(ReduceLog(v, first), tools, jobs[1..], jobs[0].call.id);
    } else {
      ParallelOverlaps(ReduceLog(v, first), tools, jobs[1..], i - 1);
    }
  }

  /** So in a turn with nothing to prevent it, all cleared calls are pending at once. */
  lemma {:induction false} OtherwiseOverlaps(v: View, s: LoopState, t: TurnScript, log: Log, i: nat)
    requires !t.stream.result.Failed() && !MustNotOverlap(s, t) && DistinctCalls(t) && Turn(s, t).log <= log
    requires i < |Reached(Jobs(t))| && Cleared(s.context.tools, Reached(Jobs(t))[i])
    ensures PendingOnce(v, log, AllPrepared(s, t), Reached(Jobs(t))[i].call.id)
  {
    OtherwiseParallel(s, t, log);
    ReachedCalls(t);
    OverlapsFrom(v, log, BatchStart(s, t), AllPrepared(s, t), s.context.tools, Reached(Jobs(t)), i);
  }

  /** The point in the log at which a parallel batch has prepared its last call. */
  function AllPrepared(s: LoopState, t: TurnScript): nat {
    BatchStart(s, t) + |PrepareLog(s.context.tools, Reached(Jobs(t)))|
  }

  predicate PendingOnce(v: View, log: Log, k: nat, id: string) {
    k <= |log| && id in ReduceLog(v, log[..k]).pendingToolCalls
  }

  lemma {:induction false} OverlapsFrom(v: View, log: Log, at: nat, k: nat, tools: seq<Tool>, jobs: seq<Job>, i: nat)
    requires ComesNext(log, at, PrepareLog(tools, jobs))
    requires DistinctIds(jobs) && i < |jobs| && Cleared(tools, jobs[i]) && k == at + |PrepareLog(tools, jobs)|
    ensures PendingOnce(v, log, k, jobs[i].call.id)
  {
    var prepare := PrepareLog(tools, jobs);
    FirstParts(log, at, prepare);
    ReduceConcat(v, log[..at], prepare);
    ParallelOverlaps(ReduceLog(v, log[..at]), tools, jobs, i);
  }

  lemma {:induction false} FirstParts(log: Log, at: nat, prepare: Log)
    requires ComesNext(log, at, prepare)
    ensures at + |prepare| <= |log| && log[..at + |prepare|] == log[..at] + prepare
  {
    assert log[at..at + |prepare|] == prepare;
  }

  lemma {:induction false} StaysPending(v: View, tools: seq<Tool>, jobs: seq<Job>, id: string)
    requires id in v.pendingToolCalls && forall i :: 0 <= i < |jobs| ==> jobs[i].call.id != id
    ensures id in ReduceLog(v, PrepareLog(tools, jobs)).pendingToolCalls
    decreases |jobs|
  {
    if jobs != [] {
      var start := [StartEvent(jobs[0].call)];
      var end := if PrepareToolCall(tools, jobs[0]).Immediate? then [EndEvent(OutcomeOf(tools, jobs[0]))] else [];
      ReduceConcat(v, start + end, PrepareLog(tools, jobs[1..]));
      ReduceConcat(v, start, end);
      assert start[1..] == [] && (end != [] ==> end[1..] == []);
      StaysPending(ReduceLog(v, start + end), tools, jobs[1..], id);
    }
  }

  // ---- whole runs ----

  lemma {:induction false} StartSettled(
    v: View, prompts: seq<Message>, context: AgentContext, config: Config, queues: Queues, skipPoll: bool, actions: seq<QueueAction>, k: nat)
    requires v.pendingToolCalls == {} && k <= |Start(prompts, context, config, queues, skipPoll, actions).log|
    ensures ReduceLog(v, Start(prompts, context, config, queues, skipPoll, actions).log[..k]).pendingToolCalls == {}
  {
    var log := Start(prompts, context, config, queues, skipPoll, actions).log;
    BracketsShape(prompts);
    assert Calm(log);
    CalmPending(v, log[..k]);
  }

  /** Between two turns no call is pending. */
  lemma {:induction false} RunSettles(v: View, s: LoopState, script: seq<TurnScript>)
    requires ReduceLog(v, s.log).pendingToolCalls == {}
    ensures ReduceLog(v, Run(s, script).log).pendingToolCalls == {}
    decreases |script|
  {
    if s.exit == Running && script != [] {
      TurnSettles(v, s, script[0]);
      RunSettles(v, Turn(s, script[0]), script[1..]);
    }
  }

  /** The i-th turn of a run. */
  lemma {:induction false} RunAt(s: LoopState, script: seq<TurnScript>, i: nat)
    requires i < |script| && Run(s, script[..i]).exit == Running
    ensures Turn(Run(s, script[..i]), script[i]).log <= Run(s, script).log
  {
    var before, rest := Run(s, script[..i]), script[i..];
    assert script == script[..i] + rest;
    RunConcat(s, script[..i], rest);
    TurnFirst(before, rest);
  }

  lemma {:induction false} TurnFirst(s: LoopState, script: seq<TurnScript>)
    requires s.exit == Running && script != []
    ensures Turn(s, script[0]).log <= Run(s, script).log
  {
    RunAppends(Turn(s, script[0]), script[1..]);
  }

  /** Sequential exclusion: in every reachable state of every turn whose batch runs
      sequentially, by configuration or because one of the tools called is sequential, at
      most one call has started and not ended; and a call starts only after the results of
      all the calls before it have been announced. Other turns may be parallel. */
  lemma {:induction false} SequentialExclusion(
    v: View, prompts: seq<Message>, context: AgentContext, config: Config, queues: Queues, skipPoll: bool,
    actions: seq<QueueAction>, script: seq<TurnScript>, i: nat, k: nat)
    requires v.pendingToolCalls == {} && i < |script|
    requires var before := Run(Start(prompts, context, config, queues, skipPoll, actions), script[..i]);
      && before.exit == Running && (script[i].stream.result.Failed() || MustNotOverlap(before, script[i]))
      && |before.log| <= k <= |Turn(before, script[i]).log|
    ensures var s := Start(prompts, context, config, queues, skipPoll, actions);
      var before := Run(s, script[..i]);
      var log := Run(s, script).log;
      Turn(before, script[i]).log <= log && Excludes(v, before, script[i], log, k)
  {
    var s := Start(prompts, context, config, queues, skipPoll, actions);
    StartSettled(v, prompts, context, config, queues, skipPoll, actions, |s.log|);
    assert s.log[..|s.log|] == s.log;
    RunSettles(v, s, script[..i]);
    RunAt(s, script, i);
    DispatchExact(Run(s, script[..i]), script[i]);
    ExclusionAt(v, Run(s, script[..i]), script[i], Run(s, script).log, k);
  }

  /** After `k` entries at most one call is pending, and if the next entry starts a call,
      that call is due. */
  predicate Excludes(v: View, s: LoopState, t: TurnScript, log: Log, k: nat)
    requires k <= |log|
  {
    && |ReduceLog(v, log[..k]).pendingToolCalls| <= 1
    && (k < |log| && k < |Turn(s, t).log| && IsToolStart(log[k]) ==> CallDue(s, t, log, k))
  }

  lemma {:induction false} ExclusionAt(v: View, s: LoopState, t: TurnScript, log: Log, k: nat)
    requires ReduceLog(v, s.log).pendingToolCalls == {} && OneByOne(s, t)
    requires |s.log| <= k <= |Turn(s, t).log| && Turn(s, t).log <= log
    ensures Excludes(v, s, t, log, k)
  {
    TurnExclusion(v, s, t, k);
    assert log[..k] == Turn(s, t).log[..k];
    if k < |Turn(s, t).log| && IsToolStart(log[k]) {
      var opening, batch, closing := AnsweredParts(s, t);
      TurnStarts(s, t, opening, batch, closing, log, k);
    }
  }

  /** Every turn the run takes processes its calls one by one. */
  predicate AllOneByOne(s: LoopState, script: seq<TurnScript>)
    decreases |script|
  {
    s.exit != Running || script == [] || (OneByOne(s, script[0]) && AllOneByOne(Turn(s, script[0]), script[1..]))
  }

  lemma {:induction false} RunExclusion(v: View, s: LoopState, script: seq<TurnScript>, k: nat)
    requires ReduceLog(v, s.log).pendingToolCalls == {} && AllOneByOne(s, script) && |s.log| <= k <= |Run(s, script).log|
    ensures |ReduceLog(v, Run(s, script).log[..k]).pendingToolCalls| <= 1
    decreases |script|
  {
    var log := Run(s, script).log;
    if s.exit != Running || script == [] {
      assert log[..k] == s.log;
    } else {
      var s' := Turn(s, script[0]);
      RunAppends(s', script[1..]);
      if k <= |s'.log| {
        ExclusionAt(v, s, script[0], log, k);
      } else {
        TurnSettles(v, s, script[0]);
        RunExclusion(v, s', script[1..], k);
      }
    }
  }

  /** The execution mode of the configuration never changes. */
  lemma {:induction false} ModeStays(s: LoopState, t: TurnScript)
    ensures Turn(s, t).config.toolExecution == s.config.toolExecution
  {
    if !Closes(t) {
      TurnPrepares(s, t);
    }
  }

  lemma {:induction false} SequentialStays(s: LoopState, script: seq<TurnScript>)
    requires s.config.toolExecution.Sequential?
    ensures AllOneByOne(s, script)
    decreases |script|
  {
    if s.exit == Running && script != [] {
      ModeStays(s, script[0]);
      SequentialStays(Turn(s, script[0]), script[1..]);
    }
  }

  /** Under a sequential configuration at most one call is pending in every reachable
      state of every run. */
  lemma {:induction false} SequentialConfiguration(
    v: View, prompts: seq<Message>, context: AgentContext, config: Config, queues: Queues, skipPoll: bool,
    actions: seq<QueueAction>, script: seq<TurnScript>, k: nat)
    requires v.pendingToolCalls == {} && config.toolExecution.Sequential?
    requires k <= |Run(Start(prompts, context, config, queues, skipPoll, actions), script).log|
    ensures var log := Run(Start(prompts, context, config, queues, skipPoll, actions), script).log;
      |ReduceLog(v, log[..k]).pendingToolCalls| <= 1
  {
    var s := Start(prompts, context, config, queues, skipPoll, actions);
    RunAppends(s, script);
    if k < |s.log| {
      StartSettled(v, prompts, context, config, queues, skipPoll, actions, k);
      assert Run(s, script).log[..k] == s.log[..k];
    } else {
      StartSettled(v, prompts, context, config, queues, skipPoll, actions, |s.log|);
      assert s.log[..|s.log|] == s.log;
      SequentialStays(s, script);
      RunExclusion(v, s, script, k);
    }
  }
}
