/** Both ways of running a batch follow the protocol. */
module BatchProtocol {
  import opened Messages
  import opened ToolCalls
  import opened Protocol
  import opened Batch

  /** The jobs are the calls of the reply, in source order, from position `from`. */
  ghost predicate Requests(reply: AssistantMessage, from: nat, jobs: seq<Job>) {
    && from + |jobs| <= |reply.ToolCalls()|
    && forall i :: 0 <= i < |jobs| ==> reply.ToolCalls()[from + i] == jobs[i].call
  }

  function Settle(w: Work, f: Finalized): Work {
    w.(open := w.open - {f.call.id},
       outcomes := w.outcomes[f.call.id := Outcome(f.result, f.isError)],
       unanimous := w.unanimous && AsksToTerminate(f))
  }

  ghost predicate Unanimous(outcomes: seq<Finalized>) {
    forall i :: 0 <= i < |outcomes| ==> AsksToTerminate(outcomes[i])
  }

  // ---- one call ----

  lemma {:induction false} UpdatesAccepted(q: Monitor, w: Work, call: ToolCall, updates: seq<ToolOutcome>)
    requires q.phase == Working(w)
    requires call.id in w.open && w.open[call.id] == OpenCall(call, true)
    ensures After(q, UpdateEvents(call, updates)) == q
    decreases |updates|
  {
    if updates != [] {
      var log := UpdateEvents(call, updates);
      assert log[1..] == UpdateEvents(call, updates[1..]);
      assert Step(q, log[0]) == q;
      UpdatesAccepted(q, w, call, updates[1..]);
    }
  }

  lemma {:induction false} EndAccepted(q: Monitor, w: Work, f: Finalized)
    requires q.phase == Working(w)
    requires f.call.id in w.open && w.open[f.call.id].call.name == f.call.name
    requires w.open[f.call.id].executing || (f.isError && f.result.terminate.None?)
    ensures Step(q, EndEvent(f)) == q.(phase := Working(Settle(w, f)))
  {
  }

  lemma {:induction false} BodyAccepted(tools: seq<Tool>, job: Job, q: Monitor, w: Work)
    requires q.phase == Working(w)
    requires job.call.id in w.open && w.open[job.call.id] == OpenCall(job.call, false)
    ensures After(q, Body(tools, job)) == q.(phase := Working(Settle(w, OutcomeOf(tools, job))))
  {
    var f := OutcomeOf(tools, job);
    PreparationExact(tools, job);
    match PrepareToolCall(tools, job)
    case Immediate(_, _) =>
      AfterOne(q, EndEvent(f));
    case Prepared(args) =>
      var w1 := w.(open := w.open[job.call.id := OpenCall(job.call, true)]);
      var q1 := q.(phase := Working(w1));
      var updates := UpdateEvents(job.call, Delivered(job.oracle));
      AfterCons(q, Execute(job.call.id, args), updates + [EndEvent(f)]);
      assert Step(q, Execute(job.call.id, args)) == q1;
      AfterSnoc(q1, updates, EndEvent(f));
      UpdatesAccepted(q1, w1, job.call, Delivered(job.oracle));
      assert w1.open - {job.call.id} == w.open - {job.call.id};
      assert Body(tools, job) == [Execute(job.call.id, args)] + (updates + [EndEvent(f)]);
  }

  /** Announcing the next result that is due. */
  lemma {:induction false} ReportAccepted(q: Monitor, w: Work, f: Finalized)
    requires q.phase == Working(w) && w.open == map[]
    requires |w.reported| < w.started <= |w.reply.ToolCalls()|
    requires w.reply.ToolCalls()[|w.reported|] == f.call
    requires f.call.id in w.outcomes && w.outcomes[f.call.id] == Outcome(f.result, f.isError)
    ensures After(q, Bracket(ResultMessage(f))) ==
      Monitor(Working(w.(reported := w.reported + [ResultMessage(f)])), q.ended + [ResultMessage(f)])
  {
    var m := ResultMessage(f);
    var q1 := q.(phase := Reporting(w, m));
    assert Step(q, Emit(MessageStart(m))) == q1;
    AfterCons(q, Emit(MessageStart(m)), [Emit(MessageEnd(m))]);
    AfterOne(q1, Emit(MessageEnd(m)));
    assert Bracket(m) == [Emit(MessageStart(m))] + [Emit(MessageEnd(m))];
  }

  // ---- sequential ----

  lemma {:induction false} CallAccepted(tools: seq<Tool>, job: Job, q: Monitor, w: Work) returns (w': Work)
    requires q.phase == Working(w) && !w.reply.Failed() && w.open == map[] && |w.reported| == w.started
    requires Requests(w.reply, w.started, [job])
    ensures After(q, CallLog(tools, job)) == Monitor(Working(w'), q.ended + [ResultMessage(OutcomeOf(tools, job))])
    ensures w'.reply == w.reply && w'.open == map[] && w'.started == w.started + 1
    ensures w'.reported == w.reported + [ResultMessage(OutcomeOf(tools, job))]
    ensures w'.unanimous == (w.unanimous && AsksToTerminate(OutcomeOf(tools, job)))
  {
    var f := OutcomeOf(tools, job);
    assert w.reply.ToolCalls()[w.started + 0] == [job][0].call;
    var w1 := w.(started := w.started + 1, open := w.open[job.call.id := OpenCall(job.call, false)]);
    var q1 := q.(phase := Working(w1));
    assert Step(q, StartEvent(job.call)) == q1;
    var w2 := Settle(w1, f);
    assert w2.open == map[];
    var q2 := q.(phase := Working(w2));
    BodyAccepted(tools, job, q1, w1);
    ReportAccepted(q2, w2, f);
    AfterCons(q, StartEvent(job.call), Body(tools, job) + Bracket(ResultMessage(f)));
    AfterConcat(q1, Body(tools, job), Bracket(ResultMessage(f)));
    assert CallLog(tools, job) == [StartEvent(job.call)] + (Body(tools, job) + Bracket(ResultMessage(f)));
    w' := w2.(reported := w2.reported + [ResultMessage(f)]);
  }

  lemma {:induction false} RequestsCons(reply: AssistantMessage, from: nat, jobs: seq<Job>)
    requires jobs != [] && Requests(reply, from, jobs)
    ensures Requests(reply, from, [jobs[0]]) && Requests(reply, from + 1, jobs[1..])
  {
    assert reply.ToolCalls()[from + 0] == jobs[0].call;
    forall i | 0 <= i < |jobs[1..]|
      ensures reply.ToolCalls()[from + 1 + i] == jobs[1..][i].call
    {
      assert reply.ToolCalls()[from + (i + 1)] == jobs[i + 1].call;
    }
  }

  lemma {:induction false} SequentialAccepted(tools: seq<Tool>, jobs: seq<Job>, q: Monitor, w: Work) returns (w': Work)
    requires q.phase == Working(w) && !w.reply.Failed() && w.open == map[] && |w.reported| == w.started
    requires Requests(w.reply, w.started, jobs)
    ensures After(q, SequentialLog(tools, jobs)) == Monitor(Working(w'), q.ended + ResultMessages(OutcomesOf(tools, jobs)))
    ensures w'.reply == w.reply && w'.open == map[] && w'.started == w.started + |jobs|
    ensures w'.reported == w.reported + ResultMessages(OutcomesOf(tools, jobs))
    ensures w'.unanimous == (w.unanimous && Unanimous(OutcomesOf(tools, jobs)))
    decreases |jobs|
  {
    if jobs == [] {
      w' := w;
      assert q.ended + ResultMessages(OutcomesOf(tools, jobs)) == q.ended;
    } else {
      RequestsCons(w.reply, w.started, jobs);
      var w1 := CallAccepted(tools, jobs[0], q, w);
      var q1 := After(q, CallLog(tools, jobs[0]));
      w' := SequentialAccepted(tools, jobs[1..], q1, w1);
      assert After(q, SequentialLog(tools, jobs)) == After(q1, SequentialLog(tools, jobs[1..])) by {
        AfterConcat(q, CallLog(tools, jobs[0]), SequentialLog(tools, jobs[1..]));
      }
      OutcomesCons(tools, jobs);
      UnanimousCons(tools, jobs);
      var first, rest := [ResultMessage(OutcomeOf(tools, jobs[0]))], ResultMessages(OutcomesOf(tools, jobs[1..]));
      Assoc(q.ended, first, rest);
      Assoc(w.reported, first, rest);
    }
  }

  lemma {:induction false} UnanimousCons(tools: seq<Tool>, jobs: seq<Job>)
    requires jobs != []
    ensures Unanimous(OutcomesOf(tools, jobs)) <==>
      AsksToTerminate(OutcomeOf(tools, jobs[0])) && Unanimous(OutcomesOf(tools, jobs[1..]))
  {
    var all, rest := OutcomesOf(tools, jobs), OutcomesOf(tools, jobs[1..]);
    OutcomesCons(tools, jobs);
    if Unanimous(all) {
      forall i | 0 <= i < |rest|
        ensures AsksToTerminate(rest[i])
      {
        assert AsksToTerminate(all[i + 1]);
      }
    }
  }

  // ---- parallel ----

  ghost function Ids(jobs: seq<Job>): set<string> {
    set i | 0 <= i < |jobs| :: jobs[i].call.id
  }

  ghost predicate Agrees(fiber: Fiber) {
    fiber.Done? ==> AsksToTerminate(fiber.final)
  }

  ghost predicate NoDissent(fibers: seq<Fiber>) {
    forall i :: 0 <= i < |fibers| ==> Agrees(fibers[i])
  }

  /** The monitor's view of a parallel batch in progress: `fibers` are the calls
      prepared so far, and the open calls are exactly the unfinished ones. */
  ghost predicate Tracks(tools: seq<Tool>, jobs: seq<Job>, fibers: seq<Fiber>, w: Work) {
    && Requests(w.reply, 0, jobs) && !w.reply.Failed()
    && |fibers| == w.started <= |jobs|
    && w.reported == []
    && AllTracked(tools, jobs, fibers, w)
    && w.open.Keys <= Ids(jobs)
    && (w.unanimous <==> NoDissent(fibers))
  }

  ghost predicate AllTracked(tools: seq<Tool>, jobs: seq<Job>, fibers: seq<Fiber>, w: Work)
    requires |fibers| <= |jobs|
  {
    && (forall i :: 0 <= i < |fibers| ==> FiberTracked(tools, jobs[i], fibers[i], w))
    && (forall i :: |fibers| <= i < |jobs| ==> jobs[i].call.id !in w.open)
  }

  ghost predicate FiberTracked(tools: seq<Tool>, job: Job, fiber: Fiber, w: Work) {
    match fiber
    case Done(f) =>
      && f == OutcomeOf(tools, job)
      && job.call.id !in w.open
      && job.call.id in w.outcomes && w.outcomes[job.call.id] == Outcome(f.result, f.isError)
    case Ready(j, args) =>
      && j == job && PrepareToolCall(tools, job) == Prepared(args)
      && job.call.id in w.open && w.open[job.call.id] == OpenCall(job.call, false)
    case Busy(j, _) =>
      && j == job && PrepareToolCall(tools, job).Prepared?
      && job.call.id in w.open && w.open[job.call.id] == OpenCall(job.call, true)
  }

  /** Two stages of the work that differ only in what concerns one call. */
  ghost predicate SameOff(id: string, w: Work, w': Work) {
    && w'.open - {id} == w.open - {id}
    && w'.outcomes - {id} == w.outcomes - {id}
  }

  lemma {:induction false} OffTracked(tools: seq<Tool>, job: Job, fiber: Fiber, id: string, w: Work, w': Work)
    requires FiberTracked(tools, job, fiber, w) && SameOff(id, w, w') && job.call.id != id
    ensures FiberTracked(tools, job, fiber, w')
  {
    var other := job.call.id;
    if other in w.open {
      assert other in w.open - {id};
      assert w'.open[other] == (w'.open - {id})[other];
    } else {
      assert other !in w'.open - {id};
    }
    if other in w.outcomes {
      assert other in w.outcomes - {id};
      assert w'.outcomes[other] == (w'.outcomes - {id})[other];
    }
  }

  lemma {:induction false} OffOpen(id: string, w: Work, w': Work)
    requires SameOff(id, w, w')
    ensures w'.open.Keys <= w.open.Keys + {id}
  {
    assert forall x :: x in w'.open && x != id ==> x in w'.open - {id};
  }

  lemma {:induction false} NoDissentUpdate(fibers: seq<Fiber>, k: nat, fiber: Fiber)
    requires k < |fibers| && Agrees(fibers[k])
    ensures NoDissent(fibers[k := fiber]) <==> NoDissent(fibers) && Agrees(fiber)
  {
    var next := fibers[k := fiber];
    assert next[k] == fiber;
    assert forall i :: 0 <= i < |fibers| && i != k ==> next[i] == fibers[i];
  }

  /** Only call `k` is affected, and it is now in the state `fiber`. */
  lemma {:induction false} StillTracked(tools: seq<Tool>, jobs: seq<Job>, fibers: seq<Fiber>, k: nat, fiber: Fiber, w: Work, w': Work)
    requires DistinctIds(jobs) && k < |fibers| <= |jobs|
    requires AllTracked(tools, jobs, fibers, w)
    requires SameOff(jobs[k].call.id, w, w') && FiberTracked(tools, jobs[k], fiber, w')
    ensures AllTracked(tools, jobs, fibers[k := fiber], w')
  {
    var next := fibers[k := fiber];
    forall i | 0 <= i < |next|
      ensures FiberTracked(tools, jobs[i], next[i], w')
    {
      if i != k {
        OffTracked(tools, jobs[i], fibers[i], jobs[k].call.id, w, w');
      }
    }
    OffOpen(jobs[k].call.id, w, w');
  }

  /** One move of one running fiber, seen by the monitor. */
  lemma {:induction false} MoveSeen(tools: seq<Tool>, job: Job, fiber: Fiber, q: Monitor, w: Work) returns (w': Work)
    requires q.phase == Working(w) && !fiber.Done? && FiberTracked(tools, job, fiber, w)
    ensures Step(q, NextEntry(fiber)) == q.(phase := Working(w'))
    ensures w' == w.(open := w'.open, outcomes := w'.outcomes, unanimous := w'.unanimous)
    ensures SameOff(job.call.id, w, w') && FiberTracked(tools, job, Advance(fiber), w')
    ensures w'.unanimous == (w.unanimous && Agrees(Advance(fiber)))
  {
    match fiber
    case Ready(_, _) =>
      w' := w.(open := w.open[job.call.id := OpenCall(job.call, true)]);
    case Busy(_, d) =>
      if d < |Delivered(job.oracle)| {
        w' := w;
      } else {
        var f := FinalizeExecuted(job);
        w' := Settle(w, f);
        EndAccepted(q, w, f);
      }
  }

  lemma {:induction false} MoveAccepted(tools: seq<Tool>, jobs: seq<Job>, fibers: seq<Fiber>, k: nat, q: Monitor, w: Work)
    returns (w': Work)
    requires DistinctIds(jobs) && q.phase == Working(w) && Tracks(tools, jobs, fibers, w)
    requires k < |fibers| && !fibers[k].Done?
    ensures Step(q, NextEntry(fibers[k])) == q.(phase := Working(w'))
    ensures w'.reply == w.reply
    ensures Tracks(tools, jobs, fibers[k := Advance(fibers[k])], w')
  {
    w' := MoveSeen(tools, jobs[k], fibers[k], q, w);
    StillTracked(tools, jobs, fibers, k, Advance(fibers[k]), w, w');
    NoDissentUpdate(fibers, k, Advance(fibers[k]));
    OffOpen(jobs[k].call.id, w, w');
  }

  lemma {:induction false} MergeAccepted(
    tools: seq<Tool>, jobs: seq<Job>, fibers: seq<Fiber>, schedule: seq<nat>, q: Monitor, w: Work)
    returns (w': Work, fibers': seq<Fiber>)
    requires DistinctIds(jobs) && q.phase == Working(w) && Tracks(tools, jobs, fibers, w)
    ensures After(q, Merge(fibers, schedule)) == q.(phase := Working(w'))
    ensures w'.reply == w.reply
    ensures |fibers'| == |fibers| && AllDone(fibers') && Tracks(tools, jobs, fibers', w')
    decreases TotalLeft(fibers)
  {
    if AllDone(fibers) {
      w', fibers' := w, fibers;
    } else {
      var k := Pick(fibers, schedule);
      var next := fibers[k := Advance(fibers[k])];
      var w1 := MoveAccepted(tools, jobs, fibers, k, q, w);
      Progress(fibers, k);
      var q1 := q.(phase := Working(w1));
      w', fibers' := MergeAccepted(tools, jobs, next, Tail(schedule), q1, w1);
      assert After(q, Merge(fibers, schedule)) == After(q1, Merge(next, Tail(schedule))) by {
        AfterCons(q, NextEntry(fibers[k]), Merge(next, Tail(schedule)));
      }
    }
  }

  /** Preparing one call, seen by the monitor. */
  lemma {:induction false} PreparationSeen(tools: seq<Tool>, job: Job, q: Monitor, w: Work) returns (w': Work)
    requires q.phase == Working(w) && !w.reply.Failed() && job.call.id !in w.open
    requires w.started < |w.reply.ToolCalls()| && w.reply.ToolCalls()[w.started] == job.call
    ensures After(q, PrepareLog(tools, [job])) == q.(phase := Working(w'))
    ensures w' == w.(started := w.started + 1, open := w'.open, outcomes := w'.outcomes, unanimous := w'.unanimous)
    ensures SameOff(job.call.id, w, w') && FiberTracked(tools, job, FiberOf(tools, job), w')
    ensures w'.unanimous == (w.unanimous && Agrees(FiberOf(tools, job)))
  {
    var call := job.call;
    var w1 := w.(started := w.started + 1, open := w.open[call.id := OpenCall(call, false)]);
    var q1 := q.(phase := Working(w1));
    assert Step(q, StartEvent(call)) == q1;
    assert [job][1..] == [];
    if PrepareToolCall(tools, job).Immediate? {
      var f := OutcomeOf(tools, job);
      PreparationExact(tools, job);
      EndAccepted(q1, w1, f);
      w' := Settle(w1, f);
      AfterCons(q, StartEvent(call), [EndEvent(f)]);
      AfterOne(q1, EndEvent(f));
      assert PrepareLog(tools, [job]) == [StartEvent(call)] + [EndEvent(f)];
    } else {
      w' := w1;
      AfterOne(q, StartEvent(call));
      assert PrepareLog(tools, [job]) == [StartEvent(call)];
    }
  }

  lemma {:induction false} NewlyTracked(tools: seq<Tool>, jobs: seq<Job>, m: nat, w: Work, w': Work)
    requires DistinctIds(jobs) && m < |jobs|
    requires AllTracked(tools, jobs, FibersOf(tools, jobs[..m]), w)
    requires SameOff(jobs[m].call.id, w, w') && FiberTracked(tools, jobs[m], FiberOf(tools, jobs[m]), w')
    ensures AllTracked(tools, jobs, FibersOf(tools, jobs[..m + 1]), w')
  {
    var fibers, next := FibersOf(tools, jobs[..m]), FibersOf(tools, jobs[..m + 1]);
    forall i | 0 <= i < |next|
      ensures FiberTracked(tools, jobs[i], next[i], w')
    {
      if i != m {
        assert next[i] == fibers[i];
        OffTracked(tools, jobs[i], fibers[i], jobs[m].call.id, w, w');
      }
    }
    OffOpen(jobs[m].call.id, w, w');
  }

  /** Preparing call `m` of the batch. */
  lemma {:induction false} PreparationAccepted(tools: seq<Tool>, jobs: seq<Job>, m: nat, q: Monitor, w: Work)
    returns (w': Work)
    requires DistinctIds(jobs) && q.phase == Working(w) && m < |jobs|
    requires Tracks(tools, jobs, FibersOf(tools, jobs[..m]), w)
    ensures After(q, PrepareLog(tools, [jobs[m]])) == q.(phase := Working(w'))
    ensures w'.reply == w.reply
    ensures Tracks(tools, jobs, FibersOf(tools, jobs[..m + 1]), w')
  {
    assert w.reply.ToolCalls()[0 + m] == jobs[m].call;
    w' := PreparationSeen(tools, jobs[m], q, w);
    NewlyTracked(tools, jobs, m, w, w');
    OffOpen(jobs[m].call.id, w, w');
    NewlyUnanimous(tools, jobs, m);
  }

  lemma {:induction false} NewlyUnanimous(tools: seq<Tool>, jobs: seq<Job>, m: nat)
    requires m < |jobs|
    ensures NoDissent(FibersOf(tools, jobs[..m + 1])) <==> NoDissent(FibersOf(tools, jobs[..m])) && Agrees(FiberOf(tools, jobs[m]))
  {
    var fibers, next := FibersOf(tools, jobs[..m]), FibersOf(tools, jobs[..m + 1]);
    SameElements(next, fibers + [FiberOf(tools, jobs[m])]);
    NoDissentSnoc(fibers, FiberOf(tools, jobs[m]));
  }

  lemma {:induction false} NoDissentSnoc(fibers: seq<Fiber>, fiber: Fiber)
    ensures NoDissent(fibers + [fiber]) <==> NoDissent(fibers) && Agrees(fiber)
  {
    var next := fibers + [fiber];
    assert next[|fibers|] == fiber;
    assert forall i :: 0 <= i < |fibers| ==> next[i] == fibers[i];
  }

  lemma {:induction false} PrepareAccepted(tools: seq<Tool>, jobs: seq<Job>, m: nat, q: Monitor, w: Work)
    returns (w': Work)
    requires DistinctIds(jobs) && q.phase == Working(w) && m <= |jobs|
    requires Tracks(tools, jobs, FibersOf(tools, jobs[..m]), w)
    ensures After(q, PrepareLog(tools, jobs[m..])) == q.(phase := Working(w'))
    ensures w'.reply == w.reply
    ensures Tracks(tools, jobs, FibersOf(tools, jobs), w')
    decreases |jobs| - m
  {
    if m == |jobs| {
      w' := w;
      assert jobs[..m] == jobs;
    } else {
      var w1 := PreparationAccepted(tools, jobs, m, q, w);
      var q1 := q.(phase := Working(w1));
      assert After(q, PrepareLog(tools, jobs[m..])) == After(q1, PrepareLog(tools, jobs[m + 1..])) by {
        assert jobs[m..][0] == jobs[m] && jobs[m..][1..] == jobs[m + 1..];
        PrepareLogCons(tools, jobs[m..]);
        AfterConcat(q, PrepareLog(tools, [jobs[m]]), PrepareLog(tools, jobs[m + 1..]));
      }
      w' := PrepareAccepted(tools, jobs, m + 1, q1, w1);
    }
  }

  lemma {:induction false} PrepareLogCons(tools: seq<Tool>, jobs: seq<Job>)
    requires jobs != []
    ensures PrepareLog(tools, jobs) == PrepareLog(tools, [jobs[0]]) + PrepareLog(tools, jobs[1..])
  {
    assert [jobs[0]][1..] == [];
  }

  lemma {:induction false} ReportsAccepted(outcomes: seq<Finalized>, k: nat, q: Monitor, w: Work)
    requires q.phase == Working(w) && w.open == map[]
    requires k <= |outcomes| == w.started <= |w.reply.ToolCalls()|
    requires w.reported == ResultMessages(outcomes)[..k]
    requires forall i :: 0 <= i < |outcomes| ==>
      && w.reply.ToolCalls()[i] == outcomes[i].call
      && outcomes[i].call.id in w.outcomes
      && w.outcomes[outcomes[i].call.id] == Outcome(outcomes[i].result, outcomes[i].isError)
    ensures After(q, Brackets(ResultMessages(outcomes)[k..])) ==
      Monitor(Working(w.(reported := ResultMessages(outcomes))), q.ended + ResultMessages(outcomes)[k..])
    decreases |outcomes| - k
  {
    var messages := ResultMessages(outcomes);
    if k == |outcomes| {
      assert messages[k..] == [] && messages[..k] == messages;
    } else {
      ReportAccepted(q, w, outcomes[k]);
      var w1 := w.(reported := w.reported + [messages[k]]);
      var q1 := Monitor(Working(w1), q.ended + [messages[k]]);
      assert messages[..k + 1] == messages[..k] + [messages[k]];
      ReportsAccepted(outcomes, k + 1, q1, w1);
      BracketsStep(q, messages, k);
    }
  }

  lemma {:induction false} BracketsStep(q: Monitor, messages: seq<Message>, k: nat)
    requires k < |messages|
    ensures After(q, Brackets(messages[k..])) == After(After(q, Bracket(messages[k])), Brackets(messages[k + 1..]))
    ensures q.ended + messages[k..] == q.ended + [messages[k]] + messages[k + 1..]
  {
    assert messages[k..][1..] == messages[k + 1..];
    assert messages[k..] == [messages[k]] + messages[k + 1..];
    AfterConcat(q, Bracket(messages[k]), Brackets(messages[k + 1..]));
  }

  lemma {:induction false} ParallelAccepted(tools: seq<Tool>, jobs: seq<Job>, schedule: seq<nat>, q: Monitor, reply: AssistantMessage)
    returns (w': Work)
    requires q.phase == Working(Work(reply, 0, map[], map[], true, []))
    requires DistinctIds(jobs) && Requests(reply, 0, jobs) && !reply.Failed()
    ensures After(q, ParallelLog(tools, jobs, schedule)) ==
      Monitor(Working(w'), q.ended + ResultMessages(OutcomesOf(tools, jobs)))
    ensures w'.reply == reply && w'.open == map[] && w'.started == |jobs|
    ensures w'.reported == ResultMessages(OutcomesOf(tools, jobs))
    ensures w'.unanimous == Unanimous(OutcomesOf(tools, jobs))
  {
    var w := Work(reply, 0, map[], map[], true, []);
    var outcomes := OutcomesOf(tools, jobs);
    assert jobs[..0] == [] && jobs[0..] == jobs;
    var w1 := PrepareAccepted(tools, jobs, 0, q, w);
    var q1 := q.(phase := Working(w1));
    var w2, fibers := MergeAccepted(tools, jobs, FibersOf(tools, jobs), schedule, q1, w1);
    var q2 := q.(phase := Working(w2));
    AllSettled(tools, jobs, fibers, w2);
    var messages := ResultMessages(outcomes);
    assert messages[..0] == [] && messages[0..] == messages;
    ReportsAccepted(outcomes, 0, q2, w2);
    w' := w2.(reported := messages);
    var prepare, merge := PrepareLog(tools, jobs), Merge(FibersOf(tools, jobs), schedule);
    AfterConcat(q, prepare + merge, Brackets(messages));
    AfterConcat(q, prepare, merge);
  }

  lemma {:induction false} AllSettled(tools: seq<Tool>, jobs: seq<Job>, fibers: seq<Fiber>, w: Work)
    requires Tracks(tools, jobs, fibers, w) && AllDone(fibers) && |fibers| == |jobs|
    ensures w.open == map[]
    ensures var outcomes := OutcomesOf(tools, jobs);
      && w.unanimous == Unanimous(outcomes)
      && forall i :: 0 <= i < |outcomes| ==>
        && w.reply.ToolCalls()[i] == outcomes[i].call
        && outcomes[i].call.id in w.outcomes
        && w.outcomes[outcomes[i].call.id] == Outcome(outcomes[i].result, outcomes[i].isError)
  {
    var outcomes := OutcomesOf(tools, jobs);
    forall i | 0 <= i < |fibers|
      ensures fibers[i] == Done(outcomes[i]) && jobs[i].call.id !in w.open
      ensures outcomes[i].call.id in w.outcomes
      ensures w.outcomes[outcomes[i].call.id] == Outcome(outcomes[i].result, outcomes[i].isError)
      ensures w.reply.ToolCalls()[i] == outcomes[i].call
    {
      assert FiberTracked(tools, jobs[i], fibers[i], w);
      assert w.reply.ToolCalls()[0 + i] == jobs[i].call;
    }
    assert w.open.Keys == {};
    assert NoDissent(fibers) <==> Unanimous(outcomes) by {
      assert forall i :: 0 <= i < |fibers| ==> (Agrees(fibers[i]) <==> AsksToTerminate(outcomes[i]));
    }
  }
}
