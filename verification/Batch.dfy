/** Running the tool calls of one assistant message, sequentially or in parallel. */
module Batch {
  import opened Messages
  import opened ToolCalls

  // ---- sequential mode ----

  function CallLog(tools: seq<Tool>, job: Job): (log: Log) {
    [StartEvent(job.call)] + Body(tools, job) + Bracket(ResultMessage(OutcomeOf(tools, job)))
  }

  function SequentialLog(tools: seq<Tool>, jobs: seq<Job>): (log: Log) {
    if jobs == [] then [] else CallLog(tools, jobs[0]) + SequentialLog(tools, jobs[1..])
  }

  // ---- parallel mode ----

  /** A call of a parallel batch once it has been prepared. `Busy` counts the
      updates it has delivered so far. */
  datatype Fiber = Ready(job: Job, args: Json) | Busy(job: Job, delivered: nat) | Done(final: Finalized)

  function FiberOf(tools: seq<Tool>, job: Job): Fiber {
    match PrepareToolCall(tools, job)
    case Immediate(_, _) => Done(OutcomeOf(tools, job))
    case Prepared(args) => Ready(job, args)
  }

  function FibersOf(tools: seq<Tool>, jobs: seq<Job>): (fibers: seq<Fiber>)
    ensures |fibers| == |jobs|
    ensures forall i :: 0 <= i < |jobs| ==> fibers[i] == FiberOf(tools, jobs[i])
  {
    seq(|jobs|, i requires 0 <= i < |jobs| => FiberOf(tools, jobs[i]))
  }

  /** The next observable thing an unfinished fiber does. */
  function NextEntry(fiber: Fiber): Entry
    requires !fiber.Done?
  {
    match fiber
    case Ready(job, args) => Execute(job.call.id, args)
    case Busy(job, d) =>
      if d < |Delivered(job.oracle)| then UpdateEvent(job.call, Delivered(job.oracle)[d])
      else EndEvent(FinalizeExecuted(job))
  }

  function Advance(fiber: Fiber): Fiber
    requires !fiber.Done?
  {
    match fiber
    case Ready(job, _) => Busy(job, 0)
    case Busy(job, d) => if d < |Delivered(job.oracle)| then Busy(job, d + 1) else Done(FinalizeExecuted(job))
  }

  /** How many entries a fiber still has to contribute. */
  function Left(fiber: Fiber): nat {
    match fiber
    case Ready(job, _) => 2 + |Delivered(job.oracle)|
    case Busy(job, d) => if d < |Delivered(job.oracle)| then 1 + |Delivered(job.oracle)| - d else 1
    case Done(_) => 0
  }

  function TotalLeft(fibers: seq<Fiber>): nat {
    if fibers == [] then 0 else Left(fibers[0]) + TotalLeft(fibers[1..])
  }

  predicate AllDone(fibers: seq<Fiber>) {
    forall i :: 0 <= i < |fibers| ==> fibers[i].Done?
  }

  function FirstUnfinished(fibers: seq<Fiber>): (k: nat)
    requires !AllDone(fibers)
    ensures k < |fibers| && !fibers[k].Done?
  {
    if !fibers[0].Done? then 0 else 1 + FirstUnfinished(fibers[1..])
  }

  /** Which fiber moves next: the scheduled one if it can, otherwise the first that can. */
  function Pick(fibers: seq<Fiber>, schedule: seq<nat>): (k: nat)
    requires !AllDone(fibers)
    ensures k < |fibers| && !fibers[k].Done?
  {
    if schedule != [] && schedule[0] < |fibers| && !fibers[schedule[0]].Done? then schedule[0]
    else FirstUnfinished(fibers)
  }

  function Tail(schedule: seq<nat>): seq<nat> {
    if schedule == [] then [] else schedule[1..]
  }

  lemma {:induction false} TotalUpdate(fibers: seq<Fiber>, k: nat, fiber: Fiber)
    requires k < |fibers|
    ensures TotalLeft(fibers[k := fiber]) == TotalLeft(fibers) - Left(fibers[k]) + Left(fiber)
  {
    if k == 0 {
      assert fibers[k := fiber][1..] == fibers[1..];
    } else {
      assert fibers[k := fiber][1..] == fibers[1..][k - 1 := fiber];
      TotalUpdate(fibers[1..], k - 1, fiber);
    }
  }

  lemma {:induction false} Progress(fibers: seq<Fiber>, k: nat)
    requires k < |fibers| && !fibers[k].Done?
    ensures TotalLeft(fibers[k := Advance(fibers[k])]) == TotalLeft(fibers) - 1
  {
    TotalUpdate(fibers, k, Advance(fibers[k]));
  }

  /** The interleaving of the running fibers that a schedule selects. */
  function Merge(fibers: seq<Fiber>, schedule: seq<nat>): (log: Log)
    decreases TotalLeft(fibers)
  {
    if AllDone(fibers) then []
    else
      var k := Pick(fibers, schedule);
      Progress(fibers, k);
      [NextEntry(fibers[k])] + Merge(fibers[k := Advance(fibers[k])], Tail(schedule))
  }

  function PrepareLog(tools: seq<Tool>, jobs: seq<Job>): (log: Log) {
    if jobs == [] then []
    else
      [StartEvent(jobs[0].call)]
      + (if PrepareToolCall(tools, jobs[0]).Immediate? then [EndEvent(OutcomeOf(tools, jobs[0]))] else [])
      + PrepareLog(tools, jobs[1..])
  }

  function ParallelLog(tools: seq<Tool>, jobs: seq<Job>, schedule: seq<nat>): (log: Log) {
    PrepareLog(tools, jobs)
    + Merge(FibersOf(tools, jobs), schedule)
    + Brackets(ResultMessages(OutcomesOf(tools, jobs)))
  }

  predicate DistinctIds(jobs: seq<Job>) {
    forall i, j :: 0 <= i < j < |jobs| ==> jobs[i].call.id != jobs[j].call.id
  }

  lemma {:induction false} DistinctTail(jobs: seq<Job>)
    requires jobs != [] && DistinctIds(jobs)
    ensures DistinctIds(jobs[1..])
    ensures forall i :: 0 <= i < |jobs[1..]| ==> jobs[1..][i].call.id != jobs[0].call.id
  {
    assert forall i :: 0 <= i < |jobs[1..]| ==> jobs[1..][i] == jobs[i + 1];
  }

  // ---- schedules reach every interleaving ----

  /** `log` lets the fibers run to completion, any unfinished one moving at each step. */
  ghost predicate Interleaves(fibers: seq<Fiber>, log: Log)
    decreases log
  {
    if log == [] then AllDone(fibers)
    else exists k :: 0 <= k < |fibers| && MovesFirst(fibers, k, log[0]) && Interleaves(fibers[k := Advance(fibers[k])], log[1..])
  }

  ghost predicate MovesFirst(fibers: seq<Fiber>, k: nat, e: Entry)
    requires k < |fibers|
  {
    !fibers[k].Done? && NextEntry(fibers[k]) == e
  }

  lemma {:induction false} MergeScheduled(fibers: seq<Fiber>, k: nat, rest: seq<nat>)
    requires k < |fibers| && !fibers[k].Done?
    ensures Merge(fibers, [k] + rest) == [NextEntry(fibers[k])] + Merge(fibers[k := Advance(fibers[k])], rest)
  {
    assert Tail([k] + rest) == rest;
  }

  lemma {:induction false} EveryInterleavingIsScheduled(fibers: seq<Fiber>, log: Log) returns (schedule: seq<nat>)
    requires Interleaves(fibers, log)
    ensures Merge(fibers, schedule) == log
    decreases log
  {
    if log == [] {
      schedule := [];
    } else {
      var k :| 0 <= k < |fibers| && MovesFirst(fibers, k, log[0]) && Interleaves(fibers[k := Advance(fibers[k])], log[1..]);
      var rest := EveryInterleavingIsScheduled(fibers[k := Advance(fibers[k])], log[1..]);
      schedule := [k] + rest;
      MergeScheduled(fibers, k, rest);
      assert log == [log[0]] + log[1..];
    }
  }

  lemma {:induction false} EveryScheduleInterleaves(fibers: seq<Fiber>, schedule: seq<nat>)
    ensures Interleaves(fibers, Merge(fibers, schedule))
    decreases TotalLeft(fibers)
  {
    if !AllDone(fibers) {
      var k := Pick(fibers, schedule);
      var next := fibers[k := Advance(fibers[k])];
      Progress(fibers, k);
      EveryScheduleInterleaves(next, Tail(schedule));
      var log := Merge(fibers, schedule);
      assert log[1..] == Merge(next, Tail(schedule));
      assert MovesFirst(fibers, k, log[0]);
    }
  }

  // ---- per-call projections: parallel refines sequential ----

  predicate About(id: string, e: Entry) {
    match e
    case Execute(i, _) => i == id
    case Emit(ToolStart(i, _, _)) => i == id
    case Emit(ToolUpdate(i, _, _, _)) => i == id
    case Emit(ToolEnd(i, _, _, _)) => i == id
    case _ => false
  }

  /** What the log says about one tool call. */
  function OfCall(id: string, log: Log): (part: Log) {
    if log == [] then [] else (if About(id, log[0]) then [log[0]] else []) + OfCall(id, log[1..])
  }

  lemma {:induction false} OfCallConcat(id: string, a: Log, b: Log)
    ensures OfCall(id, a + b) == OfCall(id, a) + OfCall(id, b)
  {
    if a == [] {
      assert a + b == b;
    } else {
      assert (a + b)[1..] == a[1..] + b;
      OfCallConcat(id, a[1..], b);
    }
  }

  lemma {:induction false} OfCallThree(id: string, a: Log, b: Log, c: Log, start: Log, first: Log, rest: Log)
    requires OfCall(id, a) == start + first && OfCall(id, b) == rest && OfCall(id, c) == []
    ensures OfCall(id, a + b + c) == start + (first + rest)
  {
    OfCallConcat(id, a + b, c);
    OfCallConcat(id, a, b);
  }

  lemma {:induction false} OfCallOne(id: string, e: Entry)
    ensures OfCall(id, [e]) == if About(id, e) then [e] else []
  {
    assert [e][1..] == [];
  }

  lemma {:induction false} OnlyAbout(a: string, b: string, e: Entry)
    requires About(b, e)
    ensures About(a, e) <==> a == b
  {
  }

  lemma {:induction false} OfCallAll(id: string, log: Log)
    requires forall e :: e in log ==> About(id, e)
    ensures OfCall(id, log) == log
  {
    if log != [] {
      OfCallAll(id, log[1..]);
    }
  }

  lemma {:induction false} OfCallNone(id: string, log: Log)
    requires forall e :: e in log ==> !About(id, e)
    ensures OfCall(id, log) == []
  {
    if log != [] {
      OfCallNone(id, log[1..]);
    }
  }

  lemma {:induction false} BodyAbout(tools: seq<Tool>, job: Job, e: Entry)
    requires e in Body(tools, job)
    ensures About(job.call.id, e)
    ensures forall id :: id != job.call.id ==> !About(id, e)
  {
  }

  lemma {:induction false} BracketsAreNotAbout(id: string, messages: seq<Message>)
    ensures OfCall(id, Brackets(messages)) == []
  {
    if messages != [] {
      BracketsAreNotAbout(id, messages[1..]);
      OfCallNone(id, Bracket(messages[0]));
      OfCallConcat(id, Bracket(messages[0]), Brackets(messages[1..]));
    }
  }

  lemma {:induction false} OfCallCallLog(id: string, tools: seq<Tool>, job: Job)
    ensures OfCall(id, CallLog(tools, job)) == if id == job.call.id then [StartEvent(job.call)] + Body(tools, job) else []
  {
    var head := [StartEvent(job.call)] + Body(tools, job);
    var tail := Bracket(ResultMessage(OutcomeOf(tools, job)));
    OfCallConcat(id, head, tail);
    OfCallNone(id, tail);
    forall e | e in head
      ensures About(id, e) <==> id == job.call.id
    {
      if e in Body(tools, job) {
        BodyAbout(tools, job, e);
      }
    }
    if id == job.call.id {
      OfCallAll(id, head);
    } else {
      OfCallNone(id, head);
    }
  }

  lemma {:induction false} SequentialOfCons(id: string, tools: seq<Tool>, jobs: seq<Job>)
    requires jobs != []
    ensures id == jobs[0].call.id && OfCall(id, SequentialLog(tools, jobs[1..])) == [] ==>
      OfCall(id, SequentialLog(tools, jobs)) == [StartEvent(jobs[0].call)] + Body(tools, jobs[0])
    ensures id != jobs[0].call.id ==> OfCall(id, SequentialLog(tools, jobs)) == OfCall(id, SequentialLog(tools, jobs[1..]))
  {
    var first, rest := CallLog(tools, jobs[0]), SequentialLog(tools, jobs[1..]);
    OfCallConcat(id, first, rest);
    OfCallCallLog(id, tools, jobs[0]);
    assert OfCall(id, first) + [] == OfCall(id, first) && [] + OfCall(id, rest) == OfCall(id, rest);
  }

  lemma {:induction false} SequentialOfCall(tools: seq<Tool>, jobs: seq<Job>, i: nat)
    requires DistinctIds(jobs) && i < |jobs|
    ensures OfCall(jobs[i].call.id, SequentialLog(tools, jobs)) == [StartEvent(jobs[i].call)] + Body(tools, jobs[i])
  {
    var id := jobs[i].call.id;
    DistinctTail(jobs);
    SequentialOfCons(id, tools, jobs);
    if i == 0 {
      SequentialOfOther(id, tools, jobs[1..]);
    } else {
      assert jobs[1..][i - 1] == jobs[i];
      SequentialOfCall(tools, jobs[1..], i - 1);
    }
  }

  lemma {:induction false} SequentialOfOther(id: string, tools: seq<Tool>, jobs: seq<Job>)
    requires forall i :: 0 <= i < |jobs| ==> jobs[i].call.id != id
    ensures OfCall(id, SequentialLog(tools, jobs)) == []
  {
    if jobs != [] {
      SequentialOfOther(id, tools, jobs[1..]);
      SequentialOfCons(id, tools, jobs);
    }
  }

  /** What a fiber will still contribute, in its own order. */
  function Rest(fiber: Fiber): (log: Log)
    decreases Left(fiber)
  {
    if fiber.Done? then [] else [NextEntry(fiber)] + Rest(Advance(fiber))
  }

  lemma {:induction false} RestBusy(job: Job, d: nat)
    requires d <= |Delivered(job.oracle)|
    ensures Rest(Busy(job, d)) == UpdateEvents(job.call, Delivered(job.oracle))[d..] + [EndEvent(FinalizeExecuted(job))]
    decreases |Delivered(job.oracle)| - d
  {
    var updates := UpdateEvents(job.call, Delivered(job.oracle));
    if d < |updates| {
      RestBusy(job, d + 1);
      assert updates[d..] == [updates[d]] + updates[d + 1..];
    } else {
      assert Rest(Done(FinalizeExecuted(job))) == [];
    }
  }

  lemma {:induction false} RestOfFiber(tools: seq<Tool>, job: Job)
    ensures Body(tools, job) ==
      (if PrepareToolCall(tools, job).Immediate? then [EndEvent(OutcomeOf(tools, job))] else []) + Rest(FiberOf(tools, job))
  {
    if PrepareToolCall(tools, job).Prepared? {
      RestBusy(job, 0);
      var updates := UpdateEvents(job.call, Delivered(job.oracle));
      assert updates[0..] == updates;
      var args := PrepareToolCall(tools, job).args;
      assert Rest(Ready(job, args)) == [Execute(job.call.id, args)] + Rest(Busy(job, 0));
    }
  }

  predicate Runs(fiber: Fiber, job: Job) {
    fiber.Done? || fiber.job == job
  }

  lemma {:induction false} MergeOfCall(jobs: seq<Job>, fibers: seq<Fiber>, schedule: seq<nat>, i: nat)
    requires DistinctIds(jobs) && i < |jobs| == |fibers|
    requires forall j :: 0 <= j < |jobs| ==> Runs(fibers[j], jobs[j])
    ensures OfCall(jobs[i].call.id, Merge(fibers, schedule)) == Rest(fibers[i])
    decreases TotalLeft(fibers)
  {
    if !AllDone(fibers) {
      var k := Pick(fibers, schedule);
      var next := fibers[k := Advance(fibers[k])];
      Progress(fibers, k);
      MergeOfCall(jobs, next, Tail(schedule), i);
      var e := NextEntry(fibers[k]);
      assert Merge(fibers, schedule) == [e] + Merge(next, Tail(schedule));
      assert About(jobs[i].call.id, e) <==> i == k by {
        assert About(jobs[k].call.id, e);
        OnlyAbout(jobs[i].call.id, jobs[k].call.id, e);
      }
      OfCallConcat(jobs[i].call.id, [e], Merge(next, Tail(schedule)));
      OfCallOne(jobs[i].call.id, e);
    }
  }

  lemma {:induction false} PrepareOfCall(tools: seq<Tool>, jobs: seq<Job>, i: nat)
    requires DistinctIds(jobs) && i < |jobs|
    ensures OfCall(jobs[i].call.id, PrepareLog(tools, jobs)) ==
      [StartEvent(jobs[i].call)] + if PrepareToolCall(tools, jobs[i]).Immediate? then [EndEvent(OutcomeOf(tools, jobs[i]))] else []
  {
    var id := jobs[i].call.id;
    var head := [StartEvent(jobs[0].call)]
      + if PrepareToolCall(tools, jobs[0]).Immediate? then [EndEvent(OutcomeOf(tools, jobs[0]))] else [];
    OfCallConcat(id, head, PrepareLog(tools, jobs[1..]));
    DistinctTail(jobs);
    if i == 0 {
      OfCallAll(id, head);
      PrepareOfOther(id, tools, jobs[1..]);
    } else {
      OfCallNone(id, head);
      PrepareOfCall(tools, jobs[1..], i - 1);
    }
  }

  lemma {:induction false} PrepareOfOther(id: string, tools: seq<Tool>, jobs: seq<Job>)
    requires forall i :: 0 <= i < |jobs| ==> jobs[i].call.id != id
    ensures OfCall(id, PrepareLog(tools, jobs)) == []
  {
    if jobs != [] {
      var head := [StartEvent(jobs[0].call)]
        + if PrepareToolCall(tools, jobs[0]).Immediate? then [EndEvent(OutcomeOf(tools, jobs[0]))] else [];
      OfCallConcat(id, head, PrepareLog(tools, jobs[1..]));
      OfCallNone(id, head);
      PrepareOfOther(id, tools, jobs[1..]);
    }
  }

  /** Every call goes through the same entries, in the same order, in both modes
      and under every schedule: start, then (if cleared) execution and its updates,
      then exactly one end. */
  lemma {:induction false} CallLifecycle(tools: seq<Tool>, jobs: seq<Job>, schedule: seq<nat>, i: nat)
    requires DistinctIds(jobs) && i < |jobs|
    ensures OfCall(jobs[i].call.id, ParallelLog(tools, jobs, schedule)) == [StartEvent(jobs[i].call)] + Body(tools, jobs[i])
    ensures OfCall(jobs[i].call.id, SequentialLog(tools, jobs)) == [StartEvent(jobs[i].call)] + Body(tools, jobs[i])
  {
    ParallelOfCall(tools, jobs, schedule, i);
    SequentialOfCall(tools, jobs, i);
  }

  lemma {:induction false} ParallelOfCall(tools: seq<Tool>, jobs: seq<Job>, schedule: seq<nat>, i: nat)
    requires DistinctIds(jobs) && i < |jobs|
    ensures OfCall(jobs[i].call.id, ParallelLog(tools, jobs, schedule)) == [StartEvent(jobs[i].call)] + Body(tools, jobs[i])
  {
    PrepareOfCall(tools, jobs, i);
    MergeOfCall(jobs, FibersOf(tools, jobs), schedule, i);
    BracketsAreNotAbout(jobs[i].call.id, ResultMessages(OutcomesOf(tools, jobs)));
    OfCallThree(jobs[i].call.id, PrepareLog(tools, jobs), Merge(FibersOf(tools, jobs), schedule),
                Brackets(ResultMessages(OutcomesOf(tools, jobs))), [StartEvent(jobs[i].call)],
                if PrepareToolCall(tools, jobs[i]).Immediate? then [EndEvent(OutcomeOf(tools, jobs[i]))] else [],
                Rest(FiberOf(tools, jobs[i])));
    RestOfFiber(tools, jobs[i]);
  }

  lemma {:induction false} NoneEnded(log: Log)
    requires forall e :: e in log ==> !(e.Emit? && e.event.MessageEnd?)
    ensures Ended(log) == []
  {
    if log != [] {
      NoneEnded(log[1..]);
    }
  }

  lemma {:induction false} CallEnded(tools: seq<Tool>, job: Job)
    ensures Ended(CallLog(tools, job)) == [ResultMessage(OutcomeOf(tools, job))]
  {
    var m := ResultMessage(OutcomeOf(tools, job));
    var head := [StartEvent(job.call)] + Body(tools, job);
    EndedConcat(head, Bracket(m));
    NoneEnded(head);
    EndedBrackets([m]);
    assert Brackets([m]) == Bracket(m) by { assert [m][1..] == []; }
  }

  lemma {:induction false} OutcomesCons(tools: seq<Tool>, jobs: seq<Job>)
    requires jobs != []
    ensures OutcomesOf(tools, jobs) == [OutcomeOf(tools, jobs[0])] + OutcomesOf(tools, jobs[1..])
    ensures ResultMessages(OutcomesOf(tools, jobs)) ==
      [ResultMessage(OutcomeOf(tools, jobs[0]))] + ResultMessages(OutcomesOf(tools, jobs[1..]))
  {
    var all, rest := OutcomesOf(tools, jobs), OutcomesOf(tools, jobs[1..]);
    SameElements(all, [all[0]] + rest);
    var messages, tail := ResultMessages(all), ResultMessages(rest);
    SameElements(messages, [messages[0]] + tail);
  }

  lemma {:induction false} SameElements<T>(a: seq<T>, b: seq<T>)
    requires |a| == |b| && forall i :: 0 <= i < |a| ==> a[i] == b[i]
    ensures a == b
  {
  }

  lemma {:induction false} SequentialEnded(tools: seq<Tool>, jobs: seq<Job>)
    ensures Ended(SequentialLog(tools, jobs)) == ResultMessages(OutcomesOf(tools, jobs))
  {
    if jobs != [] {
      EndedConcat(CallLog(tools, jobs[0]), SequentialLog(tools, jobs[1..]));
      CallEnded(tools, jobs[0]);
      SequentialEnded(tools, jobs[1..]);
      OutcomesCons(tools, jobs);
    }
  }

  /** Entries of the preparation loop: nothing is executed, nothing is announced. */
  lemma {:induction false} PrepareShape(tools: seq<Tool>, jobs: seq<Job>)
    ensures forall e :: e in PrepareLog(tools, jobs) ==> e.Emit? && (e.event.ToolStart? || e.event.ToolEnd?)
  {
    if jobs != [] {
      PrepareShape(tools, jobs[1..]);
    }
  }

  /** Entries of the concurrent phase: no call starts, nothing is announced. */
  lemma {:induction false} MergeShape(fibers: seq<Fiber>, schedule: seq<nat>)
    ensures forall e :: e in Merge(fibers, schedule) ==> e.Execute? || (e.Emit? && (e.event.ToolUpdate? || e.event.ToolEnd?))
    decreases TotalLeft(fibers)
  {
    if !AllDone(fibers) {
      var k := Pick(fibers, schedule);
      Progress(fibers, k);
      MergeShape(fibers[k := Advance(fibers[k])], Tail(schedule));
    }
  }

  lemma {:induction false} BracketsShape(messages: seq<Message>)
    ensures forall e :: e in Brackets(messages) ==> e.Emit? && (e.event.MessageStart? || e.event.MessageEnd?)
  {
    if messages != [] {
      BracketsShape(messages[1..]);
    }
  }

  lemma {:induction false} ParallelEnded(tools: seq<Tool>, jobs: seq<Job>, schedule: seq<nat>)
    ensures Ended(ParallelLog(tools, jobs, schedule)) == ResultMessages(OutcomesOf(tools, jobs))
  {
    var prepare, merge := PrepareLog(tools, jobs), Merge(FibersOf(tools, jobs), schedule);
    var messages := ResultMessages(OutcomesOf(tools, jobs));
    EndedConcat(prepare + merge, Brackets(messages));
    EndedBrackets(messages);
    PrepareShape(tools, jobs);
    MergeShape(FibersOf(tools, jobs), schedule);
    NoneEnded(prepare + merge);
  }

  // ---- the parallel log is a permutation of the sequential one ----

  /** All the entries the fibers still have to contribute. */
  ghost function RestBag(fibers: seq<Fiber>): multiset<Entry> {
    if fibers == [] then multiset{} else multiset(Rest(fibers[0])) + RestBag(fibers[1..])
  }

  lemma {:induction false} RestBagUpdate(fibers: seq<Fiber>, k: nat, fiber: Fiber)
    requires k < |fibers|
    ensures RestBag(fibers[k := fiber]) + multiset(Rest(fibers[k])) == RestBag(fibers) + multiset(Rest(fiber))
  {
    var next := fibers[k := fiber];
    var before, after := multiset(Rest(fibers[k])), multiset(Rest(fiber));
    if k == 0 {
      assert next[1..] == fibers[1..];
      BagRegroup(RestBag(fibers[1..]), before, RestBag(fibers[1..]), after, multiset{});
      assert RestBag(next) == after + RestBag(fibers[1..]) && RestBag(fibers) == before + RestBag(fibers[1..]);
    } else {
      assert next[1..] == fibers[1..][k - 1 := fiber];
      RestBagUpdate(fibers[1..], k - 1, fiber);
      BagRegroup(RestBag(next[1..]), before, RestBag(fibers[1..]), after, multiset(Rest(fibers[0])));
      assert RestBag(next) == multiset(Rest(fibers[0])) + RestBag(next[1..]);
      assert RestBag(fibers) == multiset(Rest(fibers[0])) + RestBag(fibers[1..]);
    }
  }

  lemma {:induction false} BagRegroup<T>(a: multiset<T>, x: multiset<T>, b: multiset<T>, y: multiset<T>, head: multiset<T>)
    ensures a + x == b + y ==> (head + a) + x == (head + b) + y
    ensures (y + a) + x == (x + a) + y
  {
    if a + x == b + y {
      assert (head + a) + x == head + (a + x) && (head + b) + y == head + (b + y);
    }
  }

  lemma {:induction false} DoneBag(fibers: seq<Fiber>)
    requires AllDone(fibers)
    ensures RestBag(fibers) == multiset{}
  {
    if fibers != [] {
      assert fibers[0].Done? && AllDone(fibers[1..]);
      DoneBag(fibers[1..]);
    }
  }

  lemma {:induction false} MergeBag(fibers: seq<Fiber>, schedule: seq<nat>)
    ensures multiset(Merge(fibers, schedule)) == RestBag(fibers)
    decreases TotalLeft(fibers)
  {
    if AllDone(fibers) {
      DoneBag(fibers);
    } else {
      var k := Pick(fibers, schedule);
      var next := fibers[k := Advance(fibers[k])];
      Progress(fibers, k);
      MergeBag(next, Tail(schedule));
      RestBagUpdate(fibers, k, Advance(fibers[k]));
      var e, rest := NextEntry(fibers[k]), Rest(Advance(fibers[k]));
      assert Rest(fibers[k]) == [e] + rest;
      BagCancel(multiset([e]), RestBag(next), multiset(rest), RestBag(fibers));
      assert multiset([e] + rest) == multiset([e]) + multiset(rest);
      assert multiset([e] + Merge(next, Tail(schedule))) == multiset([e]) + RestBag(next);
    }
  }

  lemma {:induction false} BagCancel<T>(e: multiset<T>, a: multiset<T>, x: multiset<T>, b: multiset<T>)
    ensures a + (e + x) == b + x ==> e + a == b
  {
    if a + (e + x) == b + x {
      forall t
        ensures (e + a)[t] == b[t]
      {
        assert (a + (e + x))[t] == (b + x)[t];
      }
    }
  }

  lemma {:induction false} BatchBag(tools: seq<Tool>, jobs: seq<Job>)
    ensures multiset(PrepareLog(tools, jobs)) + RestBag(FibersOf(tools, jobs))
        + multiset(Brackets(ResultMessages(OutcomesOf(tools, jobs))))
      == multiset(SequentialLog(tools, jobs))
    decreases |jobs|
  {
    if jobs != [] {
      var rest := jobs[1..];
      var refusal := if PrepareToolCall(tools, jobs[0]).Immediate? then [EndEvent(OutcomeOf(tools, jobs[0]))] else [];
      BatchBag(tools, rest);
      RestOfFiber(tools, jobs[0]);
      FibersCons(tools, jobs);
      ReportsCons(tools, jobs);
      BagsOfOne([StartEvent(jobs[0].call)] + refusal, PrepareLog(tools, rest), Rest(FiberOf(tools, jobs[0])),
                RestBag(FibersOf(tools, rest)), Bracket(ResultMessage(OutcomeOf(tools, jobs[0]))),
                Brackets(ResultMessages(OutcomesOf(tools, rest))), SequentialLog(tools, rest));
      Assoc([StartEvent(jobs[0].call)], refusal, Rest(FiberOf(tools, jobs[0])));
    }
  }

  lemma {:induction false} FibersCons(tools: seq<Tool>, jobs: seq<Job>)
    requires jobs != []
    ensures RestBag(FibersOf(tools, jobs)) == multiset(Rest(FiberOf(tools, jobs[0]))) + RestBag(FibersOf(tools, jobs[1..]))
  {
    SameElements(FibersOf(tools, jobs)[1..], FibersOf(tools, jobs[1..]));
  }

  lemma {:induction false} ReportsCons(tools: seq<Tool>, jobs: seq<Job>)
    requires jobs != []
    ensures Brackets(ResultMessages(OutcomesOf(tools, jobs)))
      == Bracket(ResultMessage(OutcomeOf(tools, jobs[0]))) + Brackets(ResultMessages(OutcomesOf(tools, jobs[1..])))
  {
    OutcomesCons(tools, jobs);
    var rest := ResultMessages(OutcomesOf(tools, jobs[1..]));
    assert ([ResultMessage(OutcomeOf(tools, jobs[0]))] + rest)[1..] == rest;
  }

  /** Moving the three parts of one call together. */
  lemma {:induction false} BagsOfOne(p: Log, prepare: Log, r: Log, bag: multiset<Entry>, b: Log, reports: Log, sequential: Log)
    requires multiset(prepare) + bag + multiset(reports) == multiset(sequential)
    ensures multiset(p + prepare) + (multiset(r) + bag) + multiset(b + reports) == multiset((p + r) + b + sequential)
  {
    BagShuffle(multiset(p), multiset(prepare), multiset(r), bag, multiset(b), multiset(reports));
  }

  lemma {:induction false} BagShuffle<T>(a: multiset<T>, a': multiset<T>, b: multiset<T>, b': multiset<T>, c: multiset<T>, c': multiset<T>)
    ensures (a + a') + (b + b') + (c + c') == ((a + b) + c) + (a' + b' + c')
  {
  }

  // ---- the verdict on termination, read off a log ----

  predicate IsToolEnd(e: Entry) {
    e.Emit? && e.event.ToolEnd?
  }

  /** Some call ended, and every call that ended asked to terminate. */
  ghost predicate VotesToEnd(log: Log) {
    && (exists e :: e in log && IsToolEnd(e))
    && (forall e :: e in log && IsToolEnd(e) ==> e.event.result.terminate == Some(true))
  }

  lemma {:induction false} CallEnds(tools: seq<Tool>, job: Job, e: Entry)
    requires IsToolEnd(e)
    ensures e in CallLog(tools, job) <==> e == EndEvent(OutcomeOf(tools, job))
  {
    var end := EndEvent(OutcomeOf(tools, job));
    var log := CallLog(tools, job);
    assert end in Body(tools, job) by {
      assert Body(tools, job)[|Body(tools, job)| - 1] == end;
    }
    assert forall x :: x in log <==> x == StartEvent(job.call) || x in Body(tools, job) || x in Bracket(ResultMessage(OutcomeOf(tools, job)));
  }

  lemma {:induction false} SequentialEnds(tools: seq<Tool>, jobs: seq<Job>, e: Entry)
    requires IsToolEnd(e)
    ensures e in SequentialLog(tools, jobs) <==> exists i :: 0 <= i < |jobs| && e == EndEvent(OutcomeOf(tools, jobs[i]))
    decreases |jobs|
  {
    if jobs != [] {
      var rest := jobs[1..];
      CallEnds(tools, jobs[0], e);
      SequentialEnds(tools, rest, e);
      if i :| 0 <= i < |jobs| && e == EndEvent(OutcomeOf(tools, jobs[i])) {
        assert i > 0 ==> rest[i - 1] == jobs[i];
      }
      assert forall i :: 0 <= i < |rest| ==> rest[i] == jobs[i + 1];
    }
  }

  lemma {:induction false} SequentialVerdict(tools: seq<Tool>, jobs: seq<Job>)
    ensures VotesToEnd(SequentialLog(tools, jobs)) <==> ShouldTerminate(OutcomesOf(tools, jobs))
  {
    var log, outcomes := SequentialLog(tools, jobs), OutcomesOf(tools, jobs);
    forall i | 0 <= i < |jobs|
      ensures EndEvent(outcomes[i]) in log
    {
      SequentialEnds(tools, jobs, EndEvent(outcomes[i]));
    }
    forall e | e in log && IsToolEnd(e)
      ensures exists i :: 0 <= i < |jobs| && e == EndEvent(outcomes[i])
    {
      SequentialEnds(tools, jobs, e);
      var i :| 0 <= i < |jobs| && e == EndEvent(OutcomeOf(tools, jobs[i]));
      assert e == EndEvent(outcomes[i]);
    }
    if VotesToEnd(log) {
      forall i | 0 <= i < |outcomes|
        ensures AsksToTerminate(outcomes[i])
      {
        assert EndEvent(outcomes[i]) in log && IsToolEnd(EndEvent(outcomes[i]));
      }
    }
    if ShouldTerminate(outcomes) {
      assert EndEvent(outcomes[0]) in log && IsToolEnd(EndEvent(outcomes[0]));
    }
  }

  lemma {:induction false} SameVerdict(a: Log, b: Log)
    requires multiset(a) == multiset(b)
    ensures VotesToEnd(a) <==> VotesToEnd(b)
  {
    assert forall e :: e in a <==> e in multiset(a);
    assert forall e :: e in b <==> e in multiset(b);
  }

  /** Parallel refines sequential: whatever the schedule, the parallel batch logs the
      sequential batch's entries in another order, announces the same result messages in
      the same order, and comes to the same verdict on ending the run. */
  lemma {:induction false} ParallelRefinesSequential(tools: seq<Tool>, jobs: seq<Job>, schedule: seq<nat>)
    ensures multiset(ParallelLog(tools, jobs, schedule)) == multiset(SequentialLog(tools, jobs))
    ensures Ended(ParallelLog(tools, jobs, schedule)) == Ended(SequentialLog(tools, jobs))
      == ResultMessages(OutcomesOf(tools, jobs))
    ensures VotesToEnd(ParallelLog(tools, jobs, schedule)) <==> ShouldTerminate(OutcomesOf(tools, jobs))
    ensures VotesToEnd(SequentialLog(tools, jobs)) <==> ShouldTerminate(OutcomesOf(tools, jobs))
  {
    ParallelEnded(tools, jobs, schedule);
    SequentialEnded(tools, jobs);
    MergeBag(FibersOf(tools, jobs), schedule);
    BatchBag(tools, jobs);
    SequentialVerdict(tools, jobs);
    SameVerdict(ParallelLog(tools, jobs, schedule), SequentialLog(tools, jobs));
  }

  /** Where ids tell the calls apart, every call goes through the same history in both modes. */
  lemma {:induction false} HistoriesAgree(tools: seq<Tool>, jobs: seq<Job>, schedule: seq<nat>)
    requires DistinctIds(jobs)
    ensures forall i :: 0 <= i < |jobs| ==>
      OfCall(jobs[i].call.id, ParallelLog(tools, jobs, schedule)) == OfCall(jobs[i].call.id, SequentialLog(tools, jobs))
  {
    forall i | 0 <= i < |jobs|
      ensures OfCall(jobs[i].call.id, ParallelLog(tools, jobs, schedule)) == OfCall(jobs[i].call.id, SequentialLog(tools, jobs))
    {
      CallLifecycle(tools, jobs, schedule, i);
    }
  }

  /** In parallel mode no tool executes before the preparation of every processed call is
      through, each start and each refusal logged; and every call has ended before any
      result is announced. */
  lemma {:induction false} ExecutionBarrier(tools: seq<Tool>, jobs: seq<Job>, schedule: seq<nat>, i: nat, j: nat)
    requires i < j < |ParallelLog(tools, jobs, schedule)|
    ensures var log := ParallelLog(tools, jobs, schedule);
      && (log[i].Execute? ==> PrepareLog(tools, jobs) <= log[..i] && !(log[j].Emit? && log[j].event.ToolStart?))
      && (log[i].Emit? && log[i].event.MessageStart? ==> !log[j].Execute? && !(log[j].Emit? && log[j].event.ToolEnd?))
  {
    var prepare, merge := PrepareLog(tools, jobs), Merge(FibersOf(tools, jobs), schedule);
    var reports := Brackets(ResultMessages(OutcomesOf(tools, jobs)));
    PrepareShape(tools, jobs);
    MergeShape(FibersOf(tools, jobs), schedule);
    BracketsShape(ResultMessages(OutcomesOf(tools, jobs)));
    Barrier(prepare, merge, reports, i, j);
  }

  lemma {:induction false} Barrier(prepare: Log, merge: Log, reports: Log, i: nat, j: nat)
    requires i < j < |prepare + merge + reports|
    requires forall e :: e in prepare ==> !e.Execute? && !(e.Emit? && e.event.MessageStart?)
    requires forall e :: e in merge ==> !(e.Emit? && (e.event.ToolStart? || e.event.MessageStart?))
    requires forall e :: e in reports ==> e.Emit? && (e.event.MessageStart? || e.event.MessageEnd?)
    ensures var log := prepare + merge + reports;
      && (log[i].Execute? ==> prepare <= log[..i] && !(log[j].Emit? && log[j].event.ToolStart?))
      && (log[i].Emit? && log[i].event.MessageStart? ==> !log[j].Execute? && !(log[j].Emit? && log[j].event.ToolEnd?))
  {
    InPart(prepare, merge, reports, i);
    InPart(prepare, merge, reports, j);
  }

  lemma {:induction false} InPart(a: Log, b: Log, c: Log, k: nat)
    requires k < |a + b + c|
    ensures k < |a| ==> (a + b + c)[k] in a
    ensures |a| <= k < |a + b| ==> (a + b + c)[k] in b
    ensures |a + b| <= k ==> (a + b + c)[k] in c
  {
    if k < |a| {
      assert (a + b + c)[k] == a[k];
    } else if k < |a + b| {
      assert (a + b + c)[k] == b[k - |a|];
    } else {
      assert (a + b + c)[k] == c[k - |a + b|];
    }
  }
}
