/** What every run keeps: transcripts that agree, requests a provider accepts,
    queues that lose nothing, and a bound on the number of turns. */
module LoopTheorems {
  import opened Messages
  import opened ToolCalls
  import opened Batch
  import opened Streaming
  import opened Loop

  // ---- reading a log ----

  /** Is the log between `turn_start` and the turn's provider request? */
  function OpenAfter(open: bool, log: Log): bool
    decreases |log|
  {
    if log == [] then open else OpenAfter(OpenStep(open, log[0]), log[1..])
  }

  function OpenStep(open: bool, e: Entry): bool {
    if e.Request? then false else open || e == Emit(TurnStart)
  }

  /** The messages announced before the provider requests: prompts and injected ones. */
  function Injected(open: bool, log: Log): (messages: seq<Message>)
    decreases |log|
  {
    if log == [] then []
    else
      (if open && log[0].Emit? && log[0].event.MessageEnd? then [log[0].event.message] else [])
      + Injected(OpenStep(open, log[0]), log[1..])
  }

  predicate Sendable(messages: seq<Message>) {
    messages != [] && !EndsInAssistant(messages)
  }

  /** No provider request is made from a transcript that ends in an assistant message. */
  predicate SafeRequests(log: Log) {
    forall e :: e in log && e.Request? ==> Sendable(e.transcript)
  }

  /** An entry inside a turn: nothing but messages and tools. */
  predicate Inner(e: Entry) {
    || e.Execute?
    || (e.Emit? && !(e.event.TurnStart? || e.event.TurnEnd? || e.event.AgentStart? || e.event.AgentEnd?))
  }

  predicate InnerLog(log: Log) {
    forall e :: e in log ==> Inner(e)
  }

  lemma {:induction false} InjectedConcat(open: bool, a: Log, b: Log)
    ensures Injected(open, a + b) == Injected(open, a) + Injected(OpenAfter(open, a), b)
    ensures OpenAfter(open, a + b) == OpenAfter(OpenAfter(open, a), b)
    decreases |a|
  {
    if a == [] {
      assert a + b == b;
    } else {
      assert (a + b)[1..] == a[1..] + b;
      var next := OpenStep(open, a[0]);
      InjectedConcat(next, a[1..], b);
      Assoc(if open && a[0].Emit? && a[0].event.MessageEnd? then [a[0].event.message] else [],
            Injected(next, a[1..]), Injected(OpenAfter(next, a[1..]), b));
    }
  }

  lemma {:induction false} DrainedConcat(a: Log, b: Log)
    ensures Drained(a + b) == Drained(a) + Drained(b)
    ensures forall n: QueueName :: DrainedFrom(n, a + b) == DrainedFrom(n, a) + DrainedFrom(n, b)
    decreases |a|
  {
    if a == [] {
      assert a + b == b;
    } else {
      assert (a + b)[1..] == a[1..] + b;
      DrainedConcat(a[1..], b);
    }
  }

  lemma {:induction false} DrainedSizes(log: Log)
    ensures |Drained(log)| == |DrainedFrom(Steering, log)| + |DrainedFrom(FollowUp, log)|
  {
    if log != [] {
      DrainedSizes(log[1..]);
    }
  }

  lemma {:induction false} InnerIsNeutral(open: bool, log: Log)
    requires InnerLog(log)
    ensures OpenAfter(open, log) == open && Injected(false, log) == []
    ensures Drained(log) == [] && forall n: QueueName :: DrainedFrom(n, log) == []
    decreases |log|
  {
    if log != [] {
      assert log[0] in log && forall e :: e in log[1..] ==> e in log;
      InnerIsNeutral(open, log[1..]);
    }
  }

  lemma {:induction false} BracketInjected(m: Message)
    ensures Injected(true, Bracket(m)) == [m] && OpenAfter(true, Bracket(m))
  {
    var tail := [Emit(MessageEnd(m))];
    assert tail[1..] == [];
    assert Injected(true, tail) == [m] && OpenAfter(true, tail);
    assert Bracket(m)[1..] == tail;
  }

  lemma {:induction false} BracketsInjected(messages: seq<Message>)
    ensures Injected(true, Brackets(messages)) == messages
    decreases |messages|
  {
    if messages != [] {
      BracketsInjected(messages[1..]);
      BracketInjected(messages[0]);
      InjectedConcat(true, Bracket(messages[0]), Brackets(messages[1..]));
      assert messages == [messages[0]] + messages[1..];
    }
  }

  lemma {:induction false} BracketsInner(messages: seq<Message>)
    ensures InnerLog(Brackets(messages))
  {
    BracketsShape(messages);
  }

  lemma {:induction false} StreamInner(stream: Stream)
    ensures InnerLog(StreamLog(stream))
  {
    HeardLive(Live(stream.events));
  }

  lemma {:induction false} SequentialInner(tools: seq<Tool>, jobs: seq<Job>)
    ensures InnerLog(SequentialLog(tools, jobs))
  {
    if jobs != [] {
      SequentialInner(tools, jobs[1..]);
      CallInner(tools, jobs[0]);
      InnerConcat(CallLog(tools, jobs[0]), SequentialLog(tools, jobs[1..]));
    }
  }

  lemma {:induction false} BatchInner(tools: seq<Tool>, config: Config, t: TurnScript)
    ensures InnerLog(BatchLog(tools, config, t))
    ensures Ended(BatchLog(tools, config, t)) == ResultMessages(BatchOutcomes(tools, t))
  {
    var jobs := Reached(Jobs(t));
    if RunsSequentially(tools, config, t.stream.result.ToolCalls()) {
      SequentialInner(tools, jobs);
      SequentialEnded(tools, jobs);
    } else {
      ParallelInner(tools, jobs, t.schedule);
      ParallelEnded(tools, jobs, t.schedule);
    }
  }

  lemma {:induction false} ParallelInner(tools: seq<Tool>, jobs: seq<Job>, schedule: seq<nat>)
    ensures InnerLog(ParallelLog(tools, jobs, schedule))
  {
    var prepare, merge := PrepareLog(tools, jobs), Merge(FibersOf(tools, jobs), schedule);
    var reports := Brackets(ResultMessages(OutcomesOf(tools, jobs)));
    PrepareShape(tools, jobs);
    MergeShape(FibersOf(tools, jobs), schedule);
    BracketsShape(ResultMessages(OutcomesOf(tools, jobs)));
    assert InnerLog(prepare) && InnerLog(merge) && InnerLog(reports);
    InnerConcat(prepare, merge);
    InnerConcat(prepare + merge, reports);
  }

  lemma {:induction false} InnerConcat(a: Log, b: Log)
    requires InnerLog(a) && InnerLog(b)
    ensures InnerLog(a + b)
  {
    assert forall e :: e in a + b ==> e in a || e in b;
  }

  lemma {:induction false} CallInner(tools: seq<Tool>, job: Job)
    ensures InnerLog(CallLog(tools, job))
  {
    var head := [StartEvent(job.call)] + Body(tools, job);
    assert InnerLog(head);
    InnerConcat(head, Bracket(ResultMessage(OutcomeOf(tools, job))));
  }

  // ---- the books of a run ----

  /** `newMessages` is what was announced, and every message drained from a queue is
      either announced before a later request or still pending, in the order of the polls. */
  predicate Balanced(s: LoopState, prompts: seq<Message>, open: bool) {
    && Ended(s.log) == s.newMessages
    && Injected(false, s.log) + s.pending == prompts + Drained(s.log)
    && OpenAfter(false, s.log) == open
  }

  lemma {:induction false} AddInner(s: LoopState, entries: Log, prompts: seq<Message>, messages: seq<Message>)
    requires Balanced(s, prompts, false) && InnerLog(entries) && Ended(entries) == messages
    ensures Balanced(AddMessages(AddLog(s, entries), messages), prompts, false)
  {
    EndedConcat(s.log, entries);
    InjectedConcat(false, s.log, entries);
    DrainedConcat(s.log, entries);
    InnerIsNeutral(false, entries);
    assert Injected(false, s.log + entries) == Injected(false, s.log);
    assert Drained(s.log + entries) == Drained(s.log);
  }

  lemma {:induction false} AddOne(s: LoopState, e: Entry, prompts: seq<Message>, open: bool)
    requires Balanced(s, prompts, open) && !(e.Emit? && e.event.MessageEnd?) && !e.Poll?
    ensures Balanced(AddLog(s, [e]), prompts, OpenStep(open, e))
  {
    EndedConcat(s.log, [e]);
    InjectedConcat(false, s.log, [e]);
    DrainedConcat(s.log, [e]);
    assert [e][1..] == [];
    assert Injected(false, s.log + [e]) == Injected(false, s.log);
    assert Drained(s.log + [e]) == Drained(s.log);
    assert Ended(s.log + [e]) == Ended(s.log);
  }

  lemma {:induction false} AddPoll(s: LoopState, n: QueueName, batch: seq<Message>, prompts: seq<Message>, open: bool)
    requires Balanced(s, prompts, open) && s.pending == []
    ensures Balanced(AddLog(s.(pending := batch), [Poll(n, batch)]), prompts, open)
  {
    var e := Poll(n, batch);
    EndedConcat(s.log, [e]);
    InjectedConcat(false, s.log, [e]);
    DrainedConcat(s.log, [e]);
    assert [e][1..] == [];
    assert Drained([e]) == batch;
    assert Injected(false, s.log) == prompts + Drained(s.log);
    Assoc(prompts, Drained(s.log), batch);
  }

  lemma {:induction false} AddPending(s: LoopState, prompts: seq<Message>)
    requires Balanced(s, prompts, true)
    ensures Balanced(AddMessages(AddLog(s, Brackets(s.pending)), s.pending).(pending := []), prompts, true)
  {
    var entries := Brackets(s.pending);
    BracketsInner(s.pending);
    BracketsInjected(s.pending);
    EndedBrackets(s.pending);
    EndedConcat(s.log, entries);
    InjectedConcat(false, s.log, entries);
    DrainedConcat(s.log, entries);
    InnerIsNeutral(true, entries);
    assert Injected(false, s.log + entries) + [] == Injected(false, s.log) + s.pending;
    assert Drained(s.log + entries) == Drained(s.log);
  }

  lemma {:induction false} InjectBalanced(s: LoopState, prompts: seq<Message>)
    requires Balanced(s, prompts, s.firstTurn)
    ensures Balanced(Inject(s), prompts, true)
  {
    if s.firstTurn {
      AddPending(s, prompts);
      assert [] + Brackets(s.pending) == Brackets(s.pending);
    } else {
      var begun := AddLog(s, [Emit(TurnStart)]);
      AddOne(s, Emit(TurnStart), prompts, false);
      AddPending(begun, prompts);
      Assoc(s.log, [Emit(TurnStart)], Brackets(s.pending));
    }
  }

  lemma {:induction false} ReplyBalanced(s: LoopState, stream: Stream, prompts: seq<Message>)
    requires Balanced(s, prompts, true)
    ensures Balanced(Reply(s, stream), prompts, false)
  {
    var request := Request(s.context.messages, s.config.model, s.config.reasoning);
    AddOne(s, request, prompts, true);
    StreamInner(stream);
    StreamEnded(stream);
    AddInner(AddLog(s, [request]), StreamLog(stream), prompts, [Assistant(stream.result)]);
    Assoc(s.log, [request], StreamLog(stream));
  }

  lemma {:induction false} RunToolsBalanced(s: LoopState, t: TurnScript, prompts: seq<Message>)
    requires Balanced(s, prompts, false)
    ensures Balanced(RunTools(s, t), prompts, false)
  {
    var batch := BatchLog(s.context.tools, s.config, t);
    var results := ResultMessages(BatchOutcomes(s.context.tools, t));
    BatchInner(s.context.tools, s.config, t);
    AddInner(s, batch, prompts, results);
    var ran := AddMessages(AddLog(s, batch), results);
    var end := Emit(TurnEnd(Assistant(t.stream.result), results));
    AddOne(ran, end, prompts, false);
    Assoc(s.log, batch, [end]);
  }

  lemma {:induction false} DecideBalanced(s: LoopState, t: TurnScript, continuing: bool, prompts: seq<Message>)
    requires Balanced(s, prompts, false) && s.pending == []
    ensures Balanced(Decide(s, t, continuing), prompts, false)
  {
    var polled := PollSteering(s.(firstTurn := false), t.beforeSteering);
    AddPoll(s, Steering, polled.pending, prompts, false);
    assert Balanced(polled, prompts, false);
    if !continuing && polled.pending == [] {
      AddPoll(polled, FollowUp, PollFollowUp(polled, t.beforeFollowUp).pending, prompts, false);
    }
  }

  lemma {:induction false} TurnBalanced(s: LoopState, t: TurnScript, prompts: seq<Message>)
    requires s.exit == Running && Balanced(s, prompts, s.firstTurn)
    ensures Balanced(Turn(s, t), prompts, false)
    ensures Turn(s, t).exit == Running ==> !Turn(s, t).firstTurn
    ensures Turn(s, t).exit != Running ==> Turn(s, t).pending == []
  {
    var replied := Reply(Inject(s), t.stream);
    InjectBalanced(s, prompts);
    ReplyBalanced(Inject(s), t.stream, prompts);
    if t.stream.result.Failed() {
      FailBalanced(replied, t.stream.result, prompts);
    } else {
      CompletedBalanced(replied, t, prompts);
    }
  }

  lemma {:induction false} FailBalanced(s: LoopState, reply: AssistantMessage, prompts: seq<Message>)
    requires Balanced(s, prompts, false)
    ensures Balanced(Fail(s, reply), prompts, false)
  {
    var end := Emit(TurnEnd(Assistant(reply), []));
    AddOne(s, end, prompts, false);
    AddOne(AddLog(s, [end]), Emit(AgentEnd(s.newMessages)), prompts, false);
  }

  lemma {:induction false} CompletedBalanced(s: LoopState, t: TurnScript, prompts: seq<Message>)
    requires s.exit == Running && s.pending == [] && Balanced(s, prompts, false)
    ensures var worked := RunTools(s, t);
      var r := if t.stop then Close(worked, Stopped)
               else Decide(ApplyUpdate(worked, t.update), t, Continuing(s.context.tools, t));
      && Balanced(r, prompts, false)
      && (r.exit == Running ==> !r.firstTurn)
      && (r.exit != Running ==> r.pending == [])
  {
    var worked := RunTools(s, t);
    RunToolsBalanced(s, t, prompts);
    if t.stop {
      AddOne(worked, Emit(AgentEnd(worked.newMessages)), prompts, false);
    } else {
      DecideBalanced(ApplyUpdate(worked, t.update), t, Continuing(s.context.tools, t), prompts);
      DecideExits(ApplyUpdate(worked, t.update), t, Continuing(s.context.tools, t));
    }
  }

  lemma {:induction false} DecideExits(s: LoopState, t: TurnScript, continuing: bool)
    requires s.exit == Running
    ensures !Decide(s, t, continuing).firstTurn
    ensures Decide(s, t, continuing).exit != Running ==> Decide(s, t, continuing).pending == []
  {
  }

  lemma {:induction false} RunBalanced(s: LoopState, script: seq<TurnScript>, prompts: seq<Message>)
    requires Balanced(s, prompts, s.exit == Running && s.firstTurn)
    requires s.exit != Running ==> s.pending == []
    ensures var r := Run(s, script);
      Balanced(r, prompts, r.exit == Running && r.firstTurn) && (r.exit != Running ==> r.pending == [])
    decreases |script|
  {
    if s.exit == Running && script != [] {
      TurnBalanced(s, script[0], prompts);
      RunBalanced(Turn(s, script[0]), script[1..], prompts);
    }
  }

  lemma {:induction false} StartBalanced(
    prompts: seq<Message>, context: AgentContext, config: Config, queues: Queues, skipPoll: bool, actions: seq<QueueAction>)
    ensures Balanced(Start(prompts, context, config, queues, skipPoll, actions), prompts, true)
  {
    var s := Announced(prompts, context, config, queues, skipPoll);
    var opening := [Emit(AgentStart), Emit(TurnStart)];
    EndedConcat(opening, Brackets(prompts));
    InjectedConcat(false, opening, Brackets(prompts));
    DrainedConcat(opening, Brackets(prompts));
    EndedBrackets(prompts);
    BracketsInner(prompts);
    BracketsInjected(prompts);
    InnerIsNeutral(true, Brackets(prompts));
    assert opening[1..] == [Emit(TurnStart)] && [Emit(TurnStart)][1..] == [];
    assert Injected(false, opening) == [] && OpenAfter(false, opening) && Ended(opening) == [] && Drained(opening) == [];
    assert Balanced(s, prompts, true);
    var started := Start(prompts, context, config, queues, skipPoll, actions);
    AddPoll(s, Steering, started.pending, prompts, true);
  }

  /** Transcript agreement and delivery: over every run, the messages announced on the
      event stream are exactly `newMessages`; the messages announced ahead of provider
      requests are the prompts followed by everything drained from the queues, in the
      order drained, each exactly once; and only a run still in progress has drained
      messages it has yet to announce. */
  lemma {:induction false} EveryRunBalances(
    prompts: seq<Message>, context: AgentContext, config: Config, queues: Queues, skipPoll: bool,
    actions: seq<QueueAction>, script: seq<TurnScript>)
    ensures var r := Run(Start(prompts, context, config, queues, skipPoll, actions), script);
      && Ended(r.log) == r.newMessages
      && Injected(false, r.log) + r.pending == prompts + Drained(r.log)
      && (r.exit != Running ==> Injected(false, r.log) == prompts + Drained(r.log))
  {
    StartBalanced(prompts, context, config, queues, skipPoll, actions);
    RunBalanced(Start(prompts, context, config, queues, skipPoll, actions), script, prompts);
  }

  // ---- the queues ----

  function EnqueuedTo(n: QueueName, actions: seq<QueueAction>): (messages: seq<Message>) {
    if actions == [] then []
    else (if actions[0].Enqueue? && actions[0].queue == n then [actions[0].message] else []) + EnqueuedTo(n, actions[1..])
  }

  predicate NoClears(actions: seq<QueueAction>) {
    forall a :: a in actions ==> !a.Clear?
  }

  lemma {:induction false} EnqueuedConcat(n: QueueName, a: seq<QueueAction>, b: seq<QueueAction>)
    ensures EnqueuedTo(n, a + b) == EnqueuedTo(n, a) + EnqueuedTo(n, b)
    decreases |a|
  {
    if a == [] {
      assert a + b == b;
    } else {
      assert (a + b)[1..] == a[1..] + b;
      EnqueuedConcat(n, a[1..], b);
    }
  }

  lemma {:induction false} ActAllItems(qs: Queues, actions: seq<QueueAction>, n: QueueName)
    ensures |ActAll(qs, actions).Get(n).items| <= |qs.Get(n).items| + |EnqueuedTo(n, actions)|
    ensures NoClears(actions) ==> ActAll(qs, actions).Get(n).items == qs.Get(n).items + EnqueuedTo(n, actions)
    decreases |actions|
  {
    if actions != [] {
      var next := Act(qs, actions[0]);
      ActAllItems(next, actions[1..], n);
      var first := if actions[0].Enqueue? && actions[0].queue == n then [actions[0].message] else [];
      if !actions[0].Clear? {
        assert next.Get(n).items == qs.Get(n).items + first;
        Assoc(qs.Get(n).items, first, EnqueuedTo(n, actions[1..]));
      }
    }
  }

  /** What one queue has held so far: what was taken from it and what it still holds. */
  function Held(s: LoopState, n: QueueName): seq<Message> {
    DrainedFrom(n, s.log) + s.queues.Get(n).items
  }

  /** The state has gone through the queue actions and drains in between, nothing else. */
  predicate Moved(s: LoopState, s': LoopState, actions: seq<QueueAction>, n: QueueName) {
    && |Held(s', n)| <= |Held(s, n)| + |EnqueuedTo(n, actions)|
    && (NoClears(actions) ==> Held(s', n) == Held(s, n) + EnqueuedTo(n, actions))
  }

  lemma {:induction false} MovedTwice(
    s: LoopState, s1: LoopState, s2: LoopState, a: seq<QueueAction>, b: seq<QueueAction>, n: QueueName)
    requires Moved(s, s1, a, n) && Moved(s1, s2, b, n)
    ensures Moved(s, s2, a + b, n)
  {
    EnqueuedConcat(n, a, b);
    if NoClears(a + b) {
      assert NoClears(a) && NoClears(b) by {
        assert forall x :: x in a || x in b ==> x in a + b;
      }
      Assoc(Held(s, n), EnqueuedTo(n, a), EnqueuedTo(n, b));
    }
  }

  lemma {:induction false} Unmoved(s: LoopState, s': LoopState, n: QueueName)
    requires s'.queues == s.queues && DrainedFrom(n, s'.log) == DrainedFrom(n, s.log)
    ensures Moved(s, s', [], n)
  {
    assert Held(s, n) + EnqueuedTo(n, []) == Held(s, n);
  }

  /** Acting on the queues and then draining one of them. */
  lemma {:induction false} PollMoves(s: LoopState, s': LoopState, which: QueueName, actions: seq<QueueAction>, batch: seq<Message>, n: QueueName)
    requires s'.log == s.log + [Poll(which, batch)]
    requires ActAll(s.queues, actions).Get(n).items == (if n == which then batch else []) + s'.queues.Get(n).items
    ensures Moved(s, s', actions, n)
  {
    var e := Poll(which, batch);
    DrainedConcat(s.log, [e]);
    assert [e][1..] == [];
    assert DrainedFrom(n, [e]) == if n == which then batch else [];
    ActAllItems(s.queues, actions, n);
    Assoc(DrainedFrom(n, s.log), DrainedFrom(n, [e]), s'.queues.Get(n).items);
    Assoc(DrainedFrom(n, s.log), s.queues.Get(n).items, EnqueuedTo(n, actions));
  }

  lemma {:induction false} PollSteeringMoves(s: LoopState, actions: seq<QueueAction>, n: QueueName)
    ensures Moved(s, PollSteering(s, actions), actions, n)
  {
    var s' := PollSteering(s, actions);
    PollMoves(s, s', Steering, actions, s'.pending, n);
  }

  lemma {:induction false} PollFollowUpMoves(s: LoopState, actions: seq<QueueAction>, n: QueueName)
    ensures Moved(s, PollFollowUp(s, actions), actions, n)
  {
    var s' := PollFollowUp(s, actions);
    PollMoves(s, s', FollowUp, actions, s'.pending, n);
  }

  /** The queue actions that take effect when the loop decides how to go on. */
  function DecideActions(s: LoopState, t: TurnScript, continuing: bool): seq<QueueAction> {
    t.beforeSteering
    + if !continuing && (s.skipPoll || ActAll(s.queues, t.beforeSteering).steering.items == []) then t.beforeFollowUp else []
  }

  /** The queue actions that take effect during a turn. */
  function TurnActions(s: LoopState, t: TurnScript): seq<QueueAction> {
    if t.stream.result.Failed() || t.stop then [] else DecideActions(s, t, Continuing(s.context.tools, t))
  }

  function RunActions(s: LoopState, script: seq<TurnScript>): seq<QueueAction>
    decreases |script|
  {
    if s.exit != Running || script == [] then []
    else TurnActions(s, script[0]) + RunActions(Turn(s, script[0]), script[1..])
  }

  /** Appending entries none of which is a poll. */
  lemma {:induction false} PollFree(log: Log, entries: Log)
    requires forall e :: e in entries ==> !e.Poll?
    ensures Drained(log + entries) == Drained(log)
    ensures forall n: QueueName :: DrainedFrom(n, log + entries) == DrainedFrom(n, log)
  {
    DrainedConcat(log, entries);
    NoneDrained(entries);
  }

  lemma {:induction false} NoneDrained(log: Log)
    requires forall e :: e in log ==> !e.Poll?
    ensures Drained(log) == [] && forall n: QueueName :: DrainedFrom(n, log) == []
  {
    if log != [] {
      assert log[0] in log && forall e :: e in log[1..] ==> e in log;
      NoneDrained(log[1..]);
    }
  }

  lemma {:induction false} BodyUnmoved(s: LoopState, t: TurnScript)
    ensures var replied := Reply(Inject(s), t.stream);
      && replied.queues == s.queues && replied.skipPoll == s.skipPoll && replied.context.tools == s.context.tools
      && replied.exit == s.exit && replied.pending == []
      && Drained(replied.log) == Drained(s.log) == Drained(RunTools(replied, t).log)
      && forall n: QueueName ::
        DrainedFrom(n, replied.log) == DrainedFrom(n, s.log) == DrainedFrom(n, RunTools(replied, t).log)
  {
    InjectPollFree(s);
    ReplyPollFree(Inject(s), t.stream);
    RunToolsPollFree(Reply(Inject(s), t.stream), t);
  }

  predicate SameDrains(a: Log, b: Log) {
    Drained(a) == Drained(b) && forall n: QueueName :: DrainedFrom(n, a) == DrainedFrom(n, b)
  }

  lemma {:induction false} InjectPollFree(s: LoopState)
    ensures SameDrains(Inject(s).log, s.log)
  {
    BracketsInner(s.pending);
    PollFree(s.log, (if s.firstTurn then [] else [Emit(TurnStart)]) + Brackets(s.pending));
  }

  lemma {:induction false} ReplyPollFree(s: LoopState, stream: Stream)
    ensures SameDrains(Reply(s, stream).log, s.log)
  {
    StreamInner(stream);
    PollFree(s.log, [Request(s.context.messages, s.config.model, s.config.reasoning)] + StreamLog(stream));
  }

  lemma {:induction false} RunToolsPollFree(s: LoopState, t: TurnScript)
    ensures SameDrains(RunTools(s, t).log, s.log)
  {
    BatchInner(s.context.tools, s.config, t);
    PollFree(s.log, BatchLog(s.context.tools, s.config, t)
      + [Emit(TurnEnd(Assistant(t.stream.result), ResultMessages(BatchOutcomes(s.context.tools, t))))]);
  }

  lemma {:induction false} TurnMoves(s: LoopState, t: TurnScript, n: QueueName)
    ensures Moved(s, Turn(s, t), TurnActions(s, t), n)
  {
    var replied := Reply(Inject(s), t.stream);
    var worked := RunTools(replied, t);
    BodyUnmoved(s, t);
    if t.stream.result.Failed() {
      FailPollFree(replied, t.stream.result);
      Unmoved(s, Turn(s, t), n);
    } else if t.stop {
      PollFree(worked.log, [Emit(AgentEnd(worked.newMessages))]);
      Unmoved(s, Turn(s, t), n);
    } else {
      var next := ApplyUpdate(worked, t.update);
      var continuing := Continuing(s.context.tools, t);
      assert next.queues == s.queues && next.skipPoll == s.skipPoll && next.log == worked.log;
      DecideMoves(next, t, continuing, n);
      SameHoldings(s, next, Decide(next, t, continuing), DecideActions(next, t, continuing), n);
    }
  }

  lemma {:induction false} FailPollFree(s: LoopState, reply: AssistantMessage)
    ensures SameDrains(Fail(s, reply).log, s.log)
  {
    var end := Emit(TurnEnd(Assistant(reply), []));
    PollFree(s.log, [end]);
    PollFree(s.log + [end], [Emit(AgentEnd(s.newMessages))]);
  }

  lemma {:induction false} SameHoldings(s: LoopState, s1: LoopState, s2: LoopState, actions: seq<QueueAction>, n: QueueName)
    requires s1.queues == s.queues && DrainedFrom(n, s1.log) == DrainedFrom(n, s.log) && Moved(s1, s2, actions, n)
    ensures Moved(s, s2, actions, n)
  {
  }

  lemma {:induction false} DecideMoves(s: LoopState, t: TurnScript, continuing: bool, n: QueueName)
    ensures Moved(s, Decide(s, t, continuing), DecideActions(s, t, continuing), n)
  {
    var next := s.(firstTurn := false);
    var polled := PollSteering(next, t.beforeSteering);
    PollSteeringMoves(next, t.beforeSteering, n);
    SameHoldings(s, next, polled, t.beforeSteering, n);
    if !continuing && polled.pending == [] {
      var asked := PollFollowUp(polled, t.beforeFollowUp);
      PollFollowUpMoves(polled, t.beforeFollowUp, n);
      MovedTwice(s, polled, asked, t.beforeSteering, t.beforeFollowUp, n);
      assert Held(Decide(s, t, continuing), n) == Held(asked, n);
    } else {
      assert t.beforeSteering + [] == t.beforeSteering;
    }
  }

  lemma {:induction false} RunMoves(s: LoopState, script: seq<TurnScript>, n: QueueName)
    ensures Moved(s, Run(s, script), RunActions(s, script), n)
    decreases |script|
  {
    if s.exit != Running || script == [] {
      Unmoved(s, s, n);
    } else {
      TurnMoves(s, script[0], n);
      RunMoves(Turn(s, script[0]), script[1..], n);
      MovedTwice(s, Turn(s, script[0]), Run(s, script), TurnActions(s, script[0]), RunActions(Turn(s, script[0]), script[1..]), n);
    }
  }

  /** Queue conservation: with arbitrary enqueues and mode changes and no clear, what a
      run took from a queue followed by what the queue still holds is what it held at the
      start followed by what was enqueued: nothing lost, duplicated or reordered. */
  lemma {:induction false} QueuesConserved(
    prompts: seq<Message>, context: AgentContext, config: Config, queues: Queues, skipPoll: bool,
    actions: seq<QueueAction>, script: seq<TurnScript>, n: QueueName)
    ensures var s := Start(prompts, context, config, queues, skipPoll, actions);
      var all := actions + RunActions(s, script);
      && |DrainedFrom(n, Run(s, script).log)| <= |queues.Get(n).items| + |EnqueuedTo(n, all)|
      && (NoClears(all) ==>
        DrainedFrom(n, Run(s, script).log) + Run(s, script).queues.Get(n).items
          == queues.Get(n).items + EnqueuedTo(n, all))
  {
    var announced := Announced(prompts, context, config, queues, skipPoll);
    var s := Start(prompts, context, config, queues, skipPoll, actions);
    var opening := [Emit(AgentStart), Emit(TurnStart)];
    DrainedConcat(opening, Brackets(prompts));
    BracketsInner(prompts);
    InnerIsNeutral(false, Brackets(prompts));
    assert opening[1..] == [Emit(TurnStart)] && [Emit(TurnStart)][1..] == [];
    assert DrainedFrom(n, announced.log) == [];
    assert Held(announced, n) == queues.Get(n).items;
    PollSteeringMoves(announced, actions, n);
    RunMoves(s, script, n);
    MovedTwice(announced, s, Run(s, script), actions, RunActions(s, script), n);
  }

  // ---- how many turns ----

  /** The number of turns a run takes under a script. */
  function TurnsTaken(s: LoopState, script: seq<TurnScript>): nat
    decreases |script|
  {
    if s.exit != Running || script == [] then 0 else 1 + TurnsTaken(Turn(s, script[0]), script[1..])
  }

  /** The number of those whose tool batch asked for another request. */
  function ContinuingTurns(s: LoopState, script: seq<TurnScript>): nat
    decreases |script|
  {
    if s.exit != Running || script == [] then 0
    else (if Continuing(s.context.tools, script[0]) then 1 else 0) + ContinuingTurns(Turn(s, script[0]), script[1..])
  }

  /** A turn that is followed by another was paid for by its tool batch or by a drained message. */
  lemma {:induction false} TurnPays(s: LoopState, t: TurnScript)
    requires s.exit == Running
    ensures |Drained(s.log)| <= |Drained(Turn(s, t).log)|
    ensures Turn(s, t).exit == Running && !Continuing(s.context.tools, t) ==> |Drained(s.log)| < |Drained(Turn(s, t).log)|
  {
    var replied := Reply(Inject(s), t.stream);
    BodyUnmoved(s, t);
    if t.stream.result.Failed() {
      FailPollFree(replied, t.stream.result);
    } else if t.stop {
      PollFree(RunTools(replied, t).log, [Emit(AgentEnd(RunTools(replied, t).newMessages))]);
    } else {
      DecidePays(ApplyUpdate(RunTools(replied, t), t.update), t, Continuing(s.context.tools, t));
    }
  }

  lemma {:induction false} DecidePays(s: LoopState, t: TurnScript, continuing: bool)
    requires s.exit == Running
    ensures |Drained(s.log)| <= |Drained(Decide(s, t, continuing).log)|
    ensures Decide(s, t, continuing).exit == Running && !continuing ==>
      |Drained(s.log)| < |Drained(Decide(s, t, continuing).log)|
  {
    var polled := PollSteering(s.(firstTurn := false), t.beforeSteering);
    OnePoll(s.log, Poll(Steering, polled.pending));
    if !continuing && polled.pending == [] {
      OnePoll(polled.log, Poll(FollowUp, PollFollowUp(polled, t.beforeFollowUp).pending));
    }
  }

  lemma {:induction false} OnePoll(log: Log, e: Entry)
    requires e.Poll?
    ensures Drained(log + [e]) == Drained(log) + e.batch
  {
    DrainedConcat(log, [e]);
    assert [e][1..] == [];
  }

  lemma {:induction false} TurnBound(s: LoopState, script: seq<TurnScript>)
    ensures TurnsTaken(s, script) + |Drained(s.log)| <= 1 + ContinuingTurns(s, script) + |Drained(Run(s, script).log)|
    ensures Run(s, script).exit == Running ==> TurnsTaken(s, script) == |script|
    decreases |script|
  {
    if s.exit == Running && script != [] {
      TurnPays(s, script[0]);
      TurnBound(Turn(s, script[0]), script[1..]);
    }
  }

  /** Termination: a run whose environment stops asking for more also stops. It has
      exited once its script is longer than one turn plus the continuing tool batches
      plus the messages that were ever queued. */
  lemma {:induction false} RunTerminates(
    prompts: seq<Message>, context: AgentContext, config: Config, queues: Queues, skipPoll: bool,
    actions: seq<QueueAction>, script: seq<TurnScript>)
    ensures var s := Start(prompts, context, config, queues, skipPoll, actions);
      var all := actions + RunActions(s, script);
      var queued := |queues.steering.items| + |queues.followUp.items| + |EnqueuedTo(Steering, all)| + |EnqueuedTo(FollowUp, all)|;
      && TurnsTaken(s, script) <= 1 + ContinuingTurns(s, script) + |Drained(Run(s, script).log)|
      && (|script| > 1 + ContinuingTurns(s, script) + queued ==> Run(s, script).exit != Running)
  {
    var s := Start(prompts, context, config, queues, skipPoll, actions);
    TurnBound(s, script);
    DrainedSizes(Run(s, script).log);
    QueuesConserved(prompts, context, config, queues, skipPoll, actions, script, Steering);
    QueuesConserved(prompts, context, config, queues, skipPoll, actions, script, FollowUp);
  }
}
