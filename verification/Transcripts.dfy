/** The loop's own transcript: when it agrees with what the run produced, what it
    looks like when a provider request is made, and what a finished run leaves behind. */
module Transcripts {
  import opened Messages
  import opened ToolCalls
  import opened Streaming
  import opened Loop
  import opened LoopProtocol
  import opened LoopTheorems

  /** `prepareNextTurn` did not hand the loop another context. */
  predicate KeepsContext(t: TurnScript) {
    t.update.Some? ==> t.update.value.context.None?
  }

  predicate AllKeepContext(script: seq<TurnScript>) {
    forall i :: 0 <= i < |script| ==> KeepsContext(script[i])
  }

  // ---- what a turn adds ----

  /** The result messages of a turn. */
  function TurnResults(s: LoopState, t: TurnScript): (results: seq<Message>) {
    if t.stream.result.Failed() then [] else ResultMessages(BatchOutcomes(s.context.tools, t))
  }

  /** Messages injected, then the reply, then its results. */
  function TurnBlock(s: LoopState, t: TurnScript): (block: seq<Message>) {
    s.pending + [Assistant(t.stream.result)] + TurnResults(s, t)
  }

  function RunBlocks(s: LoopState, script: seq<TurnScript>): (blocks: seq<Message>)
    decreases |script|
  {
    if s.exit != Running || script == [] then []
    else TurnBlock(s, script[0]) + RunBlocks(Turn(s, script[0]), script[1..])
  }

  /** Deciding what comes next touches neither list of messages. */
  lemma {:induction false} DecideKeeps(s: LoopState, t: TurnScript, continuing: bool)
    ensures Decide(s, t, continuing).newMessages == s.newMessages && Decide(s, t, continuing).context == s.context
  {
  }

  lemma {:induction false} TurnOutcome(s: LoopState, t: TurnScript)
    ensures Turn(s, t).newMessages == s.newMessages + s.pending + [Assistant(t.stream.result)] + TurnResults(s, t)
    ensures KeepsContext(t) ==>
      Turn(s, t).context.messages == Streamed(s.context.messages + s.pending, t.stream) + TurnResults(s, t)
  {
    var replied := Reply(Inject(s), t.stream);
    if t.stream.result.Failed() {
      assert replied.newMessages + [] == replied.newMessages;
      assert replied.context.messages + [] == replied.context.messages;
    } else {
      DecideKeeps(ApplyUpdate(RunTools(replied, t), t.update), t, Continuing(replied.context.tools, t));
    }
  }

  lemma {:induction false} TurnProduces(s: LoopState, t: TurnScript)
    ensures Turn(s, t).newMessages == s.newMessages + TurnBlock(s, t)
  {
    TurnOutcome(s, t);
    Assoc(s.newMessages, s.pending, [Assistant(t.stream.result)]);
    Assoc(s.newMessages, s.pending + [Assistant(t.stream.result)], TurnResults(s, t));
  }

  /** Tool-result pairing: the results of a turn answer the reply's calls one by one
      in source order, starting with the first; there is at least one if the reply has
      a call and did not fail, and one for every call unless an abort was observed. */
  lemma {:induction false} ResultsPaired(s: LoopState, t: TurnScript)
    ensures var calls := t.stream.result.ToolCalls();
      var results := TurnResults(s, t);
      && |results| <= |calls|
      && (forall i :: 0 <= i < |results| ==>
        results[i].ToolResult? && results[i].toolCallId == calls[i].id && results[i].toolName == calls[i].name)
      && (calls != [] && !t.stream.result.Failed() ==> results != [])
      && (|results| < |calls| && !t.stream.result.Failed() ==> t.calls(|results| - 1).abortedAfterwards)
  {
    if !t.stream.result.Failed() {
      var jobs := Jobs(t);
      ReachedExact(jobs);
      assert forall i :: 0 <= i < |Reached(jobs)| ==> Reached(jobs)[i].call == t.stream.result.ToolCalls()[i];
    }
  }

  lemma {:induction false} RunProduces(s: LoopState, script: seq<TurnScript>)
    ensures Run(s, script).newMessages == s.newMessages + RunBlocks(s, script)
    decreases |script|
  {
    if s.exit != Running || script == [] {
      assert s.newMessages + [] == s.newMessages;
    } else {
      TurnProduces(s, script[0]);
      RunProduces(Turn(s, script[0]), script[1..]);
      Assoc(s.newMessages, TurnBlock(s, script[0]), RunBlocks(Turn(s, script[0]), script[1..]));
    }
  }

  // ---- context agreement ----

  /** How much longer the loop's transcript is than it should be. */
  function Excess(s: LoopState, base: seq<Message>): int {
    |s.context.messages| - |base| - |s.newMessages|
  }

  lemma {:induction false} TurnContext(s: LoopState, t: TurnScript, base: seq<Message>)
    requires KeepsContext(t)
    ensures s.context.messages == base + s.newMessages && StartsRead(t.stream) <= 1 ==>
      Turn(s, t).context.messages == base + Turn(s, t).newMessages
    ensures Excess(Turn(s, t), base) == Excess(s, base) + if StartsRead(t.stream) <= 1 then 0 else StartsRead(t.stream) - 1
  {
    TurnOutcome(s, t);
    StreamedExact(s.context.messages + s.pending, t.stream);
    if s.context.messages == base + s.newMessages {
      FourAssoc(base, s.newMessages, s.pending, [Assistant(t.stream.result)], TurnResults(s, t));
    }
  }

  lemma {:induction false} FourAssoc<T>(base: seq<T>, a: seq<T>, b: seq<T>, c: seq<T>, d: seq<T>)
    ensures base + a + b + c + d == base + (a + b + c + d)
  {
  }

  lemma {:induction false} RunContext(s: LoopState, script: seq<TurnScript>, base: seq<Message>)
    requires AllKeepContext(script)
    ensures s.context.messages == base + s.newMessages && SingleStarts(s, script) ==>
      Run(s, script).context.messages == base + Run(s, script).newMessages
    ensures Excess(Run(s, script), base) >= Excess(s, base)
    ensures !SingleStarts(s, script) ==> Excess(Run(s, script), base) > Excess(s, base)
    decreases |script|
  {
    if s.exit == Running && script != [] {
      TurnContext(s, script[0], base);
      RunContext(Turn(s, script[0]), script[1..], base);
    }
  }

  /** The loop's transcript is the initial one followed by `newMessages`, prompts
      included and in spite of the partial messages written over in place, if and only
      if every stream that was read had at most one `start`. */
  lemma {:induction false} ContextAgrees(
    prompts: seq<Message>, context: AgentContext, config: Config, queues: Queues, skipPoll: bool,
    actions: seq<QueueAction>, script: seq<TurnScript>)
    requires AllKeepContext(script)
    ensures var s := Start(prompts, context, config, queues, skipPoll, actions);
      Run(s, script).context.messages == context.messages + Run(s, script).newMessages <==> SingleStarts(s, script)
  {
    RunContext(Start(prompts, context, config, queues, skipPoll, actions), script, context.messages);
  }

  /** A stream that starts twice leaves its first partial in the loop's transcript. */
  lemma {:induction false} SecondStartIsStale(calls: nat -> CallOracle)
    ensures var reply := AssistantMessage([], StopReason.Stop, None);
      var t := TurnScript(Stream([Begin(reply), Begin(reply)], reply), calls, [], None, false, [], []);
      var empty := Queue([], All);
      var r := Run(Start([User("hi")], AgentContext([], []), Config("m", None, Parallel), Queues(empty, empty), false, []), [t]);
      r.context.messages != r.newMessages
  {
    var reply := AssistantMessage([], StopReason.Stop, None);
    var events := [Begin(reply), Begin(reply)];
    var t := TurnScript(Stream(events, reply), calls, [], None, false, [], []);
    var empty := Queue([], All);
    var context := AgentContext([], []);
    TwoStarts(t.stream, reply);
    ContextAgrees([User("hi")], context, Config("m", None, Parallel), Queues(empty, empty), false, [], [t]);
    var s := Start([User("hi")], context, Config("m", None, Parallel), Queues(empty, empty), false, []);
    assert !SingleStarts(s, [t]);
    assert context.messages + Run(s, [t]).newMessages == Run(s, [t]).newMessages;
  }

  lemma {:induction false} TwoStarts(stream: Stream, reply: AssistantMessage)
    requires stream.events == [Begin(reply), Begin(reply)]
    ensures StartsRead(stream) == 2
  {
    var events := stream.events;
    var one := [Begin(reply)];
    assert events[1..] == one && one[1..] == [];
    assert Live(one) == one && Live(events) == events;
    assert Starts(one) == 1 && Starts(events) == 2;
  }

  // ---- request safety ----

  predicate UserSide(messages: seq<Message>) {
    forall m :: m in messages ==> !m.Assistant?
  }

  predicate CleanQueues(qs: Queues) {
    UserSide(qs.steering.items) && UserSide(qs.followUp.items)
  }

  predicate CleanActions(actions: seq<QueueAction>) {
    forall a :: a in actions && a.Enqueue? ==> !a.message.Assistant?
  }

  predicate CleanScript(script: seq<TurnScript>) {
    forall i :: 0 <= i < |script| ==> CleanActions(script[i].beforeSteering) && CleanActions(script[i].beforeFollowUp)
  }

  lemma {:induction false} ActAllClean(qs: Queues, actions: seq<QueueAction>)
    requires CleanQueues(qs) && CleanActions(actions)
    ensures CleanQueues(ActAll(qs, actions))
    decreases |actions|
  {
    if actions != [] {
      assert actions[0] in actions && forall a :: a in actions[1..] ==> a in actions;
      ActAllClean(Act(qs, actions[0]), actions[1..]);
    }
  }

  lemma {:induction false} PollsClean(s: LoopState, actions: seq<QueueAction>)
    requires CleanQueues(s.queues) && CleanActions(actions)
    ensures CleanQueues(PollSteering(s, actions).queues) && UserSide(PollSteering(s, actions).pending)
    ensures CleanQueues(PollFollowUp(s, actions).queues) && UserSide(PollFollowUp(s, actions).pending)
  {
    ActAllClean(s.queues, actions);
  }

  /** User-side messages after a sendable or arbitrary transcript. */
  lemma {:induction false} SendableAppend(messages: seq<Message>, more: seq<Message>)
    requires UserSide(more)
    ensures Sendable(messages + more) <==> more != [] || Sendable(messages)
  {
    if more == [] {
      assert messages + more == messages;
    } else {
      assert (messages + more)[|messages + more| - 1] == more[|more| - 1];
    }
  }

  lemma {:induction false} SafeConcat(a: Log, b: Log)
    ensures SafeRequests(a + b) <==> SafeRequests(a) && SafeRequests(b)
  {
    assert forall e :: e in a + b <==> e in a || e in b;
  }

  lemma {:induction false} InnerSafe(log: Log)
    requires InnerLog(log)
    ensures SafeRequests(log)
  {
  }

  /** The only request of a turn is made from the transcript with the pending messages. */
  lemma {:induction false} ReplySafe(s: LoopState, stream: Stream)
    ensures SafeRequests(Reply(Inject(s), stream).log) <==>
      SafeRequests(s.log) && Sendable(s.context.messages + s.pending)
  {
    var opening := if s.firstTurn then [] else [Emit(TurnStart)];
    var request := Request(s.context.messages + s.pending, s.config.model, s.config.reasoning);
    BracketsInner(s.pending);
    StreamInner(stream);
    InnerSafe(StreamLog(stream));
    InnerSafe(Brackets(s.pending));
    SafeConcat(s.log, opening + Brackets(s.pending));
    SafeConcat(opening, Brackets(s.pending));
    SafeConcat(Inject(s).log, [request] + StreamLog(stream));
    SafeConcat([request], StreamLog(stream));
    assert request in [request];
  }

  lemma {:induction false} RunToolsSafe(s: LoopState, t: TurnScript)
    ensures SafeRequests(RunTools(s, t).log) <==> SafeRequests(s.log)
  {
    var batch := BatchLog(s.context.tools, s.config, t);
    BatchInner(s.context.tools, s.config, t);
    InnerSafe(batch);
    var end := Emit(TurnEnd(Assistant(t.stream.result), ResultMessages(BatchOutcomes(s.context.tools, t))));
    SafeConcat(s.log, batch + [end]);
    SafeConcat(batch, [end]);
  }

  lemma {:induction false} TurnRequests(s: LoopState, t: TurnScript)
    ensures SafeRequests(Turn(s, t).log) <==> SafeRequests(s.log) && Sendable(s.context.messages + s.pending)
  {
    var replied := Reply(Inject(s), t.stream);
    ReplySafe(s, t.stream);
    if t.stream.result.Failed() {
      var end := Emit(TurnEnd(Assistant(t.stream.result), []));
      SafeSnoc(replied.log, end);
      SafeSnoc(replied.log + [end], Emit(AgentEnd(replied.newMessages)));
    } else {
      var worked := RunTools(replied, t);
      RunToolsSafe(replied, t);
      if t.stop {
        SafeSnoc(worked.log, Emit(AgentEnd(worked.newMessages)));
      } else {
        DecideSafe(ApplyUpdate(worked, t.update), t, Continuing(replied.context.tools, t));
      }
    }
  }

  lemma {:induction false} SafeSnoc(log: Log, e: Entry)
    requires !e.Request?
    ensures SafeRequests(log + [e]) <==> SafeRequests(log)
  {
    SafeConcat(log, [e]);
  }

  lemma {:induction false} DecideSafe(s: LoopState, t: TurnScript, continuing: bool)
    ensures SafeRequests(Decide(s, t, continuing).log) <==> SafeRequests(s.log)
  {
    var polled := PollSteering(s.(firstTurn := false), t.beforeSteering);
    SafeSnoc(s.log, Poll(Steering, polled.pending));
    SafeSnoc(polled.log, Poll(FollowUp, PollFollowUp(polled, t.beforeFollowUp).pending));
  }

  /** The turn hands over a transcript from which the next request can be made. */
  lemma {:induction false} TurnHandsOver(s: LoopState, t: TurnScript)
    requires KeepsContext(t) && CleanQueues(s.queues)
    requires CleanActions(t.beforeSteering) && CleanActions(t.beforeFollowUp)
    ensures CleanQueues(Turn(s, t).queues)
    ensures s.exit == Running && Turn(s, t).exit == Running ==> Sendable(Turn(s, t).context.messages + Turn(s, t).pending)
  {
    var replied := Reply(Inject(s), t.stream);
    if !t.stream.result.Failed() && !t.stop {
      var next := ApplyUpdate(RunTools(replied, t), t.update).(firstTurn := false);
      var polled := PollSteering(next, t.beforeSteering);
      PollsClean(next, t.beforeSteering);
      PollsClean(polled, t.beforeFollowUp);
      SendableAppend(next.context.messages, polled.pending);
      SendableAppend(next.context.messages, PollFollowUp(polled, t.beforeFollowUp).pending);
      if Continuing(replied.context.tools, t) {
        ResultsPaired(replied, t);
        SendableAppend(replied.context.messages, TurnResults(replied, t));
      }
    }
  }

  lemma {:induction false} RunRequests(s: LoopState, script: seq<TurnScript>)
    requires AllKeepContext(script) && CleanQueues(s.queues) && CleanScript(script)
    requires s.exit == Running && script != []
    ensures SafeRequests(Run(s, script).log) <==> SafeRequests(s.log) && Sendable(s.context.messages + s.pending)
    decreases |script|
  {
    var s' := Turn(s, script[0]);
    TurnRequests(s, script[0]);
    TurnHandsOver(s, script[0]);
    if s'.exit == Running && script[1..] != [] {
      RunRequests(s', script[1..]);
    }
  }

  /** Request safety: when nobody queues assistant messages, every provider request of
      the run is made from a non-empty transcript that does not end in an assistant
      message if and only if the first one is, that is, if the transcript with the
      prompts is such or the first steering poll finds a message. */
  lemma {:induction false} RequestsAreSafe(
    prompts: seq<Message>, context: AgentContext, config: Config, queues: Queues, skipPoll: bool,
    actions: seq<QueueAction>, script: seq<TurnScript>)
    requires AllKeepContext(script) && CleanQueues(queues) && CleanActions(actions) && CleanScript(script)
    requires script != []
    ensures SafeRequests(Run(Start(prompts, context, config, queues, skipPoll, actions), script).log) <==>
      || Sendable(context.messages + prompts)
      || (!skipPoll && ActAll(queues, actions).steering.items != [])
  {
    var announced := Announced(prompts, context, config, queues, skipPoll);
    var s := Start(prompts, context, config, queues, skipPoll, actions);
    PollsClean(announced, actions);
    SendableAppend(context.messages + prompts, s.pending);
    BracketsInner(prompts);
    InnerSafe(Brackets(prompts));
    SafeConcat([Emit(AgentStart), Emit(TurnStart)], Brackets(prompts));
    SafeConcat(announced.log, [Poll(Steering, s.pending)]);
    RunRequests(s, script);
  }

  /** Prompting with no messages after an assistant reply makes an unsafe request. */
  lemma {:induction false} EmptyPromptIsUnsafe(t: TurnScript)
    requires KeepsContext(t) && CleanActions(t.beforeSteering) && CleanActions(t.beforeFollowUp)
    ensures var empty := Queue([], All);
      var reply := AssistantMessage([], StopReason.Stop, None);
      !SafeRequests(Run(Start([], AgentContext([Assistant(reply)], []), Config("m", None, Parallel),
                              Queues(empty, empty), false, []), [t]).log)
  {
    var empty := Queue([], All);
    var context := AgentContext([Assistant(AssistantMessage([], StopReason.Stop, None))], []);
    assert context.messages + [] == context.messages;
    RequestsAreSafe([], context, Config("m", None, Parallel), Queues(empty, empty), false, [], [t]);
  }

  // ---- the natural exit ----

  /** The turn after which a run ends on its own. */
  lemma {:induction false} NaturalTurn(s: LoopState, t: TurnScript)
    requires s.exit == Running && !s.skipPoll && Turn(s, t).exit == Natural
    ensures !t.stream.result.Failed() && !t.stop && !Continuing(s.context.tools, t)
    ensures Turn(s, t).queues.followUp.items == []
    ensures EnqueuedTo(Steering, t.beforeFollowUp) == [] ==> Turn(s, t).queues.steering.items == []
  {
    var replied := Reply(Inject(s), t.stream);
    if !t.stream.result.Failed() && !t.stop {
      var polled := PollSteering(ApplyUpdate(RunTools(replied, t), t.update).(firstTurn := false), t.beforeSteering);
      ActAllItems(polled.queues, t.beforeFollowUp, Steering);
    }
  }

  /** After a last turn, the follow-up queue is empty, and so is the steering queue unless
      something was queued between the turn's two polls. */
  predicate LeavesNothing(last: TurnScript, queues: Queues) {
    && !last.stream.result.Failed() && !last.stop
    && queues.followUp.items == []
    && (EnqueuedTo(Steering, last.beforeFollowUp) == [] ==> queues.steering.items == [])
  }

  /** Only the first poll of a run is ever skipped. */
  lemma {:induction false} PollsNextTime(s: LoopState, t: TurnScript)
    requires !s.skipPoll
    ensures !Turn(s, t).skipPoll
  {
  }

  lemma {:induction false} NaturalRun(s: LoopState, script: seq<TurnScript>)
    requires s.exit == Running && !s.skipPoll && Run(s, script).exit == Natural
    ensures 0 < TurnsTaken(s, script) <= |script|
    ensures LeavesNothing(script[TurnsTaken(s, script) - 1], Run(s, script).queues)
    decreases |script|
  {
    var s' := Turn(s, script[0]);
    if s'.exit == Running {
      PollsNextTime(s, script[0]);
      NaturalRun(s', script[1..]);
      var k := TurnsTaken(s', script[1..]);
      assert script[1..][k - 1] == script[k];
    } else {
      NaturalTurn(s, script[0]);
      assert TurnsTaken(s', script[1..]) == 0;
    }
  }

  /** Follow-up priority: a run that ends on its own leaves no follow-up behind, and no
      steering message unless one was queued between its last two polls, also when its
      first steering poll was skipped. */
  lemma {:induction false} NaturalExitLeavesNothing(
    prompts: seq<Message>, context: AgentContext, config: Config, queues: Queues, skipPoll: bool,
    actions: seq<QueueAction>, script: seq<TurnScript>)
    requires Run(Start(prompts, context, config, queues, skipPoll, actions), script).exit == Natural
    ensures var s := Start(prompts, context, config, queues, skipPoll, actions);
      && 0 < TurnsTaken(s, script) <= |script|
      && Run(s, script).queues.followUp.items == []
      && (EnqueuedTo(Steering, script[TurnsTaken(s, script) - 1].beforeFollowUp) == [] ==>
        Run(s, script).queues.steering.items == [])
  {
    NaturalRun(Start(prompts, context, config, queues, skipPoll, actions), script);
  }
}
