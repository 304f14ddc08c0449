/** The imperative side: the message queues, the agent with its public state, and one
    run of the loop working on a transcript in place. Every method is proved against
    the state machine in `Loop`. */
module Agents {
  import opened Messages
  import opened ToolCalls
  import opened Batch
  import opened Streaming
  import opened Loop
  import opened AgentView
  import opened AgentLemmas
  import LoopTheorems
  import TurnLogs

  /** How an awaited step came back: normally, or by throwing. */
  datatype Outcome = Pass | Thrown(message: string) {
    predicate IsFailure() {
      Thrown?
    }

    function PropagateFailure(): Outcome
      requires Thrown?
    {
      this
    }
  }

  class PendingMessageQueue {
    var messages: seq<Message>
    var mode: QueueMode

    ghost function Model(): Queue
      reads this
    {
      Queue(messages, mode)
    }

    constructor (mode: QueueMode)
      ensures Model() == Queue([], mode)
    {
      this.messages := [];
      this.mode := mode;
    }

    method Enqueue(message: Message)
      modifies this`messages
      ensures messages == old(messages) + [message]
    {
      messages := messages + [message];
    }

    method HasItems() returns (b: bool)
      ensures b <==> messages != []
    {
      b := |messages| > 0;
    }

    /** The oldest messages leave the queue, all of them or one, in order. */
    method Drain() returns (drained: seq<Message>)
      modifies this`messages
      ensures drained + messages == old(messages)
      ensures drained == [] <==> old(messages) == []
      ensures mode.All? ==> messages == []
      ensures mode.OneAtATime? ==> |drained| <= 1
      ensures (drained, Model()) == old(Model()).Drain()
    {
      if mode == All {
        drained := messages;
        messages := [];
      } else if |messages| == 0 {
        drained := [];
      } else {
        drained := [messages[0]];
        messages := messages[1..];
      }
    }

    method ClearItems()
      modifies this`messages
      ensures messages == []
    {
      messages := [];
    }
  }

  /** How a call of `prompt` or `continue` came back. `Suspended` means that the run is
      still in progress where its script ends. */
  datatype RunResult = Settled | Suspended | Rejected(message: string)

  const BUSY := "Agent is already processing."
  const BUSY_PROMPT :=
    "Agent is already processing a prompt. Use steer() or followUp() to queue messages, or wait for completion."
  const OUTSIDE := "Agent listener invoked outside active run"

  class Agent {
    var messages: seq<Message>
    var isStreaming: bool
    var streamingMessage: Option<Message>
    var pendingToolCalls: set<string>
    var errorMessage: Option<string>
    var activeRun: bool
    var delivered: nat
    const tools: seq<Tool>
    const config: Config
    const steeringQueue: PendingMessageQueue
    const followUpQueue: PendingMessageQueue
    /** What the listeners do with the n-th event they are handed: nothing, or throw. */
    const listenerFault: nat -> Option<string>

    /** The public state when the current run began, the log of that run, and how much of
        the log there was when the run last got going. */
    ghost var base: View
    ghost var log: Log
    ghost var earlier: Log

    ghost function Public(): View
      reads this
    {
      View(messages, streamingMessage, pendingToolCalls, errorMessage)
    }

    ghost function QueueModels(): Queues
      reads this, steeringQueue, followUpQueue
    {
      Queues(steeringQueue.Model(), followUpQueue.Model())
    }

    /** The public state is the fold of the current run's events. */
    ghost predicate Linked()
      reads this
    {
      steeringQueue != followUpQueue && Public() == ReduceLog(base, log) && earlier <= log
    }

    /** Streaming means a run is active, and an idle agent has nothing in flight. */
    ghost predicate Lifecycle()
      reads this
    {
      && (isStreaming <==> activeRun)
      && (!activeRun ==> streamingMessage.None? && pendingToolCalls == {})
    }

    ghost predicate Valid()
      reads this
    {
      steeringQueue != followUpQueue && Lifecycle() && (activeRun ==> Linked())
    }

    /** The latest event that was delivered, one after the first `since`, made a listener throw. */
    ghost predicate JustThrew(since: nat)
      reads this
    {
      since < delivered && listenerFault(delivered - 1).Some?
    }

    /** No listener throws at any of these deliveries. */
    ghost predicate NoFault(from: nat, to: nat) {
      forall n :: from <= n < to ==> listenerFault(n).None?
    }

    constructor (messages: seq<Message>, tools: seq<Tool>, config: Config, steeringMode: QueueMode, followUpMode: QueueMode,
                 listenerFault: nat -> Option<string>)
      ensures Valid() && !activeRun && this.messages == messages
      ensures this.tools == tools && this.config == config && this.listenerFault == listenerFault
      ensures fresh(steeringQueue) && fresh(followUpQueue)
      ensures QueueModels() == Queues(Queue([], steeringMode), Queue([], followUpMode))
    {
      this.messages, this.isStreaming, this.streamingMessage := messages, false, None;
      this.pendingToolCalls, this.errorMessage, this.activeRun, this.delivered := {}, None, false, 0;
      this.tools, this.config, this.listenerFault := tools, config, listenerFault;
      var s := new PendingMessageQueue(steeringMode);
      var f := new PendingMessageQueue(followUpMode);
      this.steeringQueue, this.followUpQueue := s, f;
      this.base, this.log, this.earlier := View(messages, None, {}, None), [], [];
    }

    // ---- the queue interface ----

    method Steer(message: Message)
      requires steeringQueue != followUpQueue
      modifies steeringQueue`messages
      ensures steeringQueue.messages == old(steeringQueue.messages) + [message]
      ensures QueueModels() == Act(old(QueueModels()), QueueAction.Enqueue(Steering, message))
    {
      steeringQueue.Enqueue(message);
    }

    method FollowUpWith(message: Message)
      requires steeringQueue != followUpQueue
      modifies followUpQueue`messages
      ensures followUpQueue.messages == old(followUpQueue.messages) + [message]
      ensures QueueModels() == Act(old(QueueModels()), QueueAction.Enqueue(FollowUp, message))
    {
      followUpQueue.Enqueue(message);
    }

    /** One thing a user of the agent does to its queues. */
    method Perform(a: QueueAction)
      requires steeringQueue != followUpQueue
      modifies steeringQueue, followUpQueue
      ensures QueueModels() == Act(old(QueueModels()), a)
      ensures var (used, other) := if a.queue.Steering? then (steeringQueue, followUpQueue) else (followUpQueue, steeringQueue);
        && other.messages == old(other.messages) && other.mode == old(other.mode)
        && (a.Enqueue? ==> used.messages == old(used.messages) + [a.message] && used.mode == old(used.mode))
        && (a.SetMode? ==> used.messages == old(used.messages) && used.mode == a.mode)
        && (a.Clear? ==> used.messages == [] && used.mode == old(used.mode))
    {
      match a
      case Enqueue(q, m) =>
        if q.Steering? { Steer(m); } else { FollowUpWith(m); }
      case SetMode(q, mode) =>
        if q.Steering? { steeringQueue.mode := mode; } else { followUpQueue.mode := mode; }
      case Clear(q) =>
        if q.Steering? { steeringQueue.ClearItems(); } else { followUpQueue.ClearItems(); }
    }

    method PerformAll(actions: seq<QueueAction>)
      requires steeringQueue != followUpQueue
      modifies steeringQueue, followUpQueue
      ensures QueueModels() == ActAll(old(QueueModels()), actions)
    {
      var i := 0;
      while i < |actions|
        invariant i <= |actions|
        invariant ActAll(QueueModels(), actions[i..]) == ActAll(old(QueueModels()), actions)
      {
        Perform(actions[i]);
        assert actions[i..][1..] == actions[i + 1..];
        i := i + 1;
      }
    }

    // ---- events ----

    /** An observable step that is not an event. */
    ghost method Note(e: Entry)
      requires Linked() && !e.Emit?
      modifies this`log
      ensures Linked() && log == old(log) + [e]
    {
      ReduceSnoc(base, log, e);
      log := log + [e];
    }

    /** Reduces the state for one event, then hands it to the listeners. The state has
        changed even when a listener throws. */
    method ProcessEvents(event: AgentEvent) returns (r: Outcome)
      requires Linked()
      modifies this`messages, this`streamingMessage, this`pendingToolCalls, this`errorMessage, this`delivered, this`log
      ensures Linked() && log == old(log) + [Emit(event)]
      ensures Public() == Reduce(old(Public()), event)
      ensures !activeRun ==> r == Thrown(OUTSIDE) && delivered == old(delivered)
      ensures activeRun ==> delivered == old(delivered) + 1
      ensures activeRun ==> (r.Pass? <==> listenerFault(old(delivered)).None?)
    {
      match event {
        case MessageStart(m) => streamingMessage := Some(m);
        case MessageUpdate(m) => streamingMessage := Some(m);
        case MessageEnd(m) =>
          streamingMessage := None;
          messages := messages + [m];
        case ToolStart(id, _, _) => pendingToolCalls := pendingToolCalls + {id};
        case ToolEnd(id, _, _, _) => pendingToolCalls := pendingToolCalls - {id};
        case TurnEnd(m, _) =>
          if m.Assistant? && m.reply.errorMessage.GetOr("") != "" {
            errorMessage := m.reply.errorMessage;
          }
        case AgentEnd(_) => streamingMessage := None;
        case _ =>
      }
      ReduceSnoc(base, log, Emit(event));
      log := log + [Emit(event)];
      if !activeRun {
        return Thrown(OUTSIDE);
      }
      var fault := listenerFault(delivered);
      delivered := delivered + 1;
      r := if fault.Some? then Thrown(fault.value) else Pass;
    }

    // ---- runs ----

    /** The run this agent would make from its present state. */
    ghost function RunFrom(prompts: seq<Message>, skipPoll: bool, actions: seq<QueueAction>, script: seq<TurnScript>): LoopState
      reads this, steeringQueue, followUpQueue
    {
      Run(Start(prompts, AgentContext(messages, tools), config, QueueModels(), skipPoll, actions), script)
    }

    /** Everything a run leaves behind once it has settled. */
    ghost predicate Idle()
      reads this
    {
      Valid() && !activeRun && !isStreaming && streamingMessage.None? && pendingToolCalls == {}
    }

    /** The transcript ends with the message that tells of the failure, and the public state
        carries its text. */
    ghost predicate Reported(transcript: seq<Message>, error: string, aborted: bool)
      reads this
    {
      && |messages| == |transcript| + 1 && transcript == messages[..|transcript|]
      && var m := messages[|transcript|];
      && m.Assistant? && m.reply.errorMessage == Some(error) && m.reply.content == [Text("")]
      && m.reply.stopReason == (if aborted then StopReason.Aborted else StopReason.Error)
      && (error != "" ==> errorMessage == Some(error))
    }

    /** Closes a run that threw by announcing a failure message. */
    method HandleRunFailure(error: string, aborted: bool) returns (r: Outcome)
      requires Linked() && activeRun
      modifies this`messages, this`streamingMessage, this`pendingToolCalls, this`errorMessage, this`delivered, this`log
      ensures Linked()
      ensures old(delivered) <= delivered && (r.Thrown? ==> JustThrew(old(delivered)))
      ensures var m := Assistant(FailureReply(error, aborted));
        && (messages == old(messages) || messages == old(messages) + [m])
        && (r.Pass? ==>
              && messages == old(messages) + [m]
              && log == old(log) + [Emit(MessageStart(m)), Emit(MessageEnd(m)), Emit(TurnEnd(m, [])), Emit(AgentEnd([m]))])
        && (r.Pass? && error != "" ==> errorMessage == Some(error))
    {
      var m := Assistant(FailureReply(error, aborted));
      :- ProcessEvents(MessageStart(m));
      :- ProcessEvents(MessageEnd(m));
      :- ProcessEvents(TurnEnd(m, []));
      :- ProcessEvents(AgentEnd([m]));
      r := Pass;
    }

    method FinishRun()
      requires steeringQueue != followUpQueue
      modifies this`isStreaming, this`streamingMessage, this`pendingToolCalls, this`activeRun
      ensures Idle()
    {
      isStreaming := false;
      streamingMessage := None;
      pendingToolCalls := {};
      activeRun := false;
    }

    method BeginRun()
      requires Valid() && !activeRun
      modifies this`activeRun, this`isStreaming, this`streamingMessage, this`errorMessage, this`base, this`log, this`earlier
      ensures activeRun && isStreaming && Linked() && log == []
      ensures base == View(messages, None, old(pendingToolCalls), None)
      ensures streamingMessage.None? && errorMessage.None?
    {
      activeRun := true;
      isStreaming := true;
      streamingMessage := None;
      errorMessage := None;
      base, log, earlier := Public(), [], [];
    }

    /** Settles a run: a thrown error is reported first, and whatever comes of that the
        agent ends up idle. */
    method Settle(thrown: Outcome, aborted: bool) returns (result: RunResult)
      requires Linked() && activeRun
      modifies this
      ensures Idle() && !result.Suspended? && (thrown.Pass? ==> result == Settled && messages == old(messages) && log == old(log))
      ensures old(messages) <= messages && old(delivered) <= delivered
      ensures thrown.Thrown? && result == Settled ==> Reported(old(messages), thrown.message, aborted)
      ensures thrown.Thrown? && NoFault(old(delivered), delivered) ==> result == Settled
    {
      result := Settled;
      if thrown.Thrown? {
        var r := HandleRunFailure(thrown.message, aborted);
        if r.Thrown? {
          result := Rejected(r.message);
        }
      }
      FinishRun();
    }

    /** The run had the effect the loop specifies. */
    ghost predicate Ran(transcript: seq<Message>, r: LoopState, result: RunResult)
      reads this, steeringQueue, followUpQueue
    {
      && messages == transcript + r.newMessages
      && QueueModels() == r.queues
      && log == r.log
      && result == if r.exit == Running then Suspended else Settled
    }

    /** The run stands between two of its turns, and what it has announced is what it has added. */
    ghost predicate Paused(run: LoopRun)
      reads this, run
    {
      run.agent == this && activeRun && run.exit == Running && Ended(log) == run.newMessages
    }

    /** What every call keeps that may start a run: the lifecycle, a growing transcript, and
        the run itself if it is still in progress. */
    twostate predicate Kept(result: RunResult, new run: LoopRun?)
      reads this, run
    {
      && Valid() && (!activeRun ==> Idle())
      && (activeRun <==> old(activeRun) || result.Suspended?)
      && (result.Suspended? <==> run != null) && (run != null ==> Paused(run))
      && old(messages) <= messages && old(delivered) <= delivered
    }

    /** A run with its lifecycle: whether it completes, throws, or throws again while
        reporting the failure, it settles with nothing in flight. A run in progress is
        handed back where its script ends. */
    method RunWithLifecycle(prompts: seq<Message>, skipPoll: bool, actions: seq<QueueAction>, script: seq<TurnScript>, aborted: bool)
      returns (result: RunResult, run: LoopRun?)
      requires Valid()
      modifies this, steeringQueue, followUpQueue
      ensures old(activeRun) ==> result == Rejected(BUSY) && unchanged(this, steeringQueue, followUpQueue)
      ensures Kept(result, run)
      ensures run != null ==> fresh(run) && run.Model() == old(RunFrom(prompts, skipPoll, actions, script)) && base.messages == old(messages)
      ensures !old(activeRun) && NoFault(old(delivered), delivered) ==>
        Ran(old(messages), old(RunFrom(prompts, skipPoll, actions, script)), result)
    {
      run := null;
      if activeRun {
        return Rejected(BUSY), null;
      }
      ghost var specified := RunFrom(prompts, skipPoll, actions, script);
      LoopTheorems.EveryRunBalances(prompts, AgentContext(messages, tools), config, QueueModels(), skipPoll, actions, script);
      BeginRun();
      var started := new LoopRun(this, skipPoll);
      var r := started.RunAgentLoop(prompts, actions, script);
      assert r.Pass? ==> started.Model() == specified;
      ReducedTranscript(base, log);
      if r.Pass? && started.exit == Running {
        return Suspended, started;
      }
      result := Settle(r, aborted);
    }

    /** A run in progress goes on, with more of what its environment does. */
    method Resume(run: LoopRun, script: seq<TurnScript>, aborted: bool) returns (result: RunResult)
      requires Valid() && Paused(run)
      modifies this, steeringQueue, followUpQueue, run
      ensures Valid() && (!activeRun ==> Idle()) && (activeRun <==> result.Suspended?) && (activeRun ==> Paused(run))
      ensures old(messages) <= messages && old(delivered) <= delivered
      ensures result.Suspended? ==> run.Model() == old(Run(run.Model(), script)) && base == old(base)
      ensures NoFault(old(delivered), delivered) ==> Ran(old(base).messages, old(Run(run.Model(), script)), result)
    {
      ghost var specified, start, before := Run(run.Model(), script), base, log;
      TurnLogs.RunAnnounces(run.Model(), script);
      ReducedTranscript(start, before);
      earlier := before;
      var r := run.RunLoop(script);
      ReducedTranscript(start, log);
      EndedGrows(before, log);
      if r.Pass? && run.exit == Running {
        return Suspended;
      }
      result := Settle(r, aborted);
    }

    /** Starts a run from new messages. */
    method Prompt(input: seq<Message>, actions: seq<QueueAction>, script: seq<TurnScript>, aborted: bool)
      returns (result: RunResult, run: LoopRun?)
      requires Valid()
      modifies this, steeringQueue, followUpQueue
      ensures old(activeRun) ==> result == Rejected(BUSY_PROMPT) && unchanged(this, steeringQueue, followUpQueue)
      ensures Kept(result, run)
      ensures run != null ==> fresh(run) && run.Model() == old(RunFrom(input, false, actions, script)) && base.messages == old(messages)
      ensures !old(activeRun) && NoFault(old(delivered), delivered) ==>
        Ran(old(messages), old(RunFrom(input, false, actions, script)), result)
    {
      if activeRun {
        return Rejected(BUSY_PROMPT), null;
      }
      result, run := RunWithLifecycle(input, false, actions, script, aborted);
    }

    /** The run that `continue` makes, if any. */
    ghost function ResumedRun(actions: seq<QueueAction>, script: seq<TurnScript>): Option<LoopState>
      reads this, steeringQueue, followUpQueue
    {
      var c := Continuation(messages, QueueModels());
      if c.None? then None
      else Some(Run(Start(c.value.prompts, AgentContext(messages, tools), config, c.value.queues, c.value.skipPoll, actions), script))
    }

    /** What `continue` comes to: the run it makes, or a refusal that changes nothing. */
    ghost predicate Resumed(transcript: seq<Message>, queues: Queues, resumed: Option<LoopState>, result: RunResult)
      reads this, steeringQueue, followUpQueue
    {
      match resumed
      case None => result.Rejected? && messages == transcript && QueueModels() == queues
      case Some(r) => Ran(transcript, r, result)
    }

    /** A run whose specified end is known as `target`; a continuation has no prompts. */
    method RunPromptMessages(prompts: seq<Message>, skipPoll: bool, actions: seq<QueueAction>, script: seq<TurnScript>, aborted: bool,
                             ghost target: LoopState)
      returns (result: RunResult, run: LoopRun?)
      requires Valid() && !activeRun && target == RunFrom(prompts, skipPoll, actions, script)
      modifies this, steeringQueue, followUpQueue
      ensures Kept(result, run) && (run != null ==> fresh(run) && run.Model() == target)
      ensures NoFault(old(delivered), delivered) ==> Ran(old(messages), target, result)
    {
      result, run := RunWithLifecycle(prompts, skipPoll, actions, script, aborted);
    }

    /** After an assistant message only queued messages can start a run: steering first,
        then follow-ups, and what is drained is what is run. */
    method ContinueFromQueues(actions: seq<QueueAction>, script: seq<TurnScript>, aborted: bool, ghost resumed: Option<LoopState>)
      returns (result: RunResult, run: LoopRun?)
      requires Valid() && !activeRun && EndsInAssistant(messages) && resumed == ResumedRun(actions, script)
      modifies this, steeringQueue, followUpQueue
      ensures Kept(result, run) && (run != null ==> fresh(run) && Some(run.Model()) == resumed)
      ensures resumed.None? || NoFault(old(delivered), delivered) ==> Resumed(old(messages), old(QueueModels()), resumed, result)
    {
      var queuedSteering := steeringQueue.Drain();
      if |queuedSteering| > 0 {
        assert resumed == Some(RunFrom(queuedSteering, true, actions, script));
        result, run := RunPromptMessages(queuedSteering, true, actions, script, aborted, resumed.value);
        return;
      }
      var queuedFollowUps := followUpQueue.Drain();
      if |queuedFollowUps| > 0 {
        assert resumed == Some(RunFrom(queuedFollowUps, false, actions, script));
        result, run := RunPromptMessages(queuedFollowUps, false, actions, script, aborted, resumed.value);
        return;
      }
      result, run := Rejected("Cannot continue from message role: assistant"), null;
    }

    /** Resumes from the transcript. */
    method Continue(actions: seq<QueueAction>, script: seq<TurnScript>, aborted: bool) returns (result: RunResult, run: LoopRun?)
      requires Valid()
      modifies this, steeringQueue, followUpQueue
      ensures old(activeRun) || old(messages) == [] ==> result.Rejected? && unchanged(this, steeringQueue, followUpQueue)
      ensures Kept(result, run)
      ensures run != null ==> fresh(run) && Some(run.Model()) == old(ResumedRun(actions, script))
      ensures !old(activeRun) && old(messages) != [] && (old(ResumedRun(actions, script)).None? || NoFault(old(delivered), delivered)) ==>
        Resumed(old(messages), old(QueueModels()), old(ResumedRun(actions, script)), result)
    {
      if activeRun {
        return Rejected("Agent is already processing. Wait for completion before continuing."), null;
      }
      if |messages| == 0 {
        return Rejected("No messages to continue from"), null;
      }
      ghost var resumed := ResumedRun(actions, script);
      if messages[|messages| - 1].Assistant? {
        result, run := ContinueFromQueues(actions, script, aborted, resumed);
      } else {
        result, run := RunPromptMessages([], false, actions, script, aborted, resumed.value);
      }
    }

    /** Clears the transcript, the runtime state and the queues. Called during a run it
        breaks the agreement between streaming and the active run; otherwise it keeps it. */
    method Reset()
      requires Valid()
      modifies this`messages, this`isStreaming, this`streamingMessage, this`pendingToolCalls, this`errorMessage
      modifies steeringQueue`messages, followUpQueue`messages
      ensures messages == [] && errorMessage.None? && activeRun == old(activeRun)
      ensures QueueModels().steering.items == [] && QueueModels().followUp.items == []
      ensures Lifecycle() <==> !activeRun
      ensures !activeRun ==> Idle()
    {
      messages := [];
      isStreaming := false;
      streamingMessage := None;
      pendingToolCalls := {};
      errorMessage := None;
      followUpQueue.ClearItems();
      steeringQueue.ClearItems();
    }
  }

  /** One run of the loop: a transcript and a list of new messages updated in place. */
  class LoopRun {
    const agent: Agent
    var messages: seq<Message>
    var tools: seq<Tool>
    var config: Config
    var newMessages: seq<Message>
    var pending: seq<Message>
    var firstTurn: bool
    var skipPoll: bool
    var exit: Exit

    ghost function Model(): LoopState
      reads this, agent, agent.steeringQueue, agent.followUpQueue
    {
      LoopState(AgentContext(messages, tools), config, newMessages, pending, firstTurn, skipPoll,
                agent.QueueModels(), agent.log, exit)
    }

    ghost predicate Ready()
      reads agent
    {
      agent.Linked() && agent.activeRun
    }

    /** Whatever happened, the agent's state still is the fold of its log over the state
        in which the run began. */
    twostate predicate Steady()
      reads agent
    {
      && Ready()
      && agent.isStreaming == old(agent.isStreaming)
      && agent.base == old(agent.base)
      && agent.earlier == old(agent.earlier)
      && old(agent.delivered) <= agent.delivered
    }

    constructor (agent: Agent, skipPoll: bool)
      ensures this.agent == agent && this.skipPoll == skipPoll
      ensures messages == agent.messages && tools == agent.tools && config == agent.config
      ensures newMessages == [] && pending == [] && firstTurn && exit == Running
    {
      this.agent, this.skipPoll := agent, skipPoll;
      this.messages, this.tools, this.config := agent.messages, agent.tools, agent.config;
      this.newMessages, this.pending, this.firstTurn, this.exit := [], [], true, Running;
    }

    method Announce(m: Message) returns (r: Outcome)
      requires Ready()
      modifies agent
      ensures Steady() && (r.Thrown? ==> agent.JustThrew(old(agent.delivered)))
      ensures r.Pass? ==> agent.log == old(agent.log) + Bracket(m)
    {
      r := Pass;
      :- agent.ProcessEvents(MessageStart(m));
      :- agent.ProcessEvents(MessageEnd(m));
      r := Pass;
    }

    // ---- polling the queues ----

    method GetSteeringMessages(actions: seq<QueueAction>)
      requires Ready()
      modifies this`pending, this`skipPoll, agent`log, agent.steeringQueue, agent.followUpQueue
      ensures Steady() && Model() == PollSteering(old(Model()), actions)
    {
      agent.PerformAll(actions);
      if skipPoll {
        skipPoll := false;
        pending := [];
      } else {
        pending := agent.steeringQueue.Drain();
      }
      agent.Note(Poll(Steering, pending));
    }

    method GetFollowUpMessages(actions: seq<QueueAction>)
      requires Ready()
      modifies this`pending, agent`log, agent.steeringQueue, agent.followUpQueue
      ensures Steady() && Model() == PollFollowUp(old(Model()), actions)
    {
      agent.PerformAll(actions);
      pending := agent.followUpQueue.Drain();
      agent.Note(Poll(FollowUp, pending));
    }

    // ---- messages ----

    method ProcessPendingMessages() returns (r: Outcome)
      requires Ready()
      modifies this`messages, this`newMessages, this`pending, agent
      ensures Steady() && (r.Thrown? ==> agent.JustThrew(old(agent.delivered)))
      ensures r.Pass? ==>
        && agent.log == old(agent.log) + Brackets(old(pending))
        && messages == old(messages) + old(pending)
        && newMessages == old(newMessages) + old(pending)
        && pending == []
    {
      var k := 0;
      while k < |pending|
        invariant k <= |pending| && pending == old(pending) && Steady()
        invariant agent.log == old(agent.log) + Brackets(pending[..k])
        invariant messages == old(messages) + pending[..k]
        invariant newMessages == old(newMessages) + pending[..k]
      {
        var m := pending[k];
        BracketsGrow(old(agent.log), pending, k, agent.log);
        :- Announce(m);
        messages := messages + [m];
        newMessages := newMessages + [m];
        assert pending[..k + 1] == pending[..k] + [m];
        k := k + 1;
      }
      assert pending[..k] == pending;
      pending := [];
      r := Pass;
    }

    method FinalizeStreamMessage(stream: Stream, addedPartial: bool) returns (r: Outcome)
      requires Ready() && (addedPartial ==> messages != [])
      modifies this`messages, agent
      ensures Steady() && (r.Thrown? ==> agent.JustThrew(old(agent.delivered)))
      ensures r.Pass? ==>
        var final := Assistant(stream.result);
        && messages == (if addedPartial then old(messages)[..|old(messages)| - 1] else old(messages)) + [final]
        && agent.log == old(agent.log) + (if addedPartial then [] else [Emit(MessageStart(final))]) + [Emit(MessageEnd(final))]
    {
      var final := Assistant(stream.result);
      if addedPartial {
        messages := messages[|messages| - 1 := final];
      } else {
        messages := messages + [final];
        :- agent.ProcessEvents(MessageStart(final));
      }
      :- agent.ProcessEvents(MessageEnd(final));
      r := Pass;
    }

    method HandleStreamEvent(e: StreamEvent, addedPartial: bool) returns (r: Outcome)
      requires Ready() && !e.Finish? && (addedPartial ==> messages != [])
      modifies this`messages, agent
      ensures Steady() && (r.Thrown? ==> agent.JustThrew(old(agent.delivered)))
      ensures agent.log == old(agent.log) + if e.Begin? || addedPartial then [Announcement(e)] else []
      ensures messages == ShowPartial(old(messages), e, addedPartial)
    {
      r := Pass;
      if e.Begin? {
        messages := messages + [Assistant(e.partial)];
        r := agent.ProcessEvents(MessageStart(Assistant(e.partial)));
      } else if addedPartial {
        messages := messages[|messages| - 1 := Assistant(e.partial)];
        r := agent.ProcessEvents(MessageUpdate(Assistant(e.partial)));
      }
    }

    method StreamAssistantResponse(stream: Stream) returns (r: Outcome, reply: AssistantMessage)
      requires Ready()
      modifies this`messages, agent
      ensures Steady() && (r.Thrown? ==> agent.JustThrew(old(agent.delivered)))
      ensures r.Pass? ==>
        && reply == stream.result
        && messages == Streamed(old(messages), stream)
        && agent.log == old(agent.log) + ([Request(old(messages), config.model, config.reasoning)] + StreamLog(stream))
    {
      reply := stream.result;
      agent.Note(Request(messages, config.model, config.reasoning));
      Assoc(old(agent.log), [Request(old(messages), config.model, config.reasoning)], StreamLog(stream));
      var addedPartial, n;
      r, addedPartial, n := ReadEvents(stream.events);
      if r.Pass? {
        StreamCompletes(old(messages), old(agent.log) + [Request(old(messages), config.model, config.reasoning)],
                        stream, n, messages, agent.log, addedPartial);
        r := FinalizeStreamMessage(stream, addedPartial);
      }
    }

    /** Reads events up to a terminal one, showing each partial in the transcript. */
    method ReadEvents(events: seq<StreamEvent>) returns (r: Outcome, addedPartial: bool, i: nat)
      requires Ready()
      modifies this`messages, agent
      ensures Steady() && (r.Thrown? ==> agent.JustThrew(old(agent.delivered)))
      ensures r.Pass? ==> i <= |events| && (i < |events| ==> events[i].Finish?)
      ensures r.Pass? ==> StreamSoFar(old(messages), old(agent.log), events[..i], messages, agent.log, addedPartial)
    {
      r, addedPartial, i := Pass, false, 0;
      assert events[..0] == [];
      while r.Pass? && i < |events| && !events[i].Finish?
        invariant i <= |events| && Steady() && (r.Thrown? ==> agent.JustThrew(old(agent.delivered)))
        invariant r.Pass? ==> StreamSoFar(old(messages), old(agent.log), events[..i], messages, agent.log, addedPartial)
      {
        assert events[..i + 1] == events[..i] + [events[i]];
        StreamGrows(old(messages), old(agent.log), events[..i], messages, agent.log, addedPartial, events[i]);
        r := HandleStreamEvent(events[i], addedPartial);
        addedPartial := addedPartial || events[i].Begin?;
        i := i + 1;
      }
    }

    // ---- tools ----

    method Record(e: Entry) returns (r: Outcome)
      requires Ready()
      modifies agent
      ensures Steady() && (r.Thrown? ==> agent.JustThrew(old(agent.delivered)))
      ensures agent.log == old(agent.log) + [e]
    {
      r := Pass;
      if e.Emit? {
        r := agent.ProcessEvents(e.event);
      } else {
        agent.Note(e);
      }
    }

    method ExecutePreparedToolCall(job: Job, args: Json) returns (r: Outcome)
      requires Ready()
      modifies agent
      ensures Steady() && (r.Thrown? ==> agent.JustThrew(old(agent.delivered)))
      ensures r.Pass? ==>
        agent.log == old(agent.log) + ([Execute(job.call.id, args)] + UpdateEvents(job.call, Delivered(job.oracle)))
    {
      agent.Note(Execute(job.call.id, args));
      ghost var running := agent.log;
      ghost var updates := Delivered(job.oracle);
      var acceptingUpdates := true;
      for k := 0 to |job.oracle.callbacks|
        invariant Steady()
        invariant acceptingUpdates <==> k == 0 || k - 1 < job.oracle.settledAfter
        invariant agent.log == running + UpdateEvents(job.call, updates[..if k < |updates| then k else |updates|])
      {
        if k == job.oracle.settledAfter {
          acceptingUpdates := false;
        }
        if acceptingUpdates {
          var partialResult := job.oracle.callbacks[k];
          assert updates[..k + 1] == updates[..k] + [partialResult];
          :- agent.ProcessEvents(ToolUpdate(job.call.id, job.call.name, job.call.arguments, partialResult));
          assert UpdateEvents(job.call, updates[..k + 1]) ==
            UpdateEvents(job.call, updates[..k]) + [UpdateEvent(job.call, partialResult)];
        }
      }
      assert updates[..|updates|] == updates;
      r := Pass;
    }

    /** A refused call has its outcome at once; a cleared one executes. */
    method PrepareAndExecute(job: Job) returns (r: Outcome, finalized: Finalized)
      requires Ready()
      modifies agent
      ensures Steady() && (r.Thrown? ==> agent.JustThrew(old(agent.delivered)))
      ensures r.Pass? ==> finalized == OutcomeOf(tools, job)
      ensures r.Pass? ==> agent.log + [EndEvent(finalized)] == old(agent.log) + Body(tools, job)
    {
      finalized := Finalized(job.call, ErrorOutcome(""), true);
      var preparation := PrepareToolCall(tools, job);
      match preparation {
        case Immediate(result, isError) =>
          r, finalized := Pass, Finalized(job.call, result, isError);
        case Prepared(args) =>
          r := ExecutePreparedToolCall(job, args);
          finalized := FinalizeExecuted(job);
          Assoc(old(agent.log), [Execute(job.call.id, args)] + UpdateEvents(job.call, Delivered(job.oracle)), [EndEvent(finalized)]);
      }
    }

    /** Prepares, executes and finalises one call, from its start to its end event. */
    method RunCall(job: Job) returns (r: Outcome, finalized: Finalized)
      requires Ready()
      modifies agent
      ensures Steady() && (r.Thrown? ==> agent.JustThrew(old(agent.delivered)))
      ensures r.Pass? ==>
        && finalized == OutcomeOf(tools, job)
        && agent.log == old(agent.log) + ([StartEvent(job.call)] + Body(tools, job))
    {
      finalized := Finalized(job.call, ErrorOutcome(""), true);
      :- agent.ProcessEvents(ToolStart(job.call.id, job.call.name, job.call.arguments));
      r, finalized := PrepareAndExecute(job);
      if r.Thrown? {
        return;
      }
      Assoc(old(agent.log), [StartEvent(job.call)], Body(tools, job));
      :- agent.ProcessEvents(ToolEnd(finalized.call.id, finalized.call.name, finalized.result, finalized.isError));
      r := Pass;
    }

    method RunAndReport(job: Job) returns (r: Outcome, finalized: Finalized)
      requires Ready()
      modifies agent
      ensures Steady() && (r.Thrown? ==> agent.JustThrew(old(agent.delivered)))
      ensures r.Pass? ==> finalized == OutcomeOf(tools, job) && agent.log == old(agent.log) + CallLog(tools, job)
    {
      r, finalized := RunCall(job);
      if r.Thrown? {
        return;
      }
      :- Announce(ResultMessage(finalized));
      Assoc(old(agent.log), [StartEvent(job.call)] + Body(tools, job), Bracket(ResultMessage(finalized)));
      r := Pass;
    }

    method ExecuteToolCallsSequential(jobs: seq<Job>) returns (r: Outcome, finalized: seq<Finalized>)
      requires Ready()
      modifies agent
      ensures Steady() && (r.Thrown? ==> agent.JustThrew(old(agent.delivered)))
      ensures r.Pass? ==>
        && finalized == OutcomesOf(tools, Reached(jobs))
        && agent.log == old(agent.log) + SequentialLog(tools, Reached(jobs))
    {
      r, finalized := Pass, [];
      var k := 0;
      var aborted := false;
      while r.Pass? && k < |jobs| && !aborted
        invariant k <= |jobs| && Steady() && (r.Thrown? ==> agent.JustThrew(old(agent.delivered)))
        invariant Reached(jobs) == jobs[..k] + if aborted then [] else Reached(jobs[k..])
        invariant r.Pass? ==> finalized == OutcomesOf(tools, jobs[..k])
        invariant r.Pass? ==> agent.log == old(agent.log) + SequentialLog(tools, jobs[..k])
      {
        var f;
        SequentialGrows(old(agent.log), tools, jobs, k, agent.log);
        OutcomesSnoc(tools, jobs, k);
        ReachedStep(jobs, k);
        r, f := RunAndReport(jobs[k]);
        finalized := finalized + [f];
        aborted := jobs[k].oracle.abortedAfterwards;
        k := k + 1;
      }
      if r.Pass? {
        ReachedAll(jobs, k, aborted);
      }
    }

    /** Starts and prepares one call of a parallel batch; a refused call ends at once. */
    method StartCall(job: Job) returns (r: Outcome, fiber: Fiber)
      requires Ready()
      modifies agent
      ensures Steady() && (r.Thrown? ==> agent.JustThrew(old(agent.delivered)))
      ensures r.Pass? ==> fiber == FiberOf(tools, job) && agent.log == old(agent.log) + PrepareOne(tools, job)
    {
      fiber := FiberOf(tools, job);
      :- agent.ProcessEvents(ToolStart(job.call.id, job.call.name, job.call.arguments));
      var preparation := PrepareToolCall(tools, job);
      match preparation {
        case Immediate(result, isError) =>
          :- agent.ProcessEvents(ToolEnd(job.call.id, job.call.name, result, isError));
          fiber := Done(Finalized(job.call, result, isError));
        case Prepared(args) =>
          fiber := Fiber.Ready(job, args);
      }
      r := Pass;
    }

    /** The sequential part of a parallel batch: every call is started and prepared,
        and refused calls end at once. */
    method PrepareToolCalls(jobs: seq<Job>) returns (r: Outcome, fibers: seq<Fiber>)
      requires Ready()
      modifies agent
      ensures Steady() && (r.Thrown? ==> agent.JustThrew(old(agent.delivered)))
      ensures r.Pass? ==>
        && fibers == FibersOf(tools, Reached(jobs))
        && agent.log == old(agent.log) + PrepareLog(tools, Reached(jobs))
    {
      r, fibers := Pass, [];
      var k := 0;
      var aborted := false;
      while r.Pass? && k < |jobs| && !aborted
        invariant k <= |jobs| && Steady() && (r.Thrown? ==> agent.JustThrew(old(agent.delivered)))
        invariant Reached(jobs) == jobs[..k] + if aborted then [] else Reached(jobs[k..])
        invariant r.Pass? ==> fibers == FibersOf(tools, jobs[..k])
        invariant r.Pass? ==> agent.log == old(agent.log) + PrepareLog(tools, jobs[..k])
      {
        var fiber;
        PrepareGrows(old(agent.log), tools, jobs, k, agent.log);
        OutcomesSnoc(tools, jobs, k);
        ReachedStep(jobs, k);
        r, fiber := StartCall(jobs[k]);
        fibers := fibers + [fiber];
        aborted := jobs[k].oracle.abortedAfterwards;
        k := k + 1;
      }
      if r.Pass? {
        ReachedAll(jobs, k, aborted);
      }
    }

    /** The concurrent part: at each step the schedule lets one running call move. */
    method AwaitAll(jobs: seq<Job>, started: seq<Fiber>, schedule: seq<nat>) returns (r: Outcome, finalized: seq<Finalized>)
      requires Ready() && started == FibersOf(tools, jobs)
      modifies agent
      ensures Steady() && (r.Thrown? ==> agent.JustThrew(old(agent.delivered)))
      ensures r.Pass? ==>
        && finalized == OutcomesOf(tools, jobs)
        && agent.log == old(agent.log) + Merge(started, schedule)
    {
      finalized := [];
      var fibers, order := started, schedule;
      ServeAtFirst(tools, jobs);
      while !AllDone(fibers)
        invariant Steady() && AllServe(tools, jobs, fibers)
        invariant agent.log + Merge(fibers, order) == old(agent.log) + Merge(started, schedule)
        decreases TotalLeft(fibers)
      {
        var k := Pick(fibers, order);
        MergeMoves(tools, jobs, fibers, order, agent.log);
        :- Record(NextEntry(fibers[k]));
        fibers, order := fibers[k := Advance(fibers[k])], Tail(order);
      }
      assert agent.log + [] == agent.log;
      ServedToTheEnd(tools, jobs, fibers);
      finalized := seq(|fibers|, i requires 0 <= i < |fibers| => fibers[i].final);
      r := Pass;
    }

    method AnnounceAll(messages: seq<Message>) returns (r: Outcome)
      requires Ready()
      modifies agent
      ensures Steady() && (r.Thrown? ==> agent.JustThrew(old(agent.delivered)))
      ensures r.Pass? ==> agent.log == old(agent.log) + Brackets(messages)
    {
      r := Pass;
      var k := 0;
      while r.Pass? && k < |messages|
        invariant k <= |messages| && Steady() && (r.Thrown? ==> agent.JustThrew(old(agent.delivered)))
        invariant r.Pass? ==> agent.log == old(agent.log) + Brackets(messages[..k])
      {
        BracketsGrow(old(agent.log), messages, k, agent.log);
        r := Announce(messages[k]);
        k := k + 1;
      }
      assert r.Pass? ==> messages[..k] == messages;
    }

    method ExecuteToolCallsParallel(jobs: seq<Job>, schedule: seq<nat>) returns (r: Outcome, finalized: seq<Finalized>)
      requires Ready()
      modifies agent
      ensures Steady() && (r.Thrown? ==> agent.JustThrew(old(agent.delivered)))
      ensures r.Pass? ==>
        && finalized == OutcomesOf(tools, Reached(jobs))
        && agent.log == old(agent.log) + ParallelLog(tools, Reached(jobs), schedule)
    {
      finalized := [];
      var fibers;
      r, fibers := PrepareToolCalls(jobs);
      if r.Pass? {
        r, finalized := AwaitAll(Reached(jobs), fibers, schedule);
      }
      if r.Pass? {
        ParallelParts(old(agent.log), tools, Reached(jobs), schedule);
        r := AnnounceAll(ResultMessages(finalized));
      }
    }

    method ProcessToolCalls(t: TurnScript) returns (r: Outcome, hasMore: bool, results: seq<Message>)
      requires Ready()
      modifies this`messages, this`newMessages, agent
      ensures Steady() && (r.Thrown? ==> agent.JustThrew(old(agent.delivered)))
      ensures r.Pass? ==>
        && hasMore == Continuing(tools, t)
        && results == ResultMessages(BatchOutcomes(tools, t))
        && agent.log == old(agent.log) + BatchLog(tools, config, t)
        && messages == old(messages) + results
        && newMessages == old(newMessages) + results
    {
      hasMore, results := false, [];
      var calls := t.stream.result.ToolCalls();
      if |calls| == 0 {
        assert Reached(Jobs(t)) == [];
        EmptyBatch(tools, config, t);
        return Pass, false, [];
      }
      var finalized;
      if RunsSequentially(tools, config, calls) {
        r, finalized := ExecuteToolCallsSequential(Jobs(t));
      } else {
        r, finalized := ExecuteToolCallsParallel(Jobs(t), t.schedule);
      }
      if r.Thrown? {
        return;
      }
      results := ResultMessages(finalized);
      messages := messages + results;
      newMessages := newMessages + results;
      hasMore := !ShouldTerminate(finalized);
    }

    // ---- turns ----

    method OpenTurn() returns (r: Outcome)
      requires Ready()
      modifies this`messages, this`newMessages, this`pending, agent
      ensures Steady() && (r.Thrown? ==> agent.JustThrew(old(agent.delivered)))
      ensures r.Pass? ==> Model() == Inject(old(Model()))
    {
      ghost var s := Model();
      if !firstTurn {
        r := Pass;
        :- agent.ProcessEvents(TurnStart);
      }
      :- ProcessPendingMessages();
      Assoc(s.log, if firstTurn then [] else [Emit(TurnStart)], Brackets(s.pending));
      r := Pass;
    }

    method AskAssistant(stream: Stream) returns (r: Outcome, reply: AssistantMessage)
      requires Ready()
      modifies this`messages, this`newMessages, agent
      ensures Steady() && (r.Thrown? ==> agent.JustThrew(old(agent.delivered)))
      ensures r.Pass? ==> reply == stream.result && Model() == Reply(old(Model()), stream)
    {
      r, reply := StreamAssistantResponse(stream);
      newMessages := newMessages + [Assistant(reply)];
    }

    method FailTurn(reply: AssistantMessage) returns (r: Outcome)
      requires Ready()
      modifies this`exit, agent
      ensures Steady() && (r.Thrown? ==> agent.JustThrew(old(agent.delivered)))
      ensures r.Pass? ==> Model() == Fail(old(Model()), reply)
    {
      r := Pass;
      :- agent.ProcessEvents(TurnEnd(Assistant(reply), []));
      :- agent.ProcessEvents(AgentEnd(newMessages));
      exit := Exit.Failed;
      r := Pass;
    }

    method EndTurn(reply: AssistantMessage, results: seq<Message>, ghost target: LoopState) returns (r: Outcome)
      requires Ready() && target == AddLog(Model(), [Emit(TurnEnd(Assistant(reply), results))])
      modifies agent
      ensures Steady() && (r.Thrown? ==> agent.JustThrew(old(agent.delivered)))
      ensures r.Pass? ==> Model() == target
    {
      r := agent.ProcessEvents(TurnEnd(Assistant(reply), results));
    }

    method WorkTurn(t: TurnScript) returns (r: Outcome, hasMore: bool)
      requires Ready()
      modifies this`messages, this`newMessages, agent
      ensures Steady() && (r.Thrown? ==> agent.JustThrew(old(agent.delivered)))
      ensures r.Pass? ==> hasMore == Continuing(tools, t) && Model() == RunTools(old(Model()), t)
    {
      ghost var s := Model();
      var results;
      r, hasMore, results := ProcessToolCalls(t);
      if r.Thrown? {
        return;
      }
      RunToolsParts(s, t, Model());
      r := EndTurn(t.stream.result, results, RunTools(s, t));
    }

    method PrepareNextTurn(update: Option<TurnUpdate>)
      modifies this`messages, this`tools, this`config, this`firstTurn
      ensures Model() == ApplyUpdate(old(Model()), update).(firstTurn := false)
    {
      if update.Some? {
        config := ResolveConfig(config, update.value);
        if update.value.context.Some? {
          messages, tools := update.value.context.value.messages, update.value.context.value.tools;
        }
      }
      firstTurn := false;
    }

    /** The second half of a turn whose reply did not fail. */
    method CompleteTurn(t: TurnScript) returns (r: Outcome, hasMore: bool)
      requires Ready()
      modifies this, agent, agent.steeringQueue, agent.followUpQueue
      ensures Steady() && (r.Thrown? ==> agent.JustThrew(old(agent.delivered)))
      ensures r.Pass? ==> hasMore == Continuing(old(tools), t) && Model() == Completed(RunTools(old(Model()), t), t)
    {
      r, hasMore := WorkTurn(t);
      if r.Thrown? {
        return;
      }
      if t.stop {
        r := Pass;
        :- agent.ProcessEvents(AgentEnd(newMessages));
        exit := Stopped;
        return Pass, hasMore;
      }
      PrepareNextTurn(t.update);
      GetSteeringMessages(t.beforeSteering);
      r := Pass;
    }

    method RunOneTurn(t: TurnScript) returns (r: Outcome, hasMore: bool)
      requires Ready()
      modifies this, agent, agent.steeringQueue, agent.followUpQueue
      ensures Steady() && (r.Thrown? ==> agent.JustThrew(old(agent.delivered)))
      ensures r.Pass? ==> Model() == OneTurn(old(Model()), t)
      ensures r.Pass? && !t.stream.result.Failed() ==> hasMore == Continuing(old(tools), t)
    {
      hasMore := false;
      :- OpenTurn();
      var reply;
      r, reply := AskAssistant(t.stream);
      if r.Thrown? {
        return;
      }
      if reply.Failed() {
        r := FailTurn(reply);
        return;
      }
      r, hasMore := CompleteTurn(t);
    }

    /** Turn `i` of the script, as a step of the nested loops towards `target`. */
    method RunScriptedTurn(script: seq<TurnScript>, i: nat, hadMore: bool, ghost before: LoopState, ghost target: LoopState)
      returns (r: Outcome, hasMore: bool, ghost s: LoopState, next: nat)
      requires Ready() && exit == Running && i < |script| && (hadMore || pending != [])
      requires before == Model() && Leads(before, hadMore, script, i, target)
      modifies this, agent, agent.steeringQueue, agent.followUpQueue
      ensures Steady() && (r.Thrown? ==> agent.JustThrew(old(agent.delivered)))
      ensures next == i + 1 && (r.Pass? ==> s == Model() && Leads(s, hasMore, script, next, target))
    {
      next := i + 1;
      r, hasMore := RunOneTurn(script[i]);
      s := Model();
      if r.Pass? {
        OnwardTurn(before, hadMore, script, i, hasMore);
      }
    }

    /** The inner loop: turns while there are tool calls to continue or pending messages.
        `over` when the run has exited or the script has nothing more. */
    method RunTurns(script: seq<TurnScript>, from: nat, ghost before: LoopState, ghost target: LoopState)
      returns (r: Outcome, i: nat, over: bool, ghost s: LoopState)
      requires Ready() && exit == Running && before == Model() && Leads(before, true, script, from, target)
      modifies this, agent, agent.steeringQueue, agent.followUpQueue
      ensures Steady() && (r.Thrown? ==> agent.JustThrew(old(agent.delivered)))
      ensures r.Pass? ==> s == Model() && from <= i <= |script|
      ensures r.Pass? && over ==> s == target
      ensures r.Pass? && !over ==> exit == Running && pending == [] && from < i && Leads(s, false, script, i, target)
    {
      var hasMore := true;
      s := before;
      r, i := Pass, from;
      while r.Pass? && exit == Running && i < |script| && (hasMore || |pending| > 0)
        invariant from <= i <= |script| && (i == from ==> hasMore)
        invariant Steady() && (r.Thrown? ==> agent.JustThrew(old(agent.delivered)))
        invariant r.Pass? ==> s == Model() && Leads(s, hasMore, script, i, target)
        decreases |script| - i
      {
        r, hasMore, s, i := RunScriptedTurn(script, i, hasMore, s, target);
      }
      over := exit != Running || hasMore || |pending| > 0;
      if r.Pass? && over {
        LeadsHome(s, hasMore, script, i, target);
      }
    }

    /** The outer loop: when the turns are done, follow-up messages start them again. */
    method RunLoop(script: seq<TurnScript>) returns (r: Outcome)
      requires Ready() && exit == Running
      modifies this, agent, agent.steeringQueue, agent.followUpQueue
      ensures Steady() && (r.Thrown? ==> agent.JustThrew(old(agent.delivered)))
      ensures r.Pass? ==> Model() == Run(old(Model()), script)
    {
      ghost var s := Model();
      ghost var target := Run(s, script);
      LeadsAtFirst(s, script);
      r := RunFollowUps(script, s, target);
    }

    method RunFollowUps(script: seq<TurnScript>, ghost before: LoopState, ghost target: LoopState) returns (r: Outcome)
      requires Ready() && exit == Running && before == Model() && Leads(before, true, script, 0, target)
      modifies this, agent, agent.steeringQueue, agent.followUpQueue
      ensures Steady() && (r.Thrown? ==> agent.JustThrew(old(agent.delivered)))
      ensures r.Pass? ==> Model() == target
    {
      ghost var s := before;
      var i, over := 0, false;
      while true
        invariant i <= |script| && Steady() && exit == Running
        invariant s == Model() && Leads(s, true, script, i, target)
        decreases |script| - i
      {
        r, i, over, s := RunTurns(script, i, s, target);
        if r.Thrown? || over {
          return;
        }
        s := AskForFollowUps(script, i, s, target);
        if |pending| == 0 {
          return Pass;
        }
      }
    }

    /** Polls the follow-up queue once the turns are done; with nothing there the run is over. */
    method AskForFollowUps(script: seq<TurnScript>, i: nat, ghost before: LoopState, ghost target: LoopState)
      returns (ghost s: LoopState)
      requires Ready() && exit == Running && pending == [] && before == Model() && Leads(before, false, script, i, target)
      modifies this`pending, this`exit, agent`log, agent.steeringQueue, agent.followUpQueue
      ensures Steady() && s == Model()
      ensures if pending == [] then exit == Natural && s == target else exit == Running && Leads(s, true, script, i, target)
    {
      LeadsThroughFollowUp(before, script, i, target);
      GetFollowUpMessages(script[i - 1].beforeFollowUp);
      if |pending| == 0 {
        exit := Natural;
      }
      s := Model();
    }

    /** The opening events of a run. */
    method AnnouncePrompts(prompts: seq<Message>) returns (r: Outcome)
      requires Ready() && newMessages == [] && agent.log == []
      modifies this`messages, this`newMessages, agent
      ensures Steady() && (r.Thrown? ==> agent.JustThrew(old(agent.delivered)))
      ensures r.Pass? ==>
        && messages == old(messages) + prompts && newMessages == prompts
        && agent.log == [Emit(AgentStart), Emit(TurnStart)] + Brackets(prompts)
    {
      newMessages := prompts;
      messages := messages + prompts;
      :- agent.ProcessEvents(AgentStart);
      :- agent.ProcessEvents(TurnStart);
      assert agent.log == [Emit(AgentStart), Emit(TurnStart)];
      r := AnnounceAll(prompts);
    }

    /** A whole run, from `agent_start`. A continuation has no prompts. */
    method RunAgentLoop(prompts: seq<Message>, actions: seq<QueueAction>, script: seq<TurnScript>) returns (r: Outcome)
      requires Ready() && exit == Running && firstTurn && newMessages == [] && pending == [] && agent.log == []
      modifies this, agent, agent.steeringQueue, agent.followUpQueue
      ensures Steady() && (r.Thrown? ==> agent.JustThrew(old(agent.delivered)))
      ensures r.Pass? ==> Model() == Run(
        Start(prompts, AgentContext(old(messages), old(tools)), old(config), old(agent.QueueModels()), old(skipPoll), actions), script)
    {
      r := Pass;
      :- AnnouncePrompts(prompts);
      GetSteeringMessages(actions);
      r := RunLoop(script);
    }
  }

  /** A run that is interrupted between two turns and resumed is the run without the
      interruption. */
  method PromptInParts(agent: Agent, input: seq<Message>, actions: seq<QueueAction>, first: seq<TurnScript>, second: seq<TurnScript>, aborted: bool)
    returns (result: RunResult)
    requires agent.Valid() && !agent.activeRun
    modifies agent, agent.steeringQueue, agent.followUpQueue
    ensures agent.NoFault(old(agent.delivered), agent.delivered) ==>
      agent.Ran(old(agent.messages), old(agent.RunFrom(input, false, actions, first + second)), result)
  {
    ghost var s := Start(input, AgentContext(agent.messages, agent.tools), agent.config, agent.QueueModels(), false, actions);
    RunConcat(s, first, second);
    var run;
    result, run := agent.Prompt(input, actions, first, aborted);
    if run != null {
      result := agent.Resume(run, second, aborted);
    }
  }

  /** A call of the agent's interface, with what happens during the run it starts. With
      `ResumeCall` the run in progress, if any, gets on with its work. A client resets the
      agent only while it is idle and gives up a `ResetCall` during a run. */
  datatype ApiCall =
    | PromptCall(input: seq<Message>, actions: seq<QueueAction>, script: seq<TurnScript>, aborted: bool)
    | ContinueCall(actions: seq<QueueAction>, script: seq<TurnScript>, aborted: bool)
    | QueueCall(action: QueueAction)
    | ResumeCall(script: seq<TurnScript>, aborted: bool)
    | ResetCall

  /** Whether a run is in progress after a call, given whether one was before. */
  predicate ActiveAfter(active: bool, call: ApiCall, result: RunResult) {
    match call
    case PromptCall(_, _, _, _) => active || result.Suspended?
    case ContinueCall(_, _, _) => active || result.Suspended?
    case ResumeCall(_, _) => active && result.Suspended?
    case _ => active
  }

  predicate InProgress(calls: seq<ApiCall>, results: seq<RunResult>)
    requires |calls| == |results|
    decreases |calls|
  {
    var n := |calls|;
    n > 0 && ActiveAfter(InProgress(calls[..n - 1], results[..n - 1]), calls[n - 1], results[n - 1])
  }

  /** What a client sees of one call, given the transcript before it. */
  predicate WellBehaved(active: bool, call: ApiCall, result: RunResult, before: seq<Message>, after: seq<Message>) {
    && (active && (call.PromptCall? || call.ContinueCall?) ==> result.Rejected? && after == before)
    && (call.ResetCall? ==> after == if active then before else [])
    && (call.QueueCall? ==> after == before)
    && (!call.ResetCall? ==> before <= after)
  }

  /** Any client of the agent. Whatever sequence of calls it makes and whatever the
      listeners throw: streaming means an active run, there is at most one, every call but
      a reset leaves a transcript that extends the one before it, and an agent without a
      run in progress is idle with nothing in flight. */
  method UseAgent(agent: Agent, calls: seq<ApiCall>) returns (results: seq<RunResult>, transcripts: seq<seq<Message>>)
    requires agent.Valid() && !agent.activeRun
    modifies agent, agent.steeringQueue, agent.followUpQueue
    ensures agent.Valid() && |results| == |calls| && |transcripts| == |calls| + 1
    ensures transcripts[0] == old(agent.messages) && transcripts[|calls|] == agent.messages
    ensures agent.activeRun <==> InProgress(calls, results)
    ensures !InProgress(calls, results) ==> agent.Idle()
    ensures forall i :: 0 <= i < |calls| ==>
      WellBehaved(InProgress(calls[..i], results[..i]), calls[i], results[i], transcripts[i], transcripts[i + 1])
  {
    results, transcripts := [], [agent.messages];
    var run: LoopRun? := null;
    for i := 0 to |calls|
      invariant agent.Valid() && |results| == i && |transcripts| == i + 1
      invariant agent.activeRun <==> run != null
      invariant run != null ==> fresh(run) && agent.Paused(run)
      invariant transcripts[0] == old(agent.messages) && transcripts[i] == agent.messages
      invariant agent.activeRun <==> InProgress(calls[..i], results)
      invariant forall k :: 0 <= k < i ==>
        WellBehaved(InProgress(calls[..k], results[..k]), calls[k], results[k], transcripts[k], transcripts[k + 1])
    {
      var result;
      ghost var sofar := results;
      result, run := Call(agent, run, calls[i]);
      results, transcripts := results + [result], transcripts + [agent.messages];
      assert results[..i] == sofar && calls[..i + 1][..i] == calls[..i];
      assert forall k :: 0 <= k < i ==> results[..k] == sofar[..k];
    }
    assert calls[..|calls|] == calls;
  }

  method Call(agent: Agent, run: LoopRun?, call: ApiCall) returns (result: RunResult, next: LoopRun?)
    requires agent.Valid() && (agent.activeRun <==> run != null) && (run != null ==> agent.Paused(run))
    modifies agent, agent.steeringQueue, agent.followUpQueue, run
    ensures agent.Valid() && (agent.activeRun <==> next != null) && (next != null ==> agent.Paused(next))
    ensures next == null || next == run || fresh(next)
    ensures agent.activeRun <==> ActiveAfter(old(agent.activeRun), call, result)
    ensures WellBehaved(old(agent.activeRun), call, result, old(agent.messages), agent.messages)
  {
    next := run;
    match call
    case PromptCall(input, actions, script, aborted) =>
      var started;
      result, started := agent.Prompt(input, actions, script, aborted);
      next := if run == null then started else run;
    case ContinueCall(actions, script, aborted) =>
      var started;
      result, started := agent.Continue(actions, script, aborted);
      next := if run == null then started else run;
    case QueueCall(action) =>
      agent.Perform(action);
      result := Settled;
    case ResumeCall(script, aborted) =>
      result := Rejected("No run in progress");
      if run != null {
        result := agent.Resume(run, script, aborted);
        next := if result.Suspended? then run else null;
      }
    case ResetCall =>
      result := Settled;
      if agent.activeRun {
        result := Rejected("A run is in progress");
      } else {
        agent.Reset();
      }
  }
}
