/** The main results about whole runs that draw on several of the other modules. */
module RunTheorems {
  import opened Messages
  import opened ToolCalls
  import opened Protocol
  import opened ProtocolFacts
  import opened AgentView
  import opened AgentLemmas
  import opened Batch
  import opened Loop
  import opened LoopProtocol
  import opened LoopTheorems
  import opened Transcripts

  /** At every point of every run that starts from an idle agent, the pending tool calls
      of the public state are exactly those that have started and not ended, and a
      message is shown as streaming exactly inside a message bracket. */
  lemma {:induction false} PublicStateTracksRun(
    v: View, prompts: seq<Message>, context: AgentContext, config: Config, queues: Queues, skipPoll: bool,
    actions: seq<QueueAction>, script: seq<TurnScript>, k: nat)
    requires v.streamingMessage.None? && v.pendingToolCalls == {}
    requires AllDistinct(script) && SingleStarts(Start(prompts, context, config, queues, skipPoll, actions), script)
    requires k <= |Run(Start(prompts, context, config, queues, skipPoll, actions), script).log|
    ensures var log := Run(Start(prompts, context, config, queues, skipPoll, actions), script).log;
      && Accepts(log[..k])
      && Shows(ReduceLog(v, log[..k]), After(START, log[..k]).phase)
  {
    var log := Run(Start(prompts, context, config, queues, skipPoll, actions), script).log;
    EveryRunConforms(prompts, context, config, queues, skipPoll, actions, script);
    Prefix(log, k);
    ViewShowsProtocol(v, log[..k]);
  }

  /** A refused call is never executed, gets an error result, and keeps the run going:
      unless the stop hook fires, another turn follows. */
  lemma {:induction false} RefusedCallForcesTurn(s: LoopState, t: TurnScript, i: nat)
    requires s.exit == Running && !t.stream.result.Failed() && DistinctCalls(t)
    requires i < |Reached(Jobs(t))| && !Cleared(s.context.tools, Reached(Jobs(t))[i])
    ensures var job := Reached(Jobs(t))[i];
      var history := OfCall(job.call.id, BatchLog(s.context.tools, s.config, t));
      && history == [StartEvent(job.call), EndEvent(OutcomeOf(s.context.tools, job))]
      && OutcomeOf(s.context.tools, job).isError
    ensures Continuing(s.context.tools, t)
    ensures !t.stop ==> Turn(s, t).exit == Running
  {
    RefusedHistory(s.context.tools, s.config, t, i);
    RefusedNeverTerminates(s.context.tools, Reached(Jobs(t)), i);
    ReachedCalls(t);
    if !t.stop {
      ContinuingTurnRuns(s, t);
    }
  }

  lemma {:induction false} RefusedHistory(tools: seq<Tool>, config: Config, t: TurnScript, i: nat)
    requires DistinctCalls(t) && i < |Reached(Jobs(t))| && !Cleared(tools, Reached(Jobs(t))[i])
    ensures var job := Reached(Jobs(t))[i];
      OfCall(job.call.id, BatchLog(tools, config, t)) == [StartEvent(job.call), EndEvent(OutcomeOf(tools, job))]
  {
    var jobs := Reached(Jobs(t));
    ReachedCalls(t);
    PreparationExact(tools, jobs[i]);
    CallLifecycle(tools, jobs, t.schedule, i);
    assert Body(tools, jobs[i]) == [EndEvent(OutcomeOf(tools, jobs[i]))];
    assert [StartEvent(jobs[i].call)] + Body(tools, jobs[i]) == [StartEvent(jobs[i].call), EndEvent(OutcomeOf(tools, jobs[i]))];
  }

  lemma {:induction false} ContinuingTurnRuns(s: LoopState, t: TurnScript)
    requires s.exit == Running && !t.stream.result.Failed() && !t.stop && Continuing(s.context.tools, t)
    ensures Turn(s, t).exit == Running
  {
  }

  /** Nothing that `continue()` takes from a queue is lost: the messages it drains open
      the run, and together with the run's own drains and what stays queued they are
      all that was ever queued, in order. */
  lemma {:induction false} ContinueConserves(
    context: AgentContext, config: Config, queues: Queues, actions: seq<QueueAction>, script: seq<TurnScript>)
    requires EndsInAssistant(context.messages) && Continuation(context.messages, queues).Some?
    ensures var c := Continuation(context.messages, queues).value;
      var s := Start(c.prompts, context, config, c.queues, c.skipPoll, actions);
      var r := Run(s, script);
      var all := actions + RunActions(s, script);
      && c.prompts != []
      && c.prompts <= Injected(false, r.log) + r.pending
      && (NoClears(all) ==>
        var steered := (if c.skipPoll then c.prompts else []) + DrainedFrom(Steering, r.log) + r.queues.steering.items;
        var followed := (if c.skipPoll then [] else c.prompts) + DrainedFrom(FollowUp, r.log) + r.queues.followUp.items;
        && steered == queues.steering.items + EnqueuedTo(Steering, all)
        && followed == queues.followUp.items + EnqueuedTo(FollowUp, all))
  {
    var c := Continuation(context.messages, queues).value;
    var s := Start(c.prompts, context, config, c.queues, c.skipPoll, actions);
    var r := Run(s, script);
    EveryRunBalances(c.prompts, context, config, c.queues, c.skipPoll, actions, script);
    ContinuationParts(context.messages, queues);
    QueuesConserved(c.prompts, context, config, c.queues, c.skipPoll, actions, script, Steering);
    QueuesConserved(c.prompts, context, config, c.queues, c.skipPoll, actions, script, FollowUp);
    var all := actions + RunActions(s, script);
    if NoClears(all) {
      Regroup(if c.skipPoll then c.prompts else [], DrainedFrom(Steering, r.log), r.queues.steering.items,
              c.queues.steering.items, EnqueuedTo(Steering, all));
      Regroup(if c.skipPoll then [] else c.prompts, DrainedFrom(FollowUp, r.log), r.queues.followUp.items,
              c.queues.followUp.items, EnqueuedTo(FollowUp, all));
    }
  }

  /** How a continued run opens, said of the queues alone: with what the steering queue
      held, no further steering message being taken before the first request, or with
      what the follow-up queue held if there was no steering message. */
  lemma {:induction false} ContinueOpens(
    context: AgentContext, config: Config, queues: Queues, actions: seq<QueueAction>, script: seq<TurnScript>)
    requires EndsInAssistant(context.messages)
    requires queues.steering.items != [] || queues.followUp.items != []
    ensures Continuation(context.messages, queues).Some?
    ensures var c := Continuation(context.messages, queues).value;
      var r := Run(Start(c.prompts, context, config, c.queues, c.skipPoll, actions), script);
      var steered := queues.steering.items != [];
      var q := if steered then queues.steering else queues.followUp;
      var opening := [Emit(AgentStart), Emit(TurnStart)] + Brackets(if q.mode == All then q.items else [q.items[0]]);
      && opening <= r.log && |opening| < |r.log|
      && r.log[|opening|].Poll? && r.log[|opening|].queue == Steering
      && (steered ==> r.log[|opening|].batch == [])
      && (!steered && actions == [] ==> r.log[|opening|].batch == [])
  {
    ContinuationExact(context.messages, queues);
    var c := Continuation(context.messages, queues).value;
    var s := Start(c.prompts, context, config, c.queues, c.skipPoll, actions);
    RunAppends(s, script);
    var opening := [Emit(AgentStart), Emit(TurnStart)] + Brackets(c.prompts);
    assert s.log == opening + [Poll(Steering, s.pending)];
    assert s.log[|opening|] == Poll(Steering, s.pending);
  }

  /** Every provider request of a continued run can be sent, the first one included, if
      nobody queued assistant messages. */
  lemma {:induction false} ContinueIsSafe(
    context: AgentContext, config: Config, queues: Queues, actions: seq<QueueAction>, script: seq<TurnScript>)
    requires context.messages != [] && Continuation(context.messages, queues).Some? && script != []
    requires AllKeepContext(script) && CleanQueues(queues) && CleanActions(actions) && CleanScript(script)
    ensures var c := Continuation(context.messages, queues).value;
      SafeRequests(Run(Start(c.prompts, context, config, c.queues, c.skipPoll, actions), script).log)
  {
    var c := Continuation(context.messages, queues).value;
    ContinuationClean(context.messages, queues);
    ContinuationSound(context.messages, queues);
    RequestsAreSafe(c.prompts, context, config, c.queues, c.skipPoll, actions, script);
  }

  lemma {:induction false} ContinuationClean(messages: seq<Message>, queues: Queues)
    requires CleanQueues(queues) && Continuation(messages, queues).Some?
    ensures var c := Continuation(messages, queues).value;
      CleanQueues(c.queues) && UserSide(c.prompts) && !EndsInAssistant(c.prompts)
  {
  }

  lemma {:induction false} ContinuationParts(messages: seq<Message>, queues: Queues)
    requires EndsInAssistant(messages) && Continuation(messages, queues).Some?
    ensures var c := Continuation(messages, queues).value;
      && c.prompts != []
      && (if c.skipPoll then c.prompts else []) + c.queues.steering.items == queues.steering.items
      && (if c.skipPoll then [] else c.prompts) + c.queues.followUp.items == queues.followUp.items
  {
  }

  lemma {:induction false} Regroup(first: seq<Message>, drained: seq<Message>, left: seq<Message>, held: seq<Message>, added: seq<Message>)
    requires drained + left == held + added
    ensures first + drained + left == (first + held) + added
  {
    Assoc(first, drained, left);
    Assoc(first, held, added);
  }
}
