/** Every run of the loop follows the protocol. */
module LoopProtocol {
  import opened Messages
  import opened ToolCalls
  import opened Protocol
  import opened Batch
  import opened BatchProtocol
  import opened Streaming
  import opened Loop

  /** Where the monitor stands when the loop is between two turns. */
  function Boundary(s: LoopState): Monitor {
    Monitor(
      match s.exit {
        case Running => if s.firstTurn then Injecting(s.pending) else NextTurn(s.pending)
        case Failed => Closed
        case Stopped => Closed
        case Natural => Quiet
      },
      s.newMessages)
  }

  predicate Conforms(s: LoopState) {
    After(START, s.log) == Boundary(s)
  }

  /** The monitor reads some more of the log. */
  lemma {:induction false} Extend(s: LoopState, entries: Log, q: Monitor)
    requires After(START, s.log) == q
    ensures After(START, AddLog(s, entries).log) == After(q, entries)
  {
    AfterConcat(START, s.log, entries);
  }

  // ---- the start of a run ----

  lemma {:induction false} PromptsAccepted(prompts: seq<Message>, ended: seq<Message>)
    ensures After(Monitor(Prompting, ended), Brackets(prompts)) == Monitor(Prompting, ended + prompts)
    decreases |prompts|
  {
    if prompts != [] {
      var m, rest := prompts[0], Brackets(prompts[1..]);
      var q := Monitor(Prompting, ended);
      AfterConcat(q, Bracket(m), rest);
      AfterCons(q, Emit(MessageStart(m)), [Emit(MessageEnd(m))]);
      AfterOne(Monitor(PromptOpen(m), ended), Emit(MessageEnd(m)));
      assert Bracket(m) == [Emit(MessageStart(m))] + [Emit(MessageEnd(m))];
      PromptsAccepted(prompts[1..], ended + [m]);
      Assoc(ended, [m], prompts[1..]);
      assert prompts == [m] + prompts[1..];
    } else {
      assert ended + prompts == ended;
    }
  }

  lemma {:induction false} AnnouncedAccepted(prompts: seq<Message>, context: AgentContext, config: Config, queues: Queues, skipPoll: bool)
    ensures After(START, Announced(prompts, context, config, queues, skipPoll).log) == Monitor(Prompting, prompts)
  {
    AfterConcat(START, [Emit(AgentStart), Emit(TurnStart)], Brackets(prompts));
    AfterSnoc(START, [Emit(AgentStart)], Emit(TurnStart));
    AfterOne(START, Emit(AgentStart));
    assert [Emit(AgentStart), Emit(TurnStart)] == [Emit(AgentStart)] + [Emit(TurnStart)];
    PromptsAccepted(prompts, []);
    assert [] + prompts == prompts;
  }

  lemma {:induction false} StartConforms(
    prompts: seq<Message>, context: AgentContext, config: Config, queues: Queues, skipPoll: bool, actions: seq<QueueAction>)
    ensures Conforms(Start(prompts, context, config, queues, skipPoll, actions))
  {
    var s := Announced(prompts, context, config, queues, skipPoll);
    AnnouncedAccepted(prompts, context, config, queues, skipPoll);
    var started := Start(prompts, context, config, queues, skipPoll, actions);
    AfterSnoc(START, s.log, Poll(Steering, started.pending));
  }

  // ---- one turn ----

  lemma {:induction false} InjectionAccepted(due: seq<Message>, ended: seq<Message>)
    ensures After(Monitor(Injecting(due), ended), Brackets(due)) == Monitor(Injecting([]), ended + due)
    decreases |due|
  {
    if due != [] {
      var m, rest := due[0], Brackets(due[1..]);
      var q := Monitor(Injecting(due), ended);
      AfterConcat(q, Bracket(m), rest);
      AfterCons(q, Emit(MessageStart(m)), [Emit(MessageEnd(m))]);
      AfterOne(Monitor(InjectionOpen(due), ended), Emit(MessageEnd(m)));
      assert Bracket(m) == [Emit(MessageStart(m))] + [Emit(MessageEnd(m))];
      InjectionAccepted(due[1..], ended + [m]);
      Assoc(ended, [m], due[1..]);
      assert due == [m] + due[1..];
    } else {
      assert ended + due == ended;
    }
  }

  lemma {:induction false} InjectAccepted(s: LoopState)
    requires s.exit == Running && Conforms(s)
    ensures After(START, Inject(s).log) == Monitor(Injecting([]), Inject(s).newMessages)
  {
    var opening := if s.firstTurn then [] else [Emit(TurnStart)];
    AfterConcat(START, s.log, opening + Brackets(s.pending));
    AfterConcat(Boundary(s), opening, Brackets(s.pending));
    AfterOne(Boundary(s), Emit(TurnStart));
    InjectionAccepted(s.pending, s.newMessages);
  }

  lemma {:induction false} ReplyAccepted(s: LoopState, stream: Stream)
    requires After(START, s.log) == Monitor(Injecting([]), s.newMessages)
    ensures StartsRead(stream) <= 1 ==>
      After(START, Reply(s, stream).log) == Begun(Monitor(Requested, s.newMessages), stream.result)
    ensures StartsRead(stream) > 1 ==> After(START, Reply(s, stream).log).phase.Violated?
  {
    var request := Request(s.context.messages, s.config.model, s.config.reasoning);
    Extend(s, [request] + StreamLog(stream), Monitor(Injecting([]), s.newMessages));
    AfterCons(Monitor(Injecting([]), s.newMessages), request, StreamLog(stream));
    StreamAccepted(Monitor(Requested, s.newMessages), stream);
  }

  /** The assumption behind parallel batches: ids identify the calls of a reply. */
  predicate DistinctCalls(t: TurnScript) {
    DistinctIds(Jobs(t))
  }

  /** The calls a batch gets to are a prefix of the reply's, non-empty if it has any. */
  lemma {:induction false} ReachedCalls(t: TurnScript)
    ensures Requests(t.stream.result, 0, Reached(Jobs(t)))
    ensures DistinctCalls(t) ==> DistinctIds(Reached(Jobs(t)))
    ensures Reached(Jobs(t)) == [] <==> t.stream.result.ToolCalls() == []
  {
    ReachedExact(Jobs(t));
  }

  lemma {:induction false} ContinuingExact(tools: seq<Tool>, t: TurnScript)
    ensures Continuing(tools, t) <==> |Reached(Jobs(t))| > 0 && !Unanimous(BatchOutcomes(tools, t))
  {
    ReachedCalls(t);
    var outcomes := BatchOutcomes(tools, t);
    assert ShouldTerminate(outcomes) <==> |outcomes| > 0 && Unanimous(outcomes);
  }

  lemma {:induction false} BatchAccepted(q: Monitor, tools: seq<Tool>, config: Config, t: TurnScript) returns (w: Work)
    requires !t.stream.result.Failed() && DistinctCalls(t)
    ensures After(Begun(q, t.stream.result), BatchLog(tools, config, t)) ==
      Monitor(Working(w), Begun(q, t.stream.result).ended + ResultMessages(BatchOutcomes(tools, t)))
    ensures w.reply == t.stream.result && w.open == map[] && w.started == |Reached(Jobs(t))|
    ensures w.reported == ResultMessages(BatchOutcomes(tools, t))
    ensures w.unanimous <==> Unanimous(BatchOutcomes(tools, t))
  {
    var reply := t.stream.result;
    var reached := Reached(Jobs(t));
    var begun := Begun(q, reply);
    ReachedCalls(t);
    if RunsSequentially(tools, config, reply.ToolCalls()) {
      w := SequentialAccepted(tools, reached, begun, begun.phase.work);
    } else {
      w := ParallelAccepted(tools, reached, t.schedule, begun, reply);
    }
  }

  lemma {:induction false} TurnEndAccepted(q: Monitor, w: Work)
    requires q.phase == Working(w) && w.open == map[] && |w.reported| == w.started
    requires w.reply.ToolCalls() != [] && !w.reply.Failed() ==> w.started > 0
    ensures Step(q, Emit(TurnEnd(Assistant(w.reply), w.reported))) ==
      q.(phase := if w.reply.Failed() then TurnFailed else TurnOver(w.started > 0 && !w.unanimous))
  {
  }

  lemma {:induction false} ToolsAccepted(s: LoopState, q: Monitor, t: TurnScript)
    requires !t.stream.result.Failed() && DistinctCalls(t)
    requires After(START, s.log) == Begun(q, t.stream.result) && s.newMessages == Begun(q, t.stream.result).ended
    ensures After(START, RunTools(s, t).log) ==
      Monitor(TurnOver(Continuing(s.context.tools, t)), RunTools(s, t).newMessages)
  {
    var tools := s.context.tools;
    var batch := BatchLog(tools, s.config, t);
    var begun := Begun(q, t.stream.result);
    var w := BatchAccepted(q, tools, s.config, t);
    var end := Emit(TurnEnd(Assistant(t.stream.result), w.reported));
    Extend(s, batch + [end], begun);
    AfterSnoc(begun, batch, end);
    ReachedCalls(t);
    ContinuingExact(tools, t);
    TurnEndAccepted(After(begun, batch), w);
  }

  lemma {:induction false} FailAccepted(s: LoopState, q: Monitor, reply: AssistantMessage)
    requires reply.Failed()
    requires After(START, s.log) == Begun(q, reply) && s.newMessages == Begun(q, reply).ended
    ensures Conforms(Fail(s, reply))
  {
    var begun := Begun(q, reply);
    var end := Emit(TurnEnd(Assistant(reply), []));
    AfterSnoc(START, s.log, end);
    AfterSnoc(START, s.log + [end], Emit(AgentEnd(s.newMessages)));
  }

  lemma {:induction false} AskAccepted(s: LoopState, t: TurnScript)
    requires s.exit == Running && !s.firstTurn
    requires After(START, s.log) == Step(Monitor(TurnOver(false), s.newMessages), Poll(Steering, []))
    ensures Conforms(AskFollowUp(s, t))
  {
    AfterSnoc(START, s.log, Poll(FollowUp, PollFollowUp(s, t.beforeFollowUp).pending));
  }

  lemma {:induction false} DecideAccepted(s: LoopState, t: TurnScript, continuing: bool)
    requires s.exit == Running && After(START, s.log) == Monitor(TurnOver(continuing), s.newMessages)
    ensures Conforms(Decide(s, t, continuing))
  {
    var s0 := s.(firstTurn := false);
    var polled := PollSteering(s0, t.beforeSteering);
    AfterSnoc(START, s.log, Poll(Steering, polled.pending));
    if !continuing && polled.pending == [] {
      AskAccepted(polled, t);
    }
  }

  lemma {:induction false} CloseAccepted(s: LoopState, continuing: bool)
    requires After(START, s.log) == Monitor(TurnOver(continuing), s.newMessages)
    ensures Conforms(Close(s, Stopped))
  {
    AfterSnoc(START, s.log, Emit(AgentEnd(s.newMessages)));
  }

  lemma {:induction false} CompletedTurnConforms(s: LoopState, q: Monitor, t: TurnScript)
    requires s.exit == Running && !t.stream.result.Failed() && DistinctCalls(t)
    requires After(START, s.log) == Begun(q, t.stream.result) && s.newMessages == Begun(q, t.stream.result).ended
    ensures Conforms(if t.stop then Close(RunTools(s, t), Stopped)
                     else Decide(ApplyUpdate(RunTools(s, t), t.update), t, Continuing(s.context.tools, t)))
  {
    var worked := RunTools(s, t);
    ToolsAccepted(s, q, t);
    if t.stop {
      CloseAccepted(worked, Continuing(s.context.tools, t));
    } else {
      DecideAccepted(ApplyUpdate(worked, t.update), t, Continuing(s.context.tools, t));
    }
  }

  /** A turn keeps the run conforming exactly when its stream has at most one `start`. */
  lemma {:induction false} TurnConforms(s: LoopState, t: TurnScript)
    requires s.exit == Running && Conforms(s) && DistinctCalls(t)
    ensures StartsRead(t.stream) <= 1 ==> Conforms(Turn(s, t))
    ensures StartsRead(t.stream) > 1 ==> After(START, Turn(s, t).log).phase.Violated?
  {
    var injected := Inject(s);
    var replied := Reply(injected, t.stream);
    InjectAccepted(s);
    ReplyAccepted(injected, t.stream);
    if StartsRead(t.stream) <= 1 {
      var q := Monitor(Requested, injected.newMessages);
      if t.stream.result.Failed() {
        FailAccepted(replied, q, t.stream.result);
      } else {
        CompletedTurnConforms(replied, q, t);
      }
    } else {
      TurnAppends(s, t);
      StaysViolated(replied.log, Turn(s, t).log);
    }
  }

  lemma {:induction false} StaysViolated(log: Log, longer: Log)
    requires log <= longer && After(START, log).phase.Violated?
    ensures After(START, longer).phase.Violated?
  {
    assert longer == log + longer[|log|..];
    AfterConcat(START, log, longer[|log|..]);
    ViolatedForever(After(START, log), longer[|log|..]);
  }

  /** The log only grows. */
  lemma {:induction false} TurnAppends(s: LoopState, t: TurnScript)
    ensures s.log <= Reply(Inject(s), t.stream).log <= Turn(s, t).log
  {
    var replied := Reply(Inject(s), t.stream);
    assert s.log <= Inject(s).log <= replied.log;
    if !t.stream.result.Failed() {
      var worked := RunTools(replied, t);
      assert replied.log <= worked.log;
      DecideAppends(ApplyUpdate(worked, t.update), t, Continuing(replied.context.tools, t));
    }
  }

  lemma {:induction false} DecideAppends(s: LoopState, t: TurnScript, continuing: bool)
    ensures s.log <= Decide(s, t, continuing).log
  {
    var polled := PollSteering(s.(firstTurn := false), t.beforeSteering);
    assert s.log <= polled.log <= AskFollowUp(polled, t).log;
  }

  lemma {:induction false} RunAppends(s: LoopState, script: seq<TurnScript>)
    ensures s.log <= Run(s, script).log
    decreases |script|
  {
    if s.exit == Running && script != [] {
      TurnAppends(s, script[0]);
      RunAppends(Turn(s, script[0]), script[1..]);
    }
  }

  // ---- whole runs ----

  predicate AllDistinct(script: seq<TurnScript>) {
    forall i :: 0 <= i < |script| ==> DistinctCalls(script[i])
  }

  /** Every stream the run actually read had at most one `start`. */
  predicate SingleStarts(s: LoopState, script: seq<TurnScript>)
    decreases |script|
  {
    s.exit != Running || script == [] ||
    (StartsRead(script[0].stream) <= 1 && SingleStarts(Turn(s, script[0]), script[1..]))
  }

  lemma {:induction false} RunConforms(s: LoopState, script: seq<TurnScript>)
    requires Conforms(s) && AllDistinct(script)
    ensures SingleStarts(s, script) ==> Conforms(Run(s, script))
    ensures !SingleStarts(s, script) ==> After(START, Run(s, script).log).phase.Violated?
    decreases |script|
  {
    if s.exit == Running && script != [] {
      var t := script[0];
      TurnConforms(s, t);
      if StartsRead(t.stream) <= 1 {
        RunConforms(Turn(s, t), script[1..]);
      } else {
        RunAppends(Turn(s, t), script[1..]);
        StaysViolated(Turn(s, t).log, Run(s, script).log);
      }
    }
  }

  /** Whole-trace conformance: for every prompt, context, configuration, queue state
      and script, the log of the run is accepted by the protocol if and only if every
      stream it read had at most one `start`; and then the monitor stands where the
      loop's exit says, with `newMessages` as the announced messages. */
  lemma {:induction false} EveryRunConforms(
    prompts: seq<Message>, context: AgentContext, config: Config, queues: Queues, skipPoll: bool,
    actions: seq<QueueAction>, script: seq<TurnScript>)
    requires AllDistinct(script)
    ensures var s := Start(prompts, context, config, queues, skipPoll, actions);
      && (Accepts(Run(s, script).log) <==> SingleStarts(s, script))
      && (SingleStarts(s, script) ==> Conforms(Run(s, script)))
  {
    var s := Start(prompts, context, config, queues, skipPoll, actions);
    StartConforms(prompts, context, config, queues, skipPoll, actions);
    RunConforms(s, script);
  }
}
