/** Which runs emit `agent_end`. */
module Endings {
  import opened Messages
  import opened ToolCalls
  import opened Streaming
  import opened Loop
  import opened LoopTheorems
  import opened TurnLogs

  predicate IsAgentEnd(e: Entry) {
    e.Emit? && e.event.AgentEnd?
  }

  predicate Silent(log: Log) {
    forall e :: e in log ==> !IsAgentEnd(e)
  }

  /** The log's last entry, and no other, is an `agent_end` that carries these messages. */
  predicate SignedOff(log: Log, messages: seq<Message>) {
    log != [] && log[|log| - 1] == Emit(AgentEnd(messages)) && Silent(log[..|log| - 1])
  }

  /** One of the first `n` turns closes the run. */
  predicate ClosesWithin(script: seq<TurnScript>, n: nat)
    requires n <= |script|
  {
    exists i :: 0 <= i < n && Closes(script[i])
  }

  lemma {:induction false} SilentParts(before: Log, opening: Log, batch: Log, rest: Log)
    requires Silent(before) && Silent(opening) && Silent(batch) && Silent(rest)
    ensures Silent(before + opening + batch + rest)
  {
  }

  lemma {:induction false} TurnSignsOff(s: LoopState, t: TurnScript)
    requires Silent(s.log)
    ensures if Closes(t) then SignedOff(Turn(s, t).log, Turn(s, t).newMessages) else Silent(Turn(s, t).log)
  {
    var rest := TurnLog(s, t);
    PartsSilent(s, t);
    SignedParts(s.log, Opening(s, t), BatchPart(s, t), rest, Closes(t), Turn(s, t).log, Turn(s, t).newMessages);
  }

  lemma {:induction false} PartsSilent(s: LoopState, t: TurnScript)
    ensures Silent(Opening(s, t)) && Silent(BatchPart(s, t))
  {
    OpeningShape(s, t);
    BatchInner(s.context.tools, s.config, t);
  }

  lemma {:induction false} SignedParts(before: Log, opening: Log, batch: Log, rest: Log, closes: bool, log: Log, messages: seq<Message>)
    requires Silent(before) && Silent(opening) && Silent(batch) && forall e :: e in rest ==> e.Poll? || IsTurnEnd(e)
    requires log == before + opening + batch + rest + if closes then [Emit(AgentEnd(messages))] else []
    ensures if closes then SignedOff(log, messages) else Silent(log)
  {
    var front := before + opening + batch + rest;
    SilentParts(before, opening, batch, rest);
    if closes {
      assert (front + [Emit(AgentEnd(messages))])[..|front|] == front;
    }
  }

  lemma {:induction false} TurnExit(s: LoopState, t: TurnScript)
    requires s.exit == Running
    ensures Turn(s, t).exit.Failed? || Turn(s, t).exit.Stopped? <==> Closes(t)
    ensures Turn(s, t).exit.Failed? <==>
      t.stream.result.stopReason == StopReason.Error || t.stream.result.stopReason == StopReason.Aborted
  {
    if !Closes(t) {
      var worked := RunTools(Reply(Inject(s), t.stream), t);
      DecideExit(ApplyUpdate(worked, t.update), t, Continuing(s.context.tools, t));
    }
  }

  lemma {:induction false} DecideExit(s: LoopState, t: TurnScript, continuing: bool)
    requires s.exit == Running
    ensures var r := Decide(s, t, continuing);
      && (r.exit == Running || r.exit == Natural)
      && (!continuing && DoneWaiting(s.queues, t) ==> r.exit == Natural)
  {
    var polled := PollSteering(s.(firstTurn := false), t.beforeSteering);
    if DoneWaiting(s.queues, t) {
      assert polled.pending == [] && polled.queues == ActAll(s.queues, t.beforeSteering);
    }
  }

  /** Neither of the turn's polls would find a message. */
  predicate DoneWaiting(queues: Queues, t: TurnScript) {
    && ActAll(queues, t.beforeSteering).steering.items == []
    && ActAll(ActAll(queues, t.beforeSteering), t.beforeFollowUp).followUp.items == []
  }

  lemma {:induction false} RunSignsOff(s: LoopState, script: seq<TurnScript>)
    requires s.exit == Running && Silent(s.log)
    ensures var r := Run(s, script);
      && TurnsTaken(s, script) <= |script|
      && (r.exit.Failed? || r.exit.Stopped? <==> ClosesWithin(script, TurnsTaken(s, script)))
      && if ClosesWithin(script, TurnsTaken(s, script)) then SignedOff(r.log, r.newMessages) else Silent(r.log)
    decreases |script|
  {
    if script != [] {
      var s', rest := Turn(s, script[0]), script[1..];
      TurnSignsOff(s, script[0]);
      TurnExit(s, script[0]);
      if s'.exit == Running {
        RunSignsOff(s', rest);
        WithinTail(script, TurnsTaken(s', rest));
      } else {
        assert TurnsTaken(s', rest) == 0 && Run(s', rest) == s';
        WithinTail(script, 0);
      }
    }
  }

  lemma {:induction false} WithinTail(script: seq<TurnScript>, n: nat)
    requires n < |script|
    ensures ClosesWithin(script, n + 1) <==> Closes(script[0]) || ClosesWithin(script[1..], n)
  {
    if i :| 0 <= i < n + 1 && Closes(script[i]) {
      assert i > 0 ==> Closes(script[1..][i - 1]);
    }
    if i :| 0 <= i < n && Closes(script[1..][i]) {
      assert Closes(script[i + 1]);
    }
  }

  /** `agent_end` is emitted if and only if the reply of some turn failed or its stop hook
      fired; it is then the last entry and carries `newMessages`. Every other run, finished
      or not, emits none. This holds of all runs, with repeated call ids and malformed
      streams too. */
  lemma {:induction false} AgentEndExactlyWhenDone(
    prompts: seq<Message>, context: AgentContext, config: Config, queues: Queues, skipPoll: bool,
    actions: seq<QueueAction>, script: seq<TurnScript>)
    ensures var s := Start(prompts, context, config, queues, skipPoll, actions);
      var r := Run(s, script);
      && TurnsTaken(s, script) <= |script|
      && ((exists e :: e in r.log && IsAgentEnd(e)) <==> ClosesWithin(script, TurnsTaken(s, script)))
      && (r.exit.Failed? || r.exit.Stopped? <==> ClosesWithin(script, TurnsTaken(s, script)))
      && (forall i :: 0 <= i < |r.log| && IsAgentEnd(r.log[i]) ==>
            i == |r.log| - 1 && r.log[i] == Emit(AgentEnd(r.newMessages)))
  {
    var s := Start(prompts, context, config, queues, skipPoll, actions);
    StartSilent(prompts, context, config, queues, skipPoll, actions);
    RunSignsOff(s, script);
    OnlyTheLast(Run(s, script).log, Run(s, script).newMessages);
  }

  lemma {:induction false} OnlyTheLast(log: Log, messages: seq<Message>)
    requires Silent(log) || SignedOff(log, messages)
    ensures (exists e :: e in log && IsAgentEnd(e)) <==> SignedOff(log, messages)
    ensures forall i :: 0 <= i < |log| && IsAgentEnd(log[i]) ==> i == |log| - 1 && log[i] == Emit(AgentEnd(messages))
  {
    assert forall i :: 0 <= i < |log| ==> log[i] in log;
    assert forall i :: 0 <= i < |log| - 1 ==> log[i] in log[..|log| - 1];
    assert SignedOff(log, messages) ==> log[|log| - 1] in log && IsAgentEnd(log[|log| - 1]);
  }

  lemma {:induction false} StartSilent(
    prompts: seq<Message>, context: AgentContext, config: Config, queues: Queues, skipPoll: bool, actions: seq<QueueAction>)
    ensures Silent(Start(prompts, context, config, queues, skipPoll, actions).log)
    ensures Start(prompts, context, config, queues, skipPoll, actions).exit == Running
  {
    BracketsInner(prompts);
  }

  // ---- a run that ends without it ----

  const NOTHING := Queue([], All)

  const IDLE_ORACLE :=
    CallOracle(Threw(""), NoHook, false, false, [], 0, Threw(""), None, false)

  /** A reply without tool calls, after which nobody has anything more to say. */
  function PlainTurn(text: string): TurnScript {
    TurnScript(Stream([], AssistantMessage([Text(text)], StopReason.Stop, None)), (i: nat) => IDLE_ORACLE, [], None, false, [], [])
  }

  /** Such a turn ends any run whose queues are empty. */
  lemma {:induction false} PlainTurnEnds(s: LoopState, text: string)
    requires s.exit == Running && s.queues.steering.items == [] && s.queues.followUp.items == []
    ensures Turn(s, PlainTurn(text)).exit == Natural && !Closes(PlainTurn(text))
  {
    var t := PlainTurn(text);
    var content := [Text(text)];
    assert CallsIn(content[1..]) == [] && CallsIn(content) == [];
    DecideExit(ApplyUpdate(RunTools(Reply(Inject(s), t.stream), t), t.update), t, false);
  }

  /** The documentation calls `agent_end` the last event of a run. A greeting and a plain
      answer make a run that finishes without it. */
  lemma {:induction false} NaturalExitIsSilent()
    ensures var s := Start([User("hi")], AgentContext([], []), Config("m", None, Parallel), Queues(NOTHING, NOTHING), false, []);
      var r := Run(s, [PlainTurn("hello")]);
      && r.exit == Natural
      && (forall e :: e in r.log ==> !IsAgentEnd(e))
  {
    var s := Start([User("hi")], AgentContext([], []), Config("m", None, Parallel), Queues(NOTHING, NOTHING), false, []);
    var t := PlainTurn("hello");
    AgentEndExactlyWhenDone([User("hi")], AgentContext([], []), Config("m", None, Parallel), Queues(NOTHING, NOTHING), false, [], [t]);
    PlainTurnEnds(s, "hello");
    assert [t][1..] == [] && Run(s, [t]) == Turn(s, t);
  }
}
