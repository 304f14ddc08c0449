/** What the provider is shown: every request carries the whole conversation so far. */
module Requests {
  import opened Messages
  import opened Batch
  import opened Streaming
  import opened Loop
  import opened LoopProtocol
  import opened LoopTheorems
  import opened Transcripts
  import opened TurnLogs

  /** Every request in the log is made from the initial transcript followed by all the
      messages announced before it. */
  predicate Informed(base: seq<Message>, log: Log) {
    forall i :: 0 <= i < |log| && log[i].Request? ==> log[i].transcript == base + Ended(log[..i])
  }

  predicate NoRequests(log: Log) {
    forall e :: e in log ==> !e.Request?
  }

  lemma {:induction false} InformedMore(base: seq<Message>, log: Log, more: Log)
    requires Informed(base, log) && NoRequests(more)
    ensures Informed(base, log + more)
  {
    var all := log + more;
    assert forall j :: |log| <= j < |all| ==> all[j] in more;
    forall i | 0 <= i < |all| && all[i].Request?
      ensures all[i].transcript == base + Ended(all[..i])
    {
      assert all[..i] == log[..i];
    }
  }

  lemma {:induction false} InformedRequest(base: seq<Message>, log: Log, e: Entry)
    requires Informed(base, log) && e.Request? && e.transcript == base + Ended(log)
    ensures Informed(base, log + [e])
  {
    var all := log + [e];
    forall i | 0 <= i < |all| && all[i].Request?
      ensures all[i].transcript == base + Ended(all[..i])
    {
      assert all[..i] == log[..i];
      assert log[..|log|] == log;
    }
  }

  lemma {:induction false} TurnInformed(s: LoopState, t: TurnScript, base: seq<Message>)
    requires Informed(base, s.log) && Ended(s.log) == s.newMessages && s.context.messages == base + s.newMessages
    ensures Informed(base, Turn(s, t).log)
  {
    var rest := TurnLog(s, t);
    var head := (if s.firstTurn then [] else [Emit(TurnStart)]) + Brackets(s.pending);
    var end := if Closes(t) then [Emit(AgentEnd(Turn(s, t).newMessages))] else [];
    HeadQuiet(s);
    QuietParts(s, t);
    EndedConcat(s.log, head);
    Assoc(base, s.newMessages, s.pending);
    InformedParts(base, s.log, head, RequestOf(s), StreamLog(t.stream), BatchPart(s, t), rest, end, Turn(s, t).log);
  }

  lemma {:induction false} HeadQuiet(s: LoopState)
    ensures var head := (if s.firstTurn then [] else [Emit(TurnStart)]) + Brackets(s.pending);
      NoRequests(head) && Ended(head) == s.pending
  {
    var turn := if s.firstTurn then [] else [Emit(TurnStart)];
    BracketsShape(s.pending);
    NoneEnded(turn);
    EndedConcat(turn, Brackets(s.pending));
    EndedBrackets(s.pending);
  }

  lemma {:induction false} QuietParts(s: LoopState, t: TurnScript)
    ensures NoRequests(StreamLog(t.stream)) && NoRequests(BatchPart(s, t))
  {
    StreamShape(t.stream);
    BatchInner(s.context.tools, s.config, t);
  }

  lemma {:induction false} InformedParts(
    base: seq<Message>, before: Log, head: Log, request: Entry, stream: Log, batch: Log, rest: Log, end: Log, log: Log)
    requires log == before + (head + ([request] + stream)) + batch + rest + end
    requires Informed(base, before) && request.Request? && request.transcript == base + Ended(before + head)
    requires NoRequests(head) && NoRequests(stream) && NoRequests(batch) && NoRequests(end)
    requires forall e :: e in rest ==> e.Poll? || IsTurnEnd(e)
    ensures Informed(base, log)
  {
    InformedMore(base, before, head);
    InformedRequest(base, before + head, request);
    InformedMore(base, before + head + [request], stream);
    InformedMore(base, before + head + [request] + stream, batch);
    InformedMore(base, before + head + [request] + stream + batch, rest);
    InformedMore(base, before + head + [request] + stream + batch + rest, end);
    assert before + head + [request] + stream == before + (head + ([request] + stream));
  }

  lemma {:induction false} RunInformed(s: LoopState, script: seq<TurnScript>, base: seq<Message>)
    requires Informed(base, s.log) && Ended(s.log) == s.newMessages && s.context.messages == base + s.newMessages
    requires AllKeepContext(script) && SingleStarts(s, script)
    ensures Informed(base, Run(s, script).log)
    decreases |script|
  {
    if s.exit == Running && script != [] {
      TurnInformed(s, script[0], base);
      TurnAnnounces(s, script[0]);
      TurnContext(s, script[0], base);
      RunInformed(Turn(s, script[0]), script[1..], base);
    }
  }

  lemma {:induction false} StartQuiet(
    prompts: seq<Message>, context: AgentContext, config: Config, queues: Queues, skipPoll: bool, actions: seq<QueueAction>)
    ensures var s := Start(prompts, context, config, queues, skipPoll, actions);
      NoRequests(s.log) && s.context.messages == context.messages + s.newMessages
  {
    BracketsShape(prompts);
  }

  /** In every run, each provider request is made from the initial transcript followed by
      exactly the messages announced so far, in order: prompts, injected messages, replies
      and tool results. */
  lemma {:induction false} EveryRequestIsInformed(
    prompts: seq<Message>, context: AgentContext, config: Config, queues: Queues, skipPoll: bool,
    actions: seq<QueueAction>, script: seq<TurnScript>)
    requires AllKeepContext(script) && SingleStarts(Start(prompts, context, config, queues, skipPoll, actions), script)
    ensures Informed(context.messages, Run(Start(prompts, context, config, queues, skipPoll, actions), script).log)
  {
    var s := Start(prompts, context, config, queues, skipPoll, actions);
    StartQuiet(prompts, context, config, queues, skipPoll, actions);
    StartBalanced(prompts, context, config, queues, skipPoll, actions);
    InformedMore(context.messages, [], s.log);
    assert [] + s.log == s.log;
    RunInformed(s, script, context.messages);
  }
}
