/** What one turn adds to the log: an opening with the turn's only provider request,
    the tool batch, and a closing. */
module TurnLogs {
  import opened Messages
  import opened ToolCalls
  import opened Batch
  import opened Streaming
  import opened Loop
  import opened LoopTheorems
  import opened Transcripts

  function RequestOf(s: LoopState): Entry {
    Request(s.context.messages + s.pending, s.config.model, s.config.reasoning)
  }

  function Opening(s: LoopState, t: TurnScript): (log: Log) {
    ((if s.firstTurn then [] else [Emit(TurnStart)]) + Brackets(s.pending)) + ([RequestOf(s)] + StreamLog(t.stream))
  }

  function BatchPart(s: LoopState, t: TurnScript): (log: Log) {
    if t.stream.result.Failed() then [] else BatchLog(s.context.tools, s.config, t)
  }

  /** The turn after which the loop emits `agent_end`: its reply failed, or the stop hook
      said so. */
  predicate Closes(t: TurnScript) {
    t.stream.result.stopReason == StopReason.Error || t.stream.result.stopReason == StopReason.Aborted || t.stop
  }

  predicate IsTurnEnd(e: Entry) {
    e.Emit? && e.event.TurnEnd?
  }

  predicate IsMessageEvent(e: Entry) {
    e.Emit? && (e.event.MessageStart? || e.event.MessageUpdate? || e.event.MessageEnd?)
  }

  lemma {:induction false} StreamShape(stream: Stream)
    ensures forall e :: e in StreamLog(stream) ==> IsMessageEvent(e)
  {
    HeardLive(Live(stream.events));
  }

  lemma {:induction false} OpeningShape(s: LoopState, t: TurnScript)
    ensures RequestOf(s) in Opening(s, t)
    ensures forall e :: e in Opening(s, t) ==> e == RequestOf(s) || e == Emit(TurnStart) || IsMessageEvent(e)
  {
    var head := (if s.firstTurn then [] else [Emit(TurnStart)]) + Brackets(s.pending);
    var tail := [RequestOf(s)] + StreamLog(t.stream);
    BracketsShape(s.pending);
    StreamShape(t.stream);
    assert tail[0] == RequestOf(s);
    assert forall e :: e in Opening(s, t) <==> e in head || e in tail;
  }

  /** The log of a turn. The rest is `turn_end` and polls, and `agent_end` exactly after a
      closing turn. */
  lemma {:induction false} TurnLog(s: LoopState, t: TurnScript) returns (rest: Log)
    ensures Turn(s, t).log == s.log + Opening(s, t) + BatchPart(s, t) + rest
      + if Closes(t) then [Emit(AgentEnd(Turn(s, t).newMessages))] else []
    ensures forall e :: e in rest ==> e.Poll? || IsTurnEnd(e)
  {
    var replied := Reply(Inject(s), t.stream);
    OpeningLog(s, t);
    if t.stream.result.Failed() {
      rest := [Emit(TurnEnd(Assistant(t.stream.result), []))];
      assert replied.log + BatchPart(s, t) == replied.log;
    } else {
      var worked := RunTools(replied, t);
      var end := Emit(TurnEnd(Assistant(t.stream.result), ResultMessages(BatchOutcomes(s.context.tools, t))));
      Assoc(replied.log, BatchPart(s, t), [end]);
      if t.stop {
        rest := [end];
      } else {
        var polls := DecideLog(ApplyUpdate(worked, t.update), t, Continuing(s.context.tools, t));
        rest := [end] + polls;
        Assoc(replied.log + BatchPart(s, t), [end], polls);
        assert worked.log + polls == worked.log + polls + [];
      }
    }
  }

  lemma {:induction false} OpeningLog(s: LoopState, t: TurnScript)
    ensures Reply(Inject(s), t.stream).log == s.log + Opening(s, t)
  {
    Assoc(s.log, (if s.firstTurn then [] else [Emit(TurnStart)]) + Brackets(s.pending), [RequestOf(s)] + StreamLog(t.stream));
  }

  lemma {:induction false} DecideLog(s: LoopState, t: TurnScript, continuing: bool) returns (polls: Log)
    ensures Decide(s, t, continuing).log == s.log + polls
    ensures forall e :: e in polls ==> e.Poll?
  {
    var polled := PollSteering(s.(firstTurn := false), t.beforeSteering);
    polls := [Poll(Steering, polled.pending)];
    if !continuing && polled.pending == [] {
      var asked := PollFollowUp(polled, t.beforeFollowUp);
      Assoc(s.log, polls, [Poll(FollowUp, asked.pending)]);
      polls := polls + [Poll(FollowUp, asked.pending)];
    }
  }

  // ---- announced messages ----

  /** Whatever state a run is continued from, the messages it announces are the ones it
      adds to `newMessages`. */
  lemma {:induction false} RunAnnounces(s: LoopState, script: seq<TurnScript>)
    requires Ended(s.log) == s.newMessages
    ensures Ended(Run(s, script).log) == Run(s, script).newMessages
    decreases |script|
  {
    if s.exit == Running && script != [] {
      TurnAnnounces(s, script[0]);
      RunAnnounces(Turn(s, script[0]), script[1..]);
    }
  }

  lemma {:induction false} TurnAnnounces(s: LoopState, t: TurnScript)
    requires Ended(s.log) == s.newMessages
    ensures Ended(Turn(s, t).log) == Turn(s, t).newMessages
  {
    var rest := TurnLog(s, t);
    var end := if Closes(t) then [Emit(AgentEnd(Turn(s, t).newMessages))] else [];
    OpeningAnnounces(s, t);
    BatchInner(s.context.tools, s.config, t);
    NoneEnded(rest);
    NoneEnded(end);
    EndedParts(s.log, Opening(s, t), BatchPart(s, t), rest, end);
    assert Ended(BatchPart(s, t)) == TurnResults(s, t);
    TurnProduces(s, t);
    Assoc(s.newMessages, s.pending + [Assistant(t.stream.result)], TurnResults(s, t));
  }

  lemma {:induction false} EndedParts(before: Log, opening: Log, batch: Log, rest: Log, end: Log)
    requires Ended(rest) == [] && Ended(end) == []
    ensures Ended(before + opening + batch + rest + end) == Ended(before) + Ended(opening) + Ended(batch)
  {
    EndedConcat(before + opening + batch + rest, end);
    EndedConcat(before + opening + batch, rest);
    EndedConcat(before + opening, batch);
    EndedConcat(before, opening);
  }

  lemma {:induction false} OpeningAnnounces(s: LoopState, t: TurnScript)
    ensures Ended(Opening(s, t)) == s.pending + [Assistant(t.stream.result)]
  {
    var turn := if s.firstTurn then [] else [Emit(TurnStart)];
    NoneEnded(turn);
    NoneEnded([RequestOf(s)]);
    EndedConcat(turn, Brackets(s.pending));
    EndedConcat([RequestOf(s)], StreamLog(t.stream));
    EndedConcat(turn + Brackets(s.pending), [RequestOf(s)] + StreamLog(t.stream));
    EndedBrackets(s.pending);
    StreamEnded(t.stream);
  }

  // ---- the model of the next request ----

  /** Of what was added to the log, exactly this is a provider request. */
  predicate AddsOneRequest(before: Log, after: Log, request: Entry) {
    && before <= after && request.Request? && request in after[|before|..]
    && forall e :: e in after[|before|..] && e.Request? ==> e == request
  }

  lemma {:induction false} OneRequestAdded(before: Log, opening: Log, batch: Log, rest: Log, end: Log, after: Log, request: Entry)
    requires after == before + opening + batch + rest + end && request.Request? && request in opening
    requires forall e :: e in opening ==> e == request || !e.Request?
    requires forall e :: e in batch || e in rest || e in end ==> !e.Request?
    ensures AddsOneRequest(before, after, request)
  {
    var added := after[|before|..];
    assert added == opening + batch + rest + end;
    assert forall e :: e in added <==> e in opening || e in batch || e in rest || e in end;
  }

  /** A turn makes exactly one request, with the state's configuration. */
  lemma {:induction false} OneRequest(s: LoopState, t: TurnScript)
    ensures AddsOneRequest(s.log, Turn(s, t).log, RequestOf(s))
  {
    var rest := TurnLog(s, t);
    var end := if Closes(t) then [Emit(AgentEnd(Turn(s, t).newMessages))] else [];
    OpeningShape(s, t);
    BatchInner(s.context.tools, s.config, t);
    OneRequestAdded(s.log, Opening(s, t), BatchPart(s, t), rest, end, Turn(s, t).log, RequestOf(s));
  }

  /** What the next request is made of, in terms of what `prepareNextTurn` answered. A
      replacement context is used as it is. Against the field's documentation, a replacement
      model is used if and only if a thinking level comes with it, and that level, unless it
      is `off`, becomes the request's. */
  lemma {:induction false} NextRequest(s: LoopState, t: TurnScript, next: TurnScript)
    requires !Closes(t)
    ensures var request := RequestOf(Turn(s, t));
      && AddsOneRequest(Turn(s, t).log, Turn(Turn(s, t), next).log, request)
      && (t.update.None? || t.update.value.thinkingLevel.None? ==>
            request.model == s.config.model && request.reasoning == s.config.reasoning)
      && (t.update.Some? && t.update.value.thinkingLevel.Some? ==>
            && request.model == (if t.update.value.model.Some? then t.update.value.model.value else s.config.model)
            && request.reasoning == (if t.update.value.thinkingLevel.value == Off then None else t.update.value.thinkingLevel))
      && (t.update.Some? && t.update.value.context.Some? ==>
            && request.transcript == t.update.value.context.value.messages + Turn(s, t).pending
            && Turn(s, t).context.tools == t.update.value.context.value.tools)
      && (t.update.None? || t.update.value.context.None? ==> Turn(s, t).context.tools == s.context.tools)
  {
    OneRequest(Turn(s, t), next);
    TurnPrepares(s, t);
  }

  lemma {:induction false} TurnPrepares(s: LoopState, t: TurnScript)
    requires !Closes(t)
    ensures var worked := RunTools(Reply(Inject(s), t.stream), t);
      && worked.config == s.config && worked.context.tools == s.context.tools
      && Turn(s, t).config == ApplyUpdate(worked, t.update).config
      && Turn(s, t).context == ApplyUpdate(worked, t.update).context
  {
    var worked := RunTools(Reply(Inject(s), t.stream), t);
    assert Turn(s, t) == Decide(ApplyUpdate(worked, t.update), t, Continuing(s.context.tools, t));
    DecideKeepsSetup(ApplyUpdate(worked, t.update), t, Continuing(s.context.tools, t));
  }

  lemma {:induction false} DecideKeepsSetup(s: LoopState, t: TurnScript, continuing: bool)
    ensures Decide(s, t, continuing).config == s.config && Decide(s, t, continuing).context == s.context
  {
  }
}
