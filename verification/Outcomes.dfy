/** What becomes of a tool call, told from the environment's answers alone: the arguments
    it runs with, the updates it announces, its outcome and its result message. */
module Outcomes {
  import opened Messages
  import opened ToolCalls
  import opened Batch
  import opened Loop
  import opened LoopProtocol
  import opened Transcripts

  /** An error as the loop reports it. */
  predicate IsError(result: ToolOutcome, isError: bool, message: string) {
    result.content == [message] && result.details == "{}" && result.terminate.None? && isError
  }

  /** The outcome of an executed call. Without an override it is the tool's result or its
      error; an override replaces what it provides; a throwing hook is itself the error. */
  predicate Settles(o: CallOracle, result: ToolOutcome, isError: bool) {
    match (o.execution, o.after)
    case (_, Some(Threw(message))) => IsError(result, isError, message)
    case (Returned(out), None) => result == out && !isError
    case (Returned(out), Some(Returned(None))) => result == out && !isError
    case (Threw(message), None) => IsError(result, isError, message)
    case (Threw(message), Some(Returned(None))) => IsError(result, isError, message)
    case (Returned(out), Some(Returned(Some(v)))) =>
      && result.content == v.content.GetOr(out.content) && result.details == v.details.GetOr(out.details)
      && result.terminate == (if v.terminate.Some? then v.terminate else out.terminate)
      && isError == v.isError.GetOr(false)
    case (Threw(message), Some(Returned(Some(v)))) =>
      && result.content == v.content.GetOr([message]) && result.details == v.details.GetOr("{}")
      && result.terminate == v.terminate && isError == v.isError.GetOr(true)
  }

  /** The arguments a cleared call executes with: what the hook left of the validated ones. */
  function FinalArgs(o: CallOracle): Option<Json> {
    if o.before.Hook? then Some(o.before.args)
    else if o.validation.Returned? then Some(o.validation.value) else None
  }

  /** Why a call is refused. The reasons are looked for in this order, so one counts only
      where no earlier one applies. */
  predicate Refuses(tools: seq<Tool>, call: ToolCall, o: CallOracle, message: string) {
    var unknown := forall t :: t in tools ==> t.name != call.name;
    var invalid := !unknown && o.validation.Threw?;
    var hooked := !unknown && !invalid && o.before.Hook?;
    var broken := hooked && o.before.answer.Threw?;
    var aborted := hooked && !broken && o.abortedAfterHook;
    var blocked := hooked && !broken && !aborted && o.before.answer.value.Some? && o.before.answer.value.value.block;
    && (unknown ==> message == "Tool " + call.name + " not found")
    && (invalid ==> message == o.validation.message)
    && (broken ==> message == o.before.answer.message)
    && (aborted ==> message == "Operation aborted")
    && (blocked ==>
          var reason := o.before.answer.value.value.reason;
          message == if reason.Some? && reason.value != "" then reason.value else "Tool execution was blocked")
    && (!unknown && !invalid && !broken && !aborted && !blocked ==> o.abortedWhenReady && message == "Operation aborted")
  }

  /** How a call comes out, cleared or refused. */
  ghost predicate ComesOut(tools: seq<Tool>, call: ToolCall, o: CallOracle, result: ToolOutcome, isError: bool) {
    if Cleared(tools, Job(call, o)) then Settles(o, result, isError)
    else exists message :: Refuses(tools, call, o, message) && IsError(result, isError, message)
  }

  lemma {:induction false} PreparesWith(tools: seq<Tool>, job: Job)
    ensures var p := PrepareToolCall(tools, job);
      if Cleared(tools, job) then p.Prepared? && Some(p.args) == FinalArgs(job.oracle)
      else exists message :: Refuses(tools, job.call, job.oracle, message) && p.Immediate? && IsError(p.result, p.isError, message)
  {
    PreparationExact(tools, job);
    var p := PrepareToolCall(tools, job);
    if p.Immediate? {
      var message := p.result.content[0];
      assert FindTool(tools, job.call.name).None? <==> forall t :: t in tools ==> t.name != job.call.name;
      assert Refuses(tools, job.call, job.oracle, message);
    }
  }

  lemma {:induction false} OutcomeExact(tools: seq<Tool>, job: Job)
    ensures OutcomeOf(tools, job).call == job.call
    ensures ComesOut(tools, job.call, job.oracle, OutcomeOf(tools, job).result, OutcomeOf(tools, job).isError)
  {
    PreparesWith(tools, job);
  }

  /** The updates that reach listeners are exactly those reported before the tool settled. */
  lemma {:induction false} DeliveredExact(o: CallOracle)
    ensures Delivered(o) <= o.callbacks
    ensures |Delivered(o)| == if o.settledAfter < |o.callbacks| then o.settledAfter else |o.callbacks|
  {
  }

  /** A cleared call's entries: start, execution, the updates in order, and the end. */
  predicate Story(call: ToolCall, o: CallOracle, history: Log) {
    var n := if o.settledAfter < |o.callbacks| then o.settledAfter else |o.callbacks|;
    && |history| == n + 3
    && history[0] == Emit(ToolStart(call.id, call.name, call.arguments))
    && history[1].Execute? && history[1].toolCallId == call.id && Some(history[1].args) == FinalArgs(o)
    && (forall k :: 0 <= k < n ==> history[2 + k] == Emit(ToolUpdate(call.id, call.name, call.arguments, o.callbacks[k])))
    && EndsAs(call, history[n + 2]) && Settles(o, history[n + 2].event.result, history[n + 2].event.isError)
  }

  predicate EndsAs(call: ToolCall, e: Entry) {
    e.Emit? && e.event.ToolEnd? && e.event.toolCallId == call.id && e.event.toolName == call.name
  }

  lemma {:induction false} ClearedBody(tools: seq<Tool>, job: Job)
    requires Cleared(tools, job)
    ensures Story(job.call, job.oracle, [StartEvent(job.call)] + Body(tools, job))
  {
    PreparesWith(tools, job);
    OutcomeExact(tools, job);
    DeliveredExact(job.oracle);
    var updates := UpdateEvents(job.call, Delivered(job.oracle));
    var args := PrepareToolCall(tools, job).args;
    var history := [StartEvent(job.call)] + Body(tools, job);
    assert history == [StartEvent(job.call), Execute(job.call.id, args)] + updates + [EndEvent(OutcomeOf(tools, job))];
    assert forall k :: 0 <= k < |updates| ==> history[2 + k] == updates[k];
  }

  /** In every turn, in either mode and under every schedule, a cleared call runs with the
      validated arguments or those the hook left, announces exactly the updates reported
      before the tool settled, and ends as its environment has it. */
  lemma {:induction false} CallStory(tools: seq<Tool>, config: Config, t: TurnScript, i: nat)
    requires DistinctCalls(t) && i < |Reached(Jobs(t))|
    ensures |Reached(Jobs(t))| <= |t.stream.result.ToolCalls()|
    ensures var call := t.stream.result.ToolCalls()[i];
      Cleared(tools, Job(call, t.calls(i))) ==> Story(call, t.calls(i), OfCall(call.id, BatchLog(tools, config, t)))
  {
    var jobs := Reached(Jobs(t));
    ReachedExact(Jobs(t));
    ReachedCalls(t);
    CallLifecycle(tools, jobs, t.schedule, i);
    if Cleared(tools, jobs[i]) {
      ClearedBody(tools, jobs[i]);
    }
  }

  /** The i-th result message of a turn says how the i-th call came out. */
  lemma {:induction false} TurnResultExact(s: LoopState, t: TurnScript, i: nat)
    requires i < |TurnResults(s, t)|
    ensures i < |t.stream.result.ToolCalls()| && TurnResults(s, t)[i].ToolResult?
    ensures var call := t.stream.result.ToolCalls()[i];
      var m := TurnResults(s, t)[i];
      && m.toolCallId == call.id && m.toolName == call.name
      && exists terminate :: ComesOut(s.context.tools, call, t.calls(i), ToolOutcome(m.content, m.details, terminate), m.isError)
  {
    ReachedExact(Jobs(t));
    var job := Reached(Jobs(t))[i];
    OutcomeExact(s.context.tools, job);
    var f := OutcomeOf(s.context.tools, job);
    assert ToolOutcome(f.result.content, f.result.details, f.result.terminate) == f.result;
  }
}
