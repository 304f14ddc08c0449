/** One tool call, from preparation to its finalised outcome. Everything the loop
    asks of code outside it (argument validation, hooks, the tool itself, the abort
    signal) is an oracle value: a theorem about all oracles is a theorem about all
    tools and hooks. */
module ToolCalls {
  import opened Messages

  datatype ExecutionMode = Sequential | Parallel

  datatype Tool = Tool(name: string, mode: Option<ExecutionMode>)

  /** What `beforeToolCall` may answer. */
  datatype Verdict = Verdict(block: bool, reason: Option<string>)

  /** The hook may edit the validated arguments in place; `args` is what it leaves. */
  datatype BeforeHook = NoHook | Hook(answer: Attempt<Option<Verdict>>, args: Json)

  /** Field-by-field override returned by `afterToolCall`. */
  datatype Override =
    Override(content: Option<seq<string>>, details: Option<Json>, isError: Option<bool>, terminate: Option<bool>)

  /** What the environment does while one call is processed. The tool reports
      `callbacks` in order and settles after `settledAfter` of them. The four
      Boolean fields are the values of `signal.aborted` at the points that read it. */
  datatype CallOracle = CallOracle(
    validation: Attempt<Json>,
    before: BeforeHook,
    abortedAfterHook: bool,
    abortedWhenReady: bool,
    callbacks: seq<ToolOutcome>,
    settledAfter: nat,
    execution: Attempt<ToolOutcome>,
    after: Option<Attempt<Option<Override>>>,
    abortedAfterwards: bool)

  /** A tool call together with its oracle. */
  datatype Job = Job(call: ToolCall, oracle: CallOracle)

  datatype Preparation =
    | Immediate(result: ToolOutcome, isError: bool)
    | Prepared(args: Json)

  datatype Finalized = Finalized(call: ToolCall, result: ToolOutcome, isError: bool)

  function FindTool(tools: seq<Tool>, name: string): (tool: Option<Tool>)
    ensures tool.Some? ==> tool.value in tools && tool.value.name == name
    ensures tool.None? <==> forall t :: t in tools ==> t.name != name
  {
    if tools == [] then None
    else if tools[0].name == name then Some(tools[0])
    else FindTool(tools[1..], name)
  }

  /** Of several tools with one name, the first is found. */
  lemma {:induction false} FirstToolFound(tools: seq<Tool>, name: string, i: nat)
    requires i < |tools| && tools[i].name == name && forall j :: 0 <= j < i ==> tools[j].name != name
    ensures FindTool(tools, name) == Some(tools[i])
    decreases i
  {
    if i > 0 {
      assert tools[0].name != name && tools[1..][i - 1] == tools[i];
      FirstToolFound(tools[1..], name, i - 1);
    }
  }

  function ErrorOutcome(message: string): ToolOutcome {
    ToolOutcome([message], "{}", None)
  }

  function Refusal(message: string): Preparation {
    Immediate(ErrorOutcome(message), true)
  }

  const ABORTED := "Operation aborted"

  function PrepareToolCall(tools: seq<Tool>, job: Job): (preparation: Preparation) {
    if FindTool(tools, job.call.name).None? then
      Refusal("Tool " + job.call.name + " not found")
    else match job.oracle.validation
      case Threw(message) => Refusal(message)
      case Returned(validated) =>
        match job.oracle.before
        case NoHook =>
          if job.oracle.abortedWhenReady then Refusal(ABORTED) else Prepared(validated)
        case Hook(Threw(message), _) => Refusal(message)
        case Hook(Returned(verdict), args) =>
          if job.oracle.abortedAfterHook then Refusal(ABORTED)
          else if verdict.Some? && verdict.value.block then
            Refusal(if verdict.value.reason.GetOr("") == "" then "Tool execution was blocked"
                    else verdict.value.reason.value)
          else if job.oracle.abortedWhenReady then Refusal(ABORTED)
          else Prepared(args)
  }

  /** The call is fit to run: its tool exists, its arguments are valid, no hook
      threw or blocked it, and no abort had been observed. */
  predicate Cleared(tools: seq<Tool>, job: Job) {
    && (exists t :: t in tools && t.name == job.call.name)
    && job.oracle.validation.Returned?
    && (job.oracle.before.Hook? ==>
          && job.oracle.before.answer.Returned?
          && !job.oracle.abortedAfterHook
          && !job.oracle.before.answer.value.GetOr(Verdict(false, None)).block)
    && !job.oracle.abortedWhenReady
  }

  /** A call is executed exactly when it is cleared; every refused call gets an
      error outcome that does not ask the batch to terminate. */
  lemma {:induction false} PreparationExact(tools: seq<Tool>, job: Job)
    ensures PrepareToolCall(tools, job).Prepared? <==> Cleared(tools, job)
    ensures PrepareToolCall(tools, job).Immediate? ==>
              && PrepareToolCall(tools, job).isError
              && PrepareToolCall(tools, job).result.terminate.None?
  {
    var tool := FindTool(tools, job.call.name);
    assert tool.Some? <==> exists t :: t in tools && t.name == job.call.name;
  }

  /** The partial results that reach listeners: those reported before the tool settles. */
  function Delivered(oracle: CallOracle): (updates: seq<ToolOutcome>) {
    if oracle.settledAfter <= |oracle.callbacks| then oracle.callbacks[..oracle.settledAfter] else oracle.callbacks
  }

  /** The outcome of an executed call after `afterToolCall` has had its say. */
  function FinalizeExecuted(job: Job): (finalized: Finalized) {
    var (result, isError) := match job.oracle.execution
      case Returned(outcome) => (outcome, false)
      case Threw(message) => (ErrorOutcome(message), true);
    match job.oracle.after
    case None => Finalized(job.call, result, isError)
    case Some(Threw(message)) => Finalized(job.call, ErrorOutcome(message), true)
    case Some(Returned(None)) => Finalized(job.call, result, isError)
    case Some(Returned(Some(o))) =>
      Finalized(
        job.call,
        ToolOutcome(o.content.GetOr(result.content), o.details.GetOr(result.details),
                    if o.terminate.Some? then o.terminate else result.terminate),
        o.isError.GetOr(isError))
  }

  /** `afterToolCall` replaces the fields it provides and no others. */
  lemma {:induction false} OverrideIsFieldwise(job: Job, o: Override)
    requires job.oracle.after == Some(Returned(Some(o)))
    ensures var plain := FinalizeExecuted(job.(oracle := job.oracle.(after := None)));
      var final := FinalizeExecuted(job);
      && final.call == plain.call == job.call
      && (if o.content.Some? then final.result.content == o.content.value else final.result.content == plain.result.content)
      && (if o.details.Some? then final.result.details == o.details.value else final.result.details == plain.result.details)
      && (if o.isError.Some? then final.isError == o.isError.value else final.isError == plain.isError)
      && (if o.terminate.Some? then final.result.terminate == o.terminate else final.result.terminate == plain.result.terminate)
      && (o == Override(None, None, None, None) ==> final == plain)
  {
    match job.oracle.execution
    case Returned(_) =>
    case Threw(_) =>
  }

  /** How a job ends, whichever way its batch is scheduled. */
  function OutcomeOf(tools: seq<Tool>, job: Job): (finalized: Finalized)
    ensures finalized.call == job.call
  {
    match PrepareToolCall(tools, job)
    case Immediate(result, isError) => Finalized(job.call, result, isError)
    case Prepared(_) => FinalizeExecuted(job)
  }

  function OutcomesOf(tools: seq<Tool>, jobs: seq<Job>): (outcomes: seq<Finalized>)
    ensures |outcomes| == |jobs|
    ensures forall i :: 0 <= i < |jobs| ==> outcomes[i] == OutcomeOf(tools, jobs[i])
  {
    seq(|jobs|, i requires 0 <= i < |jobs| => OutcomeOf(tools, jobs[i]))
  }

  function ResultMessage(f: Finalized): Message {
    ToolResult(f.call.id, f.call.name, f.result.content, f.result.details, f.isError)
  }

  function ResultMessages(outcomes: seq<Finalized>): (messages: seq<Message>)
    ensures |messages| == |outcomes|
    ensures forall i :: 0 <= i < |outcomes| ==> messages[i] == ResultMessage(outcomes[i])
  {
    seq(|outcomes|, i requires 0 <= i < |outcomes| => ResultMessage(outcomes[i]))
  }

  predicate AsksToTerminate(f: Finalized) {
    f.result.terminate == Some(true)
  }

  /** The batch ends the run only if it is non-empty and unanimous. */
  predicate ShouldTerminate(outcomes: seq<Finalized>) {
    |outcomes| > 0 && forall i :: 0 <= i < |outcomes| ==> AsksToTerminate(outcomes[i])
  }

  /** A batch with a refused call never ends the run. */
  lemma {:induction false} RefusedNeverTerminates(tools: seq<Tool>, jobs: seq<Job>, i: nat)
    requires i < |jobs| && !Cleared(tools, jobs[i])
    ensures !ShouldTerminate(OutcomesOf(tools, jobs))
    ensures OutcomeOf(tools, jobs[i]).isError
  {
    PreparationExact(tools, jobs[i]);
    assert !AsksToTerminate(OutcomesOf(tools, jobs)[i]);
  }

  /** The calls a batch gets to before an observed abort cuts it short. */
  function Reached(jobs: seq<Job>): (reached: seq<Job>) {
    if jobs == [] then []
    else if jobs[0].oracle.abortedAfterwards then [jobs[0]]
    else [jobs[0]] + Reached(jobs[1..])
  }

  /** The calls reached are a prefix, non-empty if there are any, and short only where
      an abort was observed. */
  lemma {:induction false} ReachedExact(jobs: seq<Job>)
    ensures |Reached(jobs)| <= |jobs| && (jobs != [] ==> Reached(jobs) != [])
    ensures forall i :: 0 <= i < |Reached(jobs)| ==> Reached(jobs)[i] == jobs[i]
    ensures |Reached(jobs)| < |jobs| ==> jobs[|Reached(jobs)| - 1].oracle.abortedAfterwards
    ensures forall i :: 0 <= i < |Reached(jobs)| - 1 ==> !jobs[i].oracle.abortedAfterwards
  {
    if jobs != [] && !jobs[0].oracle.abortedAfterwards {
      ReachedExact(jobs[1..]);
      var rest := Reached(jobs[1..]);
      assert forall i :: 0 < i < |Reached(jobs)| ==> Reached(jobs)[i] == rest[i - 1];
      if jobs[1..] == [] {
        assert rest == [];
      }
    }
  }

  // ---- what one call contributes to the log ----

  function StartEvent(call: ToolCall): Entry {
    Emit(ToolStart(call.id, call.name, call.arguments))
  }

  function UpdateEvent(call: ToolCall, partialResult: ToolOutcome): Entry {
    Emit(ToolUpdate(call.id, call.name, call.arguments, partialResult))
  }

  function EndEvent(f: Finalized): Entry {
    Emit(ToolEnd(f.call.id, f.call.name, f.result, f.isError))
  }

  function UpdateEvents(call: ToolCall, updates: seq<ToolOutcome>): (log: Log)
    ensures |log| == |updates|
    ensures forall i :: 0 <= i < |updates| ==> log[i] == UpdateEvent(call, updates[i])
  {
    seq(|updates|, i requires 0 <= i < |updates| => UpdateEvent(call, updates[i]))
  }

  /** The entries between `tool_execution_start` and the result message. */
  function Body(tools: seq<Tool>, job: Job): (log: Log) {
    match PrepareToolCall(tools, job)
    case Immediate(_, _) => [EndEvent(OutcomeOf(tools, job))]
    case Prepared(args) =>
      [Execute(job.call.id, args)] + UpdateEvents(job.call, Delivered(job.oracle)) + [EndEvent(OutcomeOf(tools, job))]
  }
}
