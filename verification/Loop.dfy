/** The agent loop as a state machine whose steps are turns. A run is driven by a
    sequence of turn scripts, one per turn, holding everything the environment does
    during that turn; a script that ends before the run does describes an observed
    prefix of the run, so a theorem about all script sequences covers every run,
    finished or not. */
module Loop {
  import opened Messages
  import opened ToolCalls
  import opened Batch
  import opened Streaming

  // ---- queues ----

  datatype QueueMode = All | OneAtATime

  datatype Queue = Queue(items: seq<Message>, mode: QueueMode) {
    /** How many messages the next drain takes. */
    function DrainSize(): (n: nat)
      ensures n <= |items|
      ensures n == 0 <==> items == []
    {
      if mode.All? || items == [] then |items| else 1
    }

    function Drain(): (seq<Message>, Queue) {
      (items[..DrainSize()], this.(items := items[DrainSize()..]))
    }
  }

  datatype Queues = Queues(steering: Queue, followUp: Queue) {
    function Get(name: QueueName): Queue {
      if name.Steering? then steering else followUp
    }

    function Set(name: QueueName, q: Queue): Queues {
      if name.Steering? then this.(steering := q) else this.(followUp := q)
    }
  }

  /** What users of the agent may do to its queues while a run is in progress. */
  datatype QueueAction =
    | Enqueue(queue: QueueName, message: Message)
    | SetMode(queue: QueueName, mode: QueueMode)
    | Clear(queue: QueueName)

  function Act(qs: Queues, a: QueueAction): Queues {
    var q := qs.Get(a.queue);
    match a
    case Enqueue(_, m) => qs.Set(a.queue, q.(items := q.items + [m]))
    case SetMode(_, mode) => qs.Set(a.queue, q.(mode := mode))
    case Clear(_) => qs.Set(a.queue, q.(items := []))
  }

  function ActAll(qs: Queues, actions: seq<QueueAction>): Queues
    decreases |actions|
  {
    if actions == [] then qs else ActAll(Act(qs, actions[0]), actions[1..])
  }

  // ---- configuration ----

  datatype AgentContext = AgentContext(messages: seq<Message>, tools: seq<Tool>)

  datatype Config = Config(model: string, reasoning: Option<ThinkingLevel>, toolExecution: ExecutionMode)

  /** What `prepareNextTurn` may return. */
  datatype TurnUpdate =
    TurnUpdate(context: Option<AgentContext>, model: Option<string>, thinkingLevel: Option<ThinkingLevel>)

  function ResolveConfig(config: Config, update: TurnUpdate): Config {
    match update.thinkingLevel
    case None => config
    case Some(level) =>
      config.(model := update.model.GetOr(config.model), reasoning := if level.Off? then None else Some(level))
  }

  /** Against the field's documentation, a replacement model takes effect only
      together with a thinking level. */
  lemma {:induction false} ModelNeedsThinkingLevel(config: Config, update: TurnUpdate)
    requires update.model.Some? && update.model.value != config.model
    ensures ResolveConfig(config, update).model == update.model.value <==> update.thinkingLevel.Some?
    ensures update.thinkingLevel.None? ==> ResolveConfig(config, update) == config
  {
  }

  // ---- one turn's script ----

  /** `calls(i)` is the oracle of the reply's i-th tool call, `schedule` orders a
      parallel batch, `update` and `stop` are the answers of `prepareNextTurn` and
      `shouldStopAfterTurn`, and the action lists are what happens to the queues
      before each of the two polls. */
  datatype TurnScript = TurnScript(
    stream: Stream,
    calls: nat -> CallOracle,
    schedule: seq<nat>,
    update: Option<TurnUpdate>,
    stop: bool,
    beforeSteering: seq<QueueAction>,
    beforeFollowUp: seq<QueueAction>)

  function Jobs(t: TurnScript): (jobs: seq<Job>)
    ensures |jobs| == |t.stream.result.ToolCalls()|
    ensures forall i :: 0 <= i < |jobs| ==> jobs[i] == Job(t.stream.result.ToolCalls()[i], t.calls(i))
  {
    var calls := t.stream.result.ToolCalls();
    seq(|calls|, i requires 0 <= i < |calls| => Job(calls[i], t.calls(i)))
  }

  /** One sequential tool makes the whole batch sequential. */
  predicate RunsSequentially(tools: seq<Tool>, config: Config, calls: seq<ToolCall>) {
    || config.toolExecution.Sequential?
    || exists i :: 0 <= i < |calls| && IsSequentialTool(tools, calls[i].name)
  }

  predicate IsSequentialTool(tools: seq<Tool>, name: string) {
    var tool := FindTool(tools, name);
    tool.Some? && tool.value.mode == Some(ExecutionMode.Sequential)
  }

  function BatchLog(tools: seq<Tool>, config: Config, t: TurnScript): (log: Log) {
    var reached := Reached(Jobs(t));
    if RunsSequentially(tools, config, t.stream.result.ToolCalls()) then SequentialLog(tools, reached)
    else ParallelLog(tools, reached, t.schedule)
  }

  function BatchOutcomes(tools: seq<Tool>, t: TurnScript): (outcomes: seq<Finalized>) {
    OutcomesOf(tools, Reached(Jobs(t)))
  }

  /** The tool batch asks for another provider request. */
  predicate Continuing(tools: seq<Tool>, t: TurnScript) {
    t.stream.result.ToolCalls() != [] && !ShouldTerminate(BatchOutcomes(tools, t))
  }

  // ---- the state machine ----

  /** `Failed` and `Stopped` are the exits that emit `agent_end`; `Natural` does not. */
  datatype Exit = Running | Failed | Stopped | Natural

  datatype LoopState = LoopState(
    context: AgentContext,
    config: Config,
    newMessages: seq<Message>,
    pending: seq<Message>,
    firstTurn: bool,
    skipPoll: bool,
    queues: Queues,
    log: Log,
    exit: Exit)

  function AddMessages(s: LoopState, messages: seq<Message>): LoopState {
    s.(context := s.context.(messages := s.context.messages + messages), newMessages := s.newMessages + messages)
  }

  function AddLog(s: LoopState, entries: Log): LoopState {
    s.(log := s.log + entries)
  }

  /** Polling the steering queue; the first poll of a run may be skipped. */
  function PollSteering(s: LoopState, actions: seq<QueueAction>): LoopState {
    var qs := ActAll(s.queues, actions);
    if s.skipPoll then
      AddLog(s.(queues := qs, skipPoll := false, pending := []), [Poll(Steering, [])])
    else
      var (batch, rest) := qs.steering.Drain();
      AddLog(s.(queues := qs.(steering := rest), pending := batch), [Poll(Steering, batch)])
  }

  function PollFollowUp(s: LoopState, actions: seq<QueueAction>): LoopState {
    var qs := ActAll(s.queues, actions);
    var (batch, rest) := qs.followUp.Drain();
    AddLog(s.(queues := qs.(followUp := rest), pending := batch), [Poll(FollowUp, batch)])
  }

  /** The state in which the first turn starts. A continuation is a run without prompts. */
  function Start(prompts: seq<Message>, context: AgentContext, config: Config, queues: Queues, skipPoll: bool,
                 actions: seq<QueueAction>): LoopState
  {
    PollSteering(Announced(prompts, context, config, queues, skipPoll), actions)
  }

  function Announced(prompts: seq<Message>, context: AgentContext, config: Config, queues: Queues, skipPoll: bool): LoopState {
    LoopState(context.(messages := context.messages + prompts), config, prompts, [], true, skipPoll, queues,
              [Emit(AgentStart), Emit(TurnStart)] + Brackets(prompts), Running)
  }

  function Inject(s: LoopState): LoopState {
    AddMessages(AddLog(s, (if s.firstTurn then [] else [Emit(TurnStart)]) + Brackets(s.pending)), s.pending)
      .(pending := [])
  }

  function Reply(s: LoopState, stream: Stream): LoopState {
    AddLog(s, [Request(s.context.messages, s.config.model, s.config.reasoning)] + StreamLog(stream))
      .(context := s.context.(messages := Streamed(s.context.messages, stream)),
        newMessages := s.newMessages + [Assistant(stream.result)])
  }

  function RunTools(s: LoopState, t: TurnScript): LoopState {
    var results := ResultMessages(BatchOutcomes(s.context.tools, t));
    AddMessages(AddLog(s, BatchLog(s.context.tools, s.config, t) + [Emit(TurnEnd(Assistant(t.stream.result), results))]),
                results)
  }

  function ApplyUpdate(s: LoopState, update: Option<TurnUpdate>): LoopState {
    match update
    case None => s
    case Some(u) => s.(context := u.context.GetOr(s.context), config := ResolveConfig(s.config, u))
  }

  /** What happens after a turn that neither failed nor was stopped. */
  function Decide(s: LoopState, t: TurnScript, continuing: bool): LoopState {
    var polled := PollSteering(s.(firstTurn := false), t.beforeSteering);
    if continuing || polled.pending != [] then polled else AskFollowUp(polled, t)
  }

  /** With nothing left to do, ask for follow-ups; without any, the run is over. */
  function AskFollowUp(s: LoopState, t: TurnScript): LoopState {
    var asked := PollFollowUp(s, t.beforeFollowUp);
    if asked.pending != [] then asked else asked.(exit := Natural)
  }

  function Close(s: LoopState, exit: Exit): LoopState {
    AddLog(s, [Emit(AgentEnd(s.newMessages))]).(exit := exit)
  }

  function Fail(s: LoopState, reply: AssistantMessage): LoopState {
    Close(AddLog(s, [Emit(TurnEnd(Assistant(reply), []))]), Exit.Failed)
  }

  function Turn(s: LoopState, t: TurnScript): LoopState {
    var replied := Reply(Inject(s), t.stream);
    if t.stream.result.Failed() then Fail(replied, t.stream.result)
    else
      var worked := RunTools(replied, t);
      if t.stop then Close(worked, Stopped)
      else Decide(ApplyUpdate(worked, t.update), t, Continuing(replied.context.tools, t))
  }

  /** A turn up to its steering poll. */
  function OneTurn(s: LoopState, t: TurnScript): LoopState {
    var replied := Reply(Inject(s), t.stream);
    if t.stream.result.Failed() then Fail(replied, t.stream.result) else Completed(RunTools(replied, t), t)
  }

  /** What follows the end of a turn that did not fail, up to the steering poll. */
  function Completed(worked: LoopState, t: TurnScript): LoopState {
    if t.stop then Close(worked, Stopped)
    else PollSteering(ApplyUpdate(worked, t.update).(firstTurn := false), t.beforeSteering)
  }

  lemma {:induction false} TurnSplit(s: LoopState, t: TurnScript)
    requires s.exit == Running
    ensures Turn(s, t) ==
      if OneTurn(s, t).exit != Running || Continuing(s.context.tools, t) || OneTurn(s, t).pending != []
      then OneTurn(s, t) else AskFollowUp(OneTurn(s, t), t)
  {
  }

  /** A run, as far as its script describes it. */
  function Run(s: LoopState, script: seq<TurnScript>): LoopState
    decreases |script|
  {
    if s.exit != Running || script == [] then s else Run(Turn(s, script[0]), script[1..])
  }

  lemma {:induction false} RunConcat(s: LoopState, a: seq<TurnScript>, b: seq<TurnScript>)
    ensures Run(s, a + b) == Run(Run(s, a), b)
    decreases |a|
  {
    if a == [] {
      assert a + b == b;
    } else if s.exit == Running {
      assert (a + b)[1..] == a[1..] + b;
      RunConcat(Turn(s, a[0]), a[1..], b);
    }
  }
}
