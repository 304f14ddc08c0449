/** The protocol a run must follow, as a monitor that reads the log entry by entry.
    It is written from the documented event flow, not from the loop: it never looks
    at the loop's own state. Once violated it stays violated, so a log is accepted
    exactly when every prefix of it is. */
module Protocol {
  import opened Messages

  /** A tool call that has started and not ended. */
  datatype OpenCall = OpenCall(call: ToolCall, executing: bool)

  datatype Outcome = Outcome(result: ToolOutcome, isError: bool)

  /** The part of a turn after the assistant message: tools and their results. */
  datatype Work = Work(
    reply: AssistantMessage,
    started: nat,
    open: map<string, OpenCall>,
    outcomes: map<string, Outcome>,
    unanimous: bool,
    reported: seq<Message>)

  datatype Phase =
    | Fresh                                      // nothing yet
    | Opened                                     // agent_start seen
    | Prompting                                  // first turn, prompts being announced
    | PromptOpen(message: Message)
    | Injecting(due: seq<Message>)               // drained messages that must come next
    | InjectionOpen(due: seq<Message>)
    | Requested                                  // a provider request is out
    | Streaming                                  // inside the assistant bracket
    | Working(work: Work)
    | Reporting(work: Work, message: Message)    // inside a tool-result bracket
    | TurnOver(continuing: bool)
    | TurnFailed                                 // only agent_end may follow
    | NextTurn(due: seq<Message>)                // only turn_start may follow
    | Idle                                       // only a follow-up poll may follow
    | Quiet                                      // natural exit
    | Closed                                     // agent_end seen
    | Violated

  /** `ended` collects the messages announced so far. */
  datatype Monitor = Monitor(phase: Phase, ended: seq<Message>)

  function To(q: Monitor, ok: bool, phase: Phase): Monitor {
    q.(phase := if ok then phase else Violated)
  }

  function Push(q: Monitor, ok: bool, m: Message, phase: Phase): Monitor {
    if ok then Monitor(phase, q.ended + [m]) else q.(phase := Violated)
  }

  /** The message that must report an outcome. */
  function Report(call: ToolCall, o: Outcome): Message {
    ToolResult(call.id, call.name, o.result.content, o.result.details, o.isError)
  }

  function StepWorking(q: Monitor, w: Work, e: Entry): Monitor {
    var calls := w.reply.ToolCalls();
    match e
    case Execute(id, _) =>
      if id in w.open && !w.open[id].executing
      then To(q, true, Working(w.(open := w.open[id := w.open[id].(executing := true)])))
      else To(q, false, Violated)
    case Emit(ToolStart(id, name, args)) =>
      if !w.reply.Failed() && w.started < |calls| && calls[w.started] == ToolCall(id, name, args) && id !in w.open
      then To(q, true, Working(w.(started := w.started + 1, open := w.open[id := OpenCall(calls[w.started], false)])))
      else To(q, false, Violated)
    case Emit(ToolUpdate(id, name, args, _)) =>
      To(q, id in w.open && w.open[id] == OpenCall(ToolCall(id, name, args), true), Working(w))
    case Emit(ToolEnd(id, name, result, isError)) =>
      if id in w.open && w.open[id].call.name == name &&
         (w.open[id].executing || (isError && result.terminate.None?))
      then To(q, true, Working(w.(open := w.open - {id},
                                  outcomes := w.outcomes[id := Outcome(result, isError)],
                                  unanimous := w.unanimous && result.terminate == Some(true))))
      else To(q, false, Violated)
    case Emit(MessageStart(m)) =>
      var k := |w.reported|;
      if w.open == map[] && k < w.started <= |calls| && calls[k].id in w.outcomes &&
         m == Report(calls[k], w.outcomes[calls[k].id])
      then To(q, true, Reporting(w, m))
      else To(q, false, Violated)
    case Emit(TurnEnd(m, results)) =>
      To(q, m == Assistant(w.reply) && w.open == map[] && results == w.reported && |w.reported| == w.started &&
            (calls != [] && !w.reply.Failed() ==> w.started > 0),
         if w.reply.Failed() then TurnFailed else TurnOver(w.started > 0 && !w.unanimous))
    case _ => To(q, false, Violated)
  }

  function Step(q: Monitor, e: Entry): Monitor {
    match q.phase
    case Fresh => To(q, e == Emit(AgentStart), Opened)
    case Opened => To(q, e == Emit(TurnStart), Prompting)
    case Prompting =>
      if e.Poll? then To(q, e.queue == Steering, Injecting(e.batch))
      else if e.Emit? && e.event.MessageStart? then To(q, true, PromptOpen(e.event.message))
      else To(q, false, Violated)
    case PromptOpen(m) => Push(q, e == Emit(MessageEnd(m)), m, Prompting)
    case Injecting(due) =>
      if e.Request? then To(q, due == [], Requested)
      else To(q, due != [] && e == Emit(MessageStart(due[0])), InjectionOpen(due))
    case InjectionOpen(due) =>
      if due != [] then Push(q, e == Emit(MessageEnd(due[0])), due[0], Injecting(due[1..])) else To(q, false, Violated)
    case Requested => To(q, e.Emit? && e.event.MessageStart? && e.event.message.Assistant?, Streaming)
    case Streaming =>
      if e.Emit? && e.event.MessageEnd? && e.event.message.Assistant? then
        Push(q, true, e.event.message, Working(Work(e.event.message.reply, 0, map[], map[], true, [])))
      else
        To(q, e.Emit? && e.event.MessageUpdate? && e.event.message.Assistant?, Streaming)
    case Working(w) => StepWorking(q, w, e)
    case Reporting(w, m) => Push(q, e == Emit(MessageEnd(m)), m, Working(w.(reported := w.reported + [m])))
    case TurnOver(continuing) =>
      if e.Poll? then
        To(q, e.queue == Steering, if continuing || e.batch != [] then NextTurn(e.batch) else Idle)
      else To(q, e == Emit(AgentEnd(q.ended)), Closed)
    case TurnFailed => To(q, e == Emit(AgentEnd(q.ended)), Closed)
    case NextTurn(due) => To(q, e == Emit(TurnStart), Injecting(due))
    case Idle => To(q, e.Poll? && e.queue == FollowUp, if e.Poll? && e.batch != [] then NextTurn(e.batch) else Quiet)
    case Quiet => To(q, false, Violated)
    case Closed => To(q, false, Violated)
    case Violated => q
  }

  function After(q: Monitor, log: Log): Monitor
    decreases log
  {
    if log == [] then q else After(Step(q, log[0]), log[1..])
  }

  const START := Monitor(Fresh, [])

  predicate Accepts(log: Log) {
    !After(START, log).phase.Violated?
  }

  lemma {:induction false} AfterConcat(q: Monitor, a: Log, b: Log)
    ensures After(q, a + b) == After(After(q, a), b)
    decreases a
  {
    if a == [] {
      assert a + b == b;
    } else {
      assert (a + b)[1..] == a[1..] + b;
      AfterConcat(Step(q, a[0]), a[1..], b);
    }
  }

  lemma {:induction false} AfterOne(q: Monitor, e: Entry)
    ensures After(q, [e]) == Step(q, e)
  {
    assert [e][1..] == [];
  }

  lemma {:induction false} AfterSnoc(q: Monitor, log: Log, e: Entry)
    ensures After(q, log + [e]) == Step(After(q, log), e)
  {
    AfterConcat(q, log, [e]);
    AfterOne(After(q, log), e);
  }

  lemma {:induction false} AfterCons(q: Monitor, e: Entry, log: Log)
    ensures After(q, [e] + log) == After(Step(q, e), log)
  {
    assert ([e] + log)[1..] == log;
  }

  lemma {:induction false} ViolatedForever(q: Monitor, log: Log)
    requires q.phase.Violated?
    ensures After(q, log) == q
  {
    if log != [] {
      ViolatedForever(q, log[1..]);
    }
  }
}
