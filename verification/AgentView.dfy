/** The agent's public state as a fold over events, and what it shows while a run
    follows the protocol. */
module AgentView {
  import opened Messages
  import opened Protocol

  datatype View = View(
    messages: seq<Message>,
    streamingMessage: Option<Message>,
    pendingToolCalls: set<string>,
    errorMessage: Option<string>)

  function Reduce(v: View, e: AgentEvent): View {
    match e
    case MessageStart(m) => v.(streamingMessage := Some(m))
    case MessageUpdate(m) => v.(streamingMessage := Some(m))
    case MessageEnd(m) => v.(streamingMessage := None, messages := v.messages + [m])
    case ToolStart(id, _, _) => v.(pendingToolCalls := v.pendingToolCalls + {id})
    case ToolEnd(id, _, _, _) => v.(pendingToolCalls := v.pendingToolCalls - {id})
    case TurnEnd(m, _) =>
      if m.Assistant? && m.reply.errorMessage.GetOr("") != "" then v.(errorMessage := m.reply.errorMessage) else v
    case AgentEnd(_) => v.(streamingMessage := None)
    case _ => v
  }

  function ReduceEntry(v: View, e: Entry): View {
    if e.Emit? then Reduce(v, e.event) else v
  }

  function ReduceLog(v: View, log: Log): View
    decreases |log|
  {
    if log == [] then v else ReduceLog(ReduceEntry(v, log[0]), log[1..])
  }

  lemma {:induction false} ReduceConcat(v: View, a: Log, b: Log)
    ensures ReduceLog(v, a + b) == ReduceLog(ReduceLog(v, a), b)
    decreases |a|
  {
    if a == [] {
      assert a + b == b;
    } else {
      assert (a + b)[1..] == a[1..] + b;
      ReduceConcat(ReduceEntry(v, a[0]), a[1..], b);
    }
  }

  lemma {:induction false} ReduceSnoc(v: View, log: Log, e: Entry)
    ensures ReduceLog(v, log + [e]) == ReduceEntry(ReduceLog(v, log), e)
  {
    ReduceConcat(v, log, [e]);
    assert [e][1..] == [];
  }

  /** The public transcript grows by exactly the messages announced. */
  lemma {:induction false} ReducedTranscript(v: View, log: Log)
    ensures ReduceLog(v, log).messages == v.messages + Ended(log)
    decreases |log|
  {
    if log == [] {
      assert v.messages + [] == v.messages;
    } else {
      var first := if log[0].Emit? && log[0].event.MessageEnd? then [log[0].event.message] else [];
      assert ReduceEntry(v, log[0]).messages == v.messages + first;
      ReducedTranscript(ReduceEntry(v, log[0]), log[1..]);
      Assoc(v.messages, first, Ended(log[1..]));
    }
  }

  // ---- what the state shows, told from the events ----

  /** The events that decide which message is shown as streaming. */
  predicate Streams(e: Entry) {
    e.Emit? && (e.event.MessageStart? || e.event.MessageUpdate? || e.event.MessageEnd? || e.event.AgentEnd?)
  }

  /** The end of a turn whose reply carries an error text. */
  predicate Errs(e: Entry) {
    && e.Emit? && e.event.TurnEnd? && e.event.message.Assistant?
    && e.event.message.reply.errorMessage.Some? && e.event.message.reply.errorMessage.value != ""
  }

  /** The streaming message is that of the last start or update, unless a message or the run
      has ended since. */
  lemma {:induction false} StreamingIsLatest(v: View, log: Log, k: nat)
    requires k < |log| && Streams(log[k]) && forall j :: k < j < |log| ==> !Streams(log[j])
    ensures ReduceLog(v, log).streamingMessage
      == if log[k].event.MessageStart? || log[k].event.MessageUpdate? then Some(log[k].event.message) else None
    decreases |log|
  {
    if k == 0 {
      Undisturbed(ReduceEntry(v, log[0]), log[1..]);
    } else {
      StreamingIsLatest(ReduceEntry(v, log[0]), log[1..], k - 1);
    }
  }

  lemma {:induction false} Undisturbed(v: View, log: Log)
    ensures (forall j :: 0 <= j < |log| ==> !Streams(log[j])) ==> ReduceLog(v, log).streamingMessage == v.streamingMessage
    ensures (forall j :: 0 <= j < |log| ==> !Errs(log[j])) ==> ReduceLog(v, log).errorMessage == v.errorMessage
    decreases |log|
  {
    if log != [] {
      Undisturbed(ReduceEntry(v, log[0]), log[1..]);
    }
  }

  /** The error text is that of the last turn whose reply carries one. */
  lemma {:induction false} ErrorIsLatest(v: View, log: Log, k: nat)
    requires k < |log| && Errs(log[k]) && forall j :: k < j < |log| ==> !Errs(log[j])
    ensures ReduceLog(v, log).errorMessage == log[k].event.message.reply.errorMessage
    decreases |log|
  {
    if k == 0 {
      Undisturbed(ReduceEntry(v, log[0]), log[1..]);
    } else {
      ErrorIsLatest(ReduceEntry(v, log[0]), log[1..], k - 1);
    }
  }

  // ---- the view while the protocol is followed ----

  /** The calls the protocol holds open. */
  function OpenIds(phase: Phase): set<string> {
    match phase
    case Working(w) => w.open.Keys
    case _ => {}
  }

  predicate InBracket(phase: Phase) {
    phase.PromptOpen? || phase.InjectionOpen? || phase.Streaming? || phase.Reporting?
  }

  /** The public state shows what the protocol knows: exactly the started and not ended
      tool calls are pending, and a message is streaming exactly inside a bracket. */
  predicate Shows(v: View, phase: Phase) {
    && v.pendingToolCalls == OpenIds(phase)
    && (v.streamingMessage.Some? <==> InBracket(phase))
  }

  lemma {:induction false} StepWorkingShows(v: View, q: Monitor, e: Entry)
    requires q.phase.Working? && Shows(v, q.phase) && !Step(q, e).phase.Violated?
    ensures Shows(ReduceEntry(v, e), Step(q, e).phase)
  {
    assert q.phase.work.open == map[] ==> OpenIds(q.phase) == {};
    match e
    case Execute(id, _) =>
      assert OpenIds(Step(q, e).phase) == OpenIds(q.phase);
    case Emit(ToolStart(id, _, _)) =>
      assert OpenIds(Step(q, e).phase) == OpenIds(q.phase) + {id};
    case Emit(ToolEnd(id, _, _, _)) =>
      assert OpenIds(Step(q, e).phase) == OpenIds(q.phase) - {id};
    case _ =>
  }

  lemma {:induction false} StepShows(v: View, q: Monitor, e: Entry)
    requires Shows(v, q.phase) && !Step(q, e).phase.Violated?
    requires q.phase.Reporting? ==> q.phase.work.open == map[]
    ensures Shows(ReduceEntry(v, e), Step(q, e).phase)
    ensures Step(q, e).phase.Reporting? ==> Step(q, e).phase.work.open == map[]
  {
    if q.phase.Working? {
      StepWorkingShows(v, q, e);
    }
  }

  lemma {:induction false} ShowsThroughout(v: View, q: Monitor, log: Log)
    requires Shows(v, q.phase) && !After(q, log).phase.Violated?
    requires q.phase.Reporting? ==> q.phase.work.open == map[]
    ensures Shows(ReduceLog(v, log), After(q, log).phase)
    decreases |log|
  {
    if log != [] {
      if Step(q, log[0]).phase.Violated? {
        ViolatedForever(Step(q, log[0]), log[1..]);
      }
      StepShows(v, q, log[0]);
      ShowsThroughout(ReduceEntry(v, log[0]), Step(q, log[0]), log[1..]);
    }
  }

  /** From an idle agent, the public state shows the protocol's at every point of every
      accepted log. */
  lemma {:induction false} ViewShowsProtocol(v: View, log: Log)
    requires v.streamingMessage.None? && v.pendingToolCalls == {} && Accepts(log)
    ensures Shows(ReduceLog(v, log), After(START, log).phase)
  {
    ShowsThroughout(v, START, log);
  }
}
