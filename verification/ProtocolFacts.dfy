/** What an accepted log guarantees, in plain terms. These facts hold of any log the
    monitor accepts, whoever produced it. */
module ProtocolFacts {
  import opened Messages
  import opened Protocol
  import opened AgentView

  lemma {:induction false} PrefixAccepted(log: Log, i: nat)
    requires Accepts(log) && i <= |log|
    ensures Accepts(log[..i])
    ensures i < |log| ==>
      After(START, log[..i + 1]) == Step(After(START, log[..i]), log[i]) && Accepts(log[..i + 1])
  {
    Prefix(log, i);
    if i < |log| {
      Prefix(log, i + 1);
      assert log[..i + 1] == log[..i] + [log[i]];
      AfterSnoc(START, log[..i], log[i]);
    }
  }

  lemma {:induction false} Prefix(log: Log, i: nat)
    requires Accepts(log) && i <= |log|
    ensures Accepts(log[..i])
  {
    assert log == log[..i] + log[i..];
    AfterConcat(START, log[..i], log[i..]);
    if !Accepts(log[..i]) {
      ViolatedForever(After(START, log[..i]), log[i..]);
    }
  }

  /** The monitor's list of announced messages is the log's. */
  lemma {:induction false} MonitorEnded(q: Monitor, log: Log)
    requires !After(q, log).phase.Violated?
    ensures After(q, log).ended == q.ended + Ended(log)
    decreases |log|
  {
    if log == [] {
      assert q.ended + [] == q.ended;
    } else {
      var q1 := Step(q, log[0]);
      if q1.phase.Violated? {
        ViolatedForever(q1, log[1..]);
      }
      MonitorEnded(q1, log[1..]);
      StepEnded(q, log[0]);
      var first := if log[0].Emit? && log[0].event.MessageEnd? then [log[0].event.message] else [];
      Assoc(q.ended, first, Ended(log[1..]));
    }
  }

  lemma {:induction false} StepEnded(q: Monitor, e: Entry)
    requires !Step(q, e).phase.Violated?
    ensures Step(q, e).ended == q.ended + if e.Emit? && e.event.MessageEnd? then [e.event.message] else []
  {
  }

  /** `agent_end` comes last, carries every message announced, and closes the run. */
  lemma {:induction false} AgentEndIsLast(log: Log, i: nat)
    requires Accepts(log) && i < |log| && log[i].Emit? && log[i].event.AgentEnd?
    ensures i == |log| - 1
    ensures log[i].event.messages == Ended(log)
    ensures i > 0 && log[i - 1].Emit? && log[i - 1].event.TurnEnd?
  {
    PrefixAccepted(log, i);
    var q := After(START, log[..i]);
    assert q.phase.TurnOver? || q.phase.TurnFailed?;
    TurnJustEnded(log[..i]);
    if i + 1 < |log| {
      PrefixAccepted(log, i + 1);
    }
    assert log == log[..i] + [log[i]];
    MonitorEnded(START, log[..i]);
    EndedConcat(log[..i], [log[i]]);
    assert [log[i]][1..] == [];
  }

  lemma {:induction false} TurnJustEnded(log: Log)
    requires Accepts(log) && (After(START, log).phase.TurnOver? || After(START, log).phase.TurnFailed?)
    ensures log != [] && log[|log| - 1].Emit? && log[|log| - 1].event.TurnEnd?
  {
    if log != [] {
      PrefixAccepted(log, |log| - 1);
      assert log[..|log|] == log;
    }
  }

  /** A run has been closed exactly when its last entry is `agent_end`. */
  lemma {:induction false} ClosedByAgentEnd(log: Log)
    requires Accepts(log)
    ensures After(START, log).phase.Closed? <==>
      log != [] && log[|log| - 1].Emit? && log[|log| - 1].event.AgentEnd?
  {
    if log != [] {
      PrefixAccepted(log, |log| - 1);
      assert log[..|log|] == log;
    }
  }

  /** The follow-up queue is polled only right after an empty steering poll, which comes
      right after the end of a turn whose tool batch did not ask for another one. */
  lemma {:induction false} FollowUpWaitsForSteering(log: Log, i: nat)
    requires Accepts(log) && i < |log| && log[i].Poll? && log[i].queue.FollowUp?
    ensures i > 1 && log[i - 1] == Poll(Steering, [])
    ensures log[i - 2].Emit? && log[i - 2].event.TurnEnd?
    ensures After(START, log[..i - 1]).phase == TurnOver(false)
  {
    PrefixAccepted(log, i);
    assert After(START, log[..i]).phase.Idle?;
    assert log[..0] == [];
    PrefixAccepted(log, i - 1);
    assert log[..i - 1 + 1] == log[..i];
    TurnJustEnded(log[..i - 1]);
  }

  /** Partial messages appear only inside an assistant bracket, which holds nothing else. */
  lemma {:induction false} UpdatesStayInBracket(log: Log, i: nat) returns (start: nat)
    requires Accepts(log) && i < |log| && log[i].Emit? && log[i].event.MessageUpdate?
    ensures start < i
    ensures log[start].Emit? && log[start].event.MessageStart? && log[start].event.message.Assistant?
    ensures forall k :: start < k < i ==> log[k].Emit? && log[k].event.MessageUpdate?
  {
    PrefixAccepted(log, i);
    assert After(START, log[..i]).phase.Streaming?;
    start := BracketStart(log, i);
  }

  lemma {:induction false} BracketStart(log: Log, i: nat) returns (start: nat)
    requires Accepts(log) && i <= |log| && After(START, log[..i]).phase.Streaming?
    ensures start < i
    ensures log[start].Emit? && log[start].event.MessageStart? && log[start].event.message.Assistant?
    ensures forall k :: start < k < i ==> log[k].Emit? && log[k].event.MessageUpdate?
    decreases i
  {
    assert log[..0] == [];
    PrefixAccepted(log, i - 1);
    if After(START, log[..i - 1]).phase.Streaming? {
      start := BracketStart(log, i - 1);
    } else {
      start := i - 1;
    }
  }

  /** When a turn ends, no call of an idle agent's run is left pending and nothing streams. */
  lemma {:induction false} TurnEndsSettled(v: View, log: Log, i: nat)
    requires v.streamingMessage.None? && v.pendingToolCalls == {}
    requires Accepts(log) && i < |log| && log[i].Emit? && log[i].event.TurnEnd?
    ensures ReduceLog(v, log[..i + 1]).pendingToolCalls == {} && ReduceLog(v, log[..i + 1]).streamingMessage.None?
  {
    PrefixAccepted(log, i);
    ViewShowsProtocol(v, log[..i + 1]);
  }
}
