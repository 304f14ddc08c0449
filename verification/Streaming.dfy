/** Streaming one assistant reply into the transcript. */
module Streaming {
  import opened Messages
  import opened Protocol

  /** `Finish` stands for both terminal events, `done` and `error`. */
  datatype StreamEvent = Begin(partial: AssistantMessage) | Delta(partial: AssistantMessage) | Finish

  /** What the provider sends, and the message its stream resolves to. */
  datatype Stream = Stream(events: seq<StreamEvent>, result: AssistantMessage)

  /** The events read before a terminal one. */
  function Live(events: seq<StreamEvent>): (live: seq<StreamEvent>)
    ensures live <= events
    ensures forall e :: e in live ==> !e.Finish?
    ensures |live| < |events| ==> events[|live|].Finish?
  {
    if events == [] || events[0].Finish? then [] else [events[0]] + Live(events[1..])
  }

  /** The events that have an effect: partials before the first `start` are ignored. */
  function Heard(live: seq<StreamEvent>): (heard: seq<StreamEvent>)
    ensures heard != [] ==> heard[0].Begin?
  {
    if live == [] || live[0].Begin? then live else Heard(live[1..])
  }

  function Starts(events: seq<StreamEvent>): nat {
    if events == [] then 0 else (if events[0].Begin? then 1 else 0) + Starts(events[1..])
  }

  /** The number of `start` events the loop reads from a stream. */
  function StartsRead(stream: Stream): nat {
    Starts(Heard(Live(stream.events)))
  }

  function Announcement(e: StreamEvent): Entry
    requires !e.Finish?
  {
    Emit(if e.Begin? then MessageStart(Assistant(e.partial)) else MessageUpdate(Assistant(e.partial)))
  }

  function Announcements(events: seq<StreamEvent>): (log: Log)
    requires forall e :: e in events ==> !e.Finish?
    ensures |log| == |events|
    ensures forall i :: 0 <= i < |events| ==> log[i] == Announcement(events[i])
  {
    seq(|events|, i requires 0 <= i < |events| => Announcement(events[i]))
  }

  /** The partial messages a stream leaves at the end of the transcript: each
      `start` appends one, each later partial overwrites the last. */
  function Shown(events: seq<StreamEvent>): (partials: seq<Message>) {
    if events == [] then []
    else
      var before, last := Shown(events[..|events| - 1]), events[|events| - 1];
      match last
      case Begin(p) => before + [Assistant(p)]
      case Delta(p) => if before == [] then [] else before[..|before| - 1] + [Assistant(p)]
      case Finish => before
  }

  lemma {:induction false} HeardLive(events: seq<StreamEvent>)
    requires forall e :: e in events ==> !e.Finish?
    ensures forall e :: e in Heard(events) ==> !e.Finish?
  {
    if events != [] && !events[0].Begin? {
      HeardLive(events[1..]);
    }
  }

  function StreamLog(stream: Stream): (log: Log) {
    var heard := Heard(Live(stream.events));
    HeardLive(Live(stream.events));
    var final := Assistant(stream.result);
    (if heard == [] then [Emit(MessageStart(final))] else Announcements(heard)) + [Emit(MessageEnd(final))]
  }

  /** The transcript once the stream has finished: the final message takes the
      place of the last partial. */
  function Streamed(messages: seq<Message>, stream: Stream): (after: seq<Message>) {
    var partials := Shown(Heard(Live(stream.events)));
    messages + (if partials == [] then [] else partials[..|partials| - 1]) + [Assistant(stream.result)]
  }

  lemma {:induction false} StartsSnoc(events: seq<StreamEvent>, e: StreamEvent)
    ensures Starts(events + [e]) == Starts(events) + if e.Begin? then 1 else 0
  {
    if events == [] {
      assert events + [e] == [e] && [e][1..] == [];
    } else {
      assert (events + [e])[1..] == events[1..] + [e];
      StartsSnoc(events[1..], e);
    }
  }

  lemma {:induction false} ShownCount(events: seq<StreamEvent>)
    ensures |Shown(events)| == Starts(events)
  {
    if events != [] {
      var front, last := events[..|events| - 1], events[|events| - 1];
      ShownCount(front);
      StartsSnoc(front, last);
      assert events == front + [last];
    }
  }

  /** Streaming appends exactly the final message if and only if at most one `start`
      was read; every further one leaves a stale partial behind in the transcript. */
  lemma {:induction false} StreamedExact(messages: seq<Message>, stream: Stream)
    ensures Streamed(messages, stream) == messages + [Assistant(stream.result)] <==> StartsRead(stream) <= 1
    ensures |Streamed(messages, stream)| == |messages| + if StartsRead(stream) == 0 then 1 else StartsRead(stream)
    ensures messages <= Streamed(messages, stream)
    ensures EndsInAssistant(Streamed(messages, stream))
  {
    ShownCount(Heard(Live(stream.events)));
  }

  // ---- told from the provider's events ----

  /** Where a terminal event, or the end of the stream, stops reading. */
  lemma {:induction false} LiveAt(events: seq<StreamEvent>, n: nat)
    requires n <= |events|
    requires forall i :: 0 <= i < n ==> !events[i].Finish?
    requires n < |events| ==> events[n].Finish?
    ensures Live(events) == events[..n]
    decreases n
  {
    if n > 0 {
      LiveAt(events[1..], n - 1);
      assert [events[0]] + events[1..][..n - 1] == events[..n];
    }
  }

  /** What is heard is everything from the first `start` on. */
  lemma {:induction false} HeardAt(events: seq<StreamEvent>, f: nat)
    requires f <= |events| && (forall i :: 0 <= i < f ==> !events[i].Begin?) && (f < |events| ==> events[f].Begin?)
    ensures Heard(events) == events[f..]
    decreases f
  {
    if f > 0 {
      HeardAt(events[1..], f - 1);
      assert events[1..][f - 1..] == events[f..];
    } else {
      assert events[0..] == events;
    }
  }

  /** A stream that is read up to its n-th event, `start` coming first at `f`: every partial
      from then on is announced, in order, as a start or an update; then the final message
      ends the bracket, and begins it too if there was no `start`. */
  lemma {:induction false} StreamTold(stream: Stream, n: nat, f: nat)
    requires f <= n <= |stream.events| && (forall i :: 0 <= i < n ==> !stream.events[i].Finish?)
    requires n < |stream.events| ==> stream.events[n].Finish?
    requires (forall i :: 0 <= i < f ==> !stream.events[i].Begin?) && (f < n ==> stream.events[f].Begin?)
    ensures var log, final := StreamLog(stream), Assistant(stream.result);
      && |log| == (if f == n then 1 else n - f) + 1
      && log[|log| - 1] == Emit(MessageEnd(final))
      && (f == n ==> log[0] == Emit(MessageStart(final)))
      && forall k :: f <= k < n ==>
        log[k - f] == Emit(if stream.events[k].Begin? then MessageStart(Assistant(stream.events[k].partial))
                           else MessageUpdate(Assistant(stream.events[k].partial)))
  {
    LiveAt(stream.events, n);
    HeardAt(stream.events[..n], f);
    assert stream.events[..n][f..] == stream.events[f..n];
  }

  /** While the reply streams in, the transcript ends with the latest partial. */
  lemma {:induction false} LatestShown(read: seq<StreamEvent>, f: nat)
    requires f < |read| && (forall i :: 0 <= i < f ==> !read[i].Begin?) && read[f].Begin?
    requires forall e :: e in read ==> !e.Finish?
    ensures var shown := Shown(Heard(read));
      shown != [] && shown[|shown| - 1] == Assistant(read[|read| - 1].partial)
  {
    HeardAt(read, f);
    var heard := read[f..];
    assert heard[|heard| - 1] == read[|read| - 1] && read[|read| - 1] in read;
    ShownCount(heard);
    var front := heard[..|heard| - 1];
    if |heard| > 1 {
      ShownCount(front);
      assert front[0].Begin?;
    }
  }

  // ---- the protocol's view ----

  lemma {:induction false} DeltasAccepted(q: Monitor, events: seq<StreamEvent>)
    requires q.phase == Phase.Streaming && forall e :: e in events ==> !e.Finish?
    ensures Starts(events) == 0 ==> After(q, Announcements(events)) == q
    ensures Starts(events) > 0 ==> After(q, Announcements(events)).phase.Violated?
    decreases |events|
  {
    if events != [] {
      var log := Announcements(events);
      assert log[1..] == Announcements(events[1..]);
      if events[0].Begin? {
        ViolatedForever(Step(q, log[0]), log[1..]);
      } else {
        DeltasAccepted(q, events[1..]);
      }
    }
  }

  function Begun(q: Monitor, reply: AssistantMessage): Monitor {
    Monitor(Working(Work(reply, 0, map[], map[], true, [])), q.ended + [Assistant(reply)])
  }

  /** A streamed reply is one well-formed assistant bracket exactly when at most
      one `start` was read. */
  lemma {:induction false} StreamAccepted(q: Monitor, stream: Stream)
    requires q.phase == Requested
    ensures StartsRead(stream) <= 1 ==> After(q, StreamLog(stream)) == Begun(q, stream.result)
    ensures StartsRead(stream) > 1 ==> After(q, StreamLog(stream)).phase.Violated?
  {
    var heard := Heard(Live(stream.events));
    var final := Assistant(stream.result);
    HeardLive(Live(stream.events));
    var opening := if heard == [] then [Emit(MessageStart(final))] else Announcements(heard);
    AfterSnoc(q, opening, Emit(MessageEnd(final)));
    var q1 := q.(phase := Phase.Streaming);
    if heard == [] {
      AfterOne(q, Emit(MessageStart(final)));
    } else {
      assert opening[1..] == Announcements(heard[1..]);
      assert Step(q, opening[0]) == q1;
      DeltasAccepted(q1, heard[1..]);
    }
  }

  lemma {:induction false} AnnouncementsEnd(events: seq<StreamEvent>)
    requires forall e :: e in events ==> !e.Finish?
    ensures Ended(Announcements(events)) == []
    decreases |events|
  {
    if events != [] {
      assert Announcements(events)[1..] == Announcements(events[1..]);
      AnnouncementsEnd(events[1..]);
    }
  }

  /** Whatever the stream, exactly one message is announced as ended. */
  lemma {:induction false} StreamEnded(stream: Stream)
    ensures Ended(StreamLog(stream)) == [Assistant(stream.result)]
  {
    var heard := Heard(Live(stream.events));
    var final := Assistant(stream.result);
    HeardLive(Live(stream.events));
    var opening := if heard == [] then [Emit(MessageStart(final))] else Announcements(heard);
    EndedConcat(opening, [Emit(MessageEnd(final))]);
    if heard != [] {
      AnnouncementsEnd(heard);
    }
    assert [Emit(MessageStart(final))][1..] == [] && [Emit(MessageEnd(final))][1..] == [];
  }
}
