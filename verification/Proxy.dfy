/** The proxy stream client: rebuilding an assistant message from events that carry
    only deltas, read from a chunked text. */
module Proxy {
  import opened Messages
  import opened ProxyLines

  /** A content block under construction. `partialJson` is present while a tool
      call's arguments are still streaming. */
  datatype PartialBlock =
    | TextBlock(text: string, textSignature: Option<string>)
    | ThinkingBlock(thinking: string, thinkingSignature: Option<string>)
    | CallBlock(id: string, name: string, arguments: Json, partialJson: Option<string>)

  datatype Kind = TextKind | ThinkingKind | CallKind

  /** What happens to one block. */
  datatype BlockEvent =
    | TextStart
    | TextDelta(delta: string)
    | TextEnd(signature: Option<string>)
    | ThinkingStart
    | ThinkingDelta(delta: string)
    | ThinkingEnd(signature: Option<string>)
    | CallStart(id: string, toolName: string)
    | CallDelta(delta: string)
    | CallEnd

  /** `Unknown` is an event of a type this client does not know. */
  datatype ProxyEvent =
    | Started
    | Unknown(eventType: string)
    | At(contentIndex: nat, event: BlockEvent)
    | Done(reason: StopReason, usage: Json)
    | Failed(reason: StopReason, errorMessage: Option<string>, usage: Json)

  /** What the client passes on to its own consumer. */
  datatype ClientEvent =
    | ClientStart
    | BlockStart(kind: Kind, contentIndex: nat)
    | BlockDelta(kind: Kind, contentIndex: nat, delta: string)
    | TextDone(contentIndex: nat, content: string)
    | ThinkingDone(contentIndex: nat, content: string)
    | CallDone(contentIndex: nat, toolCall: PartialBlock)
    | ClientDone(reason: StopReason)
    | ClientError(reason: StopReason)

  /** The functions of the JSON library: `decode` reads one event and may throw,
      `parse` reads a prefix of a JSON text and may find nothing in it. */
  datatype Codec = Codec(decode: string -> Attempt<ProxyEvent>, parse: string -> Option<Json>)

  const EMPTY_OBJECT := "{}"

  /** A content array; `None` is a hole left by assigning past its end. */
  type Content = seq<Option<PartialBlock>>

  function Lookup(content: Content, i: nat): Option<PartialBlock> {
    if i < |content| then content[i] else None
  }

  function Pad(content: Content, length: nat): (padded: Content)
    ensures |padded| == if |content| < length then length else |content|
    ensures forall i: nat :: Lookup(padded, i) == Lookup(content, i)
    decreases length - |content|
  {
    if |content| < length then Pad(content + [None], length) else content
  }

  function Store(content: Content, i: nat, block: PartialBlock): (stored: Content)
    ensures Lookup(stored, i) == Some(block)
    ensures forall j: nat :: j != i ==> Lookup(stored, j) == Lookup(content, j)
    ensures |stored| == if i < |content| then |content| else i + 1
  {
    Pad(content, i + 1)[i := Some(block)]
  }

  /** The effect of an event on the block it is about: a new block, no change, or an error. */
  function StepBlock(codec: Codec, slot: Option<PartialBlock>, e: BlockEvent): (r: Attempt<Option<PartialBlock>>) {
    match e
    case TextStart => Returned(Some(TextBlock("", None)))
    case TextDelta(d) =>
      if slot.Some? && slot.value.TextBlock? then Returned(Some(slot.value.(text := slot.value.text + d)))
      else Threw("Received text_delta for non-text content")
    case TextEnd(signature) =>
      if slot.Some? && slot.value.TextBlock? then Returned(Some(slot.value.(textSignature := signature)))
      else Threw("Received text_end for non-text content")
    case ThinkingStart => Returned(Some(ThinkingBlock("", None)))
    case ThinkingDelta(d) =>
      if slot.Some? && slot.value.ThinkingBlock? then Returned(Some(slot.value.(thinking := slot.value.thinking + d)))
      else Threw("Received thinking_delta for non-thinking content")
    case ThinkingEnd(signature) =>
      if slot.Some? && slot.value.ThinkingBlock? then Returned(Some(slot.value.(thinkingSignature := signature)))
      else Threw("Received thinking_end for non-thinking content")
    case CallStart(id, name) => Returned(Some(CallBlock(id, name, EMPTY_OBJECT, Some(""))))
    case CallDelta(d) =>
      if slot.Some? && slot.value.CallBlock? then
        // A delta after the end appends to an absent field, which reads as "undefined".
        var json := slot.value.partialJson.GetOr("undefined") + d;
        Returned(Some(slot.value.(partialJson := Some(json), arguments := codec.parse(json).GetOr(EMPTY_OBJECT))))
      else Threw("Received toolcall_delta for non-toolCall content")
    case CallEnd =>
      if slot.Some? && slot.value.CallBlock? then Returned(Some(slot.value.(partialJson := None)))
      else Returned(slot)
  }

  datatype Partial = Partial(content: Content, stopReason: StopReason, errorMessage: Option<string>, usage: Json)

  const EMPTY_USAGE: Json := "{}"
  const FRESH := Partial([], StopReason.Stop, None, EMPTY_USAGE)

  function Apply(codec: Codec, p: Partial, e: ProxyEvent): (r: Attempt<Partial>) {
    match e
    case Started => Returned(p)
    case Unknown(_) => Returned(p)
    case At(i, event) =>
      (match StepBlock(codec, Lookup(p.content, i), event)
       case Threw(message) => Threw(message)
       case Returned(None) => Returned(p)
       case Returned(Some(block)) => Returned(p.(content := Store(p.content, i, block))))
    case Done(reason, usage) => Returned(p.(stopReason := reason, usage := usage))
    case Failed(reason, message, usage) =>
      Returned(p.(stopReason := reason, errorMessage := message, usage := usage))
  }

  function ApplyAll(codec: Codec, p: Partial, events: seq<ProxyEvent>): (r: Attempt<Partial>)
    decreases |events|
  {
    if events == [] then Returned(p)
    else match Apply(codec, p, events[0])
      case Threw(message) => Threw(message)
      case Returned(next) => ApplyAll(codec, next, events[1..])
  }

  // ---- each block is rebuilt from its own events ----

  /** The events about one content index. */
  function Of(i: nat, events: seq<ProxyEvent>): (own: seq<BlockEvent>) {
    if events == [] then []
    else (if events[0].At? && events[0].contentIndex == i then [events[0].event] else []) + Of(i, events[1..])
  }

  function StepAll(codec: Codec, slot: Option<PartialBlock>, events: seq<BlockEvent>): (r: Attempt<Option<PartialBlock>>)
    decreases |events|
  {
    if events == [] then Returned(slot)
    else match StepBlock(codec, slot, events[0])
      case Threw(message) => Threw(message)
      case Returned(next) => StepAll(codec, next, events[1..])
  }

  lemma {:induction false} ApplyLocal(codec: Codec, p: Partial, e: ProxyEvent, i: nat)
    ensures e.At? && e.contentIndex == i ==>
      && (Apply(codec, p, e).Threw? <==> StepBlock(codec, Lookup(p.content, i), e.event).Threw?)
      && (Apply(codec, p, e).Returned? ==>
           StepBlock(codec, Lookup(p.content, i), e.event) == Returned(Lookup(Apply(codec, p, e).value.content, i)))
    ensures !(e.At? && e.contentIndex == i) && Apply(codec, p, e).Returned? ==>
      Lookup(Apply(codec, p, e).value.content, i) == Lookup(p.content, i)
  {
  }

  /** Locality: whatever else the stream interleaves, each block is what its own events
      make of it, and the whole is accepted exactly when every block's events are. */
  lemma {:induction false} BlocksAreIndependent(codec: Codec, p: Partial, events: seq<ProxyEvent>)
    ensures ApplyAll(codec, p, events).Returned? <==> forall i: nat :: StepAll(codec, Lookup(p.content, i), Of(i, events)).Returned?
    ensures ApplyAll(codec, p, events).Returned? ==>
      forall i: nat :: StepAll(codec, Lookup(p.content, i), Of(i, events)) == Returned(Lookup(ApplyAll(codec, p, events).value.content, i))
    decreases |events|
  {
    if events != [] {
      var e, rest := events[0], events[1..];
      match Apply(codec, p, e)
      case Threw(message) =>
        ApplyLocal(codec, p, e, e.contentIndex);
        assert Of(e.contentIndex, events)[0] == e.event;
        assert StepAll(codec, Lookup(p.content, e.contentIndex), Of(e.contentIndex, events)).Threw?;
      case Returned(next) =>
        BlocksAreIndependent(codec, next, rest);
        forall i: nat
          ensures StepAll(codec, Lookup(p.content, i), Of(i, events)) == StepAll(codec, Lookup(next.content, i), Of(i, rest))
        {
          ApplyLocal(codec, p, e, i);
          if e.At? && e.contentIndex == i {
            assert Of(i, events) == [e.event] + Of(i, rest);
            assert Of(i, events)[1..] == Of(i, rest);
          } else {
            assert Of(i, events) == Of(i, rest);
          }
        }
    }
  }

  // ---- the round trip ----

  /** A finished block, with the deltas its text or JSON was cut into. */
  datatype Sent =
    | SentText(pieces: seq<string>, signature: Option<string>)
    | SentThinking(pieces: seq<string>, signature: Option<string>)
    | SentCall(id: string, name: string, pieces: seq<string>)

  /** What the server sends for one block. */
  function Encode(b: Sent): (events: seq<BlockEvent>) {
    match b
    case SentText(pieces, signature) => [TextStart] + Deltas(TextKind, pieces) + [TextEnd(signature)]
    case SentThinking(pieces, signature) => [ThinkingStart] + Deltas(ThinkingKind, pieces) + [ThinkingEnd(signature)]
    case SentCall(id, name, pieces) => [CallStart(id, name)] + Deltas(CallKind, pieces) + [CallEnd]
  }

  function Deltas(kind: Kind, pieces: seq<string>): (events: seq<BlockEvent>) {
    if pieces == [] then []
    else [match kind
          case TextKind => TextDelta(pieces[0])
          case ThinkingKind => ThinkingDelta(pieces[0])
          case CallKind => CallDelta(pieces[0])] + Deltas(kind, pieces[1..])
  }

  /** The block as it was sent, up to the fields the events do not carry. Arguments
      are the parse of the whole JSON text. */
  function Whole(codec: Codec, b: Sent): PartialBlock {
    match b
    case SentText(pieces, signature) => TextBlock(Concat(pieces), signature)
    case SentThinking(pieces, signature) => ThinkingBlock(Concat(pieces), signature)
    case SentCall(id, name, pieces) => CallBlock(id, name, Arguments(codec, pieces), None)
  }

  function Arguments(codec: Codec, pieces: seq<string>): Json {
    if pieces == [] then "{}" else codec.parse(Concat(pieces)).GetOr("{}")
  }

  lemma {:induction false} StepAllConcat(codec: Codec, slot: Option<PartialBlock>, a: seq<BlockEvent>, b: seq<BlockEvent>)
    requires StepAll(codec, slot, a).Returned?
    ensures StepAll(codec, slot, a + b) == StepAll(codec, StepAll(codec, slot, a).value, b)
    decreases |a|
  {
    if a == [] {
      assert a + b == b;
    } else {
      assert (a + b)[1..] == a[1..] + b;
      StepAllConcat(codec, StepBlock(codec, slot, a[0]).value, a[1..], b);
    }
  }

  /** Streaming the deltas of a block that already holds `so far`. */
  lemma {:induction false} TextDeltas(codec: Codec, text: string, pieces: seq<string>)
    ensures StepAll(codec, Some(TextBlock(text, None)), Deltas(TextKind, pieces)) == Returned(Some(TextBlock(text + Concat(pieces), None)))
    ensures StepAll(codec, Some(ThinkingBlock(text, None)), Deltas(ThinkingKind, pieces))
      == Returned(Some(ThinkingBlock(text + Concat(pieces), None)))
    decreases |pieces|
  {
    if pieces == [] {
      assert text + "" == text;
    } else {
      TextDeltas(codec, text + pieces[0], pieces[1..]);
      assert text + pieces[0] + Concat(pieces[1..]) == text + Concat(pieces);
      assert Deltas(TextKind, pieces)[1..] == Deltas(TextKind, pieces[1..]);
      assert Deltas(ThinkingKind, pieces)[1..] == Deltas(ThinkingKind, pieces[1..]);
    }
  }

  lemma {:induction false} CallDeltas(codec: Codec, id: string, name: string, arguments: Json, json: string, pieces: seq<string>)
    ensures StepAll(codec, Some(CallBlock(id, name, arguments, Some(json))), Deltas(CallKind, pieces)) ==
      Returned(Some(CallBlock(id, name,
        if pieces == [] then arguments else codec.parse(json + Concat(pieces)).GetOr(EMPTY_OBJECT), Some(json + Concat(pieces)))))
    decreases |pieces|
  {
    if pieces == [] {
      assert json + "" == json;
    } else {
      var next := json + pieces[0];
      CallDeltas(codec, id, name, codec.parse(next).GetOr(EMPTY_OBJECT), next, pieces[1..]);
      assert next + Concat(pieces[1..]) == json + Concat(pieces);
      assert pieces[1..] == [] ==> json + Concat(pieces) == next;
      assert Deltas(CallKind, pieces)[1..] == Deltas(CallKind, pieces[1..]);
    }
  }

  lemma {:induction false} Sandwich(codec: Codec, slot: Option<PartialBlock>, first: BlockEvent, middle: seq<BlockEvent>, last: BlockEvent,
                                    begun: PartialBlock, grown: PartialBlock)
    requires StepBlock(codec, slot, first) == Returned(Some(begun))
    requires StepAll(codec, Some(begun), middle) == Returned(Some(grown))
    ensures StepAll(codec, slot, [first] + middle + [last]) == StepBlock(codec, Some(grown), last)
  {
    assert ([first] + middle + [last])[1..] == middle + [last];
    StepAllConcat(codec, Some(begun), middle, [last]);
    assert [last][1..] == [];
  }

  lemma {:induction false} BlockRoundTrip(codec: Codec, slot: Option<PartialBlock>, b: Sent)
    ensures StepAll(codec, slot, Encode(b)) == Returned(Some(Whole(codec, b)))
  {
    match b
    case SentText(pieces, signature) => TextRoundTrip(codec, slot, pieces, signature);
    case SentThinking(pieces, signature) => ThinkingRoundTrip(codec, slot, pieces, signature);
    case SentCall(id, name, pieces) => CallRoundTrip(codec, slot, id, name, pieces);
  }

  lemma {:induction false} TextRoundTrip(codec: Codec, slot: Option<PartialBlock>, pieces: seq<string>, signature: Option<string>)
    ensures StepAll(codec, slot, Encode(SentText(pieces, signature))) == Returned(Some(TextBlock(Concat(pieces), signature)))
  {
    TextDeltas(codec, "", pieces);
    assert "" + Concat(pieces) == Concat(pieces);
    Sandwich(codec, slot, TextStart, Deltas(TextKind, pieces), TextEnd(signature), TextBlock("", None), TextBlock(Concat(pieces), None));
  }

  lemma {:induction false} ThinkingRoundTrip(codec: Codec, slot: Option<PartialBlock>, pieces: seq<string>, signature: Option<string>)
    ensures StepAll(codec, slot, Encode(SentThinking(pieces, signature))) == Returned(Some(ThinkingBlock(Concat(pieces), signature)))
  {
    TextDeltas(codec, "", pieces);
    assert "" + Concat(pieces) == Concat(pieces);
    Sandwich(codec, slot, ThinkingStart, Deltas(ThinkingKind, pieces), ThinkingEnd(signature),
             ThinkingBlock("", None), ThinkingBlock(Concat(pieces), None));
  }

  lemma {:induction false} CallRoundTrip(codec: Codec, slot: Option<PartialBlock>, id: string, name: string, pieces: seq<string>)
    ensures StepAll(codec, slot, Encode(SentCall(id, name, pieces))) == Returned(Some(CallBlock(id, name, Arguments(codec, pieces), None)))
  {
    CallDeltas(codec, id, name, EMPTY_OBJECT, "", pieces);
    assert "" + Concat(pieces) == Concat(pieces);
    Sandwich(codec, slot, CallStart(id, name), Deltas(CallKind, pieces), CallEnd,
             CallBlock(id, name, EMPTY_OBJECT, Some("")), CallBlock(id, name, Arguments(codec, pieces), Some(Concat(pieces))));
  }

  // ---- which streams are accepted ----

  /** The kind of block an event needs to find. */
  function Needs(e: BlockEvent): Option<Kind> {
    match e
    case TextDelta(_) => Some(TextKind)
    case TextEnd(_) => Some(TextKind)
    case ThinkingDelta(_) => Some(ThinkingKind)
    case ThinkingEnd(_) => Some(ThinkingKind)
    case CallDelta(_) => Some(CallKind)
    case _ => None
  }

  /** The kind of block a start event opens. */
  function Opens(e: BlockEvent): Option<Kind> {
    match e
    case TextStart => Some(TextKind)
    case ThinkingStart => Some(ThinkingKind)
    case CallStart(_, _) => Some(CallKind)
    case _ => None
  }

  function LastStarted(events: seq<BlockEvent>): Option<Kind> {
    if events == [] then None
    else
      var n := |events| - 1;
      if Opens(events[n]).Some? then Opens(events[n]) else LastStarted(events[..n])
  }

  function Holds(slot: Option<PartialBlock>): Option<Kind> {
    match slot
    case None => None
    case Some(TextBlock(_, _)) => Some(TextKind)
    case Some(ThinkingBlock(_, _)) => Some(ThinkingKind)
    case Some(CallBlock(_, _, _, _)) => Some(CallKind)
  }

  predicate InOrder(events: seq<BlockEvent>) {
    forall k :: 0 <= k < |events| && Needs(events[k]).Some? ==> LastStarted(events[..k]) == Needs(events[k])
  }

  /** A block's events are accepted exactly when every delta, and every end of a text or of
      thinking, finds that the last start was of its kind. */
  lemma {:induction false} AcceptedExactly(codec: Codec, events: seq<BlockEvent>)
    ensures StepAll(codec, None, events).Returned? <==> InOrder(events)
    ensures InOrder(events) ==> Holds(StepAll(codec, None, events).value) == LastStarted(events)
    decreases |events|
  {
    if events != [] {
      var n := |events| - 1;
      var front, last := events[..n], events[n];
      assert events == front + [last];
      AcceptedExactly(codec, front);
      OrderSnoc(front, last);
      if StepAll(codec, None, front).Returned? {
        StepAllConcat(codec, None, front, [last]);
        assert StepAll(codec, None, events) == StepBlock(codec, StepAll(codec, None, front).value, last) by {
          assert [last][1..] == [];
        }
        StepHolds(codec, StepAll(codec, None, front).value, last);
      } else {
        StepAllThrows(codec, None, front, [last]);
      }
    }
  }

  lemma {:induction false} OrderSnoc(front: seq<BlockEvent>, last: BlockEvent)
    ensures InOrder(front + [last]) <==> InOrder(front) && (Needs(last).Some? ==> LastStarted(front) == Needs(last))
    ensures LastStarted(front + [last]) == if Opens(last).Some? then Opens(last) else LastStarted(front)
  {
    var events, n := front + [last], |front|;
    assert events[..n] == front && events[n] == last;
    assert forall k :: 0 <= k < n ==> front[k] == events[k] && front[..k] == events[..k];
  }

  lemma {:induction false} StepHolds(codec: Codec, slot: Option<PartialBlock>, e: BlockEvent)
    ensures StepBlock(codec, slot, e).Returned? <==> (Needs(e).Some? ==> Holds(slot) == Needs(e))
    ensures StepBlock(codec, slot, e).Returned? ==>
      Holds(StepBlock(codec, slot, e).value) == if Opens(e).Some? then Opens(e) else Holds(slot)
  {
  }

  lemma {:induction false} StepAllThrows(codec: Codec, slot: Option<PartialBlock>, a: seq<BlockEvent>, b: seq<BlockEvent>)
    requires StepAll(codec, slot, a).Threw?
    ensures StepAll(codec, slot, a + b).Threw?
    decreases |a|
  {
    assert (a + b)[1..] == a[1..] + b;
    match StepBlock(codec, slot, a[0])
    case Threw(_) =>
    case Returned(next) => StepAllThrows(codec, next, a[1..], b);
  }

  /** A delta after a call's end starts its JSON text anew, from the word "undefined". */
  lemma {:induction false} DeltaAfterEnd(codec: Codec, id: string, name: string, pieces: seq<string>, late: string)
    ensures StepAll(codec, None, Encode(SentCall(id, name, pieces)) + [CallDelta(late)])
      == Returned(Some(CallBlock(id, name, codec.parse("undefined" + late).GetOr(EMPTY_OBJECT), Some("undefined" + late))))
  {
    BlockRoundTrip(codec, None, SentCall(id, name, pieces));
    StepAllConcat(codec, None, Encode(SentCall(id, name, pieces)), [CallDelta(late)]);
    assert [CallDelta(late)][1..] == [];
  }

  // ---- the round trip over all blocks ----

  /** The stream interleaves the encodings of the blocks, in any way. */
  ghost predicate Interleaves(events: seq<ProxyEvent>, blocks: seq<Sent>) {
    forall i: nat :: Of(i, events) == if i < |blocks| then Encode(blocks[i]) else []
  }

  lemma {:induction false} ContentLength(codec: Codec, p: Partial, events: seq<ProxyEvent>, n: nat)
    requires |p.content| <= n && forall i: nat :: i >= n ==> Of(i, events) == []
    requires ApplyAll(codec, p, events).Returned?
    ensures |ApplyAll(codec, p, events).value.content| <= n
    decreases |events|
  {
    if events != [] {
      var e := events[0];
      if e.At? {
        assert Of(e.contentIndex, events) != [];
      }
      forall i: nat | i >= n
        ensures Of(i, events[1..]) == []
      {
        assert Of(i, events) == [];
      }
      ContentLength(codec, Apply(codec, p, e).value, events[1..], n);
    }
  }

  /** The round trip: for any content, any cutting into deltas and any interleaving
      across content indices, folding the events from an empty message succeeds and
      rebuilds the content block by block. */
  lemma {:induction false} RoundTrip(codec: Codec, p: Partial, events: seq<ProxyEvent>, blocks: seq<Sent>)
    requires p.content == [] && Interleaves(events, blocks)
    ensures var r := ApplyAll(codec, p, events);
      && r.Returned? && |r.value.content| == |blocks|
      && forall i :: 0 <= i < |blocks| ==> r.value.content[i] == Some(Whole(codec, blocks[i]))
  {
    forall i: nat
      ensures StepAll(codec, Lookup(p.content, i), Of(i, events)) == Returned(if i < |blocks| then Some(Whole(codec, blocks[i])) else None)
    {
      if i < |blocks| {
        BlockRoundTrip(codec, None, blocks[i]);
      }
    }
    BlocksAreIndependent(codec, p, events);
    var r := ApplyAll(codec, p, events);
    assert r.Returned?;
    ContentLength(codec, p, events, |blocks|);
    forall i: nat | i < |blocks|
      ensures Lookup(r.value.content, i) == Some(Whole(codec, blocks[i]))
    {
    }
    if blocks != [] {
      assert Lookup(r.value.content, |blocks| - 1).Some?;
    }
  }
}
