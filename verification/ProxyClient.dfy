/** The client's read loop: chunks into lines, lines into events, events into the
    partial message, in place. */
module ProxyClients {
  import opened Messages
  import opened ProxyLines
  import opened Proxy

  // ---- from a line to its payload ----

  /** White space in the sense of ECMAScript's `trim`. */
  predicate IsSpace(c: char) {
    var n := c as int;
    || 0x09 <= n <= 0x0D || n == 0x20 || n == 0xA0 || n == 0x1680 || 0x2000 <= n <= 0x200A
    || n == 0x2028 || n == 0x2029 || n == 0x202F || n == 0x205F || n == 0x3000 || n == 0xFEFF
  }

  function TrimStart(s: string): string {
    if s != "" && IsSpace(s[0]) then TrimStart(s[1..]) else s
  }

  function TrimEnd(s: string): string {
    if s != "" && IsSpace(s[|s| - 1]) then TrimEnd(s[..|s| - 1]) else s
  }

  const PREFIX := "data: "

  /** The event text a line carries, if any. */
  function Payload(line: string): Option<string> {
    if PREFIX <= line then
      var data := TrimEnd(TrimStart(line[|PREFIX|..]));
      if data == "" then None else Some(data)
    else None
  }

  predicate AllSpace(s: string) {
    forall c :: c in s ==> IsSpace(c)
  }

  /** A text `trim` leaves alone, as every JSON text is. */
  predicate Trimmed(text: string) {
    text != "" && !IsSpace(text[0]) && !IsSpace(text[|text| - 1])
  }

  lemma {:induction false} TrimStartSkips(a: string, s: string)
    requires AllSpace(a) && (s != "" ==> !IsSpace(s[0]))
    ensures TrimStart(a + s) == s
    decreases |a|
  {
    if a == "" {
      assert a + s == s;
    } else {
      assert (a + s)[1..] == a[1..] + s && a[0] in a && AllSpace(a[1..]);
      TrimStartSkips(a[1..], s);
    }
  }

  lemma {:induction false} TrimEndSkips(s: string, b: string)
    requires AllSpace(b) && (s != "" ==> !IsSpace(s[|s| - 1]))
    ensures TrimEnd(s + b) == s
    decreases |b|
  {
    if b == "" {
      assert s + b == s;
    } else {
      var n := |b| - 1;
      assert (s + b)[..|s + b| - 1] == s + b[..n] && b[n] in b && AllSpace(b[..n]);
      TrimEndSkips(s, b[..n]);
    }
  }

  /** A line's payload is what follows the prefix, without the white space around it. */
  lemma {:induction false} PayloadExact(a: string, text: string, b: string)
    requires AllSpace(a) && AllSpace(b) && Trimmed(text)
    ensures Payload("data: " + (a + (text + b))) == Some(text)
    ensures Payload("data: " + a) == None
    ensures forall line: string :: !("data: " <= line) ==> Payload(line) == None
  {
    assert (PREFIX + (a + (text + b)))[|PREFIX|..] == a + (text + b) && (PREFIX + a)[|PREFIX|..] == a;
    assert (text + b)[0] == text[0];
    TrimStartSkips(a, text + b);
    TrimEndSkips(text, b);
    assert a + "" == a;
    TrimStartSkips(a, "");
  }

  // ---- the specification of the read loop ----

  /** What is passed on for an event, given the block it is about. */
  function Reaction(slot: Option<PartialBlock>, e: ProxyEvent): Option<ClientEvent> {
    match e
    case Started => Some(ClientStart)
    case Unknown(_) => None
    case Done(reason, _) => Some(ClientDone(reason))
    case Failed(reason, _, _) => Some(ClientError(reason))
    case At(i, event) =>
      match event
      case TextStart => Some(BlockStart(TextKind, i))
      case ThinkingStart => Some(BlockStart(ThinkingKind, i))
      case CallStart(_, _) => Some(BlockStart(CallKind, i))
      case TextDelta(d) => Some(BlockDelta(TextKind, i, d))
      case ThinkingDelta(d) => Some(BlockDelta(ThinkingKind, i, d))
      case CallDelta(d) => Some(BlockDelta(CallKind, i, d))
      case TextEnd(_) => if slot.Some? && slot.value.TextBlock? then Some(TextDone(i, slot.value.text)) else None
      case ThinkingEnd(_) => if slot.Some? && slot.value.ThinkingBlock? then Some(ThinkingDone(i, slot.value.thinking)) else None
      case CallEnd =>
        if slot.Some? && slot.value.CallBlock? then Some(CallDone(i, slot.value.(partialJson := None))) else None
  }

  /** The client between two lines; `error` once something has thrown. */
  datatype Client = Client(partial: Partial, pushed: seq<ClientEvent>, error: Option<string>)

  function HandleEvent(codec: Codec, c: Client, e: ProxyEvent): Client {
    match Apply(codec, c.partial, e)
    case Threw(message) => c.(error := Some(message))
    case Returned(p) =>
      var slot := if e.At? then Lookup(c.partial.content, e.contentIndex) else None;
      var out := Reaction(slot, e);
      c.(partial := p, pushed := c.pushed + if out.Some? then [out.value] else [])
  }

  function HandleLine(codec: Codec, c: Client, line: string): Client {
    if c.error.Some? || Payload(line).None? then c
    else match codec.decode(Payload(line).value)
      case Threw(message) => c.(error := Some(message))
      case Returned(e) => HandleEvent(codec, c, e)
  }

  function HandleLines(codec: Codec, c: Client, lines: seq<string>): Client
    decreases |lines|
  {
    if lines == [] then c else HandleLines(codec, HandleLine(codec, c, lines[0]), lines[1..])
  }

  /** How reading comes to an end after the last chunk: the text is complete, or the read
      throws, because the signal was aborted or for another reason. */
  datatype Ending = Complete | Broken(message: string, aborted: bool)

  /** A failed read marks the message and passes an error on. */
  function Mark(c: Client, message: string, reason: StopReason): Client {
    c.(partial := c.partial.(stopReason := reason, errorMessage := Some(message)),
       pushed := c.pushed + [ClientError(reason)],
       error := Some(message))
  }

  /** Chunks are processed without a break, so a line that throws does so before an
      abort can be seen. */
  function Conclude(c: Client, ending: Ending): Client {
    if c.error.Some? then Mark(c, c.error.value, StopReason.Error)
    else match ending
      case Complete => c
      case Broken(message, aborted) => Mark(c, message, if aborted then StopReason.Aborted else StopReason.Error)
  }

  lemma {:induction false} HandleConcat(codec: Codec, c: Client, a: seq<string>, b: seq<string>)
    ensures HandleLines(codec, c, a + b) == HandleLines(codec, HandleLines(codec, c, a), b)
    decreases |a|
  {
    if a == [] {
      assert a + b == b;
    } else {
      assert (a + b)[1..] == a[1..] + b;
      HandleConcat(codec, HandleLine(codec, c, a[0]), a[1..], b);
    }
  }

  lemma {:induction false} ErrorSticks(codec: Codec, c: Client, lines: seq<string>)
    requires c.error.Some?
    ensures HandleLines(codec, c, lines) == c
    decreases |lines|
  {
    if lines != [] {
      ErrorSticks(codec, c, lines[1..]);
    }
  }

  lemma {:induction false} HandleSnoc(codec: Codec, c: Client, lines: seq<string>, k: nat)
    requires k < |lines|
    ensures HandleLines(codec, c, lines[..k + 1]) == HandleLine(codec, HandleLines(codec, c, lines[..k]), lines[k])
  {
    assert lines[..k + 1] == lines[..k] + [lines[k]];
    HandleConcat(codec, c, lines[..k], [lines[k]]);
    assert [lines[k]][1..] == [];
  }

  /** Once a prefix of the text has failed, the rest of it changes nothing. */
  lemma {:induction false} FailedPrefix(codec: Codec, c: Client, lines: seq<string>, k: nat)
    requires k <= |lines| && HandleLines(codec, c, lines[..k]).error.Some?
    ensures HandleLines(codec, c, lines) == HandleLines(codec, c, lines[..k])
  {
    assert lines == lines[..k] + lines[k..];
    HandleConcat(codec, c, lines[..k], lines[k..]);
    ErrorSticks(codec, HandleLines(codec, c, lines[..k]), lines[k..]);
  }

  /** The first line that cannot be decoded or applied ends the reading: nothing after it
      counts, whatever the connection does, and the consumer is told of the error last. */
  lemma {:induction false} FirstFailure(codec: Codec, c: Client, lines: seq<string>, k: nat, message: string, ending: Ending)
    requires k < |lines| && HandleLines(codec, c, lines[..k]).error.None? && Payload(lines[k]).Some?
    requires match codec.decode(Payload(lines[k]).value)
      case Threw(m) => m == message
      case Returned(e) => Apply(codec, HandleLines(codec, c, lines[..k]).partial, e) == Threw(message)
    ensures var before := HandleLines(codec, c, lines[..k]);
      var after := Conclude(HandleLines(codec, c, lines), ending);
      && after.error == Some(message)
      && after.partial == before.partial.(stopReason := StopReason.Error, errorMessage := Some(message))
      && after.pushed == before.pushed + [ClientError(StopReason.Error)]
  {
    HandleSnoc(codec, c, lines, k);
    FailedPrefix(codec, c, lines, k + 1);
  }

  // ---- the client ----

  class ProxyClient {
    const codec: Codec
    var content: Content
    var stopReason: StopReason
    var errorMessage: Option<string>
    var usage: Json
    var pushed: seq<ClientEvent>
    var buffer: string
    ghost var error: Option<string>

    ghost function Message(): Partial
      reads this
    {
      Partial(content, stopReason, errorMessage, usage)
    }

    ghost function Model(): Client
      reads this
    {
      Client(Message(), pushed, error)
    }

    constructor (codec: Codec)
      ensures this.codec == codec && buffer == "" && Model() == Client(FRESH, [], None)
    {
      this.codec := codec;
      content, stopReason, errorMessage, usage := [], StopReason.Stop, None, EMPTY_USAGE;
      pushed, buffer, error := [], "", None;
    }

    /** One event, applied to the message in place. */
    method ProcessProxyEvent(e: ProxyEvent) returns (r: Attempt<Option<ClientEvent>>)
      modifies this`content, this`stopReason, this`errorMessage, this`usage
      ensures match Apply(codec, old(Message()), e)
        case Threw(message) => r == Threw(message) && Message() == old(Message())
        case Returned(p) =>
          && Message() == p
          && r == Returned(Reaction(if e.At? then Lookup(old(content), e.contentIndex) else None, e))
    {
      match e
      case Started =>
        r := Returned(Some(ClientStart));
      case Unknown(_) =>
        r := Returned(None);
      case At(i, event) =>
        r := ProcessBlockEvent(i, event);
      case Done(reason, newUsage) =>
        stopReason, usage := reason, newUsage;
        r := Returned(Some(ClientDone(reason)));
      case Failed(reason, message, newUsage) =>
        stopReason, errorMessage, usage := reason, message, newUsage;
        r := Returned(Some(ClientError(reason)));
    }

    method ProcessBlockEvent(i: nat, event: BlockEvent) returns (r: Attempt<Option<ClientEvent>>)
      modifies this`content
      ensures match StepBlock(codec, Lookup(old(content), i), event)
        case Threw(message) => r == Threw(message) && content == old(content)
        case Returned(next) =>
          && content == (if next.Some? then Store(old(content), i, next.value) else old(content))
          && r == Returned(Reaction(Lookup(old(content), i), At(i, event)))
    {
      var slot := Lookup(content, i);
      match event
      case TextStart =>
        content := Store(content, i, TextBlock("", None));
        r := Returned(Some(BlockStart(TextKind, i)));
      case TextDelta(d) =>
        if slot.Some? && slot.value.TextBlock? {
          content := Store(content, i, slot.value.(text := slot.value.text + d));
          r := Returned(Some(BlockDelta(TextKind, i, d)));
        } else {
          r := Threw("Received text_delta for non-text content");
        }
      case TextEnd(signature) =>
        if slot.Some? && slot.value.TextBlock? {
          content := Store(content, i, slot.value.(textSignature := signature));
          r := Returned(Some(TextDone(i, slot.value.text)));
        } else {
          r := Threw("Received text_end for non-text content");
        }
      case ThinkingStart =>
        content := Store(content, i, ThinkingBlock("", None));
        r := Returned(Some(BlockStart(ThinkingKind, i)));
      case ThinkingDelta(d) =>
        if slot.Some? && slot.value.ThinkingBlock? {
          content := Store(content, i, slot.value.(thinking := slot.value.thinking + d));
          r := Returned(Some(BlockDelta(ThinkingKind, i, d)));
        } else {
          r := Threw("Received thinking_delta for non-thinking content");
        }
      case ThinkingEnd(signature) =>
        if slot.Some? && slot.value.ThinkingBlock? {
          content := Store(content, i, slot.value.(thinkingSignature := signature));
          r := Returned(Some(ThinkingDone(i, slot.value.thinking)));
        } else {
          r := Threw("Received thinking_end for non-thinking content");
        }
      case CallStart(id, name) =>
        content := Store(content, i, CallBlock(id, name, EMPTY_OBJECT, Some("")));
        r := Returned(Some(BlockStart(CallKind, i)));
      case CallDelta(d) =>
        if slot.Some? && slot.value.CallBlock? {
          var json := slot.value.partialJson.GetOr("undefined") + d;
          content := Store(content, i, slot.value.(partialJson := Some(json), arguments := codec.parse(json).GetOr(EMPTY_OBJECT)));
          r := Returned(Some(BlockDelta(CallKind, i, d)));
        } else {
          r := Threw("Received toolcall_delta for non-toolCall content");
        }
      case CallEnd =>
        if slot.Some? && slot.value.CallBlock? {
          content := Store(content, i, slot.value.(partialJson := None));
          r := Returned(Some(CallDone(i, slot.value.(partialJson := None))));
        } else {
          StoreSame(content, i);
          r := Returned(None);
        }
    }

    method ProcessLine(line: string) returns (r: Attempt<()>)
      requires error.None?
      modifies this`content, this`stopReason, this`errorMessage, this`usage, this`pushed, this`error
      ensures Model() == HandleLine(codec, old(Model()), line)
      ensures if r.Threw? then error == Some(r.message) else error.None?
    {
      r := Returned(());
      if PREFIX <= line {
        var data := TrimEnd(TrimStart(line[|PREFIX|..]));
        if data != "" {
          var decoded := codec.decode(data);
          if decoded.Threw? {
            error := Some(decoded.message);
            return Threw(decoded.message);
          }
          var event := ProcessProxyEvent(decoded.value);
          if event.Threw? {
            error := Some(event.message);
            return Threw(event.message);
          }
          if event.value.Some? {
            pushed := pushed + [event.value.value];
          }
        }
      }
    }

    /** One chunk: the buffered text and the chunk are cut into lines, and the last piece
        is buffered again. */
    method ReadChunk(chunk: string) returns (r: Attempt<()>)
      requires error.None?
      modifies this`content, this`stopReason, this`errorMessage, this`usage, this`pushed, this`error, this`buffer
      ensures buffer == Remainder(old(buffer) + chunk)
      ensures Model() == HandleLines(codec, old(Model()), Terminated(old(buffer) + chunk))
      ensures if r.Threw? then error == Some(r.message) else error.None?
    {
      r := Returned(());
      buffer := buffer + chunk;
      var pieces := SplitLines(buffer);
      var lines := pieces[..|pieces| - 1];
      buffer := pieces[|pieces| - 1];
      var k := 0;
      while k < |lines|
        invariant k <= |lines| && error.None? && buffer == Remainder(old(buffer) + chunk)
        invariant Model() == HandleLines(codec, old(Model()), lines[..k])
        invariant r.Returned?
      {
        HandleSnoc(codec, old(Model()), lines, k);
        r := ProcessLine(lines[k]);
        k := k + 1;
        if r.Threw? {
          FailedPrefix(codec, old(Model()), lines, k);
          return;
        }
      }
      assert lines[..k] == lines;
    }

    /** The whole read loop. However the text is cut into chunks, exactly its
        newline-terminated lines are processed, in order, up to the first failure;
        an unterminated remainder is not. */
    method ReadStream(chunks: seq<string>, ending: Ending)
      requires error.None? && buffer == ""
      modifies this
      ensures Model() == Conclude(HandleLines(codec, old(Model()), Terminated(Concat(chunks))), ending)
      ensures error.None? ==> buffer == Remainder(Concat(chunks))
    {
      var k := 0;
      assert Concat(chunks[..0]) == "";
      while k < |chunks|
        invariant k <= |chunks| && error.None?
        invariant buffer == Remainder(Concat(chunks[..k]))
        invariant Model() == HandleLines(codec, old(Model()), Terminated(Concat(chunks[..k])))
      {
        ghost var text := Concat(chunks[..k]);
        ConcatSnoc(chunks, k);
        SplitContinues(text, chunks[k]);
        HandleConcat(codec, old(Model()), Terminated(text), Terminated(Remainder(text) + chunks[k]));
        var r := ReadChunk(chunks[k]);
        k := k + 1;
        if r.Threw? {
          LinesGrow(codec, old(Model()), chunks, k);
          ReportError(r.message, StopReason.Error);
          return;
        }
      }
      assert chunks[..k] == chunks;
      if ending.Broken? {
        ReportError(ending.message, if ending.aborted then StopReason.Aborted else StopReason.Error);
      }
    }

    method ReportError(message: string, reason: StopReason)
      modifies this`stopReason, this`errorMessage, this`pushed, this`error
      ensures Model() == Mark(old(Model()), message, reason)
    {
      stopReason, errorMessage := reason, Some(message);
      pushed := pushed + [ClientError(reason)];
      error := Some(message);
    }
  }

  lemma {:induction false} StoreSame(content: Content, i: nat)
    ensures Lookup(content, i).Some? ==> Store(content, i, Lookup(content, i).value) == content
  {
    if Lookup(content, i).Some? {
      var stored := Store(content, i, Lookup(content, i).value);
      assert forall j: nat :: j < |content| ==> Lookup(stored, j) == Lookup(content, j);
    }
  }

  /** A failure while reading some chunks is the failure of the whole text. */
  lemma {:induction false} LinesGrow(codec: Codec, c: Client, chunks: seq<string>, k: nat)
    requires k <= |chunks| && HandleLines(codec, c, Terminated(Concat(chunks[..k]))).error.Some?
    ensures HandleLines(codec, c, Terminated(Concat(chunks))) == HandleLines(codec, c, Terminated(Concat(chunks[..k])))
    decreases |chunks| - k
  {
    if k == |chunks| {
      assert chunks[..k] == chunks;
    } else {
      var text := Concat(chunks[..k]);
      ConcatSnoc(chunks, k);
      SplitContinues(text, chunks[k]);
      HandleConcat(codec, c, Terminated(text), Terminated(Remainder(text) + chunks[k]));
      ErrorSticks(codec, HandleLines(codec, c, Terminated(text)), Terminated(Remainder(text) + chunks[k]));
      LinesGrow(codec, c, chunks, k + 1);
    }
  }

  // ---- from the wire to the message ----

  /** The event texts in a sequence of lines. Blank lines, comments and empty `data: `
      lines carry none. */
  function Payloads(lines: seq<string>): (texts: seq<string>) {
    if lines == [] then []
    else (if Payload(lines[0]).Some? then [Payload(lines[0]).value] else []) + Payloads(lines[1..])
  }

  /** The lines carry exactly these events, with anything in between that carries none. */
  predicate Carries(codec: Codec, lines: seq<string>, events: seq<ProxyEvent>) {
    && |Payloads(lines)| == |events|
    && forall k :: 0 <= k < |events| ==> codec.decode(Payloads(lines)[k]) == Returned(events[k])
  }

  function HandleEvents(codec: Codec, c: Client, events: seq<ProxyEvent>): Client
    decreases |events|
  {
    if events == [] then c else HandleEvents(codec, HandleEvent(codec, c, events[0]), events[1..])
  }

  lemma {:induction false} LinesApply(codec: Codec, c: Client, lines: seq<string>, events: seq<ProxyEvent>)
    requires c.error.None? && Carries(codec, lines, events) && ApplyAll(codec, c.partial, events).Returned?
    ensures HandleLines(codec, c, lines) == HandleEvents(codec, c, events)
    ensures HandleLines(codec, c, lines).error.None?
    ensures HandleLines(codec, c, lines).partial == ApplyAll(codec, c.partial, events).value
    decreases |lines|
  {
    if lines != [] {
      var rest := Payloads(lines[1..]);
      if Payload(lines[0]).None? {
        assert Payloads(lines) == rest;
        LinesApply(codec, c, lines[1..], events);
      } else {
        assert Payloads(lines)[0] == Payload(lines[0]).value && Payloads(lines)[1..] == rest;
        assert forall k :: 0 <= k < |rest| ==> rest[k] == Payloads(lines)[k + 1];
        LinesApply(codec, HandleLine(codec, c, lines[0]), lines[1..], events[1..]);
      }
    }
  }

  // ---- what is passed on ----

  /** The content index an event is about, if any. */
  function IndexOf(e: ClientEvent): Option<nat> {
    match e
    case BlockStart(_, i) => Some(i)
    case BlockDelta(_, i, _) => Some(i)
    case TextDone(i, _) => Some(i)
    case ThinkingDone(i, _) => Some(i)
    case CallDone(i, _) => Some(i)
    case _ => None
  }

  /** The events passed on about one block, or, for `None`, about the message as a whole. */
  function About(index: Option<nat>, pushed: seq<ClientEvent>): (part: seq<ClientEvent>) {
    if pushed == [] then []
    else (if IndexOf(pushed[0]) == index then [pushed[0]] else []) + About(index, pushed[1..])
  }

  function KindOf(b: Sent): Kind {
    match b
    case SentText(_, _) => TextKind
    case SentThinking(_, _) => ThinkingKind
    case SentCall(_, _, _) => CallKind
  }

  /** What the consumer is to hear of a block: its start, its pieces and its whole. */
  function Told(codec: Codec, i: nat, b: Sent): (events: seq<ClientEvent>) {
    [BlockStart(KindOf(b), i)] + Pieces(KindOf(b), i, b.pieces)
    + [match b
       case SentText(pieces, _) => TextDone(i, Concat(pieces))
       case SentThinking(pieces, _) => ThinkingDone(i, Concat(pieces))
       case SentCall(id, name, pieces) => CallDone(i, CallBlock(id, name, Arguments(codec, pieces), None))]
  }

  function Pieces(kind: Kind, i: nat, pieces: seq<string>): (events: seq<ClientEvent>)
    ensures |events| == |pieces|
    ensures forall k :: 0 <= k < |pieces| ==> events[k] == BlockDelta(kind, i, pieces[k])
  {
    seq(|pieces|, k requires 0 <= k < |pieces| => BlockDelta(kind, i, pieces[k]))
  }

  /** What the consumer is to hear of the message as a whole. */
  function Overall(events: seq<ProxyEvent>): (heard: seq<ClientEvent>) {
    if events == [] then []
    else
      (match events[0]
       case Started => [ClientStart]
       case Done(reason, _) => [ClientDone(reason)]
       case Failed(reason, _, _) => [ClientError(reason)]
       case _ => [])
      + Overall(events[1..])
  }

  lemma {:induction false} AboutSnoc(index: Option<nat>, pushed: seq<ClientEvent>, e: ClientEvent)
    ensures About(index, pushed + [e]) == About(index, pushed) + if IndexOf(e) == index then [e] else []
    decreases |pushed|
  {
    if pushed == [] {
      assert pushed + [e] == [e] && [e][1..] == [];
    } else {
      assert (pushed + [e])[1..] == pushed[1..] + [e];
      AboutSnoc(index, pushed[1..], e);
      Assoc(if IndexOf(pushed[0]) == index then [pushed[0]] else [], About(index, pushed[1..]), if IndexOf(e) == index then [e] else []);
    }
  }

  /** The reactions to one block's own events. */
  function Reactions(codec: Codec, i: nat, slot: Option<PartialBlock>, own: seq<BlockEvent>): (heard: seq<ClientEvent>)
    decreases |own|
  {
    if own == [] then []
    else
      var out := Reaction(slot, At(i, own[0]));
      match StepBlock(codec, slot, own[0])
      case Threw(_) => []
      case Returned(next) => (if out.Some? then [out.value] else []) + Reactions(codec, i, next, own[1..])
  }

  lemma {:induction false} HandledAbout(codec: Codec, c: Client, e: ProxyEvent, i: nat)
    requires Apply(codec, c.partial, e).Returned?
    ensures var next := HandleEvent(codec, c, e);
      && next.error == c.error && next.partial == Apply(codec, c.partial, e).value
      && About(None, next.pushed) == About(None, c.pushed) + Overall([e])
      && About(Some(i), next.pushed) == About(Some(i), c.pushed) +
        if e.At? && e.contentIndex == i then
          var out := Reaction(Lookup(c.partial.content, i), e);
          if out.Some? then [out.value] else []
        else []
  {
    assert [e][1..] == [];
    var slot := if e.At? then Lookup(c.partial.content, e.contentIndex) else None;
    var out := Reaction(slot, e);
    if out.Some? {
      AboutSnoc(None, c.pushed, out.value);
      AboutSnoc(Some(i), c.pushed, out.value);
    } else {
      assert c.pushed + [] == c.pushed;
    }
  }

  lemma {:induction false} PushedAbout(codec: Codec, c: Client, events: seq<ProxyEvent>, i: nat)
    requires ApplyAll(codec, c.partial, events).Returned?
    ensures About(Some(i), HandleEvents(codec, c, events).pushed)
      == About(Some(i), c.pushed) + Reactions(codec, i, Lookup(c.partial.content, i), Of(i, events))
    decreases |events|
  {
    if events != [] {
      var e, rest := events[0], events[1..];
      var next := HandleEvent(codec, c, e);
      HandledAbout(codec, c, e, i);
      PushedAbout(codec, next, rest, i);
      ApplyLocal(codec, c.partial, e, i);
      if e.At? && e.contentIndex == i {
        var slot := Lookup(c.partial.content, i);
        var out := Reaction(slot, e);
        ReactionsCons(codec, i, slot, e.event, Of(i, rest));
        Assoc(About(Some(i), c.pushed), if out.Some? then [out.value] else [],
              Reactions(codec, i, Lookup(next.partial.content, i), Of(i, rest)));
      } else {
        assert Of(i, events) == Of(i, rest);
      }
    }
  }

  lemma {:induction false} ReactionsCons(codec: Codec, i: nat, slot: Option<PartialBlock>, e: BlockEvent, own: seq<BlockEvent>)
    requires StepBlock(codec, slot, e).Returned?
    ensures var out := Reaction(slot, At(i, e));
      Reactions(codec, i, slot, [e] + own)
        == (if out.Some? then [out.value] else []) + Reactions(codec, i, StepBlock(codec, slot, e).value, own)
  {
    assert ([e] + own)[1..] == own;
  }

  lemma {:induction false} PushedOverall(codec: Codec, c: Client, events: seq<ProxyEvent>)
    requires ApplyAll(codec, c.partial, events).Returned?
    ensures About(None, HandleEvents(codec, c, events).pushed) == About(None, c.pushed) + Overall(events)
    decreases |events|
  {
    if events != [] {
      HandledAbout(codec, c, events[0], 0);
      PushedOverall(codec, HandleEvent(codec, c, events[0]), events[1..]);
      assert [events[0]][1..] == [];
      Assoc(About(None, c.pushed), Overall([events[0]]), Overall(events[1..]));
    }
  }

  lemma {:induction false} ReactionsConcat(codec: Codec, i: nat, slot: Option<PartialBlock>, a: seq<BlockEvent>, b: seq<BlockEvent>)
    requires StepAll(codec, slot, a).Returned?
    ensures Reactions(codec, i, slot, a + b) == Reactions(codec, i, slot, a) + Reactions(codec, i, StepAll(codec, slot, a).value, b)
    decreases |a|
  {
    if a == [] {
      assert a + b == b;
    } else {
      assert (a + b)[1..] == a[1..] + b;
      var out, next := Reaction(slot, At(i, a[0])), StepBlock(codec, slot, a[0]).value;
      ReactionsConcat(codec, i, next, a[1..], b);
      Assoc(if out.Some? then [out.value] else [], Reactions(codec, i, next, a[1..]),
            Reactions(codec, i, StepAll(codec, next, a[1..]).value, b));
    }
  }

  lemma {:induction false} DeltaReactions(codec: Codec, i: nat, slot: Option<PartialBlock>, kind: Kind, pieces: seq<string>)
    requires StepAll(codec, slot, Deltas(kind, pieces)).Returned?
    ensures Reactions(codec, i, slot, Deltas(kind, pieces)) == Pieces(kind, i, pieces)
    decreases |pieces|
  {
    if pieces != [] {
      var own := Deltas(kind, pieces);
      assert own[1..] == Deltas(kind, pieces[1..]);
      DeltaReactions(codec, i, StepBlock(codec, slot, own[0]).value, kind, pieces[1..]);
      PiecesCons(kind, i, pieces);
    }
  }

  lemma {:induction false} PiecesCons(kind: Kind, i: nat, pieces: seq<string>)
    requires pieces != []
    ensures Pieces(kind, i, pieces) == [BlockDelta(kind, i, pieces[0])] + Pieces(kind, i, pieces[1..])
  {
  }

  /** The reactions to an opening event, deltas and a closing event. */
  lemma {:induction false} SandwichReactions(
    codec: Codec, i: nat, slot: Option<PartialBlock>, first: BlockEvent, kind: Kind, pieces: seq<string>, last: BlockEvent,
    begun: PartialBlock, grown: PartialBlock)
    requires StepBlock(codec, slot, first) == Returned(Some(begun)) && Reaction(slot, At(i, first)) == Some(BlockStart(kind, i))
    requires StepAll(codec, Some(begun), Deltas(kind, pieces)) == Returned(Some(grown))
    requires StepBlock(codec, Some(grown), last).Returned? && Reaction(Some(grown), At(i, last)).Some?
    ensures Reactions(codec, i, slot, [first] + Deltas(kind, pieces) + [last])
      == [BlockStart(kind, i)] + Pieces(kind, i, pieces) + [Reaction(Some(grown), At(i, last)).value]
  {
    var middle := Deltas(kind, pieces);
    assert ([first] + middle + [last])[1..] == middle + [last];
    ReactionsConcat(codec, i, Some(begun), middle, [last]);
    DeltaReactions(codec, i, Some(begun), kind, pieces);
    assert [last][1..] == [];
  }

  lemma {:induction false} EncodedReactions(codec: Codec, i: nat, b: Sent)
    ensures Reactions(codec, i, None, Encode(b)) == Told(codec, i, b)
  {
    match b
    case SentText(pieces, signature) => TextReactions(codec, i, pieces, signature);
    case SentThinking(pieces, signature) => ThinkingReactions(codec, i, pieces, signature);
    case SentCall(id, name, pieces) => CallReactions(codec, i, id, name, pieces);
  }

  lemma {:induction false} TextReactions(codec: Codec, i: nat, pieces: seq<string>, signature: Option<string>)
    ensures Reactions(codec, i, None, Encode(SentText(pieces, signature))) == Told(codec, i, SentText(pieces, signature))
  {
    assert "" + Concat(pieces) == Concat(pieces);
    TextDeltas(codec, "", pieces);
    SandwichReactions(codec, i, None, TextStart, TextKind, pieces, TextEnd(signature), TextBlock("", None), TextBlock(Concat(pieces), None));
  }

  lemma {:induction false} ThinkingReactions(codec: Codec, i: nat, pieces: seq<string>, signature: Option<string>)
    ensures Reactions(codec, i, None, Encode(SentThinking(pieces, signature))) == Told(codec, i, SentThinking(pieces, signature))
  {
    assert "" + Concat(pieces) == Concat(pieces);
    TextDeltas(codec, "", pieces);
    SandwichReactions(codec, i, None, ThinkingStart, ThinkingKind, pieces, ThinkingEnd(signature),
                      ThinkingBlock("", None), ThinkingBlock(Concat(pieces), None));
  }

  lemma {:induction false} CallReactions(codec: Codec, i: nat, id: string, name: string, pieces: seq<string>)
    ensures Reactions(codec, i, None, Encode(SentCall(id, name, pieces))) == Told(codec, i, SentCall(id, name, pieces))
  {
    assert "" + Concat(pieces) == Concat(pieces);
    CallDeltas(codec, id, name, EMPTY_OBJECT, "", pieces);
    SandwichReactions(codec, i, None, CallStart(id, name), CallKind, pieces, CallEnd, CallBlock(id, name, EMPTY_OBJECT, Some("")),
                      CallBlock(id, name, Arguments(codec, pieces), Some(Concat(pieces))));
  }

  // ---- the message's own fields ----

  /** The last `done` or `error` event. */
  function LastVerdict(events: seq<ProxyEvent>): Option<ProxyEvent> {
    if events == [] then None
    else
      var n := |events| - 1;
      if events[n].Done? || events[n].Failed? then Some(events[n]) else LastVerdict(events[..n])
  }

  function LastFailure(events: seq<ProxyEvent>): Option<ProxyEvent> {
    if events == [] then None
    else
      var n := |events| - 1;
      if events[n].Failed? then Some(events[n]) else LastFailure(events[..n])
  }

  /** How the message ended, as the last of the stream's `done` and `error` events has it;
      an error text is the last one sent. */
  predicate Concluded(events: seq<ProxyEvent>, p: Partial) {
    && (match LastVerdict(events)
        case None => p.stopReason == StopReason.Stop && p.usage == EMPTY_USAGE
        case Some(Done(reason, usage)) => p.stopReason == reason && p.usage == usage
        case Some(Failed(reason, _, usage)) => p.stopReason == reason && p.usage == usage
        case _ => false)
    && (match LastFailure(events)
        case Some(Failed(_, message, _)) => p.errorMessage == message
        case _ => p.errorMessage.None?)
  }

  lemma {:induction false} EventsConclude(codec: Codec, done: seq<ProxyEvent>, p: Partial, events: seq<ProxyEvent>)
    requires Concluded(done, p) && ApplyAll(codec, p, events).Returned?
    ensures Concluded(done + events, ApplyAll(codec, p, events).value)
    decreases |events|
  {
    if events == [] {
      assert done + events == done;
    } else {
      var e, rest := events[0], events[1..];
      ConcludesOne(codec, done, p, e);
      EventsConclude(codec, done + [e], Apply(codec, p, e).value, rest);
      assert events == [e] + rest;
      Assoc(done, [e], rest);
    }
  }

  lemma {:induction false} ConcludesOne(codec: Codec, done: seq<ProxyEvent>, p: Partial, e: ProxyEvent)
    requires Concluded(done, p) && Apply(codec, p, e).Returned?
    ensures Concluded(done + [e], Apply(codec, p, e).value)
  {
    assert (done + [e])[..|done|] == done;
  }

  /** The consumer hears of each block its start, its pieces in order and its whole, and
      nothing of any other. */
  ghost predicate AllTold(codec: Codec, pushed: seq<ClientEvent>, blocks: seq<Sent>) {
    forall i: nat :: About(Some(i), pushed) == if i < |blocks| then Told(codec, i, blocks[i]) else []
  }

  lemma {:induction false} TellsAll(codec: Codec, events: seq<ProxyEvent>, blocks: seq<Sent>)
    requires ApplyAll(codec, FRESH, events).Returned? && Interleaves(events, blocks)
    ensures AllTold(codec, HandleEvents(codec, Client(FRESH, [], None), events).pushed, blocks)
  {
    var c := HandleEvents(codec, Client(FRESH, [], None), events);
    forall i: nat
      ensures About(Some(i), c.pushed) == if i < |blocks| then Told(codec, i, blocks[i]) else []
    {
      PushedAbout(codec, Client(FRESH, [], None), events, i);
      if i < |blocks| {
        EncodedReactions(codec, i, blocks[i]);
      }
    }
  }

  /** End to end: content sent as events, interleaved across blocks, framed by lines that
      carry no event and chunked in any way, arrives as the same content, also when the
      connection breaks afterwards. The consumer hears of each block its start, its pieces
      in order and its whole, and of the message what the stream said of it. */
  lemma {:induction false} WireRoundTrip(
    codec: Codec, chunks: seq<string>, rest: string, lines: seq<string>, events: seq<ProxyEvent>, blocks: seq<Sent>, ending: Ending)
    requires Concat(chunks) == Unlines(lines) + rest && OneLine(rest) && forall line :: line in lines ==> OneLine(line)
    requires Carries(codec, lines, events) && Interleaves(events, blocks)
    ensures var c := Conclude(HandleLines(codec, Client(FRESH, [], None), Terminated(Concat(chunks))), ending);
      && (c.error.None? <==> ending.Complete?) && |c.partial.content| == |blocks|
      && (forall i :: 0 <= i < |blocks| ==> c.partial.content[i] == Some(Whole(codec, blocks[i])))
      && AllTold(codec, c.pushed, blocks)
      && Ends(events, c, ending)
  {
    var idle := Client(FRESH, [], None);
    SplitUnique(lines, rest);
    RoundTrip(codec, FRESH, events, blocks);
    LinesApply(codec, idle, lines, events);
    TellsAll(codec, events, blocks);
    PushedOverall(codec, idle, events);
    EventsConclude(codec, [], FRESH, events);
    assert [] + events == events;
    EndsAs(codec, HandleEvents(codec, idle, events), events, blocks, ending);
  }

  /** What the message says of its end, and what the consumer hears of it: what the stream
      sent, and last of all a break of the connection. */
  predicate Ends(events: seq<ProxyEvent>, c: Client, ending: Ending) {
    match ending
    case Complete => Concluded(events, c.partial) && About(None, c.pushed) == Overall(events)
    case Broken(message, aborted) =>
      var reason := if aborted then StopReason.Aborted else StopReason.Error;
      && c.partial.stopReason == reason && c.partial.errorMessage == Some(message)
      && About(None, c.pushed) == Overall(events) + [ClientError(reason)]
  }

  lemma {:induction false} EndsAs(codec: Codec, c: Client, events: seq<ProxyEvent>, blocks: seq<Sent>, ending: Ending)
    requires c.error.None? && AllTold(codec, c.pushed, blocks)
    requires Concluded(events, c.partial) && About(None, c.pushed) == Overall(events)
    ensures AllTold(codec, Conclude(c, ending).pushed, blocks) && Ends(events, Conclude(c, ending), ending)
  {
    if ending.Broken? {
      var e := ClientError(if ending.aborted then StopReason.Aborted else StopReason.Error);
      AboutSnoc(None, c.pushed, e);
      forall i: nat
        ensures About(Some(i), c.pushed + [e]) == if i < |blocks| then Told(codec, i, blocks[i]) else []
      {
        AboutSnoc(Some(i), c.pushed, e);
      }
    }
  }

  /** Server-sent events: every text on a `data: ` line of its own, followed by a blank line. */
  function Framed(texts: seq<string>): (lines: seq<string>) {
    if texts == [] then [] else ["data: " + texts[0], ""] + Framed(texts[1..])
  }

  lemma {:induction false} PlainPayload(text: string)
    requires Trimmed(text)
    ensures Payload(PREFIX + text) == Some(text)
  {
    assert "" + (text + "") == text;
    PayloadExact("", text, "");
  }

  lemma {:induction false} TwoLines(line: string, tail: seq<string>)
    requires Payload(line).Some?
    ensures Payloads([line, ""] + tail) == [Payload(line).value] + Payloads(tail)
  {
    assert ([line, ""] + tail)[1..] == [""] + tail && ([""] + tail)[1..] == tail;
  }

  /** The standard framing delivers every text, in order. */
  lemma {:induction false} FramedPayloads(texts: seq<string>)
    requires forall k :: 0 <= k < |texts| ==> Trimmed(texts[k])
    ensures Payloads(Framed(texts)) == texts
    decreases |texts|
  {
    if texts != [] {
      FramedPayloads(texts[1..]);
      PlainPayload(texts[0]);
      TwoLines(PREFIX + texts[0], Framed(texts[1..]));
      assert texts == [texts[0]] + texts[1..];
    }
  }
}
