/** The messages-dialect ingress encoder (src/ingress/anthropic_messages/encode.rs, acc.rs,
    frames.rs): one fold of canonical events that serves both client shapes. */
module AnthIngress {
  import opened Base
  import opened Canonical
  import ChatIngress

  // ----- blocks: folded, and on the wire -----

  datatype Block =
    | TextBlock(text: string)
    | ToolBlock(tag: string, id: string, name: string, args: string)
    | ThinkBlock(text: string, signature: string)
    | RedactedBlock(data: string)
    | ResultBlock(kind: string, toolUseId: string, content: Json)
    | SkipBlock

  datatype WireBlock =
    | WireText(text: string)
    | WireTool(tag: string, id: string, name: string, input: Json)
    | WireThinking(thinking: string, signature: string)
    | WireRedacted(data: string)
    | WireResult(kind: string, toolUseId: string, content: Json)

  datatype WireDelta = TextPart(text: string) | JsonPart(text: string) | ThinkPart(text: string) | SignPart(text: string)

  /** A kind's accumulator and its shape at start; no shape for a kind this wire cannot carry. */
  function OpenBlock(kind: ContentKind): (Block, Option<WireBlock>) {
    match kind
    case TextKind => (TextBlock(""), Some(WireText("")))
    case ToolUseKind(id, name) => (ToolBlock("tool_use", id, name, ""), Some(WireTool("tool_use", id, name, JObj(map[]))))
    case ServerToolUseKind(id, name) =>
      (ToolBlock("server_tool_use", id, name, ""), Some(WireTool("server_tool_use", id, name, JObj(map[]))))
    case ThinkingKind(_) => (ThinkBlock("", ""), Some(WireThinking("", "")))
    case RedactedThinkingKind(data) => (RedactedBlock(data), Some(WireRedacted(data)))
    case ServerToolResultKind(k, id, content) => (ResultBlock(k, id, content), Some(WireResult(k, id, content)))
    case _ => (SkipBlock, None)
  }

  /** A fragment that fits its block, folded in and as the wire spells it. */
  function Grow(block: Block, delta: Delta): Option<(Block, WireDelta)> {
    match (block, delta)
    case (TextBlock(t), TextDelta(d)) => Some((TextBlock(t + d), TextPart(d)))
    case (ToolBlock(tag, id, name, args), JsonDelta(d)) => Some((ToolBlock(tag, id, name, args + d), JsonPart(d)))
    case (ThinkBlock(t, s), ThinkingDelta(d)) => Some((ThinkBlock(t + d, s), ThinkPart(d)))
    case (ThinkBlock(t, s), SignatureDelta(d)) => Some((ThinkBlock(t, s + d), SignPart(d)))
    case _ => None
  }

  function FinishBlock(block: Block, read: ChatIngress.ReadArgs): Option<WireBlock> {
    match block
    case TextBlock(t) => Some(WireText(t))
    case ToolBlock(tag, id, name, args) => Some(WireTool(tag, id, name, ChatIngress.ParseArgs(read, args)))
    case ThinkBlock(t, s) => Some(WireThinking(t, s))
    case RedactedBlock(data) => Some(WireRedacted(data))
    case ResultBlock(k, id, content) => Some(WireResult(k, id, content))
    case SkipBlock => None
  }

  // ----- usage, stop reason, errors -----

  /** Last wins per field; an absent counter leaves the prior value, and the two counters
      this wire has no slot for are never taken. */
  function MergeUsage(acc: Counters, u: Counters): Counters {
    acc.(inputTokens := Or(u.inputTokens, acc.inputTokens),
         outputTokens := Or(u.outputTokens, acc.outputTokens),
         cacheReadTokens := Or(u.cacheReadTokens, acc.cacheReadTokens),
         cacheWriteTokens := Or(u.cacheWriteTokens, acc.cacheWriteTokens),
         inputTotalTokens := Or(u.inputTotalTokens, acc.inputTotalTokens))
  }

  datatype AnthUsage = AnthUsage(input: nat, output: nat, cacheRead: Option<nat>, cacheWrite: Option<nat>)

  function UsageJson(u: Counters): AnthUsage {
    AnthUsage(ChatIngress.Known(u.inputTokens), ChatIngress.Known(u.outputTokens), u.cacheReadTokens, u.cacheWriteTokens)
  }

  datatype Details = Details(category: string, explanation: Option<string>)

  function StopReason(reason: FinishReason): (string, Option<Details>) {
    match reason
    case Stop => ("end_turn", None)
    case Length => ("max_tokens", None)
    case StopSequence => ("stop_sequence", None)
    case ToolUse => ("tool_use", None)
    case Pause => ("pause_turn", None)
    case Refusal(category, explanation) => ("refusal", Some(Details(category, explanation)))
    case OtherReason(s) => (s, None)
  }

  datatype Envelope = Envelope(errorType: string, message: string)

  function ErrorType(status: nat): string {
    if status == 401 || status == 403 then "authentication_error"
    else if status == 400 then "invalid_request_error"
    else if status == 402 then "billing_error"
    else if status == 404 then "not_found_error"
    else if status == 413 then "request_too_large"
    else if status == 429 then "rate_limit_error"
    else if status == 529 then "overloaded_error"
    else if status == 504 then "timeout_error"
    else if 500 <= status <= 599 then "api_error"
    else "invalid_request_error"
  }

  // ----- the state and the client wire -----

  datatype State = State(
    stream: bool, created: nat, fallbackModel: string, id: Option<string>, model: Option<string>,
    pending: seq<string>, adaptations: seq<string>,
    open: map<nat, Block>, content: seq<WireBlock>, usage: Counters,
    stopReason: Option<string>, stopDetails: Option<Details>,
    error: Option<Envelope>, status: Option<nat>)

  datatype Frame =
    | MessageStartFrame(id: string, model: string, usage: AnthUsage)
    | BlockStart(index: nat, block: WireBlock)
    | BlockDelta(index: nat, delta: WireDelta)
    | BlockStop(index: nat)
    | MessageDelta(reason: Option<string>, details: Option<Details>, usage: AnthUsage)
    | MessageStop
    | ErrorFrame(error: Envelope)

  datatype Body =
    | Success(id: string, model: string, content: seq<WireBlock>, stopReason: Option<string>,
              stopDetails: Option<Details>, usage: AnthUsage)
    | Failure(error: Envelope)

  datatype Line = Note(name: string) | Data(frame: Frame) | Whole(body: Body, adaptations: seq<string>)

  function Notes(names: seq<string>): (lines: seq<Line>)
    ensures |lines| == |names|
    ensures forall i :: 0 <= i < |names| ==> lines[i] == Note(names[i])
  {
    seq(|names|, i requires 0 <= i < |names| => Note(names[i]))
  }

  function WireId(st: State): string {
    if st.id.Some? then st.id.value else "msg_brazen-" + Decimal(st.created)
  }

  function WireModel(st: State): string {
    if st.model.Some? then st.model.value else st.fallbackModel
  }

  function BodyOf(st: State): Body {
    if st.error.Some? then Failure(st.error.value)
    else Success(WireId(st), WireModel(st), st.content, st.stopReason, st.stopDetails, UsageJson(st.usage))
  }

  function Fresh(stream: bool, created: nat, model: string, adaptations: seq<string>): State {
    State(stream, created, model, None, None, adaptations, adaptations, map[], [], NO_COUNTERS, None, None, None, None)
  }

  // ----- the fold, event by event -----

  /** How one event changes the state and the frame it is told by, if any. */
  datatype Told = Told(st: State, frame: Option<Frame>)

  function Start(st: State, index: nat, kind: ContentKind): Told {
    var (block, shape) := OpenBlock(kind);
    Told(st.(open := st.open[index := block]), if shape.Some? then Some(BlockStart(index, shape.value)) else None)
  }

  function Fragment(st: State, index: nat, delta: Delta): Told {
    if index !in st.open then Told(st, None)
    else
      match Grow(st.open[index], delta)
      case Some((block, d)) => Told(st.(open := st.open[index := block]), Some(BlockDelta(index, d)))
      case None => Told(st, None)
  }

  function Close(st: State, index: nat, read: ChatIngress.ReadArgs): Told {
    if index !in st.open then Told(st, None)
    else
      var st1 := st.(open := st.open - {index});
      match FinishBlock(st.open[index], read)
      case Some(block) => Told(st1.(content := st.content + [block]), Some(BlockStop(index)))
      case None => Told(st1, None)
  }

  function Fold(st: State, ev: Event, read: ChatIngress.ReadArgs): Told {
    match ev
    case MessageStart(id, model) =>
      var st1 := st.(id := id, model := model);
      Told(st1, Some(MessageStartFrame(WireId(st1), WireModel(st1), UsageJson(st1.usage))))
    case ContentStart(index, kind) => Start(st, index, kind)
    case ContentDelta(index, delta) => Fragment(st, index, delta)
    case ContentStop(index) => Close(st, index, read)
    case UsageEvent(u) => Told(st.(usage := MergeUsage(st.usage, u)), None)
    case Finish(reason) =>
      var (said, details) := StopReason(reason);
      Told(st.(stopReason := Some(said), stopDetails := details), Some(MessageDelta(Some(said), details, UsageJson(st.usage))))
    case Error(e) =>
      var status := HttpStatus(e.kind);
      var envelope := Envelope(ErrorType(status), e.message);
      Told(st.(status := Some(status), error := Some(envelope)), Some(ErrorFrame(envelope)))
    case End => Told(st, if st.error.Some? then None else Some(MessageStop))
    case Raw(_) => Told(st, None)
    case OtherEvent => Told(st, None)
  }

  /** The state and the lines written, as one step threads them. */
  datatype Out = Out(st: State, lines: seq<Line>)

  /** The stream shape writes each frame, led by the notes still pending; the aggregate shape
      writes its one body at the end. */
  function Step(o: Out, ev: Event, read: ChatIngress.ReadArgs): Out {
    var told := Fold(o.st, ev, read);
    if o.st.stream && told.frame.Some? then
      Out(told.st.(pending := []), o.lines + Notes(o.st.pending) + [Data(told.frame.value)])
    else if !o.st.stream && ev.End? then Out(told.st, o.lines + [Whole(BodyOf(told.st), o.st.adaptations)])
    else Out(told.st, o.lines)
  }

  function Run(o: Out, events: seq<Event>, read: ChatIngress.ReadArgs): Out
    decreases |events|
  {
    if events == [] then o else Run(Step(o, events[0], read), events[1..], read)
  }

  lemma {:induction false} RunAppend(o: Out, a: seq<Event>, b: seq<Event>, read: ChatIngress.ReadArgs)
    ensures Run(o, a + b, read) == Run(Run(o, a, read), b, read)
    decreases |a|
  {
    if a == [] {
      assert a + b == b;
    } else {
      assert (a + b)[1..] == a[1..] + b;
      RunAppend(Step(o, a[0], read), a[1..], b, read);
    }
  }

  lemma {:induction false} RunOne(o: Out, ev: Event, read: ChatIngress.ReadArgs)
    ensures Run(o, [ev], read) == Step(o, ev, read)
  {
    assert [ev][1..] == [];
  }

  // ----- the client's accumulation of the stream shape -----

  /** A block as the client builds it: its shape at start, grown, and the raw argument text. */
  datatype Part = Part(block: WireBlock, json: string)

  datatype Client = Client(
    head: Option<(string, string)>, open: map<nat, Part>, content: seq<WireBlock>, usage: Option<AnthUsage>,
    reason: Option<string>, details: Option<Details>, stopped: bool, error: Option<Envelope>, notes: seq<string>)

  const EMPTY_CLIENT := Client(None, map[], [], None, None, None, false, None, [])

  function PartDelta(p: Part, d: WireDelta): Part {
    match (p.block, d)
    case (WireText(t), TextPart(more)) => Part(WireText(t + more), p.json)
    case (WireTool(_, _, _, _), JsonPart(more)) => Part(p.block, p.json + more)
    case (WireThinking(t, s), ThinkPart(more)) => Part(WireThinking(t + more, s), p.json)
    case (WireThinking(t, s), SignPart(more)) => Part(WireThinking(t, s + more), p.json)
    case _ => p
  }

  /** Argument text is parsed when its block stops. */
  function Finished(p: Part, read: ChatIngress.ReadArgs): WireBlock {
    match p.block
    case WireTool(tag, id, name, _) => WireTool(tag, id, name, ChatIngress.ParseArgs(read, p.json))
    case _ => p.block
  }

  function ClientFrame(c: Client, f: Frame, read: ChatIngress.ReadArgs): Client {
    match f
    case MessageStartFrame(id, model, usage) => c.(head := Some((id, model)), usage := Some(usage))
    case BlockStart(i, block) => c.(open := c.open[i := Part(block, "")])
    case BlockDelta(i, d) => if i in c.open then c.(open := c.open[i := PartDelta(c.open[i], d)]) else c
    case BlockStop(i) =>
      if i in c.open then c.(open := c.open - {i}, content := c.content + [Finished(c.open[i], read)]) else c
    case MessageDelta(reason, details, usage) => c.(reason := reason, details := details, usage := Some(usage))
    case MessageStop => c.(stopped := true)
    case ErrorFrame(e) => c.(error := Some(e))
  }

  function ClientLine(c: Client, l: Line, read: ChatIngress.ReadArgs): Client {
    match l
    case Note(name) => c.(notes := c.notes + [name])
    case Data(f) => ClientFrame(c, f, read)
    case Whole(_, _) => c
  }

  function Accumulate(c: Client, lines: seq<Line>, read: ChatIngress.ReadArgs): Client
    decreases |lines|
  {
    if lines == [] then c else Accumulate(ClientLine(c, lines[0], read), lines[1..], read)
  }

  lemma {:induction false} AccumulateAppend(c: Client, a: seq<Line>, b: seq<Line>, read: ChatIngress.ReadArgs)
    ensures Accumulate(c, a + b, read) == Accumulate(Accumulate(c, a, read), b, read)
    decreases |a|
  {
    if a == [] {
      assert a + b == b;
    } else {
      assert (a + b)[1..] == a[1..] + b;
      AccumulateAppend(ClientLine(c, a[0], read), a[1..], b, read);
    }
  }

  lemma {:induction false} AccumulateNotes(c: Client, names: seq<string>, read: ChatIngress.ReadArgs)
    ensures Accumulate(c, Notes(names), read) == c.(notes := c.notes + names)
    decreases |names|
  {
    if names == [] {
      assert c.notes + names == c.notes;
    } else {
      var c1 := ClientLine(c, Note(names[0]), read);
      assert Notes(names)[1..] == Notes(names[1..]);
      AccumulateNotes(c1, names[1..], read);
      assert c1.notes + names[1..] == c.notes + names;
    }
  }

  /** The pending notes and then one frame, as the client takes them in. */
  lemma {:induction false} AccumulateFrame(
    c: Client, lines: seq<Line>, names: seq<string>, f: Frame, read: ChatIngress.ReadArgs)
    ensures
      var was := Accumulate(c, lines, read);
      Accumulate(c, lines + Notes(names) + [Data(f)], read) == ClientFrame(was.(notes := was.notes + names), f, read)
  {
    hide ClientFrame;
    var was := Accumulate(c, lines, read);
    AccumulateAppend(c, lines, Notes(names), read);
    AccumulateNotes(was, names, read);
    AccumulateAppend(c, lines + Notes(names), [Data(f)], read);
    assert [Data(f)][1..] == [];
  }

  // ----- the client keeps step with the encoder -----

  /** What the client holds of a block the encoder has open. */
  function PartOf(block: Block): Part
    requires !block.SkipBlock?
  {
    match block
    case TextBlock(t) => Part(WireText(t), "")
    case ToolBlock(tag, id, name, args) => Part(WireTool(tag, id, name, JObj(map[])), args)
    case ThinkBlock(t, s) => Part(WireThinking(t, s), "")
    case RedactedBlock(data) => Part(WireRedacted(data), "")
    case ResultBlock(k, id, content) => Part(WireResult(k, id, content), "")
  }

  /** What the usage events up to here add up to, and what a client was last told of it. */
  datatype Tally = Tally(counters: Counters, told: Option<Counters>)

  const NO_TALLY := Tally(NO_COUNTERS, None)

  function Count(t: Tally, ev: Event): Tally {
    match ev
    case UsageEvent(u) => t.(counters := MergeUsage(t.counters, u))
    case MessageStart(_, _) => t.(told := Some(t.counters))
    case Finish(_) => t.(told := Some(t.counters))
    case _ => t
  }

  function CountAll(t: Tally, events: seq<Event>): Tally
    decreases |events|
  {
    if events == [] then t else CountAll(Count(t, events[0]), events[1..])
  }

  ghost predicate BlocksMatch(st: State, c: Client) {
    forall i <- st.open :: !st.open[i].SkipBlock? ==> i in c.open && c.open[i] == PartOf(st.open[i])
  }

  ghost predicate FactsMatch(st: State, c: Client, t: Tally) {
    && c.content == st.content && c.reason == st.stopReason && c.details == st.stopDetails && c.error == st.error
    && (c.head.Some? ==> c.head == Some((WireId(st), WireModel(st))))
    && st.usage == t.counters
    && c.usage == (if t.told.Some? then Some(UsageJson(t.told.value)) else None)
  }

  ghost predicate NotesMatch(st: State, c: Client) {
    && ((st.pending == st.adaptations && c.notes == []) || (st.pending == [] && c.notes == st.adaptations))
    && (st.error.Some? ==> st.pending == [])
  }

  ghost predicate InStep(o: Out, t: Tally, read: ChatIngress.ReadArgs) {
    var c := Accumulate(EMPTY_CLIENT, o.lines, read);
    o.st.stream && BlocksMatch(o.st, c) && FactsMatch(o.st, c, t) && NotesMatch(o.st, c)
  }

  lemma {:induction false} FrameMatchesBlocks(st: State, c: Client, ev: Event, read: ChatIngress.ReadArgs)
    requires BlocksMatch(st, c) && Fold(st, ev, read).frame.Some?
    ensures BlocksMatch(Fold(st, ev, read).st, ClientFrame(c, Fold(st, ev, read).frame.value, read))
  {
    hide Decimal, HttpStatus, ErrorType, StopReason, UsageJson, ChatIngress.ParseArgs;
  }

  /** One frame told to a client that is in step leaves it in step. */
  lemma {:induction false} FrameMatches(st: State, c: Client, t: Tally, ev: Event, read: ChatIngress.ReadArgs)
    requires BlocksMatch(st, c) && FactsMatch(st, c, t) && Fold(st, ev, read).frame.Some?
    ensures
      var told := Fold(st, ev, read);
      var c' := ClientFrame(c, told.frame.value, read);
      && BlocksMatch(told.st, c') && FactsMatch(told.st, c', Count(t, ev))
      && c'.notes == c.notes && c'.stopped == (c.stopped || ev.End?)
      && c'.head.Some? == (c.head.Some? || ev.MessageStart?)
  {
    FrameMatchesBlocks(st, c, ev, read);
    hide Decimal, HttpStatus, ErrorType, ChatIngress.ParseArgs, MergeUsage, PartDelta;
    match ev
    case ContentStop(i) =>
    case _ => hide BlocksMatch;
  }

  lemma {:induction false} SilenceMatches(st: State, c: Client, t: Tally, ev: Event, read: ChatIngress.ReadArgs)
    requires BlocksMatch(st, c) && FactsMatch(st, c, t) && Fold(st, ev, read).frame.None?
    ensures BlocksMatch(Fold(st, ev, read).st, c) && FactsMatch(Fold(st, ev, read).st, c, Count(t, ev))
  {
    hide Decimal, HttpStatus, ErrorType, ChatIngress.ParseArgs;
  }

  lemma {:induction false} FoldKeepsKnobs(st: State, ev: Event, read: ChatIngress.ReadArgs)
    ensures
      var st' := Fold(st, ev, read).st;
      st'.stream == st.stream && st'.pending == st.pending && st'.adaptations == st.adaptations
  {
  }

  lemma {:induction false} OnlyErrorsFail(st: State, ev: Event, read: ChatIngress.ReadArgs)
    ensures ev.Error? || Fold(st, ev, read).st.error == st.error
    ensures ev.Error? || ev.End? || ev.MessageStart? ==> Fold(st, ev, read).frame.Some? == (!ev.End? || st.error.None?)
  {
  }

  lemma {:induction false} StepInStep(o: Out, t: Tally, ev: Event, read: ChatIngress.ReadArgs)
    requires InStep(o, t, read)
    ensures InStep(Step(o, ev, read), Count(t, ev), read)
    ensures
      var c, c' := Accumulate(EMPTY_CLIENT, o.lines, read), Accumulate(EMPTY_CLIENT, Step(o, ev, read).lines, read);
      && c'.stopped == (c.stopped || (ev.End? && o.st.error.None?))
      && (Fold(o.st, ev, read).frame.Some? ==> Step(o, ev, read).st.pending == [])
      && c'.head.Some? == (c.head.Some? || ev.MessageStart?)
  {
    var c := Accumulate(EMPTY_CLIENT, o.lines, read);
    var told := Fold(o.st, ev, read);
    FoldKeepsKnobs(o.st, ev, read);
    OnlyErrorsFail(o.st, ev, read);
    if told.frame.Some? {
      var c1 := c.(notes := c.notes + o.st.pending);
      AccumulateFrame(EMPTY_CLIENT, o.lines, o.st.pending, told.frame.value, read);
      assert c1.notes == o.st.adaptations;
      FrameMatches(o.st, c1, t, ev, read);
      hide Fold, ClientFrame, Accumulate, Count, Notes, PartOf, Decimal, UsageJson;
    } else {
      SilenceMatches(o.st, c, t, ev, read);
      hide Fold, ClientFrame, Accumulate, Count, BlocksMatch, FactsMatch;
    }
  }

  predicate Opened(events: seq<Event>) {
    exists e <- events :: e.MessageStart?
  }

  lemma {:induction false} RunInStep(o: Out, t: Tally, events: seq<Event>, read: ChatIngress.ReadArgs)
    requires InStep(o, t, read) && End !in events
    ensures InStep(Run(o, events, read), CountAll(t, events), read)
    ensures
      var c, c' := Accumulate(EMPTY_CLIENT, o.lines, read), Accumulate(EMPTY_CLIENT, Run(o, events, read).lines, read);
      c'.stopped == c.stopped && c'.head.Some? == (c.head.Some? || Opened(events))
    decreases |events|
  {
    if events != [] {
      hide Step, InStep, Accumulate;
      assert events[0] in events && events == [events[0]] + events[1..];
      assert Opened(events) <==> events[0].MessageStart? || Opened(events[1..]);
      StepInStep(o, t, events[0], read);
      RunInStep(Step(o, events[0], read), Count(t, events[0]), events[1..], read);
    }
  }

  // ----- the two client shapes agree -----

  /** The same fold, whatever the client shape: only the exposure bookkeeping differs. */
  ghost predicate SameFold(a: State, b: State) {
    a == b.(stream := a.stream, pending := a.pending)
  }

  lemma {:induction false} StepIgnoresShape(a: Out, b: Out, ev: Event, read: ChatIngress.ReadArgs)
    requires SameFold(a.st, b.st)
    ensures SameFold(Step(a, ev, read).st, Step(b, ev, read).st)
    ensures Step(a, ev, read).st.stream == a.st.stream && Step(b, ev, read).st.adaptations == b.st.adaptations
  {
    hide Decimal, HttpStatus, ErrorType, OpenBlock, Grow, FinishBlock, Notes;
  }

  lemma {:induction false} FoldIgnoresShape(a: Out, b: Out, events: seq<Event>, read: ChatIngress.ReadArgs)
    requires SameFold(a.st, b.st)
    ensures SameFold(Run(a, events, read).st, Run(b, events, read).st)
    ensures Run(a, events, read).st.stream == a.st.stream && Run(b, events, read).st.adaptations == b.st.adaptations
    decreases |events|
  {
    if events != [] {
      StepIgnoresShape(a, b, events[0], read);
      StepIgnoresShape(b, a, events[0], read);
      hide Step, SameFold;
      FoldIgnoresShape(Step(a, events[0], read), Step(b, events[0], read), events[1..], read);
    }
  }

  /** On the aggregate shape nothing is written before the end. */
  lemma {:induction false} AggregateIsSilent(o: Out, events: seq<Event>, read: ChatIngress.ReadArgs)
    requires !o.st.stream && End !in events
    ensures Run(o, events, read).lines == o.lines && !Run(o, events, read).st.stream
    decreases |events|
  {
    if events != [] {
      FoldKeepsKnobs(o.st, events[0], read);
      hide Fold, BodyOf, Notes;
      AggregateIsSilent(Step(o, events[0], read), events[1..], read);
    }
  }

  /** The aggregate body is the stream accumulated, for every event sequence, bracketed or
      not: the content a client assembles per index, in stop order, is the body's content.
      Only usage can differ: the body has it all, a stream client what `message_start` and
      `message_delta` last said. A clean stream is stopped, a failed one is not. */
  lemma {:induction false} AggregateIsStreamAccumulated(
    events: seq<Event>, read: ChatIngress.ReadArgs, created: nat, model: string, adaptations: seq<string>)
    requires End !in events
    ensures
      var sse := Run(Out(Fresh(true, created, model, adaptations), []), events + [End], read);
      var agg := Run(Out(Fresh(false, created, model, adaptations), []), events + [End], read);
      var client := Accumulate(EMPTY_CLIENT, sse.lines, read);
      var tally := CountAll(NO_TALLY, events);
      && SameFold(sse.st, agg.st)
      && agg.lines == [Whole(BodyOf(agg.st), adaptations)]
      && client.notes == adaptations
      && (client.stopped <==> BodyOf(agg.st).Success?)
      && (client.error == match BodyOf(agg.st) case Failure(e) => Some(e) case _ => None)
      && client.content == agg.st.content && client.reason == agg.st.stopReason && client.details == agg.st.stopDetails
      && client.head == (if Opened(events) then Some((WireId(agg.st), WireModel(agg.st))) else None)
      && agg.st.usage == tally.counters
      && client.usage == (if tally.told.Some? then Some(UsageJson(tally.told.value)) else None)
  {
    var a, b := Out(Fresh(true, created, model, adaptations), []), Out(Fresh(false, created, model, adaptations), []);
    assert InStep(a, NO_TALLY, read);
    hide Step, Run, Fold, InStep;
    RunInStep(a, NO_TALLY, events, read);
    var mid := Run(a, events, read);
    StepInStep(mid, CountAll(NO_TALLY, events), End, read);
    RunAppend(a, events, [End], read);
    RunOne(mid, End, read);
    AggregateIsSilent(b, events, read);
    FoldIgnoresShape(a, b, events, read);
    RunAppend(b, events, [End], read);
    RunOne(Run(b, events, read), End, read);
    StepIgnoresShape(mid, Run(b, events, read), End, read);
    EndsWhole(mid, Run(b, events, read), read);
    assert InStep(Step(mid, End, read), CountAll(NO_TALLY, events), read);
    ReadOff(Step(mid, End, read), CountAll(NO_TALLY, events), read);
    ReadOff(mid, CountAll(NO_TALLY, events), read);
  }

  lemma {:induction false} ReadOff(o: Out, t: Tally, read: ChatIngress.ReadArgs)
    requires InStep(o, t, read)
    ensures FactsMatch(o.st, Accumulate(EMPTY_CLIENT, o.lines, read), t)
    ensures NotesMatch(o.st, Accumulate(EMPTY_CLIENT, o.lines, read))
  {
  }

  lemma {:induction false} EndsWhole(a: Out, b: Out, read: ChatIngress.ReadArgs)
    requires a.st.stream && !b.st.stream && SameFold(a.st, b.st)
    requires a.st.error.Some? ==> a.st.pending == []
    ensures Step(a, End, read).st.pending == [] && Step(a, End, read).st == a.st.(pending := [])
    ensures Step(b, End, read) == Out(b.st, b.lines + [Whole(BodyOf(b.st), b.st.adaptations)])
  {
    assert a.st.error == b.st.error;
  }

  // ----- usage -----

  /** The last counter reported in a list, if any was. */
  function LastKnown(reports: seq<Option<nat>>): Option<nat> {
    if reports == [] then None else if Last(reports).Some? then Last(reports) else LastKnown(Front(reports))
  }

  /** The counters the fold carries. */
  datatype Counter = Input | Output | CacheRead | CacheWrite | InputTotal

  function Get(c: Counters, field: Counter): Option<nat> {
    match field
    case Input => c.inputTokens
    case Output => c.outputTokens
    case CacheRead => c.cacheReadTokens
    case CacheWrite => c.cacheWriteTokens
    case InputTotal => c.inputTotalTokens
  }

  function Reports(events: seq<Event>, field: Counter): seq<Option<nat>> {
    if events == [] then []
    else (if events[0].UsageEvent? then [Get(events[0].usage, field)] else []) + Reports(events[1..], field)
  }

  lemma {:induction false} LastKnownAppend(a: seq<Option<nat>>, b: seq<Option<nat>>)
    ensures LastKnown(a + b) == Or(LastKnown(b), LastKnown(a))
  {
    if b == [] {
      assert a + b == a;
    } else {
      assert Front(a + b) == a + Front(b);
      LastKnownAppend(a, Front(b));
    }
  }

  /** Each carried counter is the last value any usage event reported for it. */
  lemma {:induction false} LastReportWins(t: Tally, events: seq<Event>, field: Counter)
    ensures Get(CountAll(t, events).counters, field) == Or(LastKnown(Reports(events, field)), Get(t.counters, field))
    decreases |events|
  {
    if events != [] {
      var first := if events[0].UsageEvent? then [Get(events[0].usage, field)] else [];
      assert first != [] ==> Front(first) == [];
      LastReportWins(Count(t, events[0]), events[1..], field);
      LastKnownAppend(first, Reports(events[1..], field));
    }
  }

  lemma {:induction false} CountAppend(t: Tally, a: seq<Event>, b: seq<Event>)
    ensures CountAll(t, a + b) == CountAll(CountAll(t, a), b)
    decreases |a|
  {
    if a == [] {
      assert a + b == b;
    } else {
      assert (a + b)[1..] == a[1..] + b;
      CountAppend(Count(t, a[0]), a[1..], b);
    }
  }

  lemma {:induction false} NoMoreUsage(t: Tally, late: seq<Event>)
    requires forall e <- late :: !e.UsageEvent? && !e.MessageStart? && !e.Finish?
    ensures CountAll(t, late) == t
    decreases |late|
  {
    if late != [] {
      assert late[0] in late;
      assert forall e <- late[1..] :: e in late;
      NoMoreUsage(Count(t, late[0]), late[1..]);
    }
  }

  /** When every usage event comes before the finish, a stream client is told all of it. */
  lemma {:induction false} UsageBeforeFinishIsTold(early: seq<Event>, reason: FinishReason, late: seq<Event>)
    requires forall e <- late :: !e.UsageEvent? && !e.MessageStart? && !e.Finish?
    ensures
      var tally := CountAll(NO_TALLY, early + [Finish(reason)] + late);
      tally.told == Some(tally.counters)
  {
    CountAppend(NO_TALLY, early + [Finish(reason)], late);
    CountAppend(NO_TALLY, early, [Finish(reason)]);
    assert [Finish(reason)][1..] == [];
    NoMoreUsage(CountAll(NO_TALLY, early + [Finish(reason)]), late);
  }

  /** What a counter stands at once the late events are in. */
  function Later(late: seq<Event>, field: Counter, before: Counters): Option<nat> {
    Or(LastKnown(Reports(late, field)), Get(before, field))
  }

  /** Usage after the last finish reaches the aggregate body alone: the two client shapes
      then report the same usage exactly when the late events change no rendered counter. */
  lemma {:induction false} LateUsageIsMissed(early: seq<Event>, reason: FinishReason, late: seq<Event>)
    requires forall e <- late :: !e.MessageStart? && !e.Finish?
    ensures
      var before := CountAll(NO_TALLY, early).counters;
      var tally := CountAll(NO_TALLY, early + [Finish(reason)] + late);
      && tally.told == Some(before)
      && (UsageJson(tally.counters) == UsageJson(before) <==>
            && ChatIngress.Known(Later(late, Input, before)) == ChatIngress.Known(before.inputTokens)
            && ChatIngress.Known(Later(late, Output, before)) == ChatIngress.Known(before.outputTokens)
            && Later(late, CacheRead, before) == before.cacheReadTokens
            && Later(late, CacheWrite, before) == before.cacheWriteTokens)
  {
    CountAppend(NO_TALLY, early + [Finish(reason)], late);
    CountAppend(NO_TALLY, early, [Finish(reason)]);
    assert [Finish(reason)][1..] == [];
    var mid := CountAll(NO_TALLY, early + [Finish(reason)]);
    ToldStays(mid, late);
    LastReportWins(mid, late, Input);
    LastReportWins(mid, late, Output);
    LastReportWins(mid, late, CacheRead);
    LastReportWins(mid, late, CacheWrite);
  }

  /** A finish told before the only usage event: zero output tokens streamed, five in the body. */
  lemma {:induction false} LateUsageExample()
    ensures
      var tally := CountAll(NO_TALLY, [Finish(Stop), UsageEvent(NO_COUNTERS.(outputTokens := Some(5)))]);
      tally.told.Some? && UsageJson(tally.told.value).output == 0 && UsageJson(tally.counters).output == 5
  {
    var late := UsageEvent(NO_COUNTERS.(outputTokens := Some(5)));
    assert [Finish(Stop), late][1..] == [late] && [late][1..] == [];
    var told := Count(NO_TALLY, Finish(Stop));
    assert CountAll(told, [late]) == Count(told, late);
  }

  lemma {:induction false} ToldStays(t: Tally, late: seq<Event>)
    requires forall e <- late :: !e.MessageStart? && !e.Finish?
    ensures CountAll(t, late).told == t.told
    decreases |late|
  {
    if late != [] {
      assert late[0] in late;
      assert forall e <- late[1..] :: e in late;
      ToldStays(Count(t, late[0]), late[1..]);
    }
  }

  // ----- a block this wire cannot carry leaves no trace -----

  predicate Carried(kind: ContentKind) {
    !kind.ImageKind? && !kind.UnknownKind?
  }

  /** The events without those of blocks the wire cannot carry; `gone` holds the indices
      whose last start was one of those. */
  function Strip(gone: set<nat>, events: seq<Event>): seq<Event>
    decreases |events|
  {
    if events == [] then []
    else
      match events[0]
      case ContentStart(i, kind) =>
        if Carried(kind) then [events[0]] + Strip(gone - {i}, events[1..]) else Strip(gone + {i}, events[1..])
      case ContentDelta(i, _) => (if i in gone then [] else [events[0]]) + Strip(gone, events[1..])
      case ContentStop(i) => (if i in gone then [] else [events[0]]) + Strip(gone, events[1..])
      case _ => [events[0]] + Strip(gone, events[1..])
  }

  /** Equal but for open blocks at indices in `gone`, which on one side are skipped ones. */
  ghost predicate EqualBut(a: State, b: State, gone: set<nat>) {
    && a == b.(open := a.open)
    && (forall i: nat :: i !in gone ==> (i in a.open <==> i in b.open))
    && (forall i <- a.open :: i !in gone ==> a.open[i] == b.open[i])
    && (forall i <- a.open :: i in gone ==> a.open[i] == SkipBlock)
  }

  lemma {:induction false} SharedStep(a: Out, b: Out, gone: set<nat>, ev: Event, read: ChatIngress.ReadArgs)
    requires EqualBut(a.st, b.st, gone) && a.lines == b.lines
    requires match ev
             case ContentStart(i, kind) => Carried(kind)
             case ContentDelta(i, _) => i !in gone
             case ContentStop(i) => i !in gone
             case _ => true
    ensures
      var gone' := if ev.ContentStart? then gone - {ev.index} else gone;
      EqualBut(Step(a, ev, read).st, Step(b, ev, read).st, gone') && Step(a, ev, read).lines == Step(b, ev, read).lines
  {
    hide Decimal, HttpStatus, ErrorType, OpenBlock, Grow, FinishBlock, UsageJson, StopReason;
  }

  lemma {:induction false} SkippedStep(a: Out, b: Out, gone: set<nat>, ev: Event, read: ChatIngress.ReadArgs)
    requires EqualBut(a.st, b.st, gone) && a.lines == b.lines
    requires match ev
             case ContentStart(i, kind) => !Carried(kind)
             case ContentDelta(i, _) => i in gone
             case ContentStop(i) => i in gone
             case _ => false
    ensures EqualBut(Step(a, ev, read).st, b.st, gone + {ev.index}) && Step(a, ev, read).lines == b.lines
  {
  }

  lemma {:induction false} StripChangesNothing(
    a: Out, b: Out, gone: set<nat>, events: seq<Event>, read: ChatIngress.ReadArgs)
    requires EqualBut(a.st, b.st, gone) && a.lines == b.lines
    ensures Run(a, events, read).lines == Run(b, Strip(gone, events), read).lines
    ensures Run(a, events, read).st.content == Run(b, Strip(gone, events), read).st.content
    decreases |events|
  {
    if events != [] {
      var ev, rest := events[0], events[1..];
      var gone' := if ev.ContentStart? then (if Carried(ev.kind) then gone - {ev.index} else gone + {ev.index}) else gone;
      var kept := if ev.ContentStart? then Carried(ev.kind)
                  else (ev.ContentDelta? || ev.ContentStop?) ==> ev.index !in gone;
      if kept {
        SharedStep(a, b, gone, ev, read);
        assert Strip(gone, events) == [ev] + Strip(gone', rest);
        hide Step, EqualBut, Strip;
        StripChangesNothing(Step(a, ev, read), Step(b, ev, read), gone', rest, read);
        assert ([ev] + Strip(gone', rest))[1..] == Strip(gone', rest);
      } else {
        SkippedStep(a, b, gone, ev, read);
        assert gone + {ev.index} == gone';
        assert Strip(gone, events) == Strip(gone', rest);
        hide Step, EqualBut, Strip;
        StripChangesNothing(Step(a, ev, read), b, gone', rest, read);
      }
    }
  }

  /** On either shape, dropping every event of the blocks this wire cannot carry changes not
      one line of what the client is sent. */
  lemma {:induction false} UnknownKindsLeaveNoTrace(
    events: seq<Event>, read: ChatIngress.ReadArgs, stream: bool, created: nat, model: string, adaptations: seq<string>)
    ensures
      var start := Out(Fresh(stream, created, model, adaptations), []);
      Run(start, events, read).lines == Run(start, Strip({}, events), read).lines
  {
    var start := Out(Fresh(stream, created, model, adaptations), []);
    StripChangesNothing(start, start, {}, events, read);
  }
}
