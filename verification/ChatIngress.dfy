/** The chat-completions ingress encoder (src/ingress/state.rs, src/ingress/openai_chat):
    one fold of canonical events that serves both client shapes. */
module ChatIngress {
  import opened Base
  import opened Canonical

  // ----- the accumulators -----

  datatype ToolAcc = ToolAcc(id: string, name: string, args: string, signature: Option<string>)

  datatype ThinkAcc = ThinkAcc(text: string, itemId: Option<string>, signature: Option<string>, encrypted: Option<string>)

  datatype Slot = TextSlot | ToolSlot(tool: nat) | ThinkSlot(acc: ThinkAcc) | SkipSlot

  datatype ChatUsage = ChatUsage(completion: nat, prompt: nat, total: nat, cached: Option<nat>, reasoning: Option<nat>)

  datatype Envelope = Envelope(code: nat, message: string, errorType: string)

  datatype Pair = Pair(key: string, payload: seq<Content>)

  /** The whole encode state of one response. */
  datatype State = State(
    stream: bool, includeUsage: bool, created: nat, fallbackModel: string,
    id: Option<string>, model: Option<string>,
    pending: seq<string>, adaptations: seq<string>,
    slots: map<nat, Slot>,
    text: string, refusal: string, tools: seq<ToolAcc>, finish: Option<string>, usage: Option<ChatUsage>,
    error: Option<Envelope>, status: Option<nat>,
    blocks: seq<Content>, stash: seq<Pair>)

  // ----- the client wire -----

  datatype DeltaBody =
    | RoleDelta
    | TextBody(text: string)
    | ToolOpen(index: nat, id: string, name: string)
    | ToolArgs(index: nat, args: string)
    | RefusalBody(text: string)
    | NoBody

  datatype ChatChunk =
    | Choice(id: string, model: string, created: nat, delta: DeltaBody, finish: Option<string>, usageSlot: bool)
    | UsageOnly(id: string, model: string, created: nat, usage: Option<ChatUsage>)
    | ErrorChunk(error: Envelope)

  datatype WireTool = WireTool(id: string, name: string, args: string)

  datatype ChatBody =
    | Success(id: string, model: string, created: nat, content: Option<string>, refusal: Option<string>,
              tools: seq<WireTool>, finish: Option<string>, usage: Option<ChatUsage>)
    | Failure(error: Envelope)

  /** What the encoder writes: comment lines, SSE data, the sentinel, or the aggregate body. */
  datatype Line = Note(name: string) | Data(chunk: ChatChunk) | DoneLine | Whole(body: ChatBody, adaptations: seq<string>)

  // ----- rendering -----

  function WireId(st: State): string {
    if st.id.Some? then st.id.value else "chatcmpl-brazen-" + Decimal(st.created)
  }

  function WireModel(st: State): string {
    if st.model.Some? then st.model.value else st.fallbackModel
  }

  function Notes(names: seq<string>): (lines: seq<Line>)
    ensures |lines| == |names|
    ensures forall i :: 0 <= i < |names| ==> lines[i] == Note(names[i])
  {
    seq(|names|, i requires 0 <= i < |names| => Note(names[i]))
  }

  /** The state and the lines written, as one step threads them. */
  datatype Out = Out(st: State, lines: seq<Line>)

  /** One data frame, led by the adaptation comments still pending. */
  function Frame(o: Out, chunk: ChatChunk): Out {
    Out(o.st.(pending := []), o.lines + Notes(o.st.pending) + [Data(chunk)])
  }

  function Emit(o: Out, delta: DeltaBody, finish: Option<string>): Out {
    if !o.st.stream then o
    else Frame(o, Choice(WireId(o.st), WireModel(o.st), o.st.created, delta, finish, o.st.includeUsage))
  }

  function UsageJson(u: Counters): ChatUsage {
    var input, output := Known(u.inputTokens), Known(u.outputTokens);
    ChatUsage(output, input, input + output, u.cacheReadTokens, u.thinkingTokens)
  }

  function Known(n: Option<nat>): nat {
    if n.Some? then n.value else 0
  }

  function ErrorType(status: nat): string {
    if status == 401 || status == 403 then "authentication_error"
    else if status == 429 then "rate_limit_error"
    else if 400 <= status <= 499 then "invalid_request_error"
    else "server_error"
  }

  function OrNull(s: string): Option<string> {
    if s == "" then None else Some(s)
  }

  function WireTools(tools: seq<ToolAcc>): (wire: seq<WireTool>)
    ensures |wire| == |tools|
    ensures forall i :: 0 <= i < |tools| ==> wire[i] == WireTool(tools[i].id, tools[i].name, tools[i].args)
  {
    seq(|tools|, i requires 0 <= i < |tools| => WireTool(tools[i].id, tools[i].name, tools[i].args))
  }

  function BodyOf(st: State): ChatBody {
    if st.error.Some? then Failure(st.error.value)
    else Success(WireId(st), WireModel(st), st.created, OrNull(st.text), OrNull(st.refusal),
                 WireTools(st.tools), st.finish, st.usage)
  }

  // ----- the fold, event by event -----

  /** Every tool slot points at a tool. */
  predicate SlotsFit(st: State) {
    forall k <- st.slots :: st.slots[k].ToolSlot? ==> st.slots[k].tool < |st.tools|
  }

  function Start(o: Out, index: nat, kind: ContentKind): Out {
    var st := o.st;
    match kind
    case TextKind => o.(st := st.(slots := st.slots[index := TextSlot]))
    case ToolUseKind(id, name) =>
      var t := |st.tools|;
      Emit(o.(st := st.(tools := st.tools + [ToolAcc(id, name, "", None)], slots := st.slots[index := ToolSlot(t)])),
           ToolOpen(t, id, name), None)
    case ThinkingKind(itemId) => o.(st := st.(slots := st.slots[index := ThinkSlot(ThinkAcc("", itemId, None, None))]))
    case RedactedThinkingKind(data) =>
      o.(st := st.(blocks := st.blocks + [RedactedThinking(data)], slots := st.slots[index := SkipSlot]))
    case _ => o.(st := st.(slots := st.slots[index := SkipSlot]))
  }

  /** `get_or_insert_with(String::new).push_str(s)`. */
  function PushOpt(s: Option<string>, more: string): Option<string> {
    Some((if s.Some? then s.value else "") + more)
  }

  function Fragment(o: Out, index: nat, delta: Delta): Out
    requires SlotsFit(o.st)
  {
    var st := o.st;
    if index !in st.slots then o
    else
      match (st.slots[index], delta)
      case (TextSlot, TextDelta(t)) => Emit(o.(st := st.(text := st.text + t)), TextBody(t), None)
      case (ToolSlot(i), JsonDelta(a)) =>
        Emit(o.(st := st.(tools := st.tools[i := st.tools[i].(args := st.tools[i].args + a)])), ToolArgs(i, a), None)
      case (ToolSlot(i), SignatureDelta(s)) =>
        o.(st := st.(tools := st.tools[i := st.tools[i].(signature := PushOpt(st.tools[i].signature, s))]))
      case (ThinkSlot(t), ThinkingDelta(d)) =>
        o.(st := st.(slots := st.slots[index := ThinkSlot(t.(text := t.text + d))]))
      case (ThinkSlot(t), SignatureDelta(s)) =>
        o.(st := st.(slots := st.slots[index := ThinkSlot(t.(signature := PushOpt(t.signature, s)))]))
      case (ThinkSlot(t), EncryptedReasoningDelta(e)) =>
        o.(st := st.(slots := st.slots[index := ThinkSlot(t.(encrypted := PushOpt(t.encrypted, e)))]))
      case _ => o
  }

  /** How accumulated tool arguments parse, an uninterpreted JSON reading. */
  type ReadArgs = string -> Json

  /** `""` is the empty object by convention. */
  function ParseArgs(read: ReadArgs, args: string): Json {
    if args == "" then JObj(map[]) else read(args)
  }

  function StashBlock(st: State, slot: Slot, read: ReadArgs): seq<Content>
    requires slot.ToolSlot? ==> slot.tool < |st.tools|
  {
    match slot
    case ThinkSlot(t) =>
      if t.itemId.Some? || t.signature.Some? || t.encrypted.Some? then
        [Thinking(t.text, t.signature, t.itemId, t.encrypted)]
      else []
    case ToolSlot(i) =>
      var t := st.tools[i];
      if t.signature.Some? then [ToolCall(t.id, t.name, ParseArgs(read, t.args), t.signature)] else []
    case _ => []
  }

  function Close(st: State, index: nat, read: ReadArgs): State
    requires SlotsFit(st)
  {
    if index !in st.slots then st
    else st.(slots := st.slots - {index}, blocks := st.blocks + StashBlock(st, st.slots[index], read))
  }

  function FinishText(reason: FinishReason): (Option<string>, string) {
    match reason
    case Stop => (None, "stop")
    case StopSequence => (None, "stop")
    case Pause => (None, "stop")
    case Length => (None, "length")
    case ToolUse => (None, "tool_calls")
    case Refusal(_, Some(t)) => (Some(t), "stop")
    case Refusal(_, None) => (None, "content_filter")
    case OtherReason(s) => (None, s)
  }

  function FinishTurn(o: Out, reason: FinishReason): Out {
    var (refusal, fr) := FinishText(reason);
    var o1 := match refusal
              case Some(t) => Emit(o.(st := o.st.(refusal := o.st.refusal + t)), RefusalBody(t), None)
              case None => o;
    var o2 := Emit(o1, NoBody, Some(fr));
    o2.(st := o2.st.(finish := Some(fr)))
  }

  function Fail(o: Out, e: CanonicalError): Out {
    var status := HttpStatus(e.kind);
    var envelope := Envelope(status, e.message, ErrorType(status));
    var o1 := o.(st := o.st.(status := Some(status)));
    var o2 := if o.st.stream then Frame(o1, ErrorChunk(envelope)) else o1;
    o2.(st := o2.st.(error := Some(envelope)))
  }

  function ToolPairs(tools: seq<ToolAcc>, payload: seq<Content>): seq<Pair> {
    if tools == [] then [] else [Pair(tools[0].id, payload)] + ToolPairs(tools[1..], payload)
  }

  /** The pairs a finished turn parks: nothing without blocks; under the text's content key
      when no tool was called; else the whole payload under every tool id. */
  function TurnPairs(st: State, key: string -> string): seq<Pair> {
    if st.blocks == [] then []
    else if st.tools == [] then [Pair(key(st.text), st.blocks)]
    else ToolPairs(st.tools, st.blocks)
  }

  /** The uninterpreted parts: how arguments parse, and how text hashes to a key. */
  datatype Env = Env(read: ReadArgs, key: string -> string)

  function Step(o: Out, ev: Event, env: Env): (o': Out)
    requires SlotsFit(o.st)
    ensures SlotsFit(o'.st)
  {
    var st := o.st;
    match ev
    case MessageStart(id, model) => Emit(o.(st := st.(id := id, model := model)), RoleDelta, None)
    case ContentStart(index, kind) => Start(o, index, kind)
    case ContentDelta(index, delta) => Fragment(o, index, delta)
    case ContentStop(index) => o.(st := Close(st, index, env.read))
    case UsageEvent(u) =>
      var o1 := o.(st := st.(usage := Some(UsageJson(u))));
      if st.includeUsage && st.stream then
        Frame(o1, UsageOnly(WireId(st), WireModel(st), st.created, o1.st.usage))
      else o1
    case Finish(reason) => FinishTurn(o, reason)
    case Error(e) => Fail(o, e)
    case End =>
      var st1 := st.(stash := st.stash + TurnPairs(st, env.key));
      if st.stream then Out(st1.(pending := []), o.lines + Notes(st.pending) + [DoneLine])
      else Out(st1, o.lines + [Whole(BodyOf(st1), st.adaptations)])
    case Raw(_) => o
    case OtherEvent => o
  }

  function Run(o: Out, events: seq<Event>, env: Env): (o': Out)
    requires SlotsFit(o.st)
    ensures SlotsFit(o'.st)
    decreases |events|
  {
    if events == [] then o else Run(Step(o, events[0], env), events[1..], env)
  }

  lemma {:induction false} RunAppend(o: Out, a: seq<Event>, b: seq<Event>, env: Env)
    requires SlotsFit(o.st)
    ensures Run(o, a + b, env) == Run(Run(o, a, env), b, env)
    decreases |a|
  {
    if a == [] {
      assert a + b == b;
    } else {
      assert (a + b)[1..] == a[1..] + b;
      RunAppend(Step(o, a[0], env), a[1..], b, env);
    }
  }

  function Fresh(stream: bool, includeUsage: bool, created: nat, model: string, adaptations: seq<string>): State {
    State(stream, includeUsage, created, model, None, None, adaptations, adaptations, map[],
          "", "", [], None, None, None, None, [], [])
  }

  // ----- the client's accumulation of the SSE shape -----

  datatype Client = Client(
    content: string, refusal: string, tools: map<nat, WireTool>, finish: Option<string>,
    usage: Option<ChatUsage>, error: Option<Envelope>, notes: seq<string>)

  const EMPTY_CLIENT := Client("", "", map[], None, None, None, [])

  function ClientDelta(c: Client, d: DeltaBody): Client {
    match d
    case TextBody(t) => c.(content := c.content + t)
    case RefusalBody(t) => c.(refusal := c.refusal + t)
    case ToolOpen(i, id, name) => c.(tools := c.tools[i := WireTool(id, name, "")])
    case ToolArgs(i, a) =>
      var t := if i in c.tools then c.tools[i] else WireTool("", "", "");
      c.(tools := c.tools[i := t.(args := t.args + a)])
    case RoleDelta => c
    case NoBody => c
  }

  function ClientLine(c: Client, l: Line): Client {
    match l
    case Note(name) => c.(notes := c.notes + [name])
    case Data(Choice(_, _, _, delta, finish, _)) =>
      var c1 := ClientDelta(c, delta);
      c1.(finish := if finish.Some? then finish else c1.finish)
    case Data(UsageOnly(_, _, _, usage)) => c.(usage := if usage.Some? then usage else c.usage)
    case Data(ErrorChunk(e)) => c.(error := Some(e))
    case DoneLine => c
    case Whole(_, _) => c
  }

  function Accumulate(c: Client, lines: seq<Line>): Client
    decreases |lines|
  {
    if lines == [] then c else Accumulate(ClientLine(c, lines[0]), lines[1..])
  }

  lemma {:induction false} AccumulateAppend(c: Client, a: seq<Line>, b: seq<Line>)
    ensures Accumulate(c, a + b) == Accumulate(Accumulate(c, a), b)
    decreases |a|
  {
    if a == [] {
      assert a + b == b;
    } else {
      assert (a + b)[1..] == a[1..] + b;
      AccumulateAppend(ClientLine(c, a[0]), a[1..], b);
    }
  }

  function ToolMap(tools: seq<ToolAcc>): map<nat, WireTool> {
    map i: nat | i < |tools| :: WireTool(tools[i].id, tools[i].name, tools[i].args)
  }

  /** What a client of the stream shape holds once the encoder is in `st`. */
  function ClientOf(st: State): Client
    requires |st.pending| <= |st.adaptations|
  {
    Client(st.text, st.refusal, ToolMap(st.tools), st.finish, if st.includeUsage then st.usage else None, st.error,
           st.adaptations[..|st.adaptations| - |st.pending|])
  }

  /** The client and the encoder agree, and the notes not yet written are still pending. */
  ghost predicate InStep(o: Out) {
    && o.st.stream
    && SlotsFit(o.st)
    && (o.st.pending == o.st.adaptations || o.st.pending == [])
    && Accumulate(EMPTY_CLIENT, o.lines) == ClientOf(o.st)
  }

  lemma {:induction false} AccumulateNotes(c: Client, names: seq<string>)
    ensures Accumulate(c, Notes(names)) == c.(notes := c.notes + names)
    decreases |names|
  {
    if names == [] {
      assert c.notes + names == c.notes;
    } else {
      var c1 := ClientLine(c, Note(names[0]));
      assert Notes(names)[1..] == Notes(names[1..]);
      AccumulateNotes(c1, names[1..]);
      assert c1.notes + names[1..] == c.notes + names;
    }
  }

  lemma {:induction false} AccumulateOne(c: Client, l: Line)
    ensures Accumulate(c, [l]) == ClientLine(c, l)
  {
    assert [l][1..] == [];
  }

  /** Lines that drain the pending notes and then say one thing. */
  lemma {:induction false} DrainThenSay(o: Out, l: Line)
    requires InStep(o)
    ensures Accumulate(EMPTY_CLIENT, o.lines + Notes(o.st.pending) + [l])
         == ClientLine(ClientOf(o.st).(notes := o.st.adaptations), l)
  {
    hide ClientLine;
    var c := Accumulate(EMPTY_CLIENT, o.lines);
    AccumulateAppend(EMPTY_CLIENT, o.lines, Notes(o.st.pending));
    AccumulateNotes(c, o.st.pending);
    assert c.notes + o.st.pending == o.st.adaptations;
    AccumulateAppend(EMPTY_CLIENT, o.lines + Notes(o.st.pending), [l]);
    AccumulateOne(c.(notes := o.st.adaptations), l);
  }

  lemma {:induction false} NothingPending(st: State)
    requires |st.pending| <= |st.adaptations|
    ensures ClientOf(st.(pending := [])) == ClientOf(st).(notes := st.adaptations)
  {
    assert st.adaptations[..|st.adaptations|] == st.adaptations;
  }

  /** What a data line does to a client has nothing to do with the notes it has seen. */
  lemma {:induction false} NotesRideAlong(c: Client, notes: seq<string>, l: Line)
    requires l.Data?
    ensures ClientLine(c.(notes := notes), l) == ClientLine(c, l).(notes := notes)
  {
  }

  /** A state change the client is told about in the frame that follows. */
  lemma {:induction false} FrameInStep(o: Out, st1: State, chunk: ChatChunk)
    requires InStep(o) && SlotsFit(st1) && st1.stream
    requires st1.pending == o.st.pending && st1.adaptations == o.st.adaptations
    requires ClientLine(ClientOf(o.st), Data(chunk)) == ClientOf(st1)
    ensures InStep(Frame(o.(st := st1), chunk))
  {
    hide Accumulate, ToolMap, ClientDelta;
    DrainThenSay(o, Data(chunk));
    NothingPending(st1);
    NotesRideAlong(ClientOf(o.st), o.st.adaptations, Data(chunk));
  }

  /** A state change no client field shows. */
  lemma {:induction false} QuietInStep(o: Out, st1: State)
    requires InStep(o) && SlotsFit(st1) && st1.stream
    requires st1.pending == o.st.pending && st1.adaptations == o.st.adaptations
    requires ClientOf(st1) == ClientOf(o.st)
    ensures InStep(o.(st := st1))
  {
  }

  lemma {:induction false} StartInStep(o: Out, index: nat, kind: ContentKind)
    requires InStep(o)
    ensures InStep(Start(o, index, kind))
  {
    hide Accumulate, WireId;
    if kind.ToolUseKind? {
      var st, t := o.st, |o.st.tools|;
      var st1 := st.(tools := st.tools + [ToolAcc(kind.id, kind.name, "", None)], slots := st.slots[index := ToolSlot(t)]);
      assert ToolMap(st1.tools) == ToolMap(st.tools)[t := WireTool(kind.id, kind.name, "")];
      FrameInStep(o, st1, Choice(WireId(st1), WireModel(st1), st1.created, ToolOpen(t, kind.id, kind.name), None, st1.includeUsage));
    } else {
      QuietInStep(o, Start(o, index, kind).st);
    }
  }

  lemma {:induction false} ArgsInStep(o: Out, index: nat, i: nat, args: string)
    requires InStep(o) && index in o.st.slots && o.st.slots[index] == ToolSlot(i)
    ensures InStep(Fragment(o, index, JsonDelta(args)))
  {
    hide Accumulate, WireId;
    var st := o.st;
    var st1 := st.(tools := st.tools[i := st.tools[i].(args := st.tools[i].args + args)]);
    var was := ToolMap(st.tools);
    assert ToolMap(st1.tools) == was[i := was[i].(args := was[i].args + args)];
    FrameInStep(o, st1, Choice(WireId(st1), WireModel(st1), st1.created, ToolArgs(i, args), None, st1.includeUsage));
  }

  lemma {:induction false} FragmentInStep(o: Out, index: nat, delta: Delta)
    requires InStep(o)
    ensures InStep(Fragment(o, index, delta))
  {
    hide Accumulate, WireId;
    var st := o.st;
    if index in st.slots {
      match (st.slots[index], delta)
      case (TextSlot, TextDelta(t)) =>
        var st1 := st.(text := st.text + t);
        FrameInStep(o, st1, Choice(WireId(st1), WireModel(st1), st1.created, TextBody(t), None, st1.includeUsage));
      case (ToolSlot(i), JsonDelta(a)) =>
        ArgsInStep(o, index, i, a);
      case (ToolSlot(i), SignatureDelta(s)) =>
        var st1 := Fragment(o, index, delta).st;
        assert ToolMap(st1.tools) == ToolMap(st.tools);
        QuietInStep(o, st1);
      case _ =>
        QuietInStep(o, Fragment(o, index, delta).st);
    }
  }

  lemma {:induction false} FinishInStep(o: Out, reason: FinishReason)
    requires InStep(o)
    ensures InStep(FinishTurn(o, reason))
  {
    hide Accumulate, Decimal, ToolMap;
    var (refusal, fr) := FinishText(reason);
    var o1 := o;
    if refusal.Some? {
      var st1 := o.st.(refusal := o.st.refusal + refusal.value);
      FrameInStep(o, st1, Choice(WireId(st1), WireModel(st1), st1.created, RefusalBody(refusal.value), None, st1.includeUsage));
      o1 := Emit(o.(st := st1), RefusalBody(refusal.value), None);
    }
    var st2 := o1.st.(finish := Some(fr));
    FrameInStep(o1, st2, Choice(WireId(st2), WireModel(st2), st2.created, NoBody, Some(fr), st2.includeUsage));
  }

  lemma {:induction false} StepInStep(o: Out, ev: Event, env: Env)
    requires InStep(o)
    ensures InStep(Step(o, ev, env))
  {
    hide Accumulate, WireId, ToolMap, Start, Fragment, FinishTurn;
    var st := o.st;
    match ev
    case MessageStart(id, model) =>
      var st1 := st.(id := id, model := model);
      FrameInStep(o, st1, Choice(WireId(st1), WireModel(st1), st1.created, RoleDelta, None, st1.includeUsage));
    case ContentStart(index, kind) => StartInStep(o, index, kind);
    case ContentDelta(index, delta) => FragmentInStep(o, index, delta);
    case ContentStop(index) => QuietInStep(o, Close(st, index, env.read));
    case UsageEvent(u) =>
      var st1 := st.(usage := Some(UsageJson(u)));
      if st.includeUsage {
        FrameInStep(o, st1, UsageOnly(WireId(st), WireModel(st), st.created, st1.usage));
      } else {
        QuietInStep(o, st1);
      }
    case Finish(reason) => FinishInStep(o, reason);
    case Error(e) =>
      var envelope := Envelope(HttpStatus(e.kind), e.message, ErrorType(HttpStatus(e.kind)));
      FrameInStep(o, st.(status := Some(envelope.code), error := Some(envelope)), ErrorChunk(envelope));
    case End =>
      DrainThenSay(o, DoneLine);
      NothingPending(st);
    case Raw(_) =>
    case OtherEvent =>
  }

  lemma {:induction false} RunInStep(o: Out, events: seq<Event>, env: Env)
    requires InStep(o)
    ensures InStep(Run(o, events, env))
    decreases |events|
  {
    if events != [] {
      StepInStep(o, events[0], env);
      RunInStep(Step(o, events[0], env), events[1..], env);
    }
  }

  // ----- what heads each chunk -----

  datatype Stamp = Stamp(id: string, model: string, created: nat)

  function Current(st: State): Stamp {
    Stamp(WireId(st), WireModel(st), st.created)
  }

  /** The id, model and time the last chunk bore, error chunks bearing none. */
  function LastStamp(lines: seq<Line>): Option<Stamp>
    decreases |lines|
  {
    if lines == [] then None
    else
      match Last(lines)
      case Data(Choice(id, model, created, _, _, _)) => Some(Stamp(id, model, created))
      case Data(UsageOnly(id, model, created, _)) => Some(Stamp(id, model, created))
      case _ => LastStamp(Front(lines))
  }

  ghost predicate Stamped(o: Out) {
    && o.st.stream
    && SlotsFit(o.st)
    && (LastStamp(o.lines).Some? ==> LastStamp(o.lines).value == Current(o.st))
  }

  lemma {:induction false} NotesBearNoStamp(lines: seq<Line>, names: seq<string>)
    ensures LastStamp(lines + Notes(names)) == LastStamp(lines)
    decreases |names|
  {
    if names == [] {
      assert lines + Notes(names) == lines;
    } else {
      assert Front(lines + Notes(names)) == lines + Notes(Front(names));
      NotesBearNoStamp(lines, Front(names));
    }
  }

  lemma {:induction false} LineStamps(lines: seq<Line>, names: seq<string>, l: Line)
    ensures LastStamp(lines + Notes(names) + [l]) ==
      match l
      case Data(Choice(id, model, created, _, _, _)) => Some(Stamp(id, model, created))
      case Data(UsageOnly(id, model, created, _)) => Some(Stamp(id, model, created))
      case _ => LastStamp(lines)
  {
    NotesBearNoStamp(lines, names);
    assert Front(lines + Notes(names) + [l]) == lines + Notes(names);
  }

  lemma {:induction false} EmitStamps(o: Out, delta: DeltaBody, finish: Option<string>)
    requires o.st.stream && SlotsFit(o.st)
    ensures Stamped(Emit(o, delta, finish))
  {
    hide Decimal, Notes, LastStamp;
    LineStamps(o.lines, o.st.pending, Data(Choice(WireId(o.st), WireModel(o.st), o.st.created, delta, finish, o.st.includeUsage)));
  }

  lemma {:induction false} FinishStamps(o: Out, reason: FinishReason)
    requires Stamped(o)
    ensures Stamped(FinishTurn(o, reason))
  {
    hide Emit, LastStamp, FinishText;
    var (refusal, fr) := FinishText(reason);
    var o1 := o;
    if refusal.Some? {
      var o0 := o.(st := o.st.(refusal := o.st.refusal + refusal.value));
      EmitStamps(o0, RefusalBody(refusal.value), None);
      o1 := Emit(o0, RefusalBody(refusal.value), None);
    }
    EmitStamps(o1, NoBody, Some(fr));
  }

  lemma {:induction false} FragmentStamps(o: Out, index: nat, delta: Delta)
    requires Stamped(o)
    ensures Stamped(Fragment(o, index, delta))
  {
    hide Emit, LastStamp;
    if index in o.st.slots {
      match (o.st.slots[index], delta)
      case (TextSlot, TextDelta(t)) => EmitStamps(o.(st := o.st.(text := o.st.text + t)), TextBody(t), None);
      case (ToolSlot(i), JsonDelta(a)) =>
        EmitStamps(o.(st := o.st.(tools := o.st.tools[i := o.st.tools[i].(args := o.st.tools[i].args + a)])), ToolArgs(i, a), None);
      case _ =>
    }
  }

  lemma {:induction false} StepStamps(o: Out, ev: Event, env: Env)
    requires Stamped(o)
    ensures Stamped(Step(o, ev, env))
  {
    hide Emit, LastStamp, Decimal, Notes, FinishTurn, Fragment, StashBlock;
    var st := o.st;
    match ev
    case MessageStart(id, model) => EmitStamps(o.(st := st.(id := id, model := model)), RoleDelta, None);
    case ContentStart(index, ToolUseKind(id, name)) =>
      var tools := st.tools + [ToolAcc(id, name, "", None)];
      var slots := st.slots[index := ToolSlot(|st.tools|)];
      EmitStamps(o.(st := st.(tools := tools, slots := slots)), ToolOpen(|st.tools|, id, name), None);
    case ContentDelta(index, delta) => FragmentStamps(o, index, delta);
    case UsageEvent(u) =>
      LineStamps(o.lines, st.pending, Data(UsageOnly(WireId(st), WireModel(st), st.created, Some(UsageJson(u)))));
    case Finish(reason) => FinishStamps(o, reason);
    case Error(e) =>
      var status := HttpStatus(e.kind);
      LineStamps(o.lines, st.pending, Data(ErrorChunk(Envelope(status, e.message, ErrorType(status)))));
    case End => LineStamps(o.lines, st.pending, DoneLine);
    case _ =>
  }

  lemma {:induction false} RunStamps(o: Out, events: seq<Event>, env: Env)
    requires Stamped(o)
    ensures Stamped(Run(o, events, env))
    decreases |events|
  {
    if events != [] {
      hide Step, Stamped;
      StepStamps(o, events[0], env);
      RunStamps(Step(o, events[0], env), events[1..], env);
    }
  }

  // ----- the two client shapes agree -----

  /** The same fold, whatever the client shape: only the exposure bookkeeping differs. */
  ghost predicate SameFold(a: State, b: State) {
    a == b.(stream := a.stream, pending := a.pending)
  }

  /** Emitting touches nothing but the pending notes. */
  lemma {:induction false} EmitKeepsFold(o: Out, delta: DeltaBody, finish: Option<string>)
    ensures SameFold(Emit(o, delta, finish).st, o.st) && Emit(o, delta, finish).st.stream == o.st.stream
  {
  }

  lemma {:induction false} FinishIgnoresShape(a: Out, b: Out, reason: FinishReason)
    requires SameFold(a.st, b.st)
    ensures SameFold(FinishTurn(a, reason).st, FinishTurn(b, reason).st)
  {
    hide Emit, FinishText;
    var (refusal, fr) := FinishText(reason);
    var a1, b1 := a, b;
    if refusal.Some? {
      var a0 := a.(st := a.st.(refusal := a.st.refusal + refusal.value));
      var b0 := b.(st := b.st.(refusal := b.st.refusal + refusal.value));
      EmitKeepsFold(a0, RefusalBody(refusal.value), None);
      EmitKeepsFold(b0, RefusalBody(refusal.value), None);
      a1, b1 := Emit(a0, RefusalBody(refusal.value), None), Emit(b0, RefusalBody(refusal.value), None);
    }
    EmitKeepsFold(a1, NoBody, Some(fr));
    EmitKeepsFold(b1, NoBody, Some(fr));
  }

  lemma {:induction false} StartIgnoresShape(a: Out, b: Out, index: nat, kind: ContentKind)
    requires SameFold(a.st, b.st)
    ensures SameFold(Start(a, index, kind).st, Start(b, index, kind).st)
  {
    hide WireId, WireModel, Notes;
  }

  lemma {:induction false} FragmentIgnoresShape(a: Out, b: Out, index: nat, delta: Delta)
    requires SlotsFit(a.st) && SlotsFit(b.st) && SameFold(a.st, b.st)
    ensures SameFold(Fragment(a, index, delta).st, Fragment(b, index, delta).st)
  {
    hide WireId, WireModel, Notes;
  }

  lemma {:induction false} StepIgnoresShape(a: Out, b: Out, ev: Event, env: Env)
    requires SlotsFit(a.st) && SlotsFit(b.st) && SameFold(a.st, b.st)
    ensures SameFold(Step(a, ev, env).st, Step(b, ev, env).st)
  {
    hide WireId, WireModel, Notes, BodyOf, ToolPairs, FinishTurn, Start, Fragment;
    match ev
    case Finish(reason) => FinishIgnoresShape(a, b, reason);
    case ContentStart(index, kind) => StartIgnoresShape(a, b, index, kind);
    case ContentDelta(index, delta) => FragmentIgnoresShape(a, b, index, delta);
    case _ =>
  }

  lemma {:induction false} FoldIgnoresShape(a: Out, b: Out, events: seq<Event>, env: Env)
    requires SlotsFit(a.st) && SlotsFit(b.st) && SameFold(a.st, b.st)
    ensures SameFold(Run(a, events, env).st, Run(b, events, env).st)
    decreases |events|
  {
    if events != [] {
      StepIgnoresShape(a, b, events[0], env);
      hide Step, SameFold;
      FoldIgnoresShape(Step(a, events[0], env), Step(b, events[0], env), events[1..], env);
    }
  }

  ghost predicate SameKnobs(a: State, b: State) {
    a.stream == b.stream && a.includeUsage == b.includeUsage && a.adaptations == b.adaptations
  }

  lemma {:induction false} StepKeepsKnobs(o: Out, ev: Event, env: Env)
    requires SlotsFit(o.st)
    ensures SameKnobs(Step(o, ev, env).st, o.st)
  {
    hide WireId, WireModel, TurnPairs, StashBlock, Notes, BodyOf, FinishText;
  }

  lemma {:induction false} RunKeepsKnobs(o: Out, events: seq<Event>, env: Env)
    requires SlotsFit(o.st)
    ensures SameKnobs(Run(o, events, env).st, o.st)
    decreases |events|
  {
    if events != [] {
      hide Step;
      StepKeepsKnobs(o, events[0], env);
      RunKeepsKnobs(Step(o, events[0], env), events[1..], env);
    }
  }

  /** On the aggregate shape nothing is written before the end. */
  lemma {:induction false} AggregateIsSilent(o: Out, events: seq<Event>, env: Env)
    requires SlotsFit(o.st) && !o.st.stream && End !in events
    ensures Run(o, events, env).lines == o.lines
    decreases |events|
  {
    if events != [] {
      hide WireId, WireModel, TurnPairs, StashBlock, Notes, BodyOf;
      assert events[0] != End;
      AggregateIsSilent(Step(o, events[0], env), events[1..], env);
    }
  }

  /** The message a stream client ends up with, as the aggregate would spell it. */
  predicate Spells(c: Client, body: ChatBody, includeUsage: bool) {
    match body
    case Failure(e) => c.error == Some(e)
    case Success(_, _, _, content, refusal, tools, finish, usage) =>
      && c.error == None
      && content == OrNull(c.content) && refusal == OrNull(c.refusal) && finish == c.finish
      && c.tools == (map i: nat | i < |tools| :: tools[i])
      && (includeUsage ==> usage == c.usage)
  }

  /** The aggregate body is the stream accumulated, for every event sequence, bracketed or
      not, failed or not, under the id, model and time the stream's last chunk bore; and by the
      end every adaptation has been exposed once, in order. */
  lemma {:induction false} AggregateIsStreamAccumulated(
    events: seq<Event>, env: Env, includeUsage: bool, created: nat, model: string, adaptations: seq<string>)
    requires End !in events
    ensures
      var sse := Run(Out(Fresh(true, includeUsage, created, model, adaptations), []), events + [End], env);
      var agg := Run(Out(Fresh(false, includeUsage, created, model, adaptations), []), events + [End], env);
      var client := Accumulate(EMPTY_CLIENT, sse.lines);
      && SameFold(sse.st, agg.st)
      && client.notes == adaptations && sse.st.pending == []
      && agg.lines == [Whole(BodyOf(agg.st), adaptations)]
      && Spells(client, BodyOf(agg.st), includeUsage)
      && (LastStamp(sse.lines).Some? && BodyOf(agg.st).Success? ==>
            var body := BodyOf(agg.st);
            LastStamp(sse.lines).value == Stamp(body.id, body.model, body.created))
  {
    assert LastStamp([]) == None;
    hide Accumulate, Step, Run, LastStamp;
    RunStamps(Out(Fresh(true, includeUsage, created, model, adaptations), []), events + [End], env);
    var a, b := Out(Fresh(true, includeUsage, created, model, adaptations), []), Out(Fresh(false, includeUsage, created, model, adaptations), []);
    FreshInStep(includeUsage, created, model, adaptations);
    RunInStep(a, events, env);
    RunInStep(a, events + [End], env);
    FoldIgnoresShape(a, b, events + [End], env);
    AggregateIsSilent(b, events, env);
    RunKeepsKnobs(b, events, env);
    RunKeepsKnobs(a, events, env);
    RunKeepsKnobs(a, events + [End], env);
    RunAppend(a, events, [End], env);
    RunAppend(b, events, [End], env);
    EndsWhole(Run(a, events, env), env);
    EndsWhole(Run(b, events, env), env);
    var sse, agg := Run(a, events + [End], env), Run(b, events + [End], env);
    assert agg.lines == [] + [Whole(BodyOf(agg.st), adaptations)];
    assert adaptations[..|adaptations|] == adaptations;
    assert ClientOf(sse.st).tools == (map i: nat | i < |agg.st.tools| :: WireTools(agg.st.tools)[i]);
  }

  lemma {:induction false} EndsWhole(o: Out, env: Env)
    requires SlotsFit(o.st)
    ensures
      var o' := Run(o, [End], env);
      && (o.st.stream ==> o'.st.pending == [])
      && (!o.st.stream ==> o'.lines == o.lines + [Whole(BodyOf(o'.st), o.st.adaptations)])
      && o'.st.adaptations == o.st.adaptations
  {
    assert [End][1..] == [];
    assert Run(o, [End], env) == Step(o, End, env);
  }

  lemma {:induction false} FreshInStep(includeUsage: bool, created: nat, model: string, adaptations: seq<string>)
    ensures InStep(Out(Fresh(true, includeUsage, created, model, adaptations), []))
  {
    assert adaptations[..0] == [];
    assert ToolMap([]) == map[];
  }
}
