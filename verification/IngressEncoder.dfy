/** The mutable encode state of src/ingress/state.rs, updated field by field per event and
    proved against the fold of module ChatIngress. */
module IngressEncoder {
  import opened Base
  import opened Canonical
  import opened ChatIngress

  class Request {
    var stream: Option<bool>
    var model: string
    var extra: map<string, Json>

    constructor (stream: Option<bool>, model: string, extra: map<string, Json>)
      ensures this.stream == stream && this.model == model && this.extra == extra
    {
      this.stream, this.model, this.extra := stream, model, extra;
    }
  }

  /** `o["include_usage"] == true`. */
  predicate AsksUsage(o: Json) {
    o.JObj? && "include_usage" in o.fields && o.fields["include_usage"] == JBool(true)
  }

  /** Only that very flag, set, asks for usage. */
  lemma {:induction false} AsksUsageIs(o: Json)
    ensures AsksUsage(o) <==> exists fields :: o == JObj(fields) && "include_usage" in fields && fields["include_usage"] == JBool(true)
  {
    if AsksUsage(o) {
      assert o == JObj(o.fields);
    }
  }

  class IngressState {
    var stream: bool
    var includeUsage: bool
    var created: nat
    var fallbackModel: string
    var id: Option<string>
    var model: Option<string>
    var pending: seq<string>
    var adaptations: seq<string>
    var slots: map<nat, Slot>
    var text: string
    var refusal: string
    var tools: seq<ToolAcc>
    var finish: Option<string>
    var usage: Option<ChatUsage>
    var error: Option<Envelope>
    var status: Option<nat>
    var blocks: seq<Content>
    var stash: seq<Pair>

    function View(): State
      reads this
    {
      State(stream, includeUsage, created, fallbackModel, id, model, pending, adaptations, slots,
            text, refusal, tools, finish, usage, error, status, blocks, stash)
    }

    /** The one mutation of the request: the shape knob is consumed, not forwarded. */
    constructor ForRequest(req: Request, adaptations: seq<string>, now: nat)
      modifies req`extra
      ensures View() == Fresh(req.stream == Some(true),
                              "stream_options" in old(req.extra) && AsksUsage(old(req.extra)["stream_options"]),
                              now, req.model, adaptations)
      ensures req.extra == old(req.extra) - {"stream_options"}
    {
      var asked := "stream_options" in req.extra && AsksUsage(req.extra["stream_options"]);
      stream := req.stream == Some(true);
      includeUsage := asked;
      created, fallbackModel := now, req.model;
      id, model := None, None;
      pending, this.adaptations := adaptations, adaptations;
      slots, text, refusal, tools := map[], "", "", [];
      finish, usage, error, status := None, None, None, None;
      blocks, stash := [], [];
      new;
      req.extra := req.extra - {"stream_options"};
    }

    /** Drain the pending adaptation names into comment lines. */
    method Comments() returns (lines: seq<Line>)
      modifies this`pending
      ensures pending == [] && lines == Notes(old(pending))
    {
      lines := [];
      var i := 0;
      while i < |pending|
        invariant i <= |pending| && lines == Notes(pending[..i])
      {
        lines := lines + [Note(pending[i])];
        i := i + 1;
      }
      assert pending[..i] == pending;
      pending := [];
    }

    method WriteFrame(chunk: ChatChunk) returns (lines: seq<Line>)
      modifies this`pending
      ensures Out(View(), lines) == Frame(Out(old(View()), []), chunk)
    {
      var notes := Comments();
      lines := notes + [Data(chunk)];
      assert [] + notes + [Data(chunk)] == lines;
    }

    method EmitDelta(delta: DeltaBody, fin: Option<string>) returns (lines: seq<Line>)
      modifies this`pending
      ensures Out(View(), lines) == Emit(Out(old(View()), []), delta, fin)
    {
      if !stream {
        return [];
      }
      lines := WriteFrame(Choice(WireId(View()), WireModel(View()), created, delta, fin, includeUsage));
    }

    method StartBlock(index: nat, kind: ContentKind) returns (lines: seq<Line>)
      modifies this
      ensures Out(View(), lines) == Start(Out(old(View()), []), index, kind)
    {
      lines := [];
      match kind
      case TextKind => slots := slots[index := TextSlot];
      case ToolUseKind(id, name) =>
        var t := |tools|;
        tools := tools + [ToolAcc(id, name, "", None)];
        slots := slots[index := ToolSlot(t)];
        lines := EmitDelta(ToolOpen(t, id, name), None);
      case ThinkingKind(itemId) => slots := slots[index := ThinkSlot(ThinkAcc("", itemId, None, None))];
      case RedactedThinkingKind(data) =>
        blocks := blocks + [RedactedThinking(data)];
        slots := slots[index := SkipSlot];
      case _ => slots := slots[index := SkipSlot];
    }

    method AddFragment(index: nat, delta: Delta) returns (lines: seq<Line>)
      requires SlotsFit(View())
      modifies this
      ensures Out(View(), lines) == Fragment(Out(old(View()), []), index, delta)
    {
      lines := [];
      if index !in slots {
        return;
      }
      match (slots[index], delta)
      case (TextSlot, TextDelta(t)) =>
        text := text + t;
        lines := EmitDelta(TextBody(t), None);
      case (ToolSlot(i), JsonDelta(a)) =>
        tools := tools[i := tools[i].(args := tools[i].args + a)];
        lines := EmitDelta(ToolArgs(i, a), None);
      case (ToolSlot(i), SignatureDelta(s)) =>
        tools := tools[i := tools[i].(signature := PushOpt(tools[i].signature, s))];
      case (ThinkSlot(t), ThinkingDelta(d)) =>
        slots := slots[index := ThinkSlot(t.(text := t.text + d))];
      case (ThinkSlot(t), SignatureDelta(s)) =>
        slots := slots[index := ThinkSlot(t.(signature := PushOpt(t.signature, s)))];
      case (ThinkSlot(t), EncryptedReasoningDelta(e)) =>
        slots := slots[index := ThinkSlot(t.(encrypted := PushOpt(t.encrypted, e)))];
      case _ =>
    }

    /** A reasoning or tool block that carried an opaque payload becomes a stash block. */
    method CloseBlock(index: nat, read: ReadArgs)
      requires SlotsFit(View())
      modifies this`slots, this`blocks
      ensures View() == Close(old(View()), index, read)
    {
      if index in slots {
        var slot := slots[index];
        slots := slots - {index};
        match slot
        case ThinkSlot(t) =>
          if t.itemId.Some? || t.signature.Some? || t.encrypted.Some? {
            blocks := blocks + [Thinking(t.text, t.signature, t.itemId, t.encrypted)];
          }
        case ToolSlot(i) =>
          if tools[i].signature.Some? {
            var t := tools[i];
            blocks := blocks + [ToolCall(t.id, t.name, ParseArgs(read, t.args), t.signature)];
          }
        case _ =>
        assert blocks == old(blocks) + StashBlock(old(View()), slot, read);
      }
    }

    method FinishReasoned(reason: FinishReason) returns (lines: seq<Line>)
      modifies this
      ensures Out(View(), lines) == FinishTurn(Out(old(View()), []), reason)
    {
      var (said, fr) := FinishText(reason);
      lines := [];
      if said.Some? {
        refusal := refusal + said.value;
        lines := EmitDelta(RefusalBody(said.value), None);
      }
      ghost var mid := Out(View(), lines);
      var last := EmitDelta(NoBody, Some(fr));
      EmitAppends(mid, NoBody, Some(fr));
      finish := Some(fr);
      lines := lines + last;
    }

    method FailWith(e: CanonicalError) returns (lines: seq<Line>)
      modifies this
      ensures Out(View(), lines) == Fail(Out(old(View()), []), e)
    {
      var code := HttpStatus(e.kind);
      var envelope := Envelope(code, e.message, ErrorType(code));
      status := Some(code);
      lines := [];
      if stream {
        lines := WriteFrame(ErrorChunk(envelope));
      }
      error := Some(envelope);
    }

    /** The turn is whole: park the payload under what the client will echo. */
    method FinishStash(key: string -> string)
      modifies this`stash
      ensures stash == old(stash) + TurnPairs(View(), key)
    {
      if blocks == [] {
        return;
      }
      if tools == [] {
        stash := stash + [Pair(key(text), blocks)];
        return;
      }
      var i := 0;
      while i < |tools|
        invariant i <= |tools|
        invariant stash + ToolPairs(tools[i..], blocks) == old(stash) + ToolPairs(tools, blocks)
      {
        assert tools[i..][1..] == tools[i + 1..];
        stash := stash + [Pair(tools[i].id, blocks)];
        i := i + 1;
      }
    }

    /** The listener drains the finalized pairs once. */
    method TakeStash() returns (pairs: seq<Pair>)
      modifies this`stash
      ensures pairs == old(stash) && stash == []
    {
      pairs := stash;
      stash := [];
    }

    method Encode(ev: Event, env: Env) returns (lines: seq<Line>)
      requires SlotsFit(View())
      modifies this
      ensures SlotsFit(View())
      ensures Out(View(), lines) == Step(Out(old(View()), []), ev, env)
    {
      hide TurnPairs, Start, Fragment, Close, FinishTurn, Fail, Decimal, BodyOf, Emit;
      ghost var after := Step(Out(View(), []), ev, env);
      lines := [];
      match ev {
        case MessageStart(id, model) =>
          this.id, this.model := id, model;
          lines := EmitDelta(RoleDelta, None);
        case ContentStart(index, kind) => lines := StartBlock(index, kind);
        case ContentDelta(index, delta) => lines := AddFragment(index, delta);
        case ContentStop(index) => CloseBlock(index, env.read);
        case UsageEvent(u) =>
          usage := Some(UsageJson(u));
          if includeUsage && stream {
            lines := WriteFrame(UsageOnly(WireId(View()), WireModel(View()), created, usage));
          }
        case Finish(reason) => lines := FinishReasoned(reason);
        case Error(e) => lines := FailWith(e);
        case End => lines := EndTurn(env);
        case Raw(_) =>
        case OtherEvent =>
      }
      assert Out(View(), lines) == after;
    }

    /** Finalize the stash, then the sentinel or the one aggregate body. */
    method EndTurn(env: Env) returns (lines: seq<Line>)
      requires SlotsFit(View())
      modifies this`stash, this`pending
      ensures Out(View(), lines) == Step(Out(old(View()), []), End, env)
    {
      hide ToolPairs, BodyOf;
      FinishStash(env.key);
      if stream {
        var notes := Comments();
        lines := notes + [DoneLine];
        assert [] + notes + [DoneLine] == lines;
      } else {
        lines := [Whole(BodyOf(View()), adaptations)];
      }
    }

    /** The turn loop: every event folded, its lines written in order. */
    method EncodeAll(events: seq<Event>, env: Env) returns (lines: seq<Line>)
      requires SlotsFit(View())
      modifies this
      ensures SlotsFit(View())
      ensures Out(View(), lines) == Run(Out(old(View()), []), events, env)
    {
      hide Step, Run;
      lines := [];
      var i := 0;
      ghost var start := Out(View(), []);
      RunNothing(start, events, env);
      while i < |events|
        invariant i <= |events| && SlotsFit(View())
        invariant Out(View(), lines) == Run(start, events[..i], env)
      {
        ghost var before := Out(View(), lines);
        var more := Encode(events[i], env);
        StepAppends(before, events[i], env);
        lines := lines + more;
        RunSnoc(start, events, i, env);
        i := i + 1;
      }
      assert events[..i] == events;
    }
  }

  lemma {:induction false} RunNothing(o: Out, events: seq<Event>, env: Env)
    requires SlotsFit(o.st)
    ensures Run(o, events[..0], env) == o
  {
  }

  lemma {:induction false} RunSnoc(o: Out, events: seq<Event>, i: nat, env: Env)
    requires SlotsFit(o.st) && i < |events|
    ensures Run(o, events[..i + 1], env) == Step(Run(o, events[..i], env), events[i], env)
  {
    assert events[..i + 1] == events[..i] + [events[i]];
    RunAppend(o, events[..i], [events[i]], env);
    assert [events[i]][1..] == [];
  }

  /** A step only appends to what was written before. */
  lemma {:induction false} EmitAppends(o: Out, delta: DeltaBody, fin: Option<string>)
    ensures
      var alone := Emit(Out(o.st, []), delta, fin);
      Emit(o, delta, fin) == Out(alone.st, o.lines + alone.lines)
  {
    FrameAppends(o, Choice(WireId(o.st), WireModel(o.st), o.st.created, delta, fin, o.st.includeUsage));
    assert o.lines + [] == o.lines;
  }

  lemma {:induction false} FrameAppends(o: Out, chunk: ChatChunk)
    ensures
      var alone := Frame(Out(o.st, []), chunk);
      Frame(o, chunk) == Out(alone.st, o.lines + alone.lines)
  {
    assert o.lines + ([] + Notes(o.st.pending) + [Data(chunk)]) == o.lines + Notes(o.st.pending) + [Data(chunk)];
  }

  lemma {:induction false} FinishAppends(o: Out, reason: FinishReason)
    ensures
      var alone := FinishTurn(Out(o.st, []), reason);
      FinishTurn(o, reason) == Out(alone.st, o.lines + alone.lines)
  {
    hide Emit, FinishText;
    var (said, fr) := FinishText(reason);
    if said.Some? {
      var st1 := o.st.(refusal := o.st.refusal + said.value);
      var d := RefusalBody(said.value);
      EmitAppends(o.(st := st1), d, None);
      var alone := Emit(Out(st1, []), d, None);
      EmitAppends(Emit(o.(st := st1), d, None), NoBody, Some(fr));
      EmitAppends(alone, NoBody, Some(fr));
      var last := Emit(Out(alone.st, []), NoBody, Some(fr)).lines;
      assert o.lines + (alone.lines + last) == (o.lines + alone.lines) + last;
    } else {
      EmitAppends(o, NoBody, Some(fr));
    }
  }

  lemma {:induction false} StepAppends(o: Out, ev: Event, env: Env)
    requires SlotsFit(o.st)
    ensures
      var alone := Step(Out(o.st, []), ev, env);
      Step(o, ev, env) == Out(alone.st, o.lines + alone.lines)
  {
    hide Emit, Frame, FinishTurn, Notes, TurnPairs, BodyOf, WireId, WireModel;
    assert o.lines + [] == o.lines;
    match ev
    case MessageStart(id, model) => EmitAppends(o.(st := o.st.(id := id, model := model)), RoleDelta, None);
    case ContentStart(index, kind) =>
      if kind.ToolUseKind? {
        var st := Start(Out(o.st, []), index, kind).st;
        var st1 := o.st.(tools := o.st.tools + [ToolAcc(kind.id, kind.name, "", None)],
                         slots := o.st.slots[index := ToolSlot(|o.st.tools|)]);
        EmitAppends(o.(st := st1), ToolOpen(|o.st.tools|, kind.id, kind.name), None);
      }
    case ContentDelta(index, delta) =>
      if index in o.st.slots {
        match (o.st.slots[index], delta)
        case (TextSlot, TextDelta(t)) => EmitAppends(o.(st := o.st.(text := o.st.text + t)), TextBody(t), None);
        case (ToolSlot(i), JsonDelta(a)) =>
          EmitAppends(o.(st := o.st.(tools := o.st.tools[i := o.st.tools[i].(args := o.st.tools[i].args + a)])), ToolArgs(i, a), None);
        case _ =>
      }
    case UsageEvent(u) =>
      var o1 := o.(st := o.st.(usage := Some(UsageJson(u))));
      FrameAppends(o1, UsageOnly(WireId(o.st), WireModel(o.st), o.st.created, o1.st.usage));
    case Finish(reason) => FinishAppends(o, reason);
    case Error(e) =>
      var status := HttpStatus(e.kind);
      FrameAppends(o.(st := o.st.(status := Some(status))), ErrorChunk(Envelope(status, e.message, ErrorType(status))));
    case End =>
      assert o.lines + ([] + Notes(o.st.pending) + [DoneLine]) == o.lines + Notes(o.st.pending) + [DoneLine];
    case _ =>
  }
}
