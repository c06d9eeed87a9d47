/** What a chat-completions turn folds to, said from its events alone (src/ingress/state.rs,
    src/ingress/openai_chat/encode.rs): the text, the tools, the parked blocks and the rest are
    those the events spell, whatever the client shape. */
module ChatMeaning {
  import opened Base
  import opened Canonical
  import opened ChatIngress
  import opened TurnEvents

  // ----- what the events spell -----

  /** A tool call: the id and name of its start, and the deltas to it. */
  function ToolAt(events: seq<Event>, p: nat): ToolAcc
    requires p < |events| && events[p].ContentStart? && events[p].kind.ToolUseKind?
  {
    ToolAcc(events[p].kind.id, events[p].kind.name, Spoken(events, p, JsonChannel), Carried(events, p, SignChannel))
  }

  /** What a block leaves to park when it stops: a reasoning block that carried an id, a signature
      or sealed content, a tool block that carried a signature. */
  function Left(events: seq<Event>, p: nat, read: ReadArgs): seq<Content>
    requires p < |events| && events[p].ContentStart?
  {
    match events[p].kind
    case ThinkingKind(item) =>
      if item == None && Deltas(events, p, SignChannel) == [] && Deltas(events, p, SealedChannel) == [] then []
      else
        [Thinking(Spoken(events, p, ThinkChannel), Carried(events, p, SignChannel), item, Carried(events, p, SealedChannel))]
    case ToolUseKind(id, name) =>
      if Deltas(events, p, SignChannel) == [] then []
      else
        var args := Spoken(events, p, JsonChannel);
        [ToolCall(id, name, if args == "" then JObj(map[]) else read(args), Carried(events, p, SignChannel))]
    case _ => []
  }

  /** The parked blocks in order: a redacted block at its start, what any other leaves at its stop. */
  function Parked(events: seq<Event>, read: ReadArgs): seq<Content>
    decreases |events|
  {
    if events == [] then []
    else
      var before := Front(events);
      Parked(before, read) +
      match Last(events)
      case ContentStart(_, RedactedThinkingKind(data)) => [RedactedThinking(data)]
      case ContentStop(i) =>
        var p := OpenStart(before, i);
        if p.Some? then Left(before, p.value, read) else []
      case _ => []
  }

  function Explanations(events: seq<Event>): seq<string>
    decreases |events|
  {
    if events == [] then []
    else
      Explanations(Front(events)) +
      match Last(events)
      case Finish(Refusal(_, Some(text))) => [text]
      case _ => []
  }

  /** The dialect's word for a finish. */
  function WireReason(reason: FinishReason): string {
    match reason
    case Length => "length"
    case ToolUse => "tool_calls"
    case Refusal(_, None) => "content_filter"
    case OtherReason(word) => word
    case _ => "stop"
  }

  /** The dialect's usage: unreported counters are zero, the two details stay optional. */
  function WireUsage(u: Counters): ChatUsage {
    var prompt: nat := if u.inputTokens.Some? then u.inputTokens.value else 0;
    var completion: nat := if u.outputTokens.Some? then u.outputTokens.value else 0;
    ChatUsage(completion, prompt, prompt + completion, u.cacheReadTokens, u.thinkingTokens)
  }

  function WireError(e: CanonicalError): Envelope {
    var status := WireStatus(e.kind);
    Envelope(status, e.message,
             if status == 401 || status == 403 then "authentication_error"
             else if status == 429 then "rate_limit_error"
             else if 400 <= status < 500 then "invalid_request_error"
             else "server_error")
  }

  // ----- the state spells the same -----

  ghost predicate SlotIs(st: State, events: seq<Event>, i: nat) {
    match OpenStart(events, i)
    case None => i !in st.slots
    case Some(p) =>
      && i in st.slots
      && match events[p].kind
         case TextKind => st.slots[i] == TextSlot
         case ToolUseKind(_, _) =>
           st.slots[i].ToolSlot? && st.slots[i].tool < |ToolStarts(events)| && ToolStarts(events)[st.slots[i].tool] == p
         case ThinkingKind(item) =>
           st.slots[i] == ThinkSlot(ThinkAcc(Spoken(events, p, ThinkChannel), item, Carried(events, p, SignChannel),
                                             Carried(events, p, SealedChannel)))
         case _ => st.slots[i] == SkipSlot
  }

  ghost predicate SlotsSpell(st: State, events: seq<Event>) {
    forall i: nat :: SlotIs(st, events, i)
  }

  ghost predicate ToolsSpell(st: State, events: seq<Event>) {
    && |st.tools| == |ToolStarts(events)|
    && forall t: nat :: t < |st.tools| ==> st.tools[t] == ToolAt(events, Nth(events, t))
  }

  function Nth(events: seq<Event>, t: nat): (p: nat)
    requires t < |ToolStarts(events)|
    ensures p < |events| && events[p].ContentStart? && events[p].kind.ToolUseKind?
  {
    assert ToolStarts(events)[t] in ToolStarts(events);
    ToolStarts(events)[t]
  }

  ghost predicate BlocksSpell(st: State, events: seq<Event>, read: ReadArgs) {
    st.text == Flatten(TextDeltas(events)) && st.blocks == Parked(events, read)
  }

  ghost predicate FactsSpell(st: State, events: seq<Event>) {
    && st.refusal == Flatten(Explanations(events))
    && st.finish == (if LastReason(events).Some? then Some(WireReason(LastReason(events).value)) else None)
    && st.usage == (if LastUsage(events).Some? then Some(WireUsage(LastUsage(events).value)) else None)
    && st.error == (if LastError(events).Some? then Some(WireError(LastError(events).value)) else None)
    && st.status == (if LastError(events).Some? then Some(WireStatus(LastError(events).value.kind)) else None)
    && (st.id, st.model) == LastHead(events)
  }

  ghost predicate Spelt(st: State, events: seq<Event>, read: ReadArgs) {
    SlotsSpell(st, events) && ToolsSpell(st, events) && BlocksSpell(st, events, read) && FactsSpell(st, events)
  }

  // ----- events that touch no block -----

  predicate Aside(ev: Event) {
    !ev.ContentStart? && !ev.ContentDelta? && !ev.ContentStop?
  }

  /** What an event leaves alone it leaves spelt. */
  lemma {:induction false} SlotStays(st: State, st': State, events: seq<Event>, ev: Event, i: nat)
    requires SlotIs(st, events, i) && !Touches(ev, i)
    requires ev.ContentDelta? ==> ev.index != i
    requires i in st.slots <==> i in st'.slots
    requires i in st.slots ==> st'.slots[i] == st.slots[i]
    ensures SlotIs(st', events + [ev], i)
  {
    OpenStartSnoc(events, ev, i);
    ToolStartsSnoc(events, ev);
    var p := OpenStart(events, i);
    if p.Some? {
      assert ev.ContentDelta? ==> OpenStart(events, ev.index) != p;
      DeltasStay(events, ev, p.value, ThinkChannel);
      DeltasStay(events, ev, p.value, SignChannel);
      DeltasStay(events, ev, p.value, SealedChannel);
      assert (events + [ev])[p.value] == events[p.value];
    }
    hide OpenStart, Spoken, Carried, ToolStarts;
  }

  lemma {:induction false} ToolStays(events: seq<Event>, ev: Event, t: nat)
    requires t < |ToolStarts(events)|
    requires !(ev.ContentDelta? && OpenStart(events, ev.index) == Some(Nth(events, t)))
    ensures t < |ToolStarts(events + [ev])| && Nth(events + [ev], t) == Nth(events, t)
    ensures ToolAt(events + [ev], Nth(events + [ev], t)) == ToolAt(events, Nth(events, t))
  {
    ToolStartsSnoc(events, ev);
    DeltasStay(events, ev, Nth(events, t), JsonChannel);
    DeltasStay(events, ev, Nth(events, t), SignChannel);
    assert (events + [ev])[Nth(events, t)] == events[Nth(events, t)];
    hide OpenStart, Spoken, Carried, ToolStarts;
  }

  lemma {:induction false} ToolsStay(st: State, st': State, events: seq<Event>, ev: Event)
    requires ToolsSpell(st, events) && st'.tools == st.tools
    requires !(ev.ContentStart? && ev.kind.ToolUseKind?) && !ev.ContentDelta?
    ensures ToolsSpell(st', events + [ev])
  {
    ToolStartsSnoc(events, ev);
    forall t: nat | t < |st.tools|
      ensures st'.tools[t] == ToolAt(events + [ev], Nth(events + [ev], t))
    {
      ToolStays(events, ev, t);
    }
    hide ToolAt, ToolStarts;
  }

  ghost predicate SameFacts(a: State, b: State) {
    && a.refusal == b.refusal && a.finish == b.finish && a.usage == b.usage && a.error == b.error
    && a.status == b.status && a.id == b.id && a.model == b.model
  }

  lemma {:induction false} FactsStay(st: State, st': State, events: seq<Event>, ev: Event)
    requires FactsSpell(st, events) && SameFacts(st, st')
    requires !ev.Finish? && !ev.UsageEvent? && !ev.Error? && !ev.MessageStart?
    ensures FactsSpell(st', events + [ev])
  {
    Snoc(events, ev);
    assert Explanations(events) + [] == Explanations(events);
  }

  // ----- a start -----

  lemma {:induction false} StartState(o: Out, index: nat, kind: ContentKind)
    ensures
      var st, st' := o.st, Start(o, index, kind).st;
      && SameFacts(st, st') && st'.text == st.text
      && st'.slots == st.slots[index :=
           match kind
           case TextKind => TextSlot
           case ToolUseKind(_, _) => ToolSlot(|st.tools|)
           case ThinkingKind(item) => ThinkSlot(ThinkAcc("", item, None, None))
           case _ => SkipSlot]
      && st'.tools == st.tools + (if kind.ToolUseKind? then [ToolAcc(kind.id, kind.name, "", None)] else [])
      && st'.blocks == st.blocks + if kind.RedactedThinkingKind? then [RedactedThinking(kind.data)] else []
  {
    hide WireId, WireModel, Notes;
    assert o.st.tools + [] == o.st.tools && o.st.blocks + [] == o.st.blocks;
  }

  lemma {:induction false} StartSpells(o: Out, events: seq<Event>, index: nat, kind: ContentKind, read: ReadArgs)
    requires Spelt(o.st, events, read)
    ensures Spelt(Start(o, index, kind).st, events + [ContentStart(index, kind)], read)
  {
    var st, st', ev := o.st, Start(o, index, kind).st, ContentStart(index, kind);
    StartState(o, index, kind);
    hide Start, ToolAt, Parked, TextDeltas, Explanations, LastReason, LastUsage, LastError, LastHead;
    FactsStay(st, st', events, ev);
    StartSlots(st, st', events, index, kind);
    StartTools(st, st', events, index, kind);
    StartBlocks(st, st', events, index, kind, read);
  }

  lemma {:induction false} StartSlots(st: State, st': State, events: seq<Event>, index: nat, kind: ContentKind)
    requires SlotsSpell(st, events) && ToolsSpell(st, events)
    requires st'.slots == st.slots[index :=
      match kind
      case TextKind => TextSlot
      case ToolUseKind(_, _) => ToolSlot(|st.tools|)
      case ThinkingKind(item) => ThinkSlot(ThinkAcc("", item, None, None))
      case _ => SkipSlot]
    ensures SlotsSpell(st', events + [ContentStart(index, kind)])
  {
    var ev := ContentStart(index, kind);
    hide OpenStart, Spoken, Carried, ToolStarts, ToolAt;
    forall i: nat
      ensures SlotIs(st', events + [ev], i)
    {
      if i == index {
        OpenStartSnoc(events, ev, i);
        ToolStartsSnoc(events, ev);
        JustStarted(events, ev, ThinkChannel);
        JustStarted(events, ev, SignChannel);
        JustStarted(events, ev, SealedChannel);
        assert (events + [ev])[|events|] == ev;
      } else {
        assert SlotIs(st, events, i);
        SlotStays(st, st', events, ev, i);
      }
    }
  }

  lemma {:induction false} StartTools(st: State, st': State, events: seq<Event>, index: nat, kind: ContentKind)
    requires ToolsSpell(st, events)
    requires st'.tools == st.tools + if kind.ToolUseKind? then [ToolAcc(kind.id, kind.name, "", None)] else []
    ensures ToolsSpell(st', events + [ContentStart(index, kind)])
  {
    var ev := ContentStart(index, kind);
    ToolStartsSnoc(events, ev);
    hide OpenStart, Spoken, Carried, ToolStarts;
    forall t: nat | t < |st'.tools|
      ensures st'.tools[t] == ToolAt(events + [ev], Nth(events + [ev], t))
    {
      if t < |st.tools| {
        ToolStays(events, ev, t);
      } else {
        JustStarted(events, ev, JsonChannel);
        JustStarted(events, ev, SignChannel);
        assert (events + [ev])[|events|] == ev && Nth(events + [ev], t) == |events|;
      }
    }
  }

  lemma {:induction false} StartBlocks(st: State, st': State, events: seq<Event>, index: nat, kind: ContentKind, read: ReadArgs)
    requires BlocksSpell(st, events, read) && st'.text == st.text
    requires st'.blocks == st.blocks + if kind.RedactedThinkingKind? then [RedactedThinking(kind.data)] else []
    ensures BlocksSpell(st', events + [ContentStart(index, kind)], read)
  {
    Snoc(events, ContentStart(index, kind));
    assert TextDeltas(events) + [] == TextDeltas(events);
  }

  // ----- a delta -----

  /** What a delta to an open slot makes of it. */
  function Grown(slot: Slot, d: Delta): Slot {
    match (slot, d)
    case (ThinkSlot(t), ThinkingDelta(text)) => ThinkSlot(t.(text := t.text + text))
    case (ThinkSlot(t), SignatureDelta(text)) => ThinkSlot(t.(signature := PushOpt(t.signature, text)))
    case (ThinkSlot(t), EncryptedReasoningDelta(text)) => ThinkSlot(t.(encrypted := PushOpt(t.encrypted, text)))
    case _ => slot
  }

  function GrownTool(t: ToolAcc, d: Delta): ToolAcc {
    match d
    case JsonDelta(text) => t.(args := t.args + text)
    case SignatureDelta(text) => t.(signature := PushOpt(t.signature, text))
    case _ => t
  }

  lemma {:induction false} DeltaState(o: Out, index: nat, d: Delta)
    requires SlotsFit(o.st)
    ensures
      var st, st' := o.st, Fragment(o, index, d).st;
      && SameFacts(st, st') && st'.blocks == st.blocks
      && (index !in st.slots ==> st'.slots == st.slots && st'.tools == st.tools && st'.text == st.text)
      && (index in st.slots ==>
            var slot := st.slots[index];
            && st'.slots == st.slots[index := Grown(slot, d)]
            && st'.tools == (if slot.ToolSlot? then st.tools[slot.tool := GrownTool(st.tools[slot.tool], d)] else st.tools)
            && st'.text == (if slot.TextSlot? && d.TextDelta? then st.text + d.text else st.text))
  {
    hide WireId, WireModel, Notes;
    if index in o.st.slots {
      var slot := o.st.slots[index];
      assert o.st.slots[index := slot] == o.st.slots;
      if slot.ToolSlot? {
        assert o.st.tools[slot.tool := o.st.tools[slot.tool]] == o.st.tools;
      }
    }
  }

  lemma {:induction false} DeltaSpells(o: Out, events: seq<Event>, index: nat, d: Delta, read: ReadArgs)
    requires SlotsFit(o.st) && Spelt(o.st, events, read)
    ensures Spelt(Fragment(o, index, d).st, events + [ContentDelta(index, d)], read)
  {
    var st, st', ev := o.st, Fragment(o, index, d).st, ContentDelta(index, d);
    DeltaState(o, index, d);
    hide Fragment, ToolAt, Parked, TextDeltas, Explanations, LastReason, LastUsage, LastError, LastHead;
    assert SlotIs(st, events, index);
    FactsStay(st, st', events, ev);
    DeltaSlots(st, st', events, index, d);
    DeltaTools(st, st', events, index, d);
    DeltaBlocks(st, st', events, index, d, read);
  }

  /** How one delta adds to the block it belongs to. */
  lemma {:induction false} DeltaAdds(events: seq<Event>, index: nat, d: Delta, p: nat, channel: Channel)
    requires OpenStart(events, index) == Some(p)
    ensures
      var events', mine := events + [ContentDelta(index, d)], ChannelOf(d).Some? && ChannelOf(d).value.0 == channel;
      && Spoken(events', p, channel) == Spoken(events, p, channel) + (if mine then ChannelOf(d).value.1 else "")
      && Carried(events', p, channel) == if mine then PushOpt(Carried(events, p, channel), ChannelOf(d).value.1) else Carried(events, p, channel)
  {
    DeltasSnoc(events, ContentDelta(index, d), p, channel);
    hide OpenStart, Spoken, Carried, Deltas;
  }

  lemma {:induction false} DeltaSlots(st: State, st': State, events: seq<Event>, index: nat, d: Delta)
    requires SlotsSpell(st, events)
    requires st'.slots == if index in st.slots then st.slots[index := Grown(st.slots[index], d)] else st.slots
    ensures SlotsSpell(st', events + [ContentDelta(index, d)])
  {
    var ev := ContentDelta(index, d);
    hide OpenStart, Spoken, Carried, ToolStarts;
    forall i: nat
      ensures SlotIs(st', events + [ev], i)
    {
      assert SlotIs(st, events, i);
      if i == index {
        OpenStartSnoc(events, ev, i);
        ToolStartsSnoc(events, ev);
        var p := OpenStart(events, i);
        if p.Some? {
          assert (events + [ev])[p.value] == events[p.value];
          DeltaAdds(events, index, d, p.value, ThinkChannel);
          DeltaAdds(events, index, d, p.value, SignChannel);
          DeltaAdds(events, index, d, p.value, SealedChannel);
          assert Spoken(events, p.value, ThinkChannel) + "" == Spoken(events, p.value, ThinkChannel);
        }
      } else {
        SlotStays(st, st', events, ev, i);
      }
    }
  }

  lemma {:induction false} DeltaTools(st: State, st': State, events: seq<Event>, index: nat, d: Delta)
    requires SlotIs(st, events, index) && ToolsSpell(st, events)
    requires st'.tools ==
      if index in st.slots && st.slots[index].ToolSlot? && st.slots[index].tool < |st.tools| then
        st.tools[st.slots[index].tool := GrownTool(st.tools[st.slots[index].tool], d)]
      else st.tools
    ensures ToolsSpell(st', events + [ContentDelta(index, d)])
  {
    var ev := ContentDelta(index, d);
    ToolStartsSnoc(events, ev);
    ToolStartsAscend(events);
    hide OpenStart, Spoken, Carried, ToolStarts;
    forall t: nat | t < |st'.tools|
      ensures st'.tools[t] == ToolAt(events + [ev], Nth(events + [ev], t))
    {
      var p := Nth(events, t);
      if OpenStart(events, index) == Some(p) {
        assert index in st.slots && st.slots[index] == ToolSlot(t);
        assert (events + [ev])[p] == events[p] && Nth(events + [ev], t) == p;
        DeltaAdds(events, index, d, p, JsonChannel);
        DeltaAdds(events, index, d, p, SignChannel);
        assert Spoken(events, p, JsonChannel) + "" == Spoken(events, p, JsonChannel);
      } else {
        assert index in st.slots ==> st.slots[index] != ToolSlot(t);
        ToolStays(events, ev, t);
      }
    }
  }

  lemma {:induction false} DeltaBlocks(st: State, st': State, events: seq<Event>, index: nat, d: Delta, read: ReadArgs)
    requires SlotIs(st, events, index) && BlocksSpell(st, events, read) && st'.blocks == st.blocks
    requires st'.text == if index in st.slots && st.slots[index].TextSlot? && d.TextDelta? then st.text + d.text else st.text
    ensures BlocksSpell(st', events + [ContentDelta(index, d)], read)
  {
    Snoc(events, ContentDelta(index, d));
    var was := TextDeltas(events);
    assert was + [] == was && Parked(events, read) + [] == Parked(events, read);
    if d.TextDelta? {
      FlattenSnoc(was, d.text);
    }
  }

  // ----- a stop -----

  lemma {:induction false} StopSpells(st: State, events: seq<Event>, index: nat, read: ReadArgs)
    requires SlotsFit(st) && Spelt(st, events, read)
    ensures Spelt(Close(st, index, read), events + [ContentStop(index)], read)
  {
    var st', ev := Close(st, index, read), ContentStop(index);
    hide ToolAt, Explanations, LastReason, LastUsage, LastError, LastHead;
    FactsStay(st, st', events, ev);
    ToolsStay(st, st', events, ev);
    forall i: nat
      ensures SlotIs(st', events + [ev], i)
    {
      assert SlotIs(st, events, i);
      if i == index {
        OpenStartSnoc(events, ev, i);
      } else {
        SlotStays(st, st', events, ev, i);
      }
    }
    StopBlocks(st, events, index, read);
  }

  lemma {:induction false} StopBlocks(st: State, events: seq<Event>, index: nat, read: ReadArgs)
    requires SlotsFit(st) && Spelt(st, events, read)
    ensures BlocksSpell(Close(st, index, read), events + [ContentStop(index)], read)
  {
    Snoc(events, ContentStop(index));
    var was := Parked(events, read);
    assert TextDeltas(events) + [] == TextDeltas(events) && was + [] == was;
    assert SlotIs(st, events, index);
    hide TextDeltas, Parked, ToolStarts, OpenStart;
    var p := OpenStart(events, index);
    if p.Some? {
      LeftIsStashed(st, events, index, p.value, read);
    }
  }

  lemma {:induction false} LeftIsStashed(st: State, events: seq<Event>, index: nat, p: nat, read: ReadArgs)
    requires SlotsFit(st) && ToolsSpell(st, events)
    requires OpenStart(events, index) == Some(p) && SlotIs(st, events, index)
    ensures StashBlock(st, st.slots[index], read) == Left(events, p, read)
  {
    hide OpenStart, ToolStarts, Deltas;
    if events[p].kind.ToolUseKind? {
      var t := st.slots[index].tool;
      assert Nth(events, t) == p && st.tools[t] == ToolAt(events, Nth(events, t));
    }
  }

  // ----- every other event -----

  lemma {:induction false} WordIs(reason: FinishReason)
    ensures FinishText(reason).1 == WireReason(reason)
    ensures FinishText(reason).0 == if reason.Refusal? then reason.explanation else None
  {
  }

  lemma {:induction false} FinishState(o: Out, reason: FinishReason)
    ensures
      var st, st' := o.st, FinishTurn(o, reason).st;
      && SameFold(st'.(refusal := st.refusal, finish := st.finish), st)
      && st'.finish == Some(WireReason(reason))
      && st'.refusal == st.refusal + if reason.Refusal? && reason.explanation.Some? then reason.explanation.value else ""
  {
    hide Emit, FinishText, WireReason;
    WordIs(reason);
    var (refusal, fr) := FinishText(reason);
    var o1 := o;
    if refusal.Some? {
      var o0 := o.(st := o.st.(refusal := o.st.refusal + refusal.value));
      EmitKeepsFold(o0, RefusalBody(refusal.value), None);
      o1 := Emit(o0, RefusalBody(refusal.value), None);
    }
    EmitKeepsFold(o1, NoBody, Some(fr));
    assert o.st.refusal + "" == o.st.refusal;
  }

  lemma {:induction false} ErrorIs(e: CanonicalError)
    ensures HttpStatus(e.kind) == WireStatus(e.kind)
    ensures Envelope(HttpStatus(e.kind), e.message, ErrorType(HttpStatus(e.kind))) == WireError(e)
  {
  }

  /** Blocks, text and tools are left as they are. */
  ghost predicate SameBlocks(a: State, b: State) {
    a.slots == b.slots && a.tools == b.tools && a.text == b.text && a.blocks == b.blocks
  }

  lemma {:induction false} AsideState(o: Out, ev: Event, env: Env)
    requires SlotsFit(o.st) && Aside(ev)
    ensures
      var st, st' := o.st, Step(o, ev, env).st;
      && SameBlocks(st', st)
      && st'.refusal == st.refusal + (if ev.Finish? && ev.reason.Refusal? && ev.reason.explanation.Some? then ev.reason.explanation.value else "")
      && st'.finish == (if ev.Finish? then Some(WireReason(ev.reason)) else st.finish)
      && st'.usage == (if ev.UsageEvent? then Some(WireUsage(ev.usage)) else st.usage)
      && st'.error == (if ev.Error? then Some(WireError(ev.error)) else st.error)
      && st'.status == (if ev.Error? then Some(WireStatus(ev.error.kind)) else st.status)
      && (st'.id, st'.model) == if ev.MessageStart? then (ev.id, ev.model) else (st.id, st.model)
  {
    hide FinishTurn, WireId, WireModel, Notes, BodyOf, TurnPairs, HttpStatus, ErrorType, WireStatus, WireError,
         WireReason;
    assert o.st.refusal + "" == o.st.refusal;
    match ev
    case Finish(reason) => FinishState(o, reason);
    case Error(e) => ErrorIs(e);
    case _ =>
  }

  lemma {:induction false} AsideSpells(o: Out, events: seq<Event>, ev: Event, env: Env)
    requires SlotsFit(o.st) && Spelt(o.st, events, env.read) && Aside(ev)
    ensures Spelt(Step(o, ev, env).st, events + [ev], env.read)
  {
    var st, st' := o.st, Step(o, ev, env).st;
    AsideState(o, ev, env);
    hide Step, ToolAt, WireReason, WireUsage, WireError, WireStatus;
    ToolsStay(st, st', events, ev);
    forall i: nat
      ensures SlotIs(st', events + [ev], i)
    {
      assert SlotIs(st, events, i);
      SlotStays(st, st', events, ev, i);
    }
    AsideBlocks(st, st', events, ev, env.read);
    AsideFacts(st, st', events, ev);
  }

  lemma {:induction false} AsideBlocks(st: State, st': State, events: seq<Event>, ev: Event, read: ReadArgs)
    requires BlocksSpell(st, events, read) && SameBlocks(st', st) && Aside(ev)
    ensures BlocksSpell(st', events + [ev], read)
  {
    Snoc(events, ev);
    assert TextDeltas(events) + [] == TextDeltas(events) && Parked(events, read) + [] == Parked(events, read);
  }

  lemma {:induction false} AsideFacts(st: State, st': State, events: seq<Event>, ev: Event)
    requires FactsSpell(st, events) && Aside(ev)
    requires st'.refusal == st.refusal + if ev.Finish? && ev.reason.Refusal? && ev.reason.explanation.Some? then ev.reason.explanation.value else ""
    requires st'.finish == if ev.Finish? then Some(WireReason(ev.reason)) else st.finish
    requires st'.usage == if ev.UsageEvent? then Some(WireUsage(ev.usage)) else st.usage
    requires st'.error == if ev.Error? then Some(WireError(ev.error)) else st.error
    requires st'.status == if ev.Error? then Some(WireStatus(ev.error.kind)) else st.status
    requires (st'.id, st'.model) == if ev.MessageStart? then (ev.id, ev.model) else (st.id, st.model)
    ensures FactsSpell(st', events + [ev])
  {
    Snoc(events, ev);
    hide WireReason, WireUsage, WireError, WireStatus;
    var was := Explanations(events);
    assert was + [] == was && Flatten(was) + "" == Flatten(was);
    if ev.Finish? && ev.reason.Refusal? && ev.reason.explanation.Some? {
      FlattenSnoc(was, ev.reason.explanation.value);
    }
  }

  // ----- a whole turn -----

  lemma {:induction false} StepSpells(o: Out, events: seq<Event>, ev: Event, env: Env)
    requires SlotsFit(o.st) && Spelt(o.st, events, env.read)
    ensures Spelt(Step(o, ev, env).st, events + [ev], env.read)
  {
    hide Start, Fragment, Close, Spelt, FinishTurn, Fail, BodyOf, WireId, WireModel, TurnPairs;
    match ev
    case ContentStart(index, kind) => StartSpells(o, events, index, kind, env.read);
    case ContentDelta(index, d) => DeltaSpells(o, events, index, d, env.read);
    case ContentStop(index) => StopSpells(o.st, events, index, env.read);
    case _ => AsideSpells(o, events, ev, env);
  }

  lemma {:induction false} FreshSpells(st: State, read: ReadArgs)
    requires st == Fresh(st.stream, st.includeUsage, st.created, st.fallbackModel, st.adaptations)
    ensures Spelt(st, [], read)
  {
    assert forall i: nat :: SlotIs(st, [], i);
  }

  /** On either shape, what a turn folds to is what its events spell. */
  lemma {:induction false} TurnSpells(st: State, events: seq<Event>, env: Env)
    requires st == Fresh(st.stream, st.includeUsage, st.created, st.fallbackModel, st.adaptations)
    ensures SlotsFit(st) && Spelt(Run(Out(st, []), events, env).st, events, env.read)
    decreases |events|
  {
    if events == [] {
      FreshSpells(st, env.read);
    } else {
      var front, last := Front(events), Last(events);
      assert events == front + [last];
      TurnSpells(st, front, env);
      RunAppend(Out(st, []), front, [last], env);
      var mid := Run(Out(st, []), front, env);
      RunOne(mid, last, env);
      hide Run, Step, Spelt;
      StepSpells(mid, front, last, env);
    }
  }

  lemma {:induction false} RunOne(o: Out, ev: Event, env: Env)
    requires SlotsFit(o.st)
    ensures Run(o, [ev], env) == Step(o, ev, env)
  {
    hide Step;
    assert [ev][1..] == [];
  }

  // ----- the message -----

  function SpeltTools(events: seq<Event>): (tools: seq<WireTool>)
    ensures |tools| == |ToolStarts(events)|
    ensures forall t :: 0 <= t < |tools| ==>
      tools[t] == WireTool(events[Nth(events, t)].kind.id, events[Nth(events, t)].kind.name,
                           Spoken(events, Nth(events, t), JsonChannel))
  {
    seq(|ToolStarts(events)|, t requires 0 <= t < |ToolStarts(events)| =>
      WireTool(events[Nth(events, t)].kind.id, events[Nth(events, t)].kind.name,
               Spoken(events, Nth(events, t), JsonChannel)))
  }

  /** The body of the aggregate shape, off the events alone. */
  function SpeltBody(events: seq<Event>, created: nat, model: string): ChatBody {
    match LastError(events)
    case Some(e) => Failure(WireError(e))
    case None =>
      var text, refusal := Flatten(TextDeltas(events)), Flatten(Explanations(events));
      var head := LastHead(events);
      Success(if head.0.Some? then head.0.value else "chatcmpl-brazen-" + Decimal(created),
              if head.1.Some? then head.1.value else model,
              created,
              if text == "" then None else Some(text), if refusal == "" then None else Some(refusal),
              SpeltTools(events),
              if LastReason(events).Some? then Some(WireReason(LastReason(events).value)) else None,
              if LastUsage(events).Some? then Some(WireUsage(LastUsage(events).value)) else None)
  }

  lemma {:induction false} BodyIsSpelt(st: State, events: seq<Event>, read: ReadArgs)
    requires Spelt(st, events, read)
    ensures BodyOf(st) == SpeltBody(events, st.created, st.fallbackModel)
  {
    hide SlotsSpell, WireReason, WireUsage, WireError, Decimal, TextDeltas, Explanations, ToolStarts;
    var tools := WireTools(st.tools);
    forall t: nat | t < |st.tools|
      ensures tools[t] == SpeltTools(events)[t]
    {
      assert st.tools[t] == ToolAt(events, Nth(events, t));
    }
    assert tools == SpeltTools(events);
  }

  /** The end changes nothing of what the events spell. */
  lemma {:induction false} EndAdds(events: seq<Event>, created: nat, model: string)
    ensures SpeltBody(events + [End], created, model) == SpeltBody(events, created, model)
  {
    Snoc(events, End);
    ToolStartsSnoc(events, End);
    assert TextDeltas(events) + [] == TextDeltas(events) && Explanations(events) + [] == Explanations(events);
    forall t: nat | t < |ToolStarts(events)|
      ensures SpeltTools(events + [End])[t] == SpeltTools(events)[t]
    {
      ToolStays(events, End, t);
    }
    assert SpeltTools(events + [End]) == SpeltTools(events);
    hide WireReason, WireUsage, WireError, Decimal, SpeltTools, TextDeltas, Explanations, ToolStarts;
  }

  lemma {:induction false} KnobsStay(o: Out, events: seq<Event>, env: Env)
    requires SlotsFit(o.st)
    ensures Run(o, events, env).st.created == o.st.created && Run(o, events, env).st.fallbackModel == o.st.fallbackModel
    decreases |events|
  {
    if events != [] {
      StepKeepsDefaults(o, events[0], env);
      hide Step;
      KnobsStay(Step(o, events[0], env), events[1..], env);
    }
  }

  lemma {:induction false} StepKeepsDefaults(o: Out, ev: Event, env: Env)
    requires SlotsFit(o.st)
    ensures Step(o, ev, env).st.created == o.st.created && Step(o, ev, env).st.fallbackModel == o.st.fallbackModel
  {
    hide WireId, WireModel, TurnPairs, StashBlock, Notes, BodyOf, FinishText;
  }

  /** Both shapes hand the client the message its events spell: the aggregate writes it as its
      one body, and the stream's client has assembled it. */
  lemma {:induction false} ClientsGetTheMessage(
    events: seq<Event>, env: Env, includeUsage: bool, created: nat, model: string, adaptations: seq<string>)
    requires End !in events
    ensures
      var sse := Run(Out(Fresh(true, includeUsage, created, model, adaptations), []), events + [End], env);
      var agg := Run(Out(Fresh(false, includeUsage, created, model, adaptations), []), events + [End], env);
      var message := SpeltBody(events, created, model);
      && agg.lines == [ChatIngress.Whole(message, adaptations)]
      && Spells(Accumulate(EMPTY_CLIENT, sse.lines), message, includeUsage)
  {
    hide Run, Accumulate, BodyOf, SpeltBody, Spelt, Spells, Step;
    var st := Fresh(false, includeUsage, created, model, adaptations);
    AggregateIsStreamAccumulated(events, env, includeUsage, created, model, adaptations);
    TurnSpells(st, events + [End], env);
    KnobsStay(Out(st, []), events + [End], env);
    BodyIsSpelt(Run(Out(st, []), events + [End], env).st, events + [End], env.read);
    EndAdds(events, created, model);
  }
}
