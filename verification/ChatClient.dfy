/** The client's end of a streamed chat-completions turn (src/run/masq/mod.rs:115-153,
    src/ingress/openai_chat/chunks.rs:61-79, src/protocol/sse.rs): from the bytes on the socket
    to the message it assembles. */
module ChatClient {
  import opened Base
  import opened Canonical
  import opened ChatIngress
  import opened MasqTurn
  import opened MasqWire
  import Http = HttpResponses
  import Sse = SseGrammar

  // ----- what the stream shape writes -----

  /** The stream shape writes no body, and no comment without a frame behind it. */
  ghost predicate Streams(o: Out) {
    && o.st.stream && SlotsFit(o.st)
    && (forall l <- o.lines :: !l.Whole?)
    && (o.lines != [] ==> !Last(o.lines).Note?)
  }

  lemma {:induction false} SayStreams(lines: seq<Line>, notes: seq<string>, l: Line)
    requires (forall k <- lines :: !k.Whole?) && !l.Whole? && !l.Note?
    ensures forall k <- lines + Notes(notes) + [l] :: !k.Whole?
    ensures Last(lines + Notes(notes) + [l]) == l
  {
  }

  lemma {:induction false} EmitStreams(o: Out, delta: DeltaBody, finish: Option<string>)
    requires Streams(o)
    ensures Streams(Emit(o, delta, finish))
  {
    hide WireId, WireModel, Notes;
    SayStreams(o.lines, o.st.pending, Data(Choice(WireId(o.st), WireModel(o.st), o.st.created, delta, finish, o.st.includeUsage)));
  }

  lemma {:induction false} FinishStreams(o: Out, reason: FinishReason)
    requires Streams(o)
    ensures Streams(FinishTurn(o, reason))
  {
    hide Emit, FinishText;
    var (refusal, fr) := FinishText(reason);
    var o1 := o;
    if refusal.Some? {
      var o0 := o.(st := o.st.(refusal := o.st.refusal + refusal.value));
      EmitStreams(o0, RefusalBody(refusal.value), None);
      o1 := Emit(o0, RefusalBody(refusal.value), None);
    }
    EmitStreams(o1, NoBody, Some(fr));
  }

  lemma {:induction false} StartStreams(o: Out, index: nat, kind: ContentKind)
    requires Streams(o)
    ensures Streams(Start(o, index, kind))
  {
    hide Emit;
    if kind.ToolUseKind? {
      var tools := o.st.tools + [ToolAcc(kind.id, kind.name, "", None)];
      var slots := o.st.slots[index := ToolSlot(|o.st.tools|)];
      EmitStreams(o.(st := o.st.(tools := tools, slots := slots)), ToolOpen(|o.st.tools|, kind.id, kind.name), None);
    }
  }

  lemma {:induction false} FragmentStreams(o: Out, index: nat, delta: Delta)
    requires Streams(o)
    ensures Streams(Fragment(o, index, delta))
  {
    hide Emit;
    if index in o.st.slots {
      match (o.st.slots[index], delta)
      case (TextSlot, TextDelta(t)) => EmitStreams(o.(st := o.st.(text := o.st.text + t)), TextBody(t), None);
      case (ToolSlot(i), JsonDelta(a)) =>
        var tools := o.st.tools[i := o.st.tools[i].(args := o.st.tools[i].args + a)];
        EmitStreams(o.(st := o.st.(tools := tools)), ToolArgs(i, a), None);
      case _ =>
    }
  }

  lemma {:induction false} StepStreams(o: Out, ev: Event, env: Env)
    requires Streams(o)
    ensures Streams(Step(o, ev, env))
  {
    hide Emit, WireId, WireModel, Notes, FinishTurn, Fragment, Start, StashBlock, TurnPairs;
    var st := o.st;
    match ev
    case MessageStart(id, model) => EmitStreams(o.(st := st.(id := id, model := model)), RoleDelta, None);
    case ContentStart(index, kind) => StartStreams(o, index, kind);
    case ContentDelta(index, delta) => FragmentStreams(o, index, delta);
    case UsageEvent(u) =>
      SayStreams(o.lines, st.pending, Data(UsageOnly(WireId(st), WireModel(st), st.created, Some(UsageJson(u)))));
    case Finish(reason) => FinishStreams(o, reason);
    case Error(e) =>
      var status := HttpStatus(e.kind);
      SayStreams(o.lines, st.pending, Data(ErrorChunk(Envelope(status, e.message, ErrorType(status)))));
    case End => SayStreams(o.lines, st.pending, DoneLine);
    case _ =>
  }

  lemma {:induction false} RunStreams(o: Out, events: seq<Event>, env: Env)
    requires Streams(o)
    ensures Streams(Run(o, events, env))
    decreases |events|
  {
    if events != [] {
      hide Step, Streams;
      StepStreams(o, events[0], env);
      RunStreams(Step(o, events[0], env), events[1..], env);
    }
  }

  lemma {:induction false} SpelledStreams(sp: Spelling, lines: seq<Line>)
    requires JsonText(sp) && (forall l <- lines :: !l.Whole?) && (lines != [] ==> !Last(lines).Note?)
    ensures Streamed(Spell(sp, lines))
  {
    SpellTidy(sp, lines);
    forall s | s in Spell(sp, lines)
      ensures !s.SpeltBody?
    {
      var i :| 0 <= i < |lines| && Spell(sp, lines)[i] == s;
      assert lines[i] in lines;
    }
  }

  // ----- what the client reads -----

  /** A client that reads each frame's data back as the chunk it spells; the sentinel is none. */
  type Reader = Bytes -> Option<ChatChunk>

  ghost predicate ReadsBack(read: Reader, sp: Spelling) {
    (forall chunk :: read(sp.chunk(chunk)) == Some(chunk)) && read(DONE) == None
  }

  function Hear(c: Client, frames: seq<Sse.Frame>, read: Reader): Client
    decreases |frames|
  {
    if frames == [] then c
    else
      var heard := read(frames[0].data);
      Hear(if heard.Some? then ClientLine(c, Data(heard.value)) else c, frames[1..], read)
  }

  /** Frames carry all a client accumulates from the lines but the comments. */
  lemma {:induction false} HearsTheLines(c: Client, lines: seq<Line>, sp: Spelling, read: Reader)
    requires ReadsBack(read, sp) && forall l <- lines :: !l.Whole?
    ensures Hear(c, FramesOf(Spell(sp, lines)), read) == Accumulate(c, lines).(notes := c.notes)
    decreases |lines|
  {
    if lines != [] {
      var l, spelt := lines[0], Spell(sp, lines);
      assert spelt[1..] == Spell(sp, lines[1..]) && l in lines;
      var rest := FramesOf(spelt[1..]);
      match l
      case Data(chunk) =>
        var frame := Sse.Frame(None, sp.chunk(chunk), None);
        assert FramesOf(spelt) == [frame] + rest && ([frame] + rest)[1..] == rest;
        HearsTheLines(ClientLine(c, l), lines[1..], sp, read);
      case DoneLine =>
        var frame := Sse.Frame(None, DONE, None);
        assert FramesOf(spelt) == [frame] + rest && ([frame] + rest)[1..] == rest;
        HearsTheLines(c, lines[1..], sp, read);
      case Note(name) =>
        assert FramesOf(spelt) == rest;
        HearsTheLines(c, lines[1..], sp, read);
        AccumulateIgnoresNotes(c, c.notes + [name], lines[1..]);
    }
  }

  lemma {:induction false} AccumulateIgnoresNotes(c: Client, notes: seq<string>, lines: seq<Line>)
    ensures Accumulate(c.(notes := notes), lines).(notes := []) == Accumulate(c, lines).(notes := [])
    decreases |lines|
  {
    if lines != [] {
      var l := lines[0];
      if l.Note? {
        AccumulateIgnoresNotes(c.(notes := c.notes + [l.name]), notes + [l.name], lines[1..]);
      } else {
        LineIgnoresNotes(c, notes, l);
        AccumulateIgnoresNotes(ClientLine(c, l), notes, lines[1..]);
      }
    }
  }

  lemma {:induction false} LineIgnoresNotes(c: Client, notes: seq<string>, l: Line)
    requires !l.Note?
    ensures ClientLine(c.(notes := notes), l) == ClientLine(c, l).(notes := notes)
    ensures ClientLine(c, l).notes == c.notes
  {
  }

  lemma {:induction false} BodyAlone(sp: Spelling, body: ChatBody, adaptations: seq<string>)
    ensures Written(Spell(sp, [Whole(body, adaptations)])) == sp.body(body, adaptations)
  {
    var spelt := SpeltBody(sp.body(body, adaptations));
    assert Spell(sp, [Whole(body, adaptations)]) == [spelt] && [spelt][1..] == [];
  }

  /** From the socket to the message. The body of a whole streamed turn decodes, cut anywhere and
      framed by this repository's own framer, to exactly the chunks the fold wrote and the
      sentinel; and what a client assembles from them is the message the aggregate response of
      the same turn carries as its body. */
  lemma {:induction false} StreamedTurnIsHeard(
    events: seq<Event>, env: Env, sp: Spelling, read: Reader, includeUsage: bool, created: nat, model: string,
    adaptations: seq<string>, cut: seq<Bytes>)
    requires End !in events && JsonText(sp) && ReadsBack(read, sp)
    requires
      var pieces := Pieces(Fresh(true, includeUsage, created, model, adaptations), events + [End], env, sp);
      Began(pieces) <= 65535 && Http.Dechunk(Http.Coded(Said(pieces))) == Some((Flatten(cut), []))
    ensures
      var sse := Run(Out(Fresh(true, includeUsage, created, model, adaptations), []), events + [End], env);
      var agg := Run(Out(Fresh(false, includeUsage, created, model, adaptations), []), events + [End], env);
      var frames := Sse.WholeParse(Sse.SseBlocks, Flatten(cut));
      && frames == FramesOf(Spell(sp, sse.lines))
      && Spells(Hear(EMPTY_CLIENT, frames, read), BodyOf(agg.st), includeUsage)
      && Written(Spell(sp, agg.lines)) == sp.body(BodyOf(agg.st), adaptations)
  {
    hide Pieces, Said, Began, Response, Http.Dechunk, Http.Coded, Run, Spell, Written, Sse.WholeParse, ReadsAs,
         JsonText, ReadsBack, Hear, FramesOf;
    var st := Fresh(true, includeUsage, created, model, adaptations);
    TurnReadsBack(st, events, env, sp);
    RunStreams(Out(st, []), events + [End], env);
    var lines := Run(Out(st, []), events + [End], env).lines;
    SpelledStreams(sp, lines);
    WrittenLinesReadBack(Spell(sp, lines));
    HearsTheLines(EMPTY_CLIENT, lines, sp, read);
    AggregateIsStreamAccumulated(events, env, includeUsage, created, model, adaptations);
    var agg := Run(Out(Fresh(false, includeUsage, created, model, adaptations), []), events + [End], env);
    BodyAlone(sp, BodyOf(agg.st), adaptations);
  }
}
