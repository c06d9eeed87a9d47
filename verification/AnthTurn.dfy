/** One masquerade turn of the messages dialect (src/run/masq/mod.rs:115-175): the encoder's
    frames onto the HTTP responder, and the client's end from the socket's bytes up to the
    message it assembles. */
module AnthTurn {
  import opened Base
  import opened AsciiText
  import opened Canonical
  import opened AnthIngress
  import opened AnthEncoder
  import opened MasqWire
  import opened SseWire
  import ChatIngress
  import Http = HttpResponses
  import Sse = SseGrammar

  /** How names, frames and bodies are spelt: the JSON text is the serializer's. */
  datatype Spelling = Spelling(note: string -> Bytes, frame: Frame -> Bytes, body: (Body, seq<string>) -> Bytes)

  function EventName(f: Frame): string {
    match f
    case MessageStartFrame(_, _, _) => "message_start"
    case BlockStart(_, _) => "content_block_start"
    case BlockDelta(_, _) => "content_block_delta"
    case BlockStop(_) => "content_block_stop"
    case MessageDelta(_, _, _) => "message_delta"
    case MessageStop => "message_stop"
    case ErrorFrame(_) => "error"
  }

  /** Each frame is announced by its own name. */
  lemma {:induction false} EventNameIs(f: Frame)
    ensures EventName(f) == "message_start" <==> f.MessageStartFrame?
    ensures EventName(f) == "content_block_start" <==> f.BlockStart?
    ensures EventName(f) == "content_block_delta" <==> f.BlockDelta?
    ensures EventName(f) == "content_block_stop" <==> f.BlockStop?
    ensures EventName(f) == "message_delta" <==> f.MessageDelta?
    ensures EventName(f) == "message_stop" <==> f.MessageStop?
    ensures EventName(f) == "error" <==> f.ErrorFrame?
  {
  }

  /** src/ingress/anthropic_messages/frames.rs:19-30: an event line and a data line. */
  function SpeltAs(sp: Spelling, l: Line): Spelt {
    match l
    case Note(name) => SpeltNote(sp.note(name))
    case Data(f) => SpeltFrame(Some(Ascii(EventName(f))), sp.frame(f))
    case Whole(body, adaptations) => SpeltBody(sp.body(body, adaptations))
  }

  function Spell(sp: Spelling, lines: seq<Line>): (spelt: seq<Spelt>)
    ensures |spelt| == |lines|
    ensures forall i :: 0 <= i < |lines| ==> spelt[i] == SpeltAs(sp, lines[i])
  {
    seq(|lines|, i requires 0 <= i < |lines| => SpeltAs(sp, lines[i]))
  }

  /** Compact JSON text: control characters are escaped, so it fits on a line; names have none. */
  ghost predicate JsonText(sp: Spelling) {
    && (forall name :: LF !in sp.note(name))
    && (forall f :: OneLine(sp.frame(f)))
    && (forall body, adaptations :: sp.body(body, adaptations) != [])
  }

  /** `IngressState::status` (src/ingress/state.rs:143-145). */
  function Status(st: State): nat {
    if st.status.Some? then st.status.value else 200
  }

  function Pieces(st: State, events: seq<Event>, read: ChatIngress.ReadArgs, sp: Spelling): seq<Piece>
    decreases |events|
  {
    if events == [] then []
    else
      var o := Step(Out(st, []), events[0], read);
      [Piece(Status(o.st), Written(Spell(sp, o.lines)))] + Pieces(o.st, events[1..], read, sp)
  }

  /** One masquerade turn. This dialect parks nothing, so there is nothing to hand over. */
  method Turn(events: seq<Event>, read: ChatIngress.ReadArgs, sp: Spelling, state: AnthState, r: Http.HttpRespond)
    returns (ok: bool)
    requires OnWire(r, false, state.stream, [])
    modifies state, r, r.w
    ensures
      var pieces, sse := Pieces(old(state.View()), events, read, sp), old(state.stream);
      && r.w.received == Http.Taken(Response(pieces, sse), r.w.room)
      && ok == (|Response(pieces, sse)| <= r.w.room)
  {
    hide Step, Run, Pieces, Response, Sent, Said, Began, Written, Http.Coded, Http.BodyHead;
    ghost var pieces := Pieces(state.View(), events, read, sp);
    var sse := state.stream;
    ghost var done: seq<Piece> := [];
    var begun := false;
    var i := 0;
    assert events[0..] == events && [] + pieces == pieces;
    while i < |events|
      invariant i <= |events| && OnWire(r, begun, sse, done)
      invariant done + Pieces(state.View(), events[i..], read, sp) == pieces
    {
      ghost var before := state.View();
      var lines := state.Encode(events[i], read);
      var p := Piece(Status(state.View()), Written(Spell(sp, lines)));
      TurnStep(before, events, i, read, sp);
      ghost var rest := Pieces(state.View(), events[i + 1..], read, sp);
      assert done + ([p] + rest) == done + [p] + rest;
      begun, ok := Put(p, begun, sse, r, done, rest);
      if !ok {
        return false;
      }
      done := done + [p];
      i := i + 1;
    }
    NothingLeft(state.View(), events[i..], read, sp);
    assert done + [] == done;
    Ends(pieces, sse);
    ok := r.End();
  }

  /** The error envelope of a request refused at the edge. */
  function EdgeBody(e: CanonicalError, sp: Spelling): Bytes {
    sp.body(Failure(Envelope(ErrorType(HttpStatus(e.kind)), e.message)), [])
  }

  lemma {:induction false} EdgeFold(st: State, e: CanonicalError, read: ChatIngress.ReadArgs)
    requires !st.stream && st.adaptations == []
    ensures
      var failed := Step(Out(st, []), Error(e), read);
      var ended := Step(Out(failed.st, []), End, read);
      && failed.lines == [] && ended.st.status == Some(HttpStatus(e.kind))
      && ended.lines == [Whole(Failure(Envelope(ErrorType(HttpStatus(e.kind)), e.message)), [])]
  {
    hide ErrorType, HttpStatus;
  }

  /** The error and the end, encoded for a request that never parsed. */
  method Refuse(e: CanonicalError, read: ChatIngress.ReadArgs, sp: Spelling, now: nat) returns (status: nat, body: Bytes)
    ensures status == HttpStatus(e.kind) && body == EdgeBody(e, sp)
  {
    hide Step, Written, Spell;
    var state := new AnthState(false, now, "", []);
    EdgeFold(state.View(), e, read);
    var failed := state.Encode(Error(e), read);
    var ended := state.Encode(End, read);
    BodyAlone(sp, Failure(Envelope(ErrorType(HttpStatus(e.kind)), e.message)), []);
    NothingWritten(sp);
    body := Written(Spell(sp, failed)) + Written(Spell(sp, ended));
    status := Status(state.View());
  }

  /** A request refused before any turn: always the aggregate shape, under the error's own status. */
  method Edge(e: CanonicalError, read: ChatIngress.ReadArgs, sp: Spelling, now: nat, r: Http.HttpRespond) returns (ok: bool)
    requires OnWire(r, false, false, [])
    modifies r, r.w
    ensures
      var body := EdgeBody(e, sp);
      var response := Http.BodyHead(HttpStatus(e.kind), |body|) + body;
      r.w.received == Http.Taken(response, r.w.room) && ok == (|response| <= r.w.room)
  {
    hide Http.BodyHead, Http.Taken, EdgeBody, HttpStatus;
    var status, body := Refuse(e, read, sp, now);
    ok := AnswerWhole(status, body, r);
  }

  lemma {:induction false} NothingLeft(st: State, events: seq<Event>, read: ChatIngress.ReadArgs, sp: Spelling)
    requires events == []
    ensures Pieces(st, events, read, sp) == []
  {
  }

  lemma {:induction false} TurnStep(st: State, events: seq<Event>, i: nat, read: ChatIngress.ReadArgs, sp: Spelling)
    requires i < |events|
    ensures
      var o := Step(Out(st, []), events[i], read);
      Pieces(st, events[i..], read, sp)
      == [Piece(Status(o.st), Written(Spell(sp, o.lines)))] + Pieces(o.st, events[i + 1..], read, sp)
  {
    hide Step, Written;
    assert events[i..][1..] == events[i + 1..];
  }

  /** A run only appends to what was written before it. */
  lemma {:induction false} RunAppends(o: Out, events: seq<Event>, read: ChatIngress.ReadArgs)
    ensures
      var alone := Run(Out(o.st, []), events, read);
      Run(o, events, read) == Out(alone.st, o.lines + alone.lines)
    decreases |events|
  {
    hide Step;
    if events == [] {
      assert o.lines + [] == o.lines;
    } else {
      StepAppends(o, events[0], read);
      var first := Step(Out(o.st, []), events[0], read);
      RunAppends(Step(o, events[0], read), events[1..], read);
      RunAppends(first, events[1..], read);
      var rest := Run(Out(first.st, []), events[1..], read);
      assert o.lines + first.lines + rest.lines == o.lines + (first.lines + rest.lines);
    }
  }

  // ----- what the client finds -----

  lemma {:induction false} SpellAppend(sp: Spelling, a: seq<Line>, b: seq<Line>)
    ensures Spell(sp, a + b) == Spell(sp, a) + Spell(sp, b)
  {
  }

  lemma {:induction false} NamesFit(f: Frame)
    ensures OneLine(Ascii(EventName(f)))
  {
    hide Ascii;
    match f
    case MessageStartFrame(_, _, _) => PlainName("message_start");
    case BlockStart(_, _) => PlainName("content_block_start");
    case BlockDelta(_, _) => PlainName("content_block_delta");
    case BlockStop(_) => PlainName("content_block_stop");
    case MessageDelta(_, _, _) => PlainName("message_delta");
    case MessageStop => PlainName("message_stop");
    case ErrorFrame(_) => PlainName("error");
  }

  lemma {:induction false} PlainName(name: string)
    requires '\n' !in name && '\r' !in name
    ensures OneLine(Ascii(name))
  {
    AsciiLacks(name, '\n');
    AsciiLacks(name, '\r');
    hide Ascii;
    var v := Ascii(name);
    assert |v| > 0 ==> v[|v| - 1] in v;
  }

  lemma {:induction false} SpellTidy(sp: Spelling, lines: seq<Line>)
    requires JsonText(sp)
    ensures forall s <- Spell(sp, lines) :: Tidy(s)
  {
    hide EventName, OneLine, Ascii;
    forall i | 0 <= i < |lines|
      ensures Tidy(Spell(sp, lines)[i])
    {
      if lines[i].Data? {
        NamesFit(lines[i].frame);
      }
    }
  }

  lemma {:induction false} LinesSay(sp: Spelling, lines: seq<Line>)
    requires JsonText(sp) && lines != []
    ensures Written(Spell(sp, lines)) != []
  {
    SpellTidy(sp, lines);
    assert Spell(sp, lines)[0] in Spell(sp, lines);
    TidySays(Spell(sp, lines)[0]);
    hide BytesOf, EventName;
  }

  /** Skipping the silent pieces loses nothing: the pieces are the lines of the fold. */
  lemma {:induction false} SaidIsText(st: State, events: seq<Event>, read: ChatIngress.ReadArgs, sp: Spelling)
    ensures Flatten(Said(Pieces(st, events, read, sp))) == Written(Spell(sp, Run(Out(st, []), events, read).lines))
    decreases |events|
  {
    hide Step;
    if events != [] {
      var o := Step(Out(st, []), events[0], read);
      SaidIsText(o.st, events[1..], read, sp);
      RunAppends(o, events[1..], read);
      var rest := Run(Out(o.st, []), events[1..], read).lines;
      SpellAppend(sp, o.lines, rest);
      WrittenAppend(Spell(sp, o.lines), Spell(sp, rest));
      SaidFirst(Piece(Status(o.st), Written(Spell(sp, o.lines))), Pieces(o.st, events[1..], read, sp));
      hide Pieces, Written, Said, Run;
    }
  }

  /** A stream that has said nothing has not failed: an error is told as it comes. */
  ghost predicate SilentIsWell(o: Out) {
    o.st.stream && (o.lines == [] ==> o.st.error == None)
  }

  lemma {:induction false} RunStaysWell(o: Out, events: seq<Event>, read: ChatIngress.ReadArgs)
    requires SilentIsWell(o)
    ensures SilentIsWell(Run(o, events, read))
    decreases |events|
  {
    if events != [] {
      FoldKeepsKnobs(o.st, events[0], read);
      OnlyErrorsFail(o.st, events[0], read);
      hide Fold, Notes, BodyOf;
      RunStaysWell(Step(o, events[0], read), events[1..], read);
    }
  }

  /** The driver's own comment has the end say something on both shapes; here it does not after
      an error on the stream shape, and only then. */
  lemma {:induction false} EndIsSilent(st: State, read: ChatIngress.ReadArgs)
    ensures Step(Out(st, []), End, read).lines == [] <==> st.stream && st.error.Some?
  {
    hide BodyOf;
  }

  /** The end says nothing after an error on the stream shape; but then the error has, so every
      turn begins a response. */
  lemma {:induction false} EndSays(st: State, events: seq<Event>, read: ChatIngress.ReadArgs, sp: Spelling)
    requires st.error == None && JsonText(sp)
    ensures Said(Pieces(st, events + [End], read, sp)) != []
  {
    hide Pieces, Said, Step, Run, Written, Spell;
    SaidIsText(st, events + [End], read, sp);
    RunAppend(Out(st, []), events, [End], read);
    var mid := Run(Out(st, []), events, read);
    RunOne(mid, End, read);
    RunKeepsStream(Out(st, []), events, read);
    if st.stream {
      RunStaysWell(Out(st, []), events, read);
    }
    EndWrites(mid, read);
    LinesSay(sp, Run(Out(st, []), events + [End], read).lines);
  }

  lemma {:induction false} RunKeepsStream(o: Out, events: seq<Event>, read: ChatIngress.ReadArgs)
    ensures Run(o, events, read).st.stream == o.st.stream
    decreases |events|
  {
    if events != [] {
      FoldKeepsKnobs(o.st, events[0], read);
      hide Fold, Notes, BodyOf;
      RunKeepsStream(Step(o, events[0], read), events[1..], read);
    }
  }

  lemma {:induction false} EndWrites(o: Out, read: ChatIngress.ReadArgs)
    requires o.st.stream ==> SilentIsWell(o)
    ensures Step(o, End, read).lines != []
    ensures !o.st.stream && o.lines == [] ==> |Step(o, End, read).lines| == 1
  {
    StepAppends(o, End, read);
    EndIsSilent(o.st, read);
    hide BodyOf;
  }

  /** An aggregate says everything at the end, under the status the whole turn came to. */
  lemma {:induction false} AggregateStatus(st: State, events: seq<Event>, read: ChatIngress.ReadArgs, sp: Spelling)
    requires !st.stream && End !in events && JsonText(sp)
    ensures Began(Pieces(st, events + [End], read, sp)) == Status(Run(Out(st, []), events + [End], read).st)
    decreases |events|
  {
    var all := events + [End];
    hide Step, Written;
    var o := Step(Out(st, []), all[0], read);
    RunAppends(o, all[1..], read);
    if events == [] {
      assert all == [End] && all[1..] == [];
      assert Run(Out(st, []), all, read) == o;
      EndWrites(Out(st, []), read);
      LinesSay(sp, o.lines);
    } else {
      assert all[1..] == events[1..] + [End] && all[0] == events[0];
      AggregateIsSilent(Out(st, []), [all[0]], read);
      RunOne(Out(st, []), all[0], read);
      NothingWritten(sp);
      AggregateStatus(o.st, events[1..], read, sp);
    }
  }

  lemma {:induction false} NothingWritten(sp: Spelling)
    ensures Written(Spell(sp, [])) == []
  {
  }

  /** A whole turn reads back on either shape: the head carries the status in force when the
      response began, which for an aggregate is the status the turn came to, and behind it, in
      chunks that decode or as the body, stand exactly the lines the fold wrote. */
  lemma {:induction false} TurnReadsBack(st: State, events: seq<Event>, read: ChatIngress.ReadArgs, sp: Spelling)
    requires st.error == None && End !in events && JsonText(sp)
    requires Began(Pieces(st, events + [End], read, sp)) <= 65535
    ensures
      var out := Run(Out(st, []), events + [End], read);
      var pieces := Pieces(st, events + [End], read, sp);
      if st.stream then
        && ReadsAs(Response(pieces, true), Began(pieces), Http.Coded(Said(pieces)))
        && Http.Dechunk(Http.Coded(Said(pieces))) == Some((Written(Spell(sp, out.lines)), []))
      else ReadsAs(Response(pieces, false), Status(out.st), Written(Spell(sp, out.lines)))
  {
    hide Pieces, Said, Began, Http.SseHead, Http.BodyHead, Http.Dechunk, Http.Coded, Run, Written, Spell, Step,
         ReadsAs, JsonText;
    EndSays(st, events, read, sp);
    SaidIsText(st, events + [End], read, sp);
    var pieces := Pieces(st, events + [End], read, sp);
    if st.stream {
      StreamReadsAs(Began(pieces), Said(pieces));
    } else {
      AggregateStatus(st, events, read, sp);
      BodyReadsAs(Began(pieces), Flatten(Said(pieces)));
    }
  }

  // ----- from the socket to the message -----

  /** The stream shape writes no body, and no comment without a frame behind it. */
  ghost predicate Streams(o: Out) {
    && o.st.stream
    && (forall l <- o.lines :: !l.Whole?)
    && (o.lines != [] ==> Last(o.lines).Data?)
  }

  lemma {:induction false} SayStreams(lines: seq<Line>, notes: seq<string>, f: Frame)
    requires forall k <- lines :: !k.Whole?
    ensures forall k <- lines + Notes(notes) + [Data(f)] :: !k.Whole?
    ensures Last(lines + Notes(notes) + [Data(f)]) == Data(f)
  {
  }

  lemma {:induction false} RunStreams(o: Out, events: seq<Event>, read: ChatIngress.ReadArgs)
    requires Streams(o)
    ensures Streams(Run(o, events, read))
    decreases |events|
  {
    if events != [] {
      FoldKeepsKnobs(o.st, events[0], read);
      var told := Fold(o.st, events[0], read);
      hide Fold, Notes, BodyOf;
      if told.frame.Some? {
        SayStreams(o.lines, o.st.pending, told.frame.value);
      }
      RunStreams(Step(o, events[0], read), events[1..], read);
    }
  }

  lemma {:induction false} SpelledStreams(sp: Spelling, lines: seq<Line>)
    requires JsonText(sp) && (forall l <- lines :: !l.Whole?) && (lines != [] ==> Last(lines).Data?)
    ensures Streamed(Spell(sp, lines))
  {
    SpellTidy(sp, lines);
    hide EventName, Tidy;
    forall s | s in Spell(sp, lines)
      ensures !s.SpeltBody?
    {
      var i :| 0 <= i < |lines| && Spell(sp, lines)[i] == s;
      assert lines[i] in lines;
    }
  }

  /** A client that reads each frame's data back as the frame it spells. */
  type Reader = Bytes -> Option<Frame>

  ghost predicate ReadsBack(reader: Reader, sp: Spelling) {
    forall f :: reader(sp.frame(f)) == Some(f)
  }

  function Hear(c: Client, frames: seq<Sse.Frame>, reader: Reader, read: ChatIngress.ReadArgs): Client
    decreases |frames|
  {
    if frames == [] then c
    else
      var heard := reader(frames[0].data);
      Hear(if heard.Some? then ClientFrame(c, heard.value, read) else c, frames[1..], reader, read)
  }

  /** Frames carry all a client accumulates from the lines but the comments. */
  lemma {:induction false} HearsTheLines(c: Client, lines: seq<Line>, sp: Spelling, reader: Reader, read: ChatIngress.ReadArgs)
    requires ReadsBack(reader, sp) && forall l <- lines :: !l.Whole?
    ensures Hear(c, FramesOf(Spell(sp, lines)), reader, read) == Accumulate(c, lines, read).(notes := c.notes)
    decreases |lines|
  {
    hide ClientFrame, EventName;
    if lines != [] {
      var l, spelt := lines[0], Spell(sp, lines);
      assert spelt[1..] == Spell(sp, lines[1..]) && l in lines;
      var rest := FramesOf(spelt[1..]);
      match l
      case Data(f) =>
        var frame := Sse.Frame(Some(Ascii(EventName(f))), sp.frame(f), None);
        assert FramesOf(spelt) == [frame] + rest && ([frame] + rest)[1..] == rest;
        HearsTheLines(ClientFrame(c, f, read), lines[1..], sp, reader, read);
        FrameIgnoresNotes(c, c.notes, f, read);
      case Note(name) =>
        assert FramesOf(spelt) == rest;
        HearsTheLines(c, lines[1..], sp, reader, read);
        AccumulateIgnoresNotes(c, c.notes + [name], lines[1..], read);
    }
  }

  lemma {:induction false} AccumulateIgnoresNotes(c: Client, notes: seq<string>, lines: seq<Line>, read: ChatIngress.ReadArgs)
    ensures Accumulate(c.(notes := notes), lines, read).(notes := []) == Accumulate(c, lines, read).(notes := [])
    decreases |lines|
  {
    hide ClientFrame;
    if lines != [] {
      match lines[0]
      case Note(name) => AccumulateIgnoresNotes(c.(notes := c.notes + [name]), notes + [name], lines[1..], read);
      case Data(f) =>
        FrameIgnoresNotes(c, notes, f, read);
        AccumulateIgnoresNotes(ClientFrame(c, f, read), notes, lines[1..], read);
      case Whole(_, _) => AccumulateIgnoresNotes(c, notes, lines[1..], read);
    }
  }

  lemma {:induction false} FrameIgnoresNotes(c: Client, notes: seq<string>, f: Frame, read: ChatIngress.ReadArgs)
    ensures ClientFrame(c.(notes := notes), f, read) == ClientFrame(c, f, read).(notes := notes)
    ensures ClientFrame(c, f, read).notes == c.notes
  {
    hide Finished, PartDelta;
  }

  /** What a stream client assembled, against the body of the aggregate shape; usage apart, which
      `LateUsageIsMissed` settles. */
  predicate Spells(c: Client, body: Body, headed: bool) {
    match body
    case Failure(e) => c.error == Some(e) && !c.stopped
    case Success(id, model, content, reason, details, _) =>
      && c.error == None && c.stopped
      && c.content == content && c.reason == reason && c.details == details
      && (headed ==> c.head == Some((id, model)))
  }

  lemma {:induction false} BodyAlone(sp: Spelling, body: Body, adaptations: seq<string>)
    ensures Written(Spell(sp, [Whole(body, adaptations)])) == sp.body(body, adaptations)
  {
    var spelt := SpeltBody(sp.body(body, adaptations));
    assert Spell(sp, [Whole(body, adaptations)]) == [spelt] && [spelt][1..] == [];
  }

  /** From the socket to the message. The body of a whole streamed turn decodes, cut anywhere and
      framed by this repository's own framer, to exactly the frames the fold wrote; and what a
      client assembles from them is the message the aggregate response of the same turn carries
      as its body. */
  lemma {:induction false} StreamedTurnIsHeard(
    events: seq<Event>, read: ChatIngress.ReadArgs, sp: Spelling, reader: Reader, created: nat, model: string,
    adaptations: seq<string>, cut: seq<Bytes>)
    requires End !in events && JsonText(sp) && ReadsBack(reader, sp)
    requires
      var pieces := Pieces(Fresh(true, created, model, adaptations), events + [End], read, sp);
      Began(pieces) <= 65535 && Http.Dechunk(Http.Coded(Said(pieces))) == Some((Flatten(cut), []))
    ensures
      var sse := Run(Out(Fresh(true, created, model, adaptations), []), events + [End], read);
      var agg := Run(Out(Fresh(false, created, model, adaptations), []), events + [End], read);
      var frames := Sse.WholeParse(Sse.SseBlocks, Flatten(cut));
      && frames == FramesOf(Spell(sp, sse.lines))
      && Spells(Hear(EMPTY_CLIENT, frames, reader, read), BodyOf(agg.st), Opened(events))
      && Written(Spell(sp, agg.lines)) == sp.body(BodyOf(agg.st), adaptations)
  {
    hide Pieces, Said, Began, Response, Http.Dechunk, Http.Coded, Run, Spell, Written, Sse.WholeParse, ReadsAs,
         JsonText, ReadsBack, Hear, FramesOf;
    var st := Fresh(true, created, model, adaptations);
    TurnReadsBack(st, events, read, sp);
    RunStreams(Out(st, []), events + [End], read);
    var lines := Run(Out(st, []), events + [End], read).lines;
    SpelledStreams(sp, lines);
    WrittenLinesReadBack(Spell(sp, lines));
    HearsTheLines(EMPTY_CLIENT, lines, sp, reader, read);
    AggregateIsStreamAccumulated(events, read, created, model, adaptations);
    var agg := Run(Out(Fresh(false, created, model, adaptations), []), events + [End], read);
    BodyAlone(sp, BodyOf(agg.st), adaptations);
  }
}
