/** One masquerade turn of the chat-completions dialect (src/run/masq/mod.rs:115-175): the
    encoder's lines, event by event, onto the HTTP responder, and what the client makes of the
    result, from the socket's bytes up to the message it assembles. */
module MasqTurn {
  import opened Base
  import opened Canonical
  import opened ChatIngress
  import opened HttpResponses
  import opened IngressEncoder
  import opened MasqWire
  import opened SseWire

  /** How names, chunks and bodies are spelt: the JSON text is the serializer's. */
  datatype Spelling = Spelling(note: string -> Bytes, chunk: ChatChunk -> Bytes, body: (ChatBody, seq<string>) -> Bytes)

  /** The bytes of "[DONE]". */
  const DONE: Bytes := [91, 68, 79, 78, 69, 93]

  /** src/ingress/openai_chat/chunks.rs:61-79: every frame is one data line. */
  function SpeltAs(sp: Spelling, l: Line): Spelt {
    match l
    case Note(name) => SpeltNote(sp.note(name))
    case Data(chunk) => SpeltFrame(None, sp.chunk(chunk))
    case DoneLine => SpeltFrame(None, DONE)
    case Whole(body, adaptations) => SpeltBody(sp.body(body, adaptations))
  }

  function Spell(sp: Spelling, lines: seq<Line>): (spelt: seq<Spelt>)
    ensures |spelt| == |lines|
    ensures forall i :: 0 <= i < |lines| ==> spelt[i] == SpeltAs(sp, lines[i])
  {
    seq(|lines|, i requires 0 <= i < |lines| => SpeltAs(sp, lines[i]))
  }

  /** Compact JSON text: control characters are escaped, so it fits on a line; names have none. */
  ghost predicate JsonText(sp: Spelling) {
    && (forall name :: LF !in sp.note(name))
    && (forall chunk :: OneLine(sp.chunk(chunk)))
    && (forall body, adaptations :: sp.body(body, adaptations) != [])
  }

  /** `IngressState::status` (src/ingress/state.rs:143-145). */
  function Status(st: State): nat {
    if st.status.Some? then st.status.value else 200
  }

  function Pieces(st: State, events: seq<Event>, env: Env, sp: Spelling): seq<Piece>
    requires SlotsFit(st)
    decreases |events|
  {
    if events == [] then []
    else
      var o := Step(Out(st, []), events[0], env);
      [Piece(Status(o.st), Written(Spell(sp, o.lines)))] + Pieces(o.st, events[1..], env, sp)
  }

  /** One masquerade turn: encode each event, put its bytes on the wire, then hand over the
      replay pairs and end the response. A write failure ends the turn at once, before any pair
      is handed over. */
  method Turn(events: seq<Event>, env: Env, sp: Spelling, state: IngressState, r: HttpRespond)
    returns (ok: bool, parked: seq<Pair>)
    requires SlotsFit(state.View())
    requires OnWire(r, false, state.stream, [])
    modifies state, r, r.w
    ensures
      var start, sse := old(state.View()), old(state.stream);
      var pieces := Pieces(start, events, env, sp);
      && r.w.received == Taken(Response(pieces, sse), r.w.room)
      && ok == (|Response(pieces, sse)| <= r.w.room)
      && parked == if |Sent(pieces, sse)| <= r.w.room then Run(Out(start, []), events, env).st.stash else []
  {
    hide Step, Run, Pieces, Response, Sent, Said, Began, Written, Spell, Coded, BodyHead;
    ghost var start := state.View();
    ghost var pieces := Pieces(start, events, env, sp);
    var sse := state.stream;
    ghost var done: seq<Piece> := [];
    var begun := false;
    var i := 0;
    assert events[0..] == events && [] + pieces == pieces;
    while i < |events|
      invariant i <= |events| && SlotsFit(state.View())
      invariant OnWire(r, begun, sse, done)
      invariant done + Pieces(state.View(), events[i..], env, sp) == pieces
      invariant Run(Out(state.View(), []), events[i..], env).st == Run(Out(start, []), events, env).st
    {
      ghost var before := state.View();
      var lines := state.Encode(events[i], env);
      var p := Piece(Status(state.View()), Written(Spell(sp, lines)));
      TurnStep(before, events, i, env, sp);
      ghost var rest := Pieces(state.View(), events[i + 1..], env, sp);
      assert done + ([p] + rest) == done + [p] + rest;
      begun, ok := Put(p, begun, sse, r, done, rest);
      if !ok {
        SentFits(done + [p], rest, sse, r.w.room);
        return false, [];
      }
      done := done + [p];
      i := i + 1;
    }
    NothingLeft(state.View(), events[i..], env, sp);
    assert done + [] == done;
    parked := state.TakeStash();
    Ends(pieces, sse);
    ok := r.End();
  }

  lemma {:induction false} NothingLeft(st: State, events: seq<Event>, env: Env, sp: Spelling)
    requires SlotsFit(st) && events == []
    ensures Pieces(st, events, env, sp) == [] && Run(Out(st, []), events, env).st == st
  {
  }

  /** The error envelope of a request refused at the edge. */
  function EdgeBody(e: CanonicalError, sp: Spelling): Bytes {
    var status := HttpStatus(e.kind);
    sp.body(Failure(Envelope(status, e.message, ErrorType(status))), [])
  }

  lemma {:induction false} EdgeFold(st: State, e: CanonicalError, env: Env)
    requires !st.stream && SlotsFit(st) && st.adaptations == []
    ensures
      var failed := Step(Out(st, []), Error(e), env);
      var status := HttpStatus(e.kind);
      && failed.lines == [] && failed.st.status == Some(status)
      && Step(Out(failed.st, []), End, env).lines == [Whole(Failure(Envelope(status, e.message, ErrorType(status))), [])]
      && Step(Out(failed.st, []), End, env).st.status == Some(status)
  {
    hide TurnPairs, ErrorType, Frame;
  }

  /** The error and the end, encoded for a request that never parsed. */
  method Refuse(e: CanonicalError, env: Env, sp: Spelling, now: nat) returns (status: nat, body: Bytes)
    ensures status == HttpStatus(e.kind) && body == EdgeBody(e, sp)
  {
    hide Step;
    var req := new Request(None, "", map[]);
    var state := new IngressState.ForRequest(req, [], now);
    EdgeFold(state.View(), e, env);
    var failed := state.Encode(Error(e), env);
    var ended := state.Encode(End, env);
    assert Spell(sp, failed) == [] && Spell(sp, ended) == [SpeltBody(EdgeBody(e, sp))];
    assert [SpeltBody(EdgeBody(e, sp))][1..] == [];
    body := Written(Spell(sp, failed)) + Written(Spell(sp, ended));
    status := Status(state.View());
  }

  /** A request refused before any turn: always the aggregate shape, under the error's own status. */
  method Edge(e: CanonicalError, env: Env, sp: Spelling, now: nat, r: HttpRespond) returns (ok: bool)
    requires OnWire(r, false, false, [])
    modifies r, r.w
    ensures
      var body := EdgeBody(e, sp);
      var response := BodyHead(HttpStatus(e.kind), |body|) + body;
      r.w.received == Taken(response, r.w.room) && ok == (|response| <= r.w.room)
  {
    hide BodyHead, Taken, EdgeBody, HttpStatus;
    var status, body := Refuse(e, env, sp, now);
    ok := AnswerWhole(status, body, r);
  }

  lemma {:induction false} TurnStep(st: State, events: seq<Event>, i: nat, env: Env, sp: Spelling)
    requires SlotsFit(st) && i < |events|
    ensures
      var o := Step(Out(st, []), events[i], env);
      && Pieces(st, events[i..], env, sp)
      == [Piece(Status(o.st), Written(Spell(sp, o.lines)))] + Pieces(o.st, events[i + 1..], env, sp)
      && Run(Out(st, []), events[i..], env).st == Run(Out(o.st, []), events[i + 1..], env).st
  {
    hide Step, Written, Spell;
    assert events[i..][1..] == events[i + 1..];
    var o := Step(Out(st, []), events[i], env);
    RunAppends(o, events[i + 1..], env);
  }

  /** A run only appends to what was written before it. */
  lemma {:induction false} RunAppends(o: Out, events: seq<Event>, env: Env)
    requires SlotsFit(o.st)
    ensures
      var alone := Run(Out(o.st, []), events, env);
      Run(o, events, env) == Out(alone.st, o.lines + alone.lines)
    decreases |events|
  {
    hide Step;
    if events == [] {
      assert o.lines + [] == o.lines;
    } else {
      StepAppends(o, events[0], env);
      var first := Step(Out(o.st, []), events[0], env);
      RunAppends(Step(o, events[0], env), events[1..], env);
      RunAppends(first, events[1..], env);
      var rest := Run(Out(first.st, []), events[1..], env);
      assert o.lines + first.lines + rest.lines == o.lines + (first.lines + rest.lines);
    }
  }

  // ----- what the client finds -----

  lemma {:induction false} SpellAppend(sp: Spelling, a: seq<Line>, b: seq<Line>)
    ensures Spell(sp, a + b) == Spell(sp, a) + Spell(sp, b)
  {
  }

  lemma {:induction false} SpellTidy(sp: Spelling, lines: seq<Line>)
    requires JsonText(sp)
    ensures forall s <- Spell(sp, lines) :: Tidy(s)
  {
    forall i | 0 <= i < |lines|
      ensures Tidy(Spell(sp, lines)[i])
    {
    }
  }

  lemma {:induction false} LinesSay(sp: Spelling, lines: seq<Line>)
    requires JsonText(sp) && lines != []
    ensures Written(Spell(sp, lines)) != []
  {
    SpellTidy(sp, lines);
    assert Spell(sp, lines)[0] in Spell(sp, lines);
    TidySays(Spell(sp, lines)[0]);
    hide BytesOf;
  }

  /** Skipping the silent pieces loses nothing: the pieces are the lines of the fold. */
  lemma {:induction false} SaidIsText(st: State, events: seq<Event>, env: Env, sp: Spelling)
    requires SlotsFit(st)
    ensures Flatten(Said(Pieces(st, events, env, sp))) == Written(Spell(sp, Run(Out(st, []), events, env).lines))
    decreases |events|
  {
    hide Step;
    if events != [] {
      var o := Step(Out(st, []), events[0], env);
      SaidIsText(o.st, events[1..], env, sp);
      RunAppends(o, events[1..], env);
      var rest := Run(Out(o.st, []), events[1..], env).lines;
      SpellAppend(sp, o.lines, rest);
      WrittenAppend(Spell(sp, o.lines), Spell(sp, rest));
      SaidFirst(Piece(Status(o.st), Written(Spell(sp, o.lines))), Pieces(o.st, events[1..], env, sp));
      hide Pieces, Written, Spell, Said, Run;
    }
  }

  /** The end always says something, so every turn begins a response. */
  lemma {:induction false} EndSays(st: State, events: seq<Event>, env: Env, sp: Spelling)
    requires SlotsFit(st)
    requires JsonText(sp)
    ensures Said(Pieces(st, events + [End], env, sp)) != []
  {
    hide Pieces, Said;
    SaidIsText(st, events + [End], env, sp);
    RunAppend(Out(st, []), events, [End], env);
    var mid := Run(Out(st, []), events, env);
    hide Run;
    EndWrites(mid, env);
    var lines := Run(Out(st, []), events + [End], env).lines;
    LinesSay(sp, lines);
  }

  lemma {:induction false} EndWrites(o: Out, env: Env)
    requires SlotsFit(o.st)
    ensures Run(o, [End], env).lines != []
    ensures !o.st.stream && o.lines == [] ==> |Run(o, [End], env).lines| == 1
  {
    hide TurnPairs, BodyOf;
    assert [End][1..] == [];
    assert Run(o, [End], env) == Step(o, End, env);
  }

  /** An aggregate says everything at the end, under the status the whole turn came to. */
  lemma {:induction false} AggregateStatus(st: State, events: seq<Event>, env: Env, sp: Spelling)
    requires SlotsFit(st) && !st.stream && End !in events
    requires JsonText(sp)
    ensures Began(Pieces(st, events + [End], env, sp)) == Status(Run(Out(st, []), events + [End], env).st)
    decreases |events|
  {
    var all := events + [End];
    hide Step;
    var o := Step(Out(st, []), all[0], env);
    RunAppends(o, all[1..], env);
    if events == [] {
      assert all == [End] && all[1..] == [];
      assert Run(Out(st, []), all, env) == o;
      EndWrites(Out(st, []), env);
    } else {
      assert all[1..] == events[1..] + [End] && all[0] == events[0];
      AggregateIsSilent(Out(st, []), [all[0]], env);
      assert [all[0]][1..] == [];
      assert Run(Out(st, []), [all[0]], env) == o;
      StepKeepsKnobs(Out(st, []), all[0], env);
      AggregateStatus(o.st, events[1..], env, sp);
    }
  }

  /** A whole turn reads back on either shape: the head carries the status in force when the
      response began, which for an aggregate is the status the turn came to, and behind it, in
      chunks that decode or as the body, stand exactly the lines the fold wrote. */
  lemma {:induction false} TurnReadsBack(st: State, events: seq<Event>, env: Env, sp: Spelling)
    requires SlotsFit(st) && End !in events
    requires JsonText(sp)
    requires Began(Pieces(st, events + [End], env, sp)) <= 65535
    ensures
      var out := Run(Out(st, []), events + [End], env);
      var pieces := Pieces(st, events + [End], env, sp);
      if st.stream then
        && ReadsAs(Response(pieces, true), Began(pieces), Coded(Said(pieces)))
        && Dechunk(Coded(Said(pieces))) == Some((Written(Spell(sp, out.lines)), []))
      else ReadsAs(Response(pieces, false), Status(out.st), Written(Spell(sp, out.lines)))
  {
    hide Pieces, Said, Began, SseHead, BodyHead, Dechunk, Coded, Run, Written, Spell, Step, ReadsAs;
    EndSays(st, events, env, sp);
    SaidIsText(st, events + [End], env, sp);
    var pieces := Pieces(st, events + [End], env, sp);
    if st.stream {
      StreamReadsAs(Began(pieces), Said(pieces));
    } else {
      AggregateStatus(st, events, env, sp);
      BodyReadsAs(Began(pieces), Flatten(Said(pieces)));
    }
  }
}
