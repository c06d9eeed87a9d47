/** The mutable half of the messages-dialect encoder, updated field by field per event and
    proved against the fold of module AnthIngress (src/ingress/anthropic_messages/encode.rs). */
module AnthEncoder {
  import opened Base
  import opened Canonical
  import opened AnthIngress
  import ChatIngress

  class AnthState {
    var stream: bool
    var created: nat
    var fallbackModel: string
    var id: Option<string>
    var model: Option<string>
    var pending: seq<string>
    var adaptations: seq<string>
    var open: map<nat, Block>
    var content: seq<WireBlock>
    var usage: Counters
    var stopReason: Option<string>
    var stopDetails: Option<Details>
    var error: Option<Envelope>
    var status: Option<nat>

    function View(): State
      reads this
    {
      State(stream, created, fallbackModel, id, model, pending, adaptations, open, content, usage,
            stopReason, stopDetails, error, status)
    }

    constructor (stream: bool, created: nat, fallbackModel: string, adaptations: seq<string>)
      ensures View() == Fresh(stream, created, fallbackModel, adaptations)
    {
      this.stream, this.created, this.fallbackModel := stream, created, fallbackModel;
      id, model, pending, this.adaptations := None, None, adaptations, adaptations;
      open, content, usage := map[], [], NO_COUNTERS;
      stopReason, stopDetails, error, status := None, None, None, None;
    }

    /** Drain the pending names into comment lines and write the frame, on the stream shape. */
    method EmitFrame(frame: Frame) returns (lines: seq<Line>)
      modifies this`pending
      ensures lines == if stream then Notes(old(pending)) + [Data(frame)] else []
      ensures pending == if stream then [] else old(pending)
    {
      if !stream {
        return [];
      }
      lines := [];
      var i := 0;
      while i < |pending|
        invariant i <= |pending| && lines == Notes(pending[..i])
      {
        lines := lines + [Note(pending[i])];
        i := i + 1;
      }
      assert pending[..i] == pending;
      pending := [];
      lines := lines + [Data(frame)];
    }

    method StartBlock(index: nat, kind: ContentKind) returns (lines: seq<Line>)
      modifies this`open, this`pending
      ensures Tells(old(View()), View(), lines, Start(old(View()), index, kind))
    {
      var (block, shape) := OpenBlock(kind);
      open := open[index := block];
      lines := [];
      if shape.Some? {
        lines := EmitFrame(BlockStart(index, shape.value));
      }
    }

    method AddFragment(index: nat, delta: Delta) returns (lines: seq<Line>)
      modifies this`open, this`pending
      ensures Tells(old(View()), View(), lines, Fragment(old(View()), index, delta))
    {
      lines := [];
      if index in open {
        match Grow(open[index], delta)
        case Some((block, d)) =>
          open := open[index := block];
          lines := EmitFrame(BlockDelta(index, d));
        case None =>
      }
    }

    method StopBlock(index: nat, read: ChatIngress.ReadArgs) returns (lines: seq<Line>)
      modifies this`open, this`content, this`pending
      ensures Tells(old(View()), View(), lines, Close(old(View()), index, read))
    {
      lines := [];
      if index in open {
        var block := open[index];
        open := open - {index};
        match FinishBlock(block, read)
        case Some(wire) =>
          content := content + [wire];
          lines := EmitFrame(BlockStop(index));
        case None =>
      }
    }

    method AddUsage(u: Counters)
      modifies this`usage
      ensures usage == MergeUsage(old(usage), u)
    {
      if u.inputTokens.Some? {
        usage := usage.(inputTokens := u.inputTokens);
      }
      if u.outputTokens.Some? {
        usage := usage.(outputTokens := u.outputTokens);
      }
      if u.cacheReadTokens.Some? {
        usage := usage.(cacheReadTokens := u.cacheReadTokens);
      }
      if u.cacheWriteTokens.Some? {
        usage := usage.(cacheWriteTokens := u.cacheWriteTokens);
      }
      if u.inputTotalTokens.Some? {
        usage := usage.(inputTotalTokens := u.inputTotalTokens);
      }
    }

    method FailWith(e: CanonicalError) returns (lines: seq<Line>)
      modifies this`status, this`error, this`pending
      ensures
        var code := HttpStatus(e.kind);
        var envelope := Envelope(ErrorType(code), e.message);
        Tells(old(View()), View(), lines,
              Told(old(View()).(status := Some(code), error := Some(envelope)), Some(ErrorFrame(envelope))))
    {
      var code := HttpStatus(e.kind);
      var envelope := Envelope(ErrorType(code), e.message);
      status := Some(code);
      lines := EmitFrame(ErrorFrame(envelope));
      error := Some(envelope);
    }

    method Encode(ev: Event, read: ChatIngress.ReadArgs) returns (lines: seq<Line>)
      modifies this
      ensures Out(View(), lines) == Step(Out(old(View()), []), ev, read)
    {
      hide Start, Fragment, Close, HttpStatus, ErrorType, Decimal, MergeUsage, UsageJson, StopReason;
      ghost var was := View();
      lines := [];
      match ev {
        case MessageStart(id, model) =>
          this.id, this.model := id, model;
          lines := EmitFrame(MessageStartFrame(WireId(View()), WireModel(View()), UsageJson(usage)));
        case ContentStart(index, kind) => lines := StartBlock(index, kind);
        case ContentDelta(index, delta) => lines := AddFragment(index, delta);
        case ContentStop(index) => lines := StopBlock(index, read);
        case UsageEvent(u) => AddUsage(u);
        case Finish(reason) =>
          var (said, details) := StopReason(reason);
          stopReason, stopDetails := Some(said), details;
          lines := EmitFrame(MessageDelta(stopReason, stopDetails, UsageJson(usage)));
        case Error(e) => lines := FailWith(e);
        case End =>
          if !stream {
            lines := [Whole(BodyOf(View()), adaptations)];
          } else if error.None? {
            lines := EmitFrame(MessageStop);
          }
        case Raw(_) =>
        case OtherEvent =>
      }
      if stream || !ev.End? {
        assert Tells(was, View(), lines, Fold(was, ev, read));
        TellsIsStep(was, ev, read, View(), lines);
      }
    }

    method EncodeAll(events: seq<Event>, read: ChatIngress.ReadArgs) returns (lines: seq<Line>)
      modifies this
      ensures Out(View(), lines) == Run(Out(old(View()), []), events, read)
    {
      hide Step, Run;
      lines := [];
      var i := 0;
      ghost var start := Out(View(), []);
      RunNothing(start, events, read);
      while i < |events|
        invariant i <= |events|
        invariant Out(View(), lines) == Run(start, events[..i], read)
      {
        ghost var before := Out(View(), lines);
        var more := Encode(events[i], read);
        StepAppends(before, events[i], read);
        lines := lines + more;
        RunSnoc(start, events, i, read);
        i := i + 1;
      }
      assert events[..i] == events;
    }
  }

  /** What one handler leaves and writes, against what the fold says it should. */
  ghost predicate Tells(was: State, now: State, lines: seq<Line>, told: Told) {
    if was.stream && told.frame.Some? then
      now == told.st.(pending := []) && lines == Notes(was.pending) + [Data(told.frame.value)]
    else now == told.st && lines == []
  }

  lemma {:induction false} TellsIsStep(was: State, ev: Event, read: ChatIngress.ReadArgs, now: State, lines: seq<Line>)
    requires Tells(was, now, lines, Fold(was, ev, read)) && (was.stream || !ev.End?)
    ensures Out(now, lines) == Step(Out(was, []), ev, read)
  {
    hide Fold, Notes;
    assert [] + Notes(was.pending) == Notes(was.pending);
  }

  lemma {:induction false} RunNothing(o: Out, events: seq<Event>, read: ChatIngress.ReadArgs)
    ensures Run(o, events[..0], read) == o
  {
  }

  lemma {:induction false} RunSnoc(o: Out, events: seq<Event>, i: nat, read: ChatIngress.ReadArgs)
    requires i < |events|
    ensures Run(o, events[..i + 1], read) == Step(Run(o, events[..i], read), events[i], read)
  {
    assert events[..i + 1] == events[..i] + [events[i]];
    RunAppend(o, events[..i], [events[i]], read);
    RunOne(Run(o, events[..i], read), events[i], read);
  }

  /** A step only appends to what was written before. */
  lemma {:induction false} StepAppends(o: Out, ev: Event, read: ChatIngress.ReadArgs)
    ensures
      var alone := Step(Out(o.st, []), ev, read);
      Step(o, ev, read) == Out(alone.st, o.lines + alone.lines)
  {
    hide Fold, Notes, BodyOf;
    var told := Fold(o.st, ev, read);
    if o.st.stream && told.frame.Some? {
      assert o.lines + ([] + Notes(o.st.pending) + [Data(told.frame.value)])
          == o.lines + Notes(o.st.pending) + [Data(told.frame.value)];
    }
    assert o.lines + [] == o.lines;
  }
}
