/** Facts that only show across components: what parks in the stash survives its JSON, what the
    chat decoder reports last a messages client is never told, and an aggregate's status is that
    of its turn's last error. */
module CrossChecks {
  import opened Base
  import opened Canonical
  import ChatIngress
  import WireSerde
  import DecodeContract
  import TurnEvents
  import ChatMeaning
  import AnthMeaning
  import MasqWire
  import MasqTurn
  import AnthTurn
  import Synth
  import AnthIngress

  // ----- the parked payload and its JSON (src/ingress/state.rs:201-213, reinject.rs:85-92) -----

  predicate Parkable(c: Content) {
    c.Thinking? || c.RedactedThinking? || c.ToolCall?
  }

  lemma {:induction false} StepParksReplayBlocks(o: ChatIngress.Out, ev: Event, env: ChatIngress.Env)
    requires ChatIngress.SlotsFit(o.st) && forall b <- o.st.blocks :: Parkable(b)
    ensures forall b <- ChatIngress.Step(o, ev, env).st.blocks :: Parkable(b)
  {
    hide ChatIngress.WireId, ChatIngress.WireModel, ChatIngress.Notes, ChatIngress.TurnPairs, ChatIngress.BodyOf;
  }

  lemma {:induction false} ParkableIsWellTagged(blocks: seq<Content>)
    requires forall b <- blocks :: Parkable(b)
    ensures WireSerde.AllWellTagged(blocks)
  {
    if blocks != [] {
      assert blocks[0] in blocks && forall b <- blocks[1..] :: b in blocks;
      ParkableIsWellTagged(blocks[1..]);
    }
  }

  /** Whatever a turn parks, its JSON reads back as the same blocks: no parked payload is ever
      lost to the reader's parse. */
  lemma {:induction false} ParkedPayloadReadsBack(o: ChatIngress.Out, events: seq<Event>, env: ChatIngress.Env)
    requires ChatIngress.SlotsFit(o.st) && forall b <- o.st.blocks :: Parkable(b)
    ensures
      var blocks := ChatIngress.Run(o, events, env).st.blocks;
      WireSerde.DeAll(WireSerde.SerAll(blocks)) == Some(blocks)
    decreases |events|
  {
    hide ChatIngress.Step, Parkable, WireSerde.SerAll, WireSerde.DeAll, WireSerde.AllWellTagged;
    if events == [] {
      ParkableIsWellTagged(o.st.blocks);
      WireSerde.AllReadBack(o.st.blocks);
    } else {
      StepParksReplayBlocks(o, events[0], env);
      ParkedPayloadReadsBack(ChatIngress.Step(o, events[0], env), events[1..], env);
    }
  }

  // ----- chat usage and the messages dialect -----

  predicate NoUsage(events: seq<Event>) {
    forall e <- events :: !e.UsageEvent?
  }

  lemma {:induction false} CallsReportNoUsage(st: Synth.Step, calls: seq<Synth.ToolPiece>)
    requires NoUsage(st.out)
    ensures NoUsage(Synth.ToolCalls(st, calls).out)
    decreases |calls|
  {
    if calls != [] {
      CallsReportNoUsage(Synth.ToolCallPiece(st, calls[0]), calls[1..]);
    }
  }

  lemma {:induction false} StopsReportNoUsage(keys: seq<nat>)
    ensures NoUsage(Stops(keys))
  {
    if keys != [] {
      StopsReportNoUsage(keys[1..]);
    }
  }

  lemma {:induction false} NothingNewToTell(t: AnthIngress.Tally, events: seq<Event>)
    requires NoUsage(events)
    ensures AnthIngress.CountAll(t, events).counters == t.counters
    decreases |events|
  {
    if events != [] {
      assert events[0] in events && forall e <- events[1..] :: e in events;
      NothingNewToTell(AnthIngress.Count(t, events[0]), events[1..]);
    }
  }

  /** The chat decoder reports usage behind the finish of its chunk, so a streaming messages
      client fed from it is told only what was known before, while the aggregate has it all. */
  lemma {:induction false} ChatUsageComesTooLate(line: Synth.Line, s: DecodeContract.DecodeState, t: AnthIngress.Tally)
    requires line.ChatChunk? && line.finish.Some?
    ensures
      var after := AnthIngress.CountAll(t, Synth.Chat(line, s).out);
      && after.told == Some(t.counters)
      && after.counters == (if line.usage.Some? then AnthIngress.MergeUsage(t.counters, line.usage.value) else t.counters)
  {
    hide AnthIngress.MergeUsage, Synth.FindKind, Sorted, Stops, Synth.ReasonOf;
    var st0 := if s.started then Synth.Step(s, [])
               else Synth.Step(s.(started := true), [MessageStart(line.id, line.model)]);
    var st1 := Synth.Lazily(st0, ThinkingKind(None), line.reasoning, ThinkingDelta(line.reasoning));
    var st2 := Synth.Lazily(st1, TextKind, line.content, TextDelta(line.content));
    assert NoUsage(st0.out) && NoUsage(st1.out) && NoUsage(st2.out);
    var st3 := st2.(state := st2.state.(refusal := st2.state.refusal + line.refusal));
    CallsReportNoUsage(st3, line.calls);
    var st4 := Synth.ToolCalls(st3, line.calls);
    StopsReportNoUsage(Sorted(st4.state.open.Keys));
    var early := st4.out + Stops(Sorted(st4.state.open.Keys));
    FinishThenUsage(t, early, Synth.ReasonOf(line.finish.value, st4.state.refusal), line.usage);
  }

  lemma {:induction false} FinishThenUsage(t: AnthIngress.Tally, early: seq<Event>, reason: FinishReason, usage: Option<Counters>)
    requires NoUsage(early)
    ensures
      var late := if usage.Some? then [UsageEvent(usage.value)] else [];
      var after := AnthIngress.CountAll(t, early + [Finish(reason)] + late);
      && after.told == Some(t.counters)
      && after.counters == (if usage.Some? then AnthIngress.MergeUsage(t.counters, usage.value) else t.counters)
    ensures early + [Finish(reason)] == early + [Finish(reason)] + []
  {
    hide AnthIngress.MergeUsage;
    var late := if usage.Some? then [UsageEvent(usage.value)] else [];
    NothingNewToTell(t, early);
    AnthIngress.CountAppend(t, early + [Finish(reason)], late);
    AnthIngress.CountAppend(t, early, [Finish(reason)]);
    assert [Finish(reason)][1..] == [];
    assert late != [] ==> late[1..] == [];
  }

  // ----- the status of an aggregate -----

  /** The status of the last error, 200 when there was none. */
  function AnswerStatus(events: seq<Event>): nat {
    match TurnEvents.LastError(events)
    case Some(e) => TurnEvents.WireStatus(e.kind)
    case None => 200
  }

  /** Of the events alone, under which status an aggregate turn of the chat dialect is answered. */
  lemma {:induction false} ChatAnswersUnder(
    events: seq<Event>, env: ChatIngress.Env, sp: MasqTurn.Spelling,
    includeUsage: bool, created: nat, model: string, adaptations: seq<string>)
    requires End !in events && MasqTurn.JsonText(sp)
    ensures
      var st := ChatIngress.Fresh(false, includeUsage, created, model, adaptations);
      MasqWire.Began(MasqTurn.Pieces(st, events + [End], env, sp)) == AnswerStatus(events)
  {
    var st := ChatIngress.Fresh(false, includeUsage, created, model, adaptations);
    hide ChatIngress.Run, MasqTurn.Pieces, MasqWire.Began, TurnEvents.WireStatus, ChatMeaning.SlotsSpell, ChatMeaning.ToolsSpell,
         ChatMeaning.BlocksSpell;
    ChatMeaning.TurnSpells(st, events + [End], env);
    MasqTurn.AggregateStatus(st, events, env, sp);
    TurnEvents.Snoc(events, End);
  }

  /** And of the messages dialect. */
  lemma {:induction false} MessagesAnswerUnder(
    events: seq<Event>, read: ChatIngress.ReadArgs, sp: AnthTurn.Spelling, created: nat, model: string, adaptations: seq<string>)
    requires End !in events && AnthTurn.JsonText(sp)
    ensures
      var st := AnthIngress.Fresh(false, created, model, adaptations);
      MasqWire.Began(AnthTurn.Pieces(st, events + [End], read, sp)) == AnswerStatus(events)
  {
    var st := AnthIngress.Fresh(false, created, model, adaptations);
    hide AnthIngress.Run, AnthTurn.Pieces, MasqWire.Began, TurnEvents.WireStatus, AnthMeaning.OpenIs,
         AnthMeaning.SpeltContent;
    AnthMeaning.TurnSpells(false, created, model, adaptations, events + [End], read);
    AnthTurn.AggregateStatus(st, events, read, sp);
    TurnEvents.Snoc(events, End);
  }
}
