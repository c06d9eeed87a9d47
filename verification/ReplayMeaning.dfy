/** The replay round trip said from the turn's events (src/ingress/state.rs:169-213,
    src/ingress/reinject.rs): what a turn parked comes back when its echo does. */
module ReplayMeaning {
  import opened Base
  import opened Canonical
  import opened ChatIngress
  import opened TurnEvents
  import opened ChatMeaning
  import opened Replay

  /** The reasoning among some blocks, in order. */
  function Reasoning(blocks: seq<Content>): seq<Content> {
    if blocks == [] then []
    else Reasoning(Front(blocks)) + if Last(blocks).Thinking? || Last(blocks).RedactedThinking? then [Last(blocks)] else []
  }

  lemma {:induction false} LeadIsReasoning(blocks: seq<Content>)
    ensures Lead(blocks) == Reasoning(blocks)
  {
    if blocks != [] {
      assert blocks == Front(blocks) + [Last(blocks)];
      LeadIsReasoning(Front(blocks));
      LeadSnoc(Front(blocks), Last(blocks));
    }
  }

  // ----- the echo -----

  function TextOf(content: seq<Content>): seq<string> {
    if content == [] then [] else TextOf(Front(content)) + if Last(content).Text? then [Last(content).text] else []
  }

  lemma {:induction false} TurnTextSnoc(content: seq<Content>, c: Content)
    ensures TurnText(content + [c]) == TurnText(content) + (if c.Text? then c.text else "")
    ensures ToolIds(content + [c]) == ToolIds(content) + if c.ToolCall? then [c.id] else []
  {
    if content == [] {
      assert content + [c] == [c] && [c][1..] == [];
    } else {
      assert (content + [c])[1..] == content[1..] + [c];
      TurnTextSnoc(content[1..], c);
    }
  }

  lemma {:induction false} TurnTextIs(content: seq<Content>)
    ensures TurnText(content) == Flatten(TextOf(content))
    ensures forall id :: id in ToolIds(content) <==> exists c <- content :: c.ToolCall? && c.id == id
  {
    if content != [] {
      var front, last := Front(content), Last(content);
      assert content == front + [last];
      TurnTextIs(front);
      TurnTextSnoc(front, last);
      if last.Text? {
        FlattenSnoc(TextOf(front), last.text);
      } else {
        assert TextOf(front) + [] == TextOf(front) && TurnText(front) + "" == TurnText(front);
      }
      forall id
        ensures id in ToolIds(content) <==> exists c <- content :: c.ToolCall? && c.id == id
      {
        assert forall c <- content :: c in front || c == last;
        assert forall c <- front :: c in content;
        if last.ToolCall? && last.id == id {
          assert last in content;
        }
      }
    }
  }

  predicate HasTool(events: seq<Event>, id: string) {
    exists t: nat :: t < |ToolStarts(events)| && events[Nth(events, t)].kind.id == id
  }

  /** The turn as the client echoes it: the text it was told, and tool calls for exactly the ids it
      was given. */
  ghost predicate Echo(events: seq<Event>, content: seq<Content>) {
    && Flatten(TextOf(content)) == Flatten(TextDeltas(events))
    && forall id :: (exists c <- content :: c.ToolCall? && c.id == id) <==> HasTool(events, id)
  }

  /** Some key the turn is parked under can name a file. */
  ghost predicate NamesAFile(events: seq<Event>, key: string -> string) {
    if ToolStarts(events) == [] then Stashable(key(Flatten(TextDeltas(events))))
    else exists t: nat :: t < |ToolStarts(events)| && Stashable(events[Nth(events, t)].kind.id)
  }

  predicate DistinctIds(events: seq<Event>) {
    forall t, u :: 0 <= t < u < |ToolStarts(events)| ==> events[Nth(events, t)].kind.id != events[Nth(events, u)].kind.id
  }

  lemma {:induction false} IdAt(st: State, events: seq<Event>, t: nat)
    requires ToolsSpell(st, events) && t < |st.tools|
    ensures |ToolStarts(events)| == |st.tools| && st.tools[t].id == events[Nth(events, t)].kind.id
  {
    assert st.tools[t] == ToolAt(events, Nth(events, t));
  }

  lemma {:induction false} ToolFold(st: State, events: seq<Event>, id: string)
    requires ToolsSpell(st, events)
    ensures HasTool(events, id) <==> exists t <- st.tools :: t.id == id
    ensures HasTool(events, id) <==> exists k <- ToolMap(st.tools) :: ToolMap(st.tools)[k].id == id
  {
    hide ToolStarts, ToolAt;
    var tools := ToolMap(st.tools);
    if HasTool(events, id) {
      var t: nat :| t < |ToolStarts(events)| && events[Nth(events, t)].kind.id == id;
      IdAt(st, events, t);
      assert st.tools[t] in st.tools && t in tools && tools[t].id == id;
    }
    if t :| t in st.tools && t.id == id {
      var i :| 0 <= i < |st.tools| && st.tools[i] == t;
      IdAt(st, events, i);
    }
    if k :| k in tools && tools[k].id == id {
      IdAt(st, events, k);
    }
  }

  lemma {:induction false} EchoEchoes(st: State, events: seq<Event>, client: Client, content: seq<Content>)
    requires ToolsSpell(st, events) && st.text == Flatten(TextDeltas(events))
    requires client.content == st.text && client.tools == ToolMap(st.tools) && Echo(events, content)
    ensures Echoes(client, content)
  {
    TurnTextIs(content);
    hide TurnText, ToolIds, TextOf, TextDeltas, HasTool, ToolsSpell, ToolMap;
    var ids := ToolIds(content);
    forall id
      ensures id in ids <==> exists k <- client.tools :: client.tools[k].id == id
    {
      ToolFold(st, events, id);
    }
    if client.tools != map[] {
      var k :| k in client.tools;
      assert client.tools[k].id in ids;
    }
    if ids != [] {
      assert ids[0] in ids;
    }
  }

  lemma {:induction false} NamesIsJoinable(st: State, events: seq<Event>, key: string -> string)
    requires ToolsSpell(st, events) && st.text == Flatten(TextDeltas(events)) && NamesAFile(events, key)
    ensures Joinable(st, key)
  {
    hide Stashable, TextDeltas;
    if ToolStarts(events) != [] {
      var t: nat :| t < |ToolStarts(events)| && Stashable(events[Nth(events, t)].kind.id);
      assert st.tools[t] == ToolAt(events, Nth(events, t)) && st.tools[t] in st.tools;
    }
  }

  lemma {:induction false} DistinctFold(st: State, events: seq<Event>)
    requires ToolsSpell(st, events) && DistinctIds(events)
    ensures Distinct(st.tools)
  {
    hide ToolStarts;
    forall i, j | 0 <= i < j < |st.tools|
      ensures st.tools[i].id != st.tools[j].id
    {
      assert st.tools[i] == ToolAt(events, Nth(events, i)) && st.tools[j] == ToolAt(events, Nth(events, j));
    }
  }

  // ----- the round trip -----

  /** A call of the echo with the signature its block carried, if it carried one. */
  ghost predicate Resigned(events: seq<Event>, echoed: Content, back: Content) {
    if echoed.ToolCall? then
      forall t: nat :: t < |ToolStarts(events)| && events[Nth(events, t)].kind.id == echoed.id ==>
        back == match Carried(events, Nth(events, t), SignChannel)
                case Some(s) => ToolCall(echoed.id, echoed.name, echoed.input, Some(s))
                case None => echoed
    else back == echoed
  }

  /** Events the end does not change. */
  lemma {:induction false} EndStays(events: seq<Event>, read: ReadArgs)
    ensures Parked(events + [End], read) == Parked(events, read)
    ensures TextDeltas(events + [End]) == TextDeltas(events) && LastError(events + [End]) == LastError(events)
    ensures ToolStarts(events + [End]) == ToolStarts(events)
  {
    Snoc(events, End);
    assert Parked(events, read) + [] == Parked(events, read) && TextDeltas(events) + [] == TextDeltas(events);
    assert ToolStarts(events) + [] == ToolStarts(events);
  }

  lemma {:induction false} FoldOfWholeTurn(st: State, events: seq<Event>, env: Env)
    requires st == Fresh(st.stream, st.includeUsage, st.created, st.fallbackModel, st.adaptations)
    ensures
      var st' := Run(Out(st, []), events + [End], env).st;
      && ToolsSpell(st', events) && st'.text == Flatten(TextDeltas(events)) && st'.blocks == Parked(events, env.read)
      && (st'.error == None <==> LastError(events) == None)
  {
    TurnSpells(st, events + [End], env);
    var st' := Run(Out(st, []), events + [End], env).st;
    EndStays(events, env.read);
    hide Run, TextDeltas, Parked, ToolAt, SlotsSpell, LastError, LastUsage, LastReason, LastHead, Explanations;
    forall t: nat | t < |st'.tools|
      ensures st'.tools[t] == ToolAt(events, Nth(events, t))
    {
      ToolStays(events, End, t);
    }
  }

  /** A turn on either shape, balanced and with distinct tool ids, that parked something under a
      key that can name a file: its echo comes back led by the reasoning it parked, in order, with
      everything else in place, and every call bearing the signature its block carried. */
  lemma {:induction false} EchoedTurnComesBack(
    stream: bool, events: seq<Event>, env: Env, includeUsage: bool, created: nat, model: string, adaptations: seq<string>,
    stash: Stash, content: seq<Content>)
    requires End !in events && Balanced(events) && DistinctIds(events)
    requires stream || LastError(events) == None
    requires Parked(events, env.read) != [] && NamesAFile(events, env.key) && Echo(events, content)
    requires Holds(stash, Run(Out(Fresh(stream, includeUsage, created, model, adaptations), []), events + [End], env).st.stash)
    ensures
      var turn, lead := Joined(stash, env.key, Message(Assistant, content)).content, Reasoning(Parked(events, env.read));
      && |turn| == |lead| + |content| && turn[..|lead|] == lead
      && forall j :: 0 <= j < |content| ==> Resigned(events, content[j], turn[|lead| + j])
  {
    hide Run, Received, Joinable, Holds, Echoes, Echo, NamesAFile, Lead, RestoreAll, Joined, Parked, TextDeltas,
         LastError, ToolMap, Balanced;
    var st := Fresh(stream, includeUsage, created, model, adaptations);
    var out := Run(Out(st, []), events + [End], env);
    FoldOfWholeTurn(st, events, env);
    ReceivedIsFolded(stream, events, env, includeUsage, created, model, adaptations);
    EchoEchoes(out.st, events, Received(stream, out.lines), content);
    NamesIsJoinable(out.st, events, env.key);
    DistinctFold(out.st, events);
    ReplayRoundTrip(stream, events, env, includeUsage, created, model, adaptations, stash, content);
    LeadIsReasoning(out.st.blocks);
    var turn, lead := Joined(stash, env.key, Message(Assistant, content)).content, Reasoning(Parked(events, env.read));
    var rest := RestoreAll(out.st.blocks, content);
    assert turn == lead + rest;
    forall j | 0 <= j < |content|
      ensures Resigned(events, content[j], turn[|lead| + j])
    {
      assert turn[|lead| + j] == rest[j] == Restore(out.st.blocks, content[j]);
      RestoredIsResigned(out.st, events, content[j]);
    }
  }

  lemma {:induction false} RestoredIsResigned(st: State, events: seq<Event>, c: Content)
    requires ToolsSpell(st, events) && forall t <- st.tools :: SigIn(st.blocks, t.id) == t.signature
    ensures Resigned(events, c, Restore(st.blocks, c))
  {
    hide SigIn, Carried, ToolStarts;
    if c.ToolCall? {
      forall t: nat | t < |ToolStarts(events)| && events[Nth(events, t)].kind.id == c.id
        ensures Restore(st.blocks, c) ==
          match Carried(events, Nth(events, t), SignChannel)
          case Some(s) => ToolCall(c.id, c.name, c.input, Some(s))
          case None => c
      {
        assert st.tools[t] == ToolAt(events, Nth(events, t)) && st.tools[t] in st.tools;
      }
    }
  }
}
