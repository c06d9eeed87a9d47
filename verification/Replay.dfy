/** Re-injection of the replay stash (src/ingress/reinject.rs) and its round trip with the
    encoder: what a finished turn parks is what its echo gets back. */
module Replay {
  import opened Base
  import opened Canonical
  import opened ChatIngress

  /** A stash entry as the reader sees it: canonical blocks, or bytes that do not parse. */
  datatype Payload = Parsed(blocks: seq<Content>) | Garbage

  type Stash = map<string, Payload>

  /** A key that can be a file name (src/store/replay.rs:53-56). */
  predicate Stashable(key: string) {
    key != "" && key[0] != '.' && '/' !in key && '\\' !in key
  }

  function Recall(stash: Stash, key: string): Option<Payload> {
    if Stashable(key) && key in stash then Some(stash[key]) else None
  }

  /** The listener's writes, each failure ignored. */
  method Park(stash: Stash, pairs: seq<Pair>) returns (r: Stash)
    requires forall p, q :: p in pairs && q in pairs ==> p.payload == q.payload
    ensures Holds(r, pairs)
    ensures forall k <- stash :: (forall p <- pairs :: p.key != k) ==> k in r && r[k] == stash[k]
  {
    r := stash;
    var i := 0;
    while i < |pairs|
      invariant i <= |pairs|
      invariant forall p <- pairs[..i] :: Stashable(p.key) ==> p.key in r && r[p.key] == Parsed(p.payload)
      invariant forall k <- stash :: (forall p <- pairs :: p.key != k) ==> k in r && r[k] == stash[k]
    {
      assert pairs[i] in pairs;
      if Stashable(pairs[i].key) {
        r := r[pairs[i].key := Parsed(pairs[i].payload)];
      }
      i := i + 1;
    }
    assert pairs[..i] == pairs;
  }

  /** Every stashable pair is there; other entries may have come, gone or aged out. */
  ghost predicate Holds(stash: Stash, pairs: seq<Pair>) {
    forall p <- pairs :: Stashable(p.key) ==> p.key in stash && stash[p.key] == Parsed(p.payload)
  }

  // ----- the join -----

  function ToolIds(content: seq<Content>): seq<string> {
    if content == [] then []
    else (if content[0].ToolCall? then [content[0].id] else []) + ToolIds(content[1..])
  }

  function TurnText(content: seq<Content>): string {
    if content == [] then ""
    else (if content[0].Text? then content[0].text else "") + TurnText(content[1..])
  }

  function FirstRecall(stash: Stash, ids: seq<string>): Option<Payload> {
    if ids == [] then None
    else if Recall(stash, ids[0]).Some? then Recall(stash, ids[0])
    else FirstRecall(stash, ids[1..])
  }

  /** The payload of a turn: any echoed tool id recalls it, else the hash of its text; an
      entry that no longer parses is a miss. */
  function RecallTurn(stash: Stash, key: string -> string, content: seq<Content>): Option<seq<Content>> {
    var ids := ToolIds(content);
    var payload := if ids == [] then Recall(stash, key(TurnText(content))) else FirstRecall(stash, ids);
    if payload.Some? && payload.value.Parsed? then Some(payload.value.blocks) else None
  }

  /** A turn with tool calls recalls what the first of its ids that is stored holds; one without
      recalls what its text's key holds; and bytes that do not parse are a miss. */
  lemma {:induction false} RecallTurnIs(stash: Stash, key: string -> string, content: seq<Content>, blocks: seq<Content>)
    ensures RecallTurn(stash, key, content) == Some(blocks) <==>
      var ids := ToolIds(content);
      if ids == [] then
        var k := key(TurnText(content));
        Stashable(k) && k in stash && stash[k] == Parsed(blocks)
      else
        exists i :: 0 <= i < |ids| && Stored(stash, ids[i]) && stash[ids[i]] == Parsed(blocks)
                    && forall j :: 0 <= j < i ==> !Stored(stash, ids[j])
  {
    hide Stashable;
    FirstStored(stash, ToolIds(content));
  }

  predicate Stored(stash: Stash, id: string) {
    Stashable(id) && id in stash
  }

  lemma {:induction false} FirstStored(stash: Stash, ids: seq<string>)
    ensures FirstRecall(stash, ids) == None <==> forall i :: 0 <= i < |ids| ==> !Stored(stash, ids[i])
    ensures forall i :: 0 <= i < |ids| && Stored(stash, ids[i]) && (forall j :: 0 <= j < i ==> !Stored(stash, ids[j])) ==>
      FirstRecall(stash, ids) == Some(stash[ids[i]])
    ensures FirstRecall(stash, ids).Some? ==>
      exists i :: 0 <= i < |ids| && Stored(stash, ids[i]) && forall j :: 0 <= j < i ==> !Stored(stash, ids[j])
  {
    hide Stashable;
    if ids != [] {
      var rest := ids[1..];
      FirstStored(stash, rest);
      if Stored(stash, ids[0]) {
        assert FirstRecall(stash, ids) == Some(stash[ids[0]]);
      } else {
        assert forall i :: 0 <= i < |rest| ==> rest[i] == ids[i + 1];
        forall i | 0 <= i < |ids| && Stored(stash, ids[i]) && forall j :: 0 <= j < i ==> !Stored(stash, ids[j])
          ensures FirstRecall(stash, ids) == Some(stash[ids[i]])
        {
          assert Stored(stash, rest[i - 1]) && forall j :: 0 <= j < i - 1 ==> !Stored(stash, rest[j]);
        }
        if FirstRecall(stash, rest).Some? {
          var i :| 0 <= i < |rest| && Stored(stash, rest[i]) && forall j :: 0 <= j < i ==> !Stored(stash, rest[j]);
          assert Stored(stash, ids[i + 1]);
        }
      }
    }
  }

  /** What can be the name of a stash file: something, not hidden, and no path. */
  lemma {:induction false} StashableIs(key: string)
    ensures Stashable(key) <==> |key| > 0 && key[0] != '.' && forall c <- key :: c != '/' && c != '\\'
  {
  }

  predicate Leads(c: Content) {
    c.Thinking? || c.RedactedThinking?
  }

  function Lead(blocks: seq<Content>): seq<Content> {
    if blocks == [] then []
    else (if Leads(blocks[0]) then [blocks[0]] else []) + Lead(blocks[1..])
  }

  /** The signature the payload carries for a tool id; the last one wins. */
  function SigIn(blocks: seq<Content>, id: string): Option<string> {
    if blocks == [] then None
    else
      var last := blocks[|blocks| - 1];
      if last.ToolCall? && last.id == id && last.signature.Some? then last.signature
      else SigIn(blocks[..|blocks| - 1], id)
  }

  function Signed(c: Content, signature: Option<string>): Content
    requires c.ToolCall?
  {
    ToolCall(c.id, c.name, c.input, signature)
  }

  function Restore(blocks: seq<Content>, c: Content): Content {
    if c.ToolCall? && SigIn(blocks, c.id).Some? then Signed(c, SigIn(blocks, c.id)) else c
  }

  function RestoreAll(blocks: seq<Content>, content: seq<Content>): (r: seq<Content>)
    ensures |r| == |content|
    ensures forall i :: 0 <= i < |content| ==> r[i] == Restore(blocks, content[i])
  {
    seq(|content|, i requires 0 <= i < |content| => Restore(blocks, content[i]))
  }

  lemma {:induction false} LeadSnoc(blocks: seq<Content>, b: Content)
    ensures Lead(blocks + [b]) == Lead(blocks) + (if Leads(b) then [b] else [])
  {
    hide Leads;
    if blocks == [] {
      assert blocks + [b] == [b] && [b][1..] == [];
    } else {
      assert (blocks + [b])[1..] == blocks[1..] + [b];
      LeadSnoc(blocks[1..], b);
    }
  }

  lemma {:induction false} SigInSnoc(blocks: seq<Content>, b: Content, id: string)
    ensures SigIn(blocks + [b], id)
         == if b.ToolCall? && b.id == id && b.signature.Some? then b.signature else SigIn(blocks, id)
  {
    assert (blocks + [b])[..|blocks|] == blocks;
  }

  /** Set the signature of every tool call bearing `id`. */
  function SignAll(content: seq<Content>, id: string, sig: string): (r: seq<Content>)
    ensures |r| == |content|
    ensures forall j :: 0 <= j < |content| ==>
      r[j] == if content[j].ToolCall? && content[j].id == id then Signed(content[j], Some(sig)) else content[j]
  {
    seq(|content|, j requires 0 <= j < |content| =>
      if content[j].ToolCall? && content[j].id == id then Signed(content[j], Some(sig)) else content[j])
  }

  method Sign(content: seq<Content>, id: string, sig: string) returns (r: seq<Content>)
    ensures r == SignAll(content, id, sig)
  {
    r := content;
    var j := 0;
    while j < |r|
      invariant j <= |r| == |content|
      invariant forall k :: 0 <= k < |r| ==> r[k] == if k < j then SignAll(content, id, sig)[k] else content[k]
    {
      if r[j].ToolCall? && r[j].id == id {
        r := r[j := Signed(r[j], Some(sig))];
      }
      j := j + 1;
    }
  }

  predicate Signs(b: Content) {
    b.ToolCall? && b.signature.Some?
  }

  lemma {:induction false} RestoreSnoc(blocks: seq<Content>, b: Content, content: seq<Content>)
    ensures RestoreAll(blocks + [b], content)
         == if Signs(b) then SignAll(RestoreAll(blocks, content), b.id, b.signature.value) else RestoreAll(blocks, content)
  {
    hide SigIn;
    forall j | 0 <= j < |content| && content[j].ToolCall?
      ensures Restore(blocks + [b], content[j])
           == if Signs(b) && content[j].id == b.id then Signed(content[j], b.signature) else Restore(blocks, content[j])
    {
      SigInSnoc(blocks, b, content[j].id);
    }
  }

  lemma {:induction false} NothingRestored(content: seq<Content>)
    ensures RestoreAll([], content) == content && Lead([]) == []
  {
    assert forall id :: SigIn([], id) == None;
  }

  /** Recompose a turn with its payload in place. */
  method Inject(msg: Message, blocks: seq<Content>) returns (msg': Message)
    ensures msg' == Message(msg.role, Lead(blocks) + RestoreAll(blocks, msg.content))
  {
    hide Lead, RestoreAll, SignAll;
    var lead := [];
    var content := msg.content;
    var i := 0;
    NothingRestored(content);
    assert blocks[..0] == [];
    while i < |blocks|
      invariant i <= |blocks|
      invariant lead == Lead(blocks[..i]) && content == RestoreAll(blocks[..i], msg.content)
    {
      var b := blocks[i];
      assert blocks[..i + 1] == blocks[..i] + [b];
      LeadSnoc(blocks[..i], b);
      RestoreSnoc(blocks[..i], b, msg.content);
      if Leads(b) {
        lead := lead + [b];
      } else if Signs(b) {
        content := Sign(content, b.id, b.signature.value);
      }
      i := i + 1;
    }
    assert blocks[..i] == blocks;
    msg' := Message(msg.role, lead + content);
  }

  // ----- one request -----

  const THINKING_REPLAY := "thinking_replay"

  /** A turn the upstream would require a payload for, and the stash has none. */
  predicate Misses(stash: Stash, key: string -> string, reasoning: bool, m: Message) {
    m.role == Assistant && RecallTurn(stash, key, m.content).None? && ToolIds(m.content) != [] && reasoning
  }

  function Joined(stash: Stash, key: string -> string, m: Message): Message {
    if m.role != Assistant then m
    else
      match RecallTurn(stash, key, m.content)
      case Some(blocks) => Message(m.role, Lead(blocks) + RestoreAll(blocks, m.content))
      case None => m
  }

  /** What counts as a miss: an assistant turn with a tool call, on a request that reasons, none of
      whose calls recalls a payload that parses. */
  lemma {:induction false} MissesIs(stash: Stash, key: string -> string, reasoning: bool, m: Message)
    ensures Misses(stash, key, reasoning, m) <==>
      && m.role == Assistant && reasoning && ToolIds(m.content) != []
      && forall blocks :: RecallTurn(stash, key, m.content) != Some(blocks)
  {
    hide RecallTurn, ToolIds;
    var r := RecallTurn(stash, key, m.content);
    if r.Some? {
      assert r == Some(r.value);
    }
  }

  ghost predicate AnyMiss(stash: Stash, key: string -> string, reasoning: bool, messages: seq<Message>) {
    exists m <- messages :: Misses(stash, key, reasoning, m)
  }

  lemma {:induction false} AnyMissSnoc(
    stash: Stash, key: string -> string, reasoning: bool, messages: seq<Message>, i: nat)
    requires i < |messages|
    ensures AnyMiss(stash, key, reasoning, messages[..i + 1])
       <==> AnyMiss(stash, key, reasoning, messages[..i]) || Misses(stash, key, reasoning, messages[i])
    ensures Misses(stash, key, reasoning, messages[i]) ==> AnyMiss(stash, key, reasoning, messages)
  {
    hide Misses;
    assert messages[..i + 1] == messages[..i] + [messages[i]];
    assert messages[i] in messages && messages[i] in messages[..i + 1];
  }

  lemma {:induction false} AnyMissNone(stash: Stash, key: string -> string, reasoning: bool, messages: seq<Message>)
    ensures !AnyMiss(stash, key, reasoning, messages[..0])
  {
  }

  /** `id` is the first tool call of the first turn that misses. */
  ghost predicate FirstMiss(stash: Stash, key: string -> string, reasoning: bool, messages: seq<Message>, id: string) {
    exists i :: 0 <= i < |messages| && Misses(stash, key, reasoning, messages[i])
      && !AnyMiss(stash, key, reasoning, messages[..i]) && ToolIds(messages[i].content)[0] == id
  }

  class CanonicalRequest {
    var messages: seq<Message>
    var reasoning: bool

    constructor (messages: seq<Message>, reasoning: bool)
      ensures this.messages == messages && this.reasoning == reasoning
    {
      this.messages, this.reasoning := messages, reasoning;
    }

    /** Join every assistant turn; a refused miss names the first tool call it missed. */
    method Reinject(stash: Stash, key: string -> string, reject: bool) returns (r: Result<seq<string>, string>)
      modifies this`messages
      ensures r.Ok? <==> !(reject && AnyMiss(stash, key, reasoning, old(messages)))
      ensures r.Ok? ==> |messages| == |old(messages)|
      ensures r.Ok? ==> forall i :: 0 <= i < |messages| ==> messages[i] == Joined(stash, key, old(messages)[i])
      ensures r.Ok? ==> r.value == if AnyMiss(stash, key, reasoning, old(messages)) then [THINKING_REPLAY] else []
      ensures r.Err? ==> FirstMiss(stash, key, reasoning, old(messages), r.error)
    {
      hide RecallTurn, ToolIds, Lead, AnyMiss;
      AnyMissNone(stash, key, reasoning, messages);
      var fired := false;
      var i := 0;
      while i < |messages|
        invariant i <= |messages| == |old(messages)|
        invariant forall j :: 0 <= j < i ==> messages[j] == Joined(stash, key, old(messages)[j])
        invariant forall j :: i <= j < |messages| ==> messages[j] == old(messages)[j]
        invariant fired <==> AnyMiss(stash, key, reasoning, old(messages)[..i])
        invariant reject ==> !fired
      {
        var msg := messages[i];
        AnyMissSnoc(stash, key, reasoning, old(messages), i);
        if msg.role == Assistant {
          var ids := ToolIds(msg.content);
          var recalled := RecallTurn(stash, key, msg.content);
          if recalled.Some? {
            var joined := Inject(msg, recalled.value);
            messages := messages[i := joined];
          } else if ids != [] && reasoning {
            if reject {
              return Err(ids[0]);
            }
            fired := true;
          }
        }
        i := i + 1;
      }
      assert old(messages)[..i] == old(messages);
      r := Ok(if fired then [THINKING_REPLAY] else []);
    }
  }

  // ----- what the encoder recorded -----

  predicate Distinct(tools: seq<ToolAcc>) {
    forall i, j :: 0 <= i < j < |tools| ==> tools[i].id != tools[j].id
  }

  predicate Open(st: State, i: nat) {
    exists k <- st.slots :: st.slots[k] == ToolSlot(i)
  }

  /** A closed tool's signature is in the blocks; an open one's is not there yet. */
  ghost predicate Recorded(st: State) {
    && SlotsFit(st)
    && (forall k, l :: k in st.slots && l in st.slots && st.slots[k].ToolSlot? && st.slots[k] == st.slots[l] ==> k == l)
    && (forall b <- st.blocks :: b.ToolCall? ==> exists i :: 0 <= i < |st.tools| && st.tools[i].id == b.id)
    && (forall i: nat :: i < |st.tools| ==>
          SigIn(st.blocks, st.tools[i].id) == if Open(st, i) then None else st.tools[i].signature)
  }

  lemma {:induction false} SigInKnown(blocks: seq<Content>, id: string)
    requires forall b <- blocks :: b.ToolCall? ==> b.id != id
    ensures SigIn(blocks, id) == None
  {
    if blocks != [] {
      SigInKnown(blocks[..|blocks| - 1], id);
    }
  }

  /** Tools only join at the end, and keep their ids. */
  ghost predicate Extends(a: seq<ToolAcc>, b: seq<ToolAcc>) {
    |a| <= |b| && forall i :: 0 <= i < |a| ==> a[i].id == b[i].id
  }

  lemma {:induction false} StepExtends(o: Out, ev: Event, env: Env)
    requires SlotsFit(o.st)
    ensures Extends(o.st.tools, Step(o, ev, env).st.tools)
  {
    hide WireId, WireModel, TurnPairs, StashBlock, Notes, BodyOf;
  }

  lemma {:induction false} RunExtends(o: Out, events: seq<Event>, env: Env)
    requires SlotsFit(o.st)
    ensures Extends(o.st.tools, Run(o, events, env).st.tools)
    decreases |events|
  {
    if events != [] {
      StepExtends(o, events[0], env);
      RunExtends(Step(o, events[0], env), events[1..], env);
    }
  }

  lemma {:induction false} StartRecords(o: Out, index: nat, kind: ContentKind)
    requires Recorded(o.st) && index !in o.st.slots
    requires Distinct(Start(o, index, kind).st.tools)
    ensures Recorded(Start(o, index, kind).st)
  {
    hide WireId, WireModel, Notes, Emit;
    var st, st' := o.st, Start(o, index, kind).st;
    if kind.ToolUseKind? {
      ToolStartRecords(o, index, kind);
    } else {
      forall id: string
        ensures SigIn(st'.blocks, id) == SigIn(st.blocks, id)
      {
        if kind.RedactedThinkingKind? {
          SigInSnoc(st.blocks, RedactedThinking(kind.data), id);
        }
      }
      forall i: nat | i < |st.tools|
        ensures Open(st', i) <==> Open(st, i)
      {
        OpenElsewhere(st, st', index, i);
      }
    }
  }

  lemma {:induction false} ToolStartRecords(o: Out, index: nat, kind: ContentKind)
    requires Recorded(o.st) && index !in o.st.slots && kind.ToolUseKind?
    requires Distinct(Start(o, index, kind).st.tools)
    ensures Recorded(Start(o, index, kind).st)
  {
    hide WireId, WireModel, Notes;
    var st, st', n := o.st, Start(o, index, kind).st, |o.st.tools|;
    assert st'.tools[n].id == kind.id;
    assert forall i: nat :: i < n ==> st'.tools[i] == st.tools[i] && st.tools[i].id != kind.id;
    SigInKnown(st.blocks, kind.id);
    assert st'.slots[index] == ToolSlot(n);
    forall i: nat | i < n
      ensures Open(st', i) <==> Open(st, i)
    {
      OpenElsewhere(st, st', index, i);
    }
  }

  /** Changing one slot to or from something else than tool `i` does not open or close it. */
  lemma {:induction false} OpenElsewhere(st: State, st': State, index: nat, i: nat)
    requires st.slots - {index} == st'.slots - {index}
    requires index in st.slots ==> st.slots[index] != ToolSlot(i)
    requires index in st'.slots ==> st'.slots[index] != ToolSlot(i)
    ensures Open(st', i) <==> Open(st, i)
  {
    if Open(st, i) {
      var k :| k in st.slots && st.slots[k] == ToolSlot(i);
      assert k in st.slots - {index};
      assert k in st'.slots && st'.slots[k] == ToolSlot(i);
    }
    if Open(st', i) {
      var k :| k in st'.slots && st'.slots[k] == ToolSlot(i);
      assert k in st'.slots - {index};
      assert k in st.slots && st.slots[k] == ToolSlot(i);
    }
  }

  lemma {:induction false} FragmentRecords(o: Out, index: nat, delta: Delta)
    requires Recorded(o.st)
    ensures Recorded(Fragment(o, index, delta).st)
  {
    hide WireId, WireModel, Notes, SigIn;
    var st, st' := o.st, Fragment(o, index, delta).st;
    if index in st.slots {
      match (st.slots[index], delta)
      case (ToolSlot(i), SignatureDelta(s)) =>
        assert Open(st, i);
        assert forall j :: 0 <= j < |st.tools| ==> st'.tools[j].id == st.tools[j].id;
        assert forall j: nat :: Open(st', j) <==> Open(st, j);
      case (ToolSlot(i), JsonDelta(a)) =>
        assert forall j :: 0 <= j < |st.tools| ==> st'.tools[j].id == st.tools[j].id && st'.tools[j].signature == st.tools[j].signature;
        assert forall j: nat :: Open(st', j) <==> Open(st, j);
      case _ =>
        assert st'.tools == st.tools && st'.blocks == st.blocks;
        forall j: nat | j < |st.tools|
          ensures Open(st', j) <==> Open(st, j)
        {
          if st'.slots != st.slots {
            OpenElsewhere(st, st', index, j);
          }
        }
    }
  }

  lemma {:induction false} CloseRecords(st: State, index: nat, read: ReadArgs)
    requires Recorded(st) && Distinct(st.tools)
    ensures Recorded(Close(st, index, read))
  {
    hide ParseArgs;
    var st' := Close(st, index, read);
    if index in st.slots {
      var slot := st.slots[index];
      var added := StashBlock(st, slot, read);
      forall i: nat | i < |st.tools|
        ensures SigIn(st'.blocks, st.tools[i].id) == if Open(st', i) then None else st.tools[i].signature
      {
        if added != [] {
          assert st'.blocks == st.blocks + [added[0]];
          SigInSnoc(st.blocks, added[0], st.tools[i].id);
        } else {
          assert st'.blocks == st.blocks;
        }
        if slot == ToolSlot(i) {
          assert Open(st, i) && !Open(st', i);
        } else {
          OpenElsewhere(st, st', index, i);
        }
      }
    }
  }

  lemma {:induction false} StepRecords(o: Out, ev: Event, env: Env)
    requires Recorded(o.st) && Distinct(Step(o, ev, env).st.tools)
    requires Brackets(o.st.slots.Keys, [ev]).Some?
    ensures Recorded(Step(o, ev, env).st)
    ensures Brackets(o.st.slots.Keys, [ev]) == Some(Step(o, ev, env).st.slots.Keys)
  {
    hide Start, Fragment, Close, FinishTurn, Fail, WireId, WireModel, Notes, BodyOf, TurnPairs, SigIn;
    assert [ev][1..] == [];
    match ev
    case ContentStart(index, kind) =>
      StartRecords(o, index, kind);
      StartOpensSlot(o, index, kind);
    case ContentDelta(index, delta) =>
      FragmentRecords(o, index, delta);
      FragmentKeepsSlots(o, index, delta);
    case ContentStop(index) =>
      CloseRemovesSlot(o.st, index, env.read);
      CloseRecords(o.st, index, env.read);
    case _ =>
      OthersKeepTools(o, ev, env);
  }

  lemma {:induction false} StartOpensSlot(o: Out, index: nat, kind: ContentKind)
    ensures Start(o, index, kind).st.slots.Keys == o.st.slots.Keys + {index}
  {
    hide WireId, WireModel, Notes;
  }

  lemma {:induction false} FragmentKeepsSlots(o: Out, index: nat, delta: Delta)
    requires SlotsFit(o.st)
    ensures Fragment(o, index, delta).st.slots.Keys == o.st.slots.Keys
  {
    hide WireId, WireModel, Notes;
  }

  lemma {:induction false} CloseRemovesSlot(st: State, index: nat, read: ReadArgs)
    requires SlotsFit(st) && index in st.slots
    ensures Close(st, index, read).slots.Keys == st.slots.Keys - {index}
    ensures Close(st, index, read).tools == st.tools
  {
  }

  lemma {:induction false} OthersKeepTools(o: Out, ev: Event, env: Env)
    requires SlotsFit(o.st) && !ev.ContentStart? && !ev.ContentDelta? && !ev.ContentStop?
    ensures
      var st := Step(o, ev, env).st;
      st.tools == o.st.tools && st.slots == o.st.slots && st.blocks == o.st.blocks
  {
    hide WireId, WireModel, Notes, BodyOf, TurnPairs;
  }

  lemma {:induction false} RunRecords(o: Out, events: seq<Event>, env: Env)
    requires Recorded(o.st) && Distinct(Run(o, events, env).st.tools)
    requires Brackets(o.st.slots.Keys, events).Some?
    ensures Recorded(Run(o, events, env).st)
    ensures Brackets(o.st.slots.Keys, events) == Some(Run(o, events, env).st.slots.Keys)
    decreases |events|
  {
    if events != [] {
      var next := Step(o, events[0], env);
      RunExtends(next, events[1..], env);
      DistinctPrefix(next.st.tools, Run(next, events[1..], env).st.tools);
      assert events == [events[0]] + events[1..];
      BracketsAppend(o.st.slots.Keys, [events[0]], events[1..]);
      hide Step, Recorded;
      StepRecords(o, events[0], env);
      RunRecords(next, events[1..], env);
    }
  }

  lemma {:induction false} DistinctPrefix(a: seq<ToolAcc>, b: seq<ToolAcc>)
    requires Extends(a, b) && Distinct(b)
    ensures Distinct(a)
  {
  }

  /** On a balanced event list with distinct tool ids, the payload carries exactly the
      signatures the tools accumulated. */
  lemma {:induction false} BalancedTurnIsRecorded(st0: State, events: seq<Event>, env: Env)
    requires st0.slots == map[] && st0.tools == [] && st0.blocks == []
    requires Balanced(events) && Distinct(Run(Out(st0, []), events, env).st.tools)
    ensures
      var st := Run(Out(st0, []), events, env).st;
      forall t <- st.tools :: SigIn(st.blocks, t.id) == t.signature
  {
    assert st0.slots.Keys == {};
    RunRecords(Out(st0, []), events, env);
    var st := Run(Out(st0, []), events, env).st;
    assert st.slots.Keys == {};
    forall t | t in st.tools
      ensures SigIn(st.blocks, t.id) == t.signature
    {
      var i :| 0 <= i < |st.tools| && st.tools[i] == t;
      assert !Open(st, i);
    }
  }

  // ----- the round trip -----

  /** An assistant turn as the client echoes it: the text it accumulated and the tool calls
      it was given, signatures unknown to its dialect. */
  ghost predicate Echoes(client: Client, content: seq<Content>) {
    && TurnText(content) == client.content
    && (ToolIds(content) == [] <==> client.tools == map[])
    && (forall k <- client.tools :: client.tools[k].id in ToolIds(content))
    && (forall id <- ToolIds(content) :: exists k <- client.tools :: client.tools[k].id == id)
  }

  lemma {:induction false} FirstRecallHits(stash: Stash, ids: seq<string>, payload: Payload)
    requires exists id <- ids :: Stashable(id)
    requires forall id <- ids :: Stashable(id) ==> id in stash && stash[id] == payload
    ensures FirstRecall(stash, ids) == Some(payload)
    decreases |ids|
  {
    assert ids == [ids[0]] + ids[1..];
    if !Stashable(ids[0]) {
      FirstRecallHits(stash, ids[1..], payload);
    }
  }

  lemma {:induction false} FirstRecallMisses(stash: Stash, ids: seq<string>)
    requires forall id <- ids :: !Stashable(id)
    ensures FirstRecall(stash, ids) == None
    decreases |ids|
  {
    if ids != [] {
      FirstRecallMisses(stash, ids[1..]);
    }
  }

  lemma {:induction false} ToolPairsHold(tools: seq<ToolAcc>, payload: seq<Content>, i: nat)
    requires i < |tools|
    ensures Pair(tools[i].id, payload) in ToolPairs(tools, payload)
    decreases i
  {
    if i > 0 {
      ToolPairsHold(tools[1..], payload, i - 1);
    }
  }

  lemma {:induction false} ToolPairsAgree(tools: seq<ToolAcc>, payload: seq<Content>)
    ensures forall p <- ToolPairs(tools, payload) :: p.payload == payload
  {
    if tools != [] {
      ToolPairsAgree(tools[1..], payload);
    }
  }

  /** All the pairs of one turn carry one payload, so parking them is order-free. */
  lemma {:induction false} TurnPairsAgree(st: State, key: string -> string)
    ensures forall p <- TurnPairs(st, key) :: p.payload == st.blocks
  {
    ToolPairsAgree(st.tools, st.blocks);
  }

  /** Can any key of this turn name a file? */
  ghost predicate Joinable(st: State, key: string -> string) {
    if st.tools == [] then Stashable(key(st.text)) else exists t <- st.tools :: Stashable(t.id)
  }

  /** A turn that parked blocks gets exactly those blocks back, exactly when one of its keys
      can name a file: whatever else the stash holds. */
  lemma {:induction false} RecallRoundTrip(
    st: State, key: string -> string, stash: Stash, client: Client, content: seq<Content>)
    requires st.blocks != [] && Holds(stash, TurnPairs(st, key))
    requires client.content == st.text && client.tools == ToolMap(st.tools)
    requires Echoes(client, content)
    ensures Joinable(st, key) ==> RecallTurn(stash, key, content) == Some(st.blocks)
    ensures !Joinable(st, key) ==> RecallTurn(stash, key, content) == None
  {
    hide Echoes, ToolIds, ToolMap, ToolPairs, Stashable, TurnText, FirstRecall;
    EchoedIds(st, client, content);
    var ids := ToolIds(content);
    if st.tools == [] {
      assert Pair(key(st.text), st.blocks) in TurnPairs(st, key);
    } else if Joinable(st, key) {
      EchoedIdsAreParked(st, key, stash, ids);
      FirstRecallHits(stash, ids, Parsed(st.blocks));
    } else {
      FirstRecallMisses(stash, ids);
    }
  }

  lemma {:induction false} EchoedIdsAreParked(st: State, key: string -> string, stash: Stash, ids: seq<string>)
    requires st.blocks != [] && st.tools != [] && Holds(stash, TurnPairs(st, key))
    requires forall id <- ids :: exists t <- st.tools :: t.id == id
    ensures forall id <- ids :: Stashable(id) ==> id in stash && stash[id] == Parsed(st.blocks)
  {
    hide ToolPairs, Stashable;
    forall id | id in ids && Stashable(id)
      ensures id in stash && stash[id] == Parsed(st.blocks)
    {
      var t :| t in st.tools && t.id == id;
      var i :| 0 <= i < |st.tools| && st.tools[i] == t;
      ToolPairsHold(st.tools, st.blocks, i);
    }
  }

  /** The ids an echoed turn carries are exactly those of the tools the encoder folded. */
  lemma {:induction false} EchoedIds(st: State, client: Client, content: seq<Content>)
    requires client.content == st.text && client.tools == ToolMap(st.tools)
    requires Echoes(client, content)
    ensures TurnText(content) == st.text && (ToolIds(content) == [] <==> st.tools == [])
    ensures forall id <- ToolIds(content) :: exists t <- st.tools :: t.id == id
    ensures forall t <- st.tools :: t.id in ToolIds(content)
  {
    var ids := ToolIds(content);
    assert st.tools != [] ==> 0 in client.tools;
    assert st.tools == [] ==> client.tools == map[];
    forall id | id in ids
      ensures exists t <- st.tools :: t.id == id
    {
      var k :| k in client.tools && client.tools[k].id == id;
      assert st.tools[k] in st.tools;
    }
    forall t | t in st.tools
      ensures t.id in ids
    {
      var i :| 0 <= i < |st.tools| && st.tools[i] == t;
      assert client.tools[i].id == t.id;
    }
  }

  /** What a client of the aggregate shape holds: the message of the body, or its error. */
  function BodyClient(body: ChatBody): Client {
    match body
    case Success(_, _, _, content, refusal, tools, finish, usage) =>
      Client(StrOr(content), StrOr(refusal), map i: nat | i < |tools| :: tools[i], finish, usage, None, [])
    case Failure(e) => EMPTY_CLIENT.(error := Some(e))
  }

  function StrOr(s: Option<string>): string {
    if s.Some? then s.value else ""
  }

  /** The turn a client assembled from the lines of the shape it asked for. */
  function Received(stream: bool, lines: seq<Line>): Client {
    if !stream && |lines| == 1 && lines[0].Whole? then BodyClient(lines[0].body)
    else Accumulate(EMPTY_CLIENT, lines)
  }

  /** On either shape the client holds the turn the encoder folded; an aggregate client that was
      sent an error instead has no turn. */
  lemma {:induction false} ReceivedIsFolded(
    stream: bool, events: seq<Event>, env: Env, includeUsage: bool, created: nat, model: string, adaptations: seq<string>)
    requires End !in events
    ensures
      var out := Run(Out(Fresh(stream, includeUsage, created, model, adaptations), []), events + [End], env);
      var client := Received(stream, out.lines);
      stream || out.st.error == None ==> client.content == out.st.text && client.tools == ToolMap(out.st.tools)
  {
    hide Run, Accumulate;
    var o := Out(Fresh(stream, includeUsage, created, model, adaptations), []);
    if stream {
      FreshInStep(includeUsage, created, model, adaptations);
      RunInStep(o, events + [End], env);
    } else {
      AggregateIsStreamAccumulated(events, env, includeUsage, created, model, adaptations);
      var out := Run(o, events + [End], env);
      if out.st.error == None {
        assert BodyOf(out.st).tools == WireTools(out.st.tools);
        assert ToolMap(out.st.tools) == (map i: nat | i < |out.st.tools| :: WireTools(out.st.tools)[i]);
      }
    }
  }

  /** The turn a client asked for on either shape, got whole and echoed comes back recomposed:
      the reasoning blocks lead in stash order, everything else is untouched and in place, and on
      a balanced turn with distinct tool ids every call bears the signature it streamed. */
  lemma {:induction false} ReplayRoundTrip(
    stream: bool, events: seq<Event>, env: Env, includeUsage: bool, created: nat, model: string, adaptations: seq<string>,
    stash: Stash, content: seq<Content>)
    requires End !in events
    requires
      var out := Run(Out(Fresh(stream, includeUsage, created, model, adaptations), []), events + [End], env);
      && (stream || out.st.error == None)
      && out.st.blocks != [] && Joinable(out.st, env.key) && Holds(stash, out.st.stash)
      && Echoes(Received(stream, out.lines), content)
    ensures
      var st := Run(Out(Fresh(stream, includeUsage, created, model, adaptations), []), events + [End], env).st;
      var turn := Joined(stash, env.key, Message(Assistant, content)).content;
      && turn == Lead(st.blocks) + RestoreAll(st.blocks, content)
      && (Balanced(events) && Distinct(st.tools) ==>
            forall t <- st.tools :: SigIn(st.blocks, t.id) == t.signature)
  {
    hide Run, Step, Received, Lead, RestoreAll, RecallTurn, Joinable, Holds, Echoes, SigIn, ToolPairs, ToolMap;
    var o := Out(Fresh(stream, includeUsage, created, model, adaptations), []);
    ReceivedIsFolded(stream, events, env, includeUsage, created, model, adaptations);
    RunAppend(o, events, [End], env);
    var mid := Run(o, events, env);
    EndParks(mid, env);
    NothingParkedYet(o, events, env);
    var out := Run(o, events + [End], env);
    assert [] + TurnPairs(mid.st, env.key) == TurnPairs(out.st, env.key);
    RecallRoundTrip(out.st, env.key, stash, Received(stream, out.lines), content);
    if Balanced(events) && Distinct(out.st.tools) {
      BalancedTurnIsRecorded(o.st, events, env);
    }
  }

  lemma {:induction false} EndParks(o: Out, env: Env)
    requires SlotsFit(o.st)
    ensures
      var st := Run(o, [End], env).st;
      && st.stash == o.st.stash + TurnPairs(st, env.key)
      && st.tools == o.st.tools && st.blocks == o.st.blocks && st.text == o.st.text
  {
    hide ToolPairs, BodyOf;
    assert [End][1..] == [];
    assert Run(o, [End], env) == Step(o, End, env);
  }

  lemma {:induction false} NothingParkedYet(o: Out, events: seq<Event>, env: Env)
    requires SlotsFit(o.st) && End !in events
    ensures Run(o, events, env).st.stash == o.st.stash
    decreases |events|
  {
    if events != [] {
      hide WireId, WireModel, TurnPairs, StashBlock, Notes, BodyOf;
      assert events[0] != End;
      NothingParkedYet(Step(o, events[0], env), events[1..], env);
    }
  }
}
