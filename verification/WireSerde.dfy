/** The hand-rolled serde pairs of the canonical model (src/canonical/request_de.rs,
    request_de_tool.rs, event_serde.rs), between values and parsed JSON. */
module WireSerde {
  import opened Base
  import opened Canonical

  // ----- reading JSON -----

  type Fields = map<string, Json>

  /** `v[key]`: null where there is nothing to index. */
  function At(v: Json, key: string): Json {
    if v.JObj? && key in v.fields then v.fields[key] else JNull
  }

  /** A required string field. */
  function Str(f: Fields, key: string): Option<string> {
    if key in f && f[key].JStr? then Some(f[key].s) else None
  }

  /** A defaulted `Option<String>` field: absent and null are one absence; anything else but a
      string is an error, the outer `None`. */
  function OptStr(f: Fields, key: string): Option<Option<string>> {
    if key !in f || f[key].JNull? then Some(None)
    else if f[key].JStr? then Some(Some(f[key].s))
    else None
  }

  /** `as_str().unwrap_or_default()`. */
  function StrOrEmpty(v: Json): string {
    if v.JStr? then v.s else ""
  }

  /** A field written only when present. */
  function OptField(key: string, value: Option<string>): Fields {
    if value.Some? then map[key := JStr(value.value)] else map[]
  }

  function OrJNull(value: Option<string>): Json {
    if value.Some? then JStr(value.value) else JNull
  }

  predicate EndsWith(s: string, suffix: string) {
    |s| >= |suffix| && s[|s| - |suffix|..] == suffix
  }

  /** The open set of server-tool result tags. */
  predicate Dynamic(tag: string) {
    EndsWith(tag, "_tool_result") && tag != "tool_result"
  }

  // ----- content blocks -----

  function SerSource(src: Source): Json {
    match src
    case Base64(mediaType, data) => JObj(map["kind" := JStr("base64"), "media_type" := JStr(mediaType), "data" := JStr(data)])
    case Url(url) => JObj(map["kind" := JStr("url"), "url" := JStr(url)])
  }

  function DeSource(v: Json): Option<Source> {
    if !v.JObj? then None
    else
      match Str(v.fields, "kind")
      case None => None
      case Some(kind) =>
        if kind == "base64" then
          match (Str(v.fields, "media_type"), Str(v.fields, "data"))
          case (Some(m), Some(d)) => Some(Base64(m, d))
          case _ => None
        else if kind == "url" then
          match Str(v.fields, "url")
          case Some(u) => Some(Url(u))
          case None => None
        else None
  }

  /** The fields of a block beside its `type`. */
  function Payload(c: Content): Fields
    decreases c, 0
  {
    match c
    case Text(text) => map["text" := JStr(text)]
    case Image(source) => map["source" := SerSource(source)]
    case Document(source) => map["source" := SerSource(source)]
    case ToolCall(id, name, input, signature) =>
      map["id" := JStr(id), "name" := JStr(name), "input" := input] + OptField("signature", signature)
    case ToolResult(id, content, isError) =>
      map["tool_use_id" := JStr(id), "content" := JArr(SerAll(content)), "is_error" := JBool(isError)]
    case Thinking(text, signature, itemId, encrypted) =>
      map["text" := JStr(text), "signature" := OrJNull(signature)] + OptField("id", itemId)
      + OptField("encrypted_content", encrypted)
    case RedactedThinking(data) => map["data" := JStr(data)]
    case ServerToolUse(id, name, input) => map["id" := JStr(id), "name" := JStr(name), "input" := input]
    case ServerToolResult(kind, id, result) => map["tool_use_id" := JStr(id), "content" := result]
  }

  function Tag(c: Content): string {
    match c
    case Text(_) => "text"
    case Image(_) => "image"
    case Document(_) => "document"
    case ToolCall(_, _, _, _) => "tool_use"
    case ToolResult(_, _, _) => "tool_result"
    case Thinking(_, _, _, _) => "thinking"
    case RedactedThinking(_) => "redacted_thinking"
    case ServerToolUse(_, _, _) => "server_tool_use"
    case ServerToolResult(kind, _, _) => kind
  }

  function Ser(c: Content): Json
    decreases c, 1
  {
    JObj(Payload(c)["type" := JStr(Tag(c))])
  }

  function SerAll(cs: seq<Content>): seq<Json>
    decreases cs
  {
    if cs == [] then [] else [Ser(cs[0])] + SerAll(cs[1..])
  }

  /** A block from its fixed tag. */
  function DeTagged(v: Json, tag: string): Option<Content>
    requires v.JObj?
    decreases v, 0
  {
    var f := v.fields;
    if tag == "text" then
      match Str(f, "text")
      case Some(t) => Some(Text(t))
      case None => None
    else if tag == "image" || tag == "document" then
      match DeSource(At(v, "source"))
      case Some(src) => Some(if tag == "image" then Image(src) else Document(src))
      case None => None
    else if tag == "tool_use" then
      match (Str(f, "id"), Str(f, "name"), OptStr(f, "signature"))
      case (Some(id), Some(name), Some(sig)) => if "input" in f then Some(ToolCall(id, name, f["input"], sig)) else None
      case _ => None
    else if tag == "tool_result" then
      if "content" !in f || ("is_error" in f && !f["is_error"].JBool?) then None
      else
        match (Str(f, "tool_use_id"), DeSeq(f["content"]))
        case (Some(id), Some(content)) => Some(ToolResult(id, content, "is_error" in f && f["is_error"].b))
        case _ => None
    else if tag == "thinking" then
      match (Str(f, "text"), OptStr(f, "signature"), OptStr(f, "id"), OptStr(f, "encrypted_content"))
      case (Some(t), Some(sig), Some(id), Some(enc)) => Some(Thinking(t, sig, id, enc))
      case _ => None
    else if tag == "redacted_thinking" then
      match Str(f, "data")
      case Some(d) => Some(RedactedThinking(d))
      case None => None
    else if tag == "server_tool_use" then
      match (Str(f, "id"), Str(f, "name"))
      case (Some(id), Some(name)) => if "input" in f then Some(ServerToolUse(id, name, f["input"])) else None
      case _ => None
    else None
  }

  /** A bare string is text; a dynamic result tag is caught before the fixed ones. */
  function De(v: Json): Option<Content>
    decreases v, 1
  {
    if v.JStr? then Some(Text(v.s))
    else
      var tag := StrOrEmpty(At(v, "type"));
      if Dynamic(tag) then Some(ServerToolResult(tag, StrOrEmpty(At(v, "tool_use_id")), At(v, "content")))
      else if v.JObj? then DeTagged(v, tag)
      else None
  }

  /** A `content` slot: a string, one block, or a list of blocks. */
  function DeSeq(v: Json): Option<seq<Content>>
    decreases v, 2
  {
    match v
    case JStr(s) => Some([Text(s)])
    case JObj(_) =>
      (match De(v)
       case Some(c) => Some([c])
       case None => None)
    case JArr(items) => DeAll(items)
    case _ => None
  }

  function DeAll(items: seq<Json>): Option<seq<Content>>
    decreases items
  {
    if items == [] then Some([])
    else
      match (De(items[0]), DeAll(items[1..]))
      case (Some(c), Some(cs)) => Some([c] + cs)
      case _ => None
  }

  /** Every server-tool result, at any depth, wears a dynamic tag. */
  predicate WellTagged(c: Content) {
    match c
    case ServerToolResult(kind, _, _) => Dynamic(kind)
    case ToolResult(_, content, _) => AllWellTagged(content)
    case _ => true
  }

  predicate AllWellTagged(cs: seq<Content>) {
    cs == [] || (WellTagged(cs[0]) && AllWellTagged(cs[1..]))
  }

  lemma {:induction false} NotDynamic(s: string)
    requires |s| < 12 || s[|s| - 1] != 't'
    ensures !Dynamic(s)
  {
    if |s| >= 12 {
      assert s[|s| - 12..][11] == s[|s| - 1];
    }
  }

  lemma {:induction false} SourceReadsBack(src: Source)
    ensures DeSource(SerSource(src)) == Some(src)
  {
  }

  lemma {:induction false} FixedTagIsNotDynamic(c: Content)
    requires !c.ServerToolResult?
    ensures !Dynamic(Tag(c))
  {
    match c
    case RedactedThinking(_) => NotDynamic("redacted_thinking");
    case ServerToolUse(_, _, _) => NotDynamic("server_tool_use");
    case _ => NotDynamic(Tag(c));
  }

  /** Serialize then deserialize is the identity on every well-tagged block, nested results
      and dynamic tags included. */
  lemma {:induction false} ContentReadsBack(c: Content)
    requires WellTagged(c)
    ensures De(Ser(c)) == Some(c)
    decreases c, 1
  {
    var v := Ser(c);
    assert StrOrEmpty(At(v, "type")) == Tag(c);
    if !c.ServerToolResult? {
      FixedTagIsNotDynamic(c);
      PayloadReadsBack(c);
    }
    hide DeTagged, Dynamic;
  }

  lemma {:induction false} PayloadReadsBack(c: Content)
    requires WellTagged(c) && !c.ServerToolResult?
    ensures DeTagged(Ser(c), Tag(c)) == Some(c)
    decreases c, 0
  {
    if c.ToolResult? {
      AllReadBack(c.content);
      hide SerAll, DeAll, SerSource, DeSource, OptStr;
    } else {
      FlatPayloadReadsBack(c);
      hide DeTagged, Ser;
    }
  }

  lemma {:induction false} FlatPayloadReadsBack(c: Content)
    requires !c.ServerToolResult? && !c.ToolResult?
    ensures DeTagged(Ser(c), Tag(c)) == Some(c)
  {
    hide SerSource, DeSource, DeSeq, SerAll;
    match c
    case Image(source) => SourceReadsBack(source);
    case Document(source) => SourceReadsBack(source);
    case Thinking(_, _, _, _) => ThinkingReadsBack(c);
    case _ =>
  }

  lemma {:induction false} ThinkingReadsBack(c: Content)
    requires c.Thinking?
    ensures DeTagged(Ser(c), Tag(c)) == Some(c)
  {
    hide SerSource, DeSource, DeSeq, SerAll;
  }

  lemma {:induction false} AllReadBack(cs: seq<Content>)
    requires AllWellTagged(cs)
    ensures DeAll(SerAll(cs)) == Some(cs)
    decreases cs
  {
    if cs != [] {
      ContentReadsBack(cs[0]);
      AllReadBack(cs[1..]);
      assert ([Ser(cs[0])] + SerAll(cs[1..]))[1..] == SerAll(cs[1..]);
      assert [cs[0]] + cs[1..] == cs;
      hide Ser, De, SerAll;
    }
  }

  /** Whatever decodes is well tagged. */
  lemma {:induction false} DecodedIsWellTagged(v: Json)
    ensures De(v).Some? ==> WellTagged(De(v).value)
    decreases v, 1
  {
    if v.JObj? && De(v).Some? && De(v).value.ToolResult? && "content" in v.fields {
      SeqIsWellTagged(v.fields["content"]);
      hide DeSeq, Dynamic, DeSource;
    }
  }

  lemma {:induction false} SeqIsWellTagged(v: Json)
    ensures DeSeq(v).Some? ==> AllWellTagged(DeSeq(v).value)
    decreases v, 2
  {
    match v
    case JObj(_) =>
      DecodedIsWellTagged(v);
      hide De;
    case JArr(items) => AllDecodedWellTagged(items);
    case _ =>
  }

  lemma {:induction false} AllDecodedWellTagged(items: seq<Json>)
    ensures DeAll(items).Some? ==> AllWellTagged(DeAll(items).value)
    decreases items
  {
    if items != [] {
      DecodedIsWellTagged(items[0]);
      AllDecodedWellTagged(items[1..]);
      hide De;
      if DeAll(items).Some? {
        assert DeAll(items).value[1..] == DeAll(items[1..]).value;
      }
    }
  }

  /** So the round trip holds for exactly the well-tagged blocks: a server-tool result under any
      other tag does not come back. */
  lemma {:induction false} ContentRoundTrip(c: Content)
    ensures De(Ser(c)) == Some(c) <==> WellTagged(c)
  {
    hide De, Ser, WellTagged;
    if WellTagged(c) {
      ContentReadsBack(c);
    }
    DecodedIsWellTagged(Ser(c));
  }

  // ----- messages -----

  function RoleName(role: Role): string {
    match role
    case System => "system"
    case User => "user"
    case Assistant => "assistant"
    case Tool => "tool"
  }

  function RoleFrom(name: string): Option<Role> {
    if name == "system" then Some(System)
    else if name == "user" then Some(User)
    else if name == "assistant" then Some(Assistant)
    else if name == "tool" then Some(Tool)
    else None
  }

  predicate BearsResult(content: seq<Content>) {
    exists c <- content :: c.ToolResult?
  }

  /** A user turn bearing any tool result is the canonical tool turn. */
  function Normalized(m: Message): Message {
    if m.role == User && BearsResult(m.content) then Message(Tool, m.content) else m
  }

  function SerMessage(m: Message): Json {
    JObj(map["role" := JStr(RoleName(m.role)), "content" := JArr(SerAll(m.content))])
  }

  function DeMessage(v: Json): Option<Message> {
    if !v.JObj? || "content" !in v.fields then None
    else
      match Str(v.fields, "role")
      case None => None
      case Some(name) =>
        match (RoleFrom(name), DeSeq(v.fields["content"]))
        case (Some(role), Some(content)) => Some(Normalized(Message(role, content)))
        case _ => None
  }

  /** A written message decodes to its normal form, which changes nothing but the role of a user
      turn bearing a tool result. */
  lemma {:induction false} MessageReadsBack(m: Message)
    requires AllWellTagged(m.content)
    ensures DeMessage(SerMessage(m)) == Some(Normalized(m))
    ensures Normalized(m).content == m.content
    ensures Normalized(m).role != m.role <==> m.role == User && BearsResult(m.content)
    ensures Normalized(Normalized(m)) == Normalized(m)
  {
    AllReadBack(m.content);
    assert RoleFrom(RoleName(m.role)) == Some(m.role);
    hide RoleFrom, RoleName, BearsResult, SerAll, DeAll;
  }

  /** Message decoding is idempotent: whatever decodes, written and decoded again, is itself. */
  lemma {:induction false} MessageDecodeIsIdempotent(v: Json)
    ensures DeMessage(v).Some? ==> DeMessage(SerMessage(DeMessage(v).value)) == DeMessage(v)
  {
    if DeMessage(v).Some? {
      SeqIsWellTagged(v.fields["content"]);
      var m := Message(RoleFrom(v.fields["role"].s).value, DeSeq(v.fields["content"]).value);
      MessageReadsBack(Normalized(m));
      MessageReadsBack(m);
      hide SerMessage, DeSeq, RoleFrom, Normalized, AllWellTagged;
    }
  }

  // ----- tools -----

  datatype ToolSpec =
    | Custom(name: string, description: Option<string>, inputSchema: Json, strict: Option<bool>)
    | Provided(kind: string, name: string, config: Fields)

  function SerTool(t: ToolSpec): Json {
    match t
    case Custom(name, description, schema, strict) =>
      JObj(map["name" := JStr(name), "input_schema" := schema] + OptField("description", description)
           + if strict.Some? then map["strict" := JBool(strict.value)] else map[])
    case Provided(kind, name, config) =>
      // Flattened keys come last, so one that repeats `type` or `name` wins.
      JObj(map["type" := JStr(kind)] + (if name == "" then map[] else map["name" := JStr(name)]) + config)
  }

  /** Dispatch on the presence of `type`. */
  function DeTool(v: Json): Option<ToolSpec> {
    if !v.JObj? then None
    else
      var f := v.fields;
      if "type" in f then
        if !f["type"].JStr? || ("name" in f && !f["name"].JStr?) then None
        else Some(Provided(f["type"].s, if "name" in f then f["name"].s else "", f - {"type", "name"}))
      else if "input_schema" !in f || ("strict" in f && !f["strict"].JBool? && !f["strict"].JNull?) then None
      else
        match (Str(f, "name"), OptStr(f, "description"))
        case (Some(name), Some(description)) =>
          Some(Custom(name, description, f["input_schema"],
                      if "strict" in f && f["strict"].JBool? then Some(f["strict"].b) else None))
        case _ => None
  }

  /** A tool survives exactly when its config does not claim the two keys the wire reads first. */
  lemma {:induction false} ToolRoundTrip(t: ToolSpec)
    ensures DeTool(SerTool(t)) == Some(t) <==> (t.Provided? ==> "type" !in t.config && "name" !in t.config)
  {
    if t.Provided? {
      var named := map["type" := JStr(t.kind)] + (if t.name == "" then map[] else map["name" := JStr(t.name)]);
      if "type" !in t.config && "name" !in t.config {
        assert (named + t.config) - {"type", "name"} == t.config;
      } else {
        assert "type" in named + t.config;
        assert ("type" in t.config || "name" in t.config) ==> (named + t.config) - {"type", "name"} != t.config;
      }
    }
  }

  // ----- the event vocabulary -----

  /** The order JSON object keys are kept in. */
  predicate Below(a: string, b: string) {
    a == "" || (b != "" && (a[0] < b[0] || (a[0] == b[0] && Below(a[1..], b[1..]))))
  }

  lemma {:induction false} BelowIsTotal(a: string, b: string)
    ensures Below(a, b) || Below(b, a)
    ensures Below(a, b) && Below(b, a) ==> a == b
  {
    if a != "" && b != "" {
      BelowIsTotal(a[1..], b[1..]);
      assert a == [a[0]] + a[1..] && b == [b[0]] + b[1..];
    }
  }

  lemma {:induction false} BelowChains(a: string, b: string, c: string)
    requires Below(a, b) && Below(b, c)
    ensures Below(a, c)
  {
    if a != "" {
      if a[0] == b[0] && b[0] == c[0] {
        BelowChains(a[1..], b[1..], c[1..]);
      }
    }
  }

  ghost function LeastKey(keys: set<string>): (k: string)
    requires keys != {}
    ensures k in keys && forall x <- keys :: Below(k, x)
  {
    var x :| x in keys;
    BelowIsTotal(x, x);
    if keys == {x} then x
    else
      var rest := LeastKey(keys - {x});
      assert keys == (keys - {x}) + {x};
      BelowIsTotal(x, rest);
      if Below(x, rest) then
        assert forall y <- keys - {x} :: Below(x, y) by {
          forall y | y in keys - {x}
            ensures Below(x, y)
          {
            BelowChains(x, rest, y);
          }
        }
        x
      else rest
  }

  /** The tag of an externally tagged value: the first key of an object, even when it has
      more than one. */
  ghost function TagOf(v: Json): Option<string> {
    if v.JObj? && v.fields.Keys != {} then Some(LeastKey(v.fields.Keys)) else None
  }

  lemma {:induction false} OneKey(tag: string, body: Json)
    ensures TagOf(JObj(map[tag := body])) == Some(tag)
  {
    assert map[tag := body].Keys == {tag};
  }

  function SerKind(k: ContentKind): Json {
    match k
    case TextKind => JObj(map["text" := JObj(map[])])
    case ToolUseKind(id, name) => JObj(map["tool_use" := JObj(map["id" := JStr(id), "name" := JStr(name)])])
    case ThinkingKind(itemId) => JObj(map["thinking" := JObj(OptField("id", itemId))])
    case RedactedThinkingKind(data) => JObj(map["redacted_thinking" := JObj(map["data" := JStr(data)])])
    case ImageKind(mediaType) => JObj(map["image" := JObj(map["media_type" := JStr(mediaType)])])
    case ServerToolUseKind(id, name) => JObj(map["server_tool_use" := JObj(map["id" := JStr(id), "name" := JStr(name)])])
    case ServerToolResultKind(kind, id, content) => JObj(map[kind := JObj(map["tool_use_id" := JStr(id), "content" := content])])
    case UnknownKind(v) => v
  }

  function StrAt(v: Json, key: string): string {
    StrOrEmpty(At(v, key))
  }

  predicate FixedKind(tag: string) {
    tag in {"text", "tool_use", "thinking", "redacted_thinking", "image", "server_tool_use"}
  }

  /** Fixed tags first, then the open set of results, then the catch-all. */
  function KindFrom(v: Json, tag: string): ContentKind {
    if tag == "text" then TextKind
    else if tag == "tool_use" then ToolUseKind(StrAt(At(v, tag), "id"), StrAt(At(v, tag), "name"))
    else if tag == "thinking" then
      ThinkingKind(if At(At(v, tag), "id").JStr? then Some(At(At(v, tag), "id").s) else None)
    else if tag == "redacted_thinking" then RedactedThinkingKind(StrAt(At(v, tag), "data"))
    else if tag == "image" then ImageKind(StrAt(At(v, tag), "media_type"))
    else if tag == "server_tool_use" then ServerToolUseKind(StrAt(At(v, tag), "id"), StrAt(At(v, tag), "name"))
    else if Dynamic(tag) then ServerToolResultKind(tag, StrAt(At(v, tag), "tool_use_id"), At(At(v, tag), "content"))
    else UnknownKind(v)
  }

  ghost function DeKind(v: Json): ContentKind {
    match TagOf(v)
    case Some(tag) => KindFrom(v, tag)
    case None => UnknownKind(v)
  }

  /** Kinds the wire can tell apart: a dynamic result tag, and an unknown value that does not
      read as a known one. */
  ghost predicate Distinguishable(k: ContentKind) {
    match k
    case ServerToolResultKind(kind, _, _) => Dynamic(kind)
    case UnknownKind(v) => TagOf(v).None? || !(FixedKind(TagOf(v).value) || Dynamic(TagOf(v).value))
    case _ => true
  }

  ghost function KindTag(k: ContentKind): string
    requires !k.UnknownKind?
  {
    match k
    case TextKind => "text"
    case ToolUseKind(_, _) => "tool_use"
    case ThinkingKind(_) => "thinking"
    case RedactedThinkingKind(_) => "redacted_thinking"
    case ImageKind(_) => "image"
    case ServerToolUseKind(_, _) => "server_tool_use"
    case ServerToolResultKind(kind, _, _) => kind
  }

  lemma {:induction false} KindIsTagged(k: ContentKind)
    requires !k.UnknownKind?
    ensures TagOf(SerKind(k)) == Some(KindTag(k))
  {
    var body := SerKind(k).fields[KindTag(k)];
    assert SerKind(k) == JObj(map[KindTag(k) := body]);
    OneKey(KindTag(k), body);
    hide TagOf, SerKind, KindTag;
  }

  lemma {:induction false} KindFromTag(k: ContentKind)
    requires !k.UnknownKind? && !k.ServerToolResultKind?
    ensures KindFrom(SerKind(k), KindTag(k)) == k
  {
    hide Dynamic, TagOf;
  }

  /** A content kind survives exactly when the wire can tell it from the others. */
  lemma {:induction false} KindRoundTrip(k: ContentKind)
    ensures DeKind(SerKind(k)) == k <==> Distinguishable(k)
  {
    hide Dynamic, TagOf;
    match k
    case UnknownKind(v) =>
    case ServerToolResultKind(kind, id, content) =>
      KindIsTagged(k);
      NotDynamic("text");
      NotDynamic("tool_use");
      NotDynamic("thinking");
      NotDynamic("redacted_thinking");
      NotDynamic("image");
      NotDynamic("server_tool_use");
    case _ =>
      KindIsTagged(k);
      KindFromTag(k);
      hide KindFrom, SerKind, KindTag;
  }

  /** An object is read by its first key alone: when that is a known tag the object means what
      its first field by itself means, so whatever else it holds is lost and it cannot be written
      back; under any other first key the whole object is kept as it came. */
  lemma {:induction false} FirstKeyDecides(fields: map<string, Json>)
    requires fields.Keys != {}
    ensures
      var k, v := LeastKey(fields.Keys), JObj(fields);
      if FixedKind(k) || Dynamic(k) then
        && DeKind(v) == DeKind(JObj(map[k := fields[k]]))
        && (fields.Keys != {k} ==> SerKind(DeKind(v)) != v)
      else DeKind(v) == UnknownKind(v)
  {
    hide Dynamic, LeastKey;
    var k := LeastKey(fields.Keys);
    OneKey(k, fields[k]);
    if FixedKind(k) || Dynamic(k) {
      OneKeyWritten(DeKind(JObj(fields)));
    }
  }

  lemma {:induction false} OneKeyWritten(k: ContentKind)
    ensures !k.UnknownKind? ==> SerKind(k).JObj? && SerKind(k).fields.Keys == {KindTag(k)}
  {
  }

  function SerFinish(r: FinishReason): Json {
    match r
    case Stop => JObj(map["reason" := JStr("stop")])
    case Length => JObj(map["reason" := JStr("length")])
    case ToolUse => JObj(map["reason" := JStr("tool_use")])
    case StopSequence => JObj(map["reason" := JStr("stop_sequence")])
    case Pause => JObj(map["reason" := JStr("pause")])
    case Refusal(category, explanation) =>
      JObj(map["reason" := JStr("refusal"), "category" := JStr(category), "explanation" := OrJNull(explanation)])
    case OtherReason(s) => JObj(map["reason" := JStr(s)])
  }

  function DeFinish(v: Json): Option<FinishReason> {
    if !v.JObj? then None
    else
      match (Str(v.fields, "reason"), OptStr(v.fields, "category"), OptStr(v.fields, "explanation"))
      case (Some(reason), Some(category), Some(explanation)) =>
        Some(if reason == "stop" then Stop
             else if reason == "length" then Length
             else if reason == "tool_use" then ToolUse
             else if reason == "stop_sequence" then StopSequence
             else if reason == "pause" then Pause
             else if reason == "refusal" then Refusal(if category.Some? then category.value else "", explanation)
             else OtherReason(reason))
      case _ => None
  }

  /** A finish reason survives unless an unknown one is spelled like a known one. */
  lemma {:induction false} FinishRoundTrip(r: FinishReason)
    ensures DeFinish(SerFinish(r)) == Some(r) <==>
      (r.OtherReason? ==> r.reason !in {"stop", "length", "tool_use", "stop_sequence", "pause", "refusal"})
  {
  }

  function SerDelta(d: Delta): Json {
    match d
    case TextDelta(t) => JObj(map["text_delta" := JStr(t)])
    case JsonDelta(t) => JObj(map["json_delta" := JStr(t)])
    case ThinkingDelta(t) => JObj(map["thinking_delta" := JStr(t)])
    case SignatureDelta(t) => JObj(map["signature_delta" := JStr(t)])
    case EncryptedReasoningDelta(t) => JObj(map["encrypted_reasoning_delta" := JStr(t)])
    case ImageDelta(t) => JObj(map["image_delta" := JStr(t)])
    case UnknownDelta(v) => v
  }

  function DeltaFrom(v: Json, tag: string): Delta {
    if tag == "text_delta" then TextDelta(StrAt(v, tag))
    else if tag == "json_delta" then JsonDelta(StrAt(v, tag))
    else if tag == "thinking_delta" then ThinkingDelta(StrAt(v, tag))
    else if tag == "signature_delta" then SignatureDelta(StrAt(v, tag))
    else if tag == "encrypted_reasoning_delta" then EncryptedReasoningDelta(StrAt(v, tag))
    else if tag == "image_delta" then ImageDelta(StrAt(v, tag))
    else UnknownDelta(v)
  }

  ghost function DeDelta(v: Json): Delta {
    match TagOf(v)
    case Some(tag) => DeltaFrom(v, tag)
    case None => UnknownDelta(v)
  }

  predicate FixedDelta(tag: string) {
    tag in {"text_delta", "json_delta", "thinking_delta", "signature_delta", "encrypted_reasoning_delta", "image_delta"}
  }

  ghost function DeltaTag(d: Delta): string
    requires !d.UnknownDelta?
  {
    match d
    case TextDelta(_) => "text_delta"
    case JsonDelta(_) => "json_delta"
    case ThinkingDelta(_) => "thinking_delta"
    case SignatureDelta(_) => "signature_delta"
    case EncryptedReasoningDelta(_) => "encrypted_reasoning_delta"
    case ImageDelta(_) => "image_delta"
  }

  lemma {:induction false} DeltaIsTagged(d: Delta)
    requires !d.UnknownDelta?
    ensures TagOf(SerDelta(d)) == Some(DeltaTag(d))
  {
    assert SerDelta(d) == JObj(map[DeltaTag(d) := JStr(d.text)]);
    OneKey(DeltaTag(d), JStr(d.text));
    hide TagOf, SerDelta, DeltaTag;
  }

  lemma {:induction false} DeltaFromTag(d: Delta)
    requires !d.UnknownDelta?
    ensures DeltaFrom(SerDelta(d), DeltaTag(d)) == d
  {
  }

  /** A delta survives exactly when, unknown, it does not read as a known one. */
  lemma {:induction false} DeltaRoundTrip(d: Delta)
    ensures DeDelta(SerDelta(d)) == d <==> (d.UnknownDelta? ==> TagOf(d.value).None? || !FixedDelta(TagOf(d.value).value))
  {
    hide TagOf;
    if !d.UnknownDelta? {
      DeltaIsTagged(d);
      DeltaFromTag(d);
      hide SerDelta, DeltaTag, DeltaFrom;
    }
  }
}
