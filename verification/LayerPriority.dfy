/** What the layered fold of src/config/partial is for: whatever a configuration can hold, the
    first layer that says it decides. */
module LayerPriority {
  import opened Base
  import opened Canonical
  import opened ConfigFold

  datatype Scalar =
    | Provider | Model | BaseUrl | ApiKey | Output | RawIn | Thinking | MaxTokens | Temperature | TopP
    | Reasoning | Tier | Image | Streams | UsageFoldThinking | Timeout | SystemText

  datatype RowField =
    | RowBaseUrl | Exec | Protocol | Auth | ApiHeader | BetaHeaders | GenerationQuery | ModelAliases
    | ContextWindows | ModelPrefixes | UnsupportedBodyKeys | Transport | RowModels | OAuth | Ambient

  datatype IngressField = Listen | Token | Lossy

  /** Every place of a configuration that holds at most one value: a scalar, a key of the open map,
      a provider row and each field and body default of it, the ingress table and each of its
      fields and overrides. */
  datatype Slot =
    | Top(scalar: Scalar)
    | Extra(key: string)
    | HasRow(name: string)
    | RowSlot(name: string, field: RowField)
    | BodyDefault(name: string, key: string)
    | HasIngress
    | IngressSlot(part: IngressField)
    | LossyOverride(key: string)

  datatype Value =
    | Present
    | AString(s: string) | AMode(mode: OutMode) | ABool(b: bool) | ANat(n: nat) | AFloat(f: Float)
    | AnEffort(effort: ReasoningEffort) | ATier(tier: ServiceTier) | Blocks(blocks: seq<Content>) | Tree(json: Json)
    | Pairs(pairs: seq<(string, string)>) | Aliases(aliases: map<string, string>) | Windows(windows: map<string, nat>)
    | Strings(strings: seq<string>) | ALossy(lossy: LossyMode)

  function As<T>(x: Option<T>, wrap: T -> Value): Option<Value> {
    if x.Some? then Some(wrap(x.value)) else None
  }

  function GetScalar(c: PartialConfig, s: Scalar): Option<Value> {
    match s
    case Provider => As(c.provider, (x: string) => AString(x))
    case Model => As(c.model, (x: string) => AString(x))
    case BaseUrl => As(c.baseUrl, (x: string) => AString(x))
    case ApiKey => As(c.apiKey, (x: string) => AString(x))
    case Output => As(c.output, (x: OutMode) => AMode(x))
    case RawIn => As(c.rawIn, (x: bool) => ABool(x))
    case Thinking => As(c.thinking, (x: bool) => ABool(x))
    case MaxTokens => As(c.maxTokens, (x: nat) => ANat(x))
    case Temperature => As(c.temperature, (x: Float) => AFloat(x))
    case TopP => As(c.topP, (x: Float) => AFloat(x))
    case Reasoning => As(c.reasoning, (x: ReasoningEffort) => AnEffort(x))
    case Tier => As(c.serviceTier, (x: ServiceTier) => ATier(x))
    case Image => As(c.image, (x: bool) => ABool(x))
    case Streams => As(c.stream, (x: bool) => ABool(x))
    case UsageFoldThinking => As(c.usageFoldThinking, (x: bool) => ABool(x))
    case Timeout => As(c.timeout, (x: nat) => ANat(x))
    case SystemText => As(c.system, (x: seq<Content>) => Blocks(x))
  }

  function GetField(row: PartialProvider, f: RowField): Option<Value> {
    match f
    case RowBaseUrl => As(row.baseUrl, (x: string) => AString(x))
    case Exec => As(row.exec, (x: string) => AString(x))
    case Protocol => As(row.protocol, (x: Json) => Tree(x))
    case Auth => As(row.auth, (x: Json) => Tree(x))
    case ApiHeader => As(row.apiHeader, (x: Json) => Tree(x))
    case BetaHeaders => As(row.betaHeaders, (x: seq<(string, string)>) => Pairs(x))
    case GenerationQuery => As(row.generationQuery, (x: seq<(string, string)>) => Pairs(x))
    case ModelAliases => As(row.modelAliases, (x: map<string, string>) => Aliases(x))
    case ContextWindows => As(row.contextWindows, (x: map<string, nat>) => Windows(x))
    case ModelPrefixes => As(row.modelPrefixes, (x: seq<string>) => Strings(x))
    case UnsupportedBodyKeys => As(row.unsupportedBodyKeys, (x: seq<string>) => Strings(x))
    case Transport => As(row.transport, (x: Json) => Tree(x))
    case RowModels => As(row.models, (x: Json) => Tree(x))
    case OAuth => As(row.oauth, (x: Json) => Tree(x))
    case Ambient => As(row.ambient, (x: Json) => Tree(x))
  }

  function GetIngress(t: PartialIngress, f: IngressField): Option<Value> {
    match f
    case Listen => As(t.listen, (x: string) => AString(x))
    case Token => As(t.token, (x: string) => AString(x))
    case Lossy => As(t.lossy, (x: LossyMode) => ALossy(x))
  }

  function At<V>(m: map<string, V>, key: string): Option<V> {
    if key in m then Some(m[key]) else None
  }

  /** What a configuration holds at a place. */
  function Get(c: PartialConfig, slot: Slot): Option<Value> {
    match slot
    case Top(s) => GetScalar(c, s)
    case Extra(key) => As(At(c.extra, key), (x: Json) => Tree(x))
    case HasRow(name) => if Row(c.providers, name).Some? then Some(Present) else None
    case RowSlot(name, f) =>
      var row := Row(c.providers, name);
      if row.Some? then GetField(row.value, f) else None
    case BodyDefault(name, key) =>
      var row := Row(c.providers, name);
      if row.Some? then As(At(row.value.bodyDefaults, key), (x: Json) => Tree(x)) else None
    case HasIngress => if c.ingress.Some? then Some(Present) else None
    case IngressSlot(f) => if c.ingress.Some? then GetIngress(c.ingress.value, f) else None
    case LossyOverride(key) =>
      if c.ingress.Some? then As(At(c.ingress.value.lossyOverrides, key), (x: LossyMode) => ALossy(x)) else None
  }

  // ----- one step -----

  lemma {:induction false} ScalarOutranks(hi: PartialConfig, lo: PartialConfig, s: Scalar)
    ensures GetScalar(OrConfig(hi, lo), s) == Or(GetScalar(hi, s), GetScalar(lo, s))
  {
    hide Merge, OrIngress, OrMap;
  }

  lemma {:induction false} FieldOutranks(hi: PartialProvider, lo: PartialProvider, f: RowField)
    ensures GetField(OrRow(hi, lo), f) == Or(GetField(hi, f), GetField(lo, f))
  {
    hide OrMap;
  }

  lemma {:induction false} KeyOutranks<V>(hi: map<string, V>, lo: map<string, V>, key: string)
    ensures At(OrMap(hi, lo), key) == Or(At(hi, key), At(lo, key))
  {
  }

  lemma {:induction false} Outranks(hi: PartialConfig, lo: PartialConfig, slot: Slot)
    ensures Get(OrConfig(hi, lo), slot) == Or(Get(hi, slot), Get(lo, slot))
  {
    hide GetScalar, GetField, OrRow, OrMap, Merge, Row, At;
    match slot
    case Top(s) => ScalarOutranks(hi, lo, s);
    case Extra(key) => KeyOutranks(hi.extra, lo.extra, key);
    case HasRow(name) => MergedRow(hi.providers, lo.providers, name);
    case RowSlot(name, f) =>
      MergedRow(hi.providers, lo.providers, name);
      var a, b := Row(hi.providers, name), Row(lo.providers, name);
      if a.Some? && b.Some? {
        FieldOutranks(a.value, b.value, f);
      }
    case BodyDefault(name, key) =>
      MergedRow(hi.providers, lo.providers, name);
      var a, b := Row(hi.providers, name), Row(lo.providers, name);
      if a.Some? && b.Some? {
        RowDefaults(a.value, b.value);
        KeyOutranks(a.value.bodyDefaults, b.value.bodyDefaults, key);
      }
    case HasIngress =>
    case IngressSlot(f) =>
    case LossyOverride(key) =>
      if hi.ingress.Some? && lo.ingress.Some? {
        KeyOutranks(hi.ingress.value.lossyOverrides, lo.ingress.value.lossyOverrides, key);
      }
  }

  lemma {:induction false} RowDefaults(hi: PartialProvider, lo: PartialProvider)
    ensures OrRow(hi, lo).bodyDefaults == OrMap(hi.bodyDefaults, lo.bodyDefaults)
  {
  }

  lemma {:induction false} NothingByDefault(slot: Slot)
    ensures Get(DEFAULT, slot) == None
  {
  }

  // ----- any number of layers -----

  /** At every place the folded configuration holds something exactly when some layer does, and
      then it is what the first such layer says. */
  lemma {:induction false} FirstLayerWins(layers: seq<PartialConfig>, slot: Slot)
    ensures match Get(Layers(layers), slot)
            case None => forall i :: 0 <= i < |layers| ==> Get(layers[i], slot).None?
            case Some(v) =>
              exists i :: 0 <= i < |layers| && Get(layers[i], slot) == Some(v)
                          && forall j :: 0 <= j < i ==> Get(layers[j], slot).None?
  {
    hide Get, OrConfig;
    if layers == [] {
      NothingByDefault(slot);
    } else {
      var rest := layers[1..];
      Outranks(layers[0], Layers(rest), slot);
      FirstLayerWins(rest, slot);
      if Get(layers[0], slot).None? {
        forall j | 0 <= j < |layers|
          ensures j > 0 ==> Get(layers[j], slot) == Get(rest[j - 1], slot)
        {
        }
        if Get(Layers(rest), slot).Some? {
          var i :| 0 <= i < |rest| && Get(rest[i], slot) == Get(Layers(rest), slot)
                   && forall j :: 0 <= j < i ==> Get(rest[j], slot).None?;
          assert Get(layers[i + 1], slot) == Get(Layers(layers), slot);
        }
      } else {
        assert Get(layers[0], slot) == Get(Layers(layers), slot);
      }
    }
  }
}
