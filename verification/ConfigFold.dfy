/** The layered configuration fold of src/config/partial: one `or` step that merges scalars,
    the ordered provider list, the ingress table and the open-ended maps. */
module ConfigFold {
  import opened Base
  import opened Canonical

  datatype OutMode = TextMode | Ndjson | RawMode

  datatype ReasoningEffort = Low | Medium | High

  datatype ServiceTier = Priority | Standard

  datatype LossyMode = Adapt | Reject

  /** An `f32` a scalar can carry: only its being a number matters to resolution. */
  datatype Float = NaN | Num(r: real)

  /** A sparse provider row; whole-block fields that are replaced, never merged, stay JSON. */
  datatype PartialProvider = PartialProvider(
    baseUrl: Option<string>, exec: Option<string>, protocol: Option<Json>, auth: Option<Json>,
    apiHeader: Option<Json>, betaHeaders: Option<seq<(string, string)>>,
    generationQuery: Option<seq<(string, string)>>, modelAliases: Option<map<string, string>>,
    contextWindows: Option<map<string, nat>>, modelPrefixes: Option<seq<string>>,
    bodyDefaults: map<string, Json>, unsupportedBodyKeys: Option<seq<string>>, transport: Option<Json>,
    models: Option<Json>, oauth: Option<Json>, ambient: Option<Json>, preset: bool)

  datatype PartialIngress = PartialIngress(
    listen: Option<string>, token: Option<string>, lossy: Option<LossyMode>, lossyOverrides: map<string, LossyMode>)

  type Rows = seq<(string, PartialProvider)>

  datatype PartialConfig = PartialConfig(
    provider: Option<string>, model: Option<string>, baseUrl: Option<string>, apiKey: Option<string>,
    output: Option<OutMode>, rawIn: Option<bool>, thinking: Option<bool>, maxTokens: Option<nat>,
    temperature: Option<Float>, topP: Option<Float>, reasoning: Option<ReasoningEffort>,
    serviceTier: Option<ServiceTier>, image: Option<bool>, stream: Option<bool>, usageFoldThinking: Option<bool>,
    timeout: Option<nat>, system: Option<seq<Content>>, providers: Rows, ingress: Option<PartialIngress>,
    extra: map<string, Json>)

  const DEFAULT_ROW := PartialProvider(
    None, None, None, None, None, None, None, None, None, None, map[], None, None, None, None, None, false)

  const DEFAULT := PartialConfig(
    None, None, None, None, None, None, None, None, None, None, None, None, None, None, None, None, None, [], None, map[])

  // ----- one row, one table, one map -----

  /** The higher layer's keys win; a key only the lower layer has passes through. */
  function OrMap<V>(hi: map<string, V>, lo: map<string, V>): map<string, V> {
    lo + hi
  }

  function OrRow(hi: PartialProvider, lo: PartialProvider): PartialProvider {
    PartialProvider(
      Or(hi.baseUrl, lo.baseUrl), Or(hi.exec, lo.exec), Or(hi.protocol, lo.protocol), Or(hi.auth, lo.auth),
      Or(hi.apiHeader, lo.apiHeader), Or(hi.betaHeaders, lo.betaHeaders),
      Or(hi.generationQuery, lo.generationQuery), Or(hi.modelAliases, lo.modelAliases),
      Or(hi.contextWindows, lo.contextWindows), Or(hi.modelPrefixes, lo.modelPrefixes),
      OrMap(hi.bodyDefaults, lo.bodyDefaults), Or(hi.unsupportedBodyKeys, lo.unsupportedBodyKeys),
      Or(hi.transport, lo.transport), Or(hi.models, lo.models), Or(hi.oauth, lo.oauth), Or(hi.ambient, lo.ambient),
      hi.preset && lo.preset)
  }

  function OrIngress(hi: Option<PartialIngress>, lo: Option<PartialIngress>): Option<PartialIngress> {
    if hi.Some? && lo.Some? then
      Some(PartialIngress(Or(hi.value.listen, lo.value.listen), Or(hi.value.token, lo.value.token),
                          Or(hi.value.lossy, lo.value.lossy), OrMap(hi.value.lossyOverrides, lo.value.lossyOverrides)))
    else Or(hi, lo)
  }

  // ----- the provider list -----

  /** A row by name, if the list has one: the first. */
  function Row(rows: Rows, name: string): Option<PartialProvider> {
    if rows == [] then None else if rows[0].0 == name then Some(rows[0].1) else Row(rows[1..], name)
  }

  /** The list without the first row of that name. */
  function Without(rows: Rows, name: string): (rest: Rows)
    ensures |rest| <= |rows|
  {
    if rows == [] then [] else if rows[0].0 == name then rows[1..] else [rows[0]] + Without(rows[1..], name)
  }

  /** Rows merge where both layers have one, else whichever there is. */
  function OrRows(hi: Option<PartialProvider>, lo: Option<PartialProvider>): Option<PartialProvider> {
    if hi.Some? && lo.Some? then Some(OrRow(hi.value, lo.value)) else Or(hi, lo)
  }

  /** `hi`'s rows in order, each merged with `lo`'s of that name; then what is left of `lo`. */
  function Merge(hi: Rows, lo: Rows): Rows {
    if hi == [] then lo
    else
      var (name, row) := hi[0];
      [(name, OrRows(Some(row), Row(lo, name)).value)] + Merge(hi[1..], Without(lo, name))
  }

  function OrConfig(hi: PartialConfig, lo: PartialConfig): PartialConfig {
    PartialConfig(
      Or(hi.provider, lo.provider), Or(hi.model, lo.model), Or(hi.baseUrl, lo.baseUrl), Or(hi.apiKey, lo.apiKey),
      Or(hi.output, lo.output), Or(hi.rawIn, lo.rawIn), Or(hi.thinking, lo.thinking), Or(hi.maxTokens, lo.maxTokens),
      Or(hi.temperature, lo.temperature), Or(hi.topP, lo.topP), Or(hi.reasoning, lo.reasoning),
      Or(hi.serviceTier, lo.serviceTier), Or(hi.image, lo.image), Or(hi.stream, lo.stream),
      Or(hi.usageFoldThinking, lo.usageFoldThinking), Or(hi.timeout, lo.timeout), Or(hi.system, lo.system),
      Merge(hi.providers, lo.providers), OrIngress(hi.ingress, lo.ingress), OrMap(hi.extra, lo.extra))
  }

  // ----- the loops that do it in place -----

  /** Lift the first row of that name out of a layer, leaving the rest in order. */
  method TakeRow(rows: Rows, name: string) returns (found: Option<PartialProvider>, rest: Rows)
    ensures found == Row(rows, name) && rest == Without(rows, name)
  {
    var at := 0;
    while at < |rows| && rows[at].0 != name
      invariant at <= |rows|
      invariant Row(rows, name) == Row(rows[at..], name)
      invariant Without(rows, name) == rows[..at] + Without(rows[at..], name)
    {
      assert rows[at..][1..] == rows[at + 1..];
      assert rows[..at] + ([rows[at]] + Without(rows[at + 1..], name)) == rows[..at + 1] + Without(rows[at + 1..], name);
      at := at + 1;
    }
    if at == |rows| {
      assert rows[..at] + [] == rows;
      return None, rows;
    }
    assert rows[at..][1..] == rows[at + 1..];
    found, rest := Some(rows[at].1), rows[..at] + rows[at + 1..];
  }

  method MergeProviders(hi: Rows, lo: Rows) returns (out: Rows)
    ensures out == Merge(hi, lo)
  {
    out := [];
    var left := lo;
    var i := 0;
    while i < |hi|
      invariant i <= |hi|
      invariant Merge(hi, lo) == out + Merge(hi[i..], left)
    {
      var (name, row) := hi[i];
      var found, rest := TakeRow(left, name);
      var merged := row;
      match found {
        case Some(lower) => merged := OrRow(row, lower);
        case None =>
      }
      assert hi[i..][1..] == hi[i + 1..];
      assert out + ([(name, merged)] + Merge(hi[i + 1..], rest)) == out + [(name, merged)] + Merge(hi[i + 1..], rest);
      out := out + [(name, merged)];
      left := rest;
      i := i + 1;
    }
    out := out + left;
  }

  method FillMap<V>(hi: map<string, V>, lo: map<string, V>) returns (out: map<string, V>)
    ensures out == OrMap(hi, lo)
  {
    out := hi;
    var todo := lo.Keys;
    while todo != {}
      invariant todo <= lo.Keys && hi.Keys <= out.Keys <= hi.Keys + lo.Keys
      invariant lo.Keys - todo <= out.Keys
      invariant forall k <- out :: out[k] == OrMap(hi, lo)[k]
      decreases todo
    {
      var k :| k in todo;
      if k !in out {
        out := out[k := lo[k]];
      }
      todo := todo - {k};
    }
  }

  /** The fold step: the first operand outranks the second. */
  method FoldStep(hi: PartialConfig, lo: PartialConfig) returns (out: PartialConfig)
    ensures out == OrConfig(hi, lo)
  {
    var providers := MergeProviders(hi.providers, lo.providers);
    var extra := FillMap(hi.extra, lo.extra);
    var ingress := Or(hi.ingress, lo.ingress);
    if hi.ingress.Some? && lo.ingress.Some? {
      var overrides := FillMap(hi.ingress.value.lossyOverrides, lo.ingress.value.lossyOverrides);
      ingress := Some(PartialIngress(
        Or(hi.ingress.value.listen, lo.ingress.value.listen), Or(hi.ingress.value.token, lo.ingress.value.token),
        Or(hi.ingress.value.lossy, lo.ingress.value.lossy), overrides));
    }
    out := OrConfig(hi.(providers := [], ingress := None, extra := map[]), lo.(providers := [], ingress := None, extra := map[]))
           .(providers := providers, ingress := ingress, extra := extra);
  }

  // ----- the fold needs no parentheses -----

  lemma {:induction false} OrMapAssociative<V>(a: map<string, V>, b: map<string, V>, c: map<string, V>)
    ensures OrMap(OrMap(a, b), c) == OrMap(a, OrMap(b, c))
  {
    assert (c + (b + a)) == ((c + b) + a);
  }

  lemma {:induction false} OrRowAssociative(a: PartialProvider, b: PartialProvider, c: PartialProvider)
    ensures OrRow(OrRow(a, b), c) == OrRow(a, OrRow(b, c))
  {
    OrMapAssociative(a.bodyDefaults, b.bodyDefaults, c.bodyDefaults);
  }

  lemma {:induction false} OrRowsAssociative(
    a: Option<PartialProvider>, b: Option<PartialProvider>, c: Option<PartialProvider>)
    ensures OrRows(OrRows(a, b), c) == OrRows(a, OrRows(b, c))
  {
    if a.Some? && b.Some? && c.Some? {
      OrRowAssociative(a.value, b.value, c.value);
    }
    hide OrRow;
  }

  lemma {:induction false} OrIngressAssociative(
    a: Option<PartialIngress>, b: Option<PartialIngress>, c: Option<PartialIngress>)
    ensures OrIngress(OrIngress(a, b), c) == OrIngress(a, OrIngress(b, c))
  {
    if a.Some? && b.Some? && c.Some? {
      OrMapAssociative(a.value.lossyOverrides, b.value.lossyOverrides, c.value.lossyOverrides);
    }
  }

  /** Lifting two different names commutes. */
  lemma {:induction false} TakesCommute(rows: Rows, m: string, n: string)
    requires m != n
    ensures Row(Without(rows, m), n) == Row(rows, n)
    ensures Without(Without(rows, m), n) == Without(Without(rows, n), m)
  {
    if rows != [] {
      TakesCommute(rows[1..], m, n);
      assert rows[0].0 == m ==> rows[1..] == Without(rows, m);
      assert ([rows[0]] + Without(rows[1..], m))[1..] == Without(rows[1..], m);
      assert ([rows[0]] + Without(rows[1..], n))[1..] == Without(rows[1..], n);
    }
  }

  /** Looking a name up in a merged list merges the two rows of that name; lifting it out
      merges what is left. */
  lemma {:induction false} MergedRow(hi: Rows, lo: Rows, name: string)
    ensures Row(Merge(hi, lo), name) == OrRows(Row(hi, name), Row(lo, name))
    ensures Without(Merge(hi, lo), name) == Merge(Without(hi, name), Without(lo, name))
    decreases |hi|
  {
    hide OrRow;
    if hi != [] {
      var (m, row) := hi[0];
      var rest := Merge(hi[1..], Without(lo, m));
      var head := (m, OrRows(Some(row), Row(lo, m)).value);
      assert Merge(hi, lo) == [head] + rest && ([head] + rest)[1..] == rest;
      if m != name {
        MergedRow(hi[1..], Without(lo, m), name);
        TakesCommute(lo, m, name);
        TakesCommute(lo, name, m);
        assert ([hi[0]] + Without(hi[1..], name))[1..] == Without(hi[1..], name);
      }
    }
  }

  lemma {:induction false} MergeAssociative(a: Rows, b: Rows, c: Rows)
    ensures Merge(Merge(a, b), c) == Merge(a, Merge(b, c))
    decreases |a|
  {
    if a != [] {
      var (name, row) := a[0];
      var rest := Merge(a[1..], Without(b, name));
      var head := (name, OrRows(Some(row), Row(b, name)).value);
      assert Merge(a, b) == [head] + rest && ([head] + rest)[1..] == rest;
      MergedRow(b, c, name);
      OrRowsAssociative(Some(row), Row(b, name), Row(c, name));
      MergeAssociative(a[1..], Without(b, name), Without(c, name));
      hide OrRow;
    }
  }

  lemma {:induction false} MergeNothing(rows: Rows)
    ensures Merge(rows, []) == rows && Merge([], rows) == rows
  {
    if rows != [] {
      MergeNothing(rows[1..]);
      assert Without([], rows[0].0) == [] && Row([], rows[0].0) == None;
      assert rows == [(rows[0].0, rows[0].1)] + rows[1..];
    }
  }

  /** `or` is associative on every three layers, repeated row names or not. */
  lemma {:induction false} OrAssociative(a: PartialConfig, b: PartialConfig, c: PartialConfig)
    ensures OrConfig(OrConfig(a, b), c) == OrConfig(a, OrConfig(b, c))
  {
    MergeAssociative(a.providers, b.providers, c.providers);
    OrIngressAssociative(a.ingress, b.ingress, c.ingress);
    OrMapAssociative(a.extra, b.extra, c.extra);
    hide Merge, OrIngress, OrMap;
  }

  /** A missing layer contributes nothing, on either side. */
  lemma {:induction false} DefaultIsIdentity(c: PartialConfig)
    ensures OrConfig(DEFAULT, c) == c && OrConfig(c, DEFAULT) == c
  {
    MergeNothing(c.providers);
    assert OrMap(c.extra, map[]) == c.extra && OrMap(map[], c.extra) == c.extra;
    hide Merge;
  }

  /** The default row is no identity: merging it into a preset row clears the preset mark. */
  lemma {:induction false} DefaultRowIsNoIdentity(row: PartialProvider)
    ensures OrRow(row, DEFAULT_ROW) == row.(preset := false)
    ensures OrRow(DEFAULT_ROW, row) == row.(preset := false)
    ensures OrRow(DEFAULT_ROW, row) == row <==> !row.preset
  {
    assert OrMap(row.bodyDefaults, map[]) == row.bodyDefaults && OrMap(map[], row.bodyDefaults) == row.bodyDefaults;
  }

  /** Any number of layers, highest first. */
  function Layers(layers: seq<PartialConfig>): PartialConfig {
    if layers == [] then DEFAULT else OrConfig(layers[0], Layers(layers[1..]))
  }

  /** However the layers are grouped, the fold is the same. */
  lemma {:induction false} LayersRegroup(a: seq<PartialConfig>, b: seq<PartialConfig>)
    ensures Layers(a + b) == OrConfig(Layers(a), Layers(b))
  {
    if a == [] {
      assert a + b == b;
      DefaultIsIdentity(Layers(b));
    } else {
      assert (a + b)[1..] == a[1..] + b;
      LayersRegroup(a[1..], b);
      OrAssociative(a[0], Layers(a[1..]), Layers(b));
      hide OrConfig;
    }
  }

  // ----- what the merged list is -----

  function Names(rows: Rows): (names: seq<string>)
    ensures |names| == |rows|
  {
    if rows == [] then [] else [rows[0].0] + Names(rows[1..])
  }

  predicate Distinct(names: seq<string>) {
    names == [] || (names[0] !in names[1..] && Distinct(names[1..]))
  }

  /** The names not among the given ones, in order. */
  function Unmentioned(names: seq<string>, taken: seq<string>): seq<string> {
    if names == [] then [] else (if names[0] in taken then [] else [names[0]]) + Unmentioned(names[1..], taken)
  }

  lemma {:induction false} UnmentionedHas(names: seq<string>, taken: seq<string>, n: string)
    ensures n in Unmentioned(names, taken) <==> n in names && n !in taken
  {
    if names != [] {
      UnmentionedHas(names[1..], taken, n);
      assert names == [names[0]] + names[1..];
    }
  }

  lemma {:induction false} UnmentionedStep(names: seq<string>, first: string, taken: seq<string>)
    ensures Unmentioned(Unmentioned(names, [first]), taken) == Unmentioned(names, [first] + taken)
  {
    if names != [] {
      UnmentionedStep(names[1..], first, taken);
      var rest := Unmentioned(names[1..], [first]);
      if names[0] == first {
        assert [] + rest == rest;
      } else {
        assert ([names[0]] + rest)[1..] == rest;
        assert names[0] in [first] + taken <==> names[0] in taken;
      }
    }
  }

  lemma {:induction false} NothingToDrop(names: seq<string>, n: string)
    requires n !in names
    ensures Unmentioned(names, [n]) == names
  {
    if names != [] {
      NothingToDrop(names[1..], n);
      assert names == [names[0]] + names[1..];
    }
  }

  lemma {:induction false} NamesWithout(rows: Rows, n: string)
    requires Distinct(Names(rows))
    ensures Names(Without(rows, n)) == Unmentioned(Names(rows), [n])
  {
    if rows != [] {
      assert Names(rows)[1..] == Names(rows[1..]);
      if rows[0].0 == n {
        NothingToDrop(Names(rows[1..]), n);
      } else {
        NamesWithout(rows[1..], n);
        assert ([rows[0]] + Without(rows[1..], n))[1..] == Without(rows[1..], n);
      }
    }
  }

  lemma {:induction false} UnmentionedDistinct(names: seq<string>, taken: seq<string>)
    requires Distinct(names)
    ensures Distinct(Unmentioned(names, taken))
  {
    if names != [] {
      var rest := Unmentioned(names[1..], taken);
      UnmentionedDistinct(names[1..], taken);
      UnmentionedHas(names[1..], taken, names[0]);
      assert ([names[0]] + rest)[1..] == rest && [] + rest == rest;
    }
  }

  /** Order: the higher layer's rows first, then the lower rows it never mentioned, in their
      own order. */
  lemma {:induction false} MergedOrder(hi: Rows, lo: Rows)
    requires Distinct(Names(lo))
    ensures Names(Merge(hi, lo)) == Names(hi) + Unmentioned(Names(lo), Names(hi))
    decreases |hi|
  {
    if hi == [] {
      AllUnmentioned(Names(lo));
    } else {
      var left := Without(lo, hi[0].0);
      MergeHead(hi, lo);
      NamesWithout(lo, hi[0].0);
      UnmentionedDistinct(Names(lo), [hi[0].0]);
      MergedOrder(hi[1..], left);
      NamesJoin(hi[0].0, Names(hi[1..]), Names(lo), Names(left), Names(Merge(hi[1..], left)));
      hide Merge, Without, Unmentioned, Distinct;
    }
  }

  lemma {:induction false} NamesJoin(
    n: string, tail: seq<string>, lo: seq<string>, left: seq<string>, merged: seq<string>)
    requires left == Unmentioned(lo, [n]) && merged == tail + Unmentioned(left, tail)
    ensures [n] + merged == [n] + tail + Unmentioned(lo, [n] + tail)
  {
    UnmentionedStep(lo, n, tail);
    hide Unmentioned;
  }

  lemma {:induction false} MergeHead(hi: Rows, lo: Rows)
    requires hi != []
    ensures Names(Merge(hi, lo)) == [hi[0].0] + Names(Merge(hi[1..], Without(lo, hi[0].0)))
  {
    var rest := Merge(hi[1..], Without(lo, hi[0].0));
    var head := (hi[0].0, OrRows(Some(hi[0].1), Row(lo, hi[0].0)).value);
    assert Merge(hi, lo) == [head] + rest && ([head] + rest)[1..] == rest;
    hide OrRows, Row, Without;
  }

  lemma {:induction false} AllUnmentioned(names: seq<string>)
    ensures Unmentioned(names, []) == names
  {
    if names != [] {
      AllUnmentioned(names[1..]);
      assert names == [names[0]] + names[1..];
    }
  }

  lemma {:induction false} DistinctJoins(a: seq<string>, b: seq<string>)
    requires Distinct(a) && Distinct(b) && forall n <- a :: n !in b
    ensures Distinct(a + b)
  {
    if a == [] {
      assert a + b == b;
    } else {
      assert (a + b)[1..] == a[1..] + b;
      DistinctJoins(a[1..], b);
    }
  }

  /** Unique names stay unique. */
  lemma {:induction false} MergeKeepsNamesUnique(hi: Rows, lo: Rows)
    requires Distinct(Names(hi)) && Distinct(Names(lo))
    ensures Distinct(Names(Merge(hi, lo)))
  {
    MergedOrder(hi, lo);
    UnmentionedDistinct(Names(lo), Names(hi));
    forall n | n in Names(hi)
      ensures n !in Unmentioned(Names(lo), Names(hi))
    {
      UnmentionedHas(Names(lo), Names(hi), n);
    }
    DistinctJoins(Names(hi), Unmentioned(Names(lo), Names(hi)));
  }

  /** The rows the layers hold under one name, highest first. */
  function RowsOf(layers: seq<PartialConfig>, name: string): seq<PartialProvider> {
    if layers == [] then []
    else
      var first := Row(layers[0].providers, name);
      (if first.Some? then [first.value] else []) + RowsOf(layers[1..], name)
  }

  function OrAll(rows: seq<PartialProvider>): PartialProvider
    requires rows != []
  {
    if |rows| == 1 then rows[0] else OrRow(rows[0], OrAll(rows[1..]))
  }

  lemma {:induction false} PresetOfAll(rows: seq<PartialProvider>)
    requires rows != []
    ensures OrAll(rows).preset <==> forall r <- rows :: r.preset
  {
    if |rows| > 1 {
      PresetOfAll(rows[1..]);
      assert rows == [rows[0]] + rows[1..];
    }
  }

  /** A row of the folded configuration is the field-wise `or` of every layer's row of that
      name, and is a preset exactly when every layer naming it is the catalog's. */
  lemma {:induction false} FoldedRow(layers: seq<PartialConfig>, name: string)
    ensures
      var rows := RowsOf(layers, name);
      var row := Row(Layers(layers).providers, name);
      && (row.Some? <==> rows != [])
      && (row.Some? ==> row.value == OrAll(rows) && (row.value.preset <==> forall r <- rows :: r.preset))
  {
    if layers != [] {
      FoldedRow(layers[1..], name);
      MergedRow(layers[0].providers, Layers(layers[1..]).providers, name);
      var first := Row(layers[0].providers, name);
      var rest := RowsOf(layers[1..], name);
      if first.Some? {
        assert ([first.value] + rest)[1..] == rest;
      } else {
        assert [] + rest == rest;
      }
      if RowsOf(layers, name) != [] {
        PresetOfAll(RowsOf(layers, name));
      }
      hide OrRow;
    }
  }
}
