/** Routing over the folded configuration (src/config/resolve/mod.rs): one provider row is
    chosen greedily, once per ownership tier, and the model alias substituted once. */
module Routing {
  import opened Base
  import opened ConfigFold
  import opened Models

  datatype ConfigError = UnknownProvider(name: string) | NoProvider | BadValue(key: string, detail: string)

  /** Which rows the table holds; whether a preset has a credential is the caller's to say. */
  type Credentialed = (string, PartialProvider) -> bool

  predicate Routable(name: string, row: PartialProvider, holds: Credentialed) {
    !row.preset || holds(name, row)
  }

  // ----- the two ownership tiers -----

  predicate Prefixed(prefixes: seq<string>, model: string) {
    exists p <- prefixes :: p <= model
  }

  /** Tier 1: the row spells the model as an alias or claims its family. */
  predicate RowClaims(row: PartialProvider, model: string) {
    || (row.modelAliases.Some? && model in row.modelAliases.value)
    || (row.modelPrefixes.Some? && Prefixed(row.modelPrefixes.value, model))
  }

  /** Tier 2: the row's observed list can place it; no discovery seam is a cold cache. */
  predicate CachePlaces(cache: Option<Cache>, provider: string, model: string) {
    var doc := if cache.Some? then DocOf(cache.value, provider) else NO_MODELS;
    match SelectModel(doc, model, provider)
    case Ok((_, Cached)) => true
    case _ => false
  }

  /** A row claims the models it spells as an alias and those beginning with one of its prefixes,
      and no other; an empty list of prefixes claims nothing. */
  lemma {:induction false} ClaimsIs(row: PartialProvider, model: string)
    ensures RowClaims(row, model) <==>
      || (row.modelAliases.Some? && model in row.modelAliases.value.Keys)
      || (row.modelPrefixes.Some? &&
            exists i :: 0 <= i < |row.modelPrefixes.value|
                        && |row.modelPrefixes.value[i]| <= |model|
                        && model[..|row.modelPrefixes.value[i]|] == row.modelPrefixes.value[i])
  {
    if row.modelPrefixes.Some? {
      var prefixes := row.modelPrefixes.value;
      if Prefixed(prefixes, model) {
        var p :| p in prefixes && p <= model;
        var i :| 0 <= i < |prefixes| && prefixes[i] == p;
        assert model[..|prefixes[i]|] == prefixes[i];
      }
      if i :| 0 <= i < |prefixes| && |prefixes[i]| <= |model| && model[..|prefixes[i]|] == prefixes[i] {
        assert prefixes[i] in prefixes;
      }
    }
  }

  /** A provider's cache places a model exactly when its list holds an id that is the model or in
      which it stands, case aside; a missing cache places nothing. */
  lemma {:induction false} PlacesIs(cache: Option<Cache>, provider: string, model: string)
    requires model != ""
    ensures CachePlaces(cache, provider, model) <==>
      && cache.Some? && provider in cache.value
      && exists m <- cache.value[provider].models :: m.id == model || exists i :: StandsAt(m.id, model, i)
  {
    var doc := if cache.Some? then DocOf(cache.value, provider) else NO_MODELS;
    SelectIsHonest(doc, model, provider);
    forall m | m in doc.models
      ensures Fits(m.id, model) <==> exists i :: StandsAt(m.id, model, i)
    {
      FitsIs(m.id, model);
    }
    hide Fits, StandsAt;
  }

  // ----- the greedy scans -----

  function FirstRoutable(rows: Rows, holds: Credentialed): Option<(string, PartialProvider)> {
    if rows == [] then None
    else if Routable(rows[0].0, rows[0].1, holds) then Some(rows[0])
    else FirstRoutable(rows[1..], holds)
  }

  function FirstClaim(rows: Rows, holds: Credentialed, model: string): Option<(string, PartialProvider)> {
    if rows == [] then None
    else if Routable(rows[0].0, rows[0].1, holds) && RowClaims(rows[0].1, model) then Some(rows[0])
    else FirstClaim(rows[1..], holds, model)
  }

  function FirstPlaced(
    rows: Rows, holds: Credentialed, cache: Option<Cache>, model: string): Option<(string, PartialProvider)> {
    if rows == [] then None
    else if Routable(rows[0].0, rows[0].1, holds) && CachePlaces(cache, rows[0].0, model) then Some(rows[0])
    else FirstPlaced(rows[1..], holds, cache, model)
  }

  function Route(cfg: PartialConfig, model: Option<string>, cache: Option<Cache>, holds: Credentialed)
    : Result<(string, PartialProvider), ConfigError>
  {
    if cfg.provider.Some? then
      match Row(cfg.providers, cfg.provider.value)
      case Some(row) => Ok((cfg.provider.value, row))
      case None => Err(UnknownProvider(cfg.provider.value))
    else
      var hit := match model
                 case None => FirstRoutable(cfg.providers, holds)
                 case Some(m) => Or(FirstClaim(cfg.providers, holds, m), FirstPlaced(cfg.providers, holds, cache, m));
      match hit
      case Some(row) => Ok(row)
      case None => Err(NoProvider)
  }

  // ----- validation -----

  predicate HasEmptyPrefix(row: PartialProvider) {
    row.modelPrefixes.Some? && "" in row.modelPrefixes.value
  }

  function EmptyPrefix(name: string): ConfigError {
    BadValue("model_prefixes", "provider `" + name + "`: an empty prefix would own every model")
  }

  function BadPrefix(rows: Rows): Option<ConfigError> {
    if rows == [] then None
    else if HasEmptyPrefix(rows[0].1) then Some(EmptyPrefix(rows[0].0))
    else BadPrefix(rows[1..])
  }

  /** The first row with an empty prefix is refused; every row is looked at, not the routed one. */
  method CheckPrefixes(rows: Rows) returns (bad: Option<ConfigError>)
    ensures bad == BadPrefix(rows)
    ensures bad.None? <==> forall r <- rows :: !HasEmptyPrefix(r.1)
  {
    var i := 0;
    while i < |rows|
      invariant i <= |rows| && BadPrefix(rows) == BadPrefix(rows[i..])
      invariant forall j :: 0 <= j < i ==> !HasEmptyPrefix(rows[j].1)
    {
      assert rows[i..][1..] == rows[i + 1..];
      if HasEmptyPrefix(rows[i].1) {
        return Some(EmptyPrefix(rows[i].0));
      }
      i := i + 1;
    }
    return None;
  }

  function CheckScalars(cfg: PartialConfig): Option<ConfigError> {
    if cfg.maxTokens == Some(0) then Some(BadValue("max_tokens", "must be greater than zero"))
    else if cfg.temperature == Some(NaN) then Some(BadValue("temperature", "must be a number"))
    else if cfg.topP == Some(NaN) then Some(BadValue("top_p", "must be a number"))
    else BadPrefix(cfg.providers)
  }

  // ----- resolution: route, then substitute the alias once -----

  /** An empty routing model is absence. */
  function RoutingModel(requested: Option<string>, cfg: PartialConfig): Option<string> {
    var m := Or(requested, cfg.model);
    if m == Some("") then None else m
  }

  datatype Resolved = Resolved(name: string, row: PartialProvider, seed: string)

  function Seed(row: PartialProvider, model: Option<string>): string {
    match model
    case None => ""
    case Some(m) => if row.modelAliases.Some? && m in row.modelAliases.value then row.modelAliases.value[m] else m
  }

  /** The routing and alias part of `into_resolved`. */
  function Resolve(cfg: PartialConfig, requested: Option<string>, cache: Option<Cache>, holds: Credentialed)
    : Result<Resolved, ConfigError>
  {
    var bad := CheckScalars(cfg);
    if bad.Some? then Err(bad.value)
    else
      var model := RoutingModel(requested, cfg);
      match Route(cfg, model, cache, holds)
      case Err(e) => Err(e)
      case Ok((name, row)) => Ok(Resolved(name, row.(baseUrl := Or(cfg.baseUrl, row.baseUrl)), Seed(row, model)))
  }

  /** What resolution comes to once a provider is routed: the row with the top-level host over its
      own, and the seed, which is the alias's target when the row spells the model as an alias, the
      model itself when it does not, and nothing without a model. An empty model is no model. */
  lemma {:induction false} ResolveIs(cfg: PartialConfig, requested: Option<string>, cache: Option<Cache>, holds: Credentialed)
    ensures
      var model := if requested.Some? then requested else cfg.model;
      var asked := model.Some? && model.value != "";
      var routed := Route(cfg, if asked then model else None, cache, holds);
      match Resolve(cfg, requested, cache, holds)
      case Err(e) => CheckScalars(cfg) == Some(e) || (CheckScalars(cfg) == None && routed == Err(e))
      case Ok(r) =>
        && CheckScalars(cfg) == None && routed.Ok? && routed.value.0 == r.name
        && var row := routed.value.1;
           && r.row.(baseUrl := None) == row.(baseUrl := None)
           && r.row.baseUrl == (if cfg.baseUrl.Some? then cfg.baseUrl else row.baseUrl)
           && (!asked ==> r.seed == "")
           && (asked && row.modelAliases.Some? && model.value in row.modelAliases.value ==> r.seed == row.modelAliases.value[model.value])
           && (asked && !(row.modelAliases.Some? && model.value in row.modelAliases.value) ==> r.seed == model.value)
  {
    hide Route, CheckScalars;
  }

  /** A value that cannot be meant is refused, in this order; only then are the prefixes looked at. */
  lemma {:induction false} ScalarsAre(cfg: PartialConfig)
    ensures CheckScalars(cfg) == None <==>
      && cfg.maxTokens != Some(0) && cfg.temperature != Some(NaN) && cfg.topP != Some(NaN)
      && forall r <- cfg.providers :: r.1.modelPrefixes.Some? ==> "" !in r.1.modelPrefixes.value
    ensures CheckScalars(cfg).Some? ==>
      var key := if cfg.maxTokens == Some(0) then "max_tokens"
                 else if cfg.temperature == Some(NaN) then "temperature"
                 else if cfg.topP == Some(NaN) then "top_p"
                 else "model_prefixes";
      CheckScalars(cfg).value.BadValue? && CheckScalars(cfg).value.key == key
  {
    BadPrefixIs(cfg.providers);
    hide BadPrefix;
  }

  lemma {:induction false} BadPrefixIs(rows: Rows)
    ensures BadPrefix(rows).None? <==> forall r <- rows :: r.1.modelPrefixes.Some? ==> "" !in r.1.modelPrefixes.value
    ensures BadPrefix(rows).Some? ==> BadPrefix(rows).value.BadValue? && BadPrefix(rows).value.key == "model_prefixes"
  {
    if rows != [] {
      BadPrefixIs(rows[1..]);
      assert forall r <- rows :: r == rows[0] || r in rows[1..];
    }
  }

  /** A preset is in the table only while a credential resolves for it; any other row always is. */
  lemma {:induction false} RoutableIs(name: string, row: PartialProvider, holds: Credentialed)
    ensures !row.preset ==> Routable(name, row, holds)
    ensures row.preset ==> (Routable(name, row, holds) <==> holds(name, row))
  {
  }

  // ----- what a scan finds -----

  lemma {:induction false} FirstClaimIs(rows: Rows, holds: Credentialed, model: string)
    ensures FirstClaim(rows, holds, model).None? <==>
      forall r <- rows :: !(Routable(r.0, r.1, holds) && RowClaims(r.1, model))
    ensures FirstClaim(rows, holds, model).Some? ==>
      exists i :: 0 <= i < |rows| && Claims(rows, i, holds, model) && FirstClaim(rows, holds, model) == Some(rows[i])
                  && forall j :: 0 <= j < i ==> !Claims(rows, j, holds, model)
  {
    hide RowClaims, Routable;
    if rows != [] {
      FirstClaimIs(rows[1..], holds, model);
      assert forall r <- rows :: r == rows[0] || r in rows[1..];
      if Claims(rows, 0, holds, model) {
        assert FirstClaim(rows, holds, model) == Some(rows[0]);
      } else if FirstClaim(rows, holds, model).Some? {
        var i :| 0 <= i < |rows| - 1 && Claims(rows[1..], i, holds, model) && FirstClaim(rows[1..], holds, model) == Some(rows[1..][i])
                 && forall j :: 0 <= j < i ==> !Claims(rows[1..], j, holds, model);
        forall j | 0 <= j < i + 1
          ensures !Claims(rows, j, holds, model)
        {
          assert j > 0 ==> Claims(rows, j, holds, model) == Claims(rows[1..], j - 1, holds, model);
        }
        assert Claims(rows, i + 1, holds, model);
      }
    }
  }

  predicate Claims(rows: Rows, i: int, holds: Credentialed, model: string)
    requires 0 <= i < |rows|
  {
    Routable(rows[i].0, rows[i].1, holds) && RowClaims(rows[i].1, model)
  }

  predicate Places(rows: Rows, i: int, holds: Credentialed, cache: Option<Cache>, model: string)
    requires 0 <= i < |rows|
  {
    Routable(rows[i].0, rows[i].1, holds) && CachePlaces(cache, rows[i].0, model)
  }

  lemma {:induction false} FirstPlacedIs(rows: Rows, holds: Credentialed, cache: Option<Cache>, model: string)
    ensures FirstPlaced(rows, holds, cache, model).None? <==>
      forall r <- rows :: !(Routable(r.0, r.1, holds) && CachePlaces(cache, r.0, model))
    ensures FirstPlaced(rows, holds, cache, model).Some? ==>
      exists i :: 0 <= i < |rows| && Places(rows, i, holds, cache, model) && FirstPlaced(rows, holds, cache, model) == Some(rows[i])
                  && forall j :: 0 <= j < i ==> !Places(rows, j, holds, cache, model)
  {
    hide CachePlaces, Routable;
    if rows != [] {
      FirstPlacedIs(rows[1..], holds, cache, model);
      assert forall r <- rows :: r == rows[0] || r in rows[1..];
      if Places(rows, 0, holds, cache, model) {
        assert FirstPlaced(rows, holds, cache, model) == Some(rows[0]);
      } else if FirstPlaced(rows, holds, cache, model).Some? {
        var i :| 0 <= i < |rows| - 1 && Places(rows[1..], i, holds, cache, model)
                 && FirstPlaced(rows[1..], holds, cache, model) == Some(rows[1..][i])
                 && forall j :: 0 <= j < i ==> !Places(rows[1..], j, holds, cache, model);
        forall j | 0 <= j < i + 1
          ensures !Places(rows, j, holds, cache, model)
        {
          assert j > 0 ==> Places(rows, j, holds, cache, model) == Places(rows[1..], j - 1, holds, cache, model);
        }
        assert Places(rows, i + 1, holds, cache, model);
      }
    }
  }

  // ----- the routing rule -----

  lemma {:induction false} FirstRoutableIs(rows: Rows, holds: Credentialed)
    ensures FirstRoutable(rows, holds).None? <==> forall r <- rows :: !Routable(r.0, r.1, holds)
    ensures FirstRoutable(rows, holds).Some? ==>
      exists i :: 0 <= i < |rows| && Held(rows, i, holds) && FirstRoutable(rows, holds) == Some(rows[i])
                  && forall j :: 0 <= j < i ==> !Held(rows, j, holds)
  {
    hide Routable;
    if rows != [] {
      FirstRoutableIs(rows[1..], holds);
      assert forall r <- rows :: r == rows[0] || r in rows[1..];
      if Held(rows, 0, holds) {
        assert FirstRoutable(rows, holds) == Some(rows[0]);
      } else if FirstRoutable(rows, holds).Some? {
        var i :| 0 <= i < |rows| - 1 && Held(rows[1..], i, holds) && FirstRoutable(rows[1..], holds) == Some(rows[1..][i])
                 && forall j :: 0 <= j < i ==> !Held(rows[1..], j, holds);
        forall j | 0 <= j < i + 1
          ensures !Held(rows, j, holds)
        {
          assert j > 0 ==> Held(rows, j, holds) == Held(rows[1..], j - 1, holds);
        }
        assert Held(rows, i + 1, holds);
      }
    }
  }

  predicate Held(rows: Rows, i: int, holds: Credentialed)
    requires 0 <= i < |rows|
  {
    Routable(rows[i].0, rows[i].1, holds)
  }

  predicate Named(rows: Rows, i: int, name: string)
    requires 0 <= i < |rows|
  {
    rows[i].0 == name
  }

  lemma {:induction false} RowIs(rows: Rows, name: string)
    ensures Row(rows, name).None? <==> forall r <- rows :: r.0 != name
    ensures Row(rows, name).Some? ==>
      exists i :: 0 <= i < |rows| && Named(rows, i, name) && Row(rows, name) == Some(rows[i].1)
                  && forall j :: 0 <= j < i ==> !Named(rows, j, name)
  {
    if rows != [] {
      RowIs(rows[1..], name);
      assert forall r <- rows :: r == rows[0] || r in rows[1..];
      if Named(rows, 0, name) {
        assert Row(rows, name) == Some(rows[0].1);
      } else if Row(rows, name).Some? {
        var i :| 0 <= i < |rows| - 1 && Named(rows[1..], i, name) && Row(rows[1..], name) == Some(rows[1..][i].1)
                 && forall j :: 0 <= j < i ==> !Named(rows[1..], j, name);
        forall j | 0 <= j < i + 1
          ensures !Named(rows, j, name)
        {
          assert j > 0 ==> Named(rows, j, name) == Named(rows[1..], j - 1, name);
        }
        assert Named(rows, i + 1, name);
      }
    }
  }

  /** The whole rule. A name takes the first row of that name, routable or not, and nothing else
      is asked. Without one, a model takes the first routable row claiming it, failing any claim
      the first routable one whose cache places it; and no model takes the first routable row.
      The errors are what is left. */
  lemma {:induction false} RouteIsGreedy(
    cfg: PartialConfig, requested: Option<string>, cache: Option<Cache>, holds: Credentialed)
    ensures
      var rows := cfg.providers;
      match (cfg.provider, requested, Route(cfg, requested, cache, holds))
      case (Some(name), _, Ok(row)) =>
        exists i :: 0 <= i < |rows| && Named(rows, i, name) && row == rows[i] && forall j :: 0 <= j < i ==> !Named(rows, j, name)
      case (Some(name), _, Err(e)) =>
        e == UnknownProvider(name) && forall j :: 0 <= j < |rows| ==> !Named(rows, j, name)
      case (None, Some(model), Ok(row)) =>
        || (exists i :: 0 <= i < |rows| && Claims(rows, i, holds, model) && row == rows[i]
                        && forall j :: 0 <= j < i ==> !Claims(rows, j, holds, model))
        || (&& (forall j :: 0 <= j < |rows| ==> !Claims(rows, j, holds, model))
            && exists i :: 0 <= i < |rows| && Places(rows, i, holds, cache, model) && row == rows[i]
                           && forall j :: 0 <= j < i ==> !Places(rows, j, holds, cache, model))
      case (None, Some(model), Err(e)) =>
        e == NoProvider && forall j :: 0 <= j < |rows| ==> !Claims(rows, j, holds, model) && !Places(rows, j, holds, cache, model)
      case (None, None, Ok(row)) =>
        exists i :: 0 <= i < |rows| && Held(rows, i, holds) && row == rows[i] && forall j :: 0 <= j < i ==> !Held(rows, j, holds)
      case (None, None, Err(e)) =>
        e == NoProvider && forall j :: 0 <= j < |rows| ==> !Held(rows, j, holds)
  {
    hide RowClaims, CachePlaces, Routable, FirstClaim, FirstPlaced, FirstRoutable, Row;
    var rows := cfg.providers;
    assert forall j :: 0 <= j < |rows| ==> rows[j] in rows;
    if cfg.provider.Some? {
      RowIs(rows, cfg.provider.value);
    } else if requested.Some? {
      FirstClaimIs(rows, holds, requested.value);
      FirstPlacedIs(rows, holds, cache, requested.value);
    } else {
      FirstRoutableIs(rows, holds);
    }
  }

  /** A claim on any row beats every cache: no cache, stale or learnt, changes the choice. */
  lemma {:induction false} ClaimsIgnoreTheCache(
    cfg: PartialConfig, model: string, i: nat, c: Option<Cache>, d: Option<Cache>, holds: Credentialed)
    requires cfg.provider.None? && i < |cfg.providers| && Claims(cfg.providers, i, holds, model)
    ensures Route(cfg, Some(model), c, holds) == Route(cfg, Some(model), d, holds)
    ensures Route(cfg, Some(model), c, holds).Ok? && RowClaims(Route(cfg, Some(model), c, holds).value.1, model)
  {
    FirstClaimIs(cfg.providers, holds, model);
    hide RowClaims, CachePlaces, Routable, FirstClaim;
    assert cfg.providers[i] in cfg.providers;
  }

  /** The router agrees with the resolver the request half later runs: when the cache tier
      chose, the alias step is the identity and the same cache places the seed, never passes
      it through verbatim. */
  lemma {:induction false} CacheRouteIsHonoured(
    cfg: PartialConfig, requested: Option<string>, cache: Cache, holds: Credentialed)
    requires cfg.provider.None? && RoutingModel(requested, cfg).Some? && Resolve(cfg, requested, Some(cache), holds).Ok?
    requires FirstClaim(cfg.providers, holds, RoutingModel(requested, cfg).value).None?
    ensures
      var model := RoutingModel(requested, cfg).value;
      var resolved := Resolve(cfg, requested, Some(cache), holds).value;
      && resolved.seed == model
      && SelectModel(DocOf(cache, resolved.name), resolved.seed, resolved.name).Ok?
      && SelectModel(DocOf(cache, resolved.name), resolved.seed, resolved.name).value.1 == Cached
      && Has(DocOf(cache, resolved.name).models, SelectModel(DocOf(cache, resolved.name), resolved.seed, resolved.name).value.0)
  {
    var model := RoutingModel(requested, cfg).value;
    FirstClaimIs(cfg.providers, holds, model);
    FirstPlacedIs(cfg.providers, holds, Some(cache), model);
    var hit := FirstPlaced(cfg.providers, holds, Some(cache), model).value;
    assert hit in cfg.providers && Routable(hit.0, hit.1, holds);
    assert !RowClaims(hit.1, model);
    SelectIsHonest(DocOf(cache, hit.0), model, hit.0);
    hide SelectModel, FirstClaim, FirstPlaced, CheckScalars;
  }

  // ----- layers and routing -----

  lemma {:induction false} MergedAt(hi: Rows, lo: Rows, i: nat)
    requires i < |hi|
    ensures |Merge(hi, lo)| >= |hi| && Merge(hi, lo)[i].0 == hi[i].0
    decreases |hi|
  {
    hide OrRow;
    var rest := Merge(hi[1..], Without(lo, hi[0].0));
    if i > 0 {
      MergedAt(hi[1..], Without(lo, hi[0].0), i - 1);
    } else if |hi| > 1 {
      MergedAt(hi[1..], Without(lo, hi[0].0), 0);
    }
  }

  /** Priority survives the fold: when a row of the higher layer claims the model, routing
      picks one of that layer's rows, whatever the lower layers ship. */
  lemma {:induction false} HigherLayerWins(
    hi: PartialConfig, lo: PartialConfig, model: string, i: nat, cache: Option<Cache>, holds: Credentialed)
    requires OrConfig(hi, lo).provider.None? && i < |hi.providers|
    requires i < |OrConfig(hi, lo).providers| && Claims(OrConfig(hi, lo).providers, i, holds, model)
    ensures
      var routed := Route(OrConfig(hi, lo), Some(model), cache, holds);
      routed.Ok? && exists j :: 0 <= j <= i && hi.providers[j].0 == routed.value.0
  {
    var rows := OrConfig(hi, lo).providers;
    RouteIsGreedy(OrConfig(hi, lo), Some(model), cache, holds);
    hide Route, Claims, Places, Merge;
    var routed := Route(OrConfig(hi, lo), Some(model), cache, holds).value;
    var j :| 0 <= j < |rows| && Claims(rows, j, holds, model) && routed == rows[j]
             && forall k :: 0 <= k < j ==> !Claims(rows, k, holds, model);
    assert j <= i;
    MergedAt(hi.providers, lo.providers, j);
  }
}
