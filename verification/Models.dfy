/** The model list and its one resolver (src/canonical/model.rs), and the cache the request
    half reads and teaches (src/run/generate.rs). */
module Models {
  import opened Base
  import opened Canonical

  datatype Model = Model(
    id: string, isDefault: bool, contextWindow: Option<nat>, maxOutputTokens: Option<nat>, displayName: Option<string>)

  datatype CachedModels = CachedModels(models: seq<Model>, lastUsed: Option<string>)

  datatype Provenance = Cached | Verbatim

  const NO_MODELS := CachedModels([], None)

  // ----- matching -----

  function LowerChar(c: char): char {
    if 'A' <= c <= 'Z' then (c as int + 32) as char else c
  }

  /** `to_ascii_lowercase`. */
  function Lower(s: string): (l: string)
    ensures |l| == |s|
  {
    if s == "" then "" else [LowerChar(s[0])] + Lower(s[1..])
  }

  predicate Contains(hay: string, needle: string) {
    needle <= hay || (hay != "" && Contains(hay[1..], needle))
  }

  predicate Has(models: seq<Model>, id: string) {
    exists m <- models :: m.id == id
  }

  /** The id contains the seed, ASCII case aside. */
  predicate Fits(id: string, seed: string) {
    Contains(Lower(id), Lower(seed))
  }

  function FindExact(models: seq<Model>, id: string): (m: Option<Model>)
    ensures m.Some? ==> m.value in models && m.value.id == id
    ensures m.None? ==> !Has(models, id)
  {
    if models == [] then None else if models[0].id == id then Some(models[0]) else FindExact(models[1..], id)
  }

  function FindFit(models: seq<Model>, seed: string): (m: Option<Model>)
    ensures m.Some? ==> m.value in models && Fits(m.value.id, seed)
    ensures m.None? ==> forall x <- models :: !Fits(x.id, seed)
  {
    if models == [] then None else if Fits(models[0].id, seed) then Some(models[0]) else FindFit(models[1..], seed)
  }

  function FindDefault(models: seq<Model>): (m: Option<Model>)
    ensures m.Some? ==> m.value in models
  {
    if models == [] then None else if models[0].isDefault then Some(models[0]) else FindDefault(models[1..])
  }

  /** The same letter, whatever its ASCII case; any other character only itself. */
  predicate SameButCase(a: char, b: char) {
    || a == b
    || ('A' <= a <= 'Z' && b as int == a as int + 32)
    || ('A' <= b <= 'Z' && a as int == b as int + 32)
  }

  /** The seed stands in the id from `i` on, case aside. */
  predicate StandsAt(id: string, seed: string, i: nat) {
    i + |seed| <= |id| && forall k :: 0 <= k < |seed| ==> SameButCase(id[i + k], seed[k])
  }

  lemma {:induction false} LowerIs(s: string, i: nat)
    requires i < |s|
    ensures Lower(s)[i] == LowerChar(s[i])
  {
    if i > 0 {
      LowerIs(s[1..], i - 1);
    }
  }

  lemma {:induction false} ContainsIs(hay: string, needle: string)
    ensures Contains(hay, needle) <==> exists i :: 0 <= i <= |hay| && needle <= hay[i..]
    decreases |hay|
  {
    assert hay[0..] == hay;
    if hay != "" {
      ContainsIs(hay[1..], needle);
      assert forall i :: 0 <= i < |hay| ==> hay[1..][i..] == hay[i + 1..];
      if Contains(hay[1..], needle) {
        var i :| 0 <= i <= |hay| - 1 && needle <= hay[1..][i..];
        assert needle <= hay[i + 1..];
      }
      if i :| 0 < i <= |hay| && needle <= hay[i..] {
        assert needle <= hay[1..][i - 1..];
      }
    }
  }

  /** An id fits exactly when the seed stands somewhere in it, case aside. */
  lemma {:induction false} FitsIs(id: string, seed: string)
    ensures Fits(id, seed) <==> exists i :: StandsAt(id, seed, i)
  {
    var hay, needle := Lower(id), Lower(seed);
    ContainsIs(hay, needle);
    forall i: nat
      ensures StandsAt(id, seed, i) <==> i <= |hay| && needle <= hay[i..]
    {
      forall k: nat | k < |seed| && i + k < |id|
        ensures SameButCase(id[i + k], seed[k]) <==> hay[i + k] == needle[k]
      {
        LowerIs(id, i + k);
        LowerIs(seed, k);
      }
      hide Lower;
      if i <= |hay| && needle <= hay[i..] {
        assert forall k: nat :: k < |seed| ==> needle[k] == hay[i..][k] == hay[i + k];
      }
    }
  }

  // ----- the resolver -----

  function NoDefault(provider: string): CanonicalError {
    CanonicalError(Config,
                   "no model given and no model cache for " + provider + "; pass --model or run `bz --list-models`",
                   None, None)
  }

  /** The default ladder: the id last used if still listed, the flagged one, the first. */
  function DefaultOf(cached: CachedModels): Option<Model> {
    var recent := if cached.lastUsed.Some? then FindExact(cached.models, cached.lastUsed.value) else None;
    Or(Or(recent, FindDefault(cached.models)), if cached.models == [] then None else Some(cached.models[0]))
  }

  function SelectModel(
    cached: CachedModels, seed: string, provider: string): Result<(string, Provenance), CanonicalError> {
    if seed == "" then
      match DefaultOf(cached)
      case Some(m) => Ok((m.id, Cached))
      case None => Err(NoDefault(provider))
    else
      match Or(FindExact(cached.models, seed), FindFit(cached.models, seed))
      case Some(m) => Ok((m.id, Cached))
      case None => Ok((seed, Verbatim))
  }

  /** A cached answer is a listed id; a verbatim one is the seed, which no listed id fits. */
  lemma {:induction false} SelectIsHonest(cached: CachedModels, seed: string, provider: string)
    ensures
      match SelectModel(cached, seed, provider)
      case Ok((id, Cached)) =>
        && Has(cached.models, id)
        && (seed != "" ==> if Has(cached.models, seed) then id == seed else Fits(id, seed))
      case Ok((id, Verbatim)) => seed != "" && id == seed && (forall m <- cached.models :: !Fits(m.id, seed)) && !Has(cached.models, seed)
      case Err(e) => seed == "" && cached.models == [] && e.kind == Config
  {
    hide Contains, Lower;
  }

  /** List order is authoritative: the first id that fits is the one found. */
  lemma {:induction false} FirstFitWins(models: seq<Model>, seed: string, i: nat)
    requires i < |models| && Fits(models[i].id, seed)
    requires forall j :: 0 <= j < i ==> !Fits(models[j].id, seed)
    ensures FindFit(models, seed) == Some(models[i])
  {
    hide Fits;
    if i != 0 {
      assert forall j :: 0 <= j < i - 1 ==> models[1..][j] == models[j + 1];
      FirstFitWins(models[1..], seed, i - 1);
    }
  }

  /** An empty seed takes the first rung that holds: the id last used, if it is still listed; the
      first model flagged as the default; the first model. Only an empty list has none. */
  lemma {:induction false} DefaultIs(doc: CachedModels, p: string, i: nat)
    requires i < |doc.models|
    ensures
      var remembered := doc.lastUsed.Some? && Has(doc.models, doc.lastUsed.value);
      && (remembered ==> SelectModel(doc, "", p) == Ok((doc.lastUsed.value, Cached)))
      && (!remembered && doc.models[i].isDefault && (forall j :: 0 <= j < i ==> !doc.models[j].isDefault) ==>
            SelectModel(doc, "", p) == Ok((doc.models[i].id, Cached)))
      && (!remembered && (forall m <- doc.models :: !m.isDefault) ==>
            SelectModel(doc, "", p) == Ok((doc.models[0].id, Cached)))
  {
    if doc.models[i].isDefault && forall j :: 0 <= j < i ==> !doc.models[j].isDefault {
      FirstFlagged(doc.models, i);
    }
    if forall m <- doc.models :: !m.isDefault {
      NoneFlagged(doc.models);
    }
    hide FindDefault;
  }

  lemma {:induction false} FirstFlagged(models: seq<Model>, i: nat)
    requires i < |models| && models[i].isDefault && forall j :: 0 <= j < i ==> !models[j].isDefault
    ensures FindDefault(models) == Some(models[i])
  {
    if i > 0 {
      assert forall j :: 0 <= j < i - 1 ==> models[1..][j] == models[j + 1];
      FirstFlagged(models[1..], i - 1);
    }
  }

  lemma {:induction false} NoneFlagged(models: seq<Model>)
    requires forall m <- models :: !m.isDefault
    ensures FindDefault(models) == None
  {
    if models != [] {
      assert forall m <- models[1..] :: m in models;
      NoneFlagged(models[1..]);
    }
  }

  lemma {:induction false} FirstListed(models: seq<Model>, id: string, i: nat)
    requires i < |models| && models[i].id == id && forall j :: 0 <= j < i ==> models[j].id != id
    ensures FindExact(models, id) == Some(models[i])
  {
    if i > 0 {
      assert forall j :: 0 <= j < i - 1 ==> models[1..][j] == models[j + 1];
      FirstListed(models[1..], id, i - 1);
    }
  }

  lemma {:induction false} FindAfterAppend(models: seq<Model>, more: seq<Model>, seed: string)
    ensures FindExact(models + more, seed) == Or(FindExact(models, seed), FindExact(more, seed))
    ensures FindFit(models + more, seed) == Or(FindFit(models, seed), FindFit(more, seed))
  {
    hide Fits;
    if models == [] {
      assert models + more == more;
    } else {
      assert (models + more)[1..] == models[1..] + more;
      FindAfterAppend(models[1..], more, seed);
    }
  }

  // ----- what one request teaches the cache -----

  /** The list's served number beats the row's declaration, and a pin beats both. */
  function Window(doc: CachedModels, model: string, declared: map<string, nat>, pinned: Option<nat>): Option<nat> {
    var entry := FindExact(doc.models, model);
    var served := if entry.Some? then entry.value.contextWindow else None;
    Or(pinned, Or(served, if model in declared then Some(declared[model]) else None))
  }

  /** A pin is the window whatever else is known; without one, the number the model's entry serves;
      without that, the row's declaration for the id; else there is none. */
  lemma {:induction false} WindowIs(doc: CachedModels, model: string, declared: map<string, nat>, pinned: Option<nat>)
    ensures pinned.Some? ==> Window(doc, model, declared, pinned) == pinned
    ensures pinned.None? ==>
      forall i :: 0 <= i < |doc.models| && doc.models[i].id == model && (forall j :: 0 <= j < i ==> doc.models[j].id != model)
                  && doc.models[i].contextWindow.Some? ==>
        Window(doc, model, declared, pinned) == doc.models[i].contextWindow
    ensures pinned.None? && (forall m <- doc.models :: m.id == model ==> m.contextWindow.None?) ==>
      Window(doc, model, declared, pinned) == if model in declared then Some(declared[model]) else None
  {
    forall i | 0 <= i < |doc.models| && doc.models[i].id == model && forall j :: 0 <= j < i ==> doc.models[j].id != model
      ensures FindExact(doc.models, model) == Some(doc.models[i])
    {
      FirstListed(doc.models, model, i);
    }
  }

  predicate Is2xx(status: nat) {
    200 <= status < 300
  }

  type Cache = map<string, CachedModels>

  function DocOf(cache: Cache, provider: string): CachedModels {
    if provider in cache then cache[provider] else NO_MODELS
  }

  /** One request: the provider and seed it resolved to, and what came of sending it. */
  datatype Call = Call(
    provider: string, seed: string, declared: map<string, nat>, pinned: Option<nat>, reply: Result<nat, CanonicalError>)

  datatype Sent = Sent(
    status: nat, model: string, fromCache: bool, contextWindow: Option<nat>, hint: Option<(string, bool)>)

  function Answer(cache: Cache, call: Call): Result<Sent, CanonicalError> {
    var doc := DocOf(cache, call.provider);
    match SelectModel(doc, call.seed, call.provider)
    case Err(e) => Err(e)
    case Ok((model, prov)) =>
      match call.reply
      case Err(e) => Err(e)
      case Ok(status) =>
        Ok(Sent(status, model, prov.Cached?, Window(doc, model, call.declared, call.pinned),
                if status == 404 then Some((model, prov.Cached?)) else None))
  }

  function BareModel(id: string): Model {
    Model(id, false, None, None, None)
  }

  /** The document a 2xx for `model` leaves behind. */
  function Learnt(doc: CachedModels, model: string, prov: Provenance): CachedModels {
    CachedModels(if prov.Verbatim? then doc.models + [BareModel(model)] else doc.models, Some(model))
  }

  /** What a request writes: nothing unless it got a 2xx that taught something. */
  function Lesson(cache: Cache, call: Call): Option<CachedModels> {
    var doc := DocOf(cache, call.provider);
    match (SelectModel(doc, call.seed, call.provider), call.reply)
    case (Ok((model, prov)), Ok(status)) =>
      if Is2xx(status) && Learnt(doc, model, prov) != doc then Some(Learnt(doc, model, prov)) else None
    case _ => None
  }

  function After(cache: Cache, call: Call): Cache {
    match Lesson(cache, call)
    case Some(doc) => cache[call.provider := doc]
    case None => cache
  }

  function AfterAll(cache: Cache, calls: seq<Call>): Cache
    decreases |calls|
  {
    if calls == [] then cache else AfterAll(After(cache, calls[0]), calls[1..])
  }

  /** The request half over its one cache file per provider. */
  class Host {
    var docs: Cache
    ghost var writes: seq<string>

    constructor (docs: Cache)
      ensures this.docs == docs && writes == []
    {
      this.docs, writes := docs, [];
    }

    method Put(provider: string, doc: CachedModels)
      modifies this
      ensures docs == old(docs)[provider := doc] && writes == old(writes) + [provider]
    {
      docs := docs[provider := doc];
      writes := writes + [provider];
    }

    method SendEncoded(call: Call) returns (r: Result<Sent, CanonicalError>)
      modifies this
      ensures r == Answer(old(docs), call)
      ensures docs == After(old(docs), call)
      ensures writes == old(writes) + if Lesson(old(docs), call).Some? then [call.provider] else []
    {
      var cached := if call.provider in docs then docs[call.provider] else NO_MODELS;
      var selected := SelectModel(cached, call.seed, call.provider);
      if selected.Err? {
        return Err(selected.error);
      }
      var (model, prov) := selected.value;
      var window := Window(cached, model, call.declared, call.pinned);
      if call.reply.Err? {
        return Err(call.reply.error);
      }
      var status := call.reply.value;
      var learned := prov.Verbatim?;
      if Is2xx(status) && (learned || cached.lastUsed != Some(model)) {
        var next := cached;
        if learned {
          next := next.(models := next.models + [BareModel(model)]);
        }
        next := next.(lastUsed := Some(model));
        assert next == Learnt(cached, model, prov) != cached;
        Put(call.provider, next);
      }
      r := Ok(Sent(status, model, !learned, window, if status == 404 then Some((model, !learned)) else None));
    }
  }

  /** What a request answers with: the error of placing or sending it, or the status as it came
      with the model placed, where that came from, its window, and a hint exactly on a 404. */
  lemma {:induction false} AnswerIs(cache: Cache, call: Call)
    ensures
      var doc := if call.provider in cache then cache[call.provider] else CachedModels([], None);
      match (SelectModel(doc, call.seed, call.provider), call.reply, Answer(cache, call))
      case (Err(e), _, r) => r == Err(e)
      case (Ok(_), Err(e), r) => r == Err(e)
      case (Ok((model, prov)), Ok(status), Ok(sent)) =>
        && sent.status == status && sent.model == model && (sent.fromCache <==> prov == Cached)
        && sent.contextWindow == Window(doc, model, call.declared, call.pinned)
        && (sent.hint.Some? <==> status == 404) && (sent.hint.Some? ==> sent.hint.value == (model, prov == Cached))
      case (Ok(_), Ok(_), Err(_)) => false
  {
    hide SelectModel, Window;
  }

  /** Only a status in the two hundreds teaches; then a model sent verbatim joins the tail bare, and
      the model used is remembered. */
  lemma {:induction false} OnlySuccessTeaches(cache: Cache, call: Call)
    ensures (call.reply.Ok? ==> call.reply.value < 200 || call.reply.value >= 300) ==> After(cache, call) == cache
    ensures call.reply.Ok? && 200 <= call.reply.value < 300 && Answer(cache, call).Ok? ==>
      var doc, doc', sent := DocOf(cache, call.provider), DocOf(After(cache, call), call.provider), Answer(cache, call).value;
      && doc'.lastUsed == Some(sent.model)
      && doc'.models == if sent.fromCache then doc.models else doc.models + [Model(sent.model, false, None, None, None)]
  {
    hide SelectModel, Window;
  }

  // ----- every run of requests -----

  predicate DistinctIds(models: seq<Model>) {
    models == [] || (!Has(models[1..], models[0].id) && DistinctIds(models[1..]))
  }

  lemma {:induction false} DistinctSnoc(models: seq<Model>, m: Model)
    requires DistinctIds(models) && !Has(models, m.id)
    ensures DistinctIds(models + [m])
  {
    if models == [] {
      assert [m][1..] == [];
    } else {
      assert (models + [m])[1..] == models[1..] + [m];
      assert forall x <- models[1..] :: x in models;
      assert models[0] in models;
      DistinctSnoc(models[1..], m);
    }
  }

  /** How far one call can move a document. */
  ghost predicate Moves(doc: CachedModels, doc': CachedModels) {
    && doc.models <= doc'.models
    && (DistinctIds(doc.models) ==> DistinctIds(doc'.models))
    && (doc' == doc || (doc'.lastUsed.Some? && Has(doc'.models, doc'.lastUsed.value)))
  }

  /** A seed the document places keeps its place; `later` may have learnt new ids. */
  ghost predicate KeepsPlaces(doc: CachedModels, later: CachedModels) {
    forall seed, id, p :: seed != "" && SelectModel(doc, seed, p) == Ok((id, Cached)) ==>
      SelectModel(later, seed, p) == Ok((id, Cached))
  }

  lemma {:induction false} LearntMoves(doc: CachedModels, seed: string, p: string)
    requires SelectModel(doc, seed, p).Ok?
    ensures
      var (model, prov) := SelectModel(doc, seed, p).value;
      Moves(doc, Learnt(doc, model, prov))
  {
    var (model, prov) := SelectModel(doc, seed, p).value;
    SelectIsHonest(doc, seed, p);
    hide SelectModel, Fits;
    if prov.Verbatim? {
      var bare := BareModel(model);
      if DistinctIds(doc.models) {
        DistinctSnoc(doc.models, bare);
      }
      assert bare in doc.models + [bare];
    }
  }

  lemma {:induction false} LearntKeepsPlace(
    doc: CachedModels, learnt: string, p: string, seed: string, id: string, q: string)
    requires SelectModel(doc, learnt, p) == Ok((learnt, Verbatim))
    requires seed != "" && SelectModel(doc, seed, q) == Ok((id, Cached))
    ensures SelectModel(Learnt(doc, learnt, Verbatim), seed, q) == Ok((id, Cached))
  {
    SelectIsHonest(doc, learnt, p);
    SelectIsHonest(doc, seed, q);
    FindAfterAppend(doc.models, [BareModel(learnt)], seed);
    hide Fits;
    assert seed != learnt;
    assert FindExact([BareModel(learnt)], seed) == None;
  }

  lemma {:induction false} CallMoves(cache: Cache, call: Call, p: string)
    ensures Moves(DocOf(cache, p), DocOf(After(cache, call), p))
    ensures KeepsPlaces(DocOf(cache, p), DocOf(After(cache, call), p))
  {
    var doc := DocOf(cache, p);
    var picked := SelectModel(doc, call.seed, p);
    SelectIsHonest(doc, call.seed, p);
    if p == call.provider && picked.Ok? {
      LearntMoves(doc, call.seed, p);
      hide SelectModel;
      forall seed, id, q | seed != "" && SelectModel(doc, seed, q) == Ok((id, Cached))
        ensures SelectModel(DocOf(After(cache, call), p), seed, q) == Ok((id, Cached))
      {
        if picked.value.1.Verbatim? {
          LearntKeepsPlace(doc, call.seed, p, seed, id, q);
        }
        PointerIsNoPlace(doc, DocOf(After(cache, call), p), seed, q);
      }
    }
  }

  /** A non-empty seed is placed by the list alone. */
  lemma {:induction false} PointerIsNoPlace(a: CachedModels, b: CachedModels, seed: string, p: string)
    requires seed != ""
    ensures a.models == b.models ==> SelectModel(a, seed, p) == SelectModel(b, seed, p)
  {
  }

  /** What was last used, once a 2xx has set it, is a listed id. */
  ghost predicate Remembers(doc: CachedModels) {
    doc.lastUsed.Some? && Has(doc.models, doc.lastUsed.value)
  }

  /** Over every run of requests, to any providers and with any outcomes, a provider's list
      only grows at its tail, keeps its ids distinct, keeps every seed it places where it is,
      and goes on remembering a listed id. */
  lemma {:induction false} RunsKeepTheCacheUseful(cache: Cache, calls: seq<Call>, p: string)
    ensures
      var doc, doc' := DocOf(cache, p), DocOf(AfterAll(cache, calls), p);
      && doc.models <= doc'.models
      && (DistinctIds(doc.models) ==> DistinctIds(doc'.models))
      && KeepsPlaces(doc, doc')
      && (Remembers(doc) ==> Remembers(doc'))
    decreases |calls|
  {
    if calls != [] {
      CallMoves(cache, calls[0], p);
      hide After, SelectModel, DistinctIds;
      RunsKeepTheCacheUseful(After(cache, calls[0]), calls[1..], p);
    }
  }

  lemma {:induction false} RememberedIsDefault(doc: CachedModels, p: string)
    requires Remembers(doc)
    ensures SelectModel(doc, "", p) == Ok((doc.lastUsed.value, Cached))
  {
  }

  /** After any 2xx the id it used is listed, is what an empty seed returns, and the same
      request again writes nothing. */
  lemma {:induction false} SuccessIsRemembered(cache: Cache, call: Call, status: nat)
    requires call.reply == Ok(status) && Is2xx(status) && Answer(cache, call).Ok?
    ensures
      var doc' := DocOf(After(cache, call), call.provider);
      var used := Answer(cache, call).value.model;
      && doc'.lastUsed == Some(used) && Has(doc'.models, used)
      && SelectModel(doc', "", call.provider) == Ok((used, Cached))
      && SelectModel(doc', call.seed, call.provider) == Ok((used, Cached))
      && Lesson(After(cache, call), call) == None
      && After(After(cache, call), call) == After(cache, call)
  {
    var doc, p := DocOf(cache, call.provider), call.provider;
    var (used, prov) := SelectModel(doc, call.seed, p).value;
    var doc' := DocOf(After(cache, call), p);
    SelectIsHonest(doc, call.seed, p);
    assert doc' == Learnt(doc, used, prov);
    hide Fits;
    if prov.Verbatim? {
      assert BareModel(used) in doc'.models;
      FindAfterAppend(doc.models, [BareModel(used)], call.seed);
    } else if call.seed != "" {
      PointerIsNoPlace(doc, doc', call.seed, p);
    }
    RememberedIsDefault(doc', p);
  }
}
