/** The cloud provider (app/services/providers/gemini_provider.py): the price-ordered
    reference table and the rank it induces, the stable price sort, the model cache with
    its fallback to the table, model-id extraction from listed names, the constructor's
    guards, the model check that precedes every client call, role translation, and the
    wrapping of client failures. The `google.genai` client is replaced by its outcomes:
    what listing the models produced, what a generation call returned, and the items a
    streaming call yielded. */
module Gemini {
  import opened Wrappers
  import opened Strings
  import opened Sorting
  import opened ProviderBase

  // ===========================================================================
  // Price order

  /** The reference table, cheapest first. */
  const ModelsByPrice: seq<string> := [
    "gemini-2.0-flash-lite",
    "gemini-2.0-flash-exp",
    "gemini-2.0-flash",
    "gemini-1.5-flash",
    "gemini-1.5-flash-8b",
    "gemini-1.5-pro",
    "gemini-1.5-pro-latest",
    "gemini-pro",
    "gemini-pro-vision"
  ]

  /** The rank of a name that matches no table entry: after every known model. */
  const UnknownRank: nat := 9999

  /** A name and a table entry are related when either contains the other. */
  predicate Related(name: string, entry: string) {
    Contains(name, entry) || Contains(entry, name)
  }

  /** The first table index at or after `from` whose entry satisfies `p`. */
  function FirstEntry(p: string -> bool, from: nat): (r: Option<nat>)
    requires from <= |ModelsByPrice|
    ensures r.Some? ==> from <= r.value < |ModelsByPrice| && p(ModelsByPrice[r.value])
    ensures r.Some? ==> forall j :: from <= j < r.value ==> !p(ModelsByPrice[j])
    ensures r.None? ==> forall j :: from <= j < |ModelsByPrice| ==> !p(ModelsByPrice[j])
    decreases |ModelsByPrice| - from
  {
    if from == |ModelsByPrice| then None
    else if p(ModelsByPrice[from]) then Some(from)
    else FirstEntry(p, from + 1)
  }

  /** `get_price_order`: the position of the name in the table, else the position of the
      first entry related to it, else 9999. */
  function PriceRank(name: string): (r: int)
    ensures 0 <= r
    ensures r == UnknownRank || r < |ModelsByPrice|
    ensures name in ModelsByPrice ==> r < |ModelsByPrice| && ModelsByPrice[r] == name
    ensures name !in ModelsByPrice && r != UnknownRank ==>
      && Related(name, ModelsByPrice[r])
      && forall j :: 0 <= j < r ==> !Related(name, ModelsByPrice[j])
    ensures name !in ModelsByPrice ==>
      (r == UnknownRank <==> forall j :: 0 <= j < |ModelsByPrice| ==> !Related(name, ModelsByPrice[j]))
  {
    match FirstEntry(e => e == name, 0)
    case Some(i) => i
    case None =>
      match FirstEntry(e => Related(name, e), 0)
      case Some(i) => i
      case None => UnknownRank
  }

  lemma {:induction false} TableDistinct()
    ensures forall i, j :: 0 <= i < j < |ModelsByPrice| ==> ModelsByPrice[i] != ModelsByPrice[j]
  {
  }

  /** Every table entry is ranked at its own position. */
  lemma {:induction false} TableRanks(i: nat)
    requires i < |ModelsByPrice|
    ensures PriceRank(ModelsByPrice[i]) == i
  {
    TableDistinct();
  }

  /** `_sort_models_by_price`: a stable sort by price rank. */
  function SortModelsByPrice(models: seq<string>): seq<string> {
    SortByKey(models, PriceRank)
  }

  /** The result is a permutation of the input, ordered by non-decreasing rank, and names
      of equal rank keep their relative order. */
  lemma {:induction false} SortModelsByPriceMeaning(models: seq<string>, k: int)
    ensures multiset(SortModelsByPrice(models)) == multiset(models)
    ensures SortedByKey(SortModelsByPrice(models), PriceRank)
    ensures FilterKey(SortModelsByPrice(models), PriceRank, k) == FilterKey(models, PriceRank, k)
  {
    SortByKeyStable(models, PriceRank, k);
  }

  lemma {:induction false} AllTableRanks()
    ensures forall i :: 0 <= i < |ModelsByPrice| ==> PriceRank(ModelsByPrice[i]) == i
  {
    forall i | 0 <= i < |ModelsByPrice| ensures PriceRank(ModelsByPrice[i]) == i {
      TableRanks(i);
    }
  }

  /** The reference table is already in price order, so sorting it changes nothing. */
  lemma {:induction false} TableIsPriceSorted()
    ensures SortedByKey(ModelsByPrice, PriceRank)
    ensures SortModelsByPrice(ModelsByPrice) == ModelsByPrice
  {
    AllTableRanks();
    PositionRankedIsFixed(ModelsByPrice);
  }

  lemma {:induction false} PositionRankedIsFixed(t: seq<string>)
    requires forall i :: 0 <= i < |t| ==> PriceRank(t[i]) == i
    ensures SortedByKey(t, PriceRank)
    ensures SortModelsByPrice(t) == t
  {
    PositionKeyedIsSorted(t, PriceRank);
    SortByKeySortedIsIdentity(t, PriceRank);
  }

  /** ["gemini-pro", "gemini-2.0-flash"] sorts to ["gemini-2.0-flash", "gemini-pro"]. */
  lemma {:induction false} SortExample()
    ensures SortModelsByPrice(["gemini-pro", "gemini-2.0-flash"]) == ["gemini-2.0-flash", "gemini-pro"]
  {
    TableRanks(2);
    TableRanks(7);
    assert ModelsByPrice[2] == "gemini-2.0-flash" && ModelsByPrice[7] == "gemini-pro";
    SortTwo("gemini-pro", "gemini-2.0-flash", PriceRank);
  }

  /** A string that contains `p` contains every character of `p`. */
  lemma {:induction false} ContainsChar(s: string, p: string, c: char)
    requires Contains(s, p)
    requires c in p
    ensures c in s
  {
    var i := IndexOf(s, p).value;
    var k :| 0 <= k < |p| && p[k] == c;
    assert s[i..i + |p|][k] == s[i + k];
  }

  lemma {:induction false} NotContainsLonger(s: string, p: string)
    requires |s| < |p|
    ensures !Contains(s, p)
  {
  }

  const SmallFlashVariant: string := "gemini-1.5-flash-8b-001"

  lemma {:induction false} SmallFlashVariantNotInTable()
    ensures SmallFlashVariant !in ModelsByPrice
  {
    forall j | 0 <= j < |ModelsByPrice| ensures ModelsByPrice[j] != SmallFlashVariant {
      if j < 3 { assert ModelsByPrice[j][7] == '2'; }
      else { assert |ModelsByPrice[j]| != |SmallFlashVariant|; }
    }
  }

  lemma {:induction false} SmallFlashVariantUnrelatedToFirst(j: nat)
    requires j < 3
    ensures !Related(SmallFlashVariant, ModelsByPrice[j])
  {
    var e := ModelsByPrice[j];
    assert e[7] == '2';
    assert '2' !in SmallFlashVariant;
    if Contains(SmallFlashVariant, e) { ContainsChar(SmallFlashVariant, e, '2'); }
    NotContainsLonger(e, SmallFlashVariant);
  }

  lemma {:induction false} SmallFlashVariantRelatedToFlash()
    ensures Related(SmallFlashVariant, ModelsByPrice[3])
  {
    assert OccursAt(SmallFlashVariant, ModelsByPrice[3], 0);
    ContainsAt(SmallFlashVariant, ModelsByPrice[3], 0);
  }

  /** A dated variant of the small flash model is ranked as the plain 1.5 flash model:
      the related entries are tried in table order and "gemini-1.5-flash" comes first. */
  lemma {:induction false} SmallFlashVariantRanksAsFlash()
    ensures PriceRank(SmallFlashVariant) == 3
    ensures PriceRank("gemini-1.5-flash-8b") == 4
  {
    TableRanks(4);
    assert ModelsByPrice[4] == "gemini-1.5-flash-8b";
    SmallFlashVariantRank();
  }

  lemma {:induction false} SmallFlashVariantRank()
    ensures PriceRank(SmallFlashVariant) == 3
  {
    SmallFlashVariantNotInTable();
    forall j | 0 <= j < 3 ensures !Related(SmallFlashVariant, ModelsByPrice[j]) {
      SmallFlashVariantUnrelatedToFirst(j);
    }
    SmallFlashVariantRelatedToFlash();
    RankOfFirstRelated(SmallFlashVariant, 3);
  }

  /** A name outside the table is ranked at the first entry related to it. */
  lemma {:induction false} RankOfFirstRelated(name: string, i: nat)
    requires name !in ModelsByPrice && i < |ModelsByPrice|
    requires forall j :: 0 <= j < i ==> !Related(name, ModelsByPrice[j])
    requires Related(name, ModelsByPrice[i])
    ensures PriceRank(name) == i
  {
  }

  // ===========================================================================
  // Model listing

  /** `name.split('/')[-1]` when the name contains `/`, else the name. */
  function ModelId(name: string): string {
    if Contains(name, "/") then
      var parts := Split(name, "/");
      parts[|parts| - 1]
    else name
  }

  /** The id is what follows the last `/`: it contains none, and the name is the id
      itself or some prefix, a `/`, then the id. */
  lemma {:induction false} ModelIdIsLastSegment(name: string)
    ensures !Contains(ModelId(name), "/")
    ensures !Contains(name, "/") ==> ModelId(name) == name
    ensures Contains(name, "/") ==> exists prefix :: name == prefix + "/" + ModelId(name)
  {
    SplitLast(name, "/");
    SplitMany(name, "/");
  }

  /** Extraction is idempotent. */
  lemma {:induction false} ModelIdIdempotent(name: string)
    ensures ModelId(ModelId(name)) == ModelId(name)
  {
    ModelIdIsLastSegment(name);
  }

  /** One item produced by `client.models.list()`: with a `name` attribute or without. */
  datatype ListedModel = Named(name: string) | Nameless

  /** What listing the models produced: the client has no listing call, the call or the
      iteration raised, or the items. */
  datatype ModelListing = ListingUnsupported | ListingFailed | Listed(items: seq<ListedModel>)

  /** The ids of the named items, in order. */
  function ModelIds(items: seq<ListedModel>): seq<string> {
    if items == [] then []
    else
      var last := items[|items| - 1];
      ModelIds(items[..|items| - 1]) + (if last.Named? then [ModelId(last.name)] else [])
  }

  lemma {:induction false} ModelIdsAppend(a: seq<ListedModel>, b: seq<ListedModel>)
    ensures ModelIds(a + b) == ModelIds(a) + ModelIds(b)
    decreases |b|
  {
    if b == [] {
      assert a + b == a;
    } else {
      assert (a + b)[..|a + b| - 1] == a + b[..|b| - 1];
      ModelIdsAppend(a, b[..|b| - 1]);
    }
  }

  /** Nameless items are skipped, named ones keep their position among the named, and
      no id contains `/`. */
  lemma {:induction false} ModelIdsMeaning(items: seq<ListedModel>)
    ensures |ModelIds(items)| <= |items|
    ensures forall i :: 0 <= i < |ModelIds(items)| ==> !Contains(ModelIds(items)[i], "/")
    ensures (forall i :: 0 <= i < |items| ==> items[i].Named?) ==>
      |ModelIds(items)| == |items|
      && forall i :: 0 <= i < |items| ==> ModelIds(items)[i] == ModelId(items[i].name)
  {
    ModelIdsSlashless(items);
    if forall i :: 0 <= i < |items| ==> items[i].Named? {
      ModelIdsAllNamed(items);
    }
  }

  lemma {:induction false} ModelIdsSlashless(items: seq<ListedModel>)
    ensures |ModelIds(items)| <= |items|
    ensures forall i :: 0 <= i < |ModelIds(items)| ==> !Contains(ModelIds(items)[i], "/")
  {
    if items != [] {
      var init := items[..|items| - 1];
      var last := items[|items| - 1];
      var tail := if last.Named? then [ModelId(last.name)] else [];
      assert ModelIds(items) == ModelIds(init) + tail;
      ModelIdsSlashless(init);
      if last.Named? { ModelIdIsLastSegment(last.name); }
    }
  }

  lemma {:induction false} ModelIdsAllNamed(items: seq<ListedModel>)
    requires forall i :: 0 <= i < |items| ==> items[i].Named?
    ensures |ModelIds(items)| == |items|
    ensures forall i :: 0 <= i < |items| ==> ModelIds(items)[i] == ModelId(items[i].name)
  {
    if items != [] {
      var init := items[..|items| - 1];
      var last := items[|items| - 1];
      assert ModelIds(items) == ModelIds(init) + [ModelId(last.name)];
      assert forall i :: 0 <= i < |init| ==> init[i] == items[i];
      ModelIdsAllNamed(init);
    }
  }

  /** `_fetch_models_from_api`: never raises; `[]` whenever listing is unsupported or
      fails. */
  function FetchedIds(listing: ModelListing): seq<string> {
    match listing
    case Listed(items) => ModelIds(items)
    case _ => []
  }

  /** The loop of `_fetch_models_from_api`. */
  method FetchModelsFromApi(listing: ModelListing) returns (models: seq<string>)
    ensures models == FetchedIds(listing)
  {
    models := [];
    if listing.Listed? {
      var items := listing.items;
      var i := 0;
      while i < |items|
        invariant 0 <= i <= |items|
        invariant models == ModelIds(items[..i])
      {
        assert items[..i + 1][..i] == items[..i];
        if items[i].Named? {
          var id := items[i].name;
          if Contains(id, "/") {
            var parts := Split(id, "/");
            id := parts[|parts| - 1];
          }
          models := models + [id];
        }
        i := i + 1;
      }
      assert items[..i] == items;
    }
  }

  /** The listing and the cache after `get_available_models`. */
  datatype GeminiListing = GeminiListing(models: seq<string>, cache: Option<seq<string>>)

  /** `get_available_models(force_refresh)`: a cached list is returned as it is;
      otherwise a non-empty live list is price-sorted, else the table is used, and either
      is cached. */
  function ListModels(cache: Option<seq<string>>, forceRefresh: bool, listing: ModelListing)
    : GeminiListing
  {
    var c := if forceRefresh then None else cache;
    if c.Some? then GeminiListing(c.value, c)
    else
      var ids := FetchedIds(listing);
      if ids != [] then
        var sorted := SortModelsByPrice(ids);
        GeminiListing(sorted, Some(sorted))
      else GeminiListing(ModelsByPrice, Some(ModelsByPrice))
  }

  /** The listing queries the client exactly when refreshing or when nothing is cached. */
  predicate Queries(cache: Option<seq<string>>, forceRefresh: bool) {
    forceRefresh || cache.None?
  }

  /** What every reachable cache satisfies: unset, or a non-empty list in price order. */
  predicate CacheValid(cache: Option<seq<string>>) {
    cache.Some? ==> cache.value != [] && SortedByKey(cache.value, PriceRank)
  }

  /** Every listing is non-empty, in price order, and is what is now cached; the cache
      stays valid. */
  lemma {:induction false} ListModelsKeepsCacheValid(cache: Option<seq<string>>, forceRefresh: bool, listing: ModelListing)
    requires CacheValid(cache)
    ensures var l := ListModels(cache, forceRefresh, listing);
      && l.cache == Some(l.models)
      && l.models != []
      && SortedByKey(l.models, PriceRank)
      && CacheValid(l.cache)
  {
    var ids := FetchedIds(listing);
    if Queries(cache, forceRefresh) && ids != [] {
      LiveListingValid(ids);
    } else if Queries(cache, forceRefresh) {
      TableValid();
    }
  }

  lemma {:induction false} LiveListingValid(ids: seq<string>)
    requires ids != []
    ensures CacheValid(Some(SortModelsByPrice(ids)))
  {
    assert |SortModelsByPrice(ids)| == |ids|;
  }

  lemma {:induction false} TableValid()
    ensures CacheValid(Some(ModelsByPrice))
  {
    TableIsPriceSorted();
  }

  /** A live list is used, as a permutation in price order, exactly when it is
      non-empty; otherwise the whole table is. */
  lemma {:induction false} QueriedListing(cache: Option<seq<string>>, forceRefresh: bool, listing: ModelListing)
    requires Queries(cache, forceRefresh)
    ensures var l := ListModels(cache, forceRefresh, listing);
      var ids := FetchedIds(listing);
      && (ids != [] ==> multiset(l.models) == multiset(ids) && SortedByKey(l.models, PriceRank))
      && (ids == [] ==> l.models == ModelsByPrice)
  {
  }

  /** Without a refresh, a cached list is returned unchanged, whatever the client would
      have answered, so two consecutive listings agree. */
  lemma {:induction false} CachedListingIsStable(cache: Option<seq<string>>, forceRefresh: bool,
                              l1: ModelListing, l2: ModelListing)
    ensures var first := ListModels(cache, forceRefresh, l1);
      ListModels(first.cache, false, l2) == first
  {
  }

  // ===========================================================================
  // Construction

  const DefaultModel: string := "gemini-2.0-flash"
  const NotInstalledMessage: string := "google-genai package is not installed"
  const MissingKeyMessage: string := "GEMINI_API_KEY is required for Gemini provider"

  /** The constructor's guards: the SDK must be installed (an `ImportError` otherwise),
      then the key is the argument when truthy, else the configured one, and must be
      non-empty (a `ValueError` otherwise). */
  function ResolveApiKey(installed: bool, apiKey: Option<string>, configured: Option<string>)
    : (r: Result<string, Exc>)
    ensures !installed ==> r == Err(OtherError(NotInstalledMessage))
    ensures installed ==> (r.Ok? <==> Truthy(apiKey) || Truthy(configured))
    ensures installed && r.Err? ==> r.error == ValueError(MissingKeyMessage)
    ensures r.Ok? ==> r.value != ""
    ensures r.Ok? && Truthy(apiKey) ==> r.value == apiKey.value
    ensures r.Ok? && !Truthy(apiKey) ==> Some(r.value) == configured
  {
    if !installed then Err(OtherError(NotInstalledMessage))
    else
      var key := if Truthy(apiKey) then apiKey else configured;
      if !Truthy(key) then Err(ValueError(MissingKeyMessage)) else Ok(key.value)
  }

  /** The default is in the table, so it is available whenever the listing falls back
      to the table. */
  lemma {:induction false} DefaultInTable()
    ensures ModelsByPrice[2] == DefaultModel
    ensures PriceRank(DefaultModel) == 2
  {
    TableRanks(2);
  }

  // ===========================================================================
  // Generation

  /** One entry of `contents`: a role and the text of its single part. */
  datatype Content = Content(role: string, text: string)

  /** `msg.get("role", "user")`, with `assistant` renamed to `model`. */
  function GeminiRole(role: Option<string>): (r: string)
    ensures r != "assistant"
    ensures role.None? ==> r == "user"
    ensures role == Some("assistant") ==> r == "model"
    ensures role.Some? && role.value != "assistant" ==> r == role.value
  {
    var r := role.GetOr("user");
    if r == "assistant" then "model" else r
  }

  function ToContent(m: WireMessage): Content {
    Content(GeminiRole(m.role), m.content.GetOr(""))
  }

  /** The conversion loop of both generation operations, as a function of the messages. */
  function ToContents(ms: seq<WireMessage>): seq<Content> {
    if ms == [] then [] else ToContents(ms[..|ms| - 1]) + [ToContent(ms[|ms| - 1])]
  }

  /** One entry per message, in order; no `assistant` role remains; a missing content
      becomes the empty text. */
  lemma {:induction false} ToContentsMeaning(ms: seq<WireMessage>)
    ensures |ToContents(ms)| == |ms|
    ensures forall i :: 0 <= i < |ms| ==>
      && ToContents(ms)[i].role == GeminiRole(ms[i].role)
      && ToContents(ms)[i].role != "assistant"
      && ToContents(ms)[i].text == ms[i].content.GetOr("")
  {
    if ms != [] {
      ToContentsMeaning(ms[..|ms| - 1]);
    }
  }

  method BuildContents(ms: seq<WireMessage>) returns (contents: seq<Content>)
    ensures contents == ToContents(ms)
  {
    contents := [];
    var i := 0;
    while i < |ms|
      invariant 0 <= i <= |ms|
      invariant contents == ToContents(ms[..i])
    {
      assert ms[..i + 1][..i] == ms[..i];
      var role := if ms[i].role.Some? then ms[i].role.value else "user";
      var text := if ms[i].content.Some? then ms[i].content.value else "";
      if role == "assistant" {
        role := "model";
      }
      contents := contents + [Content(role, text)];
      i := i + 1;
    }
    assert ms[..i] == ms;
  }

  /** The request handed to the client. */
  datatype GenerateCall = GenerateCall(model: string, contents: seq<Content>)

  /** What `generate_content` did: returned a response whose `text` is a string or
      `None` (a candidate without a text part, such as a blocked one), or raised. */
  datatype ClientReply = Replied(text: Option<string>) | ClientFailed(error: string)

  /** The outcome of a generation: the result (the reply text, `None` passed on as it
      is), the call made (if any) and the new cache. */
  datatype Generation = Generation(result: Result<Option<string>, Exc>, call: Option<GenerateCall>,
                                   cache: Option<seq<string>>)

  /** `model or self.get_default_model()`. */
  function SelectedModel(model: Option<string>): string {
    if Truthy(model) then model.value else DefaultModel
  }

  const GenerateErrorPrefix: string := "Gemini API error: "
  const StreamErrorPrefix: string := "Gemini API stream error: "

  /** The `ValueError` for a model outside the current listing. */
  function Unavailable(selected: string, available: seq<string>): Exc {
    ValueError("Model " + selected + " is not available. Available models: " + ListRepr(available))
  }

  /** `generate_response_with_messages`: list the models (which may fill the cache),
      refuse a model outside the listing before any call, else convert and call; client
      failures are wrapped. */
  function Generate(cache: Option<seq<string>>, messages: seq<WireMessage>, model: Option<string>,
                    listing: ModelListing, reply: ClientReply): Generation
  {
    var selected := SelectedModel(model);
    var l := ListModels(cache, false, listing);
    if selected !in l.models then Generation(Err(Unavailable(selected, l.models)), None, l.cache)
    else
      var call := GenerateCall(selected, ToContents(messages));
      match reply
      case Replied(text) => Generation(Ok(text), Some(call), l.cache)
      case ClientFailed(e) => Generation(Err(OtherError(GenerateErrorPrefix + e)), Some(call), l.cache)
  }

  /** The model check comes first: a model outside the listing is refused with an
      unwrapped `ValueError` and no call; otherwise the call carries the selected model
      and the translated history, any failure is a wrapped, non-`ValueError` one, and a
      reply's text, `None` included, is returned as it is. */
  lemma {:induction false} GenerateChecksModelFirst(cache: Option<seq<string>>, messages: seq<WireMessage>,
                                 model: Option<string>, listing: ModelListing, reply: ClientReply)
    ensures var g := Generate(cache, messages, model, listing, reply);
      var available := ListModels(cache, false, listing).models;
      var selected := SelectedModel(model);
      && (selected !in available <==> g.call.None?)
      && (selected !in available ==> g.result == Err(Unavailable(selected, available)))
      && (g.call.Some? ==> g.call.value == GenerateCall(selected, ToContents(messages)))
      && (g.call.Some? && g.result.Err? ==>
            g.result.error == OtherError(GenerateErrorPrefix + reply.error))
      && (g.result.Ok? <==> g.call.Some? && reply.Replied?)
      && (g.result.Ok? ==> g.result.value == reply.text)
  {
  }

  const DatedFlashPath: string := "models/gemini-2.0-flash-001"

  /** Any 27-character name whose twelfth character is not `g` has an id other than the
      default model's. */
  lemma {:induction false} IdOtherThanDefault(name: string)
    requires |name| == 27 && name[11] != 'g'
    ensures ModelId(name) != DefaultModel
  {
    ModelIdIsLastSegment(name);
  }

  lemma {:induction false} DatedFlashId()
    ensures ModelId(DatedFlashPath) != DefaultModel
  {
    IdOtherThanDefault(DatedFlashPath);
  }

  lemma {:induction false} DatedFlashListing()
    ensures ListModels(None, false, Listed([Named(DatedFlashPath)])).models == [ModelId(DatedFlashPath)]
  {
    var items := [Named(DatedFlashPath)];
    assert items[..0] == [];
    assert ModelIds(items) == [ModelId(DatedFlashPath)];
  }

  /** The default model is not always available: a live listing without it makes every
      request that names no model fail its check, before any call. */
  lemma {:induction false} DefaultCanBeUnavailable(messages: seq<WireMessage>, reply: ClientReply)
    ensures Generate(None, messages, None, Listed([Named(DatedFlashPath)]), reply).result.Err?
    ensures Generate(None, messages, None, Listed([Named(DatedFlashPath)]), reply).call.None?
  {
    DatedFlashId();
    DatedFlashListing();
  }

  // ===========================================================================
  // Streaming

  /** One item of the client's stream: an object with a `text` attribute (possibly empty
      or `None`), a bare string, or anything else. */
  datatype StreamItem = TextChunk(text: Option<string>) | StringChunk(s: string) | OtherChunk

  /** What the streaming call produced: the items, then normal exhaustion or the text of
      the exception raised (by the call itself or mid-iteration). */
  datatype ClientStream = ClientStream(items: seq<StreamItem>, failure: Option<string>)

  /** What one item yields. */
  function ItemText(it: StreamItem): Option<string> {
    match it
    case TextChunk(t) => if Truthy(t) then t else None
    case StringChunk(s) => Some(s)
    case OtherChunk => None
  }

  /** The yielded texts, in order. */
  function StreamTexts(items: seq<StreamItem>): seq<string> {
    if items == [] then []
    else
      var t := ItemText(items[|items| - 1]);
      StreamTexts(items[..|items| - 1]) + (if t.Some? then [t.value] else [])
  }

  lemma {:induction false} StreamTextsAppend(a: seq<StreamItem>, b: seq<StreamItem>)
    ensures StreamTexts(a + b) == StreamTexts(a) + StreamTexts(b)
    decreases |b|
  {
    if b == [] {
      assert a + b == a;
    } else {
      assert (a + b)[..|a + b| - 1] == a + b[..|b| - 1];
      StreamTextsAppend(a, b[..|b| - 1]);
    }
  }

  /** A text chunk with a non-empty text and a bare string each yield exactly themselves;
      every other item yields nothing. Only a bare string can yield the empty text. */
  lemma {:induction false} StreamTextsSingle(it: StreamItem)
    ensures StreamTexts([it]) == (match it
      case TextChunk(t) => if t.Some? && t.value != "" then [t.value] else []
      case StringChunk(s) => [s]
      case OtherChunk => [])
  {
    assert [it][..0] == [];
  }

  /** The loop of `stream_response_with_messages` that yields from the items. */
  method CollectTexts(items: seq<StreamItem>) returns (texts: seq<string>)
    ensures texts == StreamTexts(items)
  {
    texts := [];
    var i := 0;
    while i < |items|
      invariant 0 <= i <= |items|
      invariant texts == StreamTexts(items[..i])
    {
      assert items[..i + 1][..i] == items[..i];
      match items[i] {
        case TextChunk(t) =>
          if t.Some? && t.value != "" {
            texts := texts + [t.value];
          }
        case StringChunk(s) =>
          texts := texts + [s];
        case OtherChunk =>
      }
      i := i + 1;
    }
    assert items[..i] == items;
  }

  datatype Streaming = Streaming(stream: ChunkStream, call: Option<GenerateCall>,
                                 cache: Option<seq<string>>)

  /** `stream_response_with_messages`, drained: the same model check and conversion as
      the non-streaming call (run on the first pull, since it is a generator), then the
      yielded texts and a wrapped failure. */
  function StreamChat(cache: Option<seq<string>>, messages: seq<WireMessage>, model: Option<string>,
                      listing: ModelListing, stream: ClientStream): Streaming
  {
    var selected := SelectedModel(model);
    var l := ListModels(cache, false, listing);
    if selected !in l.models then
      Streaming(ChunkStream([], Some(Unavailable(selected, l.models))), None, l.cache)
    else
      var call := GenerateCall(selected, ToContents(messages));
      var failure := match stream.failure
        case None => None
        case Some(e) => Some(OtherError(StreamErrorPrefix + e));
      Streaming(ChunkStream(StreamTexts(stream.items), failure), Some(call), l.cache)
  }

  /** Streaming and generating make the same check, the same call and the same cache
      update; the refusal is the same `ValueError`; a failure during streaming keeps the
      texts already yielded. */
  lemma {:induction false} StreamAndGenerateCheckAlike(cache: Option<seq<string>>, messages: seq<WireMessage>,
                                    model: Option<string>, listing: ModelListing,
                                    reply: ClientReply, stream: ClientStream)
    ensures var g := Generate(cache, messages, model, listing, reply);
      var s := StreamChat(cache, messages, model, listing, stream);
      && s.call == g.call
      && s.cache == g.cache
      && (g.call.None? ==> s.stream == ChunkStream([], Some(g.result.error)))
      && (s.call.Some? ==> s.stream.chunks == StreamTexts(stream.items))
      && (s.call.Some? && stream.failure.Some? ==>
            s.stream.failure == Some(OtherError(StreamErrorPrefix + stream.failure.value)))
  {
  }

  // ===========================================================================
  // The provider object

  class GeminiProvider {
    const name: string
    const apiKey: string
    const defaultModel: string := DefaultModel
    var cachedModels: Option<seq<string>>

    /** The part of `__init__` after its guards (see `ResolveApiKey`). */
    constructor(key: string)
      ensures name == "gemini" && apiKey == key && defaultModel == DefaultModel
      ensures cachedModels == None
    {
      name := "gemini";
      apiKey := key;
      cachedModels := None;
    }

    /** `get_available_models(force_refresh)` with `listing` what the client's listing
        produces if it is consulted. */
    method GetAvailableModels(forceRefresh: bool, listing: ModelListing) returns (models: seq<string>)
      modifies this
      ensures GeminiListing(models, cachedModels) == ListModels(old(cachedModels), forceRefresh, listing)
    {
      if forceRefresh {
        cachedModels := None;
      }
      if cachedModels.Some? {
        return cachedModels.value;
      }
      var fetched := FetchModelsFromApi(listing);
      if fetched != [] {
        models := SortModelsByPrice(fetched);
        cachedModels := Some(models);
        return;
      }
      cachedModels := Some(ModelsByPrice);
      models := ModelsByPrice;
    }

    /** `get_default_model()`: the fixed default, whatever is cached. */
    method GetDefaultModel() returns (model: string)
      ensures model == defaultModel
    {
      model := defaultModel;
    }

    /** `generate_response_with_messages`, with `reply` what the client returns if it is
        called. */
    method GenerateResponseWithMessages(messages: seq<WireMessage>, model: Option<string>,
                                        listing: ModelListing, reply: ClientReply)
      returns (result: Result<Option<string>, Exc>, call: Option<GenerateCall>)
      modifies this
      ensures Generation(result, call, cachedModels) == Generate(old(cachedModels), messages, model, listing, reply)
    {
      var selected: string;
      if Truthy(model) {
        selected := model.value;
      } else {
        selected := GetDefaultModel();
      }
      var available := GetAvailableModels(false, listing);
      if selected !in available {
        return Err(Unavailable(selected, available)), None;
      }
      var contents := BuildContents(messages);
      call := Some(GenerateCall(selected, contents));
      match reply {
        case Replied(text) => result := Ok(text);
        case ClientFailed(e) => result := Err(OtherError(GenerateErrorPrefix + e));
      }
    }

    /** `stream_response_with_messages`, drained, with `stream` what the streaming call
        produces if it is made. */
    method StreamResponseWithMessages(messages: seq<WireMessage>, model: Option<string>,
                                      listing: ModelListing, stream: ClientStream)
      returns (out: ChunkStream, call: Option<GenerateCall>)
      modifies this
      ensures Streaming(out, call, cachedModels) == StreamChat(old(cachedModels), messages, model, listing, stream)
    {
      var selected: string;
      if Truthy(model) {
        selected := model.value;
      } else {
        selected := GetDefaultModel();
      }
      var available := GetAvailableModels(false, listing);
      if selected !in available {
        return ChunkStream([], Some(Unavailable(selected, available))), None;
      }
      var contents := BuildContents(messages);
      call := Some(GenerateCall(selected, contents));
      var texts := CollectTexts(stream.items);
      if stream.failure.Some? {
        out := ChunkStream(texts, Some(OtherError(StreamErrorPrefix + stream.failure.value)));
      } else {
        out := ChunkStream(texts, None);
      }
    }
  }

  /** `GeminiProvider(api_key)`: the guards, then a provider with an empty cache. */
  method NewGeminiProvider(installed: bool, apiKey: Option<string>, configured: Option<string>)
    returns (r: Result<GeminiProvider, Exc>)
    ensures r.Ok? <==> ResolveApiKey(installed, apiKey, configured).Ok?
    ensures r.Err? ==> r.error == ResolveApiKey(installed, apiKey, configured).error
    ensures r.Ok? ==> fresh(r.value) && r.value.apiKey == ResolveApiKey(installed, apiKey, configured).value
    ensures r.Ok? ==> r.value.cachedModels == None && r.value.defaultModel == DefaultModel
  {
    var key := ResolveApiKey(installed, apiKey, configured);
    if key.Err? {
      return Err(key.error);
    }
    var p := new GeminiProvider(key.value);
    return Ok(p);
  }
}
