/** The model listing endpoint (app/api/routes/models.py): one provider's models and
    default when a provider is named, otherwise an entry for every registered provider in
    registry order. What asking a provider yields is given by `probe`. */
module ModelsRoutes {
  import opened Wrappers
  import opened Strings
  import opened ProviderBase
  import Registry

  /** `ProviderModelsResponse`; `default` is `None` only in the entry written for a
      provider that failed. */
  datatype ProviderModels = ProviderModels(provider: string, models: seq<string>, default: Option<string>)

  datatype ModelsBody =
    | Single(entry: ProviderModels)
    | All(entries: seq<ProviderModels>)
    | Failure(error: string, message: string)

  datatype ModelsReply = ModelsReply(status: int, body: ModelsBody)

  /** `request.args.get("refresh", "false").lower() == "true"`. */
  predicate ParseRefresh(arg: Option<string>) {
    Lower(arg.GetOr("false")) == "true"
  }

  /** Only a case variant of "true" asks for a refresh; a missing argument does not. */
  lemma {:induction false} ParseRefreshMeaning(arg: Option<string>)
    ensures arg.None? ==> !ParseRefresh(arg)
    ensures ParseRefresh(arg) <==> arg.Some? && Lower(arg.value) == "true"
  {
    if arg.None? {
      assert Lower("false")[0] == 'f';
    }
  }

  // ---------------------------------------------------------------------------
  // All providers (the loop at lines 85-112)

  /** The entry for one provider: its listing and default, or, when asking it raised, an
      empty listing and no default. */
  function EntryFor(name: string, p: Registry.ModelsProbe): ProviderModels {
    match p
    case Probed(models, d) => ProviderModels(name, models, Some(d))
    case ProbeFailed(_) => ProviderModels(name, [], None)
  }

  function Entries(names: seq<string>, force: bool, probe: (string, bool) -> Registry.ModelsProbe)
    : seq<ProviderModels>
  {
    if names == [] then []
    else
      var last := names[|names| - 1];
      Entries(names[..|names| - 1], force, probe) + [EntryFor(last, probe(last, force))]
  }

  /** One entry per provider, in order, each carrying its provider's name; a provider
      that fails is kept, with no models and no default. */
  lemma {:induction false} EntriesMeaning(names: seq<string>, force: bool,
                                           probe: (string, bool) -> Registry.ModelsProbe)
    ensures |Entries(names, force, probe)| == |names|
    ensures forall i :: 0 <= i < |names| ==>
      && Entries(names, force, probe)[i].provider == names[i]
      && Entries(names, force, probe)[i] == EntryFor(names[i], probe(names[i], force))
    ensures forall i :: 0 <= i < |names| ==>
      (Entries(names, force, probe)[i].default.None? <==> probe(names[i], force).ProbeFailed?)
  {
    if names != [] {
      EntriesMeaning(names[..|names| - 1], force, probe);
    }
  }

  /** The loop building `providers_data`, with the failure entry allowed to have no
      default. */
  method CollectEntries(names: seq<string>, force: bool, probe: (string, bool) -> Registry.ModelsProbe)
    returns (entries: seq<ProviderModels>)
    ensures entries == Entries(names, force, probe)
  {
    entries := [];
    var i := 0;
    while i < |names|
      invariant 0 <= i <= |names|
      invariant entries == Entries(names[..i], force, probe)
    {
      assert names[..i + 1][..i] == names[..i];
      var name := names[i];
      match probe(name, force) {
        case Probed(models, d) =>
          entries := entries + [ProviderModels(name, models, Some(d))];
        case ProbeFailed(_) =>
          entries := entries + [ProviderModels(name, [], None)];
      }
      i := i + 1;
    }
    assert names[..i] == names;
  }

  /** The pydantic report that a `None` default fails `default: str`, a `ValueError`;
      its exact wording is not modelled. */
  const DefaultNotAString: string := "validation error for ProviderModelsResponse"

  /** The same loop as the source runs it: the failure entry is built with
      `default=None` against a field declared `str`, so building it raises, and the
      exception leaves the loop. */
  function EntriesAsWritten(names: seq<string>, force: bool, probe: (string, bool) -> Registry.ModelsProbe)
    : Result<seq<ProviderModels>, Exc>
  {
    if names == [] then Ok([])
    else
      match EntriesAsWritten(names[..|names| - 1], force, probe)
      case Err(e) => Err(e)
      case Ok(es) =>
        var last := names[|names| - 1];
        match probe(last, force)
        case Probed(models, d) => Ok(es + [ProviderModels(last, models, Some(d))])
        case ProbeFailed(_) => Err(ValueError(DefaultNotAString))
  }

  /** As written, one failing provider loses the whole listing; without failures the
      two readings agree. */
  lemma {:induction false} EntriesAsWrittenLosesListing(names: seq<string>, force: bool,
                                                        probe: (string, bool) -> Registry.ModelsProbe)
    ensures (exists i :: 0 <= i < |names| && probe(names[i], force).ProbeFailed?) ==>
      EntriesAsWritten(names, force, probe) == Err(ValueError(DefaultNotAString))
    ensures (forall i :: 0 <= i < |names| ==> probe(names[i], force).Probed?) ==>
      EntriesAsWritten(names, force, probe) == Ok(Entries(names, force, probe))
  {
    if names != [] {
      var init := names[..|names| - 1];
      EntriesAsWrittenLosesListing(init, force, probe);
      if exists i :: 0 <= i < |names| && probe(names[i], force).ProbeFailed? {
        var i :| 0 <= i < |names| && probe(names[i], force).ProbeFailed?;
        if i < |init| {
          assert init[i] == names[i];
        }
      }
      if forall i :: 0 <= i < |names| ==> probe(names[i], force).Probed? {
        assert forall i :: 0 <= i < |init| ==> init[i] == names[i];
      }
    }
  }

  // ---------------------------------------------------------------------------
  // The route

  const NotFound: string := "Provider not found"
  const ListingFailed: string := "Failed to get models"

  /** `get_models()` as written, with `filter` and `refresh` the query arguments and
      `probe` what asking a provider yields. In the all-providers branch a failing
      provider makes building its entry raise (see `EntriesAsWritten`), and the outer
      handler answers 500 with the exception's text. */
  function GetModels(svc: Registry.AIService, filter: Option<string>, refresh: Option<string>,
                     probe: (string, bool) -> Registry.ModelsProbe): ModelsReply
    requires svc.Valid()
  {
    var force := ParseRefresh(refresh);
    if Truthy(filter) then SingleProvider(svc, Lower(filter.value), force, probe)
    else
      match EntriesAsWritten(svc.GetAvailableProviders(), force, probe)
      case Ok(es) => ModelsReply(200, All(es))
      case Err(e) => ModelsReply(500, Failure(ListingFailed, e.message))
  }

  /** `get_models()` as evidently intended: a failing provider is kept in the listing
      with no models and no default (see `Entries`). The named-provider branch is the
      same as in `GetModels`. */
  function GetModelsIntended(svc: Registry.AIService, filter: Option<string>, refresh: Option<string>,
                             probe: (string, bool) -> Registry.ModelsProbe): ModelsReply
    requires svc.Valid()
  {
    var force := ParseRefresh(refresh);
    if Truthy(filter) then SingleProvider(svc, Lower(filter.value), force, probe)
    else ModelsReply(200, All(Entries(svc.GetAvailableProviders(), force, probe)))
  }

  /** The branch of `get_models()` for a named provider, `name` already lower-cased. */
  function SingleProvider(svc: Registry.AIService, name: string, force: bool,
                          probe: (string, bool) -> Registry.ModelsProbe): ModelsReply
    requires svc.Valid()
  {
    if !svc.IsProviderAvailable(name) then
      ModelsReply(404, Failure(NotFound, "Provider '" + name + "' is not available"))
    else
      match probe(name, force)
      case ProbeFailed(m) => ModelsReply(500, Failure(ListingFailed, m))
      case Probed(models, d) => ModelsReply(200, Single(ProviderModels(name, models, Some(d))))
  }

  /** A named provider is looked up case-insensitively and answered 404 before it is
      asked anything when unregistered, 200 with its listing when asking it succeeds and
      500 when it raises. */
  lemma {:induction false} SingleProviderMeaning(svc: Registry.AIService, name: string, force: bool,
                                                 probe: (string, bool) -> Registry.ModelsProbe)
    requires svc.Valid()
    ensures var r := SingleProvider(svc, name, force, probe);
      && (r.status == 404 <==> !svc.IsProviderAvailable(name))
      && (svc.IsProviderAvailable(name) ==>
            && (r.status == 200 <==> probe(name, force).Probed?)
            && (r.status == 500 <==> probe(name, force).ProbeFailed?)
            && (probe(name, force).Probed? ==>
                  r.body == Single(ProviderModels(name, probe(name, force).models, Some(probe(name, force).defaultModel)))))
  {
  }

  /** As written: without a provider name, the reply is 500 "Failed to get models" as
      soon as one registered provider fails, and otherwise 200 with one entry per
      registered provider, in registry order. */
  lemma {:induction false} GetModelsMeaning(svc: Registry.AIService, filter: Option<string>, refresh: Option<string>,
                         probe: (string, bool) -> Registry.ModelsProbe)
    requires svc.Valid()
    ensures var r := GetModels(svc, filter, refresh, probe);
      var force := ParseRefresh(refresh);
      var names := svc.GetAvailableProviders();
      && (Truthy(filter) ==> r == SingleProvider(svc, Lower(filter.value), force, probe))
      && (!Truthy(filter) && (exists i :: 0 <= i < |names| && probe(names[i], force).ProbeFailed?) ==>
            r == ModelsReply(500, Failure(ListingFailed, DefaultNotAString)))
      && (!Truthy(filter) && (forall i :: 0 <= i < |names| ==> probe(names[i], force).Probed?) ==>
            && r.status == 200
            && r.body == All(Entries(names, force, probe))
            && |r.body.entries| == |svc.names|
            && forall i :: 0 <= i < |svc.names| ==> r.body.entries[i].provider == svc.names[i])
  {
    var force := ParseRefresh(refresh);
    EntriesAsWrittenLosesListing(svc.GetAvailableProviders(), force, probe);
    EntriesMeaning(svc.GetAvailableProviders(), force, probe);
  }

  /** As intended: without a provider name the reply is always 200 with one entry per
      registered provider, in registry order, a failed one without models or default. */
  lemma {:induction false} GetModelsIntendedMeaning(svc: Registry.AIService, filter: Option<string>, refresh: Option<string>,
                         probe: (string, bool) -> Registry.ModelsProbe)
    requires svc.Valid()
    ensures var r := GetModelsIntended(svc, filter, refresh, probe);
      && (Truthy(filter) ==> r == SingleProvider(svc, Lower(filter.value), ParseRefresh(refresh), probe))
      && (!Truthy(filter) ==>
            && r.status == 200
            && r.body.All?
            && |r.body.entries| == |svc.names|
            && forall i :: 0 <= i < |svc.names| ==>
                 && r.body.entries[i].provider == svc.names[i]
                 && (r.body.entries[i].default.None? <==> probe(svc.names[i], ParseRefresh(refresh)).ProbeFailed?))
  {
    EntriesMeaning(svc.GetAvailableProviders(), ParseRefresh(refresh), probe);
  }

  /** The two readings differ exactly on listings with a failing provider. */
  lemma {:induction false} ReadingsAgreeWithoutFailures(svc: Registry.AIService, filter: Option<string>,
                                                        refresh: Option<string>, probe: (string, bool) -> Registry.ModelsProbe)
    requires svc.Valid()
    ensures var names := svc.GetAvailableProviders();
      (GetModels(svc, filter, refresh, probe) == GetModelsIntended(svc, filter, refresh, probe)) <==>
        (Truthy(filter) || forall i :: 0 <= i < |names| ==> probe(names[i], ParseRefresh(refresh)).Probed?)
  {
    EntriesAsWrittenLosesListing(svc.GetAvailableProviders(), ParseRefresh(refresh), probe);
  }

  const ModelsHint: string :=
    "This endpoint is not available. Use /api/v1/models with authentication."

  /** `get_models_anonymous()`: 403 when anonymous access is off, else `get_models()`. */
  function GetModelsAnonymous(enabled: bool, svc: Registry.AIService, filter: Option<string>,
                              refresh: Option<string>, probe: (string, bool) -> Registry.ModelsProbe)
    : (r: ModelsReply)
    requires svc.Valid()
    ensures !enabled ==> r.status == 403
    ensures enabled ==> r == GetModels(svc, filter, refresh, probe)
  {
    if !enabled then ModelsReply(403, Failure("Anonymous access disabled", ModelsHint))
    else GetModels(svc, filter, refresh, probe)
  }
}
