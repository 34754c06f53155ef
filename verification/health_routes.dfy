/** The detailed health endpoint (app/api/routes/health.py): one status per registered
    provider, and an overall status that is "healthy" exactly when every provider
    answered. */
module HealthRoutes {
  import opened Wrappers
  import Registry

  /** The status recorded for one provider. */
  datatype ProviderStatus =
    | Available(modelsCount: nat, defaultModel: string)
    | Unavailable(error: string)

  function StatusFor(p: Registry.ModelsProbe): ProviderStatus {
    match p
    case Probed(models, d) => Available(|models|, d)
    case ProbeFailed(m) => Unavailable(m)
  }

  /** `providers_status` after the loop over `names`. */
  function StatusMap(names: seq<string>, probe: string -> Registry.ModelsProbe)
    : map<string, ProviderStatus>
  {
    if names == [] then map[]
    else
      var last := names[|names| - 1];
      StatusMap(names[..|names| - 1], probe)[last := StatusFor(probe(last))]
  }

  /** Exactly the registered providers have a status, each the one its probe gives. */
  lemma {:induction false} StatusMapMeaning(names: seq<string>, probe: string -> Registry.ModelsProbe)
    ensures forall n :: n in StatusMap(names, probe) <==> n in names
    ensures forall n :: n in names ==> StatusMap(names, probe)[n] == StatusFor(probe(n))
  {
    if names != [] {
      var init := names[..|names| - 1];
      StatusMapMeaning(init, probe);
      assert names == init + [names[|names| - 1]];
    }
  }

  /** The loop of `detailed_health`. `probe` is what asking a provider for its models
      and default yields. */
  method CheckProviders(names: seq<string>, probe: string -> Registry.ModelsProbe)
    returns (status: map<string, ProviderStatus>)
    ensures status == StatusMap(names, probe)
  {
    status := map[];
    var i := 0;
    while i < |names|
      invariant 0 <= i <= |names|
      invariant status == StatusMap(names[..i], probe)
    {
      assert names[..i + 1][..i] == names[..i];
      var name := names[i];
      match probe(name) {
        case Probed(models, d) =>
          status := status[name := Available(|models|, d)];
        case ProbeFailed(m) =>
          status := status[name := Unavailable(m)];
      }
      i := i + 1;
    }
    assert names[..i] == names;
  }

  /** `"healthy" if all(... available ...) else "degraded"`. */
  function Overall(status: map<string, ProviderStatus>): string {
    if forall n :: n in status ==> status[n].Available? then "healthy" else "degraded"
  }

  datatype DetailedHealth = DetailedHealth(status: string, service: string,
                                           providers: map<string, ProviderStatus>)

  /** `detailed_health()`: always answered with 200. */
  function DetailedHealthReply(svc: Registry.AIService, probe: string -> Registry.ModelsProbe)
    : (int, DetailedHealth)
  {
    var status := StatusMap(svc.GetAvailableProviders(), probe);
    (200, DetailedHealth(Overall(status), "ai-service", status))
  }

  /** The reply is always 200 and has one status per registered provider; it says
      "healthy" exactly when every registered provider answered (so also when none is
      registered), else "degraded". */
  lemma {:induction false} DetailedHealthMeaning(svc: Registry.AIService, probe: string -> Registry.ModelsProbe)
    ensures var (code, h) := DetailedHealthReply(svc, probe);
      && code == 200
      && (forall n :: n in h.providers <==> n in svc.names)
      && (h.status == "healthy" <==> forall n :: n in svc.names ==> probe(n).Probed?)
      && (h.status == "healthy" || h.status == "degraded")
      && (svc.names == [] ==> h.status == "healthy")
  {
    StatusMapMeaning(svc.names, probe);
  }
}
