/** The provider registry (`AIService` in app/services/ai_service.py): at construction
    each provider is created in its own guarded step, and a provider whose constructor
    raises is simply not registered; afterwards the registry is a fixed dictionary from
    lower-case names to providers, looked up case-insensitively. */
module Registry {
  import opened Wrappers
  import opened Strings
  import opened ProviderBase
  import Ollama
  import Gemini

  /** A registered provider. */
  datatype Provider = OllamaEntry(ollama: Ollama.OllamaProvider) | GeminiEntry(gemini: Gemini.GeminiProvider)

  /** What asking a registered provider for its models yields: the listing and the
      default model, or the message of the exception raised on the way. */
  datatype ModelsProbe = Probed(models: seq<string>, defaultModel: string) | ProbeFailed(message: string)

  /** The names registered, in insertion order, given which constructors succeeded. */
  function RegisteredNames(ollamaOk: bool, geminiOk: bool): (names: seq<string>)
    ensures "ollama" in names <==> ollamaOk
    ensures "gemini" in names <==> geminiOk
    ensures |names| == (if ollamaOk then 1 else 0) + (if geminiOk then 1 else 0)
    ensures ollamaOk ==> names[0] == "ollama"
  {
    (if ollamaOk then ["ollama"] else []) + (if geminiOk then ["gemini"] else [])
  }

  /** The `ValueError` for an unregistered name; it lists the registered ones. */
  function NotAvailable(name: string, available: seq<string>): Exc {
    ValueError("Provider '" + name + "' is not available. Available providers: " + ListRepr(available))
  }

  class AIService {
    /** `self._providers`: never changed after construction. */
    const providers: map<string, Provider>
    /** The keys of `self._providers`, in insertion order. */
    const names: seq<string>

    ghost predicate Valid() {
      && (forall n :: n in names <==> n in providers)
      && (forall i, j :: 0 <= i < j < |names| ==> names[i] != names[j])
      && ("ollama" in providers ==> providers["ollama"].OllamaEntry?)
      && ("gemini" in providers ==> providers["gemini"].GeminiEntry?)
    }

    /** `AIService()`: Ollama, then Gemini, each in its own `try`. `ollamaFails` says
        whether the Ollama constructor raised; the Gemini constructor's guards are
        evaluated on the installed SDK and the configured key. */
    constructor(ollamaFails: bool, ollamaUrl: string, geminiInstalled: bool, geminiKey: Option<string>)
      ensures Valid()
      ensures names == RegisteredNames(!ollamaFails, Gemini.ResolveApiKey(geminiInstalled, None, geminiKey).Ok?)
      ensures "ollama" in providers ==> fresh(providers["ollama"].ollama)
      ensures "gemini" in providers ==> fresh(providers["gemini"].gemini)
    {
      var m: map<string, Provider> := map[];
      var ks: seq<string> := [];
      if !ollamaFails {
        var o := new Ollama.OllamaProvider(None, ollamaUrl);
        m := m["ollama" := OllamaEntry(o)];
        ks := ks + ["ollama"];
      }
      var g := Gemini.NewGeminiProvider(geminiInstalled, None, geminiKey);
      if g.Ok? {
        m := m["gemini" := GeminiEntry(g.value)];
        ks := ks + ["gemini"];
      }
      providers := m;
      names := ks;
    }

    /** The key `get_provider` looks up: the name, or the configured default, lower-cased. */
    function Key(name: Option<string>, defaultProvider: string): string {
      Lower(name.GetOr(defaultProvider))
    }

    /** `get_provider(provider_type)`. */
    function GetProvider(name: Option<string>, defaultProvider: string): (r: Result<Provider, Exc>)
      requires Valid()
      ensures r.Ok? <==> Key(name, defaultProvider) in names
      ensures r.Ok? ==> r.value == providers[Key(name, defaultProvider)]
      ensures r.Err? ==> r.error == NotAvailable(Key(name, defaultProvider), names)
    {
      var key := Key(name, defaultProvider);
      if key !in providers then Err(NotAvailable(key, names)) else Ok(providers[key])
    }

    /** `get_available_providers()`. */
    function GetAvailableProviders(): seq<string> {
      names
    }

    /** `is_provider_available(provider_type)`. */
    predicate IsProviderAvailable(name: string) {
      Lower(name) in providers
    }

    /** Availability and lookup agree: a name is available exactly when looking it up
        succeeds, and it is listed exactly when its lower-case form is. */
    lemma {:induction false} AvailableIffFound(name: string, defaultProvider: string)
      requires Valid()
      ensures IsProviderAvailable(name) <==> GetProvider(Some(name), defaultProvider).Ok?
      ensures IsProviderAvailable(name) <==> Lower(name) in GetAvailableProviders()
    {
    }

    /** Lookup ignores ASCII case: names that lower-case alike find the same provider,
        and a name finds what its lower-case form finds. */
    lemma {:induction false} LookupIgnoresCase(a: string, b: string, defaultProvider: string)
      requires Valid()
      requires Lower(a) == Lower(b)
      ensures GetProvider(Some(a), defaultProvider) == GetProvider(Some(b), defaultProvider)
      ensures GetProvider(Some(Lower(a)), defaultProvider) == GetProvider(Some(a), defaultProvider)
    {
      LowerIdempotent(a);
    }

    /** No name means the configured default. */
    lemma {:induction false} DefaultLookup(defaultProvider: string)
      requires Valid()
      ensures GetProvider(None, defaultProvider) == GetProvider(Some(defaultProvider), defaultProvider)
    {
    }

    /** Every name offered by `get_available_providers` can be looked up. */
    lemma {:induction false} ListedNamesResolve(i: nat, defaultProvider: string)
      requires Valid()
      requires i < |GetAvailableProviders()|
      requires Lower(GetAvailableProviders()[i]) == GetAvailableProviders()[i]
      ensures GetProvider(Some(GetAvailableProviders()[i]), defaultProvider).Ok?
    {
    }
  }

  /** The registered names are always lower case, so every listed name resolves. */
  lemma {:induction false} RegisteredNamesLowerCase(ollamaOk: bool, geminiOk: bool)
    ensures forall i :: 0 <= i < |RegisteredNames(ollamaOk, geminiOk)| ==>
      Lower(RegisteredNames(ollamaOk, geminiOk)[i]) == RegisteredNames(ollamaOk, geminiOk)[i]
  {
    LowerNames();
  }

  lemma {:induction false} LowerNames()
    ensures Lower("ollama") == "ollama" && Lower("gemini") == "gemini"
  {
    LowerFixed("ollama");
    LowerFixed("gemini");
  }

  /** One provider failing does not keep the other out. */
  lemma {:induction false} FailuresAreIndependent(ollamaOk: bool, geminiOk: bool)
    ensures "gemini" in RegisteredNames(ollamaOk, geminiOk) <==> "gemini" in RegisteredNames(true, geminiOk)
    ensures "ollama" in RegisteredNames(ollamaOk, geminiOk) <==> "ollama" in RegisteredNames(ollamaOk, true)
  {
  }
}
