# LLM gateway core in Dafny

This project models the core of a Flask gateway that puts local (Ollama) and cloud
(Gemini) language models behind one authenticated HTTP API:

- **Providers.** The two AI providers share one contract (`AIProvider`). Ollama's
  provider keeps a cache of its model listing and picks the smallest model as its
  default. Gemini's provider keeps its listing in price order.
- **Requests and registry.** The chat request model validates its fields and windows the
  conversation history. The provider registry looks providers up without regard to case.
- **Routes.** The chat, streaming chat, model listing and detailed health routes, with
  their anonymous variants.
- **Security.** The client of the external security service validates tokens and API
  keys, with a hardcoded-key fallback. The `require_auth`/`optional_auth` decorators
  choose which credential to check.
- **Settings and application rules.** The settings read from the environment, and the
  two rules of the application factory that are not I/O.

Everything outside the gateway is a parameter of the operation that uses it: HTTP
replies, SDK calls, the environment and the validators. Each parameter is a datatype of
the outcomes the source tells apart. The providers' caches are the fields of two
classes (`Ollama.OllamaProvider`, `Gemini.GeminiProvider`). Their methods are proved
against pure functions of the old state. The loops of the source are methods with
invariants:
- the message conversion loops;
- the line and item loops of streaming;
- the event generator of the streaming route;
- the per-provider loops of the models and health routes.

Modules, one per source file, plus three helpers:
- `Wrappers`: `Option` and `Result`.
- `Strings`: Python string operations on `seq<char>`.
- `Sorting`: Python's `sorted` on strings, and a stable sort by integer key.
- `ProviderBase`, `ChatRequests`, `Ollama`, `Gemini`, `Registry`: the services.
- `ChatRoutes`, `ModelsRoutes`, `HealthRoutes`: the routes.
- `SecurityClient`, `Middleware`, `Config`, `App`: security, settings and the
  application factory.

Several results of the proofs concern the source as written:
- The Ollama keyword size buckets can never decide an estimate (`Ollama.KeywordBucketsUnreachable`).
- A fractional size such as `qwen:1.5b` is read as 5 billion (`Ollama.FractionalExample`).
- The dated small Gemini flash model is ranked as the plain 1.5 flash model (`Gemini.SmallFlashVariantRanksAsFlash`).
- A live Gemini listing without the default model makes every default request fail (`Gemini.DefaultCanBeUnavailable`).
- One failing provider loses the whole model listing (see Findings).

## Model

| member | source | states |
|---|---|---|
| Strings.Lower | app/services/ai_service.py:63 | lower-casing keeps the length and maps each character to its ASCII lower case |
| Strings.LowerIdempotent | app/api/routes/models.py:53-55 | lower-casing an already lower-cased name changes nothing, so the route's `.lower()` and the registry's agree |
| Strings.IndexOf | app/main.py:99 | the result is the leftmost occurrence of the pattern, and None means no occurrence anywhere |
| Strings.JoinSplit | app/main.py:99 | joining the pieces of a split with the separator gives back the original string |
| Strings.SplitPiecesAvoidSep | app/services/providers/gemini_provider.py:123-124 | no piece of a split contains the separator |
| Strings.SplitLast | app/services/providers/gemini_provider.py:123-124 | the last piece of a split contains no separator and is what follows the last separator |
| Strings.SplitMany | app/services/providers/gemini_provider.py:123-124 | a split has more than one piece exactly when the separator occurs |
| Strings.ReplaceAllAbsent | app/main.py:98-99 | replacing an absent pattern leaves the string unchanged |
| Strings.QuoteAll | app/services/ai_service.py:69-70 | each listed name is wrapped in single quotes, in order, as `repr` of a list shows it |
| Strings.StripLeft | app/services/security_client.py:297 | the result is a suffix starting with a non-space, and only whitespace was removed |
| Strings.StripRight | app/services/security_client.py:297 | the result is a prefix ending in a non-space, and only whitespace was removed |
| Strings.StripUnspaced | app/services/security_client.py:297 | a string without whitespace at either end is its own strip |
| Strings.NatToString | app/config.py:56 | the decimal text of a natural number is non-empty, all digits, and reads back as the same number |
| Sorting.LexLeTotal | app/services/providers/ollama_provider.py:150 | any two model names are ordered one way or the other |
| Sorting.LexLeAntisymmetric | app/services/providers/ollama_provider.py:150 | two names each ordered before the other are equal |
| Sorting.LexLeTransitive | app/services/providers/ollama_provider.py:150 | the string order is transitive |
| Sorting.InsertStringSorted | app/services/providers/ollama_provider.py:150 | inserting a name into a sorted list keeps it sorted |
| Sorting.SortStrings | app/services/providers/ollama_provider.py:150-155 | the listing is sorted, and it is a permutation of the collected names |
| Sorting.SortSortedIsIdentity | app/services/providers/ollama_provider.py:100-102 | re-sorting a sorted cached list returns it unchanged |
| Sorting.SortStringsIdempotent | app/services/providers/ollama_provider.py:100-102 | sorting twice equals sorting once |
| Sorting.InsertByKey | app/services/providers/gemini_provider.py:159 | inserting by key adds exactly that element, which lands at the front unless the old head stays there |
| Sorting.InsertByKeySorted | app/services/providers/gemini_provider.py:159 | inserting into a key-sorted list keeps it key-sorted |
| Sorting.SortByKey | app/services/providers/gemini_provider.py:159 | the sort by key is a permutation of its input, in non-decreasing key order |
| Sorting.SortByKeySortedIsIdentity | app/services/providers/gemini_provider.py:159 | sorting a list already in key order changes nothing |
| Sorting.PositionKeyedIsSorted | app/services/providers/gemini_provider.py:146-159 | a list whose keys are the positions is in key order |
| Sorting.SortTwo | app/services/providers/gemini_provider.py:159 | two elements out of key order are swapped |
| Sorting.InsertByKeyFilter | app/services/providers/gemini_provider.py:159 | inserting puts the new element after the elements with the same key |
| Sorting.SortByKeyStable | app/services/providers/gemini_provider.py:159 | the sort is stable: elements with equal keys keep their relative order |
| Sorting.FilterKeyHead | app/services/providers/ollama_provider.py:202-206 | the first element with a key that occurs nowhere earlier heads the elements with that key |
| Sorting.SortByKeyHead | app/services/providers/ollama_provider.py:202-206 | the head of a stable sort is the first element with the least key |
| Sorting.FirstMinIndex | app/services/providers/ollama_provider.py:202-206 | the index of the first element with the least key |
| ProviderBase.ToMessages | app/services/providers/base.py:41-45 | explicit messages win; a prompt alone becomes one user message; neither raises ValueError |
| ProviderBase.PromptIgnoredWithMessages | app/services/providers/base.py:20-45 | with messages given, the prompt has no effect on the generated response |
| ProviderBase.StreamAndGenerateAgree | app/services/providers/base.py:68-94 | streaming and generating fail alike without input, and both hand the same messages to the provider otherwise |
| ProviderBase.ValidateModel | app/services/providers/base.py:136-147 | a model is valid exactly when it appears in the listing; the emptiness test adds nothing |
| ChatRequests.Construct | app/models/requests.py:14-21 | construction succeeds exactly when the window is between 1 and 100 and every message has non-empty content, and keeps the fields |
| ChatRequests.Window | app/models/requests.py:31-33 | the window is between 1 and 100; it is 20 when absent, else the given value |
| ChatRequests.ToWireAll | app/models/requests.py:31-33 | each message becomes a role/content dict, in order |
| ChatRequests.GetMessages | app/models/requests.py:23-38 | the last `window` messages when there are messages, else the prompt as one user message, else a ValueError |
| ChatRequests.GetMessagesBounded | app/models/requests.py:23-38 | the messages handed on number between 1 and the window, and none has empty content |
| ChatRequests.DefaultWindowKeepsLatest | app/models/requests.py:31-33 | with the default window, a 25-message history keeps messages 6 to 25 |
| ChatRequests.ModelValidateMatchesGetMessages | app/models/requests.py:41-46 | validation accepts exactly the valid requests from which messages can be taken, and otherwise raises the same ValueError |
| Ollama.RunEnd | app/services/providers/ollama_provider.py:52-64 | the end of the digit run starting at an index: every character before it is a digit, the one at it is not |
| Ollama.SearchFrom | app/services/providers/ollama_provider.py:52-64 | the search finds the leftmost match of the size pattern at or after the index, or reports that none exists |
| Ollama.KeywordGivesToken | app/services/providers/ollama_provider.py:67-76 | a name containing a keyword that ends in a digit and `b` always matches the bare size pattern |
| Ollama.KeywordBucketsUnreachable | app/services/providers/ollama_provider.py:40-79 | the estimate is always decided by the regular expressions; the keyword buckets never decide it |
| Ollama.EstimateReadFromName | app/services/providers/ollama_provider.py:40-79 | the estimate is 50 exactly when no digit run is followed by `b`, otherwise it is a number written just before a `b` in the name |
| Ollama.TaggedSize | app/services/providers/ollama_provider.py:52-56 | a tag `family:<n>b...` is estimated at n, for any family without a colon |
| Ollama.FractionalPatternEstimate | app/services/providers/ollama_provider.py:52-64 | a fractional tag `f:<whole>.<frac>b` is estimated from the digits after the point |
| Ollama.EstimateExamples | app/services/providers/ollama_provider.py:40-79 | `llama3.2:1b` is estimated at 1 and `qwen2.5:14b` at 14 |
| Ollama.FractionalExample | app/services/providers/ollama_provider.py:52-64 | `qwen:1.5b` is estimated at 5, not 1.5 |
| Ollama.FirstNonObject | app/services/providers/ollama_provider.py:131-139 | the first entry of the reply's model list that is not a JSON object; all entries before it are objects |
| Ollama.NamesRecorded | app/services/providers/ollama_provider.py:131-147 | every listed name has its metadata recorded with its estimated size |
| Ollama.ListModelsKeepsCacheValid | app/services/providers/ollama_provider.py:81-188 | every listing keeps the invariant: a cached list is sorted and each cached name has metadata with its estimate |
| Ollama.CachedListingIsStable | app/services/providers/ollama_provider.py:100-102 | without a refresh, a valid cache is returned unchanged and the state is left alone |
| Ollama.ListingSortedAndCached | app/services/providers/ollama_provider.py:100-155 | every listing is sorted, and it is what the cache then holds unless the fetch failed |
| Ollama.UnqueriedListingIgnoresServer | app/services/providers/ollama_provider.py:95-102 | when the cache answers, the server's reply plays no part |
| Ollama.DefaultIsFirstSmallest | app/services/providers/ollama_provider.py:202-206 | the default model is the first listed model with the smallest estimated size |
| Ollama.DefaultOfSortedListing | app/services/providers/ollama_provider.py:190-213 | from a sorted listing, the default is a listed model of least size and the name-first among those |
| Ollama.ConvertMessagesMeaning | app/services/providers/ollama_provider.py:236-242 | conversion succeeds exactly when every message has both keys and keeps roles and contents in order; otherwise KeyError names the first missing key |
| Ollama.ToOllamaMessages | app/services/providers/ollama_provider.py:236-242 | the conversion loop computes the conversion function |
| Ollama.OutOfMemoryKeywordRedundant | app/services/providers/ollama_provider.py:269 | the keyword "out of memory" adds nothing to the memory test |
| Ollama.GenerateSendsHistory | app/services/providers/ollama_provider.py:215-285 | the post carries the requested or default model and the whole history, unstreamed; nothing is posted when a message lacks a key |
| Ollama.ContentText | app/services/providers/ollama_provider.py:261-262 | a missing `content` reads as the empty text, a JSON `null` one as `None`, a string as itself |
| Ollama.GenerateSucceedsOnlyOnReply | app/services/providers/ollama_provider.py:258-285 | generation succeeds exactly on a 200 reply to converted messages, returning its `content` as read (`None` for `null`); a rejection or a request failure always raises |
| Ollama.DrainLines | app/services/providers/ollama_provider.py:346-357 | every yielded fragment is non-empty |
| Ollama.DrainLinesAppend | app/services/providers/ollama_provider.py:346-357 | draining a concatenation drains the first part, and the second only if the first ended normally |
| Ollama.CollectFragments | app/services/providers/ollama_provider.py:346-357 | the line loop yields exactly the drained fragments and stops at the first failing line |
| Ollama.RejectionListsAgain | app/services/providers/ollama_provider.py:264-275 | the listing after a memory-related rejection is served from the cache the selection left, and otherwise reports the server's second answer |
| Ollama.StreamAndGenerateFailAlike | app/services/providers/ollama_provider.py:287-367 | streaming and generating raise the same exception, leave the same cache and post the same body apart from the stream flag |
| Ollama.OllamaProvider.constructor | app/services/providers/ollama_provider.py:15-33 | the URL defaults to the configured one, the three endpoints derive from it, and the cache starts empty |
| Ollama.OllamaProvider.ClearCache | app/services/providers/ollama_provider.py:35-38 | both the model list and the metadata are cleared |
| Ollama.OllamaProvider.GetAvailableModels | app/services/providers/ollama_provider.py:81-188 | the returned list and the new cache are those of the listing function on the old cache |
| Ollama.ScanEntries | app/services/providers/ollama_provider.py:128-142 | the loop stops at the first entry that is not an object, having appended exactly the names and recorded exactly the metadata of the entries before it |
| Ollama.OllamaProvider.RecordEntries | app/services/providers/ollama_provider.py:123-155 | a list with a non-object entry returns nothing and caches nothing but keeps the metadata recorded so far; otherwise the sorted names are cached and returned |
| Ollama.OllamaProvider.GetDefaultModel | app/services/providers/ollama_provider.py:190-213 | the result and the new cache are those of selecting the default from a listing |
| Ollama.OllamaProvider.Select | app/services/providers/ollama_provider.py:233 | a given model is used as it is, otherwise the default is selected |
| Ollama.OllamaProvider.RejectionError | app/services/providers/ollama_provider.py:264-275 | a memory-related rejection lists up to five available models, any other raises the error text |
| Ollama.OllamaProvider.GenerateResponseWithMessages | app/services/providers/ollama_provider.py:215-285 | the result, the post and the new cache are those of the generation function on the old cache, with separate server answers for the selection listing and the rejection listing |
| Ollama.OllamaProvider.StreamResponseWithMessages | app/services/providers/ollama_provider.py:287-367 | the fragments, the failure, the post and the new cache are those of the streaming function on the old cache, with separate server answers for the two listings |
| Gemini.FirstEntry | app/services/providers/gemini_provider.py:148-157 | the first table entry at or after a position that satisfies a test, or none |
| Gemini.PriceRank | app/services/providers/gemini_provider.py:148-157 | a table name ranks at its own position; other names rank at the first related entry, or after the whole table |
| Gemini.TableDistinct | app/services/providers/gemini_provider.py:24-34 | the price table lists no model twice |
| Gemini.TableRanks | app/services/providers/gemini_provider.py:146-157 | every table entry ranks at its own position |
| Gemini.SortModelsByPriceMeaning | app/services/providers/gemini_provider.py:135-161 | the sorted list is a permutation of the input in rank order, and names of equal rank keep their order |
| Gemini.AllTableRanks | app/services/providers/gemini_provider.py:146-157 | all table entries rank at their positions |
| Gemini.TableIsPriceSorted | app/services/providers/gemini_provider.py:24-34 | the table is already in price order, so sorting it changes nothing |
| Gemini.PositionRankedIsFixed | app/services/providers/gemini_provider.py:135-161 | a list whose every name ranks at its position is unchanged by sorting |
| Gemini.SortExample | app/services/providers/gemini_provider.py:135-161 | `gemini-pro` sorts after `gemini-2.0-flash` |
| Gemini.SmallFlashVariantNotInTable | app/services/providers/gemini_provider.py:24-34 | the dated small flash model is not in the table |
| Gemini.SmallFlashVariantUnrelatedToFirst | app/services/providers/gemini_provider.py:151-156 | the dated small flash model is unrelated to the first three table entries |
| Gemini.SmallFlashVariantRelatedToFlash | app/services/providers/gemini_provider.py:151-156 | the dated small flash model contains the plain 1.5 flash name |
| Gemini.SmallFlashVariantRanksAsFlash | app/services/providers/gemini_provider.py:148-157 | the dated small flash model ranks 3, as the plain 1.5 flash model, not 4 as the small flash model |
| Gemini.ModelIdIsLastSegment | app/services/providers/gemini_provider.py:123-124 | the id contains no `/`, and it is the part after the last `/` or the whole name |
| Gemini.ModelIdIdempotent | app/services/providers/gemini_provider.py:123-124 | extracting an id from an id changes nothing |
| Gemini.ModelIdsAppend | app/services/providers/gemini_provider.py:118-127 | the ids of concatenated listings are the concatenated ids |
| Gemini.ModelIdsMeaning | app/services/providers/gemini_provider.py:118-127 | nameless items are skipped, ids contain no `/`, and a fully named listing yields one id per item |
| Gemini.FetchModelsFromApi | app/services/providers/gemini_provider.py:105-133 | the loop computes the fetched ids, and the empty list whenever listing is unsupported or fails |
| Gemini.ListModelsKeepsCacheValid | app/services/providers/gemini_provider.py:60-103 | every listing is non-empty, in price order, and what is now cached |
| Gemini.QueriedListing | app/services/providers/gemini_provider.py:74-103 | a live list is used, sorted by price, exactly when it is non-empty; otherwise the table is the fallback |
| Gemini.CachedListingIsStable | app/services/providers/gemini_provider.py:79-81 | without a refresh, a cached list is returned unchanged whatever the client would answer |
| Gemini.ResolveApiKey | app/services/providers/gemini_provider.py:36-58 | a missing SDK raises ImportError; a missing key raises ValueError; an explicit key wins over the configured one |
| Gemini.DefaultInTable | app/services/providers/gemini_provider.py:24-34 | the default model is the table's third entry and ranks 2 |
| Gemini.GeminiRole | app/services/providers/gemini_provider.py:200-210 | a missing role is `user`, `assistant` becomes `model`, any other role is kept |
| Gemini.ToContentsMeaning | app/services/providers/gemini_provider.py:200-210 | one content entry per message, in order, with no `assistant` role and an empty text for missing content |
| Gemini.BuildContents | app/services/providers/gemini_provider.py:200-210 | the conversion loop computes the conversion function |
| Gemini.GenerateChecksModelFirst | app/services/providers/gemini_provider.py:190-220 | a model outside the listing is refused with ValueError before any call; otherwise the client is called with the converted contents, and its text, `None` included, is returned as it is |
| Gemini.DatedFlashListing | app/services/providers/gemini_provider.py:60-103 | a live listing of one dated flash model yields just its id |
| Gemini.DefaultCanBeUnavailable | app/services/providers/gemini_provider.py:163-195 | with such a listing, a request without a model is refused and nothing is sent |
| Gemini.StreamTextsAppend | app/services/providers/gemini_provider.py:267-271 | the texts of concatenated items are the concatenated texts |
| Gemini.StreamTextsSingle | app/services/providers/gemini_provider.py:267-271 | an item with non-empty text and a bare string each yield themselves; any other item yields nothing |
| Gemini.CollectTexts | app/services/providers/gemini_provider.py:267-271 | the loop yields exactly the texts of the items |
| Gemini.StreamAndGenerateCheckAlike | app/services/providers/gemini_provider.py:222-274 | streaming and generating make the same model check and the same call, and leave the same cache |
| Gemini.GeminiProvider.constructor | app/services/providers/gemini_provider.py:53-56 | the provider keeps the key, the fixed default model and an empty cache |
| Gemini.GeminiProvider.GetAvailableModels | app/services/providers/gemini_provider.py:60-103 | the returned list and the new cache are those of the listing function on the old cache |
| Gemini.GeminiProvider.GetDefaultModel | app/services/providers/gemini_provider.py:163-170 | the default is the fixed default model, whatever is cached |
| Gemini.GeminiProvider.GenerateResponseWithMessages | app/services/providers/gemini_provider.py:172-220 | the result (a text or `None`), the call and the new cache are those of the generation function on the old cache |
| Gemini.GeminiProvider.StreamResponseWithMessages | app/services/providers/gemini_provider.py:222-274 | the texts, the failure, the call and the new cache are those of the streaming function on the old cache |
| Gemini.NewGeminiProvider | app/services/providers/gemini_provider.py:36-58 | construction succeeds exactly when the guards pass, raises their error otherwise, and yields a fresh provider with an empty cache |
| Config.GetEnvOr | app/config.py:21-24 | a set variable wins even when empty; an unset one gives the default |
| Config.FlagMeaning | app/config.py:16-19 | a flag is on exactly when its value, lower-cased, is true, 1, yes or on; an empty value is off |
| Config.FlagIgnoresCase | app/config.py:16-19 | values differing only in case set a flag alike |
| Config.ParseIntToString | app/config.py:56 | the port parser reads back the decimal text of any integer |
| Config.ParseIntRejectsBlank | app/config.py:56 | a blank port text raises ValueError |
| Config.PortPrecedence | app/config.py:56 | a non-empty PORT wins, then FLASK_PORT, then 8081 |
| Config.DefaultPortValue | app/config.py:56 | the default port text parses to 8081 |
| Config.Load | app/config.py:16-60 | settings load exactly when the port parses; the port is the parsed value, the two switches are their flags, and every other field is its environment variable or, where the source gives one, its default |
| Config.UnsetEnvironmentDefaults | app/config.py:16-60 | with none of its variables set, security is on, anonymous access off, the port 8081 and the provider ollama |
| Config.Validate | app/config.py:63-78 | validation raises ValueError exactly when the service is on without an application id, or off without a hardcoded key |
| Config.GeminiKeyNotRequired | app/config.py:66-67 | a missing Gemini key never makes validation fail |
| Registry.RegisteredNames | app/services/ai_service.py:19-44 | each provider is registered exactly when its constructor succeeded, Ollama first |
| Registry.RegisteredNamesLowerCase | app/services/ai_service.py:19-44 | every registered name is lower case |
| Registry.FailuresAreIndependent | app/services/ai_service.py:24-44 | one provider failing does not keep the other out |
| Registry.AIService.constructor | app/services/ai_service.py:14-44 | the registry holds exactly the providers whose construction succeeded, in order |
| Registry.AIService.GetProvider | app/services/ai_service.py:46-72 | lookup of the lower-cased name or default succeeds exactly when it is registered; otherwise ValueError lists the registered names |
| Registry.AIService.AvailableIffFound | app/services/ai_service.py:83-93 | a name is available exactly when lookup succeeds and its lower case is listed |
| Registry.AIService.LookupIgnoresCase | app/services/ai_service.py:63 | names that lower-case alike find the same provider |
| Registry.AIService.DefaultLookup | app/services/ai_service.py:60 | no name means the configured default |
| Registry.AIService.ListedNamesResolve | app/services/ai_service.py:74-81 | every listed provider name can be looked up |
| ChatRoutes.Prepare | app/api/routes/chat.py:49-59 | a request is accepted exactly when the body is an object, the constraints hold, the provider exists and messages can be taken; the messages are the request's; a field of the wrong type raises a ValueError |
| ChatRoutes.StopReply | app/api/routes/chat.py:79-82 | a missing body or ValueError answers 400; any other exception answers 500 |
| ChatRoutes.ChatStatus | app/api/routes/chat.py:17-82 | the chat route answers 200 exactly when the request is accepted and generation returns a text, with the model used and the provider name; a `None` text fails the response record's validation and answers 400 |
| ChatRoutes.MalformedBodyIs400 | app/api/routes/chat.py:53 | a body with a field of the wrong type answers 400 with the validation text on both routes |
| ChatRoutes.UnknownProviderIs400 | app/api/routes/chat.py:53-56 | a request naming an unregistered provider answers 400 with the registry's message |
| ChatRoutes.ChunkEvents | app/api/routes/chat.py:142-150 | one chunk event per text, in order |
| ChatRoutes.GenerateEvents | app/api/routes/chat.py:130-163 | the generator emits exactly the translation of the provider stream |
| ChatRoutes.ContentsOfChunks | app/api/routes/chat.py:142-150 | the chunk events carry exactly the provider's texts |
| ChatRoutes.TranslateMeaning | app/api/routes/chat.py:130-163 | the event stream is metadata, chunks, then one done or error event; it relays exactly the provider's texts and ends in error exactly when the provider failed |
| ChatRoutes.StreamStatus | app/api/routes/chat.py:87-178 | the streaming route answers like the chat route before generating, and 200 with the event stream once accepted |
| ChatRoutes.FramesReadBack | app/api/routes/chat.py:130-163 | each event is written as `data: `, its JSON and a blank line, so a client splitting at blank lines gets back every JSON text, in order |
| ChatRoutes.StreamBodyReadsBack | app/api/routes/chat.py:130-163 | the streaming body reads back as one JSON text per event, in order |
| ChatRoutes.Anonymous | app/api/routes/chat.py:192-196 | with anonymous access off the answer is 403, otherwise the route's own answer |
| ChatRoutes.AnonymousGate | app/api/routes/chat.py:185-293 | the anonymous chat routes are the authenticated ones behind the 403 gate |
| ModelsRoutes.ParseRefreshMeaning | app/api/routes/models.py:49 | only a case variant of "true" asks for a refresh |
| ModelsRoutes.EntriesMeaning | app/api/routes/models.py:79-115 | corrected reading: one entry per provider, in order; a failing provider gets an error entry with no models and no default |
| ModelsRoutes.CollectEntries | app/api/routes/models.py:85-112 | corrected reading: the loop builds exactly the entries, an error entry for each failing provider |
| ModelsRoutes.EntriesAsWrittenLosesListing | app/api/routes/models.py:101-112 | as written, one failing provider makes the whole listing raise; without failures it equals the corrected entries |
| ModelsRoutes.SingleProviderMeaning | app/api/routes/models.py:52-121 | a filtered listing answers 404 exactly when the provider is unavailable, 500 exactly when its listing raises, and otherwise 200 with its models and default |
| ModelsRoutes.GetModelsMeaning | app/api/routes/models.py:48-121 | as written: a named provider is lower-cased and answered alone; without a filter, one failing provider makes the whole reply 500, and otherwise the reply is 200 with one entry per provider, in order |
| ModelsRoutes.GetModelsIntendedMeaning | app/api/routes/models.py:78-115 | corrected reading: without a filter the reply is always 200, with one entry per provider, in order, and no default exactly for the failing ones |
| ModelsRoutes.ReadingsAgreeWithoutFailures | app/api/routes/models.py:48-121 | the route as written and the corrected route answer alike exactly when a provider is named or no provider fails |
| ModelsRoutes.GetModelsAnonymous | app/api/routes/models.py:127-139 | with anonymous access off the answer is 403, otherwise the listing route's answer |
| HealthRoutes.StatusMapMeaning | app/api/routes/health.py:53-67 | exactly the registered providers have a status, each from its own probe |
| HealthRoutes.CheckProviders | app/api/routes/health.py:53-67 | the loop builds exactly the status map |
| HealthRoutes.DetailedHealthMeaning | app/api/routes/health.py:29-82 | the reply is always 200, with one status per provider, healthy exactly when every provider is available |
| SecurityClient.NewClient | app/services/security_client.py:22-27 | an empty or missing URL or application id defers to the configuration |
| SecurityClient.UnexpectedStatus | app/services/security_client.py:123-131 | an unexpected status is always a rejection |
| SecurityClient.Raise | app/services/security_client.py:111-154 | a 200 body is returned; rejections and network errors raise their messages |
| SecurityClient.BearerRemoved | app/services/security_client.py:295-299 | a leading "Bearer " disappears with the other occurrences |
| SecurityClient.CleanTokenOfPlain | app/services/security_client.py:295-299 | a clean token is its own cleaned form, with or without a "Bearer " in front |
| SecurityClient.IsApiKeyBearerBlind | app/services/security_client.py:285-299 | no empty token is an API key, and "Bearer " in front of a token changes nothing |
| SecurityClient.IsApiKeyOfPlain | app/services/security_client.py:295-299 | a clean token is an API key exactly when it starts with `sk_live_` or `sk_test_` |
| SecurityClient.ValidateHardcoded | app/services/security_client.py:33-57 | the key is accepted exactly when a hardcoded key is configured and equal; a missing configuration is reported first |
| SecurityClient.StripBearerOnce | app/services/security_client.py:87-88 | only one leading "Bearer " is removed |
| SecurityClient.ValidateToken | app/services/security_client.py:59-154 | with the service off, tokens are refused without a request; otherwise the bare token is posted and the reply decides |
| SecurityClient.TokenStatuses | app/services/security_client.py:111-131 | 200 returns the body, 401 and 403 raise the body's message or a fixed one, and other statuses raise |
| SecurityClient.TokenNetworkFailuresRaise | app/services/security_client.py:133-154 | timeouts and connection failures raise fixed messages, whatever hardcoded key is set |
| SecurityClient.QuickCheck | app/services/security_client.py:156-199 | the bare token is always posted to the check endpoint |
| SecurityClient.QuickCheckStatuses | app/services/security_client.py:184-199 | 401 and 403 raise fixed messages, and every network failure is a generic failure |
| SecurityClient.ValidateApiKey | app/services/security_client.py:201-283 | with the service off, only the hardcoded check; otherwise the key is posted to the service, a reply is decided by the service alone, and a network failure admits exactly the hardcoded key and otherwise reports the failure |
| SecurityClient.ApiKeyFallback | app/services/security_client.py:264-283 | after a network failure the key is accepted exactly when it equals a configured hardcoded key; otherwise the failure is raised |
| SecurityClient.ApiKeyRepliesNeverFallBack | app/services/security_client.py:247-262 | a reply from the service decides alone, whatever hardcoded key is set |
| SecurityClient.UndecodableSuccessFallsBack | app/services/security_client.py:247-248 | an undecodable 200 reply counts as a network failure, so the hardcoded key is accepted |
| Middleware.Conclude | app/api/middleware.py:57-70 | a returned body admits the request with that body, the user id taken from `key_id` for a key and `user_id` for a token; a security error gives 401 "Authentication failed" with its message, and any other exception 500 "Authentication error" with "Unexpected error: " before its message |
| Middleware.RequireAuth | app/api/middleware.py:13-127 | a key path calls the key validator, a token path the token validator, and a missing credential answers 401 |
| Middleware.OptionalAgreesWithRequired | app/api/middleware.py:130-187 | optional auth stores an identity exactly when required auth admits, and the same identity |
| Middleware.ApiKeyHeaderWins | app/api/middleware.py:26-38 | a non-empty X-API-Key header wins over the Authorization header |
| Middleware.AuthorizationAsApiKey | app/api/middleware.py:30-35 | without X-API-Key, the cleaned Authorization header is a key exactly when non-empty and the service is off or it looks like a key |
| Middleware.TokenPathPassesRawHeader | app/api/middleware.py:86-125 | the token path is taken only with the service on, and passes the raw header |
| Middleware.MissingCredentialCallsNoValidator | app/api/middleware.py:73-83 | a missing credential answers 401 whatever the validators would say |
| Middleware.RequireAuthStatuses | app/api/middleware.py:13-127 | required auth answers only 401 or 500, and 500 exactly when the validator raised something other than a security error |
| Middleware.ServiceErrorsAre401 | app/api/middleware.py:57-125 | with validators that raise only `SecurityServiceError`, every refusal is 401 |
| Middleware.ClientChecksRaiseServiceErrors | app/services/security_client.py:59-283 | the security client's validators raise nothing but `SecurityServiceError` |
| Middleware.ClientRefusalsAre401 | app/api/middleware.py:57-125 | with the security client as validator every refusal is 401 |
| Middleware.StandaloneBearerHardcodedKey | app/api/middleware.py:30-70 | in standalone mode, `Bearer <hardcoded key>` is admitted as the hardcoded key |
| Middleware.UnreachableServiceRefusesTokens | app/api/middleware.py:86-125 | with the service unreachable, a bearer token is refused with 401 |
| App.GetConfig | app/main.py:88-105 | the browser gets the chosen security URL, the application id and version 2.2.0 |
| App.BrowserSecurityUrlChoice | app/main.py:92-99 | a configured frontend URL is used verbatim; otherwise every `security-service` becomes `localhost` |
| App.ContainerHostRewritten | app/main.py:92-99 | a URL made of a scheme that cannot overlap the host, one `security-service` host and a rest without it becomes the same URL on `localhost` |
| App.UsualSchemesQualify | app/main.py:92-99 | `http://` and `https://` are such schemes |
| App.CatchAllAgreesWithNotFound | app/main.py:35-56 | the catch-all route and the 404 handler answer JSON exactly for paths under `/api/` |

## Left out

- HTTP, the Ollama server, the Gemini SDK, the security service and the process environment are parameters. Each is a datatype of the outcomes the source distinguishes. Logging and printing are left out.
- Timeouts of the outgoing requests are not modelled. A request that times out is one of the outcomes.
- `ConnectTimeout`, which `requests` makes both a timeout and a connection error, is modelled as a timeout.
- Case folding is ASCII only. Python's `str.lower` also folds non-ASCII letters; every constant compared here is ASCII.
- `int()` accepts underscores and non-ASCII digits; the port parser accepts only ASCII digits with an optional sign.
- `repr` escaping is not modelled in two messages that print a list of names. The registry's error message lists provider names, and the registered names need none. Gemini's "Model … is not available" message (`Gemini.Unavailable`) lists model names. A Gemini model name with a quote or a backslash would be printed differently by the source.
- Pydantic's multi-line validation reports are a fixed message. Only their exception class is modelled.
- JSON `null` values in request bodies are treated as absent fields.
- A JSON `null` in an Ollama chat reply's `message` field, or in the `error` field of a rejection, is read here as a missing field. The source instead raises an `AttributeError` from `.get` or `.lower` on `None`, and that error escapes the provider with its own text. (A `null` `content` is modelled; see `Ollama.ContentText`.)
- SecurityClient.Complaint: a security reply whose `message` is JSON `null` is treated as one without the field, so the fixed message is raised. The source would raise the text `None`.
- Ollama.SearchFrom, Ollama.RunEnd and Ollama.EstimateReadFromName: model names are taken as ASCII. The source's `\d` is a `str` pattern and also matches other Unicode decimal digits, which `int()` converts; such a name, for example `phi:` followed by an Arabic-Indic one and `b`, is estimated at 50 here.
- Config.ParseInt: the error text quotes the rejected setting between single quotes. Python's `repr` would also escape quotes, backslashes and control characters in it.
- `json.dumps` is a parameter of the streaming body. Only its one-line output is assumed, which its default settings give.
- Replies of the security service that decode to JSON other than an object are left out.
- A JSON decoding failure of a 200 security reply is treated as a `requests` exception, as current `requests` versions raise it. With older versions it escapes as a `ValueError`, which the middleware answers with 500.
- The `path`, `method` and `application_id` fields of the security validation requests are not modelled; only the endpoint and the credential are.
- The Ollama constructor cannot fail in this model; the source's constructor does no I/O.
- The TypeError fallback of the single-provider model listing (app/api/routes/models.py:63-67) is not modelled.
- The `get_default_model` calls the routes make are parameters (the default model), not calls into the provider objects. So the routes do not model the cache updates those calls cause.
- The trivial `/health` route, and the dispatch between two routes registered on one path, are not modelled.
- In app/main.py, the debug security route, static asset routes, `api_info` and the 400/500 error handlers are not modelled; they only serve files or fixed JSON.
- `Middleware.OptionalAuth` carries no contract of its own. Its meaning is stated against `require_auth` by `Middleware.OptionalAgreesWithRequired`.

## Findings

| source | as written | input that shows it | evidently intended | confidence | as-written member | corrected member |
|---|---|---|---|---|---|---|
| app/api/routes/models.py:101-112 | a provider whose listing raises gets an entry built with `default=None`, but the response record declares `default: str` (app/models/responses.py:22-26), so building the entry raises and the outer handler answers 500 for the whole listing | two registered providers, the second of which raises while listing its models. Both providers catch their own listing errors and `get_default_model` cannot raise, so with the shipped providers this branch is reached only by an exception outside their handlers, such as an output error from a `print` in a provider's own exception handler (for example an encoding error printing `✗` to a console that is not UTF-8) | the failing provider gets an error entry and the other providers are still listed | not executed | ModelsRoutes.EntriesAsWrittenLosesListing | ModelsRoutes.EntriesMeaning |
