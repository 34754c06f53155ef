/** The chat endpoints (app/api/routes/chat.py). The non-streaming route maps what happens
    while serving a request to a status: a missing body or any `ValueError` is a 400, any
    other exception a 500, success a 200 with the reply. The streaming route makes the
    same checks up front and then answers 200 with an event stream: one `metadata` event,
    one `chunk` per text the provider yields, and then exactly one of `done` or `error`.
    Providers are reached through the registry; what a provider's generation produces is
    a parameter. */
module ChatRoutes {
  import opened Wrappers
  import opened Strings
  import opened ProviderBase
  import opened ChatRequests
  import Registry

  /** The JSON body of the request as Flask hands it over: unreadable or not an object
      (`ChatRequest(**data)` then raises something other than a `ValueError`), an object
      with a field of the wrong type (the model's validation error, a `ValueError` with
      the given text), empty or missing, or an object, given by the fields it sets. */
  datatype RequestBody = Unusable(message: string) | Malformed(message: string) | Empty
                       | Object(request: ChatRequest)

  /** The events of the streaming reply. */
  datatype Event =
    | Metadata(model: string, provider: string)
    | Chunk(content: string)
    | Done
    | Error(message: string)

  datatype ChatReply = ChatReply(response: string, model: string, provider: string)

  datatype ReplyBody =
    | ChatOk(reply: ChatReply)
    | Failure(error: string, message: Option<string>)
    | EventStream(events: seq<Event>)

  datatype Reply = Reply(status: int, body: ReplyBody)

  /** Why serving stopped before the provider was asked to generate. */
  datatype Stop = NoBody | Raised(e: Exc)

  /** Everything the route has in hand once the request is accepted. */
  datatype Prepared = Prepared(request: ChatRequest, provider: Registry.Provider,
                               messages: seq<WireMessage>)

  function ProviderName(p: Registry.Provider): string {
    match p
    case OllamaEntry(o) => o.name
    case GeminiEntry(g) => g.name
  }

  /** The steps both routes take before generating: the body, the request constraints,
      the provider lookup, and `get_messages`. */
  function Prepare(svc: Registry.AIService, defaultProvider: string, body: RequestBody)
    : (r: Result<Prepared, Stop>)
    requires svc.Valid()
    ensures r.Ok? <==>
      && body.Object?
      && FieldsValid(body.request)
      && svc.GetProvider(body.request.provider, defaultProvider).Ok?
      && GetMessages(body.request).Ok?
    ensures r.Ok? ==> r.value.messages == GetMessages(body.request).value
    ensures r.Err? && r.error.Raised? && r.error.e.OtherError? ==> body.Unusable?
    ensures body.Malformed? ==> r.Err? && r.error == Raised(ValueError(body.message))
  {
    match body
    case Unusable(m) => Err(Raised(OtherError(m)))
    case Malformed(m) => Err(Raised(ValueError(m)))
    case Empty => Err(NoBody)
    case Object(req) =>
      match Construct(req)
      case Err(e) => Err(Raised(e))
      case Ok(r) =>
        match svc.GetProvider(r.provider, defaultProvider)
        case Err(e) => Err(Raised(e))
        case Ok(p) =>
          match GetMessages(r)
          case Err(e) => Err(Raised(e))
          case Ok(ms) => Ok(Prepared(r, p, ms))
  }

  const BodyRequired: string := "Request body is required"
  const InvalidRequest: string := "Invalid request"
  const GenerationFailed: string := "Generation failed"
  const StreamingFailed: string := "Streaming failed"

  /** The `except` clauses: `ValueError` is the client's fault, anything else the
      server's. */
  function StopReply(s: Stop, failedTitle: string): (r: Reply)
    ensures r.status == 400 <==> s.NoBody? || s.e.ValueError?
    ensures r.status == 500 <==> s.Raised? && s.e.OtherError?
  {
    match s
    case NoBody => Reply(400, Failure(BodyRequired, None))
    case Raised(ValueError(m)) => Reply(400, Failure(InvalidRequest, Some(m)))
    case Raised(OtherError(m)) => Reply(500, Failure(failedTitle, Some(m)))
  }

  /** The fixed text stands for pydantic's report when `ChatResponse` is built with a
      `response` that is not a string; its class, `ValidationError`, is a `ValueError`. */
  const ResponseValidationMessage: string := "validation error for ChatResponse"

  /** `chat_request.model or provider.get_default_model()`. */
  function UsedModel(r: ChatRequest, defaultModel: string): string {
    if Truthy(r.model) then r.model.value else defaultModel
  }

  /** `chat()`. `defaultModel` is what the provider's `get_default_model` returns and
      `generate` is its `generate_response_with_messages`. */
  function Chat(svc: Registry.AIService, defaultProvider: string, body: RequestBody,
                defaultModel: string,
                generate: (seq<WireMessage>, Option<string>) -> Result<Option<string>, Exc>): Reply
    requires svc.Valid()
  {
    match Prepare(svc, defaultProvider, body)
    case Err(s) => StopReply(s, GenerationFailed)
    case Ok(p) =>
      match GenerateResponse(None, Some(p.messages), p.request.model, generate)
      case Err(e) => StopReply(Raised(e), GenerationFailed)
      case Ok(None) => StopReply(Raised(ValueError(ResponseValidationMessage)), GenerationFailed)
      case Ok(Some(text)) =>
        Reply(200, ChatOk(ChatReply(text, UsedModel(p.request, defaultModel), ProviderName(p.provider))))
  }

  /** The status mapping of `chat()`: 200 exactly when the request is accepted and the
      provider answers with a text, with that text; 500 exactly for an unusable body or a
      provider failure other than a `ValueError`; 400 otherwise, a reply without text
      included, since the response record then fails its validation. */
  lemma {:induction false} ChatStatus(svc: Registry.AIService, defaultProvider: string, body: RequestBody,
                   defaultModel: string,
                   generate: (seq<WireMessage>, Option<string>) -> Result<Option<string>, Exc>)
    requires svc.Valid()
    ensures var reply := Chat(svc, defaultProvider, body, defaultModel, generate);
      var prep := Prepare(svc, defaultProvider, body);
      && (reply.status == 200 || reply.status == 400 || reply.status == 500)
      && (reply.status == 200 <==>
            prep.Ok? && generate(prep.value.messages, prep.value.request.model).Ok?
            && generate(prep.value.messages, prep.value.request.model).value.Some?)
      && (prep.Ok? && generate(prep.value.messages, prep.value.request.model) == Ok(None) ==>
            reply == Reply(400, Failure(InvalidRequest, Some(ResponseValidationMessage))))
      && (reply.status == 500 <==>
            body.Unusable?
            || (prep.Ok? && generate(prep.value.messages, prep.value.request.model).Err?
                && generate(prep.value.messages, prep.value.request.model).error.OtherError?))
      && (reply.status == 200 ==>
            reply.body == ChatOk(ChatReply(
              generate(prep.value.messages, prep.value.request.model).value.value,
              UsedModel(prep.value.request, defaultModel),
              ProviderName(prep.value.provider))))
  {
  }

  /** A request naming an unregistered provider is refused with 400 and the registry's
      message, before any generation. */
  lemma {:induction false} UnknownProviderIs400(svc: Registry.AIService, defaultProvider: string, r: ChatRequest,
                             defaultModel: string,
                             generate: (seq<WireMessage>, Option<string>) -> Result<Option<string>, Exc>)
    requires svc.Valid()
    requires FieldsValid(r)
    requires svc.GetProvider(r.provider, defaultProvider).Err?
    ensures Chat(svc, defaultProvider, Object(r), defaultModel, generate)
         == Reply(400, Failure(InvalidRequest, Some(svc.GetProvider(r.provider, defaultProvider).error.message)))
  {
  }

  /** A field of the wrong type is the client's fault on both routes: 400 with the
      validation error's text, before any provider is looked up. */
  lemma {:induction false} MalformedBodyIs400(svc: Registry.AIService, defaultProvider: string, message: string,
                           defaultModel: string,
                           generate: (seq<WireMessage>, Option<string>) -> Result<Option<string>, Exc>,
                           stream: (seq<WireMessage>, Option<string>) -> ChunkStream)
    requires svc.Valid()
    ensures Chat(svc, defaultProvider, Malformed(message), defaultModel, generate)
         == Reply(400, Failure(InvalidRequest, Some(message)))
    ensures ChatStream(svc, defaultProvider, Malformed(message), defaultModel, stream)
         == Reply(400, Failure(InvalidRequest, Some(message)))
  {
  }

  // ---------------------------------------------------------------------------
  // Streaming

  /** One `chunk` event per text. */
  function ChunkEvents(chunks: seq<string>): (es: seq<Event>)
    ensures |es| == |chunks|
    ensures forall i :: 0 <= i < |chunks| ==> es[i] == Chunk(chunks[i])
  {
    if chunks == [] then [] else ChunkEvents(chunks[..|chunks| - 1]) + [Chunk(chunks[|chunks| - 1])]
  }

  /** The event sequence of `generate()`, drained, for a provider stream `s`. */
  function Translate(model: string, provider: string, s: ChunkStream): seq<Event> {
    [Metadata(model, provider)] + ChunkEvents(s.chunks) + [Terminal(s.failure)]
  }

  /** The inner `generate()` of `chat_stream`: metadata first, then one event per
      item, then the completion or the error. */
  method GenerateEvents(model: string, provider: string, s: ChunkStream) returns (events: seq<Event>)
    ensures events == Translate(model, provider, s)
  {
    events := [Metadata(model, provider)];
    var i := 0;
    while i < |s.chunks|
      invariant 0 <= i <= |s.chunks|
      invariant events == [Metadata(model, provider)] + ChunkEvents(s.chunks[..i])
    {
      assert s.chunks[..i + 1][..i] == s.chunks[..i];
      events := events + [Chunk(s.chunks[i])];
      i := i + 1;
    }
    assert s.chunks[..i] == s.chunks;
    if s.failure.Some? {
      events := events + [Error(s.failure.value.message)];
    } else {
      events := events + [Done];
    }
  }

  /** The shape every event stream has: `metadata`, then `chunk` events, then one
      terminal event. */
  predicate WellFormed(events: seq<Event>) {
    && |events| >= 2
    && events[0].Metadata?
    && (events[|events| - 1].Done? || events[|events| - 1].Error?)
    && forall i :: 0 < i < |events| - 1 ==> events[i].Chunk?
  }

  /** The texts carried by the `chunk` events. */
  function Contents(events: seq<Event>): seq<string> {
    if events == [] then []
    else Contents(events[..|events| - 1])
         + (if events[|events| - 1].Chunk? then [events[|events| - 1].content] else [])
  }

  lemma {:induction false} ContentsOfChunks(chunks: seq<string>)
    ensures Contents(ChunkEvents(chunks)) == chunks
  {
    if chunks != [] {
      var init := chunks[..|chunks| - 1];
      ContentsOfChunks(init);
      assert ChunkEvents(chunks)[..|chunks| - 1] == ChunkEvents(init);
      assert chunks == init + [chunks[|chunks| - 1]];
    }
  }

  lemma {:induction false} ContentsAppend(a: seq<Event>, b: seq<Event>)
    ensures Contents(a + b) == Contents(a) + Contents(b)
    decreases |b|
  {
    if b == [] {
      assert a + b == a;
    } else {
      assert (a + b)[..|a + b| - 1] == a + b[..|b| - 1];
      ContentsAppend(a, b[..|b| - 1]);
    }
  }

  /** The terminal event for how the provider stream ended. */
  function Terminal(failure: Option<Exc>): Event {
    match failure case None => Done case Some(e) => Error(e.message)
  }

  lemma {:induction false} FramedIsWellFormed(m: Event, cs: seq<Event>, t: Event)
    requires m.Metadata? && (t.Done? || t.Error?)
    requires forall i :: 0 <= i < |cs| ==> cs[i].Chunk?
    ensures WellFormed([m] + cs + [t])
    ensures forall i :: 0 <= i < |cs| + 1 ==> !([m] + cs + [t])[i].Done? && !([m] + cs + [t])[i].Error?
  {
    var es := [m] + cs + [t];
    forall i | 0 < i < |es| - 1 ensures es[i].Chunk? {
      assert es[i] == cs[i - 1];
    }
  }

  lemma {:induction false} FramedContents(m: Event, cs: seq<Event>, t: Event)
    requires !m.Chunk? && !t.Chunk?
    ensures Contents([m] + cs + [t]) == Contents(cs)
  {
    ContentsAppend([m], cs);
    ContentsAppend([m] + cs, [t]);
    assert [m][..0] == [];
    assert [t][..0] == [];
  }

  /** The translation is well formed; it relays exactly the provider's texts, in order;
      it ends in `done` exactly when the provider stream ended normally, and otherwise in
      one `error` carrying the exception's message, never both. */
  lemma {:induction false} TranslateMeaning(model: string, provider: string, s: ChunkStream)
    ensures var es := Translate(model, provider, s);
      && WellFormed(es)
      && es[0] == Metadata(model, provider)
      && Contents(es) == s.chunks
      && (es[|es| - 1] == Done <==> s.failure.None?)
      && (s.failure.Some? ==> es[|es| - 1] == Error(s.failure.value.message))
      && (forall i :: 0 <= i < |es| - 1 ==> !es[i].Done? && !es[i].Error?)
  {
    var m := Metadata(model, provider);
    var cs := ChunkEvents(s.chunks);
    var t := Terminal(s.failure);
    FramedIsWellFormed(m, cs, t);
    FramedContents(m, cs, t);
    ContentsOfChunks(s.chunks);
  }

  /** `chat_stream()`: the same checks as `chat()`, answered the same way, then a 200
      whose body is the event stream. `stream` is the provider's
      `stream_response_with_messages`, drained. */
  function ChatStream(svc: Registry.AIService, defaultProvider: string, body: RequestBody,
                      defaultModel: string,
                      stream: (seq<WireMessage>, Option<string>) -> ChunkStream): Reply
    requires svc.Valid()
  {
    match Prepare(svc, defaultProvider, body)
    case Err(s) => StopReply(s, StreamingFailed)
    case Ok(p) =>
      var s := StreamResponse(None, Some(p.messages), p.request.model, stream);
      Reply(200, EventStream(Translate(UsedModel(p.request, defaultModel), ProviderName(p.provider), s)))
  }

  /** Once the request is accepted, the streaming route always answers 200: provider
      failures, `ValueError`s included, arrive as the final `error` event, after any
      texts already relayed. Before that, it refuses exactly as `chat()` does. */
  lemma {:induction false} StreamStatus(svc: Registry.AIService, defaultProvider: string, body: RequestBody,
                     defaultModel: string,
                     generate: (seq<WireMessage>, Option<string>) -> Result<Option<string>, Exc>,
                     stream: (seq<WireMessage>, Option<string>) -> ChunkStream)
    requires svc.Valid()
    ensures var reply := ChatStream(svc, defaultProvider, body, defaultModel, stream);
      var prep := Prepare(svc, defaultProvider, body);
      && (prep.Ok? <==> reply.status == 200)
      && (prep.Err? ==> reply.status == Chat(svc, defaultProvider, body, defaultModel, generate).status)
      && (prep.Ok? ==>
            var s := stream(prep.value.messages, prep.value.request.model);
            && reply.body.EventStream?
            && WellFormed(reply.body.events)
            && Contents(reply.body.events) == s.chunks
            && reply.body.events[0] == Metadata(UsedModel(prep.value.request, defaultModel),
                                                ProviderName(prep.value.provider)))
  {
    var prep := Prepare(svc, defaultProvider, body);
    if prep.Ok? {
      var p := prep.value;
      TranslateMeaning(UsedModel(p.request, defaultModel), ProviderName(p.provider),
                       stream(p.messages, p.request.model));
    }
  }

  // ---------------------------------------------------------------------------
  // The event stream on the wire

  const FramePrefix: string := "data: "
  const FrameEnd: string := "\n\n"

  /** One server-sent event as written: `data: `, the event's JSON text, a blank line. */
  function Frame(json: string): string {
    FramePrefix + json + FrameEnd
  }

  /** The frames of `jsons`, one after the other. */
  function FrameAll(jsons: seq<string>): string {
    if jsons == [] then "" else Frame(jsons[0]) + FrameAll(jsons[1..])
  }

  /** The body of the streaming reply, where `dumps` gives the JSON text of an event. */
  function StreamBody(events: seq<Event>, dumps: Event -> string): string {
    FrameAll(seq(|events|, i requires 0 <= i < |events| => dumps(events[i])))
  }

  /** Where the first blank line (two newlines) at or after `from` starts, or `|s|`. */
  function FindBlank(s: string, from: nat): (i: nat)
    requires from <= |s|
    ensures from <= i <= |s|
    ensures i < |s| ==> i + 1 < |s| && s[i] == '\n' && s[i + 1] == '\n'
    ensures forall k :: from <= k < i && k + 1 < |s| ==> !(s[k] == '\n' && s[k + 1] == '\n')
    decreases |s| - from
  {
    if from + 1 >= |s| then |s|
    else if s[from] == '\n' && s[from + 1] == '\n' then from
    else FindBlank(s, from + 1)
  }

  /** How a client reads the stream: each frame starts with `data: ` and its text runs
      up to the first blank line; `None` when the body is not a sequence of frames. */
  function ReadFrames(s: string): Option<seq<string>>
    decreases |s|
  {
    if s == [] then Some([])
    else if |s| < |FramePrefix| || s[..|FramePrefix|] != FramePrefix then None
    else
      var i := FindBlank(s, |FramePrefix|);
      if i == |s| then None
      else
        match ReadFrames(s[i + 2..])
        case None => None
        case Some(rest) => Some([s[|FramePrefix|..i]] + rest)
  }

  /** A JSON text as `json.dumps` writes it by default: on one line. */
  predicate OneLine(json: string) {
    forall k :: 0 <= k < |json| ==> json[k] != '\n'
  }

  /** The first blank line of a frame, whatever follows it, is the frame's own end. */
  lemma {:induction false} FrameEndsAtBlank(j: string, rest: string)
    requires OneLine(j)
    ensures FindBlank(Frame(j) + rest, |FramePrefix|) == |FramePrefix| + |j|
  {
    var s := Frame(j) + rest;
    var n := |FramePrefix| + |j|;
    assert forall k :: |FramePrefix| <= k < n ==> s[k] == j[k - |FramePrefix|];
    assert s[n] == '\n' && s[n + 1] == '\n';
  }

  /** Reading a frame followed by more: the frame's text, then what the rest reads as. */
  lemma {:induction false} ReadFrameStep(j: string, rest: string)
    requires OneLine(j)
    ensures ReadFrames(Frame(j) + rest) ==
      match ReadFrames(rest) case None => None case Some(r) => Some([j] + r)
  {
    var s := Frame(j) + rest;
    var n := |FramePrefix| + |j|;
    FrameEndsAtBlank(j, rest);
    assert s[..|FramePrefix|] == FramePrefix;
    assert s[|FramePrefix|..n] == j;
    assert s[n + 2..] == rest;
  }

  /** A client reading the stream recovers every frame's text, in order, as long as
      each text is on one line. */
  lemma {:induction false} FramesReadBack(jsons: seq<string>)
    requires forall j :: 0 <= j < |jsons| ==> OneLine(jsons[j])
    ensures ReadFrames(FrameAll(jsons)) == Some(jsons)
    decreases |jsons|
  {
    if jsons != [] {
      FramesReadBack(jsons[1..]);
      ReadFrameStep(jsons[0], FrameAll(jsons[1..]));
      assert [jsons[0]] + jsons[1..] == jsons;
    }
  }

  /** The streaming reply's body reads back as the events' JSON texts, one per event,
      in order: the `metadata` event first, the `chunk`s, then `done` or `error`. */
  lemma {:induction false} StreamBodyReadsBack(events: seq<Event>, dumps: Event -> string)
    requires forall e :: OneLine(dumps(e))
    ensures var r := ReadFrames(StreamBody(events, dumps));
      r.Some? && |r.value| == |events| && forall i :: 0 <= i < |events| ==> r.value[i] == dumps(events[i])
  {
    var jsons := seq(|events|, i requires 0 <= i < |events| => dumps(events[i]));
    FramesReadBack(jsons);
  }

  // ---------------------------------------------------------------------------
  // Anonymous variants

  const AnonymousDisabled: string := "Anonymous access disabled"

  /** `chat_anonymous()` / `chat_stream_anonymous()`: 403 when anonymous access is
      off, otherwise the authenticated route's reply. */
  function Anonymous(enabled: bool, route: Reply, hint: string): (r: Reply)
    ensures !enabled ==> r.status == 403
    ensures enabled ==> r == route
  {
    if !enabled then Reply(403, Failure(AnonymousDisabled, Some(hint))) else route
  }

  const ChatHint: string :=
    "This endpoint is not available. Use /api/v1/chat with authentication."
  const StreamHint: string :=
    "This endpoint is not available. Use /api/v1/chat/stream with authentication."

  function ChatAnonymous(enabled: bool, svc: Registry.AIService, defaultProvider: string,
                         body: RequestBody, defaultModel: string,
                         generate: (seq<WireMessage>, Option<string>) -> Result<Option<string>, Exc>): Reply
    requires svc.Valid()
  {
    Anonymous(enabled, Chat(svc, defaultProvider, body, defaultModel, generate), ChatHint)
  }

  function ChatStreamAnonymous(enabled: bool, svc: Registry.AIService, defaultProvider: string,
                               body: RequestBody, defaultModel: string,
                               stream: (seq<WireMessage>, Option<string>) -> ChunkStream): Reply
    requires svc.Valid()
  {
    Anonymous(enabled, ChatStream(svc, defaultProvider, body, defaultModel, stream), StreamHint)
  }

  /** The gate is the only difference: the anonymous routes answer 403 whatever the
      request when access is off, and exactly like the authenticated routes when on. */
  lemma {:induction false} AnonymousGate(enabled: bool, svc: Registry.AIService, defaultProvider: string,
                      body: RequestBody, defaultModel: string,
                      generate: (seq<WireMessage>, Option<string>) -> Result<Option<string>, Exc>,
                      stream: (seq<WireMessage>, Option<string>) -> ChunkStream)
    requires svc.Valid()
    ensures !enabled ==>
      ChatAnonymous(enabled, svc, defaultProvider, body, defaultModel, generate).status == 403
      && ChatStreamAnonymous(enabled, svc, defaultProvider, body, defaultModel, stream).status == 403
    ensures enabled ==>
      ChatAnonymous(enabled, svc, defaultProvider, body, defaultModel, generate)
        == Chat(svc, defaultProvider, body, defaultModel, generate)
      && ChatStreamAnonymous(enabled, svc, defaultProvider, body, defaultModel, stream)
        == ChatStream(svc, defaultProvider, body, defaultModel, stream)
  {
  }
}
