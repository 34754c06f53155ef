/** The uniform provider contract (`AIProvider` in app/services/providers/base.py): the
    message dicts handed to a provider, the exceptions a provider call can raise, the
    finite result of draining a streaming generator, and the base-class logic that turns
    a legacy prompt into a message list before delegating to the `*_with_messages`
    operation of a concrete provider. */
module ProviderBase {
  import opened Wrappers

  /** A message dict `{"role": ..., "content": ...}` as it reaches a provider; either key
      may be missing. */
  datatype WireMessage = WireMessage(role: Option<string>, content: Option<string>)

  /** A raised exception, classified the way the callers in this repository distinguish
      them: `ValueError` (and its subclasses) against every other exception class.
      `message` is `str(e)`. */
  datatype Exc = ValueError(message: string) | OtherError(message: string)

  /** What a consumer sees when it drains a provider's streaming generator: the items it
      yielded, in order, then either normal exhaustion (`failure == None`) or the
      exception that the next pull raised. */
  datatype ChunkStream = ChunkStream(chunks: seq<string>, failure: Option<Exc>)

  const NoInputMessage: string := "Either 'prompt' or 'messages' must be provided"

  function UserMessage(prompt: string): WireMessage {
    WireMessage(Some("user"), Some(prompt))
  }

  /** The conversion at the top of `generate_response` and `stream_response`: explicit
      messages win, a lone prompt becomes one user message, neither is a `ValueError`.
      Python tests `is None` here, so an empty list or an empty prompt still counts as
      given. */
  function ToMessages(prompt: Option<string>, messages: Option<seq<WireMessage>>)
    : (r: Result<seq<WireMessage>, Exc>)
    ensures r.Ok? <==> messages.Some? || prompt.Some?
    ensures r.Err? ==> r.error == ValueError(NoInputMessage)
    ensures messages.Some? ==> r.Ok? && r.value == messages.value
    ensures messages.None? && prompt.Some? ==>
      (r.Ok? && |r.value| == 1 && r.value[0].role == Some("user") && r.value[0].content == prompt)
  {
    if messages.None? then
      if prompt.None? then Err(ValueError(NoInputMessage))
      else Ok([UserMessage(prompt.value)])
    else Ok(messages.value)
  }

  /** `generate_response`: convert, then delegate to the provider's
      `generate_response_with_messages`, given here as `withMessages`. A provider may
      hand back `None` for the text, which is passed on as it is. */
  function GenerateResponse(
    prompt: Option<string>, messages: Option<seq<WireMessage>>, model: Option<string>,
    withMessages: (seq<WireMessage>, Option<string>) -> Result<Option<string>, Exc>)
    : Result<Option<string>, Exc>
  {
    match ToMessages(prompt, messages)
    case Err(e) => Err(e)
    case Ok(ms) => withMessages(ms, model)
  }

  /** `stream_response`: a generator, so the conversion runs on the first pull; a missing
      input therefore surfaces as a stream that fails before yielding anything. */
  function StreamResponse(
    prompt: Option<string>, messages: Option<seq<WireMessage>>, model: Option<string>,
    withMessages: (seq<WireMessage>, Option<string>) -> ChunkStream)
    : ChunkStream
  {
    match ToMessages(prompt, messages)
    case Err(e) => ChunkStream([], Some(e))
    case Ok(ms) => withMessages(ms, model)
  }

  /** With messages given, the prompt plays no part in what is generated. */
  lemma {:induction false} PromptIgnoredWithMessages(
    p1: Option<string>, p2: Option<string>, ms: seq<WireMessage>, model: Option<string>,
    withMessages: (seq<WireMessage>, Option<string>) -> Result<Option<string>, Exc>)
    ensures GenerateResponse(p1, Some(ms), model, withMessages)
         == GenerateResponse(p2, Some(ms), model, withMessages)
         == withMessages(ms, model)
  {
  }

  /** The streaming and the non-streaming entry points agree: without input both fail
      with the same `ValueError` before the provider is involved, and otherwise both hand
      the provider the same message list. */
  lemma {:induction false} StreamAndGenerateAgree(
    prompt: Option<string>, messages: Option<seq<WireMessage>>, model: Option<string>,
    gen: (seq<WireMessage>, Option<string>) -> Result<Option<string>, Exc>,
    stream: (seq<WireMessage>, Option<string>) -> ChunkStream)
    ensures messages.None? && prompt.None? ==>
      GenerateResponse(prompt, messages, model, gen) == Err(ValueError(NoInputMessage))
      && StreamResponse(prompt, messages, model, stream) == ChunkStream([], Some(ValueError(NoInputMessage)))
    ensures messages.Some? || prompt.Some? ==>
      var ms := ToMessages(prompt, messages).value;
      GenerateResponse(prompt, messages, model, gen) == gen(ms, model)
      && StreamResponse(prompt, messages, model, stream) == stream(ms, model)
  {
  }

  /** `validate_model`: the explicit emptiness test in the source is redundant, the
      answer is plain membership. */
  function ValidateModel(model: string, available: seq<string>): (ok: bool)
    ensures ok <==> exists i :: 0 <= i < |available| && available[i] == model
  {
    if |available| > 0 then model in available else false
  }
}
