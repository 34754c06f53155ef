/** The request model of the chat endpoints (app/models/requests.py): field constraints
    that validation enforces, and `get_messages`, which turns a request into the message
    list handed to a provider, keeping only the most recent messages. */
module ChatRequests {
  import opened Wrappers
  import opened ProviderBase

  datatype ChatMessage = ChatMessage(role: string, content: string)

  /** A request whose fields have the declared types; `None` is an absent or null field. */
  datatype ChatRequest = ChatRequest(
    prompt: Option<string>,
    messages: Option<seq<ChatMessage>>,
    model: Option<string>,
    provider: Option<string>,
    maxContextMessages: Option<int>)

  const DefaultContextWindow: nat := 20
  const MinContextWindow: int := 1
  const MaxContextWindow: int := 100

  /** The field constraints validation enforces: the window, when given, lies in
      [1, 100], and every message has non-empty content. */
  predicate FieldsValid(r: ChatRequest) {
    && (r.maxContextMessages.Some? ==>
          MinContextWindow <= r.maxContextMessages.value <= MaxContextWindow)
    && (r.messages.Some? ==>
          forall i :: 0 <= i < |r.messages.value| ==> |r.messages.value[i].content| >= 1)
  }

  /** The fixed text stands for pydantic's multi-line `ValidationError` report (a
      `ValueError` subclass), whose exact wording is not modelled. */
  const ValidationFailedMessage: string := "validation error for ChatRequest"

  /** Constructing the request (`ChatRequest(**data)`): the constraints, nothing more. */
  function Construct(r: ChatRequest): (res: Result<ChatRequest, Exc>)
    ensures res.Ok? <==> FieldsValid(r)
    ensures res.Ok? ==> res.value == r
    ensures res.Err? ==> res.error.ValueError?
  {
    if FieldsValid(r) then Ok(r) else Err(ValueError(ValidationFailedMessage))
  }

  predicate HasMessages(r: ChatRequest) {
    r.messages.Some? && |r.messages.value| > 0
  }

  predicate HasPrompt(r: ChatRequest) {
    r.prompt.Some? && |r.prompt.value| > 0
  }

  /** `max_context_messages or 20`: an absent window means 20. */
  function Window(r: ChatRequest): (w: nat)
    requires FieldsValid(r)
    ensures 1 <= w <= 100
    ensures r.maxContextMessages.None? ==> w == DefaultContextWindow
    ensures r.maxContextMessages.Some? ==> w == r.maxContextMessages.value
  {
    match r.maxContextMessages
    case None => DefaultContextWindow
    case Some(n) => if n == 0 then DefaultContextWindow else n
  }

  function ToWire(m: ChatMessage): WireMessage {
    WireMessage(Some(m.role), Some(m.content))
  }

  function ToWireAll(ms: seq<ChatMessage>): (r: seq<WireMessage>)
    ensures |r| == |ms|
    ensures forall i :: 0 <= i < |ms| ==> r[i] == ToWire(ms[i])
  {
    if ms == [] then [] else [ToWire(ms[0])] + ToWireAll(ms[1..])
  }

  /** `get_messages`: the last `Window(r)` messages (all of them when fewer), else the
      prompt as one user message, else a `ValueError`. Empty lists and empty prompts
      count as missing. */
  function GetMessages(r: ChatRequest): (res: Result<seq<WireMessage>, Exc>)
    requires FieldsValid(r)
    ensures res.Ok? <==> HasMessages(r) || HasPrompt(r)
    ensures res.Err? ==> res.error == ValueError(NoInputMessage)
    ensures HasMessages(r) ==>
      var ms := r.messages.value;
      && res.Ok?
      && |res.value| == (if |ms| < Window(r) then |ms| else Window(r))
      && forall i :: 0 <= i < |res.value| ==>
           res.value[i] == ToWire(ms[|ms| - |res.value| + i])
    ensures !HasMessages(r) && HasPrompt(r) ==>
      res == Ok([WireMessage(Some("user"), r.prompt)])
  {
    if HasMessages(r) then
      var ms := r.messages.value;
      var w := Window(r);
      var kept := if |ms| > w then ms[|ms| - w..] else ms;
      Ok(ToWireAll(kept))
    else if HasPrompt(r) then
      Ok([UserMessage(r.prompt.value)])
    else
      Err(ValueError(NoInputMessage))
  }

  /** Every message handed on is non-empty, and the list is never longer than the
      window nor empty. */
  lemma {:induction false} GetMessagesBounded(r: ChatRequest)
    requires FieldsValid(r)
    requires GetMessages(r).Ok?
    ensures 1 <= |GetMessages(r).value| <= Window(r)
    ensures forall i :: 0 <= i < |GetMessages(r).value| ==>
      GetMessages(r).value[i].content.Some? && |GetMessages(r).value[i].content.value| >= 1
  {
    var res := GetMessages(r).value;
    if HasMessages(r) {
      var ms := r.messages.value;
      forall i | 0 <= i < |res|
        ensures res[i].content.Some? && |res[i].content.value| >= 1
      {
        assert res[i] == ToWire(ms[|ms| - |res| + i]);
      }
    }
  }

  /** With the default window, a 25-message history keeps messages 6 to 25. */
  lemma {:induction false} DefaultWindowKeepsLatest(ms: seq<ChatMessage>)
    requires |ms| == 25
    requires forall i :: 0 <= i < |ms| ==> |ms[i].content| >= 1
    ensures var r := ChatRequest(None, Some(ms), None, None, None);
      GetMessages(r).Ok? && |GetMessages(r).value| == 20
      && GetMessages(r).value[0] == ToWire(ms[5])
      && GetMessages(r).value[19] == ToWire(ms[24])
  {
  }

  /** The `model_validate` override: construction, then the same input check that
      `get_messages` makes. */
  function ModelValidate(r: ChatRequest): Result<ChatRequest, Exc> {
    match Construct(r)
    case Err(e) => Err(e)
    case Ok(req) =>
      if !HasPrompt(req) && !HasMessages(req) then Err(ValueError(NoInputMessage))
      else Ok(req)
  }

  /** `model_validate` accepts exactly the requests for which `get_messages` succeeds,
      and rejects the others with the same error. */
  lemma {:induction false} ModelValidateMatchesGetMessages(r: ChatRequest)
    ensures ModelValidate(r).Ok? <==> FieldsValid(r) && GetMessages(r).Ok?
    ensures FieldsValid(r) && GetMessages(r).Err? ==>
      ModelValidate(r) == Err(GetMessages(r).error)
  {
  }
}
