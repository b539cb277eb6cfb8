/**
  chatgpt/services/ai_service.py: routing a request to OpenAI or Mistral by allow-list,
  rewriting messages for Mistral, and bringing both providers' stream elements into one
  shape. The network clients are not modelled; a `Request` stands for the client call.
 */
module AIService {
  import opened Wrappers
  import opened ChatTypes

  datatype Provider = OpenAI | Mistral

  /** The two allow-lists the service is constructed with. */
  datatype Service = Service(allowedModels: seq<string>, mistralAllowedModels: seq<string>)

  /** `is_mistral_model` */
  predicate IsMistralModel(svc: Service, model: string)
  {
    model in svc.mistralAllowedModels
  }

  /** The client call `create_chat_completion` makes: provider, model, messages, tools. */
  datatype Request = Request(
    provider: Provider,
    model: string,
    messages: seq<Message>,
    tools: Option<seq<ToolDefinition>>)

  /** One dict after the Mistral rewrite: `developer` becomes `system`, `name` is deleted. */
  function ToMistralMessage(m: Message): (r: Message)
    ensures r.role == (if m.role == Developer then System else m.role)
    ensures r.name.None?
    ensures r.content == m.content && r.toolCalls == m.toolCalls && r.toolCallId == m.toolCallId
  {
    m.(role := if m.role == Developer then System else m.role, name := None)
  }

  function ToMistral(messages: seq<Message>): (r: seq<Message>)
    ensures |r| == |messages|
    ensures forall i :: 0 <= i < |r| ==> r[i] == ToMistralMessage(messages[i])
  {
    seq(|messages|, i requires 0 <= i < |messages| => ToMistralMessage(messages[i]))
  }

  /** What `create_chat_completion` does with a model name: the request it sends, or the
      text of the `ValueError` it raises before any client call. */
  function Route(svc: Service, messages: seq<Message>, model: string, tools: Option<seq<ToolDefinition>>)
    : (r: Result<Request, string>)
    ensures r.Err? <==> model !in svc.mistralAllowedModels && model !in svc.allowedModels
    ensures r.Err? ==> r.error == "Invalid OpenAI model: " + model
    ensures r.Ok? ==> r.value.model == model
    ensures r.Ok? ==> (r.value.provider == Mistral <==> IsMistralModel(svc, model))
    ensures r.Ok? && r.value.provider == Mistral ==> r.value.messages == ToMistral(messages) && r.value.tools.None?
    ensures r.Ok? && r.value.provider == OpenAI ==> r.value.messages == messages && r.value.tools == tools
  {
    if IsMistralModel(svc, model) then
      // The second membership test of the source; it cannot fail here.
      if model !in svc.mistralAllowedModels then Err("Invalid Mistral model: " + model)
      else Ok(Request(Mistral, model, ToMistral(messages), None))
    else if model !in svc.allowedModels then Err("Invalid OpenAI model: " + model)
    else Ok(Request(OpenAI, model, messages, tools))
  }

  /** `create_chat_completion`. The loop rewrites each dict for Mistral; the source mutates
      the caller's dicts in place, which the caller sees through the returned messages. */
  method CreateChatCompletion(svc: Service, messages: seq<Message>, model: string, tools: Option<seq<ToolDefinition>>)
    returns (r: Result<Request, string>)
    ensures r == Route(svc, messages, model, tools)
  {
    if IsMistralModel(svc, model) {
      if model !in svc.mistralAllowedModels {
        return Err("Invalid Mistral model: " + model);
      }
      var mistralMessages: seq<Message> := [];
      var i := 0;
      while i < |messages|
        invariant 0 <= i <= |messages|
        invariant mistralMessages == ToMistral(messages[..i])
      {
        var msg := messages[i];
        if msg.role == Developer {
          msg := msg.(role := System);
        }
        if msg.name.Some? {
          msg := msg.(name := None);
        }
        mistralMessages := mistralMessages + [msg];
        i := i + 1;
      }
      assert messages[..i] == messages;
      return Ok(Request(Mistral, model, mistralMessages, None));
    }
    if model !in svc.allowedModels {
      return Err("Invalid OpenAI model: " + model);
    }
    return Ok(Request(OpenAI, model, messages, tools));
  }

  // ---------------------------------------------------------------------------
  // Stream elements and `process_chunk`.
  // ---------------------------------------------------------------------------

  datatype Delta = Delta(content: Option<string>, toolCalls: Option<seq<Fragment>>)

  datatype Choice = Choice(delta: Delta, finishReason: Option<string>)

  /** A Mistral element has `delta` and `finish_reason`; an OpenAI one, `choices`. */
  datatype RawChunk =
    | MistralChunk(delta: Option<string>, finishReason: Option<string>)
    | OpenAIChunk(choices: seq<Choice>)

  /** The unified dict `process_chunk` returns. */
  datatype Processed = Processed(
    content: Option<string>,
    finishReason: Option<string>,
    toolCalls: Option<seq<Fragment>>)

  /** `process_chunk`; an element lacking the fields read (or with no choices) raises. */
  function ProcessChunk(chunk: RawChunk, isMistral: bool): (r: Result<Processed, Fault>)
    ensures isMistral ==> (r.Ok? <==> chunk.MistralChunk?)
    ensures isMistral && r.Ok? ==> r.value == Processed(chunk.delta, chunk.finishReason, None)
    ensures !isMistral ==> (r.Ok? <==> chunk.OpenAIChunk? && |chunk.choices| > 0)
    ensures !isMistral && r.Ok? ==>
      && r.value.content == chunk.choices[0].delta.content
      && r.value.finishReason == chunk.choices[0].finishReason
      && r.value.toolCalls == chunk.choices[0].delta.toolCalls
    ensures r.Err? ==> r.error == ChunkShape
  {
    if isMistral then
      match chunk
      case MistralChunk(delta, finish) => Ok(Processed(delta, finish, None))
      case OpenAIChunk(_) => Err(ChunkShape)
    else
      match chunk
      case OpenAIChunk(choices) =>
        if |choices| == 0 then Err(ChunkShape)
        else Ok(Processed(choices[0].delta.content, choices[0].finishReason, choices[0].delta.toolCalls))
      case MistralChunk(_, _) => Err(ChunkShape)
  }
}
