/** The values that flow through the orchestration: chat messages as the bot builds them
    (Python dicts with the keys `role`, `name`, `content`, `tool_calls`, `tool_call_id`),
    decoded JSON, tool definitions and the exceptions that escape a request. */
module ChatTypes {
  import opened Wrappers

  datatype Role = Developer | System | User | Assistant | Tool

  /** A decoded JSON value (`json.loads`); `json.dumps` of a value is the value itself here. */
  datatype Json =
    | JNull
    | JBool(b: bool)
    | JNumber(literal: string)
    | JString(s: string)
    | JArray(items: seq<Json>)
    | JObject(fields: map<string, Json>)

  /** One entry of an assistant message's `tool_calls` list (`type` is always "function"). */
  datatype ToolCallDescriptor = ToolCallDescriptor(id: string, name: string, arguments: Json)

  /** A message dict. An absent key is `None`; `toolCalls == []` means no `tool_calls` key. */
  datatype Message = Message(
    role: Role,
    name: Option<string>,
    content: Option<string>,
    toolCalls: seq<ToolCallDescriptor>,
    toolCallId: Option<string>)

  /** A `{"type": "function", "function": {...}}` tool definition with its one parameter. */
  datatype ToolDefinition = ToolDefinition(
    name: string,
    description: string,
    parameter: string,
    parameterDescription: string)

  /** One element of a `delta.tool_calls` list. */
  datatype Fragment = Fragment(id: Option<string>, name: Option<string>, arguments: Option<string>)

  /** Exceptions that propagate out of `chat_gpt_request` uncaught. */
  datatype Fault =
    | NoneContentSearched(index: nat)    // `pattern.search(None)` in the override scan
    | ChunkShape                         // a chunk without the fields `process_chunk` reads
    | UnboundToolCallId                  // `tool_call_id` read before any fragment set it
    | MissingToolEntry(id: string)       // arguments for an id that was never named
    | MalformedArguments(id: string)     // `json.loads` on the status line
    | LookupAfterOverwrite(name: string) // `available_functions.keys()` on the string it became
}
