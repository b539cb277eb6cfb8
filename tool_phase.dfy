/**
  The tool phase of `chat_gpt_request` (chatgpt/bot.py:188-234): the status line, one
  assistant/tool message pair per collected call, and the history the continuation gets.
  The tools themselves, `json.loads` and Python's `str` and `repr` are foreign code, given as `Env`.
 */
module ToolPhase {
  import opened Wrappers
  import opened ChatTypes
  import opened OrderedMaps
  import opened Streaming

  /** What calling a tool gives: its return value, or the text of what it raised. */
  datatype ToolOutcome = Returned(text: string) | Raised(message: string)

  /** `parse` is `json.loads` (None where it raises); `str` is Python's `str` of a decoded
      value, as the status line's f-string renders it; `repr` is Python's `repr`, which
      `str(KeyError(name))` gives for an unknown tool name; `invoke` calls a tool with the
      keyword arguments of a decoded object; `notMapping` is the text of the `TypeError`
      that calling the named tool with `**[]` raises. */
  datatype Env = Env(
    parse: string -> Option<Json>,
    str: Json -> string,
    repr: Json -> string,
    invoke: (string, Json) -> ToolOutcome,
    notMapping: string -> string)

  /** The keys of `available_functions`. */
  const ToolNames: seq<string> := ["weather", "fetch_electricity_prices"]

  const StatusPrefix: string := "Calling functions: "

  const FunctionError: string := "Function error: "

  // ---------------------------------------------------------------------------
  // Status line (bot.py:188-193); its `json.loads` is outside any `try`.
  // ---------------------------------------------------------------------------

  /** `name(args) ` for the first `n` calls, or the call whose arguments do not decode. */
  function StatusPieces(fns: OrderedMap<Collected>, n: nat, env: Env): Result<string, Fault>
    requires Valid(fns) && n <= |fns.keys|
  {
    if n == 0 then Ok("")
    else
      match StatusPieces(fns, n - 1, env)
      case Err(e) => Err(e)
      case Ok(t) =>
        var id := fns.keys[n - 1];
        var f := fns.values[id];
        match env.parse(f.arguments)
        case None => Err(MalformedArguments(id))
        case Some(j) => Ok(t + f.name + "(" + env.str(j) + ") ")
  }

  function StatusLine(fns: OrderedMap<Collected>, env: Env): Result<string, Fault>
    requires Valid(fns)
  {
    match StatusPieces(fns, |fns.keys|, env)
    case Err(e) => Err(e)
    case Ok(t) => Ok(StatusPrefix + t)
  }

  ghost predicate Decodes(fns: OrderedMap<Collected>, i: nat, env: Env)
    requires Valid(fns) && i < |fns.keys|
  {
    env.parse(fns.values[fns.keys[i]].arguments).Some?
  }

  /** The status line is produced iff every call's argument text decodes; otherwise the
      `JSONDecodeError` of the first one that does not escapes the request. */
  lemma {:induction false} StatusPiecesIff(fns: OrderedMap<Collected>, n: nat, env: Env)
    requires Valid(fns) && n <= |fns.keys|
    ensures StatusPieces(fns, n, env).Ok? <==> forall i :: 0 <= i < n ==> Decodes(fns, i, env)
    ensures StatusPieces(fns, n, env).Err? ==>
      exists i :: 0 <= i < n && !Decodes(fns, i, env)
        && StatusPieces(fns, n, env) == Err(MalformedArguments(fns.keys[i]))
  {
    if n > 0 {
      StatusPiecesIff(fns, n - 1, env);
      if StatusPieces(fns, n - 1, env).Ok? && !Decodes(fns, n - 1, env) {
        assert StatusPieces(fns, n, env) == Err(MalformedArguments(fns.keys[n - 1]));
      }
    }
  }

  /** The `for ... in collected_functions.items()` loop that builds the status line. */
  method BuildStatusLine(fns: OrderedMap<Collected>, env: Env) returns (r: Result<string, Fault>)
    requires Valid(fns)
    ensures r == StatusLine(fns, env)
  {
    var text := "";
    var i := 0;
    while i < |fns.keys|
      invariant 0 <= i <= |fns.keys|
      invariant StatusPieces(fns, i, env) == Ok(text)
    {
      var id := fns.keys[i];
      var f := fns.values[id];
      var args := env.parse(f.arguments);
      if args.None? {
        StatusPiecesStop(fns, i + 1, env);
        return Err(MalformedArguments(id));
      }
      text := text + f.name + "(" + env.str(args.value) + ") ";
      i := i + 1;
    }
    return Ok(StatusPrefix + text);
  }

  lemma {:induction false} StatusPiecesStop(fns: OrderedMap<Collected>, n: nat, env: Env)
    requires Valid(fns) && n <= |fns.keys|
    requires StatusPieces(fns, n, env).Err?
    ensures StatusPieces(fns, |fns.keys|, env) == StatusPieces(fns, n, env)
    decreases |fns.keys| - n
  {
    if n < |fns.keys| {
      StatusPiecesStop(fns, n + 1, env);
    }
  }

  // ---------------------------------------------------------------------------
  // Calling the tools (bot.py:195-231).
  // ---------------------------------------------------------------------------

  /** `function_args` after bot.py:201-205: the decoded object with "user" set to the
      sender, or `[]` when the text does not decode or decodes to something else. */
  function CallArgs(arguments: string, sender: string, env: Env): (j: Json)
    ensures j.JObject? || j == JArray([])
    ensures j.JObject? ==> "user" in j.fields && j.fields["user"] == JString(sender)
    ensures j.JObject? <==> env.parse(arguments).Some? && env.parse(arguments).value.JObject?
    ensures j.JObject? ==> forall k :: k in env.parse(arguments).value.fields && k != "user" ==>
      k in j.fields && j.fields[k] == env.parse(arguments).value.fields[k]
  {
    match env.parse(arguments)
    case Some(JObject(fields)) => JObject(fields["user" := JString(sender)])
    case _ => JArray([])
  }

  /** Looking up and calling one tool while `available_functions` is still the dict:
      whether it succeeded, and the response text. The lookup comes first (`KeyError`);
      arguments that are `[]` then fail to unpack before the tool runs (`TypeError`). */
  function CallTool(f: Collected, args: Json, env: Env): (r: (bool, string))
    ensures r.0 <==> f.name in ToolNames && args.JObject? && env.invoke(f.name, args).Returned?
    ensures r.0 ==> r.1 == env.invoke(f.name, args).text
    ensures f.name !in ToolNames ==> r.1 == FunctionError + env.repr(JString(f.name))
    ensures f.name in ToolNames && !args.JObject? ==> r.1 == FunctionError + env.notMapping(f.name)
    ensures f.name in ToolNames && args.JObject? && !r.0 ==> r.1 == FunctionError + env.invoke(f.name, args).message
  {
    if f.name !in ToolNames then
      (false, FunctionError + env.repr(JString(f.name)))
    else if !args.JObject? then
      (false, FunctionError + env.notMapping(f.name))
    else
      match env.invoke(f.name, args)
      case Returned(t) => (true, t)
      case Raised(e) => (false, FunctionError + e)
  }

  /** The assistant message with the call descriptor and `content` None, then the tool
      message with the response. */
  function ToolPair(id: string, f: Collected, args: Json, response: string): seq<Message>
  {
    [Message(Assistant, None, None, [ToolCallDescriptor(id, f.name, args)], None),
     Message(Tool, Some(f.name), Some(response), [], Some(id))]
  }

  /** Whether `available_functions` is still the dict, and the messages so far. */
  datatype Dispatched = Dispatched(available: bool, messages: seq<Message>)

  /** One iteration. Once `available_functions` has become a string, the lookup fails and
      the handler's own `available_functions.keys()` raises out of the request. */
  function DispatchOne(d: Dispatched, id: string, f: Collected, sender: string, env: Env): Result<Dispatched, Fault>
  {
    if !d.available then Err(LookupAfterOverwrite(f.name))
    else
      var args := CallArgs(f.arguments, sender, env);
      var call := CallTool(f, args, env);
      Ok(Dispatched(call.0, d.messages + ToolPair(id, f, args, call.1)))
  }

  function DispatchPrefix(fns: OrderedMap<Collected>, n: nat, sender: string, env: Env, messages: seq<Message>)
    : Result<Dispatched, Fault>
    requires Valid(fns) && n <= |fns.keys|
  {
    if n == 0 then Ok(Dispatched(true, messages))
    else
      match DispatchPrefix(fns, n - 1, sender, env, messages)
      case Err(e) => Err(e)
      case Ok(d) => DispatchOne(d, fns.keys[n - 1], fns.values[fns.keys[n - 1]], sender, env)
  }

  function Dispatch(fns: OrderedMap<Collected>, sender: string, env: Env, messages: seq<Message>)
    : Result<seq<Message>, Fault>
    requires Valid(fns)
  {
    match DispatchPrefix(fns, |fns.keys|, sender, env, messages)
    case Err(e) => Err(e)
    case Ok(d) => Ok(d.messages)
  }

  /** The `for tool_id, collected_function in ...items()` loop. */
  method DispatchCalls(fns: OrderedMap<Collected>, sender: string, env: Env, messages: seq<Message>)
    returns (r: Result<seq<Message>, Fault>)
    requires Valid(fns)
    ensures r == Dispatch(fns, sender, env, messages)
  {
    var available := true;
    var msgs := messages;
    var i := 0;
    while i < |fns.keys|
      invariant 0 <= i <= |fns.keys|
      invariant DispatchPrefix(fns, i, sender, env, messages) == Ok(Dispatched(available, msgs))
    {
      var id := fns.keys[i];
      var f := fns.values[id];
      var args := CallArgs(f.arguments, sender, env);
      ghost var before := Dispatched(available, msgs);
      if !available {
        DispatchPrefixStop(fns, i + 1, sender, env, messages);
        return Err(LookupAfterOverwrite(f.name));
      }
      var response: string;
      if f.name !in ToolNames {
        available := false;
        response := FunctionError + env.repr(JString(f.name));
      } else if !args.JObject? {
        available := false;
        response := FunctionError + env.notMapping(f.name);
      } else {
        var outcome := env.invoke(f.name, args);
        if outcome.Returned? {
          response := outcome.text;
        } else {
          available := false;
          response := FunctionError + outcome.message;
        }
      }
      assert CallTool(f, args, env) == (available, response);
      msgs := msgs + ToolPair(id, f, args, response);
      assert DispatchOne(before, id, f, sender, env) == Ok(Dispatched(available, msgs));
      i := i + 1;
    }
    return Ok(msgs);
  }

  lemma {:induction false} DispatchPrefixStop(fns: OrderedMap<Collected>, n: nat, sender: string, env: Env, messages: seq<Message>)
    requires Valid(fns) && n <= |fns.keys|
    requires DispatchPrefix(fns, n, sender, env, messages).Err?
    ensures DispatchPrefix(fns, |fns.keys|, sender, env, messages) == DispatchPrefix(fns, n, sender, env, messages)
    decreases |fns.keys| - n
  {
    if n < |fns.keys| {
      DispatchPrefixStop(fns, n + 1, sender, env, messages);
    }
  }

  /** Call `i` looks its tool up and gets a response without raising. */
  ghost predicate Succeeds(fns: OrderedMap<Collected>, i: nat, sender: string, env: Env)
    requires Valid(fns) && i < |fns.keys|
  {
    var f := fns.values[fns.keys[i]];
    CallTool(f, CallArgs(f.arguments, sender, env), env).0
  }

  /** The pairs appended for the first `n` calls, in collected order. */
  function Pairs(fns: OrderedMap<Collected>, n: nat, sender: string, env: Env): seq<Message>
    requires Valid(fns) && n <= |fns.keys|
  {
    if n == 0 then []
    else
      var id := fns.keys[n - 1];
      var f := fns.values[id];
      var args := CallArgs(f.arguments, sender, env);
      Pairs(fns, n - 1, sender, env) + ToolPair(id, f, args, CallTool(f, args, env).1)
  }

  /** The round gets through its first `n` calls iff every call before the last of them
      succeeded (a failure turns `available_functions` into a string and the next lookup
      raises), and then it has appended exactly its pairs. */
  lemma {:induction false} DispatchPrefixIff(fns: OrderedMap<Collected>, n: nat, sender: string, env: Env, messages: seq<Message>)
    requires Valid(fns) && n <= |fns.keys|
    ensures DispatchPrefix(fns, n, sender, env, messages).Ok?
        <==> forall i :: 0 <= i < n - 1 ==> Succeeds(fns, i, sender, env)
    ensures DispatchPrefix(fns, n, sender, env, messages).Ok? ==>
      && DispatchPrefix(fns, n, sender, env, messages).value.messages == messages + Pairs(fns, n, sender, env)
      && DispatchPrefix(fns, n, sender, env, messages).value.available
         == (n == 0 || Succeeds(fns, n - 1, sender, env))
  {
    if n > 0 {
      DispatchPrefixIff(fns, n - 1, sender, env, messages);
    }
  }

  /** The messages grow by exactly the pairs of all calls, in collected order. */
  lemma DispatchAppendsPairs(fns: OrderedMap<Collected>, sender: string, env: Env, messages: seq<Message>)
    requires Valid(fns)
    ensures Dispatch(fns, sender, env, messages).Ok?
        <==> forall i :: 0 <= i < |fns.keys| - 1 ==> Succeeds(fns, i, sender, env)
    ensures Dispatch(fns, sender, env, messages).Ok? ==>
      Dispatch(fns, sender, env, messages).value == messages + Pairs(fns, |fns.keys|, sender, env)
  {
    DispatchPrefixIff(fns, |fns.keys|, sender, env, messages);
  }

  /** A failing call that is not the last one ends the request with an exception. */
  lemma FailureBeforeLastRaises(fns: OrderedMap<Collected>, sender: string, env: Env, messages: seq<Message>, i: nat)
    requires Valid(fns) && i + 1 < |fns.keys|
    requires !Succeeds(fns, i, sender, env)
    ensures Dispatch(fns, sender, env, messages).Err?
  {
    DispatchAppendsPairs(fns, sender, env, messages);
  }

  /** Pair `i` of the appended messages: the assistant message with `content` None and the
      call descriptor (arguments with the injected "user" key, or `[]`), then the tool
      message with that id and either the tool's response or "Function error: ...". */
  lemma {:induction false} PairsAt(fns: OrderedMap<Collected>, n: nat, sender: string, env: Env, i: nat)
    requires Valid(fns) && i < n <= |fns.keys|
    ensures |Pairs(fns, n, sender, env)| == 2 * n
    ensures var ps := Pairs(fns, n, sender, env);
            var id := fns.keys[i];
            var f := fns.values[id];
            var args := CallArgs(f.arguments, sender, env);
            && ps[2 * i] == Message(Assistant, None, None, [ToolCallDescriptor(id, f.name, args)], None)
            && ps[2 * i + 1] == Message(Tool, Some(f.name), Some(CallTool(f, args, env).1), [], Some(id))
  {
    PairsLength(fns, n, sender, env);
    if i < n - 1 {
      PairsAt(fns, n - 1, sender, env, i);
    }
  }

  lemma {:induction false} PairsLength(fns: OrderedMap<Collected>, n: nat, sender: string, env: Env)
    requires Valid(fns) && n <= |fns.keys|
    ensures |Pairs(fns, n, sender, env)| == 2 * n
  {
    if n > 0 {
      PairsLength(fns, n - 1, sender, env);
    }
  }

  // ---------------------------------------------------------------------------
  // The continuation gets `messages[:-1]` (bot.py:234).
  // ---------------------------------------------------------------------------

  /** `messages[:-1]`: everything but the last message (nothing, for an empty list). */
  function Continuation(messages: seq<Message>): (r: seq<Message>)
    ensures messages != [] ==> |r| == |messages| - 1 && r == messages[..|r|]
    ensures messages == [] ==> r == []
  {
    if messages == [] then [] else messages[..|messages| - 1]
  }

  /** With at least one call, `messages[:-1]` drops the last call's tool result and ends
      with that call's assistant message, whose content is None. */
  lemma ContinuationDropsLastResult(fns: OrderedMap<Collected>, sender: string, env: Env, messages: seq<Message>)
    requires Valid(fns) && |fns.keys| > 0
    requires Dispatch(fns, sender, env, messages).Ok?
    ensures var all := Dispatch(fns, sender, env, messages).value;
            var id := fns.keys[|fns.keys| - 1];
            var c := Continuation(all);
            && |all| == |messages| + 2 * |fns.keys|
            && all[|all| - 1].role == Tool && all[|all| - 1].toolCallId == Some(id)
            && c == all[..|all| - 1]
            && c[..|messages|] == messages
            && c[|c| - 1].role == Assistant && c[|c| - 1].content.None?
            && c[|c| - 1].toolCalls[0].id == id
  {
    var n := |fns.keys|;
    DispatchAppendsPairs(fns, sender, env, messages);
    PairsAt(fns, n, sender, env, n - 1);
  }

  /** The continuation keeps the messages the round was sent with, followed by the first
      call's assistant message, whose content is None. */
  lemma ContinuationFirstCall(fns: OrderedMap<Collected>, sender: string, env: Env, messages: seq<Message>)
    requires Valid(fns) && |fns.keys| > 0
    requires Dispatch(fns, sender, env, messages).Ok?
    ensures var c := Continuation(Dispatch(fns, sender, env, messages).value);
            && |messages| < |c|
            && c[..|messages|] == messages
            && c[|messages|].role == Assistant && c[|messages|].content.None?
  {
    var n := |fns.keys|;
    DispatchAppendsPairs(fns, sender, env, messages);
    PairsAt(fns, n, sender, env, 0);
    var all := Dispatch(fns, sender, env, messages).value;
    assert all[|messages|] == Pairs(fns, n, sender, env)[0];
  }
}
