/**
  The bot object of chatgpt/bot.py: the record of its replies (`assistant_replies`), the
  time of its last streamed edit (`_last_edit_time`), and the request it runs for a query:
  build the conversation, pick the model, stream the answer into throttled edits, call the
  tools the model asks for and continue the conversation with their results.

  The Matrix transport is reduced to what the bot hands it: the edits it sends (`edits`)
  and the texts it replies with (`repliesSent`); fetched events come from a map. Each call
  of `chat_gpt_request` consumes one `Round`: the clock reading that goes into the
  developer message, the exception the client call raises (if any) and the stream with a
  clock reading per element.
 */
module Bot {
  import opened Wrappers
  import opened PyStrings
  import opened ChatTypes
  import OrderedMaps
  import opened ReplyCache
  import opened Conversation
  import opened AIService
  import opened Streaming
  import opened ToolPhase
  import opened History
  import opened SeqFacts

  /** `config["model"]` and `config["bot-name"]`. */
  datatype Config = Config(model: string, botName: string)

  /** The two tool definitions of bot.py:80-115. */
  const Tools: seq<ToolDefinition> := [
    ToolDefinition("weather",
      "Get the current and forecasted weather in a given location",
      "location", "The city, default to Espoo, Finland"),
    ToolDefinition("fetch_electricity_prices",
      "Get the electricity prices in Finland in cents for a given date",
      "date", "The date for which to get the electricity prices (can be 'today' or 'tomorrow' or a specific date formatted as YYYY-MM-DD)")
  ]

  /** What the outside world supplies to one call of `chat_gpt_request`. */
  datatype Round = Round(
    date: string,                  // `current_date`, already formatted
    time: string,                  // `current_time`, already formatted
    clientError: Option<ClientError>, // what the client call raised, if anything
    chunks: seq<TimedChunk>)       // the stream, one clock reading per element

  /** How a request ends: with the plain final edit of the answer; with the text of a
      rejected model or a failed client call; with an exception escaping; or, in the model
      only, with no round left for a continuation. */
  datatype Outcome =
    | Answered(text: string)
    | Refused(text: string)
    | Failed(fault: Fault)
    | OutOfRounds

  /** The texts a request writes into its reply, in order, the final `_last_edit_time`,
      and how it ended. */
  datatype Trace = Trace(texts: seq<string>, lastEdit: Option<int>, outcome: Outcome)

  /** An exception raised inside the `try` of bot.py:133-145: a `ValueError` is written as
      its bare text, any other exception behind `API Error: `. */
  datatype ClientError = ValueError(text: string) | OtherError(text: string)

  const ApiErrorPrefix: string := "API Error: "

  /** The text the handlers of bot.py:140-145 write for a client exception. */
  function ClientErrorText(e: ClientError): string
  {
    match e
    case ValueError(t) => t
    case OtherError(t) => ApiErrorPrefix + t
  }

  /** The conversation a round sends: developer message, history and user message. */
  function RoundMessages(query: string, history: seq<Message>, sender: string, round: Round): seq<Message>
  {
    Assemble(DeveloperPrompt(round.date, round.time), history, SenderHandle(sender), query)
  }

  /** `None if is_mistral else tools`. */
  function ToolsFor(svc: Service, model: string): Option<seq<ToolDefinition>>
  {
    if IsMistralModel(svc, model) then None else Some(Tools)
  }

  function InitialStream(lastEdit: Option<int>): (st: StreamState)
    ensures StateValid(st) && st.parts == [] && st.edits == [] && st.lastEdit == lastEdit
  {
    StreamState([], EmptyAccumulator(), lastEdit, [])
  }

  /** Where the part of a request before the stream ends: with the request made, or with
      the trace of a request that stops before streaming. */
  datatype Prepared = Ready(isMistral: bool, req: Request) | Stopped(trace: Trace)

  /** bot.py:59-146 for one round: the conversation, the override scan, the routing and
      the client call. */
  function PrepareRound(cfg: Config, svc: Service, lastEdit: Option<int>, query: string,
                        history: seq<Message>, sender: string, round: Round): (p: Prepared)
    ensures p.Stopped? ==> p.trace.lastEdit == lastEdit && |p.trace.texts| <= 1
    ensures p.Stopped? ==> (p.trace.texts == [] <==> p.trace.outcome.Failed?)
    ensures p.Stopped? && p.trace.texts != [] ==> p.trace.outcome == Refused(p.trace.texts[0])
    ensures p.Ready? ==> round.clientError.None?
  {
    match OverrideScan(RoundMessages(query, history, sender, round), cfg.model)
    case ScanRaised(i) => Stopped(Trace([], lastEdit, Failed(NoneContentSearched(i))))
    case Scanned(model, scanned) =>
      match Route(svc, scanned, model, ToolsFor(svc, model))
      case Err(text) => Stopped(Trace([text], lastEdit, Refused(text)))
      case Ok(req) =>
        if round.clientError.Some? then
          var text := ClientErrorText(round.clientError.value);
          Stopped(Trace([text], lastEdit, Refused(text)))
        else Ready(IsMistralModel(svc, model), req)
  }
  /** Which branch of bot.py:122-146 a round takes, and what it writes. */
  lemma PrepareRoundCases(cfg: Config, svc: Service, lastEdit: Option<int>, query: string,
                          history: seq<Message>, sender: string, round: Round)
    // The override scan raising: nothing written, the `TypeError` escapes.
    ensures var p := PrepareRound(cfg, svc, lastEdit, query, history, sender, round);
            var scan := OverrideScan(RoundMessages(query, history, sender, round), cfg.model);
            scan.ScanRaised? ==>
              p.Stopped? && p.trace.texts == [] && p.trace.outcome == Failed(NoneContentSearched(scan.index))
    // A rejected model: its `ValueError` text is written.
    ensures var p := PrepareRound(cfg, svc, lastEdit, query, history, sender, round);
            var scan := OverrideScan(RoundMessages(query, history, sender, round), cfg.model);
            scan.Scanned? && Route(svc, scan.messages, scan.model, ToolsFor(svc, scan.model)).Err? ==>
              p.Stopped? && p.trace.texts == [Route(svc, scan.messages, scan.model, ToolsFor(svc, scan.model)).error]
    // A client exception: bare for a `ValueError`, else behind `API Error: `.
    ensures var p := PrepareRound(cfg, svc, lastEdit, query, history, sender, round);
            var scan := OverrideScan(RoundMessages(query, history, sender, round), cfg.model);
            scan.Scanned? && Route(svc, scan.messages, scan.model, ToolsFor(svc, scan.model)).Ok? && round.clientError.Some? ==>
              && p.Stopped?
              && (round.clientError.value.ValueError? ==> p.trace.texts == [round.clientError.value.text])
              && (round.clientError.value.OtherError? ==> p.trace.texts == [ApiErrorPrefix + round.clientError.value.text])
    // Otherwise the request is the routed, rewritten conversation.
    ensures var p := PrepareRound(cfg, svc, lastEdit, query, history, sender, round);
            var scan := OverrideScan(RoundMessages(query, history, sender, round), cfg.model);
            scan.Scanned? && Route(svc, scan.messages, scan.model, ToolsFor(svc, scan.model)).Ok? && round.clientError.None? ==>
              p == Ready(IsMistralModel(svc, scan.model), Route(svc, scan.messages, scan.model, ToolsFor(svc, scan.model)).value)
  {
  }

  /** `chat_gpt_request(query, history, ...)` with the bot's `_last_edit_time` at
      `lastEdit`, over the rounds given. */
  function RequestTrace(cfg: Config, svc: Service, env: Env, lastEdit: Option<int>, query: string,
                        history: seq<Message>, sender: string, rounds: seq<Round>): Trace
    decreases |rounds|, 1
  {
    if rounds == [] then Trace([], lastEdit, OutOfRounds)
    else
      match PrepareRound(cfg, svc, lastEdit, query, history, sender, rounds[0])
      case Stopped(t) => t
      case Ready(isMistral, req) =>
        var sr := RunStream(InitialStream(lastEdit), rounds[0].chunks, isMistral);
        if sr.fault.Some? then Trace(sr.state.edits, sr.state.lastEdit, Failed(sr.fault.value))
        else AfterStream(cfg, svc, env, sender, req.messages, sr.state, rounds[1..])
  }

  /** What follows a stream that raised nothing (bot.py:188-237): the plain final edit when
      no tool was called; otherwise the status line, the calls, and the continuation with
      `messages[:-1]` and an empty query over the remaining rounds. */
  function AfterStream(cfg: Config, svc: Service, env: Env, sender: string, messages: seq<Message>,
                       st: StreamState, rest: seq<Round>): Trace
    requires StateValid(st)
    decreases |rest| + 1, 0
  {
    if |st.acc.functions.keys| == 0 then
      Trace(st.edits + [Join(st.parts)], st.lastEdit, Answered(Join(st.parts)))
    else
      match StatusLine(st.acc.functions, env)
      case Err(e) => Trace(st.edits, st.lastEdit, Failed(e))
      case Ok(status) =>
        match Dispatch(st.acc.functions, sender, env, messages)
        case Err(e) => Trace(st.edits + [status], st.lastEdit, Failed(e))
        case Ok(all) =>
          var next := RequestTrace(cfg, svc, env, st.lastEdit, "", Continuation(all), sender, rest);
          Trace(st.edits + [status] + next.texts, next.lastEdit, next.outcome)
  }

  /** An answered request's last text written into the reply is the answer. */
  predicate EndsWithAnswer(t: Trace)
  {
    t.outcome.Answered? ==> t.texts != [] && t.texts[|t.texts| - 1] == t.outcome.text
  }

  /** However many tool rounds it takes, a request that ends with an answer has made the
      plain answer its final edit. */
  lemma {:induction false} RequestEndsWithAnswer(cfg: Config, svc: Service, env: Env, lastEdit: Option<int>,
                                                 query: string, history: seq<Message>, sender: string, rounds: seq<Round>)
    ensures EndsWithAnswer(RequestTrace(cfg, svc, env, lastEdit, query, history, sender, rounds))
    decreases |rounds|, 1
  {
    if rounds != [] {
      match PrepareRound(cfg, svc, lastEdit, query, history, sender, rounds[0])
      case Stopped(t) =>
      case Ready(isMistral, req) =>
        var sr := RunStream(InitialStream(lastEdit), rounds[0].chunks, isMistral);
        if sr.fault.None? {
          AfterStreamEndsWithAnswer(cfg, svc, env, sender, req.messages, sr.state, rounds[1..]);
        }
    }
  }

  lemma {:induction false} AfterStreamEndsWithAnswer(cfg: Config, svc: Service, env: Env, sender: string,
                                                     messages: seq<Message>, st: StreamState, rest: seq<Round>)
    requires StateValid(st)
    ensures EndsWithAnswer(AfterStream(cfg, svc, env, sender, messages, st, rest))
    decreases |rest| + 1, 0
  {
    var t := AfterStream(cfg, svc, env, sender, messages, st, rest);
    if |st.acc.functions.keys| == 0 {
      assert t == Trace(st.edits + [Join(st.parts)], st.lastEdit, Answered(Join(st.parts)));
    } else {
      match StatusLine(st.acc.functions, env)
      case Err(e) =>
        assert t.outcome == Failed(e);
      case Ok(status) =>
        match Dispatch(st.acc.functions, sender, env, messages)
        case Err(e) =>
          assert t.outcome == Failed(e);
        case Ok(all) =>
          var next := RequestTrace(cfg, svc, env, st.lastEdit, "", Continuation(all), sender, rest);
          assert t == Trace(st.edits + [status] + next.texts, next.lastEdit, next.outcome);
          RequestEndsWithAnswer(cfg, svc, env, st.lastEdit, "", Continuation(all), sender, rest);
          if next.outcome.Answered? {
            LastOfAppend(st.edits + [status], next.texts);
          }
    }
  }

  /** A round that streams without an exception and asks for no tool answers with the
      concatenated deltas of its stream, after the throttled edits. */
  lemma DirectAnswer(cfg: Config, svc: Service, env: Env, lastEdit: Option<int>, query: string,
                     history: seq<Message>, sender: string, rounds: seq<Round>)
    requires rounds != []
    requires PrepareRound(cfg, svc, lastEdit, query, history, sender, rounds[0]).Ready?
    requires var p := PrepareRound(cfg, svc, lastEdit, query, history, sender, rounds[0]);
             var sr := RunStream(InitialStream(lastEdit), rounds[0].chunks, p.isMistral);
             sr.fault.None? && sr.state.acc.functions.keys == []
    ensures var p := PrepareRound(cfg, svc, lastEdit, query, history, sender, rounds[0]);
            var sr := RunStream(InitialStream(lastEdit), rounds[0].chunks, p.isMistral);
            var t := RequestTrace(cfg, svc, env, lastEdit, query, history, sender, rounds);
            && t.outcome == Answered(DeltaText(rounds[0].chunks, p.isMistral))
            && t.texts == sr.state.edits + [DeltaText(rounds[0].chunks, p.isMistral)]
  {
    var p := PrepareRound(cfg, svc, lastEdit, query, history, sender, rounds[0]);
    RunStreamText(InitialStream(lastEdit), rounds[0].chunks, p.isMistral);
    AppendNothing(DeltaText(rounds[0].chunks, p.isMistral));
  }

  /** No '!' anywhere: no override token. */
  lemma NoBangNoToken(s: string)
    requires '!' !in s
    ensures FindToken(s, 0).None?
  {
  }

  /** None of the fixed text of the developer message holds a `!`. */
  lemma PromptTextNoBang()
    ensures '!' !in PromptLead && '!' !in PromptMiddle
  {
    PromptRoleNoBang();
    PromptNameNoBang();
    PromptUnitsNoBang();
    PromptMarkdownNoBang();
    assert '!' !in PromptToday && '!' !in PromptMiddle;
    assert PromptLead == PromptRole + PromptName + PromptUnits + PromptMarkdown + PromptToday;
  }

  // Each fixed piece of the developer message is free of `!`.
  lemma PromptRoleNoBang()
    ensures '!' !in PromptRole
  {
  }

  lemma PromptNameNoBang()
    ensures '!' !in PromptName
  {
  }

  lemma PromptUnitsNoBang()
    ensures '!' !in PromptUnits
  {
  }

  lemma PromptMarkdownNoBang()
    ensures '!' !in PromptMarkdown
  {
  }

  /** The developer message carries no override token unless the date or time does. */
  lemma DeveloperPromptNoToken(date: string, time: string)
    requires '!' !in date && '!' !in time
    ensures FindToken(DeveloperPrompt(date, time), 0).None?
  {
    PromptTextNoBang();
    var d := DeveloperPrompt(date, time);
    assert '!' !in d by {
      assert d == PromptLead + date + PromptMiddle + time + ".";
    }
    NoBangNoToken(d);
  }

  /** The continuation after a round of tool calls (bot.py:234) sends the history
      `messages[:-1]`, which keeps the first call's assistant message with content None.
      Unless a message before it carries an override token, the override scan of the next
      round reaches that message and raises: the request ends with that exception and
      writes nothing more. */
  lemma ContinuationRaises(cfg: Config, svc: Service, env: Env, lastEdit: Option<int>, sender: string,
                           fns: OrderedMaps.OrderedMap<Collected>, messages: seq<Message>, rest: seq<Round>)
    requires OrderedMaps.Valid(fns) && |fns.keys| > 0
    requires Dispatch(fns, sender, env, messages).Ok?
    requires rest != [] && '!' !in rest[0].date && '!' !in rest[0].time
    requires forall j :: 0 <= j < |messages| ==> NoToken(messages[j])
    ensures RequestTrace(cfg, svc, env, lastEdit, "", Continuation(Dispatch(fns, sender, env, messages).value), sender, rest)
         == Trace([], lastEdit, Failed(NoneContentSearched(|messages| + 1)))
  {
    var c := Continuation(Dispatch(fns, sender, env, messages).value);
    ContinuationFirstCall(fns, sender, env, messages);
    var a := Assemble(DeveloperPrompt(rest[0].date, rest[0].time), c, SenderHandle(sender), "");
    DeveloperPromptNoToken(rest[0].date, rest[0].time);
    forall j | 0 <= j < |messages| + 1
      ensures NoToken(a[j])
    {
      if j > 0 {
        assert a[j] == c[j - 1] == c[..|messages|][j - 1];
      }
    }
    assert a[|messages| + 1] == c[|messages|];
    ScanReachesNone(a, cfg.model, |messages| + 1);
  }

  /** A round of tool calls that gets through its calls writes the status line and then
      ends with the exception of the continuation's override scan, when there is a next
      round and no earlier message carries a token. */
  lemma ToolRoundRaises(cfg: Config, svc: Service, env: Env, sender: string, messages: seq<Message>,
                        st: StreamState, rest: seq<Round>)
    requires StateValid(st) && |st.acc.functions.keys| > 0
    requires StatusLine(st.acc.functions, env).Ok?
    requires Dispatch(st.acc.functions, sender, env, messages).Ok?
    requires rest != [] && '!' !in rest[0].date && '!' !in rest[0].time
    requires forall j :: 0 <= j < |messages| ==> NoToken(messages[j])
    ensures AfterStream(cfg, svc, env, sender, messages, st, rest)
         == Trace(st.edits + [StatusLine(st.acc.functions, env).value], st.lastEdit,
                  Failed(NoneContentSearched(|messages| + 1)))
  {
    ContinuationRaises(cfg, svc, env, st.lastEdit, sender, st.acc.functions, messages, rest);
    AppendNothing(st.edits + [StatusLine(st.acc.functions, env).value]);
  }

  /** An incoming event as `on_message` and `chat_gpt_handler` read it. */
  datatype Incoming = Incoming(
    sender: string,
    isText: bool,
    body: string,
    formattedBody: Option<string>,
    replyTo: Option<string>)

  /** What a handler did. */
  datatype Handled =
    | Ignored
    | Prompted                            // replied asking for a message
    | HistoryFailed(error: WalkError)     // `get_event` raised, or the chain loops
    | Requested(outcome: Outcome)

  const EmptyQueryReply: string := "Please provide a message to chat with ChatGPT."

  const Placeholder: string := "…"

  class ChatBot {
    const config: Config
    const service: Service
    /** `self.max_messages` */
    const MaxMessages: nat := 100
    /** `self.assistant_replies` */
    var replies: OrderedMaps.OrderedMap<string>
    /** `self._last_edit_time` (absent until the first streamed edit) in milliseconds. */
    var lastEditTime: Option<int>
    /** Every edit handed to `client.send_message`, in order. */
    var edits: seq<SentEdit>
    /** Every text passed to `evt.reply`, in order. */
    var repliesSent: seq<string>

    ghost predicate Valid()
      reads this
    {
      OrderedMaps.Valid(replies) && |replies.keys| <= MaxMessages
    }

    constructor (config: Config, service: Service)
      ensures Valid()
      ensures this.config == config && this.service == service
      ensures replies.keys == [] && lastEditTime.None? && edits == [] && repliesSent == []
    {
      this.config := config;
      this.service := service;
      replies := OrderedMaps.Empty();
      lastEditTime := None;
      edits := [];
      repliesSent := [];
    }

    /** `_edit` (bot.py:325-345): send the edit and record its text, dropping the earliest
        recorded reply once there are more than `max_messages` (CacheStores, CacheOverwrite
        and CacheEvictsOldest state what that does to the record). */
    method Edit(eventId: string, text: string)
      requires Valid()
      modifies this
      ensures Valid()
      ensures replies == CachePut(old(replies), eventId, text, MaxMessages)
      ensures edits == old(edits) + [SentEdit(eventId, text)]
      ensures lastEditTime == old(lastEditTime) && repliesSent == old(repliesSent)
    {
      edits := edits + [SentEdit(eventId, text)];
      replies := OrderedMaps.Put(replies, eventId, text);
      if OrderedMaps.Size(replies) > MaxMessages {
        replies := OrderedMaps.RemoveFirst(replies);
      }
    }

    /** One edit of the streamed reply at clock reading `now`. `log0` and `replies0` are the
        edit log and the record before the stream began. */
    method EmitEdit(eventId: string, s: StreamState, text: string, now: int,
                    ghost log0: seq<SentEdit>, ghost replies0: OrderedMaps.OrderedMap<string>)
      returns (r: StreamState)
      requires Valid() && OrderedMaps.Valid(replies0)
      requires edits == log0 + Stamp(eventId, s.edits)
      requires replies == ApplyEdits(replies0, Stamp(eventId, s.edits), MaxMessages)
      modifies this
      ensures Valid()
      ensures r == s.(lastEdit := Some(now), edits := s.edits + [text])
      ensures lastEditTime == Some(now)
      ensures edits == log0 + Stamp(eventId, r.edits)
      ensures replies == ApplyEdits(replies0, Stamp(eventId, r.edits), MaxMessages)
      ensures repliesSent == old(repliesSent)
    {
      ApplyOneMore(replies0, eventId, s.edits, text, MaxMessages);
      LogOneMore(log0, eventId, s.edits, text);
      lastEditTime := Some(now);
      Edit(eventId, text);
      return s.(lastEdit := Some(now), edits := s.edits + [text]);
    }

    /** The throttle of the chunk loop (bot.py:172-186): edit the reply with the text so
        far when a second has passed since the last edit or the stream finishes. */
    method ThrottleEdit(eventId: string, s: StreamState, finish: Option<string>, now: int,
                        ghost log0: seq<SentEdit>, ghost replies0: OrderedMaps.OrderedMap<string>)
      returns (r: StreamState)
      requires Valid() && OrderedMaps.Valid(replies0)
      requires lastEditTime == s.lastEdit
      requires edits == log0 + Stamp(eventId, s.edits)
      requires replies == ApplyEdits(replies0, Stamp(eventId, s.edits), MaxMessages)
      modifies this
      ensures Valid()
      ensures r == Throttle(s, finish, now)
      ensures lastEditTime == r.lastEdit
      ensures edits == log0 + Stamp(eventId, r.edits)
      ensures replies == ApplyEdits(replies0, Stamp(eventId, r.edits), MaxMessages)
      ensures repliesSent == old(repliesSent)
    {
      if ShouldEdit(lastEditTime, now, finish) {
        r := EmitEdit(eventId, s, EditText(s.parts, finish), now, log0, replies0);
      } else {
        r := s;
      }
    }

    /** One pass of the chunk loop of `chat_gpt_request` (bot.py:153-186) for an element
        already normalised: collect its tool-call fragments and delta, then the throttle. */
    method HandleChunk(eventId: string, st: StreamState, p: Processed, now: int,
                       ghost log0: seq<SentEdit>, ghost replies0: OrderedMaps.OrderedMap<string>)
      returns (r: Result<StreamState, Fault>)
      requires Valid() && StateValid(st) && OrderedMaps.Valid(replies0)
      requires lastEditTime == st.lastEdit
      requires edits == log0 + Stamp(eventId, st.edits)
      requires replies == ApplyEdits(replies0, Stamp(eventId, st.edits), MaxMessages)
      modifies this
      ensures Valid()
      ensures r == Step(st, p, now)
      ensures r.Err? ==> unchanged(this)
      ensures r.Ok? ==>
        && lastEditTime == r.value.lastEdit
        && edits == log0 + Stamp(eventId, r.value.edits)
        && replies == ApplyEdits(replies0, Stamp(eventId, r.value.edits), MaxMessages)
      ensures repliesSent == old(repliesSent)
    {
      var absorbed := AbsorbChunk(st, p);
      if absorbed.Err? {
        return Err(absorbed.error);
      }
      var s := ThrottleEdit(eventId, absorbed.value, p.finishReason, now, log0, replies0);
      return Ok(s);
    }

    /** The chunk loop of `chat_gpt_request` (bot.py:148-186). */
    method StreamReply(eventId: string, chunks: seq<TimedChunk>, isMistral: bool) returns (r: StreamResult)
      requires Valid()
      modifies this
      ensures Valid()
      ensures r == RunStream(InitialStream(old(lastEditTime)), chunks, isMistral)
      ensures lastEditTime == r.state.lastEdit
      ensures edits == old(edits) + Stamp(eventId, r.state.edits)
      ensures replies == ApplyEdits(old(replies), Stamp(eventId, r.state.edits), MaxMessages)
      ensures repliesSent == old(repliesSent)
    {
      var st := InitialStream(lastEditTime);
      ghost var init := st;
      assert Stamp(eventId, []) == [];
      var i := 0;
      while i < |chunks|
        invariant 0 <= i <= |chunks| && Valid() && StateValid(st)
        invariant RunStream(init, chunks[..i], isMistral) == StreamResult(st, None)
        invariant lastEditTime == st.lastEdit
        invariant edits == old(edits) + Stamp(eventId, st.edits)
        invariant replies == ApplyEdits(old(replies), Stamp(eventId, st.edits), MaxMessages)
        invariant repliesSent == old(repliesSent)
      {
        RunStreamNext(init, chunks, isMistral, i);
        var processed := ProcessChunk(chunks[i].chunk, isMistral);
        if processed.Err? {
          RunStreamStops(init, chunks, isMistral, i + 1);
          return StreamResult(st, Some(processed.error));
        }
        var next := HandleChunk(eventId, st, processed.value, chunks[i].now, old(edits), old(replies));
        if next.Err? {
          RunStreamStops(init, chunks, isMistral, i + 1);
          return StreamResult(st, Some(next.error));
        }
        st := next.value;
        i := i + 1;
      }
      WholePrefix(chunks);
      return StreamResult(st, None);
    }

    /** bot.py:59-146: the request up to the stream; a request that stops there writes its
        one text, if any, into the reply. */
    method PrepareRequest(query: string, history: seq<Message>, sender: string, eventId: string, round: Round)
      returns (p: Prepared)
      requires Valid()
      modifies this
      ensures Valid()
      ensures p == PrepareRound(config, service, old(lastEditTime), query, history, sender, round)
      ensures p.Ready? ==> unchanged(this)
      ensures p.Stopped? ==>
        && lastEditTime == old(lastEditTime)
        && edits == old(edits) + Stamp(eventId, p.trace.texts)
        && replies == ApplyEdits(old(replies), Stamp(eventId, p.trace.texts), MaxMessages)
        && repliesSent == old(repliesSent)
    {
      var filteredName := SenderHandle(sender);
      var messages := Assemble(DeveloperPrompt(round.date, round.time), history, filteredName, query);
      assert messages == RoundMessages(query, history, sender, round);
      var scan := ScanForOverride(messages, config.model);
      if scan.ScanRaised? {
        assert Stamp(eventId, []) == [];
        return Stopped(Trace([], lastEditTime, Failed(NoneContentSearched(scan.index))));
      }
      var model := scan.model;
      messages := scan.messages;
      var isMistral := IsMistralModel(service, model);
      var request := CreateChatCompletion(service, messages, model, ToolsFor(service, model));
      if request.Err? {
        ApplyOneEdit(replies, eventId, request.error, MaxMessages);
        Edit(eventId, request.error);
        return Stopped(Trace([request.error], lastEditTime, Refused(request.error)));
      }
      if round.clientError.Some? {
        var text := ClientErrorText(round.clientError.value);
        ApplyOneEdit(replies, eventId, text, MaxMessages);
        Edit(eventId, text);
        return Stopped(Trace([text], lastEditTime, Refused(text)));
      }
      // The Mistral rewrite changed the caller's dicts in place: the request carries them.
      return Ready(isMistral, request.value);
    }

    /** `chat_gpt_request` (bot.py:55-237). Each call, the recursive continuation included,
        takes the next round. */
    method ChatGptRequest(query: string, history: seq<Message>, sender: string, eventId: string,
                          rounds: seq<Round>, env: Env) returns (outcome: Outcome)
      requires Valid()
      modifies this
      decreases |rounds|, 1
      ensures Valid()
      ensures outcome == RequestTrace(config, service, env, old(lastEditTime), query, history, sender, rounds).outcome
      ensures lastEditTime == RequestTrace(config, service, env, old(lastEditTime), query, history, sender, rounds).lastEdit
      ensures edits == old(edits) + Stamp(eventId, RequestTrace(config, service, env, old(lastEditTime), query, history, sender, rounds).texts)
      ensures replies == ApplyEdits(old(replies), Stamp(eventId, RequestTrace(config, service, env, old(lastEditTime), query, history, sender, rounds).texts), MaxMessages)
      ensures repliesSent == old(repliesSent)
    {
      if rounds == [] {
        assert Stamp(eventId, []) == [];
        return OutOfRounds;
      }
      var prepared := PrepareRequest(query, history, sender, eventId, rounds[0]);
      if prepared.Stopped? {
        return prepared.trace.outcome;
      }
      var streamed := StreamReply(eventId, rounds[0].chunks, prepared.isMistral);
      if streamed.fault.Some? {
        return Failed(streamed.fault.value);
      }
      outcome := FinishRound(eventId, sender, prepared.req.messages, streamed.state, rounds[1..], env, old(edits), old(replies));
    }

    /** The tool phase or the final edit after the stream (bot.py:188-237); `log0` and
        `replies0` are the edit log and the record before the request began. */
    method FinishRound(eventId: string, sender: string, messages: seq<Message>, st: StreamState,
                       rest: seq<Round>, env: Env,
                       ghost log0: seq<SentEdit>, ghost replies0: OrderedMaps.OrderedMap<string>)
      returns (outcome: Outcome)
      requires Valid() && StateValid(st) && OrderedMaps.Valid(replies0)
      requires lastEditTime == st.lastEdit
      requires edits == log0 + Stamp(eventId, st.edits)
      requires replies == ApplyEdits(replies0, Stamp(eventId, st.edits), MaxMessages)
      modifies this
      decreases |rest| + 1, 0
      ensures Valid()
      ensures var t := AfterStream(config, service, env, sender, messages, st, rest);
        && outcome == t.outcome
        && lastEditTime == t.lastEdit
        && edits == log0 + Stamp(eventId, t.texts)
        && replies == ApplyEdits(replies0, Stamp(eventId, t.texts), MaxMessages)
      ensures repliesSent == old(repliesSent)
    {
      var functions := st.acc.functions;
      if |functions.keys| == 0 {
        var full := Join(st.parts);
        ApplyOneMore(replies0, eventId, st.edits, full, MaxMessages);
        LogOneMore(log0, eventId, st.edits, full);
        Edit(eventId, full);
        return Answered(full);
      }
      var status := BuildStatusLine(functions, env);
      if status.Err? {
        return Failed(status.error);
      }
      ApplyOneMore(replies0, eventId, st.edits, status.value, MaxMessages);
      LogOneMore(log0, eventId, st.edits, status.value);
      Edit(eventId, status.value);
      var dispatched := DispatchCalls(functions, sender, env, messages);
      if dispatched.Err? {
        return Failed(dispatched.error);
      }
      outcome := ChatGptRequest("", Continuation(dispatched.value), sender, eventId, rest, env);
      ghost var next := RequestTrace(config, service, env, st.lastEdit, "", Continuation(dispatched.value), sender, rest);
      LogAppend(log0, eventId, st.edits + [status.value], next.texts);
      StampAppend(eventId, st.edits + [status.value], next.texts);
      ApplyEditsAppend(replies0, Stamp(eventId, st.edits + [status.value]), Stamp(eventId, next.texts), MaxMessages);
    }

    /** `get_conversation_history` (bot.py:239-272): walk the reply chain from `eventId`
        back to its start, putting each message event in front. */
    method GetConversationHistory(events: map<string, Event>, eventId: string)
      returns (r: Result<seq<Message>, WalkError>)
      requires Valid()
      ensures r == Walk(events, replies, config.botName, eventId, {})
    {
      var history: seq<Message> := [];
      var visited: set<string> := {};
      var current := eventId;
      PrependNothing(Walk(events, replies, config.botName, eventId, {}));
      while current != ""
        invariant current !in visited && visited <= events.Keys
        invariant Walk(events, replies, config.botName, eventId, {})
               == Prepend(Walk(events, replies, config.botName, current, visited), history)
        decreases events.Keys - visited
      {
        if current !in events {
          return Err(FetchFailed(current));
        }
        var event := events[current];
        var here := if event.isMessage then [Entry(event, current, replies, config.botName)] else [];
        var next := NextId(event);
        if next.None? {
          assert [] + here + history == here + history;
          return Ok(here + history);
        }
        if next.value in visited || next.value == current {
          return Err(Cycle(next.value));
        }
        WalkStep(events, replies, config.botName, current, visited);
        PrependTwice(Walk(events, replies, config.botName, next.value, visited + {current}), here, history);
        history := here + history;
        visited := visited + {current};
        current := next.value;
      }
      assert [] + history == history;
      return Ok(history);
    }

    /** The trigger of `on_message` (bot.py:308-316): a text message that mentions the bot
        or replies to one of its recorded replies; the query is the shown text with the
        mentions removed. */
    function Trigger(evt: Incoming): (q: Option<string>)
      reads this
    {
      var shown := ShownText(evt.formattedBody, evt.body);
      var target := ReplyTarget(evt.replyTo);
      if evt.isText && (ContainsMention(shown, config.botName) || (target.Some? && target.value in replies.values))
      then Some(StripMentions(shown, config.botName))
      else None
    }

    /** The history a handler passes on: the walk from the reply target when the event is a
        reply, else none. */
    function HistoryFor(evt: Incoming, events: map<string, Event>): Result<seq<Message>, WalkError>
      reads this
    {
      var target := ReplyTarget(evt.replyTo);
      if target.Some? then Walk(events, replies, config.botName, target.value, {}) else Ok([])
    }

    /** The shared tail of both handlers: fetch the history when the event is a reply, send
        the "…" placeholder, and run the request into it. */
    method Respond(evt: Incoming, query: string, events: map<string, Event>, replyId: string,
                   rounds: seq<Round>, env: Env) returns (h: Handled)
      requires Valid()
      modifies this
      ensures Valid()
      ensures var walked := old(HistoryFor(evt, events));
        && (walked.Err? ==> h == HistoryFailed(walked.error) && unchanged(this))
        && (walked.Ok? ==>
              var t := RequestTrace(config, service, env, old(lastEditTime), query, walked.value, evt.sender, rounds);
              && h == Requested(t.outcome)
              && repliesSent == old(repliesSent) + [Placeholder]
              && edits == old(edits) + Stamp(replyId, t.texts)
              && replies == ApplyEdits(old(replies), Stamp(replyId, t.texts), MaxMessages)
              && lastEditTime == t.lastEdit)
      ensures h.Requested? || h.HistoryFailed?
      ensures h.Requested? ==>
        old(HistoryFor(evt, events)).Ok? &&
        h.outcome == RequestTrace(config, service, env, old(lastEditTime), query,
                                  old(HistoryFor(evt, events)).value, evt.sender, rounds).outcome
    {
      var history: seq<Message> := [];
      var target := ReplyTarget(evt.replyTo);
      if target.Some? {
        var walked := GetConversationHistory(events, target.value);
        if walked.Err? {
          return HistoryFailed(walked.error);
        }
        history := walked.value;
      }
      repliesSent := repliesSent + [Placeholder];
      var outcome := ChatGptRequest(query, history, evt.sender, replyId, rounds, env);
      return Requested(outcome);
    }

    /** `on_message` (bot.py:297-323). `replyId` is the id `evt.reply` returns. */
    method OnMessage(evt: Incoming, events: map<string, Event>, replyId: string, rounds: seq<Round>, env: Env)
      returns (h: Handled)
      requires Valid()
      modifies this
      ensures Valid()
      ensures h.Ignored? <==> old(Trigger(evt)).None?
      ensures h.Ignored? ==> unchanged(this)
      ensures !h.Prompted?
      ensures h.Requested? ==> repliesSent == old(repliesSent) + [Placeholder]
      ensures h.Requested? ==>
        old(HistoryFor(evt, events)).Ok? &&
        h.outcome == RequestTrace(config, service, env, old(lastEditTime), old(Trigger(evt)).value,
                                  old(HistoryFor(evt, events)).value, evt.sender, rounds).outcome
    {
      var query := Trigger(evt);
      if query.None? {
        return Ignored;
      }
      h := Respond(evt, query.value, events, replyId, rounds, env);
    }

    /** `chat_gpt_handler`, the `!chatgpt`/`!c` command (bot.py:274-295). */
    method ChatGptHandler(evt: Incoming, rawQuery: string, events: map<string, Event>, replyId: string,
                          rounds: seq<Round>, env: Env) returns (h: Handled)
      requires Valid()
      modifies this
      ensures Valid()
      ensures h.Prompted? <==> Strip(rawQuery) == ""
      ensures h.Prompted? ==> repliesSent == old(repliesSent) + [EmptyQueryReply] && edits == old(edits)
                              && replies == old(replies) && lastEditTime == old(lastEditTime)
      ensures !h.Ignored?
      ensures h.Requested? ==>
        old(HistoryFor(evt, events)).Ok? &&
        h.outcome == RequestTrace(config, service, env, old(lastEditTime), Strip(rawQuery),
                                  old(HistoryFor(evt, events)).value, evt.sender, rounds).outcome
    {
      var query := Strip(rawQuery);
      if query == "" {
        repliesSent := repliesSent + [EmptyQueryReply];
        return Prompted;
      }
      h := Respond(evt, query, events, replyId, rounds, env);
    }
  }
}
