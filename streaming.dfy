/**
  The chunk loop of `chat_gpt_request` (chatgpt/bot.py:148-186): tool-call fragments
  gathered into `collected_functions`, text deltas into `collected_messages`, and the
  throttled edits. Time is an integer number of milliseconds given with each chunk.
 */
module Streaming {
  import opened Wrappers
  import opened PyStrings
  import opened ChatTypes
  import opened OrderedMaps
  import opened AIService
  import opened SeqFacts

  /** An entry `{"name": ..., "arguments": ...}` of `collected_functions`. */
  datatype Collected = Collected(name: string, arguments: string)

  /** `collected_functions` and the local `tool_call_id` (None while it is unbound). */
  datatype Accumulator = Accumulator(functions: OrderedMap<Collected>, currentId: Option<string>)

  function EmptyAccumulator(): (acc: Accumulator)
    ensures Valid(acc.functions) && acc.functions.keys == []
  {
    Accumulator(Empty(), None)
  }

  /** The id a fragment applies to: its own, or the one carried from before. */
  function TargetId(acc: Accumulator, f: Fragment): Option<string>
  {
    if f.id.Some? then f.id else acc.currentId
  }

  /** One `tool_call` of a chunk (bot.py:159-167). */
  function Ingest(acc: Accumulator, f: Fragment): (r: Result<Accumulator, Fault>)
    requires Valid(acc.functions)
    ensures r.Ok? ==> Valid(r.value.functions)
  {
    var cur := TargetId(acc, f);
    if (f.name.Some? || f.arguments.Some?) && cur.None? then Err(UnboundToolCallId)
    else if f.name.None? && f.arguments.None? then Ok(Accumulator(acc.functions, cur))
    else
      var named := if f.name.Some? then Put(acc.functions, cur.value, Collected(f.name.value, "")) else acc.functions;
      if f.arguments.None? then Ok(Accumulator(named, cur))
      else if cur.value !in named.values then Err(MissingToolEntry(cur.value))
      else
        var entry := named.values[cur.value];
        Ok(Accumulator(Put(named, cur.value, entry.(arguments := entry.arguments + f.arguments.value)), cur))
  }

  /** What one `tool_call` does: a fragment without id or name before any id raises; one
      with a name (re)starts the entry of its id; one with only arguments appends them to
      the entry of the current id, raising when that entry is missing; other entries are
      untouched. */
  lemma IngestSpec(acc: Accumulator, f: Fragment)
    requires Valid(acc.functions)
    ensures var r := Ingest(acc, f);
      && (r.Ok? ==> r.value.currentId == TargetId(acc, f))
      && (r == Err(UnboundToolCallId) <==> (f.name.Some? || f.arguments.Some?) && TargetId(acc, f).None?)
      && (r.Ok? && f.name.Some? ==>
        var k := TargetId(acc, f).value;
        && k in r.value.functions.values
        && r.value.functions.values[k] == Collected(f.name.value, if f.arguments.Some? then f.arguments.value else "")
        && r.value.functions.keys == (if k in acc.functions.values then acc.functions.keys else acc.functions.keys + [k]))
      && (r.Ok? && f.name.None? && f.arguments.Some? ==>
        var k := TargetId(acc, f).value;
        && k in acc.functions.values && k in r.value.functions.values
        && r.value.functions.values[k] == acc.functions.values[k].(arguments := acc.functions.values[k].arguments + f.arguments.value)
        && r.value.functions.keys == acc.functions.keys)
      && (r.Ok? && f.name.None? && f.arguments.None? ==> r.value.functions == acc.functions)
      && (r.Ok? ==> forall k :: Some(k) != TargetId(acc, f) ==>
        (k in r.value.functions.values <==> k in acc.functions.values)
        && (k in acc.functions.values ==> r.value.functions.values[k] == acc.functions.values[k]))
      && (r.Err? && r != Err(UnboundToolCallId) ==>
        f.name.None? && f.arguments.Some? && r == Err(MissingToolEntry(TargetId(acc, f).value)))
  {
  }

  /** All fragments of one chunk, in order, stopping at the first that raises. */
  function IngestAll(acc: Accumulator, fs: seq<Fragment>): (r: Result<Accumulator, Fault>)
    requires Valid(acc.functions)
    ensures r.Ok? ==> Valid(r.value.functions)
  {
    if fs == [] then Ok(acc)
    else
      match IngestAll(acc, fs[..|fs| - 1])
      case Err(e) => Err(e)
      case Ok(a) => Ingest(a, fs[|fs| - 1])
  }

  /** The `for tool_call in tool_calls` loop. */
  method AccumulateFragments(acc: Accumulator, fs: seq<Fragment>) returns (r: Result<Accumulator, Fault>)
    requires Valid(acc.functions)
    ensures r == IngestAll(acc, fs)
  {
    var a := acc;
    var i := 0;
    while i < |fs|
      invariant 0 <= i <= |fs| && Valid(a.functions)
      invariant IngestAll(acc, fs[..i]) == Ok(a)
    {
      assert fs[..i + 1][..i] == fs[..i];
      var next := Ingest(a, fs[i]);
      if next.Err? {
        assert IngestAll(acc, fs[..i + 1]) == next;
        IngestAllStops(acc, fs, i + 1);
        return next;
      }
      a := next.value;
      i := i + 1;
    }
    assert fs[..i] == fs;
    return Ok(a);
  }

  lemma {:induction false} IngestAllStops(acc: Accumulator, fs: seq<Fragment>, n: nat)
    requires Valid(acc.functions) && n <= |fs|
    requires IngestAll(acc, fs[..n]).Err?
    ensures IngestAll(acc, fs) == IngestAll(acc, fs[..n])
    decreases |fs| - n
  {
    if n < |fs| {
      assert fs[..n + 1][..n] == fs[..n];
      IngestAllStops(acc, fs, n + 1);
    } else {
      assert fs[..n] == fs;
    }
  }

  /** The argument text a fragment sequence carries, in arrival order. */
  function ArgumentText(fs: seq<Fragment>): string
  {
    if fs == [] then ""
    else ArgumentText(fs[..|fs| - 1]) + (if fs[|fs| - 1].arguments.Some? then fs[|fs| - 1].arguments.value else "")
  }

  /** A fragment continuing call `k`: its id is null or `k`, and it carries no name. */
  ghost predicate Continues(f: Fragment, k: string)
  {
    (f.id.None? || f.id == Some(k)) && f.name.None?
  }

  /** A call named by its first fragment and continued by the rest assembles to that name
      with all the argument text concatenated in arrival order. */
  lemma {:induction false} AssembleCall(acc: Accumulator, k: string, name: string, fs: seq<Fragment>)
    requires Valid(acc.functions)
    requires |fs| > 0 && fs[0].id == Some(k) && fs[0].name == Some(name)
    requires forall i :: 1 <= i < |fs| ==> Continues(fs[i], k)
    ensures IngestAll(acc, fs).Ok?
    ensures k in IngestAll(acc, fs).value.functions.values
    ensures IngestAll(acc, fs).value.functions.values[k] == Collected(name, ArgumentText(fs))
    ensures IngestAll(acc, fs).value.currentId == Some(k)
    ensures IngestAll(acc, fs).value.functions.keys
         == if k in acc.functions.values then acc.functions.keys else acc.functions.keys + [k]
    decreases |fs|
  {
    var last := fs[|fs| - 1];
    if |fs| == 1 {
      assert fs[..0] == [];
      assert IngestAll(acc, fs) == Ingest(acc, last);
      IngestSpec(acc, last);
    } else {
      var init := fs[..|fs| - 1];
      assert init[0] == fs[0];
      assert forall i :: 1 <= i < |init| ==> init[i] == fs[i];
      AssembleCall(acc, k, name, init);
      var prev := IngestAll(acc, init).value;
      assert IngestAll(acc, fs) == Ingest(prev, last);
      IngestSpec(prev, last);
      assert ArgumentText(fs) == ArgumentText(init) + (if last.arguments.Some? then last.arguments.value else "");
    }
  }

  // ---------------------------------------------------------------------------
  // Throttled edits.
  // ---------------------------------------------------------------------------

  /** `delay = 1` second. */
  const DelayMs: int := 1000

  const Ellipsis: string := "…"

  /** Python truthiness of an optional string. */
  predicate Truthy(s: Option<string>)
  {
    s.Some? && s.value != ""
  }

  /** The chunk leads to an edit (bot.py:172-176). */
  predicate ShouldEdit(lastEdit: Option<int>, now: int, finish: Option<string>)
  {
    lastEdit.None? || now - lastEdit.value >= DelayMs || Truthy(finish)
  }

  /** The edited text: the deltas so far, with "…" while the reply is unfinished. */
  function EditText(parts: seq<string>, finish: Option<string>): (t: string)
    ensures (!Truthy(finish) || finish == Some("tool_calls")) ==> t == Join(parts) + Ellipsis
    ensures Truthy(finish) && finish != Some("tool_calls") ==> t == Join(parts)
  {
    var full := Join(parts);
    if !Truthy(finish) || finish == Some("tool_calls") then full + Ellipsis else full
  }

  /** `collected_messages`, the accumulator, `self._last_edit_time`, and the edits made. */
  datatype StreamState = StreamState(
    parts: seq<string>,
    acc: Accumulator,
    lastEdit: Option<int>,
    edits: seq<string>)

  ghost predicate StateValid(st: StreamState)
  {
    Valid(st.acc.functions)
  }

  /** One processed chunk at time `now`. */
  function Step(st: StreamState, p: Processed, now: int): (r: Result<StreamState, Fault>)
    requires StateValid(st)
    ensures r.Ok? ==> StateValid(r.value)
  {
    match Absorb(st, p)
    case Err(e) => Err(e)
    case Ok(s) => Ok(Throttle(s, p.finishReason, now))
  }

  /** What one chunk does: its delta is appended to the text; its fragments are collected,
      and the chunk raises exactly when collecting them does; the reply is edited with the
      text so far, and the clock reading kept, exactly when the throttle lets it. */
  lemma StepSpec(st: StreamState, p: Processed, now: int)
    requires StateValid(st)
    ensures var r := Step(st, p, now);
      && (r.Ok? ==> r.value.parts == st.parts + (if Truthy(p.content) then [p.content.value] else []))
      && (r.Ok? && ShouldEdit(st.lastEdit, now, p.finishReason) ==>
            r.value.lastEdit == Some(now) && r.value.edits == st.edits + [EditText(r.value.parts, p.finishReason)])
      && (r.Ok? && !ShouldEdit(st.lastEdit, now, p.finishReason) ==>
            r.value.lastEdit == st.lastEdit && r.value.edits == st.edits)
      && ((p.toolCalls.None? || p.toolCalls == Some([])) ==> r.Ok? && r.value.acc == st.acc)
      && (p.toolCalls.Some? && p.toolCalls.value != [] ==>
            match IngestAll(st.acc, p.toolCalls.value)
            case Err(e) => r == Err(e)
            case Ok(a) => r.Ok? && r.value.acc == a)
  {
  }

  /** The chunk's tool-call fragments and its delta collected (bot.py:157-170). */
  function Absorb(st: StreamState, p: Processed): (r: Result<StreamState, Fault>)
    requires StateValid(st)
    ensures r.Ok? ==> StateValid(r.value) && r.value.lastEdit == st.lastEdit && r.value.edits == st.edits
  {
    var accR := if p.toolCalls.Some? && |p.toolCalls.value| > 0 then IngestAll(st.acc, p.toolCalls.value) else Ok(st.acc);
    match accR
    case Err(e) => Err(e)
    case Ok(acc) =>
      var parts := if Truthy(p.content) then st.parts + [p.content.value] else st.parts;
      Ok(StreamState(parts, acc, st.lastEdit, st.edits))
  }

  /** The throttle (bot.py:172-186): an edit with the text so far, and the clock reading
      remembered, unless less than a second has passed and the reply is not finished. */
  function Throttle(st: StreamState, finish: Option<string>, now: int): (r: StreamState)
    ensures r.parts == st.parts && r.acc == st.acc
  {
    if ShouldEdit(st.lastEdit, now, finish) then
      st.(lastEdit := Some(now), edits := st.edits + [EditText(st.parts, finish)])
    else st
  }

  /** Collecting one chunk: the `for tool_call in tool_calls` loop and the delta. */
  method AbsorbChunk(st: StreamState, p: Processed) returns (r: Result<StreamState, Fault>)
    requires StateValid(st)
    ensures r == Absorb(st, p)
  {
    var acc := st.acc;
    if p.toolCalls.Some? && |p.toolCalls.value| > 0 {
      var next := AccumulateFragments(acc, p.toolCalls.value);
      if next.Err? {
        return Err(next.error);
      }
      acc := next.value;
    }
    var parts := st.parts;
    if Truthy(p.content) {
      parts := parts + [p.content.value];
    }
    return Ok(StreamState(parts, acc, st.lastEdit, st.edits));
  }

  /** A stream element with the clock reading taken while handling it. */
  datatype TimedChunk = TimedChunk(chunk: RawChunk, now: int)

  /** The state after a run of chunks, and the exception that ended it early, if any. */
  datatype StreamResult = StreamResult(state: StreamState, fault: Option<Fault>)

  function RunStream(st: StreamState, chunks: seq<TimedChunk>, isMistral: bool): (r: StreamResult)
    requires StateValid(st)
    ensures StateValid(r.state)
  {
    if chunks == [] then StreamResult(st, None)
    else
      var prev := RunStream(st, chunks[..|chunks| - 1], isMistral);
      var last := chunks[|chunks| - 1];
      if prev.fault.Some? then prev
      else
        match ProcessChunk(last.chunk, isMistral)
        case Err(e) => StreamResult(prev.state, Some(e))
        case Ok(p) =>
          match Step(prev.state, p, last.now)
          case Err(e) => StreamResult(prev.state, Some(e))
          case Ok(s) => StreamResult(s, None)
  }

  /** The run over one more chunk, after a run that raised nothing. */
  lemma RunStreamNext(st: StreamState, chunks: seq<TimedChunk>, isMistral: bool, i: nat)
    requires StateValid(st) && i < |chunks|
    requires RunStream(st, chunks[..i], isMistral).fault.None?
    ensures var prev := RunStream(st, chunks[..i], isMistral).state;
      RunStream(st, chunks[..i + 1], isMistral)
      == match ProcessChunk(chunks[i].chunk, isMistral)
         case Err(e) => StreamResult(prev, Some(e))
         case Ok(p) =>
           match Step(prev, p, chunks[i].now)
           case Err(e) => StreamResult(prev, Some(e))
           case Ok(s) => StreamResult(s, None)
  {
    assert chunks[..i + 1][..i] == chunks[..i];
  }

  /** Once a chunk has raised, the chunks after it are never looked at. */
  lemma {:induction false} RunStreamStops(st: StreamState, chunks: seq<TimedChunk>, isMistral: bool, n: nat)
    requires StateValid(st) && n <= |chunks|
    requires RunStream(st, chunks[..n], isMistral).fault.Some?
    ensures RunStream(st, chunks, isMistral) == RunStream(st, chunks[..n], isMistral)
    decreases |chunks| - n
  {
    if n < |chunks| {
      assert chunks[..n + 1][..n] == chunks[..n];
      RunStreamStops(st, chunks, isMistral, n + 1);
    } else {
      assert chunks[..n] == chunks;
    }
  }

  /** The text of all deltas of a run, in order. */
  function DeltaText(chunks: seq<TimedChunk>, isMistral: bool): string
  {
    if chunks == [] then ""
    else
      DeltaText(chunks[..|chunks| - 1], isMistral)
      + match ProcessChunk(chunks[|chunks| - 1].chunk, isMistral)
        case Ok(p) => if p.content.Some? then p.content.value else ""
        case Err(_) => ""
  }

  /** A run without an exception ends with a step over its last chunk, after a run of the
      others without one. */
  lemma RunStreamLast(st: StreamState, chunks: seq<TimedChunk>, isMistral: bool)
    requires StateValid(st) && chunks != []
    requires RunStream(st, chunks, isMistral).fault.None?
    ensures var prev := RunStream(st, chunks[..|chunks| - 1], isMistral);
      && prev.fault.None?
      && ProcessChunk(chunks[|chunks| - 1].chunk, isMistral).Ok?
      && var p := ProcessChunk(chunks[|chunks| - 1].chunk, isMistral).value;
         && Step(prev.state, p, chunks[|chunks| - 1].now).Ok?
         && RunStream(st, chunks, isMistral).state == Step(prev.state, p, chunks[|chunks| - 1].now).value
  {
  }

  /** Without an exception, the collected text is every delta of the stream in order. */
  lemma {:induction false} RunStreamText(st: StreamState, chunks: seq<TimedChunk>, isMistral: bool)
    requires StateValid(st)
    requires RunStream(st, chunks, isMistral).fault.None?
    ensures Join(RunStream(st, chunks, isMistral).state.parts) == Join(st.parts) + DeltaText(chunks, isMistral)
  {
    if chunks != [] {
      var init := chunks[..|chunks| - 1];
      var last := chunks[|chunks| - 1];
      RunStreamLast(st, chunks, isMistral);
      var prev := RunStream(st, init, isMistral).state;
      RunStreamText(st, init, isMistral);
      var p := ProcessChunk(last.chunk, isMistral).value;
      StepSpec(prev, p, last.now);
      var piece := if p.content.Some? then p.content.value else "";
      assert DeltaText(chunks, isMistral) == DeltaText(init, isMistral) + piece;
      var parts := RunStream(st, chunks, isMistral).state.parts;
      if Truthy(p.content) {
        JoinAppend(prev.parts, p.content.value);
        AppendAssoc(Join(st.parts), DeltaText(init, isMistral), piece);
      } else {
        assert parts == prev.parts && piece == "";
        AppendNothing(DeltaText(init, isMistral));
      }
    }
  }

  /** Edits are only ever appended: a run extends the edit list it started with. */
  lemma {:induction false} RunStreamExtendsEdits(st: StreamState, chunks: seq<TimedChunk>, isMistral: bool)
    requires StateValid(st)
    ensures st.edits <= RunStream(st, chunks, isMistral).state.edits
  {
    if chunks != [] {
      RunStreamExtendsEdits(st, chunks[..|chunks| - 1], isMistral);
    }
  }

  /** A fault-free run whose last chunk finishes with "stop" (or any reason other than
      "tool_calls") ends with an edit of the whole text, without "…". */
  lemma FinalEditPlain(st: StreamState, chunks: seq<TimedChunk>, isMistral: bool)
    requires StateValid(st) && chunks != []
    requires RunStream(st, chunks, isMistral).fault.None?
    requires ProcessChunk(chunks[|chunks| - 1].chunk, isMistral).Ok?
    requires var p := ProcessChunk(chunks[|chunks| - 1].chunk, isMistral).value;
             Truthy(p.finishReason) && p.finishReason != Some("tool_calls")
    ensures var s := RunStream(st, chunks, isMistral).state;
            |s.edits| > 0 && s.edits[|s.edits| - 1] == Join(s.parts)
  {
  }
}
