/**
  The reply-chain walk of `get_conversation_history` (chatgpt/bot.py:239-272), as
  functions over an abstract room: a map from event id to the fields of the event the walk
  reads. The walk follows `in_reply_to` backwards and puts each message event in front of
  what it has collected, so the history comes out oldest first.
 */
module History {
  import opened Wrappers
  import opened ChatTypes
  import opened OrderedMaps
  import opened Conversation

  /** What `client.get_event` yields and the walk reads: whether it is an `m.room.message`,
      the sender, `body`, `formatted_body` and the `in_reply_to` event id. */
  datatype Event = Event(
    isMessage: bool,
    sender: string,
    body: string,
    formattedBody: Option<string>,
    replyTo: Option<string>)

  /** Why the walk gives no history: `get_event` raised for an id not in the room, or the
      chain leads back to an event already visited (the loop would then never end). */
  datatype WalkError = FetchFailed(id: string) | Cycle(id: string)

  /** The `in_reply_to` event id, when there is one to follow (a non-empty id); both the
      history walk and the handlers' reply check read it this way. */
  function ReplyTarget(replyTo: Option<string>): (r: Option<string>)
    ensures r.Some? <==> replyTo.Some? && replyTo.value != ""
    ensures r.Some? ==> r == replyTo
  {
    if replyTo.Some? && replyTo.value != "" then replyTo else None
  }

  /** The event the walk fetches after `e`. */
  function NextId(e: Event): Option<string>
  {
    ReplyTarget(e.replyTo)
  }

  /** `formatted_body` if it is set and non-empty, else `body`. */
  function ShownText(formattedBody: Option<string>, body: string): string
  {
    if formattedBody.Some? && formattedBody.value != "" then formattedBody.value else body
  }

  /** The history dict one message event contributes (bot.py:257-265). */
  function Entry(e: Event, id: string, replies: OrderedMap<string>, botName: string): Message
  {
    if e.sender == botName then
      Message(Assistant, Some(SenderHandle(e.sender)), Some(Get(replies, id, e.body)), [], None)
    else
      Message(User, Some(SenderHandle(e.sender)), Some(StripMentions(ShownText(e.formattedBody, e.body), botName)), [], None)
  }

  /** The history collected from event `id` back to the start of its chain; `visited` holds
      the events already walked through. */
  function Walk(events: map<string, Event>, replies: OrderedMap<string>, botName: string, id: string, visited: set<string>)
    : Result<seq<Message>, WalkError>
    requires id !in visited
    decreases events.Keys - visited
  {
    if id == "" then Ok([])
    else if id !in events then Err(FetchFailed(id))
    else
      var e := events[id];
      var here := if e.isMessage then [Entry(e, id, replies, botName)] else [];
      match NextId(e)
      case None => Ok(here)
      case Some(next) =>
        if next in visited || next == id then Err(Cycle(next))
        else
          match Walk(events, replies, botName, next, visited + {id})
          case Err(err) => Err(err)
          case Ok(older) => Ok(older + here)
  }

  /** The ids of the events the walk fetches, oldest first. */
  function WalkIds(events: map<string, Event>, id: string, visited: set<string>): Result<seq<string>, WalkError>
    requires id !in visited
    decreases events.Keys - visited
  {
    if id == "" then Ok([])
    else if id !in events then Err(FetchFailed(id))
    else
      match NextId(events[id])
      case None => Ok([id])
      case Some(next) =>
        if next in visited || next == id then Err(Cycle(next))
        else
          match WalkIds(events, next, visited + {id})
          case Err(err) => Err(err)
          case Ok(older) => Ok(older + [id])
  }

  /** The history entries of the message events among `ids`, in the order of `ids`. */
  function EntriesOf(events: map<string, Event>, replies: OrderedMap<string>, botName: string, ids: seq<string>): seq<Message>
    requires forall i :: 0 <= i < |ids| ==> ids[i] in events
  {
    if ids == [] then []
    else
      var id := ids[|ids| - 1];
      EntriesOf(events, replies, botName, ids[..|ids| - 1])
      + (if events[id].isMessage then [Entry(events[id], id, replies, botName)] else [])
  }

  /** The message events among `ids`. */
  function MessageIds(events: map<string, Event>, ids: seq<string>): seq<string>
    requires forall i :: 0 <= i < |ids| ==> ids[i] in events
  {
    if ids == [] then []
    else
      MessageIds(events, ids[..|ids| - 1]) + (if events[ids[|ids| - 1]].isMessage then [ids[|ids| - 1]] else [])
  }

  /** `ids` is a reply chain ending at `id`: each event replies to the one before it, and the
      first has no reply target. */
  ghost predicate IsChain(events: map<string, Event>, ids: seq<string>, id: string)
  {
    && ids != []
    && (forall i :: 0 <= i < |ids| ==> ids[i] in events && ids[i] != "")
    && ids[|ids| - 1] == id
    && NextId(events[ids[0]]).None?
    && (forall i :: 0 <= i < |ids| - 1 ==> NextId(events[ids[i + 1]]) == Some(ids[i]))
  }

  /** The walk fetches exactly the chain: from the start event back along `in_reply_to` to
      the first event without a reply target, and it returns them oldest first. */
  lemma {:induction false} WalkIdsIsChain(events: map<string, Event>, id: string, visited: set<string>)
    requires id !in visited && id != ""
    requires WalkIds(events, id, visited).Ok?
    ensures IsChain(events, WalkIds(events, id, visited).value, id)
    decreases events.Keys - visited
  {
    var ids := WalkIds(events, id, visited).value;
    match NextId(events[id])
    case None =>
    case Some(next) =>
      var older := WalkIds(events, next, visited + {id}).value;
      WalkIdsIsChain(events, next, visited + {id});
      assert ids == older + [id];
      assert forall i :: 0 <= i < |older| ==> ids[i] == older[i];
  }

  lemma EntriesOfAppend(events: map<string, Event>, replies: OrderedMap<string>, botName: string, a: seq<string>, id: string)
    requires forall i :: 0 <= i < |a| ==> a[i] in events
    requires id in events
    ensures forall i :: 0 <= i < |a + [id]| ==> (a + [id])[i] in events
    ensures EntriesOf(events, replies, botName, a + [id])
         == EntriesOf(events, replies, botName, a)
            + (if events[id].isMessage then [Entry(events[id], id, replies, botName)] else [])
  {
    assert (a + [id])[..|a|] == a;
  }

  /** The history is the entries of the message events of the fetched chain, in chain order;
      it fails exactly when fetching the chain fails. */
  lemma {:induction false} WalkIsEntriesOfChain(
    events: map<string, Event>, replies: OrderedMap<string>, botName: string, id: string, visited: set<string>)
    requires id !in visited
    ensures WalkIds(events, id, visited).Ok? <==> Walk(events, replies, botName, id, visited).Ok?
    ensures WalkIds(events, id, visited).Err? ==>
      Walk(events, replies, botName, id, visited).error == WalkIds(events, id, visited).error
    ensures WalkIds(events, id, visited).Ok? ==>
      var ids := WalkIds(events, id, visited).value;
      && (forall i :: 0 <= i < |ids| ==> ids[i] in events)
      && Walk(events, replies, botName, id, visited).value == EntriesOf(events, replies, botName, ids)
    decreases events.Keys - visited
  {
    if id != "" && id in events {
      match NextId(events[id])
      case None =>
        assert [id][..0] == [];
      case Some(next) =>
        if next !in visited && next != id {
          WalkIsEntriesOfChain(events, replies, botName, next, visited + {id});
          if WalkIds(events, next, visited + {id}).Ok? {
            EntriesOfAppend(events, replies, botName, WalkIds(events, next, visited + {id}).value, id);
          }
        }
    }
  }

  lemma {:induction false} EntriesOfCount(events: map<string, Event>, replies: OrderedMap<string>, botName: string, ids: seq<string>)
    requires forall i :: 0 <= i < |ids| ==> ids[i] in events
    ensures var ms := MessageIds(events, ids);
            && (forall i :: 0 <= i < |ms| ==> ms[i] in events)
            && |EntriesOf(events, replies, botName, ids)| == |ms|
            && forall i :: 0 <= i < |ms| ==>
                 EntriesOf(events, replies, botName, ids)[i] == Entry(events[ms[i]], ms[i], replies, botName)
  {
    if ids != [] {
      EntriesOfCount(events, replies, botName, ids[..|ids| - 1]);
    }
  }

  /** Entry `i` of the history belongs to the `i`-th message event of the chain: role
      `assistant` exactly when the bot sent it, its text the one on record for that reply
      (else its `body`) for the bot, and the shown text without the bot mention for a
      user. */
  lemma HistoryEntries(events: map<string, Event>, replies: OrderedMap<string>, botName: string, id: string)
    requires WalkIds(events, id, {}).Ok?
    ensures var ids := WalkIds(events, id, {}).value;
            (forall i :: 0 <= i < |ids| ==> ids[i] in events) &&
            var ms := MessageIds(events, ids);
            var h := Walk(events, replies, botName, id, {});
            && h.Ok? && |h.value| == |ms|
            && (forall i :: 0 <= i < |ms| ==> ms[i] in events && events[ms[i]].isMessage)
            && forall i :: 0 <= i < |ms| ==>
                 var e := events[ms[i]];
                 && h.value[i].role == (if e.sender == botName then Assistant else User)
                 && h.value[i].name == Some(SenderHandle(e.sender))
                 && (e.sender == botName ==> h.value[i].content == Some(Get(replies, ms[i], e.body)))
                 && (e.sender != botName ==>
                       h.value[i].content == Some(StripMentions(ShownText(e.formattedBody, e.body), botName)))
  {
    var ids := WalkIds(events, id, {}).value;
    WalkIsEntriesOfChain(events, replies, botName, id, {});
    EntriesOfCount(events, replies, botName, ids);
    MessageIdsAreMessages(events, ids);
  }

  /** A successful walk yields only user and assistant entries, so the conversation built
      from it holds exactly one developer message (`AssembleOneDeveloper`). */
  lemma WalkHasNoDeveloper(events: map<string, Event>, replies: OrderedMap<string>, botName: string, id: string)
    requires Walk(events, replies, botName, id, {}).Ok?
    ensures var h := Walk(events, replies, botName, id, {}).value;
            forall i :: 0 <= i < |h| ==> h[i].role != Developer
    ensures forall developer, name, query ::
              RoleCount(Assemble(developer, Walk(events, replies, botName, id, {}).value, name, query), Developer) == 1
  {
    WalkIsEntriesOfChain(events, replies, botName, id, {});
    HistoryEntries(events, replies, botName, id);
    var h := Walk(events, replies, botName, id, {}).value;
    forall developer, name, query
      ensures RoleCount(Assemble(developer, h, name, query), Developer) == 1
    {
      AssembleOneDeveloper(developer, h, name, query);
    }
  }

  lemma {:induction false} MessageIdsAreMessages(events: map<string, Event>, ids: seq<string>)
    requires forall i :: 0 <= i < |ids| ==> ids[i] in events
    ensures forall i :: 0 <= i < |MessageIds(events, ids)| ==>
      MessageIds(events, ids)[i] in events && events[MessageIds(events, ids)[i]].isMessage
  {
    if ids != [] {
      var init := ids[..|ids| - 1];
      MessageIdsAreMessages(events, init);
      var last := ids[|ids| - 1];
      var ms := MessageIds(events, ids);
      var prev := MessageIds(events, init);
      var tail := if events[last].isMessage then [last] else [];
      assert ms == prev + tail;
      forall i | 0 <= i < |ms| ensures ms[i] in events && events[ms[i]].isMessage {
        if i < |prev| {
          assert ms[i] == prev[i];
        } else {
          assert ms[i] == tail[0] == last;
        }
      }
    }
  }

  /** `Ok(older + history)` for a walk result `older`. */
  function Prepend(r: Result<seq<Message>, WalkError>, history: seq<Message>): (p: Result<seq<Message>, WalkError>)
    ensures r.Err? ==> p == r
    ensures r.Ok? ==> p == Ok(r.value + history)
  {
    match r
    case Err(e) => Err(e)
    case Ok(older) => Ok(older + history)
  }

  lemma PrependNothing(r: Result<seq<Message>, WalkError>)
    ensures Prepend(r, []) == r
  {
    if r.Ok? {
      assert r.value + [] == r.value;
    }
  }

  lemma PrependTwice(r: Result<seq<Message>, WalkError>, a: seq<Message>, b: seq<Message>)
    ensures Prepend(Prepend(r, a), b) == Prepend(r, a + b)
  {
    if r.Ok? {
      assert r.value + a + b == r.value + (a + b);
    }
  }

  /** One step of the walk: the history from `id` is the history from its reply target
      with this event's entry (if it is a message) after it. */
  lemma WalkStep(events: map<string, Event>, replies: OrderedMap<string>, botName: string, id: string, visited: set<string>)
    requires id !in visited && id != "" && id in events
    requires NextId(events[id]).Some?
    requires NextId(events[id]).value !in visited + {id}
    ensures Walk(events, replies, botName, id, visited)
         == Prepend(Walk(events, replies, botName, NextId(events[id]).value, visited + {id}),
                    if events[id].isMessage then [Entry(events[id], id, replies, botName)] else [])
  {
  }
}
