/**
  Building the conversation sent to the model (chatgpt/bot.py): the sender handle taken
  from a Matrix user id, the bot-mention markup removed from user text, the developer
  message, history and user message put together, and the `!model` override scan.
 */
module Conversation {
  import opened Wrappers
  import opened PyStrings
  import opened ChatTypes
  import opened SeqFacts

  /** The two character classes the bot's patterns repeat. */
  datatype CharClass = Alnum | WordOrHyphen

  predicate InClass(c: char, k: CharClass)
  {
    match k
    case Alnum => IsAsciiAlnum(c)
    case WordOrHyphen => IsWordOrHyphen(c)
  }

  /** Length of the longest prefix of `s` inside class `k` (a greedy `[...]*`). */
  function RunLength(s: string, k: CharClass): (n: nat)
    ensures n <= |s|
    ensures forall i :: 0 <= i < n ==> InClass(s[i], k)
    ensures n == |s| || !InClass(s[n], k)
  {
    if s != [] && InClass(s[0], k) then 1 + RunLength(s[1..], k) else 0
  }

  lemma {:induction false} RunLengthExact(s: string, k: CharClass, n: nat)
    requires n <= |s|
    requires forall i :: 0 <= i < n ==> InClass(s[i], k)
    requires n == |s| || !InClass(s[n], k)
    ensures RunLength(s, k) == n
  {
    if n > 0 {
      RunLengthExact(s[1..], k, n - 1);
    }
  }

  // ---------------------------------------------------------------------------
  // Sender handle: `^@([a-zA-Z0-9]+):`, group 1, or "" when there is no match.
  // ---------------------------------------------------------------------------

  /** `sender` starts with `@h:` where `h` is a non-empty run of `[a-zA-Z0-9]`. */
  ghost predicate IsUserId(sender: string, h: string)
  {
    && h != []
    && (forall i :: 0 <= i < |h| ==> IsAsciiAlnum(h[i]))
    && |h| + 2 <= |sender|
    && sender[..|h| + 2] == "@" + h + ":"
  }

  function SenderHandle(sender: string): (h: string)
    ensures h != [] ==> IsUserId(sender, h)
  {
    if |sender| > 0 && sender[0] == '@' then
      var n := RunLength(sender[1..], Alnum);
      if n > 0 && n + 1 < |sender| && sender[n + 1] == ':' then sender[1..n + 1] else ""
    else ""
  }

  /** The handle is exactly the alphanumeric run between the leading '@' and the ':'. */
  lemma SenderHandleIff(sender: string, h: string)
    requires h != []
    ensures SenderHandle(sender) == h <==> IsUserId(sender, h)
  {
    if IsUserId(sender, h) {
      UserIdParts(sender, h);
      RunLengthExact(sender[1..], Alnum, |h|);
    }
  }

  lemma UserIdParts(sender: string, h: string)
    requires IsUserId(sender, h)
    ensures sender[0] == '@' && sender[1..][..|h|] == h && sender[1..][|h|] == ':'
  {
    var pre := sender[..|h| + 2];
    assert pre == "@" + h + ":";
    assert pre[0] == '@' && pre[|h| + 1] == ':';
    assert pre[1..|h| + 1] == h;
    assert sender[1..][..|h|] == pre[1..|h| + 1];
  }

  /** No match gives the empty handle, and the empty handle means there was no match. */
  lemma SenderHandleEmptyIff(sender: string)
    ensures SenderHandle(sender) == "" <==> forall h :: !IsUserId(sender, h)
  {
    if SenderHandle(sender) == "" {
      forall h ensures !IsUserId(sender, h) {
        if h != [] {
          SenderHandleIff(sender, h);
        }
      }
    }
  }

  // ---------------------------------------------------------------------------
  // Bot mention: `<a href="https://matrix\.to/#/{bot_name}">.*?</a>:? ?`
  // ---------------------------------------------------------------------------

  function MentionOpen(botName: string): string
  {
    "<a href=\"https://matrix.to/#/" + botName + "\">"
  }

  const CloseTag: string := "</a>"

  /** "</a>" occurs in `s` at position `j`. */
  predicate CloseTagAt(s: string, j: nat)
  {
    j + 4 <= |s| && s[j..j + 4] == CloseTag
  }

  lemma CloseTagAtShift(s: string)
    requires s != []
    ensures forall j :: 1 <= j ==> CloseTagAt(s, j) == CloseTagAt(s[1..], j - 1)
  {
    forall j | 1 <= j
      ensures CloseTagAt(s, j) == CloseTagAt(s[1..], j - 1)
    {
      if j + 4 <= |s| {
        SliceOfTail(s, j, j + 4);
      }
    }
  }

  lemma CloseTagAtTail(s: string, k: nat)
    requires s != [] && CloseTagAt(s[1..], k)
    ensures CloseTagAt(s, k + 1)
  {
    SliceOfTail(s, k + 1, k + 5);
  }

  /** The lazy `.*?</a>`: the first "</a>" in `s` with no newline before it. */
  function CloseAfter(s: string): (k: Option<nat>)
    ensures k.Some? ==> CloseTagAt(s, k.value)
  {
    if CloseTagAt(s, 0) then Some(0)
    else if s == [] || s[0] == '\n' then None
    else
      match CloseAfter(s[1..])
      case Some(k) => CloseTagAtTail(s, k); Some(k + 1)
      case None => None
  }

  /** The match is lazy: no newline and no "</a>" comes before the "</a>" it ends at. */
  lemma {:induction false} CloseAfterIsFirst(s: string)
    requires CloseAfter(s).Some?
    ensures forall j :: 0 <= j < CloseAfter(s).value ==> s[j] != '\n' && !CloseTagAt(s, j)
  {
    if !CloseTagAt(s, 0) {
      CloseAfterIsFirst(s[1..]);
      CloseTagAtShift(s);
      forall j | 1 <= j < CloseAfter(s).value
        ensures s[j] != '\n' && !CloseTagAt(s, j)
      {
        assert s[j] == s[1..][j - 1];
      }
    }
  }

  /** The greedy `:? ?` after the closing tag. */
  function SeparatorLength(s: string): (n: nat)
    ensures n <= |s| && n <= 2
  {
    var colon := if |s| > 0 && s[0] == ':' then 1 else 0;
    colon + (if |s| > colon && s[colon] == ' ' then 1 else 0)
  }

  /** Length of the mention match at the very start of `s`, if the pattern matches there. */
  function MentionAt(s: string, botName: string): (n: Option<nat>)
    ensures n.Some? ==> |MentionOpen(botName)| + 4 <= n.value <= |s|
  {
    MatchAfterOpen(s, MentionOpen(botName))
  }

  /** `open.*?</a>:? ?` at the start of `s`, for the literal opening tag `open`. */
  function MatchAfterOpen(s: string, open: string): (n: Option<nat>)
    ensures n.Some? ==> |open| + 4 <= n.value <= |s|
  {
    if |s| >= |open| && s[..|open|] == open then
      match CloseAfter(s[|open|..])
      case None => None
      case Some(k) =>
        var e := |open| + k + 4;
        Some(e + SeparatorLength(s[e..]))
    else None
  }

  /** `pattern.search(s)` succeeds. */
  predicate ContainsMention(s: string, botName: string)
  {
    s != [] && (MentionAt(s, botName).Some? || ContainsMention(s[1..], botName))
  }

  /** `pattern.sub('', s)`: every non-overlapping match, scanning left to right, removed. */
  function StripMentions(s: string, botName: string): (r: string)
    ensures |r| <= |s|
    decreases |s|
  {
    if s == [] then []
    else
      match MentionAt(s, botName)
      case Some(n) => StripMentions(s[n..], botName)
      case None => [s[0]] + StripMentions(s[1..], botName)
  }

  /** Text changes exactly when it contains a mention. */
  lemma {:induction false} StripMentionsUnchangedIff(s: string, botName: string)
    ensures StripMentions(s, botName) == s <==> !ContainsMention(s, botName)
    decreases |s|
  {
    if s != [] {
      StripMentionsUnchangedIff(s[1..], botName);
      if MentionAt(s, botName).None? && ContainsMention(s[1..], botName) {
        StripMentionsShorter(s[1..], botName);
      }
    }
  }

  lemma {:induction false} StripMentionsShorter(s: string, botName: string)
    requires ContainsMention(s, botName)
    ensures |StripMentions(s, botName)| < |s|
    decreases |s|
  {
    if MentionAt(s, botName).None? {
      StripMentionsShorter(s[1..], botName);
    }
  }

  lemma {:induction false} CloseAfterFirst(shown: string, t: string)
    requires forall j :: 0 <= j < |shown| ==> shown[j] != '\n' && !CloseTagAt(shown + t, j)
    requires CloseTagAt(t, 0)
    ensures CloseAfter(shown + t) == Some(|shown|)
  {
    var s := shown + t;
    if shown != [] {
      assert s[1..] == shown[1..] + t;
      CloseTagAtShift(s);
      assert forall j :: 0 <= j < |shown[1..]| ==> s[j + 1] == shown[1..][j];
      CloseAfterFirst(shown[1..], t);
    } else {
      assert s == t;
    }
  }

  /** "</a>" cannot begin inside `shown` and run into a following "</a>", since '<' occurs
      in "</a>" only at its first position; so the occurrences before `|shown|` are
      those inside `shown`. */
  lemma CloseTagBefore(shown: string, t: string, j: nat)
    requires j < |shown| && CloseTagAt(t, 0)
    requires CloseTagAt(shown + t, j)
    ensures CloseTagAt(shown, j)
  {
    var s := shown + t;
    assert CloseTag == ['<', '/', 'a', '>'];
    assert s[|shown|] == '<' by { assert t[0..4] == CloseTag; }
    if j + 4 > |shown| {
      assert false;
    }
    assert s[j..j + 4] == shown[j..j + 4];
  }

  lemma NoCloseBefore(shown: string, t: string)
    requires forall j :: 0 <= j < |shown| ==> shown[j] != '\n' && !CloseTagAt(shown, j)
    requires CloseTagAt(t, 0)
    ensures forall j :: 0 <= j < |shown| ==> shown[j] != '\n' && !CloseTagAt(shown + t, j)
  {
    forall j | 0 <= j < |shown| ensures !CloseTagAt(shown + t, j) {
      if CloseTagAt(shown + t, j) {
        CloseTagBefore(shown, t, j);
      }
    }
  }

  /** A mention `<a href=".../#/bot">text</a>` at the front is removed together with the
      optional ':' and ' ' after it, when its text is on one line and holds no "</a>". */
  lemma StripLeadingMention(botName: string, shown: string, rest: string)
    requires forall j :: 0 <= j < |shown| ==> shown[j] != '\n' && !CloseTagAt(shown, j)
    ensures StripMentions(MentionOpen(botName) + shown + CloseTag + rest, botName)
         == StripMentions(rest[SeparatorLength(rest)..], botName)
  {
    var open := MentionOpen(botName);
    var s := open + shown + CloseTag + rest;
    var n := |open| + |shown| + 4 + SeparatorLength(rest);
    MentionAtLeading(botName, shown, rest);
    StripMentionsAtMatch(s, botName, n);
    assert s[|open| + |shown| + 4..] == rest;
  }

  lemma StripMentionsAtMatch(s: string, botName: string, n: nat)
    requires MentionAt(s, botName) == Some(n)
    ensures StripMentions(s, botName) == StripMentions(s[n..], botName)
  {
  }

  lemma MentionAtLeading(botName: string, shown: string, rest: string)
    requires forall j :: 0 <= j < |shown| ==> shown[j] != '\n' && !CloseTagAt(shown, j)
    ensures MentionAt(MentionOpen(botName) + shown + CloseTag + rest, botName)
         == Some(|MentionOpen(botName)| + |shown| + 4 + SeparatorLength(rest))
  {
    MatchAfterLeading(MentionOpen(botName), shown, rest);
  }

  lemma MatchAfterLeading(open: string, shown: string, rest: string)
    requires forall j :: 0 <= j < |shown| ==> shown[j] != '\n' && !CloseTagAt(shown, j)
    ensures MatchAfterOpen(open + shown + CloseTag + rest, open)
         == Some(|open| + |shown| + 4 + SeparatorLength(rest))
  {
    var t := shown + CloseTag + rest;
    Regroup(open, shown, CloseTag, rest);
    SuffixAfter(shown + CloseTag, rest);
    CloseAfterLeading(shown, rest);
    MatchAfterPrefix(open, t, |shown|);
  }

  lemma Regroup(a: string, b: string, c: string, d: string)
    ensures a + b + c + d == a + (b + c + d)
  {
  }

  lemma SuffixAfter(a: string, b: string)
    ensures (a + b)[|a|..] == b
  {
  }

  lemma MatchAfterPrefix(open: string, t: string, k: nat)
    requires CloseAfter(t) == Some(k)
    ensures MatchAfterOpen(open + t, open) == Some(|open| + k + 4 + SeparatorLength(t[k + 4..]))
  {
    var s := open + t;
    assert s[..|open|] == open && s[|open|..] == t;
    MatchAfterUnfold(s, open, k);
    assert s[|open| + k + 4..] == t[k + 4..];
  }

  lemma CloseAfterLeading(shown: string, rest: string)
    requires forall j :: 0 <= j < |shown| ==> shown[j] != '\n' && !CloseTagAt(shown, j)
    ensures CloseAfter(shown + CloseTag + rest) == Some(|shown|)
  {
    var t := CloseTag + rest;
    assert shown + CloseTag + rest == shown + t;
    assert CloseTagAt(t, 0) by { assert t[0..4] == CloseTag; }
    NoCloseBefore(shown, t);
    CloseAfterFirst(shown, t);
  }

  lemma MatchAfterUnfold(s: string, open: string, k: nat)
    requires |s| >= |open| && s[..|open|] == open
    requires CloseAfter(s[|open|..]) == Some(k)
    ensures MatchAfterOpen(s, open) == Some(|open| + k + 4 + SeparatorLength(s[|open| + k + 4..]))
  {
  }

  // ---------------------------------------------------------------------------
  // Conversation assembly.
  // ---------------------------------------------------------------------------

  const PromptLead: string := PromptRole + PromptName + PromptUnits + PromptMarkdown + PromptToday
  const PromptRole: string := "Your role is to be "
  const PromptName: string := "a chatbot called Matrix. "
  const PromptUnits: string := "Prefer metric units. "
  const PromptMarkdown: string := "Do not use latex, always use markdown "
  const PromptToday: string := "Today is "
  const PromptMiddle: string := " and time is "

  function DeveloperPrompt(date: string, time: string): string
  {
    PromptLead + date + PromptMiddle + time + "."
  }

  /** The developer message, then the history in its order, then the user's message. */
  function Assemble(developer: string, history: seq<Message>, name: string, query: string): (r: seq<Message>)
    ensures |r| == |history| + 2
    ensures r[0] == Message(Developer, None, Some(developer), [], None)
    ensures r[1..|r| - 1] == history
    ensures r[|r| - 1] == Message(User, Some(name), Some(query), [], None)
  {
    [Message(Developer, None, Some(developer), [], None)]
    + history
    + [Message(User, Some(name), Some(query), [], None)]
  }

  function RoleCount(ms: seq<Message>, role: Role): nat
  {
    if ms == [] then 0
    else RoleCount(ms[..|ms| - 1], role) + (if ms[|ms| - 1].role == role then 1 else 0)
  }

  lemma {:induction false} RoleCountAppend(a: seq<Message>, b: seq<Message>, role: Role)
    ensures RoleCount(a + b, role) == RoleCount(a, role) + RoleCount(b, role)
    decreases |b|
  {
    if b != [] {
      assert (a + b)[..|a + b| - 1] == a + b[..|b| - 1];
      RoleCountAppend(a, b[..|b| - 1], role);
    } else {
      assert a + b == a;
    }
  }

  lemma {:induction false} RoleCountNone(ms: seq<Message>, role: Role)
    requires forall i :: 0 <= i < |ms| ==> ms[i].role != role
    ensures RoleCount(ms, role) == 0
  {
    if ms != [] {
      RoleCountNone(ms[..|ms| - 1], role);
    }
  }

  /** History without developer messages (the reply-chain walk makes only user and
      assistant entries) gives a conversation with exactly one developer message. */
  lemma AssembleOneDeveloper(developer: string, history: seq<Message>, name: string, query: string)
    requires forall i :: 0 <= i < |history| ==> history[i].role != Developer
    ensures RoleCount(Assemble(developer, history, name, query), Developer) == 1
  {
    var r := Assemble(developer, history, name, query);
    var first := [r[0]];
    var last := [r[|r| - 1]];
    assert r == first + history + last;
    RoleCountAppend(first + history, last, Developer);
    RoleCountAppend(first, history, Developer);
    RoleCountNone(history, Developer);
    assert first[..0] == [];
    assert last[..0] == [];
  }

  // ---------------------------------------------------------------------------
  // Model override: the first message whose content matches `![\w-]+`.
  // ---------------------------------------------------------------------------

  /** `![\w-]+` can start at position `i`. */
  predicate TokenAt(s: string, i: nat)
  {
    i + 1 < |s| && s[i] == '!' && IsWordOrHyphen(s[i + 1])
  }

  /** `pattern.search`: the leftmost position at or after `from` where the token starts. */
  function FindToken(s: string, from: nat): (i: Option<nat>)
    requires from <= |s|
    ensures i.Some? ==> from <= i.value && TokenAt(s, i.value)
    ensures forall j :: from <= j && (i.None? || j < i.value) ==> !TokenAt(s, j)
    decreases |s| - from
  {
    if from + 1 >= |s| then None
    else if TokenAt(s, from) then Some(from)
    else FindToken(s, from + 1)
  }

  /** `match.group(0)[1:]`: the greedy word after the '!'. */
  function TokenWord(s: string, i: nat): (w: string)
    requires TokenAt(s, i)
    ensures w != [] && i + 1 + |w| <= |s| && w == s[i + 1..i + 1 + |w|]
    ensures forall j :: 0 <= j < |w| ==> IsWordOrHyphen(w[j])
    ensures i + 1 + |w| == |s| || !IsWordOrHyphen(s[i + 1 + |w|])
  {
    var n := RunLength(s[i + 1..], WordOrHyphen);
    s[i + 1..i + 1 + n]
  }

  /** `re.sub(pattern, "", s, count=1).strip()` when the first match is at `i`. */
  function RemoveToken(s: string, i: nat): string
    requires TokenAt(s, i)
  {
    Strip(s[..i] + s[i + 1 + |TokenWord(s, i)|..])
  }

  /** The scan either raises (the message at `index` has content None) or yields the model
      and the messages with the matched one rewritten. */
  datatype ScanResult = ScanRaised(index: nat) | Scanned(model: string, messages: seq<Message>)

  function ScanFrom(messages: seq<Message>, i: nat, default: string): ScanResult
    requires i <= |messages|
    decreases |messages| - i
  {
    if i == |messages| then Scanned(default, messages)
    else
      match messages[i].content
      case None => ScanRaised(i)
      case Some(c) =>
        match FindToken(c, 0)
        case Some(p) => Scanned(TokenWord(c, p), messages[i := messages[i].(content := Some(RemoveToken(c, p)))])
        case None => ScanFrom(messages, i + 1, default)
  }

  function OverrideScan(messages: seq<Message>, default: string): ScanResult
  {
    ScanFrom(messages, 0, default)
  }

  /** The `for message in messages` loop with its `break` (bot.py:123-131). */
  method ScanForOverride(messages: seq<Message>, default: string) returns (r: ScanResult)
    ensures r == OverrideScan(messages, default)
  {
    var model := default;
    var msgs := messages;
    var raised: Option<nat> := None;
    var i := 0;
    while i < |msgs|
      invariant 0 <= i <= |msgs| && msgs == messages && model == default && raised.None?
      invariant OverrideScan(messages, default) == ScanFrom(messages, i, default)
    {
      var content := msgs[i].content;
      if content.None? {
        raised := Some(i);
        break;
      }
      var p := FindToken(content.value, 0);
      if p.Some? {
        model := TokenWord(content.value, p.value);
        msgs := msgs[i := msgs[i].(content := Some(RemoveToken(content.value, p.value)))];
        break;
      }
      i := i + 1;
    }
    r := if raised.Some? then ScanRaised(raised.value) else Scanned(model, msgs);
  }

  /** The message has string content with no override token in it. */
  ghost predicate NoToken(m: Message)
  {
    m.content.Some? && FindToken(m.content.value, 0).None?
  }

  lemma {:induction false} ScanFromSkips(messages: seq<Message>, i: nat, k: nat, default: string)
    requires i <= k <= |messages|
    requires forall j :: i <= j < k ==> NoToken(messages[j])
    ensures ScanFrom(messages, i, default) == ScanFrom(messages, k, default)
    decreases k - i
  {
    if i < k {
      assert NoToken(messages[i]);
      ScanFromStep(messages, i, default);
      ScanFromSkips(messages, i + 1, k, default);
    }
  }

  lemma ScanFromStep(messages: seq<Message>, i: nat, default: string)
    requires i < |messages| && NoToken(messages[i])
    ensures ScanFrom(messages, i, default) == ScanFrom(messages, i + 1, default)
  {
  }

  /** The first message in list order with a token sets the model to the token's word; only
      that message changes, its first token removed and its content stripped. */
  lemma ScanFirstMatch(messages: seq<Message>, default: string, k: nat)
    requires k < |messages|
    requires forall j :: 0 <= j < k ==> NoToken(messages[j])
    requires messages[k].content.Some? && FindToken(messages[k].content.value, 0).Some?
    ensures var c := messages[k].content.value;
            var p := FindToken(c, 0).value;
            OverrideScan(messages, default)
              == Scanned(TokenWord(c, p), messages[k := messages[k].(content := Some(RemoveToken(c, p)))])
  {
    ScanFromSkips(messages, 0, k, default);
  }

  /** With no token anywhere the model is the configured default and nothing changes. */
  lemma ScanNoMatch(messages: seq<Message>, default: string)
    requires forall j :: 0 <= j < |messages| ==> NoToken(messages[j])
    ensures OverrideScan(messages, default) == Scanned(default, messages)
  {
    ScanFromSkips(messages, 0, |messages|, default);
  }

  /** A message whose content is None, reached before any match, makes the scan raise. */
  lemma ScanReachesNone(messages: seq<Message>, default: string, k: nat)
    requires k < |messages|
    requires forall j :: 0 <= j < k ==> NoToken(messages[j])
    requires messages[k].content.None?
    ensures OverrideScan(messages, default) == ScanRaised(k)
  {
    ScanFromSkips(messages, 0, k, default);
  }
}
