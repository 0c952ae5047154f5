/**
 The conversation history: a bounded list whose last entry is replaced when the same prompt comes
 again, and the wire sequence built from the part of it that fits a budget.
 */
module History {
  import opened Wrappers
  import opened Llm
  import SplitBytes

  datatype Chat = Chat(user: string, assistant: string, think: string)

  /** `HistoryItem`. */
  datatype Item = Item(time: int, uid: string, chat: Option<Chat>)

  const MAX_LENGTH := 25

  const HISTORY_LIMIT := 50 * 1024

  predicate SamePrompt(a: Item, b: Item) {
    a.chat.Some? && b.chat.Some? && a.chat.value.user == b.chat.value.user
  }

  // ----- The list as a function of everything ever added -----

  /** An item that the next one does not replace is kept; the last one always is. */
  function Kept(log: seq<Item>): seq<Item> {
    if |log| <= 1 then log
    else (if SamePrompt(log[0], log[1]) then [] else [log[0]]) + Kept(log[1..])
  }

  function LastOnes(n: nat, items: seq<Item>): seq<Item> {
    if |items| <= n then items else items[|items| - n..]
  }

  /** The list after one more item, without and with the cap. */
  function Replaced(items: seq<Item>, item: Item): seq<Item> {
    (if items != [] && SamePrompt(items[|items| - 1], item) then items[..|items| - 1] else items) + [item]
  }

  function Added(items: seq<Item>, item: Item): seq<Item> {
    var longer := Replaced(items, item);
    if |longer| > MAX_LENGTH then longer[1..] else longer
  }

  function AllAdded(log: seq<Item>): seq<Item> {
    if log == [] then [] else Added(AllAdded(log[..|log| - 1]), log[|log| - 1])
  }

  lemma {:induction false} KeptEnds(log: seq<Item>)
    ensures log == [] <==> Kept(log) == []
    ensures log != [] ==> Kept(log)[|Kept(log)| - 1] == log[|log| - 1]
  {
    if |log| > 1 {
      KeptEnds(log[1..]);
    }
  }

  lemma {:induction false} ReplacedBehind(head: seq<Item>, items: seq<Item>, item: Item)
    requires items != []
    ensures Replaced(head + items, item) == head + Replaced(items, item)
  {
    var all := head + items;
    assert all[|all| - 1] == items[|items| - 1];
    assert all[..|all| - 1] == head + items[..|items| - 1];
  }

  /** Collapsing runs from the front is replacing the last item one by one. */
  lemma {:induction false} KeptSnoc(log: seq<Item>, item: Item)
    ensures Kept(log + [item]) == Replaced(Kept(log), item)
  {
    if |log| == 1 {
      assert (log + [item])[1..] == [item];
    } else if |log| > 1 {
      var head := if SamePrompt(log[0], log[1]) then [] else [log[0]];
      assert (log + [item])[1..] == log[1..] + [item];
      assert Kept(log + [item]) == head + Kept(log[1..] + [item]);
      KeptSnoc(log[1..], item);
      KeptEnds(log[1..]);
      ReplacedBehind(head, Kept(log[1..]), item);
    }
  }

  lemma {:induction false} WindowOfReplaced(items: seq<Item>, item: Item)
    ensures Added(LastOnes(MAX_LENGTH, items), item) == LastOnes(MAX_LENGTH, Replaced(items, item))
  {
  }

  /** The stored list is the last 25 of all items ever added, each run of one prompt collapsed to its latest. */
  lemma {:induction false} ListIsWindowOfLog(log: seq<Item>)
    ensures AllAdded(log) == LastOnes(MAX_LENGTH, Kept(log))
  {
    if log != [] {
      var k := |log| - 1;
      ListIsWindowOfLog(log[..k]);
      WindowOfReplaced(Kept(log[..k]), log[k]);
      KeptSnoc(log[..k], log[k]);
      assert log[..k] + [log[k]] == log;
    }
  }

  ghost predicate NoRepeats(items: seq<Item>) {
    forall i :: 0 < i < |items| ==> !SamePrompt(items[i - 1], items[i])
  }

  lemma {:induction false} KeptHasNoRepeats(log: seq<Item>)
    ensures NoRepeats(Kept(log))
    ensures |log| > 0 && Kept(log) != [] ==> (SamePrompt(Kept(log)[0], log[0]) || Kept(log)[0] == log[0])
  {
    if |log| > 1 {
      KeptHasNoRepeats(log[1..]);
      KeptEnds(log[1..]);
    }
  }

  /** The list never holds more than 25 items nor the same prompt twice in a row, and ends with the item added last. */
  lemma {:induction false} ListIsBounded(log: seq<Item>)
    ensures |AllAdded(log)| <= MAX_LENGTH && NoRepeats(AllAdded(log))
    ensures log != [] ==> AllAdded(log) != [] && AllAdded(log)[|AllAdded(log)| - 1] == log[|log| - 1]
  {
    ListIsWindowOfLog(log);
    KeptHasNoRepeats(log);
    KeptEnds(log);
  }

  // ----- The budget -----

  function Width(c: char): nat {
    if c < '\U{0080}' then 1 else if c < '\U{0800}' then 2 else if c < '\U{010000}' then 3 else 4
  }

  /** The length of a string in UTF-8. */
  function Bytes(s: string): nat {
    if s == "" then 0 else Width(s[0]) + Bytes(s[1..])
  }

  /** The encoding of a character by section 3 of RFC 3629. */
  function Encoded(c: char): seq<SplitBytes.byte> {
    var n := c as int;
    if n < 0x80 then [n as SplitBytes.byte]
    else if n < 0x800 then [(0xC0 + n / 0x40) as SplitBytes.byte, Continued(n)]
    else if n < 0x10000 then [(0xE0 + n / 0x1000) as SplitBytes.byte, Continued(n / 0x40), Continued(n)]
    else [(0xF0 + n / 0x40000) as SplitBytes.byte, Continued(n / 0x1000), Continued(n / 0x40), Continued(n)]
  }

  /** A continuation byte with the last six bits of the number. */
  function Continued(n: nat): (b: SplitBytes.byte)
    ensures SplitBytes.Tail(b)
  {
    (0x80 + n % 0x40) as SplitBytes.byte
  }

  function Utf8(s: string): seq<SplitBytes.byte> {
    if s == "" then [] else Encoded(s[0]) + Utf8(s[1..])
  }

  lemma {:induction false} EncodedIsOneCharacter(c: char, rest: seq<SplitBytes.byte>)
    ensures |Encoded(c)| == Width(c) && SplitBytes.CharLen(Encoded(c) + rest) == Width(c)
  {
  }

  /** The length counts the bytes of the text's encoding, which is valid. */
  lemma {:induction false} BytesAreCounted(s: string)
    ensures SplitBytes.ValidUtf8(Utf8(s)) && |Utf8(s)| == Bytes(s)
  {
    if s != "" {
      BytesAreCounted(s[1..]);
      EncodedIsOneCharacter(s[0], Utf8(s[1..]));
      assert Utf8(s)[Width(s[0])..] == Utf8(s[1..]);
    }
  }

  /** `calcTokens`. */
  function ItemTokens(item: Item): nat {
    match item.chat
    case Some(chat) => Bytes(chat.user) + Bytes(chat.assistant)
    case None => 0
  }

  function Tokens(items: seq<Item>): nat {
    if items == [] then 0 else ItemTokens(items[0]) + Tokens(items[1..])
  }

  predicate Fits(items: seq<Item>, size: int) {
    Tokens(items) <= size
  }

  /** The first sequence is the second without some of its oldest items. */
  ghost predicate Older(now: seq<Item>, before: seq<Item>) {
    |now| <= |before| && now == before[|before| - |now|..]
  }

  /** The longest end of the items that fits. */
  function Recent(items: seq<Item>, size: int): seq<Item> {
    if items == [] || Fits(items, size) then items else Recent(items[1..], size)
  }

  lemma {:induction false} RecentIsEnd(items: seq<Item>, size: int)
    ensures Older(Recent(items, size), items)
  {
    if items != [] && !Fits(items, size) {
      RecentIsEnd(items[1..], size);
    }
  }

  lemma {:induction false} ShorterFits(items: seq<Item>, k: nat)
    requires k <= |items|
    ensures Tokens(items[k..]) <= Tokens(items)
  {
    if k > 0 {
      ShorterFits(items[1..], k - 1);
      assert items[k..] == items[1..][k - 1..];
    }
  }

  /** An end of the items is within the recent ones exactly when it fits, or is empty. */
  lemma {:induction false} RecentIsLongest(items: seq<Item>, size: int, k: nat)
    requires k <= |items|
    ensures |items| - k <= |Recent(items, size)| <==> k == |items| || Fits(items[k..], size)
  {
    if items == [] || Fits(items, size) {
      ShorterFits(items, k);
    } else if k > 0 {
      RecentIsLongest(items[1..], size, k - 1);
      assert items[k..] == items[1..][k - 1..];
    } else {
      assert items[0..] == items;
      RecentIsEnd(items[1..], size);
    }
  }

  /** The recent items begin where one item more no longer fits. */
  lemma {:induction false} RecentBegins(items: seq<Item>, size: int, i: nat)
    requires i < |items| && !Fits(items[i..], size)
    requires i + 1 == |items| || Fits(items[i + 1..], size)
    ensures Recent(items, size) == items[i + 1..]
  {
    RecentIsEnd(items, size);
    RecentIsLongest(items, size, i);
    RecentIsLongest(items, size, i + 1);
  }

  lemma {:induction false} TokensOfOneMore(items: seq<Item>, i: nat)
    requires i < |items|
    ensures items[i..] == [items[i]] + items[i + 1..]
    ensures Tokens(items[i..]) == Tokens(items[i + 1..]) + ItemTokens(items[i])
  {
    assert items[i..][1..] == items[i + 1..];
  }

  /** The loop has taken the items from `from` on, and they fit. */
  ghost predicate Taken(z: seq<Item>, size: int, from: nat, ohi: seq<Item>, count: int) {
    from <= |z| && ohi == z[from..] && count == Tokens(ohi) && (from == |z| || count <= size)
  }

  lemma {:induction false} TakeOneMore(z: seq<Item>, size: int, i: nat, ohi: seq<Item>, count: int)
    requires i < |z| && Taken(z, size, i + 1, ohi, count)
    ensures var more := count + ItemTokens(z[i]);
      if more > size then ohi == Recent(z, size) else Taken(z, size, i, [z[i]] + ohi, more)
  {
    TokensOfOneMore(z, i);
    if count + ItemTokens(z[i]) > size {
      RecentBegins(z, size, i);
    }
  }

  /** `RecentlyWithTokens`. */
  method RecentlyWithTokens(z: seq<Item>, size: int) returns (ohi: seq<Item>)
    ensures ohi == Recent(z, size)
  {
    var count := 0;
    ohi := [];
    var i := |z| - 1;
    while i >= 0
      invariant -1 <= i < |z| && Taken(z, size, i + 1, ohi, count)
    {
      TakeOneMore(z, size, i, ohi, count);
      count := count + ItemTokens(z[i]);
      if count > size {
        return;
      }
      ohi := [z[i]] + ohi;
      i := i - 1;
    }
    assert z[0..] == z;
  }

  // ----- The wire sequence -----

  function Said(role: string, text: string): seq<Message> {
    if text == "" then [] else [Message(role, text, "", [], "")]
  }

  function Exchange(item: Item): seq<Message> {
    match item.chat
    case Some(chat) => Said(USER, chat.user) + Said(ASSISTANT, chat.assistant)
    case None => []
  }

  function Rendered(items: seq<Item>): seq<Message> {
    Concat(Map(Exchange, items))
  }

  lemma {:induction false} RenderedSnoc(items: seq<Item>, i: nat)
    requires i < |items|
    ensures Rendered(items[..i + 1]) == Rendered(items[..i]) + Exchange(items[i])
  {
    var parts := Map(Exchange, items);
    assert Map(Exchange, items[..i + 1]) == parts[..i + 1] && Map(Exchange, items[..i]) == parts[..i];
    ConcatStep(parts, i);
  }

  function WithoutLast(items: seq<Item>, skip: bool): seq<Item> {
    if skip && items != [] then items[..|items| - 1] else items
  }

  method HistoryMessages(data: seq<Item>, skipLast: bool) returns (messages: seq<Message>)
    ensures messages == Rendered(WithoutLast(data, skipLast))
  {
    messages := [];
    for i := 0 to |data|
      invariant messages == Rendered(data[..i])
      invariant skipLast && 0 < i == |data| ==> data[i - 1].chat.None?
    {
      RenderedSnoc(data, i);
      var hi := data[i];
      if hi.chat.None? {
        continue;
      }
      if skipLast && i == |data| - 1 {
        return;
      }
      if |hi.chat.value.user| > 0 {
        messages := messages + [Message(USER, hi.chat.value.user, "", [], "")];
      }
      if |hi.chat.value.assistant| > 0 {
        messages := messages + [Message(ASSISTANT, hi.chat.value.assistant, "", [], "")];
      }
    }
    assert data[..|data|] == data;
    if data != [] {
      RenderedSnoc(data, |data| - 1);
    }
  }

  function Question(prompt: string): Message {
    Message(USER, prompt, "", [], "")
  }

  /** The system message, the history, the activation if there is one, and the question. */
  function Wire(sys: Message, activation: Option<Message>, history: seq<Item>, prompt: string): seq<Message> {
    [sys] + Rendered(history) + (if activation.Some? then [activation.value] else []) + [Question(prompt)]
  }

  method ChatMessages(sys: Message, activation: Option<Message>, history: seq<Item>, prompt: string, skipLast: bool)
    returns (messages: seq<Message>)
    ensures messages == Wire(sys, activation, WithoutLast(history, skipLast), prompt)
  {
    var rendered := HistoryMessages(history, skipLast);
    messages := [sys] + rendered;
    if activation.Some? {
      messages := messages + [activation.value];
    }
    messages := messages + [Question(prompt)];
  }

  /** The last stored exchange is one of this prompt. */
  predicate EndsWith(items: seq<Item>, prompt: string) {
    items != [] && items[|items| - 1].chat.Some? && items[|items| - 1].chat.value.user == prompt
  }

  /** Whether the last exchange of the budgeted history is to be left out. */
  predicate Skips(history: seq<Item>, prompt: string, regenerate: bool) {
    EndsWith(history, prompt) || (regenerate && history != [] && history[|history| - 1].chat.Some?)
  }

  /** What a request to a conversation with this history sends, and whether it counts as a retry. */
  function Prepared(items: seq<Item>, sys: Message, prompt: string, regenerate: bool): (seq<Message>, bool) {
    var history := Recent(items, HISTORY_LIMIT);
    var skip := Skips(history, prompt, regenerate);
    (Wire(sys, None, WithoutLast(history, skip), prompt), skip || regenerate)
  }

  // ----- Conversations -----

  class Conversation {
    var list: seq<Item>

    constructor ()
      ensures list == AllAdded([])
    {
      list := [];
    }

    method AddHistory(item: Item)
      modifies this
      ensures list == Added(old(list), item)
    {
      var lastMsg := GetLastUserMessage();
      if lastMsg.Some? && lastMsg.value.chat.Some? && item.chat.Some? {
        if lastMsg.value.chat.value.user == item.chat.value.user {
          list := list[..|list| - 1];
        }
      }
      list := list + [item];
      if |list| > MAX_LENGTH {
        list := list[1..];
      }
    }

    method GetLastUserMessage() returns (item: Option<Item>)
      ensures item == if list == [] then None else Some(list[|list| - 1])
    {
      item := if |list| == 0 then None else Some(list[|list| - 1]);
    }

    /** The part of `prepareChatRequest` that decides what is sent; `readable` tells whether the list could be read. */
    method PrepareChatRequest(readable: bool, sys: Message, prompt: string, regenerate: bool)
      returns (messages: seq<Message>, retry: bool)
      ensures (messages, retry) == Prepared(if readable then list else [], sys, prompt, regenerate)
    {
      var history := [];
      if readable && |list| > 0 {
        history := RecentlyWithTokens(list, HISTORY_LIMIT);
      }
      var skipLast := false;
      retry := false;
      if |history| > 0 {
        var last := history[|history| - 1];
        if last.chat.Some? {
          var isRetry := last.chat.value.user == prompt;
          if isRetry || regenerate {
            skipLast, retry := true, true;
          }
        }
      }
      if regenerate {
        retry := true;
      }
      messages := ChatMessages(sys, None, history, prompt, skipLast);
    }
  }

  /** Any run of `AddHistory` leaves the last 25 items of the collapsed log. */
  method AddAll(c: Conversation, log: seq<Item>)
    requires c.list == AllAdded([])
    modifies c
    ensures c.list == LastOnes(MAX_LENGTH, Kept(log))
  {
    for i := 0 to |log|
      invariant c.list == AllAdded(log[..i])
    {
      c.AddHistory(log[i]);
      assert log[..i + 1][..i] == log[..i];
    }
    assert log[..|log|] == log;
    ListIsWindowOfLog(log);
  }

  // ----- What the wire sequence says -----

  datatype Line = Line(role: string, text: string)

  /** A message that is nothing but somebody's words. */
  predicate IsLine(m: Message, line: Line) {
    m == Message(line.role, line.text, "", [], "")
  }

  ghost predicate AreLines(ms: seq<Message>, lines: seq<Line>) {
    |ms| == |lines| && forall i :: 0 <= i < |ms| ==> IsLine(ms[i], lines[i])
  }

  /** The conversation, front to back: each exchange's prompt and answer, as far as there are any. */
  function Dialogue(items: seq<Item>): seq<Line>
    decreases |items|
  {
    if items == [] then []
    else if items[0].chat.None? then Dialogue(items[1..])
    else
      var Chat(user, assistant, _) := items[0].chat.value;
      (if user == "" then [] else [Line("user", user)])
      + (if assistant == "" then [] else [Line("assistant", assistant)])
      + Dialogue(items[1..])
  }

  lemma LinesAppend(a: seq<Message>, b: seq<Message>, x: seq<Line>, y: seq<Line>)
    requires AreLines(a, x) && AreLines(b, y)
    ensures AreLines(a + b, x + y)
  {
  }

  lemma {:induction false} RenderedFront(items: seq<Item>)
    requires items != []
    ensures Rendered(items) == Exchange(items[0]) + Rendered(items[1..])
  {
    assert Map(Exchange, items)[1..] == Map(Exchange, items[1..]);
  }

  /** What is rendered of a history is its dialogue. */
  lemma {:induction false} RenderedTells(items: seq<Item>)
    ensures AreLines(Rendered(items), Dialogue(items))
    decreases |items|
  {
    if items != [] {
      RenderedFront(items);
      RenderedTells(items[1..]);
      if items[0].chat.Some? {
        var Chat(user, assistant, _) := items[0].chat.value;
        var said := (if user == "" then [] else [Line("user", user)])
                    + (if assistant == "" then [] else [Line("assistant", assistant)]);
        assert AreLines(Exchange(items[0]), said);
        LinesAppend(Exchange(items[0]), Rendered(items[1..]), said, Dialogue(items[1..]));
      } else {
        assert [] + Rendered(items[1..]) == Rendered(items[1..]);
      }
    }
  }

  /** A wire sequence is the system message, the dialogue, the activation if there is one, and the prompt. */
  lemma {:induction false} WireTells(sys: Message, activation: Option<Message>, history: seq<Item>, prompt: string)
    ensures var ms := Wire(sys, activation, history, prompt);
      var n, more := |Dialogue(history)|, if activation.Some? then 1 else 0;
      && |ms| == 1 + n + more + 1 && ms[0] == sys
      && AreLines(ms[1..1 + n], Dialogue(history))
      && (activation.Some? ==> ms[1 + n] == activation.value)
      && IsLine(ms[|ms| - 1], Line("user", prompt))
  {
    RenderedTells(history);
    var ms := Wire(sys, activation, history, prompt);
    assert ms[1..1 + |Rendered(history)|] == Rendered(history);
  }

  /** The bytes of all texts. */
  function TextBytes(ms: seq<Message>): nat {
    if ms == [] then 0 else |Utf8(ms[0].content)| + TextBytes(ms[1..])
  }

  lemma {:induction false} TextBytesAppend(a: seq<Message>, b: seq<Message>)
    ensures TextBytes(a + b) == TextBytes(a) + TextBytes(b)
  {
    if a == [] {
      assert a + b == b;
    } else {
      assert (a + b)[1..] == a[1..] + b;
      TextBytesAppend(a[1..], b);
    }
  }

  lemma {:induction false} SaidBytes(role: string, text: string)
    ensures TextBytes(Said(role, text)) == Bytes(text)
  {
    BytesAreCounted(text);
    if text != "" {
      assert Said(role, text)[1..] == [];
    }
  }

  /** The budget measures what is sent: a history's tokens are the bytes of its messages. */
  lemma {:induction false} TokensAreBytesSent(items: seq<Item>)
    ensures Tokens(items) == TextBytes(Rendered(items))
    decreases |items|
  {
    if items != [] {
      RenderedFront(items);
      TokensAreBytesSent(items[1..]);
      TextBytesAppend(Exchange(items[0]), Rendered(items[1..]));
      if items[0].chat.Some? {
        var Chat(user, assistant, _) := items[0].chat.value;
        TextBytesAppend(Said(USER, user), Said(ASSISTANT, assistant));
        SaidBytes(USER, user);
        SaidBytes(ASSISTANT, assistant);
      }
    }
  }

  // ----- Sending a prompt again -----

  lemma {:induction false} TokensAppend(a: seq<Item>, b: seq<Item>)
    ensures Tokens(a + b) == Tokens(a) + Tokens(b)
  {
    if a == [] {
      assert a + b == b;
    } else {
      assert (a + b)[1..] == a[1..] + b;
      TokensAppend(a[1..], b);
    }
  }

  lemma {:induction false} LastTokens(items: seq<Item>)
    requires items != []
    ensures Tokens(items) == Tokens(items[..|items| - 1]) + ItemTokens(items[|items| - 1])
  {
    var k := |items| - 1;
    assert items == items[..k] + [items[k]];
    TokensAppend(items[..k], [items[k]]);
    assert Tokens([items[k]]) == ItemTokens(items[k]) + Tokens([items[k]][1..]);
  }

  /** The recent items are those that fit alongside the last one, and it; or none if it does not fit itself. */
  lemma {:induction false} RecentWithLast(items: seq<Item>, size: int)
    requires items != []
    ensures var k := |items| - 1;
      Recent(items, size) ==
        if ItemTokens(items[k]) <= size then Recent(items[..k], size - ItemTokens(items[k])) + [items[k]] else []
  {
    var k := |items| - 1;
    LastTokens(items);
    if !Fits(items, size) {
      if k > 0 {
        RecentWithLast(items[1..], size);
        assert items[1..][..k - 1] == items[..k][1..];
      }
    } else {
      assert items == items[..k] + [items[k]];
    }
  }

  /** The conversation ends with an exchange that fits the budget by itself. */
  predicate EndsInReach(items: seq<Item>) {
    items != [] && items[|items| - 1].chat.Some? && ItemTokens(items[|items| - 1]) <= HISTORY_LIMIT
  }

  /**
   Any request: the conversation's last exchange is answered anew if it fits the budget by itself and
   either is of the same prompt or regeneration is asked for. Then what is sent is the longest
   earlier history that fits alongside it, else the longest history that fits, and the prompt. The
   request counts as a retry when regeneration is asked for or such a prompt is repeated.
   */
  lemma {:induction false} RequestsSend(items: seq<Item>, sys: Message, prompt: string, regenerate: bool)
    ensures var (messages, retry) := Prepared(items, sys, prompt, regenerate);
      && (retry <==> regenerate || (EndsInReach(items) && items[|items| - 1].chat.value.user == prompt))
      && messages == Wire(sys, None,
           if EndsInReach(items) && (regenerate || items[|items| - 1].chat.value.user == prompt)
           then Recent(items[..|items| - 1], HISTORY_LIMIT - ItemTokens(items[|items| - 1]))
           else Recent(items, HISTORY_LIMIT),
           prompt)
  {
    if items != [] {
      var k := |items| - 1;
      var history := Recent(items, HISTORY_LIMIT);
      RecentWithLast(items, HISTORY_LIMIT);
      if ItemTokens(items[k]) <= HISTORY_LIMIT {
        assert history[|history| - 1] == items[k];
        assert history[..|history| - 1] == Recent(items[..k], HISTORY_LIMIT - ItemTokens(items[k]));
      }
    }
  }

  /**
   Sending a prompt again, or asking to regenerate: the last exchange is recognised exactly when it
   fits the budget by itself, and then what is sent is the longest earlier history that fits
   alongside it, and the prompt. Otherwise no history is sent at all and a repeated prompt counts
   as a new one.
   */
  lemma {:induction false} ResendingSends(items: seq<Item>, sys: Message, prompt: string, regenerate: bool)
    requires EndsWith(items, prompt)
    ensures var last := items[|items| - 1];
      var (messages, retry) := Prepared(items, sys, prompt, regenerate);
      && (retry <==> regenerate || ItemTokens(last) <= HISTORY_LIMIT)
      && messages == Wire(sys, None,
           if ItemTokens(last) <= HISTORY_LIMIT
           then Recent(items[..|items| - 1], HISTORY_LIMIT - ItemTokens(last)) else [],
           prompt)
  {
    RequestsSend(items, sys, prompt, regenerate);
    RecentWithLast(items, HISTORY_LIMIT);
  }

  lemma {:induction false} RecentFits(items: seq<Item>, size: int)
    ensures Recent(items, size) == [] || Fits(Recent(items, size), size)
  {
    if items != [] && !Fits(items, size) {
      RecentFits(items[1..], size);
    }
  }

  lemma {:induction false} EndOfEnd(items: seq<Item>, k: nat, n: nat)
    requires k + n <= |items|
    ensures items[k..][|items| - k - n..] == items[|items| - n..]
  {
  }

  lemma {:induction false} RecentShrinks(items: seq<Item>, k: nat, less: int, size: int)
    requires k <= |items| && 0 <= less <= size
    ensures |Recent(items[k..], less)| <= |Recent(items, size)| <= |items|
  {
    var n := |Recent(items[k..], less)|;
    RecentIsEnd(items, size);
    RecentIsEnd(items[k..], less);
    EndOfEnd(items, k, n);
    RecentFits(items[k..], less);
    RecentIsLongest(items, size, |items| - n);
  }

  /** As much stays recent with less room in a shorter list exactly when it is all there and fits. */
  lemma {:induction false} RecentLengthStays(items: seq<Item>, k: nat, less: int, size: int)
    requires k <= |items| && 0 <= less <= size
    ensures var first, second := Recent(items, size), Recent(items[k..], less);
      |second| == |first| <==> |first| <= |items| - k && Fits(first, less)
  {
    var m := |Recent(items, size)|;
    RecentShrinks(items, k, less, size);
    RecentIsEnd(items, size);
    RecentIsEnd(items[k..], less);
    if m <= |items| - k {
      EndOfEnd(items, k, m);
      RecentIsLongest(items[k..], less, |items| - k - m);
    }
  }

  lemma {:induction false} Ends(items: seq<Item>, m: nat, n: nat)
    requires n <= m <= |items|
    ensures var a, b := items[|items| - m..], items[|items| - n..];
      Older(b, a) && (a == b <==> m == n)
  {
  }

  /** It is the same without some of the oldest items, and all of it exactly when that much stays. */
  lemma {:induction false} RecentStays(items: seq<Item>, k: nat, less: int, size: int)
    requires k <= |items| && 0 <= less <= size
    ensures var first, second := Recent(items, size), Recent(items[k..], less);
      && Older(second, first)
      && (second == first <==> |first| <= |items| - k && Fits(first, less))
  {
    RecentShrinks(items, k, less, size);
    RecentLengthStays(items, k, less, size);
    RecentIsEnd(items, size);
    RecentIsEnd(items[k..], less);
    SameEnds(items, k, Recent(items, size), Recent(items[k..], less));
  }

  lemma {:induction false} SameEnds(items: seq<Item>, k: nat, first: seq<Item>, second: seq<Item>)
    requires k <= |items| && Older(first, items) && Older(second, items[k..]) && |second| <= |first|
    ensures Older(second, first) && (second == first <==> |second| == |first|)
  {
    EndOfEnd(items, k, |second|);
    Ends(items, |first|, |second|);
  }

  lemma {:induction false} AddedFresh(items: seq<Item>, exchange: Item)
    requires |items| <= MAX_LENGTH && exchange.chat.Some? && !EndsWith(items, exchange.chat.value.user)
    ensures var k := if |items| == MAX_LENGTH then 1 else 0;
      Added(items, exchange) == items[k..] + [exchange]
  {
  }

  lemma {:induction false} RecentEndsWith(items: seq<Item>, size: int, prompt: string)
    requires !EndsWith(items, prompt)
    ensures !EndsWith(Recent(items, size), prompt)
  {
    var r := Recent(items, size);
    RecentIsEnd(items, size);
    if r != [] {
      assert r[|r| - 1] == items[|items| - 1];
    }
  }

  /** What a request sends when the conversation does not end with its prompt. */
  lemma {:induction false} SendingAnew(items: seq<Item>, sys: Message, prompt: string)
    requires !EndsWith(items, prompt)
    ensures Prepared(items, sys, prompt, false) == (Wire(sys, None, Recent(items, HISTORY_LIMIT), prompt), false)
  {
    RecentEndsWith(items, HISTORY_LIMIT, prompt);
  }

  /** The history sent along when the last stored prompt is sent again. */
  function Resent(again: seq<Item>): seq<Item>
    requires again != []
  {
    Recent(again[..|again| - 1], HISTORY_LIMIT - ItemTokens(again[|again| - 1]))
  }

  lemma {:induction false} AddedEndsWith(items: seq<Item>, exchange: Item)
    requires exchange.chat.Some?
    ensures var again := Added(items, exchange);
      again[|again| - 1] == exchange && EndsWith(again, exchange.chat.value.user)
  {
  }

  lemma {:induction false} SendingAgain(again: seq<Item>, sys: Message, prompt: string)
    requires EndsWith(again, prompt) && ItemTokens(again[|again| - 1]) <= HISTORY_LIMIT
    ensures Prepared(again, sys, prompt, false) == (Wire(sys, None, Resent(again), prompt), true)
  {
    ResendingSends(again, sys, prompt, false);
  }

  lemma {:induction false} ResentHistory(items: seq<Item>, exchange: Item)
    requires |items| <= MAX_LENGTH && exchange.chat.Some? && !EndsWith(items, exchange.chat.value.user)
    requires ItemTokens(exchange) <= HISTORY_LIMIT
    ensures var first, second := Recent(items, HISTORY_LIMIT), Resent(Added(items, exchange));
      && Older(second, first)
      && (second == first <==> |first| < MAX_LENGTH && Tokens(first) + ItemTokens(exchange) <= HISTORY_LIMIT)
  {
    var again := Added(items, exchange);
    var k := if |items| == MAX_LENGTH then 1 else 0;
    AddedFresh(items, exchange);
    assert again[..|again| - 1] == items[k..];
    RecentStays(items, k, HISTORY_LIMIT - ItemTokens(exchange), HISTORY_LIMIT);
    RecentIsEnd(items, HISTORY_LIMIT);
  }

  /**
   A prompt is sent to a conversation that does not end with it, its exchange is stored, and it is
   sent again. If the exchange fits the budget, the second request sends what the first one sent,
   less some of its oldest history; it sends all of it exactly when the first request's history
   still fits together with the exchange and did not fill the list.
   */
  lemma {:induction false} ResendingRepeatsTheFirst(items: seq<Item>, sys: Message, exchange: Item)
    requires |items| <= MAX_LENGTH && exchange.chat.Some? && !EndsWith(items, exchange.chat.value.user)
    requires ItemTokens(exchange) <= HISTORY_LIMIT
    ensures var prompt := exchange.chat.value.user;
      var first, second := Recent(items, HISTORY_LIMIT), Resent(Added(items, exchange));
      && Prepared(items, sys, prompt, false) == (Wire(sys, None, first, prompt), false)
      && Prepared(Added(items, exchange), sys, prompt, false) == (Wire(sys, None, second, prompt), true)
      && Older(second, first)
      && (second == first <==> |first| < MAX_LENGTH && Tokens(first) + ItemTokens(exchange) <= HISTORY_LIMIT)
  {
    SendingAnew(items, sys, exchange.chat.value.user);
    AddedEndsWith(items, exchange);
    SendingAgain(Added(items, exchange), sys, exchange.chat.value.user);
    ResentHistory(items, exchange);
  }

  /**
   When nothing is cut, the next question's wire sequence starts with the whole previous one,
   followed by the answer and the question.
   */
  lemma {:induction false} TurnsExtendTheWire(items: seq<Item>, sys: Message, exchange: Item, next: string)
    requires |items| < MAX_LENGTH && exchange.chat.Some? && exchange.chat.value.user != ""
    requires !EndsWith(items, exchange.chat.value.user) && next != exchange.chat.value.user
    requires Tokens(items) + ItemTokens(exchange) <= HISTORY_LIMIT
    ensures var chat := exchange.chat.value;
      Prepared(Added(items, exchange), sys, next, false).0
        == Prepared(items, sys, chat.user, false).0
           + (if chat.assistant == "" then [] else [Message("assistant", chat.assistant, "", [], "")])
           + [Message("user", next, "", [], "")]
  {
    var longer := items + [exchange];
    AddedFresh(items, exchange);
    assert items[0..] == items;
    LastTokens(longer);
    assert longer[..|items|] == items && longer[..|items| + 1] == longer;
    SendingAnew(items, sys, exchange.chat.value.user);
    SendingAnew(longer, sys, next);
    RenderedSnoc(longer, |items|);
    WireOfOneMore(sys, items, exchange, next);
  }

  lemma {:induction false} WireOfOneMore(sys: Message, items: seq<Item>, exchange: Item, next: string)
    requires exchange.chat.Some? && exchange.chat.value.user != ""
    requires Rendered(items + [exchange]) == Rendered(items) + Exchange(exchange)
    ensures var chat := exchange.chat.value;
      Wire(sys, None, items + [exchange], next)
        == Wire(sys, None, items, chat.user) + Said(ASSISTANT, chat.assistant) + [Question(next)]
  {
    var chat := exchange.chat.value;
    assert Said(USER, chat.user) == [Question(chat.user)];
    assert [sys] + (Rendered(items) + ([Question(chat.user)] + Said(ASSISTANT, chat.assistant))) + [] + [Question(next)]
        == [sys] + Rendered(items) + [] + [Question(chat.user)] + Said(ASSISTANT, chat.assistant) + [Question(next)];
  }

  /** What is sent contains no tool traffic, so it is well paired. */
  lemma {:induction false} WireIsPaired(sys: Message, activation: Option<Message>, history: seq<Item>, prompt: string)
    requires TagOf(sys).Plain? && (activation.Some? ==> TagOf(activation.value).Plain?)
    ensures WellPaired(Wire(sys, activation, history, prompt))
  {
    var ms := Wire(sys, activation, history, prompt);
    RenderedIsPlain(history);
    QuestionIsPlain(prompt);
    forall m | m in ms
      ensures TagOf(m).Plain?
    {
    }
    AllPlain(ms);
  }

  lemma {:induction false} QuestionIsPlain(prompt: string)
    ensures TagOf(Question(prompt)).Plain?
  {
    UserIsKnown();
  }

  lemma {:induction false} AllPlain(ms: seq<Message>)
    requires forall m :: m in ms ==> TagOf(m).Plain?
    ensures WellPaired(ms)
  {
    PlainIsPaired(TagsOf(ms));
  }

  lemma {:induction false} RenderedIsPlain(items: seq<Item>)
    ensures forall m :: m in Rendered(items) ==> TagOf(m).Plain?
  {
    if items != [] {
      var k := |items| - 1;
      RenderedIsPlain(items[..k]);
      RenderedSnoc(items, k);
      assert items[..k + 1] == items;
      UserIsKnown();
      AssistantIsKnown();
    }
  }
}
