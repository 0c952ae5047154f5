/**
 Truncation of tool results: a preview of at most `limit` characters made of a head, a notice
 that prints how much of it is shown, and a tail. Texts are sequences of characters.
 */
module Truncation {
  import opened Wrappers

  // ----- Decimal rendering -----

  function Digit(d: nat): char
    requires d < 10
  {
    "0123456789"[d]
  }

  function Dec(n: nat): (s: string)
    ensures |s| >= 1
  {
    if n < 10 then [Digit(n)] else Dec(n / 10) + [Digit(n % 10)]
  }

  predicate IsDigit(c: char) {
    '0' <= c <= '9'
  }

  predicate IsDec(s: string) {
    s != "" && forall i :: 0 <= i < |s| ==> IsDigit(s[i])
  }

  /** The number a text of decimal digits stands for. */
  function Value(s: string): nat
    requires IsDec(s)
  {
    var last := (s[|s| - 1] as int) - ('0' as int);
    if |s| == 1 then last else 10 * Value(s[..|s| - 1]) + last
  }

  lemma DigitsAreDigits(d: nat)
    requires d < 10
    ensures Digit(d) as int == '0' as int + d
  {
  }

  /** A printed number reads back as itself. */
  lemma {:induction false} DecReadsBack(n: nat)
    ensures IsDec(Dec(n)) && Value(Dec(n)) == n
  {
    DigitsAreDigits(n % 10);
    if n >= 10 {
      DecReadsBack(n / 10);
      assert Dec(n)[..|Dec(n)| - 1] == Dec(n / 10);
    }
  }

  /** More never prints shorter. */
  lemma {:induction false} DecMonotone(m: nat, n: nat)
    requires m <= n
    ensures |Dec(m)| <= |Dec(n)|
  {
    if n >= 10 && m >= 10 {
      DecMonotone(m / 10, n / 10);
    }
  }

  // ----- The three notices -----

  datatype Format = Full | Short | Minimal

  function Notice(f: Format, head: nat, tail: nat, size: nat): (s: string)
    ensures |s| >= 1
  {
    match f
    case Full =>
      "\n[truncated: showing the first " + Dec(head) + " and last " + Dec(tail) + " of " + Dec(size)
      + (" characters; narrow the query or page" + " through the source to get the rest]")
    case Short => "\n[truncated: first " + Dec(head) + " + last " + Dec(tail) + " of " + Dec(size) + " chars]"
    case Minimal => "\n[truncated]"
  }

  /** How many digits the text begins with. */
  function LeadingDigits(s: string): (n: nat)
    ensures n <= |s| && forall i :: 0 <= i < n ==> IsDigit(s[i])
  {
    if s != "" && IsDigit(s[0]) then 1 + LeadingDigits(s[1..]) else 0
  }

  /** The numbers that a text prints, in order. */
  function Numbers(s: string): seq<nat>
    decreases |s|
  {
    var n := LeadingDigits(s);
    if s == "" then []
    else if n == 0 then Numbers(s[1..])
    else [Value(s[..n])] + Numbers(s[n..])
  }

  predicate Wordy(s: string) {
    forall i :: 0 <= i < |s| ==> !IsDigit(s[i])
  }

  lemma {:induction false} NoNumbers(words: string, rest: string)
    requires Wordy(words)
    ensures Numbers(words + rest) == Numbers(rest)
    decreases |words|
  {
    if words == "" {
      assert words + rest == rest;
    } else {
      assert (words + rest)[1..] == words[1..] + rest;
      NoNumbers(words[1..], rest);
    }
  }

  lemma {:induction false} DigitsLead(digits: string, rest: string)
    requires (forall i :: 0 <= i < |digits| ==> IsDigit(digits[i])) && (rest != "" ==> !IsDigit(rest[0]))
    ensures LeadingDigits(digits + rest) == |digits|
    decreases |digits|
  {
    if digits == "" {
      assert digits + rest == rest;
    } else {
      assert (digits + rest)[1..] == digits[1..] + rest;
      DigitsLead(digits[1..], rest);
    }
  }

  lemma {:induction false} NumberFirst(n: nat, rest: string)
    requires rest != "" ==> !IsDigit(rest[0])
    ensures Numbers(Dec(n) + rest) == [n] + Numbers(rest)
  {
    var s := Dec(n) + rest;
    DecReadsBack(n);
    DigitsLead(Dec(n), rest);
    assert s[..|Dec(n)|] == Dec(n) && s[|Dec(n)|..] == rest;
  }

  /** Some words and a number in front of a text that goes on with words. */
  lemma {:induction false} OneNumber(words: string, n: nat, rest: string)
    requires Wordy(words) && (rest != "" ==> !IsDigit(rest[0]))
    ensures Numbers(words + Dec(n) + rest) == [n] + Numbers(rest)
  {
    NumberFirst(n, rest);
    NoNumbers(words, Dec(n) + rest);
    Assoc(words, Dec(n), rest);
  }

  lemma {:induction false} ThreeNumbers(a: string, i: nat, b: string, j: nat, c: string, k: nat, d: string)
    requires Wordy(a) && Wordy(b) && Wordy(c) && Wordy(d) && b != "" && c != "" && d != ""
    ensures Numbers(a + Dec(i) + b + Dec(j) + c + Dec(k) + d) == [i, j, k]
  {
    var last := c + Dec(k) + d;
    var more := b + Dec(j) + last;
    NoNumbers(d, "");
    assert d + "" == d;
    OneNumber(c, k, d);
    assert last[0] == c[0];
    OneNumber(b, j, last);
    assert more[0] == b[0];
    OneNumber(a, i, more);
    Regroup(a, Dec(i), b, Dec(j), c, Dec(k), d);
  }

  lemma Regroup(a: string, i: string, b: string, j: string, c: string, k: string, d: string)
    ensures a + i + b + j + c + k + d == a + i + (b + j + (c + k + d))
  {
  }

  lemma FullIsWordy()
    ensures Wordy(" characters; narrow the query or page") && Wordy(" through the source to get the rest]")
  {
  }

  lemma WordyAppend(a: string, b: string)
    requires Wordy(a) && Wordy(b)
    ensures Wordy(a + b)
  {
  }

  lemma {:induction false} FullTells(head: nat, tail: nat, size: nat)
    ensures Numbers(Notice(Full, head, tail, size)) == [head, tail, size]
  {
    var a, b := " characters; narrow the query or page", " through the source to get the rest]";
    FullIsWordy();
    WordyAppend(a, b);
    ThreeNumbers("\n[truncated: showing the first ", head, " and last ", tail, " of ", size, a + b);
  }

  /** The numbers a notice prints are the lengths of the head, the tail and the text; the shortest prints none. */
  lemma {:induction false} NoticeTells(f: Format, head: nat, tail: nat, size: nat)
    ensures Numbers(Notice(f, head, tail, size)) == if f.Minimal? then [] else [head, tail, size]
  {
    match f
    case Full => FullTells(head, tail, size);
    case Short => ThreeNumbers("\n[truncated: first ", head, " + last ", tail, " of ", size, " chars]");
    case Minimal =>
      NoNumbers("\n[truncated]", "");
      assert "\n[truncated]" + "" == "\n[truncated]";
  }

  /** The notice for a smaller split is never longer than the one reserved for the limit. */
  lemma NoticeMonotone(f: Format, head: nat, tail: nat, limit: nat, size: nat)
    requires head <= limit && tail <= limit
    ensures |Notice(f, head, tail, size)| <= |Notice(f, limit, limit, size)|
  {
    DecMonotone(head, limit);
    DecMonotone(tail, limit);
  }

  datatype Split = Split(head: nat, tail: nat, format: Format) | HeadOnly

  function SplitWith(f: Format, limit: nat, size: nat): (split: Option<Split>)
    ensures split.Some? ==> split.value.Split?
  {
    var payload := limit - |Notice(f, limit, limit, size)|;
    if payload <= 0 then None
    else Some(Split(payload * 3 / 4, payload - payload * 3 / 4, f))
  }

  /** The first notice, from the most to the least informative, that leaves room for text. */
  function TruncSplit(limit: nat, size: nat): Split {
    match SplitWith(Full, limit, size)
    case Some(s) => s
    case None =>
      match SplitWith(Short, limit, size)
      case Some(s) => s
      case None =>
        match SplitWith(Minimal, limit, size)
        case Some(s) => s
        case None => HeadOnly
  }

  function TakeHead(s: string, n: int): string {
    if n <= 0 then "" else if |s| <= n then s else s[..n]
  }

  function TakeTail(s: string, n: int): string {
    if n <= 0 then "" else if |s| <= n then s else s[|s| - n..]
  }

  /** `truncateToolResult`; a limit of 0 or less switches truncation off. */
  function Truncate(limit: int, text: string): string {
    if limit <= 0 || |text| <= limit then text
    else
      match TruncSplit(limit, |text|)
      case HeadOnly => TakeHead(text, limit)
      case Split(head, tail, f) => TakeHead(text, head) + Notice(f, head, tail, |text|) + TakeTail(text, tail)
  }

  lemma {:induction false} SplitWithFits(f: Format, limit: nat, size: nat)
    requires SplitWith(f, limit, size).Some?
    ensures var Split(head, tail, g) := SplitWith(f, limit, size).value;
      && g == f && tail >= 1 && 3 * tail - 3 <= head <= 3 * tail && head <= limit && tail <= limit
      && head + |Notice(f, limit, limit, size)| + tail == limit
  {
  }

  lemma {:induction false} SplitIsOneOf(limit: nat, size: nat)
    requires TruncSplit(limit, size).Split?
    ensures SplitWith(TruncSplit(limit, size).format, limit, size) == Some(TruncSplit(limit, size))
  {
  }

  /** A split keeps head, notice and tail together within the limit, and its tail is never empty. */
  lemma {:induction false} SplitFits(limit: nat, size: nat)
    requires TruncSplit(limit, size).Split?
    ensures var Split(head, tail, f) := TruncSplit(limit, size);
      && tail >= 1
      && 3 * tail - 3 <= head <= 3 * tail
      && head + |Notice(f, head, tail, size)| + tail <= limit
      && head + |Notice(f, limit, limit, size)| + tail == limit
  {
    var Split(head, tail, f) := TruncSplit(limit, size);
    SplitIsOneOf(limit, size);
    SplitWithFits(f, limit, size);
    NoticeMonotone(f, head, tail, limit, size);
  }

  predicate MoreInformative(f: Format, g: Format) {
    (f.Full? && !g.Full?) || (f.Short? && g.Minimal?)
  }

  /** A notice of this format leaves room for text. */
  predicate LeavesRoom(f: Format, limit: nat, size: nat) {
    |Notice(f, limit, limit, size)| < limit
  }

  /**
   The shape of a preview: a head of `h` characters and a tail of `t`, about three to one, around the
   best notice that leaves room, which prints these lengths and the text's unless it is the shortest.
   */
  ghost predicate Cut(limit: nat, text: string, preview: string, h: nat, notice: string, t: nat, f: Format) {
    && h + t < |text| && 3 * t - 3 <= h <= 3 * t
    && preview == text[..h] + notice + text[|text| - t..]
    && Numbers(notice) == (if f.Minimal? then [] else [h, t, |text|])
    && LeavesRoom(f, limit, |text|)
    && forall g :: MoreInformative(g, f) ==> !LeavesRoom(g, limit, |text|)
  }

  lemma {:induction false} SplitIsCut(limit: nat, text: string)
    requires 0 < limit < |text| && TruncSplit(limit, |text|).Split?
    ensures |Truncate(limit, text)| <= limit
    ensures exists h: nat, notice, t: nat, f :: Cut(limit, text, Truncate(limit, text), h, notice, t, f)
  {
    SplitIsBest(limit, |text|);
    SplitFits(limit, |text|);
    var Split(head, tail, f) := TruncSplit(limit, |text|);
    NoticeTells(f, head, tail, |text|);
    assert Cut(limit, text, Truncate(limit, text), head, Notice(f, head, tail, |text|), tail, f);
  }

  /**
   For every text and every positive limit the preview has at most `limit` characters. It is the
   text itself exactly when the text fits. Otherwise it is a head and a tail that do not overlap,
   around a notice that prints their lengths and the text's, with a less informative notice only
   where a more informative one leaves no room; or, where no notice does, a prefix of `limit`
   characters.
   */
  lemma {:induction false} PreviewIsBounded(limit: int, text: string)
    requires limit > 0
    ensures |Truncate(limit, text)| <= limit
    ensures Truncate(limit, text) == text <==> |text| <= limit
    ensures |text| > limit ==>
      if exists f :: LeavesRoom(f, limit, |text|)
      then exists h: nat, notice, t: nat, f :: Cut(limit, text, Truncate(limit, text), h, notice, t, f)
      else Truncate(limit, text) == text[..limit]
  {
    if |text| > limit {
      SplitIsBest(limit, |text|);
      if TruncSplit(limit, |text|).Split? {
        SplitIsCut(limit, text);
      }
    }
  }

  lemma {:induction false} SplitIsBest(limit: nat, size: nat)
    ensures match TruncSplit(limit, size)
      case Split(_, _, f) =>
        LeavesRoom(f, limit, size) && forall g :: MoreInformative(g, f) ==> !LeavesRoom(g, limit, size)
      case HeadOnly => forall f :: !LeavesRoom(f, limit, size)
  {
  }

  // ----- What the model is shown once the full text has been stored -----

  const TOOL_RESULT_READ := "tool_result_read"

  function SpillNotice(handle: string): string {
    "\n[result truncated: call " + TOOL_RESULT_READ + " with handle=\"" + handle + "\" to read the rest]"
  }

  const HANDLE := "handle=\""

  /** The text behind the last occurrence of the marker. */
  function BehindLast(s: string, marker: string): Option<string>
    decreases |s|
  {
    if |s| < |marker| then None
    else if s[|s| - |marker|..] == marker then Some("")
    else if s == "" then None
    else
      match BehindLast(s[..|s| - 1], marker)
      case None => None
      case Some(rest) => Some(rest + [s[|s| - 1]])
  }

  function UpToQuote(s: string): string {
    if s == "" || s[0] == '"' then "" else [s[0]] + UpToQuote(s[1..])
  }

  /** The handle a reader finds in a text: what stands in quotes behind the last `handle=`. */
  function HandleIn(s: string): Option<string> {
    match BehindLast(s, HANDLE)
    case None => None
    case Some(rest) => Some(UpToQuote(rest))
  }

  /** Nothing in `rest` completes the marker: it ends in a quote, and no quote in `rest` stands behind an `=`. */
  lemma {:induction false} MarkerIsLast(before: string, rest: string)
    requires forall i :: 0 <= i < |rest| && rest[i] == '"' ==> i > 0 && rest[i - 1] != '='
    ensures BehindLast(before + HANDLE + rest, HANDLE) == Some(rest)
    decreases |rest|
  {
    var s := before + HANDLE + rest;
    if rest == "" {
      assert s[|s| - |HANDLE|..] == HANDLE;
    } else {
      var k := |rest| - 1;
      assert s[..|s| - 1] == before + HANDLE + rest[..k];
      MarkerIsLast(before, rest[..k]);
      var last := s[|s| - |HANDLE|..];
      assert last[7] == rest[k] && HANDLE[7] == '"' && HANDLE[6] == '=';
      if rest[k] == '"' {
        assert last[6] == rest[k - 1];
      }
      assert rest == rest[..k] + [rest[k]];
    }
  }

  lemma {:induction false} QuoteEnds(handle: string, rest: string)
    requires '"' !in handle && rest != "" && rest[0] == '"'
    ensures UpToQuote(handle + rest) == handle
  {
    if handle == "" {
      assert handle + rest == rest;
    } else {
      assert (handle + rest)[1..] == handle[1..] + rest;
      QuoteEnds(handle[1..], rest);
    }
  }

  /** Whatever stands before it, the notice's own handle is the one that is found. */
  lemma {:induction false} NoticeNamesHandle(preview: string, handle: nat)
    ensures HandleIn(preview + SpillNotice(Dec(handle))) == Some(Dec(handle))
  {
    var digits, end := Dec(handle), "\" to read the rest]";
    var start := "\n[result truncated: call " + TOOL_RESULT_READ + " with ";
    DecReadsBack(handle);
    assert start + HANDLE == "\n[result truncated: call " + TOOL_RESULT_READ + " with handle=\"";
    assert preview + SpillNotice(digits) == preview + start + HANDLE + (digits + end);
    assert forall i :: 0 < i < |end| ==> end[i] != '"';
    MarkerIsLast(preview + start, digits + end);
    QuoteEnds(digits, end);
  }

  ghost predicate Mentions(s: string, word: string) {
    exists before, after :: s == before + word + after
  }

  /** The notice says which tool reads the handle. */
  lemma {:induction false} NoticeNamesReader(handle: string)
    ensures Mentions(SpillNotice(handle), "tool_result_read")
  {
    var start, end := "\n[result truncated: call ", " with handle=\"" + handle + "\" to read the rest]";
    assert SpillNotice(handle) == start + TOOL_RESULT_READ + end;
  }

  /** Whether `spillToolResult` stores the full text. */
  predicate Spills(limit: int, tool: string, full: string) {
    Truncate(limit, full) != full && tool != TOOL_RESULT_READ
  }

  /** The text shown to the model; `handle` is absent without a spiller or when storing failed. */
  function Shown(limit: int, tool: string, full: string, handle: Option<string>): string {
    var preview := Truncate(limit, full);
    if Spills(limit, tool, full) && handle.Some? then preview + SpillNotice(handle.value) else preview
  }

  /** The largest value of the setting: it is a signed 64-bit integer. */
  const MAX_INT := 0x7fff_ffff_ffff_ffff

  function Pow10(k: nat): nat {
    if k == 0 then 1 else 10 * Pow10(k - 1)
  }

  lemma {:induction false} DecIsShort(n: nat, k: nat)
    requires n < Pow10(k) && k > 0
    ensures |Dec(n)| <= k
  {
    if n >= 10 {
      DecIsShort(n / 10, k - 1);
    }
  }

  lemma IntsHave19Digits(n: nat)
    requires n <= MAX_INT
    ensures |Dec(n)| <= 19
  {
    assert Pow10(9) == 1_000_000_000;
    assert Pow10(19) == 10_000_000_000 * Pow10(9);
    DecIsShort(n, 19);
  }

  /** Reserving for the limit wastes at most the digits that the real numbers do not need. */
  lemma {:induction false} NoticeIsTight(f: Format, head: nat, tail: nat, limit: nat, size: nat)
    ensures |Notice(f, limit, limit, size)| <= |Notice(f, head, tail, size)| + 2 * |Dec(limit)|
  {
  }

  lemma {:induction false} PreviewIsNearTheLimit(limit: int, text: string)
    requires 0 < limit < |text|
    ensures |Truncate(limit, text)| >= limit - 2 * |Dec(limit)|
  {
    if TruncSplit(limit, |text|).Split? {
      var Split(head, tail, f) := TruncSplit(limit, |text|);
      SplitFits(limit, |text|);
      assert |Truncate(limit, text)| == head + |Notice(f, head, tail, |text|)| + tail;
      NoticeIsTight(f, head, tail, limit, |text|);
    }
  }

  lemma {:induction false} NoticeIsLongerThanTheSlack(limit: nat, full: string, handle: string)
    requires 0 < limit <= MAX_INT && |full| > limit
    ensures |Truncate(limit, full)| + |SpillNotice(handle)| > limit
  {
    PreviewIsNearTheLimit(limit, full);
    IntsHave19Digits(limit);
    assert |SpillNotice(handle)| > 38;
  }

  /**
   The text shown to the model passes the limit exactly when it carries a handle: the notice is
   always longer than what the preview leaves free. It passes it by no more than the notice.
   */
  lemma {:induction false} ShownPassesTheLimitExactly(limit: int, tool: string, full: string, handle: Option<string>)
    requires 0 < limit <= MAX_INT
    ensures |Shown(limit, tool, full, handle)| > limit <==> |full| > limit && tool != TOOL_RESULT_READ && handle.Some?
    ensures handle.Some? ==> |Shown(limit, tool, full, handle)| <= limit + |SpillNotice(handle.value)|
  {
    PreviewIsBounded(limit, full);
    if Spills(limit, tool, full) && handle.Some? {
      NoticeIsLongerThanTheSlack(limit, full, handle.value);
    }
  }

  lemma ShownMayPassTheLimit()
    ensures |Shown(1, "fetch", "ab", Some("7"))| > 1
  {
    PreviewIsBounded(1, "ab");
  }
}
