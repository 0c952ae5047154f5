/** Splitting a long message into pieces of bounded size without cutting a UTF-8 character. */
module SplitBytes {
  import opened Wrappers

  newtype byte = b: int | 0 <= b < 256

  /** A continuation byte. */
  predicate Tail(b: byte) {
    b / 64 == 2
  }

  predicate Tails(s: seq<byte>) {
    forall i :: 0 <= i < |s| ==> Tail(s[i])
  }

  /** The length of the character at the front by sections 3 and 4 of RFC 3629, or 0 if there is none. */
  function CharLen(s: seq<byte>): (n: nat)
    ensures n <= |s| && n <= 4
    ensures n > 0 ==> !Tail(s[0]) && Tails(s[1..n])
  {
    if s == [] then 0
    else if s[0] < 0x80 then 1
    else if 0xC2 <= s[0] <= 0xDF && |s| >= 2 && Tail(s[1]) then 2
    else if 0xE0 <= s[0] <= 0xEF && |s| >= 3 && Second3(s[0], s[1]) && Tail(s[2]) then 3
    else if 0xF0 <= s[0] <= 0xF4 && |s| >= 4 && Second4(s[0], s[1]) && Tail(s[2]) && Tail(s[3]) then 4
    else 0
  }

  predicate Second3(first: byte, second: byte) {
    Tail(second) && (first == 0xE0 ==> second >= 0xA0) && (first == 0xED ==> second <= 0x9F)
  }

  predicate Second4(first: byte, second: byte) {
    Tail(second) && (first == 0xF0 ==> second >= 0x90) && (first == 0xF4 ==> second <= 0x8F)
  }

  predicate ValidUtf8(s: seq<byte>)
    decreases |s|
  {
    s == [] || (CharLen(s) > 0 && ValidUtf8(s[CharLen(s)..]))
  }

  /** No character is longer than `max` bytes. */
  predicate CharsFit(s: seq<byte>, max: nat)
    decreases |s|
  {
    s == [] || CharLen(s) == 0 || (CharLen(s) <= max && CharsFit(s[CharLen(s)..], max))
  }

  // ----- Splitting -----

  /** The last position up to `end` that does not hold a continuation byte; 0 if there is none. */
  function BackUp(s: seq<byte>, end: nat): (e: nat)
    requires end < |s|
    ensures e <= end && (e == 0 || !Tail(s[e]))
    ensures forall i :: e < i <= end ==> Tail(s[i])
  {
    if end > 0 && Tail(s[end]) then BackUp(s, end - 1) else end
  }

  /** Where the first piece ends. */
  function FirstEnd(s: seq<byte>, max: nat): (e: nat)
    requires s != [] && max > 0
    ensures 0 < e <= |s| && e <= max
  {
    if |s| <= max then |s|
    else if BackUp(s, max) == 0 then max
    else BackUp(s, max)
  }

  function Pieces(s: seq<byte>, max: nat): seq<seq<byte>>
    requires max > 0
  {
    if s == [] then [] else [s[..FirstEnd(s, max)]] + Pieces(s[FirstEnd(s, max)..], max)
  }

  function Split(s: seq<byte>, max: nat): seq<seq<byte>>
    requires max > 0 || |s| <= max
  {
    if |s| <= max then [s] else Pieces(s, max)
  }

  /** `splitByBytes` ends for every positive limit. */
  method SplitByBytes(text: seq<byte>, max: nat) returns (parts: seq<seq<byte>>)
    requires max > 0 || |text| <= max
    ensures parts == Split(text, max)
  {
    if |text| <= max {
      return [text];
    }
    var s := text;
    parts := [];
    while |s| > 0
      invariant Pieces(text, max) == parts + Pieces(s, max)
      decreases |s|
    {
      var end := max;
      if end > |s| {
        end := |s|;
      }
      while end > 0 && end < |s| && Tail(s[end])
        invariant 0 <= end <= max && end <= |s|
        invariant end == |s| ==> |s| <= max
        invariant end < |s| ==> max < |s| && BackUp(s, end) == BackUp(s, max)
      {
        end := end - 1;
      }
      if end == 0 {
        end := max;
      }
      assert end == FirstEnd(s, max);
      Assoc(parts, [s[..end]], Pieces(s[end..], max));
      parts := parts + [s[..end]];
      s := s[end..];
    }
  }

  /** For any bytes at all, the pieces make up the text, none is too long and none is empty. */
  lemma {:induction false} PiecesMakeUpTheText(s: seq<byte>, max: nat)
    requires max > 0
    ensures Concat(Pieces(s, max)) == s
    ensures forall p :: p in Pieces(s, max) ==> 0 < |p| <= max
  {
    if s != [] {
      var e := FirstEnd(s, max);
      PiecesMakeUpTheText(s[e..], max);
      assert s == s[..e] + s[e..];
      assert Pieces(s, max)[1..] == Pieces(s[e..], max);
    }
  }

  lemma {:induction false} SplitMakesUpTheText(s: seq<byte>, max: nat)
    requires max > 0 || |s| <= max
    ensures Concat(Split(s, max)) == s
    ensures forall p :: p in Split(s, max) ==> |p| <= max && (s != [] ==> p != [])
  {
    if |s| <= max {
      assert Concat([s]) == s + Concat([s][1..]);
      assert [s][1..] == [];
    } else {
      PiecesMakeUpTheText(s, max);
    }
  }

  // ----- Characters -----

  lemma CharOfPrefix(s: seq<byte>, e: nat)
    requires CharLen(s) <= e <= |s| && CharLen(s) > 0
    ensures CharLen(s[..e]) == CharLen(s)
  {
  }

  lemma CutIsBehindFirst(s: seq<byte>, e: nat)
    requires 0 < e <= |s| && (e < |s| ==> !Tail(s[e]))
    ensures CharLen(s) <= e
  {
  }

  /** A valid text may be cut anywhere but before a continuation byte. */
  lemma {:induction false} CutKeepsValid(s: seq<byte>, e: nat)
    requires ValidUtf8(s) && e <= |s| && (e < |s| ==> !Tail(s[e]))
    ensures ValidUtf8(s[..e]) && ValidUtf8(s[e..])
    decreases |s|
  {
    if e > 0 {
      var n := CharLen(s);
      CutIsBehindFirst(s, e);
      assert e - n < |s[n..]| ==> s[n..][e - n] == s[e];
      CutKeepsValid(s[n..], e - n);
      CharOfPrefix(s, e);
      assert s[..e][n..] == s[n..][..e - n];
      assert s[n..][e - n..] == s[e..];
    } else {
      assert s[0..] == s;
    }
  }

  lemma {:induction false} FourAlwaysFit(s: seq<byte>, max: nat)
    requires max >= 4
    ensures CharsFit(s, max)
    decreases |s|
  {
    if s != [] && CharLen(s) > 0 {
      FourAlwaysFit(s[CharLen(s)..], max);
    }
  }

  /** The first piece is cut between characters when the first character fits. */
  lemma {:induction false} FirstCut(s: seq<byte>, max: nat)
    requires ValidUtf8(s) && s != [] && max > 0
    ensures var e := FirstEnd(s, max);
      CharLen(s) <= max ==> ValidUtf8(s[..e]) && ValidUtf8(s[e..]) && (e < |s| ==> !Tail(s[e]))
  {
    var n := CharLen(s);
    var e := FirstEnd(s, max);
    if n <= max {
      if |s| > max {
        NextStarts(s);
        assert n <= BackUp(s, max);
      }
      CutKeepsValid(s, e);
    }
  }

  lemma NextStarts(s: seq<byte>)
    requires ValidUtf8(s) && s != []
    ensures CharLen(s) < |s| ==> !Tail(s[CharLen(s)])
  {
    var n := CharLen(s);
    if n < |s| {
      assert s[n..][0] == s[n];
    }
  }

  lemma {:induction false} CutKeepsFit(s: seq<byte>, e: nat, max: nat)
    requires ValidUtf8(s) && e <= |s| && (e < |s| ==> !Tail(s[e])) && CharsFit(s, max)
    ensures CharsFit(s[e..], max)
    decreases |s|
  {
    if e > 0 {
      var n := CharLen(s);
      CutIsBehindFirst(s, e);
      assert e - n < |s[n..]| ==> s[n..][e - n] == s[e];
      CutKeepsFit(s[n..], e - n, max);
      assert s[n..][e - n..] == s[e..];
    } else {
      assert s[0..] == s;
    }
  }

  /** A valid piece of at most `max` bytes in front does not bring in a longer character. */
  lemma {:induction false} ShortPieceFits(a: seq<byte>, b: seq<byte>, max: nat)
    requires ValidUtf8(a) && |a| <= max && CharsFit(b, max)
    ensures CharsFit(a + b, max)
    decreases |a|
  {
    if a == [] {
      assert a + b == b;
    } else {
      var n := CharLen(a);
      assert (a + b)[..|a|] == a;
      LongerHasChar(a, b);
      assert (a + b)[n..] == a[n..] + b;
      ShortPieceFits(a[n..], b, max);
    }
  }

  lemma LongerHasChar(a: seq<byte>, b: seq<byte>)
    requires CharLen(a) > 0
    ensures CharLen(a + b) == CharLen(a)
  {
  }

  ghost predicate AllValid(parts: seq<seq<byte>>) {
    forall p :: p in parts ==> ValidUtf8(p)
  }

  lemma {:induction false} ValidPiecesExactly(s: seq<byte>, max: nat)
    requires ValidUtf8(s) && max > 0
    ensures AllValid(Pieces(s, max)) <==> CharsFit(s, max)
    decreases |s|
  {
    if s != [] {
      var e := FirstEnd(s, max);
      var rest := Pieces(s[e..], max);
      assert Pieces(s, max) == [s[..e]] + rest;
      assert s == s[..e] + s[e..];
      FirstCut(s, max);
      if CharLen(s) <= max {
        ValidPiecesExactly(s[e..], max);
        if CharsFit(s, max) {
          CutKeepsFit(s, e, max);
        }
        if CharsFit(s[e..], max) {
          ShortPieceFits(s[..e], s[e..], max);
        }
      } else if ValidUtf8(s[..e]) {
        LongerHasChar(s[..e], s[e..]);
      } else {
        assert s[..e] in Pieces(s, max);
      }
    }
  }

  /**
   Every piece of a valid text is valid exactly when the text is short or none of its characters is
   longer than the limit.
   */
  lemma {:induction false} SplitKeepsCharactersExactly(s: seq<byte>, max: nat)
    requires ValidUtf8(s) && (max > 0 || |s| <= max)
    ensures AllValid(Split(s, max)) <==> |s| <= max || CharsFit(s, max)
  {
    if |s| > max {
      ValidPiecesExactly(s, max);
    }
  }

  /** A limit never cuts a character of any text exactly when it is at least four bytes. */
  lemma SafeLimits(max: nat)
    requires max > 0
    ensures (forall s :: ValidUtf8(s) ==> AllValid(Split(s, max))) <==> max >= 4
  {
    if max >= 4 {
      forall s | ValidUtf8(s)
        ensures AllValid(Split(s, max))
      {
        SplitKeepsCharactersExactly(s, max);
        FourAlwaysFit(s, max);
      }
    } else {
      var face: seq<byte> := [0xF0, 0x9F, 0x98, 0x80];
      assert CharLen(face) == 4 && face[4..] == [];
      assert ValidUtf8(face) && !CharsFit(face, max);
      SplitKeepsCharactersExactly(face, max);
    }
  }

  /** A character longer would not fit, or would not be whole. */
  lemma {:induction false} FirstPieceIsFull(s: seq<byte>, max: nat)
    requires ValidUtf8(s) && s != [] && max > 0 && CharLen(s) <= max && FirstEnd(s, max) < |s|
    ensures FirstEnd(s, max) + CharLen(s[FirstEnd(s, max)..]) > max
  {
    var e := FirstEnd(s, max);
    FirstCut(s, max);
    var rest := s[e..];
    NextStarts(rest);
    if e + CharLen(rest) < |s| {
      assert rest[CharLen(rest)] == s[e + CharLen(rest)];
    }
  }

  /** The pieces are as long as can be: none has room for the first character of the next. */
  lemma {:induction false} PiecesAreFull(s: seq<byte>, max: nat, i: nat)
    requires ValidUtf8(s) && max > 0 && CharsFit(s, max) && i + 1 < |Pieces(s, max)|
    ensures |Pieces(s, max)[i]| + CharLen(Pieces(s, max)[i + 1]) > max
    decreases |s|
  {
    var e := FirstEnd(s, max);
    var rest := s[e..];
    FirstCut(s, max);
    CutKeepsFit(s, e, max);
    if i > 0 {
      PiecesAreFull(rest, max, i - 1);
    } else {
      FirstPieceIsFull(s, max);
      PieceBegins(rest, max);
    }
  }

  lemma {:induction false} PieceBegins(s: seq<byte>, max: nat)
    requires ValidUtf8(s) && s != [] && max > 0 && CharLen(s) <= max
    ensures CharLen(Pieces(s, max)[0]) == CharLen(s)
  {
    var e := FirstEnd(s, max);
    if |s| > max {
      NextStarts(s);
    }
    assert CharLen(s) <= e;
    CharOfPrefix(s, e);
  }

  lemma {:induction false} SplitIsFull(s: seq<byte>, max: nat, i: nat)
    requires ValidUtf8(s) && max > 0 && CharsFit(s, max) && i + 1 < |Split(s, max)|
    ensures |Split(s, max)[i]| + CharLen(Split(s, max)[i + 1]) > max
  {
    PiecesAreFull(s, max, i);
  }

  /** The length of `n` pieces of `k` bytes each. */
  function Length(n: nat, k: nat): nat {
    if n == 0 then 0 else k + Length(n - 1, k)
  }

  lemma {:induction false} LengthIsProduct(n: nat, k: nat)
    ensures Length(n, k) == n * k
  {
    if n > 0 {
      LengthIsProduct(n - 1, k);
      assert n * k == (n - 1) * k + k;
    }
  }

  lemma {:induction false} LongPiecesAreFew(ps: seq<seq<byte>>, k: nat)
    requires ps != [] && forall i :: 0 <= i < |ps| ==> |ps[i]| >= if i + 1 < |ps| then k else 1
    ensures Length(|ps| - 1, k) < |Concat(ps)|
  {
    if |ps| > 1 {
      LongPiecesAreFew(ps[1..], k);
    }
  }

  /** A valid text of n bytes needs at most n / (max - 3) pieces, rounded up. */
  lemma {:induction false} SplitIsShort(s: seq<byte>, max: nat)
    requires ValidUtf8(s) && s != [] && max >= 4
    ensures (|Split(s, max)| - 1) * (max - 3) < |s|
  {
    var ps := Split(s, max);
    SplitMakesUpTheText(s, max);
    FourAlwaysFit(s, max);
    forall i | 0 <= i < |ps|
      ensures |ps[i]| >= if i + 1 < |ps| then max - 3 else 1
    {
      assert ps[i] in ps;
      if i + 1 < |ps| {
        SplitIsFull(s, max, i);
      }
    }
    LongPiecesAreFew(ps, max - 3);
    LengthIsProduct(|ps| - 1, max - 3);
  }
}
