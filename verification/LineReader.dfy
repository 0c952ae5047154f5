/** Reading lines in order until one of them ends it: what the stream accumulators have in common. */
module LineReader {
  import opened Wrappers

  /** Reading goes on past every one of these lines; `endAt` tells how it ends at the last of some lines, if it does. */
  predicate GoesOn<L, E>(endAt: seq<L> -> Option<E>, lines: seq<L>) {
    lines == [] || (GoesOn(endAt, lines[..|lines| - 1]) && endAt(lines).None?)
  }

  /**
   Reading stops right behind the first `used` lines, in this way: at the first line that ends it,
   or at the end of the input, with `last`, if none does.
   */
  predicate StopsAt<L, E(==)>(endAt: seq<L> -> Option<E>, last: E, lines: seq<L>, used: nat, end: E) {
    && used <= |lines|
    && if GoesOn(endAt, lines[..used]) then used == |lines| && end == last
       else GoesOn(endAt, lines[..used - 1]) && endAt(lines[..used]) == Some(end)
  }

  /** Reading that goes on past some lines goes on past fewer. */
  lemma {:induction false} WentOn<L, E>(endAt: seq<L> -> Option<E>, lines: seq<L>, k: nat)
    requires GoesOn(endAt, lines) && k <= |lines|
    ensures GoesOn(endAt, lines[..k])
  {
    if k < |lines| {
      WentOn(endAt, lines[..|lines| - 1], k);
      assert lines[..|lines| - 1][..k] == lines[..k];
    } else {
      assert lines[..k] == lines;
    }
  }

  lemma {:induction false} NotBefore<L, E>(endAt: seq<L> -> Option<E>, lines: seq<L>, i: nat, j: nat)
    requires i < j <= |lines| && (GoesOn(endAt, lines[..j]) || GoesOn(endAt, lines[..j - 1]))
    ensures GoesOn(endAt, lines[..i])
  {
    var k := if GoesOn(endAt, lines[..j]) then j else j - 1;
    WentOn(endAt, lines[..k], i);
    assert lines[..k][..i] == lines[..i];
  }

  /** There is one way to stop. */
  lemma {:induction false} StopIsUnique<L, E>(endAt: seq<L> -> Option<E>, last: E, lines: seq<L>,
                                              used: nat, end: E, used': nat, end': E)
    requires StopsAt(endAt, last, lines, used, end) && StopsAt(endAt, last, lines, used', end')
    ensures used == used' && end == end'
  {
    if used < used' {
      NotBefore(endAt, lines, used, used');
    } else if used' < used {
      NotBefore(endAt, lines, used', used);
    }
  }

  /** The lines before the first marked one. */
  function Before<L>(marked: L -> bool, lines: seq<L>): seq<L> {
    if lines == [] || marked(lines[0]) then [] else [lines[0]] + Before(marked, lines[1..])
  }

  lemma {:induction false} BeforeIsPrefix<L>(marked: L -> bool, lines: seq<L>)
    ensures var n := |Before(marked, lines)|;
      && n <= |lines| && Before(marked, lines) == lines[..n]
      && (forall i :: 0 <= i < n ==> !marked(lines[i]))
      && (n < |lines| ==> marked(lines[n]))
  {
    if lines != [] && !marked(lines[0]) {
      BeforeIsPrefix(marked, lines[1..]);
    }
  }
}
