/**
 The idempotency keys of web requests. SHA-256 in hexadecimal is a parameter: a function to strings
 of 64 characters. Such a function has collisions; a result that needs two requests to be free of
 them says so.
 */
module TurnKeys {
  import opened Wrappers
  import opened Text
  import Turns

  const DIGEST_LENGTH := 64
  const NUL := '\U{0000}'

  ghost predicate HasDigestLength(hash: string -> string) {
    forall s :: |hash(s)| == DIGEST_LENGTH
  }

  /** The parts of a chat request that enter the key. */
  datatype WebRequest = WebRequest(owner: string, session: string, prompt: string, skills: seq<string>,
                                   mcps: seq<string>)

  function JoinParts(a: string, b: string, c: string, d: string): string {
    a + [NUL] + b + [NUL] + c + [NUL] + d
  }

  /** What the request digest is taken of; the lists are joined with commas. */
  function Parts(q: WebRequest): string {
    JoinParts(q.prompt, q.session, Join(q.skills, ","), Join(q.mcps, ","))
  }

  function TurnDigest(hash: string -> string, q: WebRequest): string {
    hash(Parts(q) + [NUL])
  }

  /** What the key is taken of. */
  function KeyText(hash: string -> string, q: WebRequest): string {
    q.owner + q.session + q.prompt + TurnDigest(hash, q)
  }

  predicate Apart(hash: string -> string, s: string, t: string) {
    hash(s) == hash(t) ==> s == t
  }

  /** Neither the digested parts nor the texts of the keys of these two requests collide. */
  predicate NoCollision(hash: string -> string, p: WebRequest, q: WebRequest) {
    Apart(hash, Parts(p) + [NUL], Parts(q) + [NUL]) && Apart(hash, KeyText(hash, p), KeyText(hash, q))
  }

  /** `nonce` is present on a retry or a regenerate, which must not meet an older turn. */
  function WebTurnKey(hash: string -> string, q: WebRequest, nonce: string, retry: bool): string {
    var base := "web:" + hash(KeyText(hash, q));
    if retry then base + ":" + nonce else base
  }

  /** A string without NUL is cut off unambiguously by the first NUL after it. */
  lemma CutAtNul(a: string, x: string, b: string, y: string)
    requires NUL !in a && NUL !in b && a + [NUL] + x == b + [NUL] + y
    ensures a == b && x == y
  {
    var u, v := a + [NUL] + x, b + [NUL] + y;
    assert u[|a|] == NUL && v[|b|] == NUL;
    assert forall i :: 0 <= i < |a| ==> u[i] == a[i];
    assert forall i :: 0 <= i < |b| ==> v[i] == b[i];
    assert |a| == |b|;
    assert a == u[..|a|] && b == v[..|b|] && x == u[|a| + 1..] && y == v[|b| + 1..];
  }

  lemma SameTail(a: string, x: string, b: string, y: string)
    requires |x| == |y| && a + x == b + y
    ensures a == b && x == y
  {
    var u := a + x;
    assert |a| == |b|;
    assert a == u[..|a|] && x == u[|a|..];
    assert b == (b + y)[..|b|] && y == (b + y)[|b|..];
  }

  // ----- Joined lists -----

  /** No element holds a comma, and the list is not a single empty string. */
  predicate PlainList(xs: seq<string>) {
    xs != [""] && forall x :: x in xs ==> ',' !in x
  }

  /** The text cut at its commas. */
  function CutAtCommas(s: string): (xs: seq<string>)
    ensures xs != []
  {
    if s == "" then [""]
    else
      var rest := CutAtCommas(s[1..]);
      if s[0] == ',' then [""] + rest else [[s[0]] + rest[0]] + rest[1..]
  }

  /** The plain list behind a joined text. */
  function PlainOf(s: string): seq<string> {
    if s == "" then [] else CutAtCommas(s)
  }

  lemma {:induction false} JoinCons(x: string, xs: seq<string>)
    requires xs != []
    ensures Join([x] + xs, ",") == x + "," + Join(xs, ",")
  {
    assert ([x] + xs)[1..] == xs;
  }

  lemma {:induction false} JoinGrows(c: char, xs: seq<string>)
    requires xs != []
    ensures Join([[c] + xs[0]] + xs[1..], ",") == [c] + Join(xs, ",")
  {
    if |xs| > 1 {
      assert xs == [xs[0]] + xs[1..];
      JoinCons(xs[0], xs[1..]);
      JoinCons([c] + xs[0], xs[1..]);
    }
  }

  lemma {:induction false} CutsJoin(s: string)
    ensures Join(CutAtCommas(s), ",") == s
    ensures forall x :: x in CutAtCommas(s) ==> ',' !in x
  {
    if s != "" {
      var rest := CutAtCommas(s[1..]);
      CutsJoin(s[1..]);
      if s[0] == ',' {
        JoinCons("", rest);
      } else {
        JoinGrows(s[0], rest);
        assert rest[0] in rest;
      }
    }
  }

  lemma {:induction false} CutBehind(x: string, t: string)
    requires ',' !in x
    ensures CutAtCommas(x + "," + t) == [x] + CutAtCommas(t)
  {
    var s := x + "," + t;
    if x == "" {
      assert s[1..] == t;
    } else {
      assert s[1..] == x[1..] + "," + t;
      CutBehind(x[1..], t);
      assert [x[0]] + x[1..] == x;
    }
  }

  lemma {:induction false} CutNothing(x: string)
    requires ',' !in x
    ensures CutAtCommas(x) == [x]
  {
    if x != "" {
      CutNothing(x[1..]);
      assert [x[0]] + x[1..] == x;
    }
  }

  lemma {:induction false} JoinsCut(xs: seq<string>)
    requires xs != [] && forall x :: x in xs ==> ',' !in x
    ensures CutAtCommas(Join(xs, ",")) == xs
  {
    if |xs| == 1 {
      CutNothing(xs[0]);
    } else {
      JoinsCut(xs[1..]);
      CutBehind(xs[0], Join(xs[1..], ","));
      assert Join(xs, ",") == xs[0] + "," + Join(xs[1..], ",");
    }
  }

  /** Every list joins to the same text as exactly one plain list. */
  lemma {:induction false} OnePlainListPerText(xs: seq<string>)
    ensures PlainList(PlainOf(Join(xs, ","))) && Join(PlainOf(Join(xs, ",")), ",") == Join(xs, ",")
    ensures PlainList(xs) ==> PlainOf(Join(xs, ",")) == xs
  {
    CutsJoin(Join(xs, ","));
    if PlainList(xs) && xs != [] {
      JoinsCut(xs);
      CutNothing("");
    }
  }

  lemma {:induction false} JoinHasNoNul(xs: seq<string>)
    requires forall x :: x in xs ==> NUL !in x
    ensures NUL !in Join(xs, ",")
  {
    if |xs| > 1 {
      JoinHasNoNul(xs[1..]);
    }
  }

  // ----- Which requests share a key -----

  /** For any two requests at all there is a digest that keeps them apart. */
  lemma {:induction false} SomeDigestKeepsApart(p: WebRequest, q: WebRequest) returns (hash: string -> string)
    ensures HasDigestLength(hash) && NoCollision(hash, p, q)
  {
    var a, b := seq(DIGEST_LENGTH, _ => 'a'), seq(DIGEST_LENGTH, _ => 'b');
    var dp, dq := Parts(p) + [NUL], Parts(q) + [NUL];
    var d := if dp == dq then a else b;
    var kp, kq := p.owner + p.session + p.prompt + a, q.owner + q.session + q.prompt + d;
    hash := s => if (s == dq && dq != dp) || (s == kq && kq != kp) then b else a;
    assert dp[|dp| - 1] == NUL && dq[|dq| - 1] == NUL;
    assert kp[|kp| - 1] == 'a' && (kq[|kq| - 1] == 'a' || kq[|kq| - 1] == 'b');
    assert KeyText(hash, p) == kp && KeyText(hash, q) == kq;
    assert a[0] != b[0];
  }

  /** What is hashed alike has one key, and for requests kept apart by the digest nothing else has. */
  lemma {:induction false} KeysMeetExactly(hash: string -> string, p: WebRequest, q: WebRequest)
    requires HasDigestLength(hash) && NoCollision(hash, p, q)
    ensures WebTurnKey(hash, p, "", false) == WebTurnKey(hash, q, "", false) <==>
      p.owner + p.session + p.prompt == q.owner + q.session + q.prompt && Parts(p) == Parts(q)
  {
    if WebTurnKey(hash, p, "", false) == WebTurnKey(hash, q, "", false) {
      SameTail("web:", hash(KeyText(hash, p)), "web:", hash(KeyText(hash, q)));
      SameTail(p.owner + p.session + p.prompt, TurnDigest(hash, p),
               q.owner + q.session + q.prompt, TurnDigest(hash, q));
      SameTail(Parts(p), [NUL], Parts(q), [NUL]);
    }
  }

  /** The same prompt and session, and lists that join to the same texts. */
  predicate SameQuestion(p: WebRequest, q: WebRequest) {
    && p.prompt == q.prompt && p.session == q.session
    && Join(p.skills, ",") == Join(q.skills, ",") && Join(p.mcps, ",") == Join(q.mcps, ",")
  }

  lemma {:induction false} PartsApart(p: WebRequest, q: WebRequest)
    requires NulFree(p) && NulFree(q) && Parts(p) == Parts(q)
    ensures SameQuestion(p, q)
  {
    var ps, qs := Join(p.skills, ","), Join(q.skills, ",");
    var pm, qm := Join(p.mcps, ","), Join(q.mcps, ",");
    JoinHasNoNul(p.skills);
    JoinHasNoNul(q.skills);
    NestedParts(p.prompt, p.session, ps, pm);
    NestedParts(q.prompt, q.session, qs, qm);
    CutAtNul(p.prompt, p.session + [NUL] + (ps + [NUL] + pm), q.prompt, q.session + [NUL] + (qs + [NUL] + qm));
    CutAtNul(p.session, ps + [NUL] + pm, q.session, qs + [NUL] + qm);
    CutAtNul(ps, pm, qs, qm);
  }

  lemma {:induction false} NestedParts(a: string, b: string, c: string, d: string)
    ensures JoinParts(a, b, c, d) == a + [NUL] + (b + [NUL] + (c + [NUL] + d))
  {
  }

  predicate NulFree(q: WebRequest) {
    NUL !in q.prompt && NUL !in q.session && forall x :: x in q.skills ==> NUL !in x
  }

  /** The request with its lists read back from what they are joined to. */
  function Plain(q: WebRequest): WebRequest {
    q.(skills := PlainOf(Join(q.skills, ",")), mcps := PlainOf(Join(q.mcps, ",")))
  }

  /**
   Without NUL characters and collisions, two first-time web requests meet on one turn exactly when they have the
   same owner, session and prompt and their lists join to the same texts. So among requests with
   plain lists the key identifies the request, and every other list shares its key with a plain one.
   */
  lemma {:induction false} KeyIdentifiesRequest(hash: string -> string, p: WebRequest, q: WebRequest)
    requires HasDigestLength(hash) && NoCollision(hash, p, q) && NulFree(p) && NulFree(q)
    ensures WebTurnKey(hash, p, "", false) == WebTurnKey(hash, q, "", false) <==> Plain(p) == Plain(q)
    ensures PlainList(p.skills) && PlainList(p.mcps) <==> Plain(p) == p
  {
    KeysMeetExactly(hash, p, q);
    OnePlainListPerText(p.skills);
    OnePlainListPerText(p.mcps);
    OnePlainListPerText(q.skills);
    OnePlainListPerText(q.mcps);
    if Parts(p) == Parts(q) {
      PartsApart(p, q);
      if p.owner + p.session + p.prompt == q.owner + q.session + q.prompt {
        SameTail(p.owner + p.session, p.prompt, q.owner + q.session, q.prompt);
        SameTail(p.owner, p.session, q.owner, q.session);
      }
    }
  }

  /** Three pairs of different requests with one key, whatever the hash: an empty element, a comma, and a NUL. */
  lemma {:induction false} DifferentRequestsShareAKey(hash: string -> string, q: WebRequest)
    ensures WebTurnKey(hash, q.(skills := []), "", false) == WebTurnKey(hash, q.(skills := [""]), "", false)
    ensures WebTurnKey(hash, q.(skills := ["a,b"]), "", false) == WebTurnKey(hash, q.(skills := ["a", "b"]), "", false)
    ensures WebTurnKey(hash, q.(skills := ["a" + [NUL] + "b"], mcps := ["c"]), "", false)
         == WebTurnKey(hash, q.(skills := ["a"], mcps := ["b" + [NUL] + "c"]), "", false)
  {
    assert Parts(q.(skills := [])) == Parts(q.(skills := [""]));
    var one, two := q.(skills := ["a,b"]), q.(skills := ["a", "b"]);
    assert Join(["a"] + ["b"], ",") == Join(["a,b"], ",") by {
      JoinCons("a", ["b"]);
      assert "a" + "," + "b" == "a,b";
    }
    assert ["a", "b"] == ["a"] + ["b"];
    assert Parts(one) == Parts(two);
    var three := q.(skills := ["a" + [NUL] + "b"], mcps := ["c"]);
    var four := q.(skills := ["a"], mcps := ["b" + [NUL] + "c"]);
    assert Parts(three) == JoinParts(q.prompt, q.session, "a" + [NUL] + "b", "c");
    assert Parts(four) == JoinParts(q.prompt, q.session, "a", "b" + [NUL] + "c");
    assert Parts(three) == Parts(four);
  }

  /** A retry never meets a first-time turn, whatever its nonce, and two retries meet only on one nonce. */
  lemma {:induction false} RetriesStandAlone(hash: string -> string, p: WebRequest, q: WebRequest, m: string, n: string)
    requires HasDigestLength(hash)
    ensures WebTurnKey(hash, p, m, true) != WebTurnKey(hash, q, n, false)
    ensures m != n ==> WebTurnKey(hash, p, m, true) != WebTurnKey(hash, q, n, true)
  {
    assert |hash(KeyText(hash, p))| == |hash(KeyText(hash, q))| == DIGEST_LENGTH;
    assert |WebTurnKey(hash, p, m, true)| > |WebTurnKey(hash, q, n, false)|;
    if WebTurnKey(hash, p, m, true) == WebTurnKey(hash, q, n, true) {
      assert WebTurnKey(hash, p, m, true)[4 + DIGEST_LENGTH + 1..] == m;
      assert WebTurnKey(hash, q, n, true)[4 + DIGEST_LENGTH + 1..] == n;
    }
  }

  // ----- What a web request may be answered with -----

  /** These requests of the protocol carry the digests of these web requests. */
  ghost predicate Carries(hash: string -> string, s: Turns.State, web: map<nat, WebRequest>) {
    forall r :: r in s.reqs ==> r in web && s.reqs[r].input.digest == TurnDigest(hash, web[r])
  }

  ghost predicate AllApart(hash: string -> string, web: map<nat, WebRequest>) {
    forall r, c :: r in web && c in web ==> Apart(hash, Parts(web[r]) + [NUL], Parts(web[c]) + [NUL])
  }

  /**
   In every run, an answer replayed to a web request comes from the last error-free finish of a turn
   that was created for the same digested parts, and so, without NUL characters, for the same
   question.
   */
  lemma {:induction false} ReplaysAnswerTheSameQuestion(hash: string -> string, s: Turns.State,
                                                        run: seq<Turns.Action>, web: map<nat, WebRequest>, i: nat)
    returns (creator: nat)
    requires HasDigestLength(hash) && AllApart(hash, web) && Carries(hash, s, web) && Turns.Initial(s)
    requires i < |Turns.Exec(s, run).log| && Turns.Exec(s, run).log[i].Served?
    ensures var t := Turns.Exec(s, run);
      var e := t.log[i];
      && Turns.WrittenBy(t.log[..i], e.key, e.answer)
      && Turns.Creator(t.log[..i], e.key) == Some(creator)
      && e.r in web && creator in web && Parts(web[e.r]) == Parts(web[creator])
      && (NulFree(web[e.r]) && NulFree(web[creator]) ==> SameQuestion(web[e.r], web[creator]))
  {
    var t := Turns.Exec(s, run);
    var e := t.log[i];
    Turns.ReplaysAreFaithful(s, run, i);
    Turns.ExecKeepsInputs(s, run);
    creator := Turns.Creator(t.log[..i], e.key).value;
    assert |t.reqs[e.r].input.digest| == DIGEST_LENGTH && |t.reqs[creator].input.digest| == DIGEST_LENGTH;
    SameTail(Parts(web[e.r]), [NUL], Parts(web[creator]), [NUL]);
    if NulFree(web[e.r]) && NulFree(web[creator]) {
      PartsApart(web[e.r], web[creator]);
    }
  }
}
