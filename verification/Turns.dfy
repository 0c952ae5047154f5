/**
 The chat-turn idempotency protocol: a table of turns with a unique key, the
 requests that race on it, process crashes and the reclaim at start-up.
 */
module Turns {
  import opened Wrappers

  datatype Status = Queued | Running | Succeeded | Failed | Cancelled | Interrupted

  /** The part of a turn request the protocol looks at. An owner of 0 is "no login". */
  datatype TurnBasic = TurnBasic(key: string, digest: string, owner: nat)

  datatype Row = Row(id: nat, status: Status, digest: string, owner: nat, result: string)

  /** The turn table. `rows` is indexed by the column that carries the unique constraint. */
  datatype Table = Table(rows: map<string, Row>, nextId: nat) {
    ghost predicate Valid() {
      && (forall k :: k in rows ==> rows[k].id < nextId)
      && (forall j, k :: j in rows && k in rows && rows[j].id == rows[k].id ==> j == k)
    }
  }

  datatype StoreError = EmptyKey | Duplicate | NotFound | Unavailable

  // ----- The store's atomic steps, as functions on the table -----

  function Insert(t: Table, input: TurnBasic): Table {
    Table(t.rows[input.key := Row(t.nextId, Queued, input.digest, input.owner, "")], t.nextId + 1)
  }

  function SetStatus(t: Table, id: nat, status: Status, result: string): Table {
    t.(rows := map k | k in t.rows ::
      if t.rows[k].id == id then t.rows[k].(status := status, result := result) else t.rows[k])
  }

  predicate Unfinished(status: Status) {
    status.Queued? || status.Running?
  }

  /** The statuses from which the same key may run again. */
  predicate Rerunnable(status: Status) {
    status.Failed? || status.Cancelled?
  }

  function ReclaimKeys(t: Table): set<string> {
    set k | k in t.rows && Unfinished(t.rows[k].status)
  }

  function Reclaimed(t: Table): Table {
    t.(rows := map k | k in t.rows ::
      if Unfinished(t.rows[k].status) then t.rows[k].(status := Interrupted) else t.rows[k])
  }

  // ----- Decisions -----

  datatype Verdict = Conflict | Busy | Replay(answer: string) | Rerun

  /** What `acquireTurn` does with a turn that already exists. */
  function Judge(row: Row, input: TurnBasic): Verdict {
    if row.digest != "" && input.digest != "" && row.digest != input.digest then Conflict
    else if row.owner != 0 && input.owner != 0 && row.owner != input.owner then Busy
    else if row.status.Succeeded? then Replay(row.result)
    else if Rerunnable(row.status) then Rerun
    else Busy
  }

  /** The arguments of `finishTurn` that decide what it writes. */
  datatype Finish = Finish(answer: string, cancelled: bool, toolRan: bool, runErr: Option<string>) {
    function Status(): Status {
      if runErr.None? then Succeeded
      else if cancelled then (if toolRan then Interrupted else Cancelled)
      else Failed
    }
    function Result(): string {
      if runErr.Some? && !cancelled then runErr.value else answer
    }
  }

  // ----- Many requests, one table -----

  /** Why a request is turned away. */
  datatype Why = AlreadyHandled | DigestConflict | StoreFailed(error: StoreError)

  /** Where a request stands; `id` is the turn it works on. */
  datatype Pc =
    | Start
    | Created(id: nat)    // its insert won; the row is still queued
    | Collided            // its insert hit the unique key
    | Retrying(id: nat)   // it read a failed or cancelled row and is about to mark it running
    | Executing(id: nat)  // granted
    | Replayed(answer: string)
    | Turned(why: Why)    // neither executed nor answered
    | Done                // called finishTurn
    | Abandoned           // returned without calling finishTurn
    | Dead                // its process died
  {
    predicate Live() {
      Start? || Created? || Collided? || Retrying? || Executing?
    }
    predicate OnTurn() {
      Created? || Retrying? || Executing?
    }
    predicate Holds() {
      Created? || Executing?
    }
  }

  datatype Req = Req(input: TurnBasic, pc: Pc)

  /** The history of row writes and of answers served. */
  datatype Event =
    | Inserted(key: string, r: nat)
    | Marked(key: string, r: nat, proceeds: bool)
    | Ended(key: string, r: nat, fin: Finish)
    | Swept(keys: set<string>)
    | Served(key: string, r: nat, answer: string)

  datatype State = State(table: Table, reqs: map<nat, Req>, log: seq<Event>)

  datatype Action =
    | Call(r: nat, db: Db)                // the request's next store call inside acquireTurn
    | Complete(r: nat, fin: Finish, db: Db)  // an executing request calls finishTurn
    | Abandon(r: nat)                     // an executing request returns without finishTurn
    | Crash(victims: set<nat>)            // a process dies with these requests in flight
    | Reclaim                             // some process starts and reclaims
    | Restart                             // the only process dies and starts again

  function Move(s: State, r: nat, pc: Pc): map<nat, Req>
    requires r in s.reqs
  {
    s.reqs[r := s.reqs[r].(pc := pc)]
  }

  // The six kinds of transition.

  /** Only the request itself moves on. */
  function Quiet(s: State, r: nat, pc: Pc): State
    requires r in s.reqs
  {
    s.(reqs := Move(s, r, pc))
  }

  /** The row of a fresh key is inserted. */
  function InsertStep(s: State, r: nat, acked: bool): State
    requires r in s.reqs
  {
    var input := s.reqs[r].input;
    State(Insert(s.table, input),
          Move(s, r, if acked then Created(s.table.nextId) else Turned(StoreFailed(Unavailable))),
          s.log + [Inserted(input.key, r)])
  }

  /** The update to `running` that both proceeding branches end with. */
  function MarkStep(s: State, r: nat, id: nat, acked: bool): State
    requires r in s.reqs
  {
    State(SetStatus(s.table, id, Running, ""),
          Move(s, r, if acked then Executing(id) else Turned(StoreFailed(Unavailable))),
          s.log + [Marked(s.reqs[r].input.key, r, acked)])
  }

  /** `finishTurn` writes the terminal status. */
  function EndStep(s: State, r: nat, id: nat, fin: Finish): State
    requires r in s.reqs
  {
    State(SetStatus(s.table, id, fin.Status(), fin.Result()), Move(s, r, Done),
          s.log + [Ended(s.reqs[r].input.key, r, fin)])
  }

  /** A finished turn's answer is handed out again. */
  function ServeStep(s: State, r: nat, answer: string): State
    requires r in s.reqs
  {
    s.(reqs := Move(s, r, Replayed(answer)), log := s.log + [Served(s.reqs[r].input.key, r, answer)])
  }

  /** `ReclaimInterruptedTurns`. */
  function Sweep(s: State): State {
    s.(table := Reclaimed(s.table), log := s.log + [Swept(ReclaimKeys(s.table))])
  }

  /** The requests that die with their process. */
  function Kill(s: State, victims: set<nat>): State {
    s.(reqs := map r | r in s.reqs ::
      if r in victims && s.reqs[r].pc.Live() then s.reqs[r].(pc := Dead) else s.reqs[r])
  }

  /** One store call of `acquireTurn`, chosen by where the request stands. */
  function CallStep(s: State, r: nat, db: Db): State
    requires r in s.reqs
  {
    var Req(input, pc) := s.reqs[r];
    match pc
    case Start =>
      if input.key == "" then Quiet(s, r, Turned(StoreFailed(EmptyKey)))
      else if db.Refused? then Quiet(s, r, Turned(StoreFailed(Unavailable)))
      else if input.key in s.table.rows then
        Quiet(s, r, if db.Acked? then Collided else Turned(StoreFailed(Unavailable)))
      else InsertStep(s, r, db.Acked?)
    case Created(id) =>
      if db.Refused? then Quiet(s, r, Turned(StoreFailed(Unavailable))) else MarkStep(s, r, id, db.Acked?)
    case Collided =>
      if !db.Acked? then Quiet(s, r, Turned(StoreFailed(Unavailable)))
      else if input.key !in s.table.rows then Quiet(s, r, Turned(StoreFailed(NotFound)))
      else LookupStep(s, r, s.table.rows[input.key])
    case Retrying(id) =>
      if db.Refused? then Quiet(s, r, Turned(StoreFailed(Unavailable))) else MarkStep(s, r, id, db.Acked?)
    case _ => s
  }

  function LookupStep(s: State, r: nat, row: Row): State
    requires r in s.reqs
  {
    match Judge(row, s.reqs[r].input)
    case Replay(answer) => ServeStep(s, r, answer)
    case Rerun => Quiet(s, r, Retrying(row.id))
    case Conflict => Quiet(s, r, Turned(DigestConflict))
    case Busy => Quiet(s, r, Turned(AlreadyHandled))
  }

  function Apply(s: State, a: Action): State {
    match a
    case Call(r, db) => if r in s.reqs then CallStep(s, r, db) else s
    case Complete(r, fin, db) =>
      if r !in s.reqs || !s.reqs[r].pc.Executing? then s
      else if db.Refused? then Quiet(s, r, Done)
      else EndStep(s, r, s.reqs[r].pc.id, fin)
    case Abandon(r) =>
      if r in s.reqs && s.reqs[r].pc.Executing? then Quiet(s, r, Abandoned) else s
    case Crash(victims) => Kill(s, victims)
    case Reclaim => Sweep(s)
    case Restart => Sweep(Kill(s, s.reqs.Keys))
  }

  /** The state after a whole interleaving, oldest action first. */
  function Exec(s: State, run: seq<Action>): State {
    if run == [] then s else Apply(Exec(s, run[..|run| - 1]), run[|run| - 1])
  }

  /** The database before its first turn, with every request there will ever be still to come. */
  ghost predicate Initial(s: State) {
    s.table.rows == map[] && s.log == [] && forall r :: r in s.reqs ==> s.reqs[r].pc.Start?
  }

  // ----- Reading the history -----

  predicate Writes(e: Event, k: string) {
    match e
    case Swept(keys) => k in keys
    case Served(_, _, _) => false
    case _ => e.key == k
  }

  /** The last event that wrote the row of `k`. */
  function LastWrite(log: seq<Event>, k: string): Option<Event> {
    if log == [] then None
    else if Writes(log[|log| - 1], k) then Some(log[|log| - 1])
    else LastWrite(log[..|log| - 1], k)
  }

  /** The last mark or finish of `k`: who holds the key, or how the last holder let go. */
  function LastHold(log: seq<Event>, k: string): Option<Event> {
    if log == [] then None
    else
      var e := log[|log| - 1];
      if (e.Marked? || e.Ended?) && e.key == k then Some(e) else LastHold(log[..|log| - 1], k)
  }

  /** How often the row of `k` was marked running; every grant of execution is one of these. */
  function Marks(log: seq<Event>, k: string): nat {
    if log == [] then 0
    else
      var e := log[|log| - 1];
      Marks(log[..|log| - 1], k) + if e.Marked? && e.key == k then 1 else 0
  }

  ghost predicate HasFailure(log: seq<Event>, k: string) {
    exists i :: 0 <= i < |log| && FailsKey(log[i], k)
  }

  predicate FailsKey(e: Event, k: string) {
    e.Ended? && e.key == k && Rerunnable(e.fin.Status())
  }

  /** Who inserted the row of `k`. */
  function Creator(log: seq<Event>, k: string): Option<nat> {
    if log == [] then None
    else
      var e := log[|log| - 1];
      if e.Inserted? && e.key == k then Some(e.r) else Creator(log[..|log| - 1], k)
  }

  lemma {:induction false} Snoc(log: seq<Event>, e: Event)
    ensures (log + [e])[|log + [e]| - 1] == e && (log + [e])[..|log + [e]| - 1] == log
  {
  }

  // ----- Safety of every interleaving -----

  ghost predicate TurnOf(s: State, r: nat) {
    r in s.reqs && (s.reqs[r].pc.Collided? || s.reqs[r].pc.OnTurn()) ==>
      && s.reqs[r].input.key in s.table.rows
      && (s.reqs[r].pc.OnTurn() ==> s.table.rows[s.reqs[r].input.key].id == s.reqs[r].pc.id)
  }

  /** Only the request that inserted the row of `k` can be about to mark it for the first time. */
  ghost predicate CreatedByCreator(s: State, k: string) {
    forall r :: r in s.reqs && s.reqs[r].input.key == k && s.reqs[r].pc.Created? ==>
      Creator(s.log, k) == Some(r)
  }

  /** What holds of key `k` while no finish has recorded a failure or a cancellation for it. */
  ghost predicate Unfailed(s: State, k: string) {
    && Marks(s.log, k) <= 1
    && (k !in s.table.rows ==> Marks(s.log, k) == 0)
    && (k in s.table.rows ==> !Rerunnable(s.table.rows[k].status))
    && (forall r :: r in s.reqs && s.reqs[r].input.key == k ==>
          !s.reqs[r].pc.Retrying? && (s.reqs[r].pc.Created? ==> Marks(s.log, k) == 0))
  }

  /** The row shows that this event wrote it last. */
  predicate Wrote(e: Event, row: Row) {
    match e
    case Inserted(_, _) => row.status.Queued?
    case Marked(_, _, _) => row.status.Running?
    case Ended(_, _, fin) => row.status == fin.Status() && row.result == fin.Result()
    case Swept(_) => row.status.Interrupted?
    case Served(_, _, _) => false
  }

  /** The row of `k` carries its creator's digest and owner, and what its last write left. */
  ghost predicate RowFaithful(s: State, k: string) {
    k in s.table.rows ==>
      && Creator(s.log, k).Some?
      && Creator(s.log, k).value in s.reqs
      && var input := s.reqs[Creator(s.log, k).value].input;
      && input == TurnBasic(k, s.table.rows[k].digest, s.table.rows[k].owner)
      && LastWrite(s.log, k).Some? && Wrote(LastWrite(s.log, k).value, s.table.rows[k])
  }

  /** The last write of `k` is an error-free finish, and `answer` is the answer it was given. */
  ghost predicate WrittenBy(log: seq<Event>, k: string, answer: string) {
    var w := LastWrite(log, k);
    w.Some? && w.value.Ended? && w.value.fin.runErr.None? && w.value.fin.answer == answer
  }

  /** A mark at position `i` is the creator's own, or some finish has recorded a failure before it. */
  ghost predicate MarkedRightly(s: State, i: nat)
    requires i < |s.log|
  {
    s.log[i].Marked? ==>
      Creator(s.log[..i], s.log[i].key) == Some(s.log[i].r) || HasFailure(s.log[..i], s.log[i].key)
  }

  /** An answer served at position `i` came from the error-free finish that last wrote the row. */
  ghost predicate ServedFaithfully(s: State, i: nat)
    requires i < |s.log|
  {
    s.log[i].Served? ==>
      var Served(k, r, answer) := s.log[i];
      && WrittenBy(s.log[..i], k, answer)
      && r in s.reqs
      && Creator(s.log[..i], k).Some?
      && var c := Creator(s.log[..i], k).value;
      && c in s.reqs
      && (s.reqs[c].input.digest != "" && s.reqs[r].input.digest != "" ==>
            s.reqs[c].input.digest == s.reqs[r].input.digest)
  }

  ghost predicate Inv(s: State) {
    TableInv(s) && (forall k :: KeyInv(s, k)) && HistoryInv(s)
  }

  /** Every reading of the history, one event later. */
  lemma {:induction false} LogStep(log: seq<Event>, e: Event, k: string)
    ensures var l := log + [e];
      && LastWrite(l, k) == (if Writes(e, k) then Some(e) else LastWrite(log, k))
      && LastHold(l, k) == (if (e.Marked? || e.Ended?) && e.key == k then Some(e) else LastHold(log, k))
      && Marks(l, k) == Marks(log, k) + (if e.Marked? && e.key == k then 1 else 0)
      && Creator(l, k) == (if e.Inserted? && e.key == k then Some(e.r) else Creator(log, k))
      && (HasFailure(l, k) <==> HasFailure(log, k) || FailsKey(e, k))
  {
    var l := log + [e];
    Snoc(log, e);
    if HasFailure(log, k) {
      var i :| 0 <= i < |log| && FailsKey(log[i], k);
      assert FailsKey(l[i], k);
    }
    if FailsKey(e, k) {
      assert FailsKey(l[|log|], k);
    }
  }

  /** An update by id touches exactly the row that carries the id. */
  lemma {:induction false} SetStatusAt(t: Table, k: string, status: Status, result: string)
    requires t.Valid() && k in t.rows
    ensures SetStatus(t, t.rows[k].id, status, result)
         == t.(rows := t.rows[k := t.rows[k].(status := status, result := result)])
  {
  }

  ghost predicate KeyInv(s: State, k: string) {
    && (HasFailure(s.log, k) || Unfailed(s, k))
    && RowFaithful(s, k)
    && CreatedByCreator(s, k)
  }

  ghost predicate HistoryInv(s: State) {
    forall i :: 0 <= i < |s.log| ==> ServedFaithfully(s, i) && MarkedRightly(s, i)
  }

  ghost predicate TableInv(s: State) {
    && s.table.Valid()
    && (forall r :: r in s.reqs ==> TurnOf(s, r))
  }

  /** The past stays as it was when the log grows and the requests keep their inputs. */
  lemma {:induction false} GrowKeepsHistory(s: State, s': State, e: Event)
    requires HistoryInv(s)
    requires s'.log == s.log + [e] && !e.Served?
    requires e.Marked? ==> Creator(s.log, e.key) == Some(e.r) || HasFailure(s.log, e.key)
    requires forall r :: r in s.reqs ==> r in s'.reqs && s'.reqs[r].input == s.reqs[r].input
    ensures HistoryInv(s')
  {
    forall i | 0 <= i < |s'.log|
      ensures ServedFaithfully(s', i) && MarkedRightly(s', i)
    {
      if i < |s.log| {
        assert ServedFaithfully(s, i) && MarkedRightly(s, i);
        assert s'.log[..i] == s.log[..i];
      } else {
        assert s'.log[..i] == s.log;
      }
    }
  }

  lemma {:induction false} QuietKeepsInv(s: State, r: nat, pc: Pc)
    requires Inv(s) && r in s.reqs && !pc.Created? && !pc.Executing?
    requires pc.Retrying? ==>
      && s.reqs[r].input.key in s.table.rows
      && s.table.rows[s.reqs[r].input.key].id == pc.id
      && Rerunnable(s.table.rows[s.reqs[r].input.key].status)
    requires pc.Collided? ==> s.reqs[r].input.key in s.table.rows
    ensures Inv(Quiet(s, r, pc))
  {
    var s' := Quiet(s, r, pc);
    forall q | q in s'.reqs
      ensures TurnOf(s', q)
    {
      assert TurnOf(s, q);
    }
    forall k
      ensures KeyInv(s', k)
    {
      assert KeyInv(s, k);
    }
    forall i | 0 <= i < |s'.log|
      ensures ServedFaithfully(s', i) && MarkedRightly(s', i)
    {
      assert ServedFaithfully(s, i) && MarkedRightly(s, i);
    }
  }

  lemma {:induction false} KillKeepsInv(s: State, victims: set<nat>)
    requires Inv(s)
    ensures Inv(Kill(s, victims))
  {
    var s' := Kill(s, victims);
    forall q | q in s'.reqs
      ensures TurnOf(s', q)
    {
      assert TurnOf(s, q);
    }
    forall k
      ensures KeyInv(s', k)
    {
      assert KeyInv(s, k);
    }
    forall i | 0 <= i < |s'.log|
      ensures ServedFaithfully(s', i) && MarkedRightly(s', i)
    {
      assert ServedFaithfully(s, i) && MarkedRightly(s, i);
    }
  }

  lemma {:induction false} InsertKeepsInv(s: State, r: nat, acked: bool)
    requires Inv(s) && r in s.reqs && s.reqs[r].input.key !in s.table.rows
    ensures Inv(InsertStep(s, r, acked))
  {
    var s' := InsertStep(s, r, acked);
    var e := Inserted(s.reqs[r].input.key, r);
    assert TableInv(s') by {
      forall q | q in s'.reqs
        ensures TurnOf(s', q)
      {
        assert TurnOf(s, q);
      }
    }
    forall k
      ensures KeyInv(s', k)
    {
      assert KeyInv(s, k);
      LogStep(s.log, e, k);
    }
    GrowKeepsHistory(s, s', e);
  }

  lemma {:induction false} MarkKeepsTable(s: State, r: nat, acked: bool)
    requires Inv(s) && r in s.reqs && (s.reqs[r].pc.Created? || s.reqs[r].pc.Retrying?)
    ensures TableInv(MarkStep(s, r, s.reqs[r].pc.id, acked))
  {
    var s' := MarkStep(s, r, s.reqs[r].pc.id, acked);
    assert TurnOf(s, r);
    SetStatusAt(s.table, s.reqs[r].input.key, Running, "");
    forall q | q in s'.reqs
      ensures TurnOf(s', q)
    {
      assert TurnOf(s, q);
    }
  }

  lemma {:induction false} MarkKeepsKey(s: State, r: nat, acked: bool, k: string)
    requires Inv(s) && r in s.reqs && (s.reqs[r].pc.Created? || s.reqs[r].pc.Retrying?)
    ensures KeyInv(MarkStep(s, r, s.reqs[r].pc.id, acked), k)
  {
    var s' := MarkStep(s, r, s.reqs[r].pc.id, acked);
    var key := s.reqs[r].input.key;
    assert TurnOf(s, r);
    SetStatusAt(s.table, key, Running, "");
    assert KeyInv(s, k);
    LogStep(s.log, Marked(key, r, acked), k);
  }

  lemma {:induction false} MarkKeepsInv(s: State, r: nat, acked: bool)
    requires Inv(s) && r in s.reqs && (s.reqs[r].pc.Created? || s.reqs[r].pc.Retrying?)
    ensures Inv(MarkStep(s, r, s.reqs[r].pc.id, acked))
  {
    MarkKeepsTable(s, r, acked);
    var s' := MarkStep(s, r, s.reqs[r].pc.id, acked);
    forall k
      ensures KeyInv(s', k)
    {
      MarkKeepsKey(s, r, acked, k);
    }
    assert KeyInv(s, s.reqs[r].input.key);
    GrowKeepsHistory(s, s', Marked(s.reqs[r].input.key, r, acked));
  }

  lemma {:induction false} EndKeepsInv(s: State, r: nat, fin: Finish)
    requires Inv(s) && r in s.reqs && s.reqs[r].pc.Executing?
    ensures Inv(EndStep(s, r, s.reqs[r].pc.id, fin))
  {
    var s' := EndStep(s, r, s.reqs[r].pc.id, fin);
    var key := s.reqs[r].input.key;
    assert TurnOf(s, r);
    SetStatusAt(s.table, key, fin.Status(), fin.Result());
    assert TableInv(s') by {
      forall q | q in s'.reqs
        ensures TurnOf(s', q)
      {
        assert TurnOf(s, q);
      }
    }
    forall k
      ensures KeyInv(s', k)
    {
      assert KeyInv(s, k);
      LogStep(s.log, Ended(key, r, fin), k);
    }
    GrowKeepsHistory(s, s', Ended(key, r, fin));
  }

  lemma {:induction false} SweepKeepsInv(s: State)
    requires Inv(s)
    ensures Inv(Sweep(s))
  {
    var s' := Sweep(s);
    assert TableInv(s') by {
      forall q | q in s'.reqs
        ensures TurnOf(s', q)
      {
        assert TurnOf(s, q);
      }
    }
    forall k
      ensures KeyInv(s', k)
    {
      assert KeyInv(s, k);
      LogStep(s.log, Swept(ReclaimKeys(s.table)), k);
    }
    GrowKeepsHistory(s, s', Swept(ReclaimKeys(s.table)));
  }

  lemma {:induction false} ServeKeepsInv(s: State, r: nat, answer: string)
    requires Inv(s) && r in s.reqs && s.reqs[r].input.key in s.table.rows
    requires Judge(s.table.rows[s.reqs[r].input.key], s.reqs[r].input) == Replay(answer)
    ensures Inv(ServeStep(s, r, answer))
  {
    var s1 := Quiet(s, r, Replayed(answer));
    QuietKeepsInv(s, r, Replayed(answer));
    var s' := ServeStep(s, r, answer);
    var key := s.reqs[r].input.key;
    var e := Served(key, r, answer);
    forall q | q in s'.reqs
      ensures TurnOf(s', q)
    {
      assert TurnOf(s1, q);
    }
    forall k
      ensures KeyInv(s', k)
    {
      assert KeyInv(s1, k);
      LogStep(s1.log, e, k);
    }
    forall i | 0 <= i < |s'.log|
      ensures ServedFaithfully(s', i) && MarkedRightly(s', i)
    {
      if i < |s.log| {
        assert ServedFaithfully(s1, i) && MarkedRightly(s1, i);
        assert s'.log[..i] == s.log[..i];
      } else {
        assert s'.log[..i] == s.log;
        assert KeyInv(s, key);
      }
    }
  }

  lemma {:induction false} ApplyKeepsInv(s: State, a: Action)
    requires Inv(s)
    ensures Inv(Apply(s, a))
  {
    match a
    case Call(r, db) =>
      if r in s.reqs {
        var Req(input, pc) := s.reqs[r];
        match pc
        case Start =>
          if input.key != "" && !db.Refused? && input.key !in s.table.rows {
            InsertKeepsInv(s, r, db.Acked?);
          } else {
            QuietKeepsInv(s, r, Apply(s, a).reqs[r].pc);
          }
        case Created(_) =>
          QuietKeepsInv(s, r, Turned(StoreFailed(Unavailable)));
          MarkKeepsInv(s, r, db.Acked?);
        case Collided =>
          if db.Acked? && input.key in s.table.rows {
            match Judge(s.table.rows[input.key], input)
            case Replay(answer) => ServeKeepsInv(s, r, answer);
            case _ => QuietKeepsInv(s, r, Apply(s, a).reqs[r].pc);
          } else {
            QuietKeepsInv(s, r, Apply(s, a).reqs[r].pc);
          }
        case Retrying(_) =>
          QuietKeepsInv(s, r, Turned(StoreFailed(Unavailable)));
          MarkKeepsInv(s, r, db.Acked?);
        case _ =>
      }
    case Complete(r, fin, db) =>
      if r in s.reqs && s.reqs[r].pc.Executing? {
        QuietKeepsInv(s, r, Done);
        EndKeepsInv(s, r, fin);
      }
    case Abandon(r) =>
      if r in s.reqs && s.reqs[r].pc.Executing? {
        QuietKeepsInv(s, r, Abandoned);
      }
    case Crash(victims) => KillKeepsInv(s, victims);
    case Reclaim => SweepKeepsInv(s);
    case Restart =>
      KillKeepsInv(s, s.reqs.Keys);
      SweepKeepsInv(Kill(s, s.reqs.Keys));
  }

  lemma {:induction false} EveryRunKeepsInv(s: State, run: seq<Action>)
    requires Initial(s)
    ensures Inv(Exec(s, run))
  {
    if run != [] {
      EveryRunKeepsInv(s, run[..|run| - 1]);
      ApplyKeepsInv(Exec(s, run[..|run| - 1]), run[|run| - 1]);
    }
  }

  /** The same requests with the same inputs. */
  ghost predicate SameInputs(s: State, t: State) {
    t.reqs.Keys == s.reqs.Keys && forall r :: r in s.reqs ==> t.reqs[r].input == s.reqs[r].input
  }

  lemma {:induction false} CallKeepsInputs(s: State, r: nat, db: Db)
    requires r in s.reqs
    ensures SameInputs(s, CallStep(s, r, db))
  {
  }

  lemma {:induction false} ApplyKeepsInputs(s: State, a: Action)
    ensures SameInputs(s, Apply(s, a))
  {
    match a
    case Call(r, db) =>
      if r in s.reqs {
        CallKeepsInputs(s, r, db);
      }
    case _ =>
  }

  lemma {:induction false} ExecKeepsInputs(s: State, run: seq<Action>)
    ensures SameInputs(s, Exec(s, run))
  {
    if run != [] {
      ExecKeepsInputs(s, run[..|run| - 1]);
      ApplyKeepsInputs(Exec(s, run[..|run| - 1]), run[|run| - 1]);
    }
  }

  // ----- Main results for every interleaving -----

  /**
   However many requests, processes, crashes, reclaims and lost replies interleave: until some
   finish records a failure or a cancellation for `k`, its row is marked running at most once, so
   at most one request is ever granted execution. Every grant is the creator's own or comes after
   such a finish.
   */
  lemma {:induction false} AtMostOneGrantBeforeFailure(s: State, run: seq<Action>, k: string)
    requires Initial(s)
    ensures var t := Exec(s, run);
      && (HasFailure(t.log, k) || Marks(t.log, k) <= 1)
      && (forall i :: 0 <= i < |t.log| ==> MarkedRightly(t, i))
  {
    EveryRunKeepsInv(s, run);
    assert KeyInv(Exec(s, run), k);
    assert forall i :: 0 <= i < |Exec(s, run).log| ==>
      ServedFaithfully(Exec(s, run), i) && MarkedRightly(Exec(s, run), i);
  }

  /**
   A replayed answer is the `answer` argument of the error-free finish that last wrote the row,
   and it is replayed only to the digest of the row's creator (an empty digest is never compared).
   */
  lemma {:induction false} ReplaysAreFaithful(s: State, run: seq<Action>, i: nat)
    requires Initial(s)
    requires i < |Exec(s, run).log|
    ensures ServedFaithfully(Exec(s, run), i)
  {
    EveryRunKeepsInv(s, run);
    var t := Exec(s, run);
    assert ServedFaithfully(t, i) && MarkedRightly(t, i);
  }

  /** What a lookup comes to by the event that wrote the row last. */
  predicate Follows(w: Event, pc: Pc) {
    match w
    case Ended(_, _, Finish(answer, cancelled, toolRan, runErr)) =>
      if runErr.None? then pc == Replayed(answer)
      else if cancelled && toolRan then pc == Turned(AlreadyHandled)
      else pc.Retrying?
    case _ => pc == Turned(AlreadyHandled)
  }

  /**
   In every interleaving, a request that collided is turned away for another digest or another
   owner than the creator's. Any other is given the answer of the last write if that was an
   error-free finish, runs again if it was a failure or a cancellation before any tool ran, and is
   turned away otherwise.
   */
  lemma {:induction false} LookupsFollowTheLastWrite(s: State, run: seq<Action>, q: nat)
    requires Initial(s)
    requires q in Exec(s, run).reqs && Exec(s, run).reqs[q].pc.Collided?
    ensures var t := Exec(s, run);
      var input := t.reqs[q].input;
      var creator, w, after := Creator(t.log, input.key), LastWrite(t.log, input.key), Apply(t, Call(q, Acked)).reqs;
      && creator.Some? && creator.value in t.reqs && w.Some? && q in after
      && var TurnBasic(_, digest, owner) := t.reqs[creator.value].input;
      if digest != input.digest && digest != "" && input.digest != "" then after[q].pc == Turned(DigestConflict)
      else if owner != input.owner && owner != 0 && input.owner != 0 then after[q].pc == Turned(AlreadyHandled)
      else Follows(w.value, after[q].pc)
  {
    EveryRunKeepsInv(s, run);
    var t := Exec(s, run);
    assert TurnOf(t, q) && KeyInv(t, t.reqs[q].input.key);
  }

  // ----- One server process -----

  /** The row `r` is about to mark is still in the state in which `r` read it: free to run again. */
  ghost predicate StillRerunnable(s: State, r: nat) {
    r in s.reqs && s.reqs[r].input.key in s.table.rows
    && Rerunnable(s.table.rows[s.reqs[r].input.key].status)
  }

  /**
   The actions of a deployment with one process at a time, in which nobody rewrites a failed or
   cancelled row between a retry's read and its mark (in particular: read and mark as one step).
   */
  ghost predicate Allowed(s: State, a: Action) {
    && !a.Reclaim?
    && (a.Call? && a.r in s.reqs && s.reqs[a.r].pc.Retrying? ==> StillRerunnable(s, a.r))
  }

  ghost predicate SerialRun(s: State, run: seq<Action>) {
    run == [] || (SerialRun(s, run[..|run| - 1]) && Allowed(Exec(s, run[..|run| - 1]), run[|run| - 1]))
  }

  predicate FailedHold(e: Option<Event>) {
    e.Some? && e.value.Ended? && Rerunnable(e.value.fin.Status())
  }

  /**
   The executions of `k` form a strict chain: every mark is the first or follows a failed or
   cancelled finish, and every finish is by the request that made the mark before it.
   */
  ghost predicate Chain(log: seq<Event>, k: string) {
    log == [] ||
    var before, e := log[..|log| - 1], log[|log| - 1];
    && Chain(before, k)
    && (e.Marked? && e.key == k ==> LastHold(before, k).None? || FailedHold(LastHold(before, k)))
    && (e.Ended? && e.key == k ==> LastHold(before, k) == Some(Marked(k, e.r, true)))
  }

  lemma {:induction false} ChainStep(log: seq<Event>, e: Event, k: string)
    ensures Chain(log + [e], k) <==>
      && Chain(log, k)
      && (e.Marked? && e.key == k ==> LastHold(log, k).None? || FailedHold(LastHold(log, k)))
      && (e.Ended? && e.key == k ==> LastHold(log, k) == Some(Marked(k, e.r, true)))
  {
    Snoc(log, e);
  }

  /** At most one request works on `k` with the right to execute it. */
  ghost predicate Exclusive(s: State, k: string) {
    forall q, r ::
      (q in s.reqs && r in s.reqs && s.reqs[q].input.key == k && s.reqs[r].input.key == k
       && s.reqs[q].pc.Holds() && s.reqs[r].pc.Holds()) ==> q == r
  }

  ghost predicate HolderOf(s: State, r: nat, k: string) {
    r in s.reqs && s.reqs[r].input.key == k && s.reqs[r].pc.Holds() ==>
      && k in s.table.rows
      && (s.reqs[r].pc.Created? ==> s.table.rows[k].status.Queued? && Creator(s.log, k) == Some(r))
      && (s.reqs[r].pc.Executing? ==>
            s.table.rows[k].status.Running? && LastHold(s.log, k) == Some(Marked(k, r, true)))
  }

  ghost predicate Serial(s: State, k: string) {
    && Chain(s.log, k)
    && (k !in s.table.rows ==> LastHold(s.log, k).None?)
    && (k in s.table.rows ==>
          && (s.table.rows[k].status.Queued? ==> LastHold(s.log, k).None?)
          && (LastHold(s.log, k).None? ==> s.table.rows[k].status.Queued? || s.table.rows[k].status.Interrupted?)
          && (Rerunnable(s.table.rows[k].status) <==> FailedHold(LastHold(s.log, k))))
    && (forall r :: r in s.reqs ==> HolderOf(s, r, k))
  }

  lemma {:induction false} SerialIsExclusive(s: State, k: string)
    requires Serial(s, k)
    ensures Exclusive(s, k)
  {
    forall q, r | q in s.reqs && r in s.reqs && s.reqs[q].input.key == k && s.reqs[r].input.key == k
                  && s.reqs[q].pc.Holds() && s.reqs[r].pc.Holds()
      ensures q == r
    {
      assert HolderOf(s, q, k) && HolderOf(s, r, k);
    }
  }

  lemma {:induction false} QuietKeepsSerial(s: State, r: nat, pc: Pc, k: string)
    requires Serial(s, k) && r in s.reqs && !pc.Holds()
    ensures Serial(Quiet(s, r, pc), k)
  {
    forall q | q in s.reqs
      ensures HolderOf(Quiet(s, r, pc), q, k)
    {
      assert HolderOf(s, q, k);
    }
  }

  lemma {:induction false} KillKeepsSerial(s: State, victims: set<nat>, k: string)
    requires Serial(s, k)
    ensures Serial(Kill(s, victims), k)
  {
    forall q | q in s.reqs
      ensures HolderOf(Kill(s, victims), q, k)
    {
      assert HolderOf(s, q, k);
    }
  }

  lemma {:induction false} InsertKeepsSerial(s: State, r: nat, acked: bool, k: string)
    requires TableInv(s) && Serial(s, k) && r in s.reqs && s.reqs[r].input.key !in s.table.rows
    ensures Serial(InsertStep(s, r, acked), k)
  {
    var s' := InsertStep(s, r, acked);
    var e := Inserted(s.reqs[r].input.key, r);
    LogStep(s.log, e, k);
    ChainStep(s.log, e, k);
    forall q | q in s'.reqs
      ensures HolderOf(s', q, k)
    {
      assert HolderOf(s, q, k) && TurnOf(s, q);
    }
  }

  lemma {:induction false} MarkKeepsHolder(s: State, r: nat, acked: bool, k: string, q: nat)
    requires s.table.Valid() && r in s.reqs && q in s.reqs && TurnOf(s, r) && HolderOf(s, r, k) && HolderOf(s, q, k)
    requires s.reqs[r].pc.Created? || (s.reqs[r].pc.Retrying? && StillRerunnable(s, r))
    ensures HolderOf(MarkStep(s, r, s.reqs[r].pc.id, acked), q, k)
  {
    var key := s.reqs[r].input.key;
    SetStatusAt(s.table, key, Running, "");
    LogStep(s.log, Marked(key, r, acked), k);
  }

  lemma {:induction false} MarkKeepsSerial(s: State, r: nat, acked: bool, k: string)
    requires TableInv(s) && Serial(s, k) && r in s.reqs
    requires s.reqs[r].pc.Created? || (s.reqs[r].pc.Retrying? && StillRerunnable(s, r))
    ensures Serial(MarkStep(s, r, s.reqs[r].pc.id, acked), k)
  {
    var s' := MarkStep(s, r, s.reqs[r].pc.id, acked);
    var key := s.reqs[r].input.key;
    assert TurnOf(s, r) && HolderOf(s, r, k);
    SetStatusAt(s.table, key, Running, "");
    LogStep(s.log, Marked(key, r, acked), k);
    ChainStep(s.log, Marked(key, r, acked), k);
    forall q | q in s'.reqs
      ensures HolderOf(s', q, k)
    {
      assert HolderOf(s, q, k);
      MarkKeepsHolder(s, r, acked, k, q);
    }
  }

  /** Whoever else works on the key would have to be its only holder, too. */
  lemma {:induction false} OnlyHolder(s: State, r: nat, k: string, q: nat)
    requires r in s.reqs && q in s.reqs && HolderOf(s, r, k) && HolderOf(s, q, k)
    requires s.reqs[r].input.key == k && s.reqs[r].pc.Executing? && s.reqs[q].input.key == k && s.reqs[q].pc.Holds()
    ensures q == r
  {
  }

  lemma {:induction false} EndKeepsHolder(s: State, r: nat, fin: Finish, k: string, q: nat)
    requires s.table.Valid() && r in s.reqs && s.reqs[r].pc.Executing? && q in s.reqs
    requires TurnOf(s, r) && HolderOf(s, r, k) && HolderOf(s, q, k)
    ensures HolderOf(EndStep(s, r, s.reqs[r].pc.id, fin), q, k)
  {
    var key := s.reqs[r].input.key;
    if q != r && s.reqs[q].input.key == k && s.reqs[q].pc.Holds() {
      if key == k {
        OnlyHolder(s, r, k, q);
      } else {
        SetStatusAt(s.table, key, fin.Status(), fin.Result());
        LogStep(s.log, Ended(key, r, fin), k);
      }
    }
  }

  lemma {:induction false} EndKeepsSerial(s: State, r: nat, fin: Finish, k: string)
    requires TableInv(s) && Serial(s, k) && r in s.reqs && s.reqs[r].pc.Executing?
    ensures Serial(EndStep(s, r, s.reqs[r].pc.id, fin), k)
  {
    var s' := EndStep(s, r, s.reqs[r].pc.id, fin);
    var key := s.reqs[r].input.key;
    assert TurnOf(s, r) && HolderOf(s, r, k);
    SetStatusAt(s.table, key, fin.Status(), fin.Result());
    LogStep(s.log, Ended(key, r, fin), k);
    ChainStep(s.log, Ended(key, r, fin), k);
    forall q | q in s'.reqs
      ensures HolderOf(s', q, k)
    {
      assert HolderOf(s, q, k);
      EndKeepsHolder(s, r, fin, k, q);
    }
  }

  /** A sweep once nobody is left. */
  lemma {:induction false} SweepKeepsSerial(s: State, k: string)
    requires Serial(s, k) && forall q :: q in s.reqs ==> !s.reqs[q].pc.Holds()
    ensures Serial(Sweep(s), k)
  {
  }

  lemma {:induction false} ServeKeepsSerial(s: State, r: nat, answer: string, k: string)
    requires Serial(s, k) && r in s.reqs
    ensures Serial(ServeStep(s, r, answer), k)
  {
    var quiet := Quiet(s, r, Replayed(answer));
    QuietKeepsSerial(s, r, Replayed(answer), k);
    var e := Served(s.reqs[r].input.key, r, answer);
    LogStep(s.log, e, k);
    ChainStep(s.log, e, k);
    forall q | q in s.reqs
      ensures HolderOf(ServeStep(s, r, answer), q, k)
    {
      assert HolderOf(quiet, q, k);
    }
  }

  lemma {:induction false} ApplyKeepsSerial(s: State, a: Action, k: string)
    requires Inv(s) && Serial(s, k) && Allowed(s, a)
    ensures Serial(Apply(s, a), k)
  {
    match a
    case Call(r, db) =>
      if r in s.reqs {
        var Req(input, pc) := s.reqs[r];
        QuietKeepsSerial(s, r, Turned(StoreFailed(Unavailable)), k);
        match pc
        case Start =>
          if input.key != "" && !db.Refused? && input.key !in s.table.rows {
            InsertKeepsSerial(s, r, db.Acked?, k);
          } else {
            QuietKeepsSerial(s, r, Apply(s, a).reqs[r].pc, k);
          }
        case Created(_) => MarkKeepsSerial(s, r, db.Acked?, k);
        case Collided =>
          if db.Acked? && input.key in s.table.rows {
            match Judge(s.table.rows[input.key], input)
            case Replay(answer) => ServeKeepsSerial(s, r, answer, k);
            case _ => QuietKeepsSerial(s, r, Apply(s, a).reqs[r].pc, k);
          } else {
            QuietKeepsSerial(s, r, Apply(s, a).reqs[r].pc, k);
          }
        case Retrying(_) => MarkKeepsSerial(s, r, db.Acked?, k);
        case _ =>
      }
    case Complete(r, fin, db) =>
      if r in s.reqs && s.reqs[r].pc.Executing? {
        QuietKeepsSerial(s, r, Done, k);
        EndKeepsSerial(s, r, fin, k);
      }
    case Abandon(r) =>
      if r in s.reqs && s.reqs[r].pc.Executing? {
        QuietKeepsSerial(s, r, Abandoned, k);
      }
    case Crash(victims) => KillKeepsSerial(s, victims, k);
    case Reclaim =>
    case Restart =>
      KillKeepsSerial(s, s.reqs.Keys, k);
      SweepKeepsSerial(Kill(s, s.reqs.Keys), k);
  }

  /**
   With one server process and no write between a retry's read and its mark, no key ever has two
   executors, and its executions form a strict chain: crashes, restarts, abandoned requests and
   lost replies included.
   */
  lemma {:induction false} OneProcessRunsAreChains(s: State, run: seq<Action>, k: string)
    requires Initial(s) && SerialRun(s, run)
    ensures Serial(Exec(s, run), k)
    ensures Chain(Exec(s, run).log, k) && Exclusive(Exec(s, run), k)
  {
    if run != [] {
      var before := run[..|run| - 1];
      OneProcessRunsAreChains(s, before, k);
      EveryRunKeepsInv(s, before);
      ApplyKeepsSerial(Exec(s, before), run[|run| - 1], k);
    }
    SerialIsExclusive(Exec(s, run), k);
  }

  /** Exactly when a retry's mark keeps the chain: the row it marks must still be rerunnable. */
  lemma {:induction false} MarkKeepsChainExactly(s: State, r: nat, db: Db)
    requires Inv(s) && r in s.reqs && s.reqs[r].pc.Retrying? && !db.Refused?
    requires Serial(s, s.reqs[r].input.key)
    ensures Chain(Apply(s, Call(r, db)).log, s.reqs[r].input.key) <==> StillRerunnable(s, r)
  {
    var key := s.reqs[r].input.key;
    assert TurnOf(s, r);
    ChainStep(s.log, Marked(key, r, db.Acked?), key);
    assert KeyInv(s, key);
    if LastHold(s.log, key).None? {
      NoHoldNoFailure(s.log, key);
    }
  }

  /** A key nobody ever held has never failed. */
  lemma {:induction false} NoHoldNoFailure(log: seq<Event>, k: string)
    requires LastHold(log, k).None?
    ensures !HasFailure(log, k)
  {
    if log != [] {
      var before := log[..|log| - 1];
      NoHoldNoFailure(before, k);
      assert log == before + [log[|log| - 1]];
      LogStep(before, log[|log| - 1], k);
    }
  }

  /** A finish after which nobody runs the turn again: its answer is there, or its tools may have had their effect. */
  predicate IsFinal(fin: Finish) {
    fin.runErr.None? || (fin.cancelled && fin.toolRan)
  }

  lemma {:induction false} ChainBegins(log: seq<Event>, k: string, n: nat)
    requires Chain(log, k) && n <= |log|
    ensures Chain(log[..n], k)
  {
    if n < |log| {
      ChainBegins(log[..|log| - 1], k, n);
      assert log[..|log| - 1][..n] == log[..n];
    } else {
      assert log[..n] == log;
    }
  }

  lemma {:induction false} FinalHoldLasts(log: seq<Event>, k: string, i: nat, n: nat)
    requires i < n <= |log| && Chain(log, k) && log[i].Ended? && log[i].key == k && IsFinal(log[i].fin)
    ensures LastHold(log[..n], k) == Some(log[i])
    decreases n
  {
    assert log[..n][..n - 1] == log[..n - 1];
    if i < n - 1 {
      ChainBegins(log, k, n);
      FinalHoldLasts(log, k, i, n - 1);
    }
  }

  /**
   In those runs, once a turn has finished without an error, or was cancelled after a tool ran, it is
   never marked running nor finished again: its side effects happen once.
   */
  lemma {:induction false} FinalFinishesAreFinal(s: State, run: seq<Action>, i: nat, j: nat)
    requires Initial(s) && SerialRun(s, run) && i < j < |Exec(s, run).log|
    requires Exec(s, run).log[i].Ended? && IsFinal(Exec(s, run).log[i].fin)
    ensures var log := Exec(s, run).log;
      log[j].Marked? || log[j].Ended? ==> log[j].key != log[i].key
  {
    var log := Exec(s, run).log;
    var k := log[i].key;
    OneProcessRunsAreChains(s, run, k);
    FinalHoldLasts(log, k, i, j);
    ChainBegins(log, k, j + 1);
    assert log[..j + 1][..j] == log[..j];
  }

  predicate Settled(status: Status) {
    status.Succeeded? || status.Interrupted?
  }

  lemma {:induction false} SettledStep(s: State, a: Action, k: string)
    requires Inv(s) && Serial(s, k) && Allowed(s, a)
    requires k in s.table.rows && Settled(s.table.rows[k].status)
    ensures k in Apply(s, a).table.rows && Apply(s, a).table.rows[k] == s.table.rows[k]
  {
    if (a.Call? || a.Complete?) && a.r in s.reqs {
      assert TurnOf(s, a.r) && HolderOf(s, a.r, k);
    }
  }

  /** `succeeded` and `interrupted` are absorbing: nothing later in the run rewrites the row. */
  lemma {:induction false} SettledForever(s: State, run: seq<Action>, more: seq<Action>, k: string)
    requires Initial(s) && SerialRun(s, run + more)
    requires k in Exec(s, run).table.rows && Settled(Exec(s, run).table.rows[k].status)
    ensures k in Exec(s, run + more).table.rows
    ensures Exec(s, run + more).table.rows[k] == Exec(s, run).table.rows[k]
  {
    if more == [] {
      assert run + more == run;
    } else {
      var all := run + more;
      assert all[..|all| - 1] == run + more[..|more| - 1];
      SettledForever(s, run, more[..|more| - 1], k);
      OneProcessRunsAreChains(s, all[..|all| - 1], k);
      EveryRunKeepsInv(s, all[..|all| - 1]);
      SettledStep(Exec(s, all[..|all| - 1]), all[|all| - 1], k);
    }
  }

  // ----- What goes wrong when the read and the mark are torn apart -----

  /** One request runs and fails; then two requests of the same key read the failed row. */
  const FAIL: seq<Action> :=
    [Call(0, Acked), Call(0, Acked), Complete(0, Finish("", false, false, Some("boom")), Acked)]
  const READ: seq<Action> := [Call(1, Acked), Call(1, Acked), Call(2, Acked), Call(2, Acked)]
  const MARK: seq<Action> := [Call(1, Acked), Call(2, Acked)]

  function ThreeOf(input: TurnBasic, first: Pc, second: Pc, third: Pc): map<nat, Req> {
    map[0 := Req(input, first), 1 := Req(input, second), 2 := Req(input, third)]
  }

  function RowOf(input: TurnBasic, status: Status, result: string): Table {
    Table(map[input.key := Row(0, status, input.digest, input.owner, result)], 1)
  }

  lemma {:induction false} ExecAppend(s: State, a: seq<Action>, b: seq<Action>)
    ensures Exec(s, a + b) == Exec(Exec(s, a), b)
  {
    if b == [] {
      assert a + b == a;
    } else {
      assert (a + b)[..|a + b| - 1] == a + b[..|b| - 1];
      ExecAppend(s, a, b[..|b| - 1]);
    }
  }

  lemma {:induction false} ExecTwo(s: State, a: Action, b: Action)
    ensures Exec(s, [a, b]) == Apply(Apply(s, a), b)
  {
    assert [a, b][..1] == [a] && [a][..0] == [];
    assert Exec(s, [a]) == Apply(Exec(s, []), a);
  }

  lemma {:induction false} RaceFails(input: TurnBasic, s: State)
    requires input.key != "" && s == State(Table(map[], 0), ThreeOf(input, Start, Start, Start), [])
    ensures Exec(s, FAIL).table == RowOf(input, Failed, "boom")
    ensures Exec(s, FAIL).reqs == ThreeOf(input, Done, Start, Start)
  {
    var s2 := Apply(Apply(s, FAIL[0]), FAIL[1]);
    ExecTwo(s, FAIL[0], FAIL[1]);
    assert FAIL[..2] == [FAIL[0], FAIL[1]];
    assert s2.table == RowOf(input, Running, "");
    assert s2.reqs == ThreeOf(input, Executing(0), Start, Start);
    assert Apply(s2, FAIL[2]).table == RowOf(input, Failed, "boom");
  }

  lemma {:induction false} RaceReads(input: TurnBasic, s: State)
    requires input.key != "" && s.table == RowOf(input, Failed, "boom")
    requires s.reqs == ThreeOf(input, Done, Start, Start)
    ensures Exec(s, READ).table == s.table
    ensures Exec(s, READ).reqs == ThreeOf(input, Done, Retrying(0), Retrying(0))
  {
    var s2 := Apply(Apply(s, READ[0]), READ[1]);
    ExecTwo(s, READ[0], READ[1]);
    assert s2.reqs == ThreeOf(input, Done, Retrying(0), Start) && s2.table == s.table;
    ExecTwo(s2, READ[2], READ[3]);
    ExecAppend(s, [READ[0], READ[1]], [READ[2], READ[3]]);
    assert READ == [READ[0], READ[1]] + [READ[2], READ[3]];
  }

  lemma {:induction false} RaceMarks(input: TurnBasic, s: State)
    requires s.reqs == ThreeOf(input, Done, Retrying(0), Retrying(0))
    ensures Exec(s, MARK).reqs == ThreeOf(input, Done, Executing(0), Executing(0))
  {
    ExecTwo(s, MARK[0], MARK[1]);
    assert Apply(s, MARK[0]).reqs == ThreeOf(input, Done, Executing(0), Retrying(0));
  }

  /**
   One process, three requests of one key, no crash: two of them execute at the same time,
   because the retry's read and its mark are two steps.
   */
  lemma {:induction false} TwoRetriesBothProceed(input: TurnBasic, s: State)
    requires input.key != "" && s == State(Table(map[], 0), ThreeOf(input, Start, Start, Start), [])
    ensures Initial(s)
    ensures Exec(s, FAIL + READ + MARK).reqs == ThreeOf(input, Done, Executing(0), Executing(0))
  {
    RaceFails(input, s);
    var s1 := Exec(s, FAIL);
    RaceReads(input, s1);
    var s2 := Exec(s1, READ);
    ExecAppend(s, FAIL, READ);
    ExecAppend(s, FAIL + READ, MARK);
    RaceMarks(input, s2);
  }

  // ----- The store object and the two entry points -----

  /** The turn table as the process sees it; each method is one database statement. */
  class TurnStore {
    var rows: map<string, Row>
    var nextId: nat

    ghost function Abs(): Table
      reads this
    {
      Table(rows, nextId)
    }

    constructor ()
      ensures Abs() == Table(map[], 0)
    {
      rows, nextId := map[], 0;
    }

    method CreateTurn(input: TurnBasic, db: Db) returns (res: Result<nat, StoreError>)
      modifies this
      ensures input.key == "" ==> res == Failure(EmptyKey) && unchanged(this)
      ensures input.key != "" && db.Refused? ==> res == Failure(Unavailable) && unchanged(this)
      ensures input.key != "" && !db.Refused? && input.key in old(rows) ==>
        res == Failure(if db.Acked? then Duplicate else Unavailable) && unchanged(this)
      ensures input.key != "" && !db.Refused? && input.key !in old(rows) ==>
        && Abs() == Insert(old(Abs()), input)
        && rows == old(rows)[input.key := Row(old(nextId), Queued, input.digest, input.owner, "")]
        && res == (if db.Acked? then Success(old(nextId)) else Failure(Unavailable))
    {
      if input.key == "" {
        return Failure(EmptyKey);
      }
      if db.Refused? {
        return Failure(Unavailable);
      }
      if input.key in rows {
        return Failure(if db.Acked? then Duplicate else Unavailable);
      }
      var id := nextId;
      rows := rows[input.key := Row(id, Queued, input.digest, input.owner, "")];
      nextId := nextId + 1;
      res := if db.Acked? then Success(id) else Failure(Unavailable);
    }

    method GetTurnByIdempotencyKey(key: string, db: Db) returns (res: Result<Row, StoreError>)
      ensures res == if !db.Acked? then Failure(Unavailable)
                     else if key in rows then Success(rows[key]) else Failure(NotFound)
    {
      if !db.Acked? {
        return Failure(Unavailable);
      }
      res := if key in rows then Success(rows[key]) else Failure(NotFound);
    }

    method UpdateTurnStatus(id: nat, status: Status, result: string, db: Db) returns (ok: bool)
      modifies this
      ensures ok == db.Acked?
      ensures Abs() == if db.Refused? then old(Abs()) else SetStatus(old(Abs()), id, status, result)
      ensures rows.Keys == old(rows).Keys
      ensures forall k :: k in rows ==> var row := old(rows)[k];
        rows[k] == if row.id == id && !db.Refused? then row.(status := status, result := result) else row
    {
      if !db.Refused? {
        rows := map k | k in rows ::
          if rows[k].id == id then rows[k].(status := status, result := result) else rows[k];
      }
      ok := db.Acked?;
    }

    method ReclaimInterruptedTurns() returns (n: nat)
      modifies this
      ensures Abs() == Reclaimed(old(Abs()))
      ensures n == |ReclaimKeys(old(Abs()))|
      ensures rows.Keys == old(rows).Keys
      ensures forall k :: k in rows ==> var row := old(rows)[k];
        rows[k] == if row.status.Queued? || row.status.Running? then row.(status := Interrupted) else row
    {
      var hit := set k | k in rows && Unfinished(rows[k].status);
      rows := map k | k in rows ::
        if Unfinished(rows[k].status) then rows[k].(status := Interrupted) else rows[k];
      n := |hit|;
    }
  }

  /** What `acquireTurn` tells its caller. */
  datatype Gate = Proceed(id: nat) | Serve(answer: string) | Deny(why: Why)

  /** The gate of a request that has come to rest in place `pc`. */
  predicate GateFits(gate: Gate, pc: Pc) {
    match gate
    case Proceed(id) => pc == Executing(id)
    case Serve(answer) => pc == Replayed(answer)
    case Deny(why) => pc == Turned(why)
  }

  /** The protocol with a single request on an existing table. */
  function Solo(t: Table, input: TurnBasic): State {
    State(t, map[0 := Req(input, Start)], [])
  }

  /** The request's next three store calls. */
  function ThreeCalls(db0: Db, db1: Db, db2: Db): seq<Action> {
    [Call(0, db0), Call(0, db1), Call(0, db2)]
  }

  lemma {:induction false} ExecThree(s: State, a: Action, b: Action, c: Action)
    ensures Exec(s, [a, b, c]) == Apply(Apply(Apply(s, a), b), c)
  {
    ExecTwo(s, a, b);
    assert [a, b, c][..2] == [a, b];
  }

  /** A claim with nothing failing, told by the rows before and after it. */
  ghost predicate Acquired(t: Table, input: TurnBasic, rows': map<string, Row>, gate: Gate) {
    var Table(rows, nextId) := t;
    var TurnBasic(key, digest, owner) := input;
    if key !in rows then gate == Proceed(nextId) && rows' == rows[key := Row(nextId, Running, digest, owner, "")]
    else
      var row := rows[key];
      if digest != row.digest && digest != "" && row.digest != "" then gate == Deny(DigestConflict) && rows' == rows
      else if owner != row.owner && owner != 0 && row.owner != 0 then gate == Deny(AlreadyHandled) && rows' == rows
      else match row.status
        case Succeeded => gate == Serve(row.result) && rows' == rows
        case Failed => gate == Proceed(row.id) && rows' == rows[key := row.(status := Running, result := "")]
        case Cancelled => gate == Proceed(row.id) && rows' == rows[key := row.(status := Running, result := "")]
        case _ => gate == Deny(AlreadyHandled) && rows' == rows
  }

  lemma {:induction false} SoloCreates(t: Table, input: TurnBasic)
    requires t.Valid() && input.key != "" && input.key !in t.rows
    ensures var call := Call(0, Acked);
      var end := Apply(Apply(Apply(Solo(t, input), call), call), call);
      && end.reqs == map[0 := Req(input, Executing(t.nextId))]
      && end.table.rows == t.rows[input.key := Row(t.nextId, Running, input.digest, input.owner, "")]
  {
    var s1 := Apply(Solo(t, input), Call(0, Acked));
    assert s1.reqs == map[0 := Req(input, Created(t.nextId))];
    SetStatusAt(s1.table, input.key, Running, "");
  }

  lemma {:induction false} SoloMeets(t: Table, input: TurnBasic)
    requires t.Valid() && input.key != "" && input.key in t.rows
    ensures var call := Call(0, Acked);
      Apply(Apply(Apply(Solo(t, input), call), call), call)
        == Apply(LookupStep(State(t, map[0 := Req(input, Collided)], []), 0, t.rows[input.key]), call)
  {
    assert Apply(Solo(t, input), Call(0, Acked)) == State(t, map[0 := Req(input, Collided)], []);
  }

  lemma {:induction false} SoloLooksUp(t: Table, input: TurnBasic, gate: Gate)
    requires t.Valid() && input.key in t.rows
    requires var end := Apply(LookupStep(State(t, map[0 := Req(input, Collided)], []), 0, t.rows[input.key]),
                              Call(0, Acked));
      0 in end.reqs && GateFits(gate, end.reqs[0].pc)
    ensures Acquired(t, input,
                     Apply(LookupStep(State(t, map[0 := Req(input, Collided)], []), 0, t.rows[input.key]),
                           Call(0, Acked)).table.rows, gate)
  {
    SetStatusAt(t, input.key, Running, "");
  }

  /** What a request's undisturbed three steps come to. */
  lemma {:induction false} SoloAcquires(t: Table, input: TurnBasic, gate: Gate)
    requires t.Valid() && input.key != ""
    requires var end := Exec(Solo(t, input), ThreeCalls(Acked, Acked, Acked));
      0 in end.reqs && GateFits(gate, end.reqs[0].pc)
    ensures Acquired(t, input, Exec(Solo(t, input), ThreeCalls(Acked, Acked, Acked)).table.rows, gate)
  {
    ExecThree(Solo(t, input), Call(0, Acked), Call(0, Acked), Call(0, Acked));
    if input.key in t.rows {
      SoloMeets(t, input);
      SoloLooksUp(t, input, gate);
    } else {
      SoloCreates(t, input);
    }
  }

  /**
   Undisturbed, the code of `acquireTurn` is three steps of the protocol: the same table, and the
   gate of the place where the request comes to rest.
   */
  method AcquireTurn(sto: TurnStore, input: TurnBasic, db0: Db, db1: Db, db2: Db) returns (gate: Gate)
    requires sto.Abs().Valid()
    modifies sto
    ensures var end := Exec(Solo(old(sto.Abs()), input), ThreeCalls(db0, db1, db2));
      sto.Abs() == end.table && 0 in end.reqs && GateFits(gate, end.reqs[0].pc)
  {
    ghost var s := Solo(sto.Abs(), input);
    ghost var s1 := Apply(s, Call(0, db0));
    ghost var s2 := Apply(s1, Call(0, db1));
    ExecThree(s, Call(0, db0), Call(0, db1), Call(0, db2));
    var turn := sto.CreateTurn(input, db0);
    if turn.Success? {
      assert s1.reqs[0].pc == Created(turn.value);
      var ok := sto.UpdateTurnStatus(turn.value, Running, "", db1);
      return if ok then Proceed(turn.value) else Deny(StoreFailed(Unavailable));
    }
    if turn.error != Duplicate {
      return Deny(StoreFailed(turn.error));
    }
    assert s1.reqs[0].pc == Collided;
    var existing := sto.GetTurnByIdempotencyKey(input.key, db1);
    if existing.Failure? {
      return Deny(StoreFailed(existing.error));
    }
    match Judge(existing.value, input) {
      case Conflict => gate := Deny(DigestConflict);
      case Busy => gate := Deny(AlreadyHandled);
      case Replay(answer) => gate := Serve(answer);
      case Rerun =>
        assert s2.reqs[0].pc == Retrying(existing.value.id);
        var ok := sto.UpdateTurnStatus(existing.value.id, Running, "", db2);
        gate := if ok then Proceed(existing.value.id) else Deny(StoreFailed(Unavailable));
    }
  }

  /** `finishTurn`: nothing without a turn, otherwise one write of the terminal status and result. */
  method FinishTurn(sto: TurnStore, turn: Option<nat>, fin: Finish, db: Db)
    modifies sto
    ensures sto.Abs() ==
      if turn.None? || db.Refused? then old(sto.Abs())
      else SetStatus(old(sto.Abs()), turn.value, fin.Status(), fin.Result())
    ensures sto.rows.Keys == old(sto.rows).Keys
    ensures forall k :: k in sto.rows ==>
      var row, row' := old(sto.rows)[k], sto.rows[k];
      if turn != Some(row.id) || db.Refused? then row' == row
      else if fin.runErr.None? then row' == row.(status := Succeeded, result := fin.answer)
      else if !fin.cancelled then row' == row.(status := Failed, result := fin.runErr.value)
      else if fin.toolRan then row' == row.(status := Interrupted, result := fin.answer)
      else row' == row.(status := Cancelled, result := fin.answer)
  {
    if turn.None? {
      return;
    }
    var status, result := Succeeded, fin.answer;
    if fin.runErr.None? {
    } else if fin.cancelled {
      status := Cancelled;
      if fin.toolRan {
        status := Interrupted;
      }
    } else {
      status, result := Failed, fin.runErr.value;
    }
    var _ := sto.UpdateTurnStatus(turn.value, status, result, db);
  }
}
