/** Reranking candidates by a model's picks, and rebuilding the result from cached ids. */
module Rerank {
  import opened Wrappers

  datatype Capability = Capability(id: string, verb: string, endpoint: string, summary: string)

  function Ids(caps: seq<Capability>): seq<string> {
    Map((c: Capability) => c.id, caps)
  }

  /** The candidates picked, in the order of the picks, which count from 1; others are skipped. */
  function Selected(candidates: seq<Capability>, picks: seq<int>): seq<Capability> {
    if picks == [] then []
    else
      var k := |picks| - 1;
      Selected(candidates, picks[..k]) + if 1 <= picks[k] <= |candidates| then [candidates[picks[k] - 1]] else []
  }

  lemma {:induction false} SelectedAppend(candidates: seq<Capability>, a: seq<int>, b: seq<int>)
    ensures Selected(candidates, a + b) == Selected(candidates, a) + Selected(candidates, b)
  {
    if b == [] {
      assert a + b == a && Selected(candidates, a) + [] == Selected(candidates, a);
    } else {
      var k := |b| - 1;
      SelectedAppend(candidates, a, b[..k]);
      assert (a + b)[..|a + b| - 1] == a + b[..k];
      Assoc(Selected(candidates, a), Selected(candidates, b[..k]),
            if 1 <= b[k] <= |candidates| then [candidates[b[k] - 1]] else []);
    }
  }

  /** Picks are taken one after the other: each gives the candidate of its number, or nothing. */
  lemma {:induction false} SelectingFollowsThePicks(candidates: seq<Capability>, a: seq<int>, pick: int)
    ensures Selected(candidates, []) == []
    ensures Selected(candidates, a + [pick]) ==
      Selected(candidates, a) + if 0 < pick <= |candidates| then [candidates[pick - 1]] else []
  {
    SelectedAppend(candidates, a, [pick]);
    assert [pick][..0] == [];
  }

  /** The first candidate with this id. */
  function Find(candidates: seq<Capability>, id: string): Option<Capability> {
    if candidates == [] then None
    else if candidates[0].id == id then Some(candidates[0])
    else Find(candidates[1..], id)
  }

  /** `rerankRebuildFromCache`. */
  function Rebuilt(ids: seq<string>, candidates: seq<Capability>): seq<Capability> {
    if ids == [] then []
    else
      var k := |ids| - 1;
      var hit := Find(candidates, ids[k]);
      Rebuilt(ids[..k], candidates) + if hit.Some? then [hit.value] else []
  }

  method RerankRebuildFromCache(ids: seq<string>, candidates: seq<Capability>) returns (out: seq<Capability>)
    ensures out == Rebuilt(ids, candidates)
  {
    out := [];
    for i := 0 to |ids|
      invariant out == Rebuilt(ids[..i], candidates)
    {
      assert ids[..i + 1][..i] == ids[..i];
      var j := 0;
      while j < |candidates|
        invariant j <= |candidates| && out == Rebuilt(ids[..i], candidates)
        invariant Find(candidates, ids[i]) == Find(candidates[j..], ids[i])
      {
        if candidates[j].id == ids[i] {
          out := out + [candidates[j]];
          break;
        }
        j := j + 1;
      }
    }
    assert ids[..|ids|] == ids;
  }

  /** Candidates with the same id are the same. */
  ghost predicate Identified(candidates: seq<Capability>) {
    forall i, j :: 0 <= i < |candidates| && 0 <= j < |candidates| && candidates[i].id == candidates[j].id ==>
      candidates[i] == candidates[j]
  }

  lemma {:induction false} FindFinds(candidates: seq<Capability>, id: string)
    ensures Find(candidates, id).Some? <==> id in Ids(candidates)
    ensures Find(candidates, id).Some? ==>
      Find(candidates, id).value in candidates && Find(candidates, id).value.id == id
  {
    if candidates != [] {
      FindFinds(candidates[1..], id);
      assert Ids(candidates) == [candidates[0].id] + Ids(candidates[1..]);
    }
  }

  lemma {:induction false} FindIdentified(candidates: seq<Capability>, i: nat)
    requires Identified(candidates) && i < |candidates|
    ensures Find(candidates, candidates[i].id) == Some(candidates[i])
  {
    FindFinds(candidates, candidates[i].id);
    assert Ids(candidates)[i] == candidates[i].id;
  }

  lemma {:induction false} IdsAppend(a: seq<Capability>, b: seq<Capability>)
    ensures Ids(a + b) == Ids(a) + Ids(b)
  {
  }

  lemma {:induction false} RebuiltSnoc(ids: seq<string>, id: string, candidates: seq<Capability>)
    ensures Rebuilt(ids + [id], candidates) ==
      Rebuilt(ids, candidates) + if Find(candidates, id).Some? then [Find(candidates, id).value] else []
  {
    assert (ids + [id])[..|ids|] == ids;
  }

  /** Out-of-range picks and repeats included, the ids of a result give back the result. */
  lemma {:induction false} SelectionIsRebuilt(candidates: seq<Capability>, picks: seq<int>)
    requires Identified(candidates)
    ensures Rebuilt(Ids(Selected(candidates, picks)), candidates) == Selected(candidates, picks)
  {
    if picks != [] {
      var k := |picks| - 1;
      SelectionIsRebuilt(candidates, picks[..k]);
      var before := Selected(candidates, picks[..k]);
      if 1 <= picks[k] <= |candidates| {
        var c := candidates[picks[k] - 1];
        FindIdentified(candidates, picks[k] - 1);
        IdsAppend(before, [c]);
        RebuiltSnoc(Ids(before), c.id, candidates);
      } else {
        assert before + [] == before;
      }
    }
  }

  /** The cached ids stand for every result over some candidates exactly when equal ids mean equal candidates. */
  lemma {:induction false} RebuildingIsFaithfulExactly(candidates: seq<Capability>)
    ensures (forall picks :: Rebuilt(Ids(Selected(candidates, picks)), candidates) == Selected(candidates, picks))
       <==> Identified(candidates)
  {
    if Identified(candidates) {
      forall picks
        ensures Rebuilt(Ids(Selected(candidates, picks)), candidates) == Selected(candidates, picks)
      {
        SelectionIsRebuilt(candidates, picks);
      }
    } else {
      var i, j :| 0 <= i < |candidates| && 0 <= j < |candidates| && candidates[i].id == candidates[j].id
               && candidates[i] != candidates[j];
      PickedAlone(candidates, i);
      PickedAlone(candidates, j);
    }
  }

  lemma {:induction false} PickedAlone(candidates: seq<Capability>, i: nat)
    requires i < |candidates|
    ensures Selected(candidates, [i + 1]) == [candidates[i]]
    ensures Rebuilt(Ids(Selected(candidates, [i + 1])), candidates)
         == [Find(candidates, candidates[i].id).GetOr(candidates[i])]
  {
    assert [i + 1][..0] == [];
    var ids := Ids([candidates[i]]);
    assert ids == [candidates[i].id] && ids[..0] == [];
    FindFinds(candidates, candidates[i].id);
    assert Ids(candidates)[i] == candidates[i].id;
  }

  /** The ids of a sequence that are among the given candidates' ids, in order. */
  function Present(ids: seq<string>, candidates: seq<Capability>): seq<string> {
    if ids == [] then []
    else
      var k := |ids| - 1;
      Present(ids[..k], candidates) + if ids[k] in Ids(candidates) then [ids[k]] else []
  }

  /** Over any other candidates, a rebuilt result has the cached order, restricted to the ids still present. */
  lemma {:induction false} RebuildingRestricts(ids: seq<string>, candidates: seq<Capability>)
    ensures Ids(Rebuilt(ids, candidates)) == Present(ids, candidates)
    ensures forall c :: c in Rebuilt(ids, candidates) ==> c in candidates
  {
    if ids != [] {
      var k := |ids| - 1;
      RebuildingRestricts(ids[..k], candidates);
      FindFinds(candidates, ids[k]);
      var hit := Find(candidates, ids[k]);
      IdsAppend(Rebuilt(ids[..k], candidates), if hit.Some? then [hit.value] else []);
    }
  }

  // ----- The cache -----

  /** What a call returns and leaves in the cache; `picks` is the model's answer, asked for only on a miss. */
  function Reranked(cache: map<string, seq<string>>, key: string, candidates: seq<Capability>,
                    picks: Result<seq<int>, string>): (map<string, seq<string>>, Result<seq<Capability>, string>)
  {
    if candidates == [] then (cache, Success([]))
    else if key in cache && Rebuilt(cache[key], candidates) != [] then (cache, Success(Rebuilt(cache[key], candidates)))
    else
      match picks
      case Failure(e) => (cache, Failure(e))
      case Success(ps) =>
        (cache[key := Ids(Selected(candidates, ps))], Success(Selected(candidates, ps)))
  }

  class CapabilityStore {
    var cache: map<string, seq<string>>

    method RerankCapabilities(key: string, candidates: seq<Capability>, picks: Result<seq<int>, string>)
      returns (res: Result<seq<Capability>, string>)
      modifies this
      ensures (cache, res) == Reranked(old(cache), key, candidates, picks)
    {
      if |candidates| == 0 {
        return Success([]);
      }
      if key in cache && |cache[key]| > 0 {
        var hit := RerankRebuildFromCache(cache[key], candidates);
        if |hit| > 0 {
          return Success(hit);
        }
      }
      if picks.Failure? {
        return Failure(picks.error);
      }
      if |picks.value| == 0 {
        cache := cache[key := []];
        return Success([]);
      }
      var out: seq<Capability> := [];
      for i := 0 to |picks.value|
        invariant out == Selected(candidates, picks.value[..i]) && cache == old(cache)
      {
        assert picks.value[..i + 1][..i] == picks.value[..i];
        var idx := picks.value[i] - 1;
        if idx < 0 || idx >= |candidates| {
          continue;
        }
        out := out + [candidates[idx]];
      }
      assert picks.value[..|picks.value|] == picks.value;
      cache := cache[key := Ids(out)];
      res := Success(out);
    }
  }

  lemma {:induction false} FoundIsCached(cache: map<string, seq<string>>, key: string, candidates: seq<Capability>,
                                         picks: Result<seq<int>, string>)
    requires Identified(candidates)
    requires var first := Reranked(cache, key, candidates, picks).1; first.Success? && first.value != []
    ensures var (cached, first) := Reranked(cache, key, candidates, picks);
      key in cached && Rebuilt(cached[key], candidates) == first.value
  {
    if picks.Success? {
      SelectionIsRebuilt(candidates, picks.value);
    }
  }

  /**
   After a call that found something, the next call for the same query gives the same result over
   the same candidates, whatever the model would answer; over other candidates it gives the ids
   still present in the same order, unless none is: then the model is asked again.
   */
  lemma {:induction false} SecondCallAgrees(cache: map<string, seq<string>>, key: string, candidates: seq<Capability>,
                                            picks: Result<seq<int>, string>, later: seq<Capability>,
                                            again: Result<seq<int>, string>)
    requires Identified(candidates)
    requires var first := Reranked(cache, key, candidates, picks).1; first.Success? && first.value != []
    ensures var (cached, first) := Reranked(cache, key, candidates, picks);
      && Reranked(cached, key, candidates, again) == (cached, first)
      && Ids(first.value) == Present(cached[key], candidates)
      && (Present(cached[key], later) != [] ==>
            var (kept, second) := Reranked(cached, key, later, again);
            kept == cached && second.Success? && Ids(second.value) == Present(cached[key], later))
      && (Present(cached[key], later) == [] && later != [] ==>
            var (kept, second) := Reranked(cached, key, later, again);
            match again
            case Failure(e) => kept == cached && second == Failure(e)
            case Success(picks) =>
              second == Success(Selected(later, picks)) && kept == cached[key := Ids(Selected(later, picks))])
  {
    var (cached, first) := Reranked(cache, key, candidates, picks);
    FoundIsCached(cache, key, candidates, picks);
    RebuildingRestricts(cached[key], candidates);
    RebuildingRestricts(cached[key], later);
    NothingToRebuild(cached[key]);
  }

  lemma {:induction false} NothingToRebuild(ids: seq<string>)
    ensures Present(ids, []) == []
  {
    if ids != [] {
      NothingToRebuild(ids[..|ids| - 1]);
    }
  }
}
