/** Carries a plan out: slow creations first, then deletions of the oldest pods. */
module Executor {
  import opened Objects
  import opened Cluster
  import opened Server
  import opened SlowStart
  import opened Planner
  import opened Rollout
  import opened Guarantees
  import opened Sorting

  const INITIAL_BATCH_SIZE := 1

  lemma CreatedAll(creates: seq<Event>)
    ensures Successes(Outcomes(creates)) == |creates| <==> AllCreated(creates)
  {
    AllSucceed(Outcomes(creates));
    forall i | 0 <= i < |creates|
      ensures creates[i] in creates && Outcomes(creates)[i] == creates[i].PodCreated?
    {
    }
  }

  method CreatePods(c: Client, uid: Uid, expectedUpdatedCreations: nat, expectedCurrentCreations: nat,
                    currentPW: Spec, updatedPW: Spec, current: Name, updated: Name)
      returns (err: Option<Error>, ghost creates: seq<Event>)
    requires c.Valid()
    modifies c
    ensures c.Valid() && c.KeepsRevisions(old(c.s))
    ensures var planned := Planned(VersionedPod(uid, currentPW.template, current),
                                   VersionedPod(uid, updatedPW.template, updated),
                                   Diffs(expectedUpdatedCreations, expectedCurrentCreations, 0, 0));
            CreatesAs(planned, creates) && Tried(c, old(c.log), c.log, planned, creates)
    ensures err.None? <==> AllCreated(creates)
    ensures err.Some? ==> ByServer(err.value) && FailsWith(creates, err.value)
    ensures c.reliable ==> err.None?
  {
    creates := [];
    if expectedCurrentCreations == 0 && expectedUpdatedCreations == 0 {
      return None, [];
    }
    var newPods := NewMultiVersionedPods(uid, currentPW, updatedPW, current, updated,
                                         expectedCurrentCreations, expectedUpdatedCreations);
    var channel := new Channel(newPods);
    var created;
    ghost var batches;
    created, err, creates, batches := DoItSlowly(c, channel, |newPods|, INITIAL_BATCH_SIZE);
    CreatedAll(creates);
  }

  lemma {:induction false} DistinctOnce(pods: seq<Pod>, p: Pod)
    requires DistinctIds(pods)
    ensures multiset(pods)[p] <= 1
  {
    if pods != [] {
      var n := |pods| - 1;
      DistinctOnce(pods[..n], p);
      assert pods == pods[..n] + [pods[n]];
      if pods[n] == p {
        assert p !in pods[..n];
      }
    }
  }

  lemma Twice(pods: seq<Pod>, i: nat, j: nat)
    requires i < j < |pods| && pods[i] == pods[j]
    ensures multiset(pods)[pods[i]] >= 2
  {
    var p := pods[i];
    assert pods == pods[..i] + [p] + pods[i + 1..j] + [p] + pods[j + 1..];
  }

  lemma FirstDistinct(group: seq<Pod>, first: seq<Pod>, rest: seq<Pod>)
    requires DistinctIds(group) && multiset(first + rest) == multiset(group)
    ensures DistinctIds(first)
  {
    forall i, j | 0 <= i < j < |first|
      ensures first[i].id != first[j].id
    {
      if first[i].id == first[j].id {
        assert first[i] in multiset(group) && first[j] in multiset(group);
        var p := first[i];
        DistinctOnce(group, p);
        Twice(first, i, j);
      }
    }
  }

  lemma SplitIsOldest(group: seq<Pod>, first: seq<Pod>, rest: seq<Pod>)
    requires multiset(first + rest) == multiset(group)
    requires forall i, j | 0 <= i < j < |first + rest| :: (first + rest)[i].created <= (first + rest)[j].created
    ensures Oldest(group, first)
  {
    forall v | v in first
      ensures v in group
    {
      assert v in multiset(group);
    }
    if DistinctIds(group) {
      FirstDistinct(group, first, rest);
    }
    forall i, j | 0 <= i < j < |first|
      ensures first[i].created <= first[j].created
    {
      assert (first + rest)[i] == first[i] && (first + rest)[j] == first[j];
    }
    forall v, p | v in first && p in group && p !in first
      ensures v.created <= p.created
    {
      assert p in multiset(group);
      var i :| 0 <= i < |first| && first[i] == v;
      var j :| 0 <= j < |rest| && rest[j] == p;
      assert (first + rest)[i] == v && (first + rest)[|first| + j] == p;
    }
  }

  /** The first pods of a sorted group are its oldest. */
  lemma SortedPrefixIsOldest(group: seq<Pod>, sorted: seq<Pod>, n: nat)
    requires SortedBy((p: Pod) => p.created, sorted) && multiset(sorted) == multiset(group) && n <= |sorted|
    ensures Oldest(group, sorted[..n]) && |group| == |sorted|
  {
    assert |multiset(sorted)| == |multiset(group)|;
    var first, rest := sorted[..n], sorted[n..];
    assert sorted == first + rest;
    var key := (p: Pod) => p.created;
    forall i, j | 0 <= i < j < |sorted|
      ensures sorted[i].created <= sorted[j].created
    {
      assert key(sorted[i]) <= key(sorted[j]);
    }
    SplitIsOldest(group, first, rest);
  }

  method SortPodsOldestFirst(pods: array<Pod>)
    modifies pods
    ensures SortedBy((p: Pod) => p.created, pods[..]) && multiset(pods[..]) == multiset(old(pods[..]))
  {
    SortInPlace((p: Pod) => p.created, pods);
  }

  /** Picks the pods to delete from one group, which it sorts; the group may hold too few. */
  method Pick(group: array<Pod>, n: nat, few: Error) returns (err: Option<Error>, picked: seq<Pod>)
    modifies group
    ensures err == if n > 0 && group.Length < n then Some(few) else None
    ensures err.None? ==> |picked| == n && Oldest(old(group[..]), picked)
    ensures err.Some? ==> picked == []
  {
    picked := [];
    err := None;
    if n > 0 {
      if group.Length < n {
        return Some(few), [];
      }
      SortPodsOldestFirst(group);
      SortedPrefixIsOldest(old(group[..]), group[..], n);
      picked := group[..n];
    }
  }

  predicate Enough(updatedPods: nat, notUpdatedPods: nat, updatedDeletions: nat, currentDeletions: nat) {
    updatedDeletions <= updatedPods && currentDeletions <= notUpdatedPods
  }

  /** Deletions end without an error if none is refused, and else with the refusal. */
  predicate DeletesUntil(deletes: seq<Event>, err: Option<Error>) {
    && (err.None? <==> forall e <- deletes :: e.PodDeleted?)
    && (err.Some? ==> deletes != [] && deletes[|deletes| - 1].PodDeleteFailed?
                      && deletes[|deletes| - 1].error == err.value)
  }

  /** The oldest pods of each group are deleted, or nothing is because a group is too small. */
  predicate Executes(updatedPods: seq<Pod>, notUpdatedPods: seq<Pod>, updatedDeletions: nat, currentDeletions: nat,
                     updatedVictims: seq<Pod>, otherVictims: seq<Pod>, deletes: seq<Event>, err: Option<Error>)
  {
    if Enough(|updatedPods|, |notUpdatedPods|, updatedDeletions, currentDeletions) then
      && |updatedVictims| == updatedDeletions && Oldest(updatedPods, updatedVictims)
      && |otherVictims| == currentDeletions && Oldest(notUpdatedPods, otherVictims)
      && DeletesAs(updatedVictims + otherVictims, deletes)
      && DeletesUntil(deletes, err)
    else
      && err == Some(if updatedDeletions > |updatedPods| then NotEnoughUpdated else NotEnoughCurrent)
      && updatedVictims == [] && otherVictims == [] && deletes == []
  }

  predicate IsDelete(e: Event) {
    e.PodDeleted? || e.PodDeleteFailed?
  }

  /** The log has grown by deletions, which are all the calls made, and by what others did. */
  ghost predicate DeletedIn(c: Client, before: seq<Event>, after: seq<Event>, deletes: seq<Event>) {
    && Did(before, after, deletes)
    && (c.calm ==> after == before + deletes)
    && forall k | |before| <= k < |after| :: IsNoise(c.Selector(), c.exclusive, after[k]) || IsDelete(after[k])
  }

  lemma NothingDeleted(c: Client, log: seq<Event>, updatedPods: seq<Pod>, notUpdatedPods: seq<Pod>)
    ensures DeletedIn(c, log, log, [])
    ensures Executes(updatedPods, notUpdatedPods, 0, 0, [], [], [], None)
  {
    DidNothing(log);
    var none: seq<Pod> := [];
    assert none + none == none;
    assert log + [] == log;
  }

  /** Different pods that are all there to be deleted. */
  predicate Deletable(pods: seq<Pod>, s: State) {
    DistinctIds(pods) && forall p <- pods :: p.id in s.pods
  }

  lemma PicksDeletable(ups: seq<Pod>, rest: seq<Pod>, first: seq<Pod>, second: seq<Pod>, s: State)
    requires Deletable(ups + rest, s) && Oldest(ups, first) && Oldest(rest, second)
    ensures Deletable(first + second, s)
  {
    var all := ups + rest;
    forall i, j | 0 <= i < j < |ups|
      ensures ups[i].id != ups[j].id
    {
      assert all[i].id != all[j].id;
    }
    forall i, j | 0 <= i < j < |rest|
      ensures rest[i].id != rest[j].id
    {
      assert all[|ups| + i].id != all[|ups| + j].id;
    }
    forall p, q | p in first && q in second
      ensures p.id != q.id
    {
      var i :| 0 <= i < |ups| && ups[i] == p;
      var j :| 0 <= j < |rest| && rest[j] == q;
      assert all[i].id != all[|ups| + j].id;
    }
    forall p | p in first + second
      ensures p.id in s.pods
    {
      assert p in all;
    }
  }

  /** All pods from the i-th on are there, and they are different ones. */
  predicate StillThere(pods: seq<Pod>, i: nat, s: State) {
    DistinctIds(pods) && forall j | i <= j < |pods| :: pods[j].id in s.pods
  }

  lemma ThereNext(pods: seq<Pod>, i: nat, s: State)
    requires i < |pods|
    ensures StillThere(pods, i, s) ==> pods[i].id in s.pods && StillThere(pods, i + 1, Next(s, PodDeleted(pods[i].id)))
  {
  }

  lemma NoneDeleted(c: Client, log: seq<Event>, pods: seq<Pod>, s: State)
    ensures DeletedIn(c, log, log, [])
    ensures Deletable(pods, s) ==> StillThere(pods, 0, s)
  {
    DidNothing(log);
    assert log + [] == log;
  }

  lemma DeletedMore(c: Client, before: seq<Event>, middle: seq<Event>, after: seq<Event>, deletes: seq<Event>)
    requires DeletedIn(c, before, middle, deletes)
    requires middle < after && IsDelete(after[|after| - 1]) && Did(middle, after, [after[|after| - 1]])
    requires NoiseOnly(c.Selector(), c.exclusive, after, |middle|, |after| - 1)
    requires c.calm ==> after == middle + [after[|after| - 1]]
    ensures DeletedIn(c, before, after, deletes + [after[|after| - 1]])
  {
    hide CallsOf;
    DidMore(before, middle, after, deletes, [after[|after| - 1]]);
    forall k | |before| <= k < |after|
      ensures IsNoise(c.Selector(), c.exclusive, after[k]) || IsDelete(after[k])
    {
      if k < |middle| {
        assert after[k] == middle[k];
      }
    }
  }

  /** Deletes pods one by one until a deletion fails. */
  method DeleteAll(c: Client, pods: seq<Pod>) returns (err: Option<Error>, ghost deletes: seq<Event>)
    requires c.Valid()
    modifies c
    ensures c.Valid() && c.KeepsRevisions(old(c.s)) && DeletedIn(c, old(c.log), c.log, deletes)
    ensures err.Some? ==> ByServer(err.value)
    ensures DeletesAs(pods, deletes) && DeletesUntil(deletes, err)
    ensures c.calm && c.reliable && Deletable(pods, old(c.s)) ==> err.None?
  {
    hide Client.Valid, Replay, IsNoise, DeletedIn, DistinctIds, Deletable, StillThere, CallsOf;
    deletes := [];
    NoneDeleted(c, c.log, pods, c.s);
    for i := 0 to |pods|
      invariant c.calm && c.reliable && Deletable(pods, old(c.s)) ==> StillThere(pods, i, c.s)
      invariant c.Valid() && c.KeepsRevisions(old(c.s)) && DeletedIn(c, old(c.log), c.log, deletes)
      invariant |deletes| == i
      invariant forall k | 0 <= k < i :: deletes[k] == PodDeleted(pods[k].id)
    {
      ghost var log1 := c.log;
      ghost var s1 := c.s;
      ThereNext(pods, i, s1);
      err := c.DeletePod(pods[i].id);
      DeletedMore(c, old(c.log), log1, c.log, deletes);
      deletes := deletes + [c.Last()];
      if err.Some? {
        assert deletes[i] in deletes;
        return;
      }
    }
    err := None;
  }

  method DeletePods(c: Client, expectedUpdatedDeletions: nat, expectedCurrentDeletions: nat,
                    updatedPods: array<Pod>, notUpdatedPods: array<Pod>)
      returns (err: Option<Error>, ghost updatedVictims: seq<Pod>, ghost otherVictims: seq<Pod>,
               ghost deletes: seq<Event>)
    requires c.Valid()
    requires updatedPods != notUpdatedPods
    modifies c, updatedPods, notUpdatedPods
    ensures c.Valid() && c.KeepsRevisions(old(c.s)) && DeletedIn(c, old(c.log), c.log, deletes)
    ensures expectedUpdatedDeletions > updatedPods.Length <==> err == Some(NotEnoughUpdated)
    ensures expectedUpdatedDeletions <= updatedPods.Length && expectedCurrentDeletions > notUpdatedPods.Length
            <==> err == Some(NotEnoughCurrent)
    ensures Executes(old(updatedPods[..]), old(notUpdatedPods[..]), expectedUpdatedDeletions, expectedCurrentDeletions,
                     updatedVictims, otherVictims, deletes, err)
    ensures !Enough(updatedPods.Length, notUpdatedPods.Length, expectedUpdatedDeletions, expectedCurrentDeletions) ==>
              c.s == old(c.s) && c.log == old(c.log)
    ensures c.calm && c.reliable && Deletable(old(updatedPods[..] + notUpdatedPods[..]), old(c.s)) ==>
              err.None? || err == Some(NotEnoughUpdated) || err == Some(NotEnoughCurrent)
  {
    hide Oldest, DeletesAs, DeletedIn, Deletable;
    updatedVictims, otherVictims, deletes := [], [], [];
    NothingDeleted(c, c.log, updatedPods[..], notUpdatedPods[..]);
    if expectedUpdatedDeletions == 0 && expectedCurrentDeletions == 0 {
      return None, [], [], [];
    }
    var podsToDelete: seq<Pod> := [];
    var picked;
    err, picked := Pick(updatedPods, expectedUpdatedDeletions, NotEnoughUpdated);
    if err.Some? {
      return;
    }
    ghost var first := picked;
    assert notUpdatedPods[..] == old(notUpdatedPods[..]);
    podsToDelete := podsToDelete + picked;
    err, picked := Pick(notUpdatedPods, expectedCurrentDeletions, NotEnoughCurrent);
    if err.Some? {
      return;
    }
    podsToDelete := podsToDelete + picked;
    updatedVictims, otherVictims := first, picked;
    assert podsToDelete == first + picked;
    if Deletable(old(updatedPods[..] + notUpdatedPods[..]), c.s) {
      PicksDeletable(old(updatedPods[..]), old(notUpdatedPods[..]), first, picked, c.s);
    }
    err, deletes := DeleteAll(c, podsToDelete);
  }

  /** The log has grown by a pass, which is all the calls made, and by what others did; the pods created are of two
      kinds only. */
  ghost predicate PassLogged(c: Client, before: seq<Event>, after: seq<Event>, currentPod: Pod, updatedPod: Pod,
                             t: Pass) {
    && Did(before, after, Calls(t))
    && (c.calm ==> after == before + t.creates + t.deletes)
    && forall k | |before| <= k < |after| ::
         || IsNoise(c.Selector(), c.exclusive, after[k]) || IsDelete(after[k])
         || IsAttempt(after[k], [currentPod, updatedPod])
  }

  lemma PlannedCounts(currentPod: Pod, updatedPod: Pod, d: Diffs)
    ensures Planned(currentPod, updatedPod, d)
            == Planned(currentPod, updatedPod, Diffs(d.scaleUpNum, d.scaleUpNumOldRevision, 0, 0))
  {
  }

  lemma NothingLogged(c: Client, log: seq<Event>, currentPod: Pod, updatedPod: Pod, t: Pass)
    requires t.creates == t.deletes == []
    ensures PassLogged(c, log, log, currentPod, updatedPod, t)
  {
    DidNothing(log);
    assert log + [] + [] == log;
  }

  lemma CreatesLogged(c: Client, before: seq<Event>, after: seq<Event>, currentPod: Pod, updatedPod: Pod, t: Pass)
    requires Tried(c, before, after, Planned(currentPod, updatedPod, t.diffs), t.creates) && t.deletes == []
    ensures PassLogged(c, before, after, currentPod, updatedPod, t)
  {
    assert before + t.creates + [] == before + t.creates;
    assert t.creates + [] == t.creates;
  }

  lemma DeletesLogged(c: Client, before: seq<Event>, middle: seq<Event>, after: seq<Event>, currentPod: Pod,
                      updatedPod: Pod, t: Pass)
    requires Tried(c, before, middle, Planned(currentPod, updatedPod, t.diffs), t.creates)
    requires DeletedIn(c, middle, after, t.deletes)
    ensures PassLogged(c, before, after, currentPod, updatedPod, t)
  {
    hide CallsOf;
    DidMore(before, middle, after, t.creates, t.deletes);
    forall k | |before| <= k < |after|
      ensures || IsNoise(c.Selector(), c.exclusive, after[k]) || IsDelete(after[k])
              || IsAttempt(after[k], [currentPod, updatedPod])
    {
      if k < |middle| {
        assert after[k] == middle[k];
      }
    }
  }

  lemma PassStops(pw: Spec, pods: seq<Pod>, current: Name, updated: Name, currentPod: Pod, updatedPod: Pod, t: Pass)
    requires pw.replicas.Some? && IsPlan(pw, pods, current, updated, t.diffs)
    requires CreatesAs(Planned(currentPod, updatedPod, t.diffs), t.creates) && !AllCreated(t.creates)
    requires t == Pass(t.diffs, [], [], t.creates, [])
    ensures IsPass(pw, pods, current, updated, currentPod, updatedPod, t) && !Succeeds(pods, updated, t)
    ensures forall error :: FailsWith(t.creates, error) ==> StopsWith(pods, updated, t, error)
  {
  }

  lemma PassEnds(pw: Spec, pods: seq<Pod>, current: Name, updated: Name, currentPod: Pod, updatedPod: Pod, t: Pass,
                 err: Option<Error>)
    requires pw.replicas.Some? && IsPlan(pw, pods, current, updated, t.diffs)
    requires CreatesAs(Planned(currentPod, updatedPod, t.diffs), t.creates) && AllCreated(t.creates)
    requires Executes(WithRevision(pods, updated), WithoutRevision(pods, updated), t.diffs.scaleDownNum,
                      t.diffs.scaleDownNumOldRevision, t.updatedVictims, t.otherVictims, t.deletes, err)
    ensures IsPass(pw, pods, current, updated, currentPod, updatedPod, t)
    ensures err.None? <==> Succeeds(pods, updated, t)
    ensures err.Some? ==> StopsWith(pods, updated, t, err.value)
  {
  }

  lemma GroupsDeletable(pods: seq<Pod>, updated: Name, s: State)
    requires Deletable(pods, s)
    ensures Deletable(WithRevision(pods, updated) + WithoutRevision(pods, updated), s)
  {
    GroupsDistinct(pods, updated);
  }

  /** Creating pods removes none. */
  lemma {:induction false} CreatesKeepPods(s: State, creates: seq<Event>, pods: seq<Pod>)
    requires Deletable(pods, s) && forall e <- creates :: e.PodCreated? || e.PodCreateFailed?
    ensures Deletable(pods, Replay(s, creates))
  {
    if creates != [] {
      var n := |creates| - 1;
      assert creates == creates[..n] + [creates[n]] && creates[n] in creates;
      CreatesKeepPods(s, creates[..n], pods);
    }
  }

  lemma TriedKeepsPods(c: Client, start: State, before: seq<Event>, after: seq<Event>, planned: seq<Pod>,
                       creates: seq<Event>, pods: seq<Pod>)
    requires c.calm && Tried(c, before, after, planned, creates) && Deletable(pods, Replay(start, before))
    ensures Deletable(pods, Replay(start, after))
  {
    hide Deletable;
    ReplayConcat(start, before, creates);
    forall e | e in creates
      ensures e.PodCreated? || e.PodCreateFailed?
    {
      var i :| 0 <= i < |creates| && creates[i] == e;
      assert Attempts(e, planned[i], e.PodCreated?);
    }
    CreatesKeepPods(Replay(start, before), creates, pods);
  }

  /** One pass: plan, create, delete. The caller's pod list is not in the frame: it stays as it is. */
  method ScaleAndUpdate(c: Client, uid: Uid, currentPW: Spec, updatedPW: Spec, current: Name, updated: Name,
                        pods: array<Pod>)
      returns (err: Option<Error>, ghost t: Pass)
    requires c.Valid()
    modifies c
    ensures c.Valid() && c.KeepsRevisions(old(c.s))
    ensures PassLogged(c, old(c.log), c.log, VersionedPod(uid, currentPW.template, current),
                       VersionedPod(uid, updatedPW.template, updated), t)
    ensures updatedPW.replicas.None? ==> err == Some(NoReplicas) && c.s == old(c.s) && c.log == old(c.log)
    ensures updatedPW.replicas.Some? ==>
              && IsPass(updatedPW, pods[..], current, updated, VersionedPod(uid, currentPW.template, current),
                        VersionedPod(uid, updatedPW.template, updated), t)
              && (err.None? <==> Succeeds(pods[..], updated, t))
              && (err.Some? ==> StopsWith(pods[..], updated, t, err.value))
              && (c.reliable ==> AllCreated(t.creates))
    ensures updatedPW.replicas.Some? && c.calm && c.reliable && Deletable(pods[..], old(c.s)) ==>
              (err.None? <==> Feasible(pods[..], updated, t.diffs))
  {
    hide Deletable, Tried, DeletedIn, CreatesAs, DeletesAs, Oldest, IsPlan, PassLogged, IsPass, Succeeds, VersionedPod, Planned,
      WithRevision, WithoutRevision, Executes, Partition, StopsWith, FailsWith;
    ghost var cp, up := VersionedPod(uid, currentPW.template, current), VersionedPod(uid, updatedPW.template, updated);
    t := Pass(Diffs(0, 0, 0, 0), [], [], [], []);
    if updatedPW.replicas.None? {
      NothingLogged(c, c.log, cp, up, t);
      return Some(NoReplicas), t;
    }
    var diffRes := CalculateDiffs(updatedPW, pods, current, updated);
    var updatedPods, notUpdatedPods := GroupUpdatedAndNotUpdatedPods(pods, updated);
    ghost var list, ups, rest := pods[..], updatedPods[..], notUpdatedPods[..];
    ghost var creates;
    err, creates := CreatePods(c, uid, diffRes.scaleUpNum, diffRes.scaleUpNumOldRevision,
                               currentPW, updatedPW, current, updated);
    assert pods[..] == list && updatedPods[..] == ups && notUpdatedPods[..] == rest;
    ghost var log1 := c.log;
    PlannedCounts(cp, up, diffRes);
    t := Pass(diffRes, [], [], creates, []);
    if err.Some? {
      CreatesLogged(c, old(c.log), log1, cp, up, t);
      PassStops(updatedPW, list, current, updated, cp, up, t);
      return;
    }
    if c.calm && c.reliable && Deletable(list, old(c.s)) {
      TriedKeepsPods(c, c.start, old(c.log), log1, Planned(cp, up, diffRes), creates, list);
      GroupsDeletable(list, updated, c.s);
    }
    ghost var vu, vo, deletes;
    err, vu, vo, deletes := DeletePods(c, diffRes.scaleDownNum, diffRes.scaleDownNumOldRevision,
                                       updatedPods, notUpdatedPods);
    assert pods[..] == list;
    t := Pass(diffRes, vu, vo, creates, deletes);
    DeletesLogged(c, old(c.log), log1, c.log, cp, up, t);
    PassEnds(updatedPW, list, current, updated, cp, up, t, err);
  }
}
