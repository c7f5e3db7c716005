/** Scaling never loses more pods than it must, always moves towards its goal, and reaches it. */
module Availability {
  import opened Objects
  import opened Cluster
  import opened Planner
  import opened SlowStart
  import opened Rollout
  import opened Guarantees

  /** The pods still to be created or deleted. With one revision only the total counts. */
  function Distance(g: Goal, s: State): nat
    requires g.pw.replicas.Some?
  {
    if g.update != g.current then
      Abs(|Updated(s, g.update)| - Partition(g.pw))
      + Abs(|NotUpdated(s, g.update)| - (g.pw.replicas.value - Partition(g.pw)))
    else
      Abs(|Own(s)| - g.pw.replicas.value)
  }

  lemma PlanMatches(g: Goal, s: State, claimed: seq<Pod>, t: Pass)
    requires PassFrom(g, s, claimed, t)
    ensures g.pw.replicas.Some?
    ensures if g.update != g.current then
              && Balances(|Updated(s, g.update)|, Partition(g.pw), t.diffs.scaleUpNum, t.diffs.scaleDownNum)
              && Balances(|NotUpdated(s, g.update)|, g.pw.replicas.value - Partition(g.pw),
                          t.diffs.scaleUpNumOldRevision, t.diffs.scaleDownNumOldRevision)
            else
              && Balances(|Own(s)|, g.pw.replicas.value, t.diffs.scaleUpNum, t.diffs.scaleDownNum)
              && t.diffs.scaleUpNumOldRevision == 0 && t.diffs.scaleDownNumOldRevision == 0
    ensures |Own(s)| == |Updated(s, g.update)| + |NotUpdated(s, g.update)|
  {
    ClaimedCounts(s, claimed, g.update);
    OwnSplits(s, g.update);
  }

  /** After every call of a pass, accepted or refused, the workload has at least the pods it had or should have,
      on either side of the partition and in total, and never more than it had plus its replicas. */
  lemma FloorAndCeiling(g: Goal, s: State, claimed: seq<Pod>, t: Pass, k: nat)
    requires PassFrom(g, s, claimed, t) && k <= |Calls(t)|
    ensures |Own(At(s, t, k))| >= Min(|Own(s)|, g.pw.replicas.value)
    ensures |Own(At(s, t, k))| <= |Own(s)| + g.pw.replicas.value
    ensures g.update != g.current ==>
              && |Updated(At(s, t, k), g.update)| >= Min(|Updated(s, g.update)|, Partition(g.pw))
              && |NotUpdated(At(s, t, k), g.update)|
                 >= Min(|NotUpdated(s, g.update)|, g.pw.replicas.value - Partition(g.pw))
  {
    hide PassFrom, Side, Own;
    PlanMatches(g, s, claimed, t);
    var newUps, newOthers, goneUps, goneOthers := PassCounts(g, s, claimed, t, k);
    OwnSplits(At(s, t, k), g.update);
    assert newUps + newOthers <= g.pw.replicas.value;
  }

  /** Every accepted call brings the workload nearer by exactly one pod; a refused call changes nothing. */
  lemma Progress(g: Goal, s: State, claimed: seq<Pod>, t: Pass, k: nat)
    requires PassFrom(g, s, claimed, t) && k <= |Calls(t)|
    ensures Distance(g, At(s, t, k)) == Distance(g, s) - Done(Calls(t)[..k])
  {
    hide PassFrom, Side, Own, Done;
    PlanMatches(g, s, claimed, t);
    var newUps, newOthers, goneUps, goneOthers := PassCounts(g, s, claimed, t, k);
    OwnSplits(At(s, t, k), g.update);
  }

  /** The goal is reached exactly when the next plan is empty. */
  lemma ReachedIffPlanEmpty(g: Goal, s: State, claimed: seq<Pod>, d: Diffs)
    requires WellKeyed(s) && Claims(s, claimed) && g.pw.replicas.Some?
    requires IsPlan(g.pw, claimed, g.current, g.update, d)
    ensures Distance(g, s) == 0 <==> IsEmpty(d)
  {
    ClaimedCounts(s, claimed, g.update);
  }

  /** One pass that meets no failure leaves exactly the partition of updated pods and the replicas in total,
      whatever revisions the pods had; with one revision it leaves the replicas in total. */
  lemma OnePassExact(g: Goal, s: State, claimed: seq<Pod>, t: Pass)
    requires PassFrom(g, s, claimed, t) && Succeeds(claimed, g.update, t)
    ensures var end := At(s, t, |Calls(t)|);
            && Distance(g, end) == 0
            && |Own(end)| == g.pw.replicas.value
            && (g.update != g.current ==> |Updated(end, g.update)| == Partition(g.pw))
  {
    hide PassFrom, Side, Own, Succeeds;
    PlanMatches(g, s, claimed, t);
    var newUps, newOthers, goneUps, goneOthers := PassCounts(g, s, claimed, t, |Calls(t)|);
    OwnSplits(At(s, t, |Calls(t)|), g.update);
  }

  /** The promised partition is met after a pass without failure exactly when two revisions are in play, or
      as many pods as the partition leaves out were of other revisions before. */
  lemma PartitionMetIff(g: Goal, s: State, claimed: seq<Pod>, t: Pass)
    requires PassFrom(g, s, claimed, t) && Succeeds(claimed, g.update, t)
    ensures |Updated(At(s, t, |Calls(t)|), g.update)| == Partition(g.pw)
            <==> g.update != g.current || |NotUpdated(s, g.update)| == g.pw.replicas.value - Partition(g.pw)
  {
    hide PassFrom, Side, Own, Succeeds;
    PlanMatches(g, s, claimed, t);
    var newUps, newOthers, goneUps, goneOthers := PassCounts(g, s, claimed, t, |Calls(t)|);
  }

  /** What the partition promises while two revisions are in play: all replicas are updated if none is set, else as many
      as it says, but no more than the replicas. */
  lemma PartitionPromised(g: Goal, s: State, claimed: seq<Pod>, t: Pass)
    requires PassFrom(g, s, claimed, t) && Succeeds(claimed, g.update, t) && g.update != g.current
    ensures var ups, replicas := |Updated(At(s, t, |Calls(t)|), g.update)|, g.pw.replicas.value;
            && (g.pw.partition.None? ==> ups == replicas)
            && (g.pw.partition.Some? && g.pw.partition.value <= replicas ==> ups == g.pw.partition.value)
            && (g.pw.partition.Some? && g.pw.partition.value > replicas ==> ups == replicas)
  {
    hide PassFrom, Side, Succeeds;
    OnePassExact(g, s, claimed, t);
  }

  /** An input on which it is not: two pods, one replica of them to be updated, and a single revision. */
  lemma PartitionMissed()
    ensures var body := Null;
            var pw := Spec(Some(2), Some(1), map[], Template(map[], body));
            var p0 := Pod(0, map[REVISION_LABEL := "r"], body, 0, [OwnerRef(7, true)], false);
            var p1 := p0.(id := 1);
            var t := Pass(Diffs(0, 0, 0, 0), [], [], [], []);
            && IsPass(pw, [p0, p1], "r", "r", p0, p0, t) && Succeeds([p0, p1], "r", t)
            && |WithRevision([p0, p1], "r")| == 2 && Partition(pw) == 1
  {
    var p0 := Pod(0, map[REVISION_LABEL := "r"], Null, 0, [OwnerRef(7, true)], false);
    var p1 := p0.(id := 1);
    assert [p0, p1][..1] == [p0];
    assert WithRevision([p0], "r") == [p0] && WithoutRevision([p0], "r") == [];
    assert FirstFailure(Outcomes([])) == 0;
  }

  /** A plan can be carried out exactly when there are two revisions, or the pods of other revisions than the one do not
      exceed the replicas. */
  lemma FeasibleIff(pw: Spec, pods: seq<Pod>, current: Name, updated: Name, d: Diffs)
    requires pw.replicas.Some? && IsPlan(pw, pods, current, updated, d)
    ensures Feasible(pods, updated, d) <==>
              || updated != current
              || |WithoutRevision(pods, updated)| <= pw.replicas.value
  {
    GroupsPartition(pods, updated);
  }

  /** When no creation fails, the pods created are exactly those planned: first those of the current revision. */
  lemma CreatesExactly(g: Goal, s: State, claimed: seq<Pod>, t: Pass)
    requires PassFrom(g, s, claimed, t)
    ensures |t.creates| <= t.diffs.scaleUpNumOldRevision + t.diffs.scaleUpNum
    ensures AllCreated(t.creates) ==> |t.creates| == t.diffs.scaleUpNumOldRevision + t.diffs.scaleUpNum
    ensures forall i | 0 <= i < |t.creates| && t.creates[i].PodCreated? ::
              t.creates[i].pod == if i < t.diffs.scaleUpNumOldRevision then g.currentPod else g.updatedPod
  {
    hide WellKeyed, Claims, Oldest, DeletesAs, WithRevision, WithoutRevision, Mine, IsPlan;
    AllOutcomes(t.creates);
    var planned := Planned(g.currentPod, g.updatedPod, t.diffs);
    forall i | 0 <= i < |t.creates| && t.creates[i].PodCreated?
      ensures t.creates[i].pod == if i < t.diffs.scaleUpNumOldRevision then g.currentPod else g.updatedPod
    {
      assert Attempts(t.creates[i], planned[i], true);
    }
  }

  /** It starts with a single call, and goes on with two: the first that is refused stops it at once, and the second or
      third lets no more than three be made. */
  lemma StartsWithOne(planned: seq<Pod>, creates: seq<Event>)
    requires CreatesAs(planned, creates) && planned != []
    ensures creates != []
    ensures creates[0].PodCreateFailed? ==> |creates| == 1
    ensures creates[0].PodCreated? && |planned| > 1 ==> |creates| > 1
    ensures creates[0].PodCreated? && |creates| > 2 && (creates[1].PodCreateFailed? || creates[2].PodCreateFailed?) ==>
              |creates| == 3
  {
    var outcomes := Outcomes(creates);
    assert Attempts(creates[0], planned[0], creates[0].PodCreated?);
    if |creates| > 0 && creates[0].PodCreateFailed? {
      FirstFailureOf(outcomes, 0);
    } else if |creates| > 1 && creates[1].PodCreateFailed? {
      FirstFailureOf(outcomes, 1);
    } else if |creates| > 2 && creates[2].PodCreateFailed? {
      FirstFailureOf(outcomes, 2);
    }
  }

  lemma GoneIffDeleted(g: Goal, s: State, claimed: seq<Pod>, t: Pass, k: nat, id: PodId)
    requires PassFrom(g, s, claimed, t) && k <= |Calls(t)| && id in s.pods
    ensures id in At(s, t, k).pods <==> PodDeleted(id) !in Calls(t)[..k]
  {
    hide PodCalls, Claims, Mine, IsPass;
    PassIsPodCalls(g, s, claimed, t);
    PrefixPodCalls(s, Calls(t), k);
    ReplayPods(s, Calls(t)[..k]);
  }

  /** A deletion among the first k calls is one of the pass's deletions. */
  lemma DeletedAmong(creates: seq<Event>, deletes: seq<Event>, k: nat, e: Event) returns (x: nat)
    requires k <= |creates + deletes| && e in (creates + deletes)[..k] && e !in creates
    ensures |creates| + x < k && x < |deletes| && deletes[x] == e
  {
    var all := creates + deletes;
    forall i | 0 <= i < |creates| && i < k
      ensures all[..k][i] != e
    {
      assert all[..k][i] == creates[i] && creates[i] in creates;
    }
    var n :| 0 <= n < k && all[..k][n] == e;
    x := n - |creates|;
  }

  /** Where in the list of victims a pod stands that k calls have deleted. */
  lemma VictimAt(g: Goal, s: State, claimed: seq<Pod>, t: Pass, k: nat, gone: PodId) returns (x: nat)
    requires PassFrom(g, s, claimed, t) && k <= |Calls(t)|
    requires gone in s.pods && gone !in At(s, t, k).pods
    ensures |t.creates| + x < k && x < |t.deletes| && t.deletes[x] == PodDeleted(gone)
    ensures x < |t.updatedVictims + t.otherVictims| && (t.updatedVictims + t.otherVictims)[x].id == gone
  {
    hide PassFrom, PodCall, At, Oldest;
    GoneIffDeleted(g, s, claimed, t, k, gone);
    CreatesArePodCalls(g, s, claimed, t);
    x := DeletedAmong(t.creates, t.deletes, k, PodDeleted(gone));
    PassPicks(g, s, claimed, t);
    assert Deletes(t.deletes[x], (t.updatedVictims + t.otherVictims)[x]);
  }

  lemma PassOldest(g: Goal, s: State, claimed: seq<Pod>, t: Pass)
    requires PassFrom(g, s, claimed, t) && t.deletes != []
    ensures Oldest(WithRevision(claimed, g.update), t.updatedVictims)
    ensures Oldest(WithoutRevision(claimed, g.update), t.otherVictims)
  {
    hide Oldest, DeletesAs, Mine, Claims, CreatesAs, IsPlan;
  }

  lemma InGroup(s: State, claimed: seq<Pod>, update: Name, updated: bool, i: PodId)
    requires Claims(s, claimed) && i in Side(s, update, updated)
    ensures s.pods[i] in Group(claimed, update, updated)
  {
    hide WithRevision, WithoutRevision;
    GroupsPartition(claimed, update);
    var p := s.pods[i];
    assert p in multiset(claimed);
    assert p in multiset(WithRevision(claimed, update)) || p in multiset(WithoutRevision(claimed, update));
    assert forall q <- WithRevision(claimed, update) :: EqualToRevisionHash(q, update);
    assert forall q <- WithoutRevision(claimed, update) :: !EqualToRevisionHash(q, update);
  }

  /** Of the pods of one side, a victim is no younger than a later victim or a pod that is none. */
  lemma VictimBefore(s: State, claimed: seq<Pod>, update: Name, updated: bool, victims: seq<Pod>, i: nat, left: PodId)
    requires Claims(s, claimed) && left in Side(s, update, updated)
    requires Oldest(Group(claimed, update, updated), victims) && i < |victims|
    requires forall j | 0 <= j < i :: victims[j] != s.pods[left]
    ensures victims[i].created <= s.pods[left].created
  {
    hide WithRevision, WithoutRevision, Claims;
    InGroup(s, claimed, update, updated, left);
    var p := s.pods[left];
    assert victims[i] in victims;
    if p in victims {
      var j :| 0 <= j < |victims| && victims[j] == p;
    }
  }

  /** A victim whose deletion is among the first k calls is not left. */
  lemma NotLeft(g: Goal, s: State, claimed: seq<Pod>, t: Pass, k: nat, x: nat, y: nat, left: PodId)
    requires PassFrom(g, s, claimed, t) && k <= |Calls(t)|
    requires y <= x < |t.deletes| && |t.creates| + x < k && t.deletes[x].PodDeleted?
    requires left in s.pods && left in At(s, t, k).pods
    ensures y < |t.updatedVictims + t.otherVictims| && (t.updatedVictims + t.otherVictims)[y].id != left
  {
    hide PassFrom, At, Oldest;
    PassPicks(g, s, claimed, t);
    GoneIffDeleted(g, s, claimed, t, k, left);
    assert Deletes(t.deletes[y], (t.updatedVictims + t.otherVictims)[y]);
    assert Calls(t)[..k][|t.creates| + y] == t.deletes[y];
  }

  lemma PodsKnowTheirIds(g: Goal, s: State, claimed: seq<Pod>, t: Pass, id: PodId)
    requires PassFrom(g, s, claimed, t) && id in s.pods
    ensures s.pods[id].id == id && Claims(s, claimed)
  {
    hide IsPass, Claims;
  }

  /** The place of a victim among those of its side. */
  lemma IndexInSide(g: Goal, s: State, claimed: seq<Pod>, t: Pass, updated: bool, gone: PodId, x: nat) returns (i: nat)
    requires PassFrom(g, s, claimed, t) && gone in Side(s, g.update, updated)
    requires x < |t.updatedVictims + t.otherVictims| && (t.updatedVictims + t.otherVictims)[x].id == gone
    ensures i == if updated then x else x - |t.updatedVictims|
    ensures i < |if updated then t.updatedVictims else t.otherVictims|
    ensures (if updated then t.updatedVictims else t.otherVictims)[i] == s.pods[gone]
  {
    hide PassFrom, Own, DistinctIds;
    PassVictims(g, s, claimed, t);
    var v := (t.updatedVictims + t.otherVictims)[x];
    if x < |t.updatedVictims| {
      assert v in t.updatedVictims;
    } else {
      assert v == t.otherVictims[x - |t.updatedVictims|];
    }
    i := if updated then x else x - |t.updatedVictims|;
  }

  /** Whatever has been deleted of one side of the pods, nothing older of that side is left. */
  lemma OldestFirst(g: Goal, s: State, claimed: seq<Pod>, t: Pass, k: nat, updated: bool, gone: PodId, left: PodId)
    requires PassFrom(g, s, claimed, t) && k <= |Calls(t)|
    requires gone in Side(s, g.update, updated) && gone !in At(s, t, k).pods
    requires left in Side(s, g.update, updated) && left in At(s, t, k).pods
    ensures s.pods[gone].created <= s.pods[left].created
  {
    hide Oldest, PassFrom, At, Mine, Calls, Claims;
    var x := VictimAt(g, s, claimed, t, k, gone);
    var i := IndexInSide(g, s, claimed, t, updated, gone, x);
    var victims := if updated then t.updatedVictims else t.otherVictims;
    PassOldest(g, s, claimed, t);
    PodsKnowTheirIds(g, s, claimed, t, gone);
    PodsKnowTheirIds(g, s, claimed, t, left);
    forall j | 0 <= j < i
      ensures victims[j] != s.pods[left]
    {
      NotLeft(g, s, claimed, t, k, x, x - i + j, left);
    }
    VictimBefore(s, claimed, g.update, updated, victims, i, left);
  }

  // ---- Repeated passes

  /** Each pass starts from what the one before left, lists the pods afresh, and may fail at any call. */
  predicate Repeats(g: Goal, states: seq<State>, claims: seq<seq<Pod>>, passes: seq<Pass>) {
    && |states| == |passes| + 1 && |claims| == |passes|
    && forall i | 0 <= i < |passes| ::
         PassFrom(g, states[i], claims[i], passes[i]) && states[i + 1] == Replay(states[i], Calls(passes[i]))
  }

  /** However the calls of repeated passes fail, as long as each pass that is not done lands one of them
      the goal is reached within as many passes as pods were missing or in excess. */
  lemma {:induction false} RepeatedPassesArrive(g: Goal, states: seq<State>, claims: seq<seq<Pod>>, passes: seq<Pass>)
    requires g.pw.replicas.Some? && Repeats(g, states, claims, passes)
    requires forall i | 0 <= i < |passes| :: Distance(g, states[i]) == 0 || Done(Calls(passes[i])) > 0
    ensures Distance(g, states[|passes|]) <= Max(0, Distance(g, states[0]) - |passes|)
  {
    hide PassFrom, Distance, Done;
    if passes != [] {
      var n := |passes| - 1;
      RepeatedPassesArrive(g, states[..n + 1], claims[..n], passes[..n]);
      var s, t := states[n], passes[n];
      assert PassFrom(g, s, claims[n], t);
      assert Calls(t)[..|Calls(t)|] == Calls(t);
      Progress(g, s, claims[n], t, |Calls(t)|);
    }
  }
}
