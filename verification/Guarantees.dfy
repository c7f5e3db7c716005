/** What a pass of scaling and updating guarantees, at every one of its calls and whichever of them fail. */
module Guarantees {
  import opened Objects
  import opened Cluster
  import opened Planner
  import opened SlowStart
  import opened Rollout

  /** The claimed pods are the workload's own active pods, each once. */
  predicate Claims(s: State, claimed: seq<Pod>) {
    && (forall p <- claimed :: p.id in Own(s) && s.pods[p.id] == p)
    && (forall i <- Own(s) :: s.pods[i] in claimed)
    && DistinctIds(claimed)
  }

  function Group(pods: seq<Pod>, update: Name, updated: bool): seq<Pod> {
    if updated then WithRevision(pods, update) else WithoutRevision(pods, update)
  }

  function Ids(pods: seq<Pod>, update: Name, updated: bool): set<PodId> {
    set p | p in pods && EqualToRevisionHash(p, update) == updated :: p.id
  }

  lemma IdsOneMore(pods: seq<Pod>, last: Pod, update: Name, updated: bool)
    requires DistinctIds(pods + [last])
    ensures last.id !in Ids(pods, update, updated)
    ensures Ids(pods + [last], update, updated)
            == Ids(pods, update, updated) + if EqualToRevisionHash(last, update) == updated then {last.id} else {}
  {
    hide RevisionOf;
    var all := pods + [last];
    forall p | p in pods
      ensures p.id != last.id
    {
      var i :| 0 <= i < |pods| && pods[i] == p;
      assert all[i].id != all[|pods|].id;
    }
  }

  lemma NoIds(update: Name, updated: bool)
    ensures Ids([], update, updated) == {}
  {
  }

  lemma {:induction false} CountIds(pods: seq<Pod>, update: Name, updated: bool)
    requires DistinctIds(pods)
    ensures |Group(pods, update, updated)| == |Ids(pods, update, updated)|
  {
    hide RevisionOf, Ids;
    if pods == [] {
      NoIds(update, updated);
    } else {
      var n := |pods| - 1;
      CountIds(pods[..n], update, updated);
      assert pods == pods[..n] + [pods[n]];
      IdsOneMore(pods[..n], pods[n], update, updated);
    }
  }

  lemma ClaimedIds(s: State, claimed: seq<Pod>, update: Name, updated: bool)
    requires WellKeyed(s) && Claims(s, claimed)
    ensures Ids(claimed, update, updated) == Side(s, update, updated)
  {
    forall i | i in Side(s, update, updated)
      ensures i in Ids(claimed, update, updated)
    {
      var p := s.pods[i];
      assert p in claimed;
      assert p.id == i;
    }
  }

  /** The planner counts exactly the workload's own pods. */
  lemma ClaimedCounts(s: State, claimed: seq<Pod>, update: Name)
    requires WellKeyed(s) && Claims(s, claimed)
    ensures |WithRevision(claimed, update)| == |Updated(s, update)|
    ensures |WithoutRevision(claimed, update)| == |NotUpdated(s, update)|
    ensures |claimed| == |Own(s)|
  {
    CountIds(claimed, update, true);
    CountIds(claimed, update, false);
    ClaimedIds(s, claimed, update, true);
    ClaimedIds(s, claimed, update, false);
    GroupsPartition(claimed, update);
    OwnSplits(s, update);
  }

  // ---- Counting along a log of pod calls

  predicate Accepted(e: Event) {
    e.PodCreated? || e.PodDeleted?
  }

  function Done(es: seq<Event>): nat {
    if es == [] then 0 else Done(es[..|es| - 1]) + if Accepted(es[|es| - 1]) then 1 else 0
  }

  /** How many pods with, or without, the update revision the log creates. */
  function Created(es: seq<Event>, update: Name, updated: bool): nat {
    if es == [] then 0
    else
      var e := es[|es| - 1];
      Created(es[..|es| - 1], update, updated)
      + if e.PodCreated? && EqualToRevisionHash(e.pod, update) == updated then 1 else 0
  }

  /** How many of the pods of either side that there were at the start the log deletes. */
  function Removed(es: seq<Event>, s: State, update: Name, updated: bool): nat {
    if es == [] then 0
    else
      var e := es[|es| - 1];
      Removed(es[..|es| - 1], s, update, updated)
      + if e.PodDeleted? && e.id in Side(s, update, updated) then 1 else 0
  }

  /** A call of a pass: it creates a pod of the workload's own or deletes one that there was at the start. */
  predicate PodCall(s: State, e: Event) {
    || (e.PodCreated? && Mine(s.workload.uid, s.workload.spec.selector, e.pod))
    || (e.PodDeleted? && e.id in Own(s))
    || e.PodCreateFailed? || e.PodDeleteFailed?
  }

  /** Pod calls that delete no pod twice. */
  predicate PodCalls(s: State, es: seq<Event>) {
    && (forall e <- es :: PodCall(s, e))
    && forall j, k | 0 <= j < k < |es| && es[j].PodDeleted? :: es[j] != es[k]
  }

  /** The pods there were are as they were, but for those deleted, and any others are new. */
  predicate PodsSince(s: State, t: State, es: seq<Event>) {
    && WellKeyed(t) && t.version >= s.version
    && t == s.(pods := t.pods, version := t.version)
    && (forall i <- s.pods :: i in t.pods <==> PodDeleted(i) !in es)
    && (forall i <- t.pods :: i < s.version ==> i in s.pods && t.pods[i] == s.pods[i])
  }

  lemma PodsSinceMore(s: State, t: State, es: seq<Event>, e: Event)
    requires WellKeyed(s) && PodsSince(s, t, es) && PodCall(s, e)
    ensures PodsSince(s, Next(t, e), es + [e])
  {
    hide Mine, Own;
    NextKeepsKeys(t, e);
    forall i | i in s.pods
      ensures i in Next(t, e).pods <==> PodDeleted(i) !in es + [e]
    {
      assert PodDeleted(i) in es + [e] <==> PodDeleted(i) in es || PodDeleted(i) == e;
    }
  }

  lemma PodsSinceNothing(s: State)
    requires WellKeyed(s)
    ensures PodsSince(s, s, [])
  {
  }

  /** The pods after some pod calls: the new ones, and those that were there and are not deleted. */
  lemma {:induction false} ReplayPods(s: State, es: seq<Event>)
    requires WellKeyed(s) && PodCalls(s, es)
    ensures PodsSince(s, Replay(s, es), es)
  {
    hide PodsSince, WellKeyed;
    if es == [] {
      PodsSinceNothing(s);
    } else {
      var n := |es| - 1;
      assert es == es[..n] + [es[n]] && es[n] in es;
      ReplayPods(s, es[..n]);
      PodsSinceMore(s, Replay(s, es[..n]), es[..n], es[n]);
    }
  }

  lemma OwnGrows(t: State, p: Pod, now: int)
    requires WellKeyed(t) && Mine(t.workload.uid, t.workload.spec.selector, p)
    ensures t.version !in t.pods
    ensures Own(Next(t, PodCreated(p, now))) == Own(t) + {t.version}
    ensures Own(t) <= t.pods.Keys
    ensures RevisionOf(Next(t, PodCreated(p, now)).pods[t.version]) == RevisionOf(p)
  {
    var t', id := Next(t, PodCreated(p, now)), t.version;
    assert t'.pods[id] == p.(id := id, created := now);
    forall i | i in t.pods
      ensures i in Own(t') <==> i in Own(t)
    {
    }
  }

  lemma SideGains(t: State, p: Pod, now: int, update: Name, updated: bool)
    requires WellKeyed(t) && Mine(t.workload.uid, t.workload.spec.selector, p)
    requires EqualToRevisionHash(p, update) == updated
    ensures t.version !in Side(t, update, updated)
    ensures Side(Next(t, PodCreated(p, now)), update, updated) == Side(t, update, updated) + {t.version}
  {
    hide Own, Mine, WellKeyed, RevisionOf;
    OwnGrows(t, p, now);
  }

  lemma SideStays(t: State, p: Pod, now: int, update: Name, updated: bool)
    requires WellKeyed(t) && Mine(t.workload.uid, t.workload.spec.selector, p)
    requires EqualToRevisionHash(p, update) != updated
    ensures Side(Next(t, PodCreated(p, now)), update, updated) == Side(t, update, updated)
  {
    hide Own, Mine, WellKeyed, RevisionOf;
    OwnGrows(t, p, now);
  }

  lemma OwnLoses(t: State, t': State, id: PodId)
    requires t'.pods == t.pods - {id}
    requires t'.workload.uid == t.workload.uid && t'.workload.spec.selector == t.workload.spec.selector
    ensures Own(t') == Own(t) - {id}
  {
    hide Mine;
  }

  /** A pod that goes takes one from its side at most. */
  lemma SideLoses(t: State, t': State, id: PodId, update: Name, updated: bool)
    requires t'.pods == t.pods - {id}
    requires t'.workload.uid == t.workload.uid && t'.workload.spec.selector == t.workload.spec.selector
    ensures |Side(t', update, updated)| + (if id in Side(t, update, updated) then 1 else 0) == |Side(t, update, updated)|
  {
    hide Mine, RevisionOf;
    OwnLoses(t, t', id);
    assert Side(t', update, updated) == Side(t, update, updated) - {id};
  }

  lemma SideMoves(s: State, t: State, e: Event, update: Name, updated: bool)
    requires WellKeyed(t) && t == s.(pods := t.pods, version := t.version)
    requires PodCall(s, e)
    requires e.PodDeleted? ==> e.id in s.pods && e.id in t.pods && t.pods[e.id] == s.pods[e.id]
    ensures |Side(Next(t, e), update, updated)|
              + (if e.PodDeleted? && e.id in Side(s, update, updated) then 1 else 0)
            == |Side(t, update, updated)|
               + if e.PodCreated? && EqualToRevisionHash(e.pod, update) == updated then 1 else 0
  {
    match e {
      case PodCreated(p, now) =>
        if EqualToRevisionHash(p, update) == updated {
          SideGains(t, p, now, update, updated);
        } else {
          SideStays(t, p, now, update, updated);
        }
      case PodDeleted(id) =>
        SideLoses(t, Next(t, e), id, update, updated);
        assert id in Side(t, update, updated) <==> id in Side(s, update, updated);
      case _ =>
    }
  }

  /** Every accepted call moves one side of the pods by one. */
  lemma {:induction false} ReplayCounts(s: State, es: seq<Event>, update: Name, updated: bool)
    requires WellKeyed(s) && PodCalls(s, es)
    ensures |Side(Replay(s, es), update, updated)| + Removed(es, s, update, updated)
            == |Side(s, update, updated)| + Created(es, update, updated)
  {
    if es != [] {
      var n := |es| - 1;
      var e, t0 := es[n], Replay(s, es[..n]);
      assert es == es[..n] + [e];
      ReplayPods(s, es[..n]);
      ReplayCounts(s, es[..n], update, updated);
      SideMoves(s, t0, e, update, updated);
    }
  }

  lemma {:induction false} DoneSplits(s: State, es: seq<Event>, update: Name)
    requires forall e <- es :: PodCall(s, e)
    ensures Done(es) == Created(es, update, true) + Created(es, update, false)
                        + Removed(es, s, update, true) + Removed(es, s, update, false)
  {
    if es != [] {
      assert es == es[..|es| - 1] + [es[|es| - 1]] && PodCall(s, es[|es| - 1]);
      DoneSplits(s, es[..|es| - 1], update);
    }
  }

  // ---- The calls of one pass

  /** What a pass works towards: the spec, the two revisions, and the pods it makes of either. */
  datatype Goal = Goal(pw: Spec, current: Name, update: Name, currentPod: Pod, updatedPod: Pod)

  /** A pass over the pods of a state, all of them listed, that makes pods the workload will own. */
  predicate PassFrom(g: Goal, s: State, claimed: seq<Pod>, t: Pass) {
    && WellKeyed(s) && Claims(s, claimed)
    && g.pw.replicas.Some?
    && RevisionOf(g.currentPod) == g.current && Mine(s.workload.uid, s.workload.spec.selector, g.currentPod)
    && RevisionOf(g.updatedPod) == g.update && Mine(s.workload.uid, s.workload.spec.selector, g.updatedPod)
    && IsPass(g.pw, claimed, g.current, g.update, g.currentPod, g.updatedPod, t)
  }

  lemma KeyedPass(g: Goal, s: State, claimed: seq<Pod>, t: Pass)
    requires PassFrom(g, s, claimed, t)
    ensures WellKeyed(s)
  {
  }

  function Calls(t: Pass): seq<Event> {
    t.creates + t.deletes
  }

  /** The state a number of calls into the pass. */
  function At(s: State, t: Pass, k: nat): State
    requires k <= |Calls(t)|
  {
    Replay(s, Calls(t)[..k])
  }

  lemma VictimsOfSide(s: State, claimed: seq<Pod>, update: Name, updated: bool, victims: seq<Pod>)
    requires Claims(s, claimed) && forall v <- victims :: v in Group(claimed, update, updated)
    ensures forall v <- victims :: v.id in Side(s, update, updated) && s.pods[v.id] == v
  {
  }

  /** What a pass picks for deletion, whether or not it gets that far. */
  lemma PassPicks(g: Goal, s: State, claimed: seq<Pod>, t: Pass)
    requires PassFrom(g, s, claimed, t)
    ensures forall v <- t.updatedVictims :: v in WithRevision(claimed, g.update)
    ensures forall v <- t.otherVictims :: v in WithoutRevision(claimed, g.update)
    ensures DistinctIds(WithRevision(claimed, g.update)) ==> DistinctIds(t.updatedVictims)
    ensures DistinctIds(WithoutRevision(claimed, g.update)) ==> DistinctIds(t.otherVictims)
    ensures DeletesAs(t.updatedVictims + t.otherVictims, t.deletes)
    ensures t.deletes != [] ==> AllCreated(t.creates)
    ensures |t.updatedVictims| <= t.diffs.scaleDownNum && |t.otherVictims| <= t.diffs.scaleDownNumOldRevision
  {
    hide IsPlan, CreatesAs, Mine, WellKeyed, Claims, WithRevision, WithoutRevision;
  }

  /** The pods a pass deletes are different pods, those of the updated group first. */
  lemma PassVictims(g: Goal, s: State, claimed: seq<Pod>, t: Pass)
    requires PassFrom(g, s, claimed, t)
    ensures DistinctIds(t.updatedVictims + t.otherVictims)
    ensures forall v <- t.updatedVictims :: v.id in Updated(s, g.update) && s.pods[v.id] == v
    ensures forall v <- t.otherVictims :: v.id in NotUpdated(s, g.update) && s.pods[v.id] == v
  {
    hide IsPass, DeletesAs, Mine, WellKeyed, WithRevision, WithoutRevision;
    PassPicks(g, s, claimed, t);
    GroupsDistinct(claimed, g.update);
    VictimsOfSide(s, claimed, g.update, true, t.updatedVictims);
    VictimsOfSide(s, claimed, g.update, false, t.otherVictims);
  }

  lemma CreatesArePodCalls(g: Goal, s: State, claimed: seq<Pod>, t: Pass)
    requires PassFrom(g, s, claimed, t)
    ensures forall e <- t.creates :: PodCall(s, e) && !e.PodDeleted?
  {
    hide IsPlan, Mine, WellKeyed, Claims, DeletesAs, Oldest;
    var planned := Planned(g.currentPod, g.updatedPod, t.diffs);
    forall i | 0 <= i < |t.creates|
      ensures PodCall(s, t.creates[i]) && !t.creates[i].PodDeleted?
    {
      assert Attempts(t.creates[i], planned[i], t.creates[i].PodCreated?);
    }
  }

  lemma DeletesArePodCalls(s: State, victims: seq<Pod>, deletes: seq<Event>)
    requires DeletesAs(victims, deletes) && DistinctIds(victims)
    requires forall v <- victims :: v.id in Own(s)
    ensures PodCalls(s, deletes)
  {
    hide Own;
    forall i | 0 <= i < |deletes|
      ensures PodCall(s, deletes[i])
    {
      assert Deletes(deletes[i], victims[i]) && victims[i] in victims;
    }
    forall i, j | 0 <= i < j < |deletes| && deletes[i].PodDeleted?
      ensures deletes[i] != deletes[j]
    {
      assert Deletes(deletes[i], victims[i]) && Deletes(deletes[j], victims[j]);
    }
  }

  lemma CreatesThenDeletes(s: State, creates: seq<Event>, deletes: seq<Event>)
    requires PodCalls(s, deletes) && forall e <- creates :: PodCall(s, e) && !e.PodDeleted?
    ensures PodCalls(s, creates + deletes)
  {
    hide PodCall;
    var es := creates + deletes;
    forall i | 0 <= i < |creates|
      ensures !creates[i].PodDeleted?
    {
      assert creates[i] in creates;
    }
    forall j, k | 0 <= j < k < |es| && es[j].PodDeleted?
      ensures es[j] != es[k]
    {
      assert es[j] == deletes[j - |creates|] && es[k] == deletes[k - |creates|];
    }
  }

  lemma PassIsPodCalls(g: Goal, s: State, claimed: seq<Pod>, t: Pass)
    requires PassFrom(g, s, claimed, t)
    ensures PodCalls(s, Calls(t))
  {
    hide IsPass, DeletesAs, WellKeyed, Claims, PodCall, PodCalls;
    PassPicks(g, s, claimed, t);
    PassVictims(g, s, claimed, t);
    CreatesArePodCalls(g, s, claimed, t);
    DeletesArePodCalls(s, t.updatedVictims + t.otherVictims, t.deletes);
    CreatesThenDeletes(s, t.creates, t.deletes);
  }

  lemma {:induction false} TallyConcat(a: seq<Event>, b: seq<Event>, s: State, update: Name, updated: bool)
    ensures Created(a + b, update, updated) == Created(a, update, updated) + Created(b, update, updated)
    ensures Removed(a + b, s, update, updated) == Removed(a, s, update, updated) + Removed(b, s, update, updated)
  {
    if b == [] {
      assert a + b == a;
    } else {
      assert (a + b)[..|a + b| - 1] == a + b[..|b| - 1];
      TallyConcat(a, b[..|b| - 1], s, update, updated);
    }
  }

  /** Creations make first the planned pods of the current revision and then those of the update revision. */
  lemma {:induction false} CreatesTally(g: Goal, s: State, d: Diffs, creates: seq<Event>, k: nat)
    requires k <= |creates| <= |Planned(g.currentPod, g.updatedPod, d)|
    requires forall i | 0 <= i < |creates| ::
               Attempts(creates[i], Planned(g.currentPod, g.updatedPod, d)[i], creates[i].PodCreated?)
    requires RevisionOf(g.updatedPod) == g.update
    requires RevisionOf(g.currentPod) != g.update || d.scaleUpNumOldRevision == 0
    ensures var others, own := Created(creates[..k], g.update, false), Created(creates[..k], g.update, true);
            && others <= Min(k, d.scaleUpNumOldRevision) && own <= Max(0, k - d.scaleUpNumOldRevision)
            && (AllCreated(creates) ==>
                  others == Min(k, d.scaleUpNumOldRevision) && own == Max(0, k - d.scaleUpNumOldRevision))
            && Removed(creates[..k], s, g.update, true) == Removed(creates[..k], s, g.update, false) == 0
  {
    if k > 0 {
      assert creates[..k][..k - 1] == creates[..k - 1];
      CreatesTally(g, s, d, creates, k - 1);
      assert Attempts(creates[k - 1], Planned(g.currentPod, g.updatedPod, d)[k - 1], creates[k - 1].PodCreated?);
    }
  }

  /** On which side each deletion counts. */
  lemma DeleteTallies(s: State, update: Name, ups: seq<Pod>, rest: seq<Pod>, deletes: seq<Event>, i: nat)
    requires i < |deletes| && DeletesAs(ups + rest, deletes)
    requires forall v <- ups :: v.id in Updated(s, update)
    requires forall v <- rest :: v.id in NotUpdated(s, update)
    ensures deletes[i].PodDeleted? || deletes[i].PodDeleteFailed?
    ensures deletes[i].PodDeleted? ==> (deletes[i].id in Side(s, update, true) <==> i < |ups|)
    ensures deletes[i].PodDeleted? ==> (deletes[i].id in Side(s, update, false) <==> i >= |ups|)
  {
    hide Own;
    assert Deletes(deletes[i], (ups + rest)[i]);
    if i < |ups| {
      assert (ups + rest)[i] in ups;
    } else {
      assert (ups + rest)[i] == rest[i - |ups|];
    }
  }

  /** Deletions take first pods of the updated side and then pods of the other. */
  lemma {:induction false} DeletesTally(s: State, update: Name, ups: seq<Pod>, rest: seq<Pod>, deletes: seq<Event>, k: nat)
    requires k <= |deletes| && DeletesAs(ups + rest, deletes)
    requires forall v <- ups :: v.id in Updated(s, update)
    requires forall v <- rest :: v.id in NotUpdated(s, update)
    ensures var others, own := Removed(deletes[..k], s, update, false), Removed(deletes[..k], s, update, true);
            && own <= Min(k, |ups|) && others <= Max(0, k - |ups|)
            && ((forall e <- deletes :: e.PodDeleted?) ==> own == Min(k, |ups|) && others == Max(0, k - |ups|))
            && Created(deletes[..k], update, true) == Created(deletes[..k], update, false) == 0
  {
    hide Side, DeletesAs;
    if k > 0 {
      assert deletes[..k][..k - 1] == deletes[..k - 1];
      DeletesTally(s, update, ups, rest, deletes, k - 1);
      DeleteTallies(s, update, ups, rest, deletes, k - 1);
    }
  }

  lemma PrefixPodCalls(s: State, es: seq<Event>, k: nat)
    requires PodCalls(s, es) && k <= |es|
    ensures PodCalls(s, es[..k])
  {
    assert forall e <- es[..k] :: e in es;
  }

  lemma CountCalls(g: Goal, s: State, claimed: seq<Pod>, t: Pass, k: nat)
    requires PassFrom(g, s, claimed, t) && k <= |Calls(t)|
    ensures var es := Calls(t)[..k];
            && |Updated(At(s, t, k), g.update)| + Removed(es, s, g.update, true)
               == |Updated(s, g.update)| + Created(es, g.update, true)
            && |NotUpdated(At(s, t, k), g.update)| + Removed(es, s, g.update, false)
               == |NotUpdated(s, g.update)| + Created(es, g.update, false)
            && Done(es) == Created(es, g.update, true) + Created(es, g.update, false)
                           + Removed(es, s, g.update, true) + Removed(es, s, g.update, false)
  {
    hide IsPass, Side, WellKeyed, Claims, PodCall;
    PassIsPodCalls(g, s, claimed, t);
    PrefixPodCalls(s, Calls(t), k);
    ReplayCounts(s, Calls(t)[..k], g.update, true);
    ReplayCounts(s, Calls(t)[..k], g.update, false);
    DoneSplits(s, Calls(t)[..k], g.update);
  }

  /** A slow start in which nothing fails makes all its calls. */
  lemma AllOutcomes(creates: seq<Event>)
    ensures AllCreated(creates) ==> FirstFailure(Outcomes(creates)) == |creates|
  {
    if AllCreated(creates) {
      forall i | 0 <= i < |creates|
        ensures Outcomes(creates)[i]
      {
        assert creates[i] in creates;
      }
    }
  }

  lemma TallyCreates(g: Goal, s: State, claimed: seq<Pod>, t: Pass, i: nat)
    requires PassFrom(g, s, claimed, t) && i <= |t.creates|
    ensures var es := t.creates[..i];
            && Created(es, g.update, false) <= t.diffs.scaleUpNumOldRevision
            && Created(es, g.update, true) <= t.diffs.scaleUpNum
            && (AllCreated(t.creates) && i == |t.creates| ==>
                  && Created(es, g.update, false) == t.diffs.scaleUpNumOldRevision
                  && Created(es, g.update, true) == t.diffs.scaleUpNum)
            && Removed(es, s, g.update, true) == Removed(es, s, g.update, false) == 0
  {
    hide WellKeyed, Claims, Oldest, DeletesAs, WithRevision, WithoutRevision, Mine;
    CreatesTally(g, s, t.diffs, t.creates, i);
    AllOutcomes(t.creates);
  }

  lemma TallyDeletes(g: Goal, s: State, claimed: seq<Pod>, t: Pass, j: nat)
    requires PassFrom(g, s, claimed, t) && j <= |t.deletes|
    ensures var es := t.deletes[..j];
            && Removed(es, s, g.update, true) <= t.diffs.scaleDownNum
            && Removed(es, s, g.update, false) <= t.diffs.scaleDownNumOldRevision
            && (j > 0 ==> AllCreated(t.creates))
            && (Succeeds(claimed, g.update, t) && j == |t.deletes| ==>
                  && Removed(es, s, g.update, true) == t.diffs.scaleDownNum
                  && Removed(es, s, g.update, false) == t.diffs.scaleDownNumOldRevision)
            && Created(es, g.update, true) == Created(es, g.update, false) == 0
  {
    hide WellKeyed, Claims, Oldest, WithRevision, WithoutRevision, Mine, CreatesAs, IsPlan, Side;
    PassPicks(g, s, claimed, t);
    PassVictims(g, s, claimed, t);
    DeletesTally(s, g.update, t.updatedVictims, t.otherVictims, t.deletes, j);
    if Succeeds(claimed, g.update, t) && t.deletes != [] {
      assert t.deletes[|t.deletes| - 1] in t.deletes;
    }
  }

  /** What k calls of a pass create and delete on either side: at most what was planned, deletions only after all
      creations, and exactly what was planned at the end of a full success. */
  lemma PassTallies(g: Goal, s: State, claimed: seq<Pod>, t: Pass, k: nat)
    requires PassFrom(g, s, claimed, t) && k <= |Calls(t)|
    ensures var es := Calls(t)[..k];
            var newUps, newOthers := Created(es, g.update, true), Created(es, g.update, false);
            var goneUps, goneOthers := Removed(es, s, g.update, true), Removed(es, s, g.update, false);
            && newUps <= t.diffs.scaleUpNum && newOthers <= t.diffs.scaleUpNumOldRevision
            && goneUps <= t.diffs.scaleDownNum && goneOthers <= t.diffs.scaleDownNumOldRevision
            && (goneUps + goneOthers > 0 ==>
                  newUps == t.diffs.scaleUpNum && newOthers == t.diffs.scaleUpNumOldRevision)
            && (k == |Calls(t)| && Succeeds(claimed, g.update, t) ==>
                  && newUps == t.diffs.scaleUpNum && newOthers == t.diffs.scaleUpNumOldRevision
                  && goneUps == t.diffs.scaleDownNum && goneOthers == t.diffs.scaleDownNumOldRevision)
  {
    hide IsPass, PassFrom, PodCalls, Side, Oldest, DeletesAs, Mine, WellKeyed, Claims, CreatesAs;
    var i, j := Min(k, |t.creates|), Max(0, k - |t.creates|);
    assert Calls(t)[..k] == t.creates[..i] + t.deletes[..j];
    TallyConcat(t.creates[..i], t.deletes[..j], s, g.update, true);
    TallyConcat(t.creates[..i], t.deletes[..j], s, g.update, false);
    TallyCreates(g, s, claimed, t, i);
    TallyDeletes(g, s, claimed, t, j);
  }

  /** How far either side of the pods has moved after k calls of a pass: by at most what was planned,
      deletions only after all creations, and by exactly what was planned at the end of a full success. */
  lemma PassCounts(g: Goal, s: State, claimed: seq<Pod>, t: Pass, k: nat)
      returns (newUps: nat, newOthers: nat, goneUps: nat, goneOthers: nat)
    requires PassFrom(g, s, claimed, t) && k <= |Calls(t)|
    ensures |Updated(At(s, t, k), g.update)| == |Updated(s, g.update)| + newUps - goneUps
    ensures |NotUpdated(At(s, t, k), g.update)| == |NotUpdated(s, g.update)| + newOthers - goneOthers
    ensures newUps <= t.diffs.scaleUpNum && newOthers <= t.diffs.scaleUpNumOldRevision
    ensures goneUps <= t.diffs.scaleDownNum && goneOthers <= t.diffs.scaleDownNumOldRevision
    ensures goneUps + goneOthers > 0 ==>
              newUps == t.diffs.scaleUpNum && newOthers == t.diffs.scaleUpNumOldRevision
    ensures k == |Calls(t)| && Succeeds(claimed, g.update, t) ==>
              && newUps == t.diffs.scaleUpNum && newOthers == t.diffs.scaleUpNumOldRevision
              && goneUps == t.diffs.scaleDownNum && goneOthers == t.diffs.scaleDownNumOldRevision
    ensures newUps + newOthers + goneUps + goneOthers == Done(Calls(t)[..k])
  {
    hide IsPass, PassFrom, PodCalls, Side, Succeeds, Created, Removed, Done;
    var es := Calls(t)[..k];
    CountCalls(g, s, claimed, t, k);
    PassTallies(g, s, claimed, t, k);
    newUps, newOthers := Created(es, g.update, true), Created(es, g.update, false);
    goneUps, goneOthers := Removed(es, s, g.update, true), Removed(es, s, g.update, false);
  }
}
