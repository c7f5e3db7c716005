/** Undisturbed passes come to rest: the pods after the first, the status after the second, the revisions after
    the third, and from then on nothing is written. */
module Convergence {
  import opened Objects
  import opened Snapshot
  import opened Cluster
  import opened Planner
  import opened Rollout
  import opened Guarantees
  import opened Availability
  import opened Ownership
  import opened Reporting
  import opened Protocol
  import opened Activation
  import opened Truncation
  import opened Sweeps

  /** A pod as it is after claiming: dealt with, if it is active. */
  function AfterClaiming(o: Owner, p: Pod): Pod {
    if p.terminating then p else Settled(o, p)
  }

  lemma OwnersWritten(t: State, id: PodId, owners: seq<OwnerRef>)
    requires id in t.pods
    ensures Next(t, PodOwned(id, owners)).pods == t.pods[id := t.pods[id].(owners := owners)]
  {
  }

  lemma SettlementsOneMore(o: Owner, pods: seq<Pod>, p: Pod)
    ensures Settlements(o, pods + [p])
            == Settlements(o, pods) + if NeedsWrite(o, p) then [PodOwned(p.id, Settled(o, p).owners)] else []
  {
    hide NeedsWrite, Settled;
    assert (pods + [p])[..|pods|] == pods;
  }

  lemma UnneededKeeps(o: Owner, p: Pod)
    requires !NeedsWrite(o, p)
    ensures Settled(o, p) == p
  {
  }

  lemma ClaimingOneMore(s: State, o: Owner, pods: seq<Pod>, p: Pod)
    requires var t := Replay(s, Settlements(o, pods)); p.id in t.pods && t.pods[p.id] == p
    ensures Replay(s, Settlements(o, pods + [p])).pods
            == Replay(s, Settlements(o, pods)).pods[p.id := Settled(o, p)]
  {
    hide Settled, NeedsWrite, Replay, Next, Settlements;
    var before := Settlements(o, pods);
    var t := Replay(s, before);
    SettlementsOneMore(o, pods, p);
    ClaimedIsOwned(o, p);
    if NeedsWrite(o, p) {
      ReplayOne(s, before, PodOwned(p.id, Settled(o, p).owners));
      OwnersWritten(t, p.id, Settled(o, p).owners);
    } else {
      UnneededKeeps(o, p);
      assert before + [] == before;
      assert t.pods[p.id := p] == t.pods;
    }
  }

  lemma NothingToSettle(s: State, o: Owner)
    ensures Replay(s, Settlements(o, [])) == s
  {
  }

  /** Claiming deals with every active pod once. */
  lemma {:induction false} ClaimingSettles(s: State, o: Owner, pods: seq<Pod>)
    requires DistinctIds(pods) && forall p <- pods :: p.id in s.pods && s.pods[p.id] == p
    ensures var t := Replay(s, Settlements(o, pods));
            && t.pods.Keys == s.pods.Keys
            && (forall p <- pods :: t.pods[p.id] == Settled(o, p))
            && (forall i <- s.pods :: (forall p <- pods :: p.id != i) ==> t.pods[i] == s.pods[i])
  {
    hide Settled, NeedsWrite, Replay, Settlements;
    if pods == [] {
      NothingToSettle(s, o);
    } else {
      var n := |pods| - 1;
      var last := pods[n];
      assert pods == pods[..n] + [last];
      ClaimingSettles(s, o, pods[..n]);
      assert forall p <- pods[..n] :: p.id != last.id;
      ClaimingOneMore(s, o, pods[..n], last);
    }
  }

  /** The pods after claiming, whatever the order of the list. */
  lemma SettledPods(s: State, x: Sweep)
    requires WellKeyed(s) && SweepClaims(s, x)
    ensures x.settled == s.(pods := x.settled.pods, version := x.settled.version)
    ensures x.settled.pods.Keys == s.pods.Keys
    ensures forall i <- s.pods :: x.settled.pods[i] == AfterClaiming(OwnerOf(s.workload), s.pods[i])
  {
    hide Settled, Kept, Settlements, Replay;
    var o := OwnerOf(s.workload);
    ClaimingSettles(s, o, x.active);
    SettlementsAreWrites(o, x.active);
    OwningKeepsIds(s, Settlements(o, x.active));
    forall i | i in s.pods
      ensures x.settled.pods[i] == AfterClaiming(o, s.pods[i])
    {
      if s.pods[i].terminating {
        assert forall p <- x.active :: p.id != i;
      } else {
        assert s.pods[i] in x.active;
      }
    }
  }

  lemma ClaimedIsMine(o: Owner, p: Pod)
    requires IsClaimed(o, p) && !p.terminating
    ensures Mine(o.uid, o.selector, Settled(o, p)) && Settled(o, p).id == p.id
  {
    ClaimedIsOwned(o, p);
  }

  lemma MineIsClaimed(o: Owner, p: Pod)
    requires Mine(o.uid, o.selector, AfterClaiming(o, p))
    ensures IsClaimed(o, p) && !p.terminating && AfterClaiming(o, p) == Settled(o, p)
  {
    hide Matches, Released, Adopted;
  }

  /** What is claimed is the workload's own once claiming is done. */
  lemma ClaimedAreOwn(s: State, x: Sweep)
    requires WellKeyed(s) && SweepClaims(s, x)
    ensures Claims(x.settled, x.claimed)
  {
    hide Settled, Kept, Settlements, Replay, IsClaimed, Mine;
    var o := OwnerOf(s.workload);
    SettledPods(s, x);
    KeptExactly(o, x.active);
    KeptDistinct(o, x.active);
    forall q | q in x.claimed
      ensures q.id in Own(x.settled) && x.settled.pods[q.id] == q
    {
      var p :| p in x.active && IsClaimed(o, p) && q == Settled(o, p);
      ClaimedIsMine(o, p);
    }
    forall i | i in Own(x.settled)
      ensures x.settled.pods[i] in x.claimed
    {
      var p := s.pods[i];
      MineIsClaimed(o, p);
      assert p in x.active;
    }
  }

  // ---- One sweep

  /** A workload at rest from the outside: not being deleted, with a sound history and a template that fits. */
  predicate Base(s: State) {
    && WellKeyed(s) && Sound(s.workload.uid, s.workload.spec.selector, s.revisions)
    && Fits(s.workload.spec.selector, s.workload.spec.template.labels) && s.workload.spec.replicas.Some?
    && !s.workload.deleting
  }

  /** If the pod has to be released, once is enough: its first reference to the owner is its only controller's. */
  predicate ReleasedAtOnce(o: Owner, p: Pod) {
    !p.terminating && Judge(o, p).Release? ==> OneController(p.owners) && FirstRefControls(p.owners, o.uid)
  }

  predicate WellOwned(s: State) {
    forall i <- s.pods :: ReleasedAtOnce(OwnerOf(s.workload), s.pods[i])
  }

  /** No active pod has to be adopted or released. */
  predicate Dealt(s: State) {
    forall i <- s.pods :: !s.pods[i].terminating ==> !NeedsWrite(OwnerOf(s.workload), s.pods[i])
  }

  function GoalOf(w: Workload, x: Sweep): Goal {
    Goal(w.spec, x.current.name, x.update.name, Made(w.uid, x.current), Made(w.uid, x.update))
  }

  lemma SoundActivated(w: Workload, before: map<Name, Revision>, after: map<Name, Revision>, update: Revision)
    requires Activated(w, before, after, update, false) && Sound(w.uid, w.spec.selector, before)
    requires Fits(w.spec.selector, w.spec.template.labels)
    ensures Sound(w.uid, w.spec.selector, after)
  {
    hide Data, Restored, Fits;
    RestoredData(w.spec.template);
    assert IsSnapshot(w.spec.selector, Data(w.spec.template));
    if after != before {
      forall n | n in after
        ensures n != "" && after[n].owner == Some(w.uid) && IsSnapshot(w.spec.selector, after[n].data)
      {
      }
    }
  }

  /** Both revisions of a sweep are stored, from their activation to the end of the sweep. */
  lemma RevisionsInPlay(s: State, x: Sweep, end: State)
    requires Base(s) && IsSweep(s, x, end)
    ensures x.settled.revisions == s.revisions
    ensures Sound(s.workload.uid, s.workload.spec.selector, x.activated.revisions)
    ensures x.update.name in x.activated.revisions && x.update.data == Data(s.workload.spec.template)
    ensures x.activated.revisions[x.update.name].data == x.update.data && IsTop(x.activated.revisions, x.update.name)
    ensures x.current.name in x.activated.revisions && x.activated.revisions[x.current.name].data == x.current.data
    ensures s.workload.status.current in s.revisions ==> x.current == s.revisions[s.workload.status.current]
  {
    hide Data, IsTop, ListsSorted, IsSnapshot, RollsOut, IsNew, Fits, SweepClaims;
    SettledPods(s, x);
    SoundActivated(s.workload, s.revisions, x.activated.revisions, x.update);
  }

  lemma ClaimsCarry(s: State, t: State, claimed: seq<Pod>)
    requires Claims(s, claimed) && t.pods == s.pods && t.workload == s.workload
    ensures Claims(t, claimed) && Own(t) == Own(s)
  {
  }

  lemma StoredFits(uid: Uid, selector: Labels, store: map<Name, Revision>, r: Revision)
    requires Sound(uid, selector, store) && r.name in store && store[r.name].data == r.data
    ensures Fits(selector, Restored(r.data).labels)
  {
    assert IsSnapshot(selector, store[r.name].data);
  }

  /** A sweep's pass is one from the pods that are the workload's own, towards pods it will own. */
  lemma SweepPass(s: State, x: Sweep, end: State)
    requires Base(s) && IsSweep(s, x, end)
    ensures PassFrom(GoalOf(s.workload, x), x.activated, x.claimed, x.pass)
    ensures x.activated == s.(pods := x.settled.pods, revisions := x.activated.revisions, version := x.activated.version)
  {
    hide Data, IsTop, ListsSorted, Activated, Fits, Made, IsPass, Sound, SweepClaims, Claims, Mine, RevisionOf;
    RevisionsInPlay(s, x, end);
    SettledPods(s, x);
    ClaimedAreOwn(s, x);
    ClaimsCarry(x.settled, x.activated, x.claimed);
    var uid, selector := s.workload.uid, s.workload.spec.selector;
    StoredFits(uid, selector, x.activated.revisions, x.current);
    StoredFits(uid, selector, x.activated.revisions, x.update);
    MadePod(uid, selector, x.current, Made(uid, x.current));
    MadePod(uid, selector, x.update, Made(uid, x.update));
  }

  /** Pod calls leave the pods there were, or pods of the workload's own. */
  lemma {:induction false} RolledPods(s: State, es: seq<Event>)
    requires PodCalls(s, es)
    ensures forall i <- Replay(s, es).pods ::
              || (i in s.pods && Replay(s, es).pods[i] == s.pods[i])
              || Mine(s.workload.uid, s.workload.spec.selector, Replay(s, es).pods[i])
  {
    hide Matches;
    if es != [] {
      var n := |es| - 1;
      assert es[n] in es && PodCall(s, es[n]);
      PrefixPodCalls(s, es, n);
      RolledPods(s, es[..n]);
    }
  }

  lemma RollingKeepsRest(s: State, x: Sweep, end: State)
    requires Base(s) && IsSweep(s, x, end)
    ensures x.rolled == x.activated.(pods := x.rolled.pods, version := x.rolled.version)
    ensures forall i <- x.rolled.pods ::
              || (i in x.activated.pods && x.rolled.pods[i] == x.activated.pods[i])
              || Mine(s.workload.uid, s.workload.spec.selector, x.rolled.pods[i])
  {
    hide PassFrom, SweepClaims, SweepActivates, PodCall, Mine, Succeeds, Feasible, PassOf, Reports, Surplus;
    SweepPass(s, x, end);
    PassIsPodCalls(GoalOf(s.workload, x), x.activated, x.claimed, x.pass);
    KeyedPass(GoalOf(s.workload, x), x.activated, x.claimed, x.pass);
    ReplayPods(x.activated, Calls(x.pass));
    RolledPods(x.activated, Calls(x.pass));
  }

  lemma ReportLeaves(s: State, rolled: State, status: Status, reported: State, end: State)
    requires rolled.workload == s.workload && OnlyRevisionsDiffer(reported, end)
    requires reported == if InconsistentStatus(s.workload.status, status) then Next(rolled, StatusWritten(status)) else rolled
    ensures end.pods == rolled.pods && reported.revisions == rolled.revisions
    ensures end.workload == s.workload.(status := Reported(s.workload.status, status), rv := end.workload.rv)
    ensures !InconsistentStatus(s.workload.status, status) ==> end.workload == s.workload
  {
    hide InconsistentStatus;
  }

  lemma SweepReportsAndTruncates(s: State, x: Sweep, end: State)
    requires IsSweep(s, x, end)
    ensures x.reported == if InconsistentStatus(s.workload.status, x.status) then Next(x.rolled, StatusWritten(x.status))
                          else x.rolled
    ensures OnlyRevisionsDiffer(x.reported, end) && WellKeyed(end)
    ensures end.revisions
            == x.reported.revisions - NamesOf(Surplus(x.revisions, x.claimed, x.current.name, x.update.name))
  {
    hide SweepClaims, SweepActivates, PassOf, Succeeds, Feasible, Reports, Surplus, InconsistentStatus, Replay, WellKeyed,
      AllCreated, NamesOf;
  }

  /** What a sweep leaves: the pods as they were rolled, the status as it was reported, and the revisions in play. */
  lemma SweepLeaves(s: State, x: Sweep, end: State)
    requires Base(s) && IsSweep(s, x, end)
    ensures end.pods == x.rolled.pods
    ensures end.workload == s.workload.(status := Reported(s.workload.status, x.status), rv := end.workload.rv)
    ensures !InconsistentStatus(s.workload.status, x.status) ==> end.workload == s.workload
    ensures end.revisions == x.activated.revisions - NamesOf(Surplus(x.revisions, x.claimed, x.current.name, x.update.name))
    ensures Base(end)
  {
    hide IsSweep, Surplus, InconsistentStatus, Sound, Fits, IsTop, NamesOf, WellKeyed, Mine, Data, Reported,
      OnlyRevisionsDiffer, PassFrom;
    RevisionsInPlay(s, x, end);
    SweepPass(s, x, end);
    RollingKeepsRest(s, x, end);
    SweepReportsAndTruncates(s, x, end);
    ReportLeaves(s, x.rolled, x.status, x.reported, end);
    SoundRemains(s.workload.uid, s.workload.spec.selector, x.activated.revisions,
                 NamesOf(Surplus(x.revisions, x.claimed, x.current.name, x.update.name)));
  }

  lemma LiveSpared(revisions: seq<Revision>, pods: seq<Pod>, current: Name, update: Name)
    ensures current !in NamesOf(Surplus(revisions, pods, current, update))
    ensures update !in NamesOf(Surplus(revisions, pods, current, update))
  {
    forall v | v in Surplus(revisions, pods, current, update)
      ensures v.name != current && v.name != update
    {
      assert v in NonLive(revisions, pods, current, update);
    }
  }

  /** The next sweep finds the same update revision on top, and one of the two revisions in play as the current one. */
  lemma SweepHandsOver(s: State, x: Sweep, end: State)
    requires Base(s) && IsSweep(s, x, end)
    ensures IsTop(end.revisions, x.update.name) && ReusesTop(end.workload, end.revisions, x.update.name)
    ensures end.workload.status.current in end.revisions
    ensures end.workload.status.current == x.status.current
    ensures x.status.current == if FullyRolledOut(s.workload.spec, x.update.name, x.claimed) then x.update.name
                                else x.current.name
  {
    hide SweepClaims, SweepActivates, PassOf, Succeeds, Feasible, Surplus, Sound, Fits, NamesOf, FullyRolledOut,
      Data, Replay;
    RevisionsInPlay(s, x, end);
    SweepLeaves(s, x, end);
    LiveSpared(x.revisions, x.claimed, x.current.name, x.update.name);
    ReportedAgrees(s.workload.status, x.status);
  }

  lemma MineIsKept(o: Owner, p: Pod)
    requires Mine(o.uid, o.selector, p)
    ensures !NeedsWrite(o, p)
  {
  }

  lemma DealtOnce(o: Owner, p: Pod)
    requires ReleasedAtOnce(o, p)
    ensures AfterClaiming(o, p).terminating || !NeedsWrite(o, AfterClaiming(o, p))
  {
    hide OneController, FirstRefControls, Released, Adopted;
    ClaimedIsOwned(o, p);
    if !p.terminating && Judge(o, p).Release? {
      SecondLookIff(o, p);
    }
  }

  /** After a first sweep nothing has to be adopted or released. */
  lemma SweepDeals(s: State, x: Sweep, end: State)
    requires Base(s) && WellOwned(s) && IsSweep(s, x, end)
    ensures Dealt(end)
  {
    hide SweepClaims, SweepActivates, RollsOut, Mine, NeedsWrite, OneController, FirstRefControls, Sound, Fits, Settled;
    SettledPods(s, x);
    RollingKeepsRest(s, x, end);
    SweepPass(s, x, end);
    SweepLeaves(s, x, end);
    var o := OwnerOf(s.workload);
    assert OwnerOf(end.workload) == o;
    forall i | i in end.pods && !end.pods[i].terminating
      ensures !NeedsWrite(o, end.pods[i])
    {
      if Mine(s.workload.uid, s.workload.spec.selector, end.pods[i]) {
        MineIsKept(o, end.pods[i]);
      } else {
        DealtOnce(o, s.pods[i]);
      }
    }
  }

  lemma NotOrphaned(o: Owner, p: Pod)
    requires !o.deleting
    ensures !IsOrphan(o.selector, AfterClaiming(o, p))
  {
    hide Matches, Released, Adopted;
    ClaimedIsOwned(o, p);
  }

  lemma MineIsNoOrphan(uid: Uid, selector: Labels, p: Pod)
    requires Mine(uid, selector, p)
    ensures !IsOrphan(selector, p)
  {
  }

  /** After a sweep no active pod that the workload selects is without a controller. */
  lemma SweepAdopts(s: State, x: Sweep, end: State)
    requires Base(s) && IsSweep(s, x, end)
    ensures Orphans(end) == {}
  {
    hide SweepClaims, SweepActivates, RollsOut, Mine, IsOrphan, AfterClaiming, Sound, Fits;
    SettledPods(s, x);
    RollingKeepsRest(s, x, end);
    SweepPass(s, x, end);
    SweepLeaves(s, x, end);
    var o := OwnerOf(s.workload);
    forall i | i in end.pods
      ensures !IsOrphan(o.selector, end.pods[i])
    {
      if Mine(o.uid, o.selector, end.pods[i]) {
        MineIsNoOrphan(o.uid, o.selector, end.pods[i]);
      } else {
        NotOrphaned(o, s.pods[i]);
      }
    }
  }

  // ---- Coming to rest

  /** The pods are dealt with, the update revision is on top, and the current one is stored. */
  predicate ChoiceRests(s: State, update: Name) {
    && Base(s) && Dealt(s) && ReusesTop(s.workload, s.revisions, update)
    && s.workload.status.current in s.revisions
  }

  /** The pods are as the spec wants them. */
  predicate AtGoal(s: State, update: Name) {
    && s.workload.spec.replicas.Some?
    && |Own(s)| == s.workload.spec.replicas.value
    && (s.workload.status.current != update ==> |Updated(s, update)| == Partition(s.workload.spec))
  }

  /** One revision is in play, and the pods of other revisions alone are more than the replicas. */
  predicate Jammed(s: State, update: Name) {
    && s.workload.spec.replicas.Some?
    && s.workload.status.current == update
    && |NotUpdated(s, update)| > s.workload.spec.replicas.value
  }

  /** Besides, nothing is to be created, and nothing can be deleted. */
  predicate PodsRest(s: State, update: Name) {
    ChoiceRests(s, update) && (AtGoal(s, update) || Jammed(s, update))
  }

  /** Besides, the status says so. */
  predicate StatusRests(s: State, update: Name) {
    && PodsRest(s, update)
    && s.workload.status.replicas == |Own(s)| && s.workload.status.updated == |Updated(s, update)|
    && s.workload.status.update == update && s.workload.status.observed >= s.workload.generation
    && (|Updated(s, update)| == |Own(s)| ==> s.workload.status.current == update)
  }

  /** The stored revisions that are neither current nor update and that no pod of the workload's own runs. */
  function Unused(s: State, update: Name): set<Name> {
    set n | n in s.revisions && n != s.workload.status.current && n != update
            && forall i <- Own(s) :: RevisionOf(s.pods[i]) != n
  }

  /** Besides, no more of those are stored than the history limit allows. */
  predicate AllRests(s: State, update: Name) {
    StatusRests(s, update) && |Unused(s, update)| <= DEFAULT_HISTORY_LIMIT
  }

  lemma NeverBoth(s: State, update: Name)
    ensures !(AtGoal(s, update) && Jammed(s, update))
  {
    OwnSplits(s, update);
  }

  lemma SameOwn(s: State, t: State, update: Name)
    requires s.pods == t.pods && s.workload.uid == t.workload.uid && s.workload.spec.selector == t.workload.spec.selector
    ensures Own(s) == Own(t) && Updated(s, update) == Updated(t, update) && NotUpdated(s, update) == NotUpdated(t, update)
  {
  }

  // ---- The first sweep

  /** Two different revisions are in play at first, or the pods of other revisions are no more than the replicas. */
  predicate FirstPlanFits(s: State, x: Sweep) {
    && s.workload.spec.replicas.Some?
    && (|| x.current.name != x.update.name
        || |NotUpdated(x.settled, x.update.name)| <= s.workload.spec.replicas.value)
  }

  /** Two different revisions are in play at first, or the partition leaves out as many pods as run others; or, where the
      plan cannot be carried out, it asks for as many as run the update. */
  predicate PartitionFits(s: State, x: Sweep)
    requires s.workload.spec.replicas.Some?
  {
    var partition, others := Partition(s.workload.spec), |NotUpdated(x.settled, x.update.name)|;
    || x.current.name != x.update.name
    || (if FirstPlanFits(s, x) then others == s.workload.spec.replicas.value - partition
        else |Updated(x.settled, x.update.name)| == partition)
  }

  lemma PassClaims(g: Goal, s: State, claimed: seq<Pod>, t: Pass)
    requires PassFrom(g, s, claimed, t)
    ensures Claims(s, claimed) && WellKeyed(s)
  {
  }

  lemma PlanFits(s: State, x: Sweep, end: State)
    requires Base(s) && IsSweep(s, x, end)
    ensures FirstPlanFits(s, x) <==> Feasible(x.claimed, x.update.name, x.pass.diffs)
  {
    hide SweepClaims, SweepActivates, Claims, Own, Side, Feasible, Sound, WellKeyed, Mine, RevisionOf, CreatesAs;
    SettledPods(s, x);
    SweepPass(s, x, end);
    SameOwn(x.settled, x.activated, x.update.name);
    PassClaims(GoalOf(s.workload, x), x.activated, x.claimed, x.pass);
    ClaimedCounts(x.activated, x.claimed, x.update.name);
    FeasibleIff(s.workload.spec, x.claimed, x.current.name, x.update.name, x.pass.diffs);
  }

  /** A first sweep whose plan can be carried out brings the pods to the goal. */
  lemma FitSweep(s: State, x: Sweep, end: State)
    requires Base(s) && IsSweep(s, x, end) && Feasible(x.claimed, x.update.name, x.pass.diffs)
    ensures AtGoal(end, x.update.name)
  {
    hide Base, PassFrom, SweepClaims, SweepActivates, PassOf, Succeeds, Feasible, Surplus, Own, Side,
      ReusesTop, IsTop, Reports, FullyRolledOut, Reported;
    var g := GoalOf(s.workload, x);
    SweepHandsOver(s, x, end);
    SweepPass(s, x, end);
    SweepLeaves(s, x, end);
    OnePassExact(g, x.activated, x.claimed, x.pass);
    assert Calls(x.pass)[..|Calls(x.pass)|] == Calls(x.pass);
    RollingKeepsRest(s, x, end);
    SameOwn(At(x.activated, x.pass, |Calls(x.pass)|), end, x.update.name);
  }

  /** A plan that cannot be carried out makes no call at all. */
  lemma UnfitPass(g: Goal, s: State, claimed: seq<Pod>, t: Pass)
    requires PassFrom(g, s, claimed, t) && !Feasible(claimed, g.update, t.diffs)
    ensures Calls(t) == []
  {
    hide Claims, WellKeyed, Mine, RevisionOf, WithRevision, WithoutRevision;
    GroupsPartition(claimed, g.update);
    var none: seq<Pod> := [];
    assert Planned(g.currentPod, g.updatedPod, t.diffs) == none;
  }

  lemma ClaimingKeepsRest(s: State, x: Sweep)
    requires Base(s) && SweepClaims(s, x)
    ensures x.settled == s.(pods := x.settled.pods, version := x.settled.version)
  {
    SettledPods(s, x);
  }

  /** A first sweep whose plan cannot be carried out jams the workload. */
  lemma UnfitSweep(s: State, x: Sweep, end: State)
    requires Base(s) && IsSweep(s, x, end) && !FirstPlanFits(s, x)
    ensures end.pods == x.settled.pods && Jammed(end, x.update.name)
  {
    hide Base, PassFrom, SweepClaims, SweepActivates, PassOf, Succeeds, Feasible, Surplus, Own, Side,
      ReusesTop, IsTop, Reports, FullyRolledOut, Reported;
    PlanFits(s, x, end);
    SweepPass(s, x, end);
    UnfitPass(GoalOf(s.workload, x), x.activated, x.claimed, x.pass);
    ClaimingKeepsRest(s, x);
    SweepHandsOver(s, x, end);
    SweepLeaves(s, x, end);
    SameOwn(x.settled, end, x.update.name);
  }

  /** A first sweep brings the pods to rest: at the goal exactly if its plan can be carried out, and else where claiming
      left them. */
  lemma FirstSweep(s: State, x: Sweep, end: State)
    requires Base(s) && WellOwned(s) && IsSweep(s, x, end)
    ensures PodsRest(end, x.update.name)
    ensures AtGoal(end, x.update.name) <==> FirstPlanFits(s, x)
    ensures !FirstPlanFits(s, x) ==> end.pods == x.settled.pods
  {
    hide Base, WellOwned, Dealt, IsSweep, AtGoal, Jammed, FirstPlanFits, Feasible, ReusesTop, IsTop;
    SweepDeals(s, x, end);
    SweepHandsOver(s, x, end);
    SweepLeaves(s, x, end);
    PlanFits(s, x, end);
    NeverBoth(end, x.update.name);
    if FirstPlanFits(s, x) {
      FitSweep(s, x, end);
    } else {
      UnfitSweep(s, x, end);
    }
  }

  // ---- Later sweeps

  lemma {:induction false} NothingToWrite(o: Owner, pods: seq<Pod>)
    requires forall p <- pods :: !NeedsWrite(o, p)
    ensures Settlements(o, pods) == []
  {
    hide NeedsWrite;
    if pods != [] {
      NothingToWrite(o, pods[..|pods| - 1]);
    }
  }

  /** With the pods dealt with and the update revision on top, a sweep reaches its pass without a write. */
  lemma NothingToActivate(s: State, x: Sweep, end: State, update: Name)
    requires ChoiceRests(s, update) && IsSweep(s, x, end)
    ensures x.settled == s && x.activated == s && x.update == s.revisions[update] && x.update.name == update
    ensures x.current == s.revisions[s.workload.status.current] && x.current.name == s.workload.status.current
    ensures x.collisions == CollisionsOf(s.workload)
  {
    hide NeedsWrite, Data, ListsSorted, RollsOut, Kept, Mine, Sound, Fits, IsNew;
    NothingToWrite(OwnerOf(s.workload), x.active);
    assert update in s.revisions && IsTop(s.revisions, update);
  }

  /** At the goal the plan is empty, and its pass makes no call. */
  lemma EmptyPass(g: Goal, s: State, claimed: seq<Pod>, t: Pass)
    requires PassFrom(g, s, claimed, t) && g.pw.replicas.Some? && Distance(g, s) == 0
    ensures Calls(t) == [] && Succeeds(claimed, g.update, t)
  {
    hide Claims, WellKeyed, Mine, RevisionOf, Distance, IsPlan, WithRevision, WithoutRevision;
    ReachedIffPlanEmpty(g, s, claimed, t.diffs);
    var none: seq<Pod> := [];
    assert Planned(g.currentPod, g.updatedPod, t.diffs) == none;
    assert t.creates == [];
    if Feasible(claimed, g.update, t.diffs) {
      assert t.updatedVictims + t.otherVictims == none;
    }
  }

  /** With one revision in play and too many pods of others the plan cannot be carried out. */
  lemma JammedPass(g: Goal, s: State, claimed: seq<Pod>, t: Pass)
    requires PassFrom(g, s, claimed, t) && g.pw.replicas.Some? && g.current == g.update
    requires |NotUpdated(s, g.update)| > g.pw.replicas.value
    ensures Calls(t) == [] && !Succeeds(claimed, g.update, t)
  {
    hide Claims, WellKeyed, Mine, RevisionOf, Own, Side, WithRevision, WithoutRevision, CreatesAs, DeletesAs, Oldest;
    PassClaims(g, s, claimed, t);
    ClaimedCounts(s, claimed, g.update);
    FeasibleIff(g.pw, claimed, g.current, g.update, t.diffs);
    UnfitPass(g, s, claimed, t);
  }

  lemma RestIsBase(s: State, update: Name)
    requires PodsRest(s, update)
    ensures Base(s) && s.workload.spec.replicas.Some?
  {
  }

  /** Nothing changes until the report. */
  lemma LaterSweep(s: State, x: Sweep, end: State, update: Name)
    requires PodsRest(s, update) && IsSweep(s, x, end)
    ensures x.activated == x.rolled == s && Claims(s, x.claimed)
    ensures x.update.name == update && x.current.name == s.workload.status.current
    ensures Succeeds(x.claimed, update, x.pass) <==> AtGoal(s, update)
    ensures x.collisions == CollisionsOf(s.workload)
    ensures end.pods == s.pods && Own(end) == Own(s) && Updated(end, update) == Updated(s, update)
    ensures PodsRest(end, update) && (AtGoal(end, update) <==> AtGoal(s, update))
  {
    hide Base, PassFrom, SweepClaims, SweepActivates, PassOf, Succeeds, Feasible, Surplus, Own, Side, IsTop, Claims,
      FullyRolledOut, Reported, ReusesTop, NeedsWrite, InconsistentStatus, Reports;
    var g := GoalOf(s.workload, x);
    RestIsBase(s, update);
    NothingToActivate(s, x, end, update);
    SweepPass(s, x, end);
    OwnSplits(s, update);
    NeverBoth(s, update);
    PassClaims(g, s, x.claimed, x.pass);
    if AtGoal(s, update) {
      EmptyPass(g, s, x.claimed, x.pass);
    } else {
      JammedPass(g, s, x.claimed, x.pass);
    }
    SweepHandsOver(s, x, end);
    SweepLeaves(s, x, end);
    SameOwn(s, end, update);
    NeverBoth(end, update);
  }

  lemma RestCounts(s: State, update: Name)
    requires PodsRest(s, update)
    ensures WellKeyed(s) && s.workload.spec.replicas.Some?
    ensures |Own(s)| == s.workload.spec.replicas.value || s.workload.status.current == update
  {
  }

  /** What a sweep with the pods at rest is to report. */
  lemma ReportedCounts(s: State, x: Sweep, end: State, update: Name)
    requires PodsRest(s, update) && IsSweep(s, x, end)
    ensures x.status == Status(s.workload.generation, |Own(s)|, |Updated(s, update)|,
                               if |Updated(s, update)| == |Own(s)| then update else s.workload.status.current, update,
                               Some(CollisionsOf(s.workload)), !AtGoal(s, update))
  {
    hide PodsRest, SweepClaims, SweepActivates, PassOf, Succeeds, Feasible, Surplus, Own, Side, Claims, SweepTruncates,
      WithRevision;
    LaterSweep(s, x, end, update);
    RestCounts(s, update);
    ClaimedCounts(s, x.claimed, update);
    AllWithRevision(x.claimed, update);
  }

  /** The next sweep reports it. */
  lemma SecondSweep(s: State, x: Sweep, end: State, update: Name)
    requires PodsRest(s, update) && IsSweep(s, x, end)
    ensures StatusRests(end, update)
  {
    hide PodsRest, SweepClaims, SweepActivates, PassOf, Succeeds, Feasible, Surplus, Own, Side, Claims, SweepTruncates,
      WithRevision;
    ReportedCounts(s, x, end, update);
    LaterSweep(s, x, end, update);
    RestIsBase(s, update);
    SweepLeaves(s, x, end);
    ReportedAgrees(s.workload.status, x.status);
  }

  /** Seen from the claimed pods and from the workload's own, the same revisions are unused. */
  lemma UnusedAreNonLive(s: State, end: State, claimed: seq<Pod>, update: Name)
    requires Claims(s, claimed) && end.pods == s.pods && end.workload == s.workload
    ensures NonLiveNames(end.revisions, claimed, s.workload.status.current, update) == Unused(end, update)
  {
    hide RevisionOf, Mine;
    forall n | n in Unused(end, update)
      ensures !IsLive(claimed, s.workload.status.current, update, n)
    {
      forall p | p in claimed
        ensures RevisionOf(p) != n
      {
        assert p.id in Own(end) && end.pods[p.id] == p;
      }
    }
    forall n | n in NonLiveNames(end.revisions, claimed, s.workload.status.current, update)
      ensures n in Unused(end, update)
    {
      forall i | i in Own(end)
        ensures RevisionOf(end.pods[i]) != n
      {
        assert s.pods[i] in claimed;
      }
    }
  }

  lemma ListedAtRest(s: State, x: Sweep, end: State, update: Name)
    requires PodsRest(s, update) && IsSweep(s, x, end)
    ensures ListsSorted(x.revisions, s.revisions) && Activated(s.workload, s.revisions, s.revisions, x.update, false)
  {
    hide ChoiceRests, ListsSorted, RollsOut, SweepClaims;
    NothingToActivate(s, x, end, update);
  }

  lemma LimitKept(s: State, x: Sweep, end: State, update: Name)
    requires PodsRest(s, update) && IsSweep(s, x, end) && end.workload == s.workload
    ensures |Unused(end, update)| <= DEFAULT_HISTORY_LIMIT
  {
    hide PodsRest, Base, IsSweep, Surplus, Own, Side, Claims, Activated, ListsSorted, NonLiveNames, Unused, NamesOf, Updated,
      Succeeds, Reported, InconsistentStatus;
    LaterSweep(s, x, end, update);
    RestIsBase(s, update);
    SweepLeaves(s, x, end);
    ListedAtRest(s, x, end, update);
    TruncationExact(s.workload, s.revisions, x.revisions, s.revisions, x.update, false, x.claimed, x.current.name);
    UnusedAreNonLive(s, end, x.claimed, update);
  }

  /** From then on the workload is not written, and one sweep later no more unused revisions are left than allowed. */
  lemma ThirdSweep(s: State, x: Sweep, end: State, update: Name)
    requires StatusRests(s, update) && IsSweep(s, x, end)
    ensures end.workload == s.workload && AllRests(end, update)
  {
    hide PodsRest, SweepClaims, SweepActivates, PassOf, Succeeds, Feasible, Surplus, Own, Side, Claims, SweepTruncates,
      RollsOut, Reported;
    ReportedCounts(s, x, end, update);
    LaterSweep(s, x, end, update);
    RestIsBase(s, update);
    SweepLeaves(s, x, end);
    assert !InconsistentStatus(s.workload.status, x.status);
    LimitKept(s, x, end, update);
  }

  /** Then a sweep writes nothing at all. */
  lemma FourthSweep(s: State, x: Sweep, end: State, update: Name)
    requires AllRests(s, update) && IsSweep(s, x, end)
    ensures end == s
  {
    hide PodsRest, Succeeds, Feasible, Own, Side, Claims, PassOf, Activated, NonLiveNames, Unused, Reports,
      SweepClaims, ListsSorted, IsLive;
    ReportedCounts(s, x, end, update);
    LaterSweep(s, x, end, update);
    assert !InconsistentStatus(s.workload.status, x.status);
    ListedAtRest(s, x, end, update);
    StaleListSuffices(s.workload, s.revisions, x.revisions, s.revisions, x.update, false, x.claimed, x.current.name);
    UnusedAreNonLive(s, s, x.claimed, update);
    CountNames(NonLive(x.revisions, x.claimed, x.current.name, x.update.name));
  }

  // ---- Many sweeps

  /** Undisturbed passes, one after another. */
  predicate InARow(states: seq<State>, sweeps: seq<Sweep>) {
    |states| == |sweeps| + 1 && forall i | 0 <= i < |sweeps| :: IsSweep(states[i], sweeps[i], states[i + 1])
  }

  /** How much is at rest after a number of passes. */
  predicate RestsAfter(s: State, update: Name, k: nat) {
    if k == 0 then true else if k == 1 then PodsRest(s, update) else if k == 2 then StatusRests(s, update)
    else AllRests(s, update)
  }

  lemma OneMoreSweep(s: State, x: Sweep, end: State, update: Name, k: nat)
    requires k > 0 && RestsAfter(s, update, k) && IsSweep(s, x, end)
    ensures RestsAfter(end, update, k + 1) && end.pods == s.pods
    ensures AtGoal(end, update) <==> AtGoal(s, update)
    ensures k >= 2 ==> end.workload == s.workload
    ensures k >= 3 ==> end == s
  {
    hide PodsRest, IsSweep, Unused, Own, Side, AtGoal;
    LaterSweep(s, x, end, update);
    if k == 1 {
      SecondSweep(s, x, end, update);
    } else {
      ThirdSweep(s, x, end, update);
      if k >= 3 {
        FourthSweep(s, x, end, update);
      }
    }
  }

  /** Layered quiescence: the pods do not change after the first pass, nor the status after the second, nor the
      revisions after the third: from the fourth on nothing is written. The pods rest at the goal exactly if the first
      plan can be carried out. */
  lemma {:induction false} Quiescence(states: seq<State>, sweeps: seq<Sweep>, k: nat)
    requires InARow(states, sweeps) && 0 < k < |states|
    requires Base(states[0]) && WellOwned(states[0])
    ensures states[k].pods == states[1].pods
    ensures k >= 2 ==> states[k].workload == states[2].workload
    ensures k >= 3 ==> states[k] == states[3]
    ensures RestsAfter(states[k], sweeps[0].update.name, k)
    ensures AtGoal(states[k], sweeps[0].update.name) <==> FirstPlanFits(states[0], sweeps[0])
  {
    hide Base, WellOwned, IsSweep, PodsRest, StatusRests, AllRests, FirstPlanFits, AtGoal;
    var update := sweeps[0].update.name;
    assert IsSweep(states[0], sweeps[0], states[1]);
    if k == 1 {
      FirstSweep(states[0], sweeps[0], states[1]);
    } else {
      Quiescence(states, sweeps, k - 1);
      assert IsSweep(states[k - 1], sweeps[k - 1], states[k]);
      OneMoreSweep(states[k - 1], sweeps[k - 1], states[k], update, k - 1);
    }
  }

  lemma RestsAfterFirst(s: State, update: Name, k: nat)
    requires k > 0 && RestsAfter(s, update, k)
    ensures PodsRest(s, update)
  {
  }

  /** Undisturbed passes reach the replicas exactly when the first plan can be carried out. */
  lemma ReplicasReachedIff(states: seq<State>, sweeps: seq<Sweep>, k: nat)
    requires InARow(states, sweeps) && 0 < k < |states|
    requires Base(states[0]) && WellOwned(states[0])
    ensures states[k].workload.spec.replicas.Some?
    ensures |Own(states[k])| == states[k].workload.spec.replicas.value <==> FirstPlanFits(states[0], sweeps[0])
  {
    hide WellOwned, IsSweep, FirstPlanFits, ChoiceRests, Own, Side;
    var update := sweeps[0].update.name;
    Quiescence(states, sweeps, k);
    RestsAfterFirst(states[k], update, k);
    RestIsBase(states[k], update);
    OwnSplits(states[k], update);
  }

  /** Whether the first sweep meets the partition. */
  lemma FirstSweepPartition(s: State, x: Sweep, end: State)
    requires Base(s) && IsSweep(s, x, end)
    ensures |Updated(end, x.update.name)| == Partition(s.workload.spec) <==> PartitionFits(s, x)
  {
    hide Base, PassFrom, SweepClaims, SweepActivates, PassOf, Succeeds, Feasible, Surplus, Own, Side,
      ReusesTop, IsTop, Reports, FullyRolledOut, Reported;
    var g, u := GoalOf(s.workload, x), x.update.name;
    PlanFits(s, x, end);
    SweepPass(s, x, end);
    SweepLeaves(s, x, end);
    ClaimingKeepsRest(s, x);
    SameOwn(x.settled, x.activated, u);
    if FirstPlanFits(s, x) {
      PartitionMetIff(g, x.activated, x.claimed, x.pass);
      assert Calls(x.pass)[..|Calls(x.pass)|] == Calls(x.pass);
      RollingKeepsRest(s, x, end);
      SameOwn(At(x.activated, x.pass, |Calls(x.pass)|), end, u);
    } else {
      UnfitSweep(s, x, end);
      SameOwn(x.settled, end, u);
    }
  }

  /** Sweeps leave the spec and the identity of the workload alone. */
  lemma {:induction false} SpecKept(states: seq<State>, sweeps: seq<Sweep>, k: nat)
    requires InARow(states, sweeps) && k < |states| && Base(states[0])
    ensures Base(states[k]) && states[k].workload.spec == states[0].workload.spec
    ensures states[k].workload.uid == states[0].workload.uid && states[k].workload.spec.replicas.Some?
  {
    hide WellKeyed, Sound, Fits, IsSweep;
    if k > 0 {
      SpecKept(states, sweeps, k - 1);
      assert IsSweep(states[k - 1], sweeps[k - 1], states[k]);
      SweepLeaves(states[k - 1], sweeps[k - 1], states[k]);
    }
  }

  /** In the end as many pods as the partition asks for run the update revision, exactly when two revisions were in play
      at first, or as many of the pods as it leaves out ran others; or, where the first plan cannot be carried out, when
      they did so already. */
  lemma PartitionReachedIff(states: seq<State>, sweeps: seq<Sweep>, k: nat)
    requires InARow(states, sweeps) && 0 < k < |states|
    requires Base(states[0]) && WellOwned(states[0])
    ensures states[k].workload.spec == states[0].workload.spec && states[k].workload.spec.replicas.Some?
    ensures |Updated(states[k], sweeps[0].update.name)| == Partition(states[k].workload.spec)
            <==> PartitionFits(states[0], sweeps[0])
  {
    hide Base, WellOwned, IsSweep, FirstPlanFits, PartitionFits, AtGoal, Own, Side;
    var update := sweeps[0].update.name;
    assert IsSweep(states[0], sweeps[0], states[1]);
    Quiescence(states, sweeps, k);
    SpecKept(states, sweeps, k);
    SpecKept(states, sweeps, 1);
    FirstSweepPartition(states[0], sweeps[0], states[1]);
    SameOwn(states[1], states[k], update);
  }

  /** If the first plan cannot be carried out, no pass ever creates or deletes a pod: the workload is jammed for ever. */
  lemma JammedForEver(states: seq<State>, sweeps: seq<Sweep>, k: nat)
    requires InARow(states, sweeps) && 0 < k < |states|
    requires Base(states[0]) && WellOwned(states[0])
    requires !FirstPlanFits(states[0], sweeps[0])
    ensures states[k].pods == sweeps[0].settled.pods && Jammed(states[k], sweeps[0].update.name)
  {
    hide Base, WellOwned, IsSweep, FirstPlanFits, AtGoal, Jammed, ChoiceRests;
    var update := sweeps[0].update.name;
    assert IsSweep(states[0], sweeps[0], states[1]);
    Quiescence(states, sweeps, k);
    RestsAfterFirst(states[k], update, k);
    FirstSweep(states[0], sweeps[0], states[1]);
  }

  // ---- From any start

  function RefsTo(owners: seq<OwnerRef>, uid: Uid): nat {
    if owners == [] then 0 else (if owners[0].uid == uid then 1 else 0) + RefsTo(owners[1..], uid)
  }

  lemma {:induction false} ReleaseDropsOne(owners: seq<OwnerRef>, uid: Uid)
    ensures RefsTo(Released(owners, uid), uid) == Max(0, RefsTo(owners, uid) - 1)
  {
    if owners != [] && owners[0].uid != uid {
      ReleaseDropsOne(owners[1..], uid);
      assert ([owners[0]] + Released(owners[1..], uid))[1..] == Released(owners[1..], uid);
    }
  }

  lemma {:induction false} ControllerRefers(owners: seq<OwnerRef>, uid: Uid)
    requires ControllerOf(owners) == Some(uid)
    ensures RefsTo(owners, uid) > 0
  {
    if !owners[0].controller {
      ControllerRefers(owners[1..], uid);
    }
  }

  /** The pod, if it has to be released, refers to the owner no more often than so. */
  predicate RefersAtMost(o: Owner, p: Pod, n: nat) {
    !p.terminating && Judge(o, p).Release? ==> RefsTo(p.owners, o.uid) <= n
  }

  predicate ReleasedWithin(s: State, n: nat) {
    forall i <- s.pods :: RefersAtMost(OwnerOf(s.workload), s.pods[i], n)
  }

  /** There is always such a number. */
  lemma WithinSome(s: State) returns (n: nat)
    ensures ReleasedWithin(s, n)
  {
    hide RefsTo, Judge;
    n := 0;
    var left := s.pods.Keys;
    while left != {}
      invariant left <= s.pods.Keys
      invariant forall i <- s.pods :: i in left || RefersAtMost(OwnerOf(s.workload), s.pods[i], n)
    {
      var i :| i in left;
      left := left - {i};
      n := Max(n, RefsTo(s.pods[i].owners, s.workload.uid));
    }
  }

  /** Dealing with a pod brings it nearer to being let go. */
  lemma OneReleaseLess(o: Owner, p: Pod, n: nat)
    requires RefersAtMost(o, p, n)
    ensures RefersAtMost(o, AfterClaiming(o, p), Max(0, n - 1))
  {
    hide RefsTo, Released, Adopted, Matches;
    ClaimedIsOwned(o, p);
    if Judge(o, p).Release? {
      ReleaseDropsOne(p.owners, o.uid);
    }
  }

  lemma OwnIsNotReleased(o: Owner, p: Pod, n: nat)
    requires Mine(o.uid, o.selector, p)
    ensures RefersAtMost(o, p, n)
  {
  }

  lemma SweepReleases(s: State, x: Sweep, end: State, n: nat)
    requires Base(s) && IsSweep(s, x, end) && ReleasedWithin(s, n)
    ensures ReleasedWithin(end, Max(0, n - 1))
  {
    hide SweepClaims, SweepActivates, RollsOut, Mine, Sound, Fits, AfterClaiming, RefersAtMost;
    SettledPods(s, x);
    RollingKeepsRest(s, x, end);
    SweepPass(s, x, end);
    SweepLeaves(s, x, end);
    var o := OwnerOf(s.workload);
    assert OwnerOf(end.workload) == o;
    forall i | i in end.pods
      ensures RefersAtMost(o, end.pods[i], Max(0, n - 1))
    {
      if Mine(s.workload.uid, s.workload.spec.selector, end.pods[i]) {
        OwnIsNotReleased(o, end.pods[i], Max(0, n - 1));
      } else {
        OneReleaseLess(o, s.pods[i], n);
      }
    }
  }

  lemma WithinNone(s: State)
    requires ReleasedWithin(s, 0)
    ensures WellOwned(s)
  {
    hide RefsTo, Matches;
    forall i | i in s.pods
      ensures ReleasedAtOnce(OwnerOf(s.workload), s.pods[i])
    {
      var p := s.pods[i];
      assert RefersAtMost(OwnerOf(s.workload), p, 0);
      if !p.terminating && Judge(OwnerOf(s.workload), p).Release? {
        ControllerRefers(p.owners, s.workload.uid);
      }
    }
  }

  /** From any start, however many references a pod to be released has: after as many sweeps as those no pod has to be
      released any more. */
  lemma {:induction false} ReleasedInTime(states: seq<State>, sweeps: seq<Sweep>, n: nat, k: nat)
    requires InARow(states, sweeps) && k < |states| && Base(states[0]) && ReleasedWithin(states[0], n)
    ensures Base(states[k]) && ReleasedWithin(states[k], Max(0, n - k))
  {
    hide Base, IsSweep, ReleasedWithin;
    if k > 0 {
      ReleasedInTime(states, sweeps, n, k - 1);
      assert IsSweep(states[k - 1], sweeps[k - 1], states[k]);
      SweepLeaves(states[k - 1], sweeps[k - 1], states[k]);
      SweepReleases(states[k - 1], sweeps[k - 1], states[k], Max(0, n - (k - 1)));
    }
  }

  lemma RowLength(states: seq<State>, sweeps: seq<Sweep>)
    requires InARow(states, sweeps)
    ensures |states| == |sweeps| + 1
  {
  }

  lemma RowFrom(states: seq<State>, sweeps: seq<Sweep>, n: nat)
    requires InARow(states, sweeps) && n <= |sweeps|
    ensures InARow(states[n..], sweeps[n..])
  {
    hide IsSweep;
    forall i | 0 <= i < |sweeps[n..]|
      ensures IsSweep(states[n..][i], sweeps[n..][i], states[n..][i + 1])
    {
      assert IsSweep(states[n + i], sweeps[n + i], states[n + i + 1]);
    }
  }

  /** So sweeps come to rest from any start at all. */
  lemma QuiescenceFromAnyStart(states: seq<State>, sweeps: seq<Sweep>, n: nat, k: nat)
    requires InARow(states, sweeps) && 0 < k && n + k < |states|
    requires Base(states[0]) && ReleasedWithin(states[0], n)
    ensures states[n + k].pods == states[n + 1].pods
    ensures k >= 2 ==> states[n + k].workload == states[n + 2].workload
    ensures k >= 3 ==> states[n + k] == states[n + 3]
    ensures AtGoal(states[n + k], sweeps[n].update.name) <==> FirstPlanFits(states[n], sweeps[n])
  {
    hide Base, WellOwned, IsSweep, FirstPlanFits, AtGoal, ReleasedWithin, RestsAfter, InARow;
    RowLength(states, sweeps);
    ReleasedInTime(states, sweeps, n, n);
    WithinNone(states[n]);
    RowFrom(states, sweeps, n);
    Quiescence(states[n..], sweeps[n..], k);
  }

  /** A workload that wants no pod and has one left of the revision before the only one in play. */
  function JammedInput(): State {
    var before, now := Template(map[], Num(1)), Template(map[], Num(2));
    State(
      map[0 := Pod(0, Stamp(map[], "q"), Num(1), 0, [OwnerRef(7, true)], false)],
      map["q" := Revision("q", Data(before), 1, Some(7), 0), "r" := Revision("r", Data(now), 2, Some(7), 0)],
      Workload(7, 0, false, Spec(Some(0), None, map[], now), Status(0, 0, 0, "r", "r", None, false), 0),
      1)
  }

  lemma JammedInputRevisions()
    ensures var s := JammedInput();
            && Sound(7, map[], s.revisions)
            && Restored(s.revisions["q"].data) == Template(map[], Num(1))
            && ReusesTop(s.workload, s.revisions, "r")
  {
    hide Data, Restored, ShortHash, Stamp;
    var before, now := Template(map[], Num(1)), Template(map[], Num(2));
    RestoredData(before);
    RestoredData(now);
    assert Data(before) != Data(now);
  }

  lemma JammedInputPods()
    ensures var s := JammedInput();
            Own(s) == {0} && NotUpdated(s, "r") == {0} && RevisionOf(s.pods[0]) == "q" && Dealt(s) && WellOwned(s)
  {
    hide Data, Restored, ShortHash;
    var s := JammedInput();
    assert RevisionOf(s.pods[0]) == "q" != "r";
    assert Own(s) == {0};
    assert NotUpdated(s, "r") == {0};
  }

  /** Its state is one that the invariant of all runs allows, and it is jammed. */
  lemma JammedInputJams()
    ensures Consistent({}, JammedInput()) && WellOwned(JammedInput()) && !JammedInput().workload.deleting
    ensures PodsRest(JammedInput(), "r") && Jammed(JammedInput(), "r")
  {
    hide Data, Restored, ShortHash, Sound, ReusesTop, NotUpdated, WellOwned, Dealt, Stamp;
    JammedInputRevisions();
    JammedInputPods();
  }
}
