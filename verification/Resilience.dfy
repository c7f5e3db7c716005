/** What a pass keeps while others act: as many pods as it must, less those that die meanwhile. */
module Resilience {
  import opened Objects
  import opened Snapshot
  import opened Cluster
  import opened Planner
  import opened SlowStart
  import opened Rollout
  import opened Guarantees
  import opened Availability
  import opened Ownership
  import opened Reporting
  import opened Protocol
  import opened Activation
  import opened Truncation
  import opened Sweeps

  // ---- Pod calls among everything else

  predicate IsPodCall(e: Event) {
    e.PodCreated? || e.PodCreateFailed? || e.PodDeleted? || e.PodDeleteFailed?
  }

  /** The creations and deletions of pods in a log, in their order. */
  function PodCallsOf(log: seq<Event>): seq<Event> {
    if log == [] then []
    else
      var n := |log| - 1;
      PodCallsOf(log[..n]) + if IsPodCall(log[n]) then [log[n]] else []
  }

  lemma {:induction false} PodCallsConcat(a: seq<Event>, b: seq<Event>)
    ensures PodCallsOf(a + b) == PodCallsOf(a) + PodCallsOf(b)
  {
    if b == [] {
      assert a + b == a;
    } else {
      var n := |b| - 1;
      assert (a + b)[..|a + b| - 1] == a + b[..n];
      PodCallsConcat(a, b[..n]);
    }
  }

  lemma {:induction false} CallsConcat(a: seq<Event>, b: seq<Event>)
    ensures CallsOf(a + b) == CallsOf(a) + CallsOf(b)
  {
    if b == [] {
      assert a + b == a;
    } else {
      var n := |b| - 1;
      assert (a + b)[..|a + b| - 1] == a + b[..n];
      CallsConcat(a, b[..n]);
    }
  }

  lemma {:induction false} PodCallsAreCalls(log: seq<Event>)
    ensures PodCallsOf(CallsOf(log)) == PodCallsOf(log)
  {
    if log != [] {
      var n := |log| - 1;
      PodCallsAreCalls(log[..n]);
      PodCallsConcat(CallsOf(log[..n]), if IsCall(log[n]) then [log[n]] else []);
      assert [log[n]][..0] == [];
    }
  }

  lemma {:induction false} OnlyPodCalls(log: seq<Event>)
    requires forall e <- log :: IsPodCall(e)
    ensures PodCallsOf(log) == log
  {
    if log != [] {
      assert log[|log| - 1] in log;
      OnlyPodCalls(log[..|log| - 1]);
    }
  }

  lemma {:induction false} NoPodCalls(log: seq<Event>)
    requires forall e <- log :: !IsPodCall(e)
    ensures PodCallsOf(log) == []
  {
    if log != [] {
      assert log[|log| - 1] in log;
      NoPodCalls(log[..|log| - 1]);
    }
  }

  lemma {:induction false} PodCallIn(log: seq<Event>, e: Event)
    requires e in log && IsPodCall(e)
    ensures e in PodCallsOf(log)
  {
    var n := |log| - 1;
    if e != log[n] {
      assert e in log[..n];
      PodCallIn(log[..n], e);
    }
  }

  // ---- How the pods move

  /** What may happen during a pass over the pods of a state: anything, as long as only its own pods are deleted, the pods
      created will be its own, and only pods that it does not select change owners. */
  predicate Bearable(s: State, e: Event) {
    match e
    case PodCreated(_, _) => PodCall(s, e)
    case PodDeleted(_) => PodCall(s, e)
    case PodOwned(id, _) => id < s.version && (id in s.pods ==> !Matches(s.workload.spec.selector, s.pods[id].labels))
    case _ => true
  }

  /** How many pods of the workload's own died that were on one side then. */
  function Died(s: State, es: seq<Event>, update: Name, updated: bool): nat {
    if es == [] then 0
    else
      var n := |es| - 1;
      Died(s, es[..n], update, updated)
      + if es[n].PodDied? && es[n].id in Side(Replay(s, es[..n]), update, updated) then 1 else 0
  }

  /** Of the pods there were, those selected are as they were or gone, and the others are still not selected. */
  predicate PodsKept(s: State, t: State) {
    var selector := s.workload.spec.selector;
    && WellKeyed(t) && s.version <= t.version
    && t.workload.uid == s.workload.uid && t.workload.spec.selector == selector
    && forall i <- t.pods :: i < s.version ==>
         && i in s.pods && t.pods[i].labels == s.pods[i].labels
         && (Matches(selector, s.pods[i].labels) ==> t.pods[i] == s.pods[i])
  }

  lemma NothingMoved(s: State)
    requires WellKeyed(s)
    ensures PodsKept(s, s)
  {
    hide Matches;
  }

  lemma PodsKeptMore(s: State, t: State, e: Event)
    requires PodsKept(s, t) && Bearable(s, e)
    ensures PodsKept(s, Next(t, e))
  {
    hide Matches, Mine;
    NextKeepsKeys(t, e);
  }

  lemma SamePods(t: State, t': State, update: Name, updated: bool)
    requires t'.pods == t.pods
    requires t'.workload.uid == t.workload.uid && t'.workload.spec.selector == t.workload.spec.selector
    ensures Side(t', update, updated) == Side(t, update, updated)
  {
    hide Mine, RevisionOf;
  }

  lemma StillUnselected(s: State, t: State, id: PodId)
    requires PodsKept(s, t) && id in t.pods && id < s.version
    requires id in s.pods ==> !Matches(s.workload.spec.selector, s.pods[id].labels)
    ensures !Matches(t.workload.spec.selector, t.pods[id].labels)
  {
    hide Matches;
  }

  lemma UnselectedStays(t: State, id: PodId, owners: seq<OwnerRef>, update: Name, updated: bool)
    requires id in t.pods && !Matches(t.workload.spec.selector, t.pods[id].labels)
    ensures Side(Next(t, PodOwned(id, owners)), update, updated) == Side(t, update, updated)
  {
    hide Matches, RevisionOf;
    var t' := Next(t, PodOwned(id, owners));
    assert forall i <- t.pods :: i != id ==> t'.pods[i] == t.pods[i];
  }

  lemma OldPodKept(s: State, t: State, id: PodId, update: Name, updated: bool)
    requires WellKeyed(s) && PodsKept(s, t) && id in Own(s) && id in Side(t, update, updated)
    ensures id in Side(s, update, updated)
  {
    hide RevisionOf, ControllerOf, Matches;
  }

  lemma IdentityKept(s: State, t: State)
    requires PodsKept(s, t)
    ensures WellKeyed(t) && t.workload.uid == s.workload.uid && t.workload.spec.selector == s.workload.spec.selector
  {
  }

  lemma OnePodGoes(t: State, e: Event, id: PodId, update: Name, updated: bool)
    requires e == PodDied(id) || e == PodDeleted(id)
    ensures |Side(Next(t, e), update, updated)| + (if id in Side(t, update, updated) then 1 else 0)
            == |Side(t, update, updated)|
  {
    hide Side;
    SideLoses(t, Next(t, e), id, update, updated);
  }

  lemma NoPodMoves(t: State, e: Event, update: Name, updated: bool)
    requires !e.PodCreated? && !e.PodDeleted? && !e.PodDied? && (e.PodOwned? ==> e.id !in t.pods)
    ensures Side(Next(t, e), update, updated) == Side(t, update, updated)
  {
    hide Side;
    SamePods(t, Next(t, e), update, updated);
  }

  /** What one event does to one side of the pods. */
  lemma SideMovesAmongOthers(s: State, t: State, e: Event, update: Name, updated: bool)
    requires WellKeyed(s) && PodsKept(s, t) && Bearable(s, e)
    ensures var before, after := |Side(t, update, updated)|, |Side(Next(t, e), update, updated)|;
            var made := if e.PodCreated? && EqualToRevisionHash(e.pod, update) == updated then 1 else 0;
            && after <= before + made
            && after + (if e.PodDeleted? && e.id in Side(s, update, updated) then 1 else 0)
               + (if e.PodDied? && e.id in Side(t, update, updated) then 1 else 0) >= before + made
  {
    hide Own, Side, Mine, WellKeyed, RevisionOf, Matches, PodsKept, Next;
    IdentityKept(s, t);
    match e {
      case PodCreated(p, now) =>
        if EqualToRevisionHash(p, update) == updated {
          SideGains(t, p, now, update, updated);
        } else {
          SideStays(t, p, now, update, updated);
        }
      case PodDeleted(id) =>
        OnePodGoes(t, e, id, update, updated);
        if id in Side(t, update, updated) {
          OldPodKept(s, t, id, update, updated);
        }
      case PodDied(id) => OnePodGoes(t, e, id, update, updated);
      case PodOwned(id, owners) =>
        if id in t.pods {
          StillUnselected(s, t, id);
          UnselectedStays(t, id, owners, update, updated);
        } else {
          NoPodMoves(t, e, update, updated);
        }
      case _ => NoPodMoves(t, e, update, updated);
    }
  }

  /** One side of the pods over a whole log: it has grown by no more than what was created, and shrunk by no more than
      what was deleted and what died. */
  lemma {:induction false} SideAmongOthers(s: State, es: seq<Event>, update: Name, updated: bool)
    requires WellKeyed(s) && forall e <- es :: Bearable(s, e)
    ensures PodsKept(s, Replay(s, es))
    ensures var before, after := |Side(s, update, updated)|, |Side(Replay(s, es), update, updated)|;
            && after <= before + Created(es, update, updated)
            && after + Removed(es, s, update, updated) + Died(s, es, update, updated)
               >= before + Created(es, update, updated)
  {
    hide PodsKept, Bearable, Side, EqualToRevisionHash;
    if es == [] {
      NothingMoved(s);
    } else {
      var n := |es| - 1;
      assert es[n] in es;
      SideAmongOthers(s, es[..n], update, updated);
      SideMovesAmongOthers(s, Replay(s, es[..n]), es[n], update, updated);
      PodsKeptMore(s, Replay(s, es[..n]), es[n]);
    }
  }

  lemma {:induction false} TallyPodCalls(es: seq<Event>, s: State, update: Name, updated: bool)
    ensures Created(PodCallsOf(es), update, updated) == Created(es, update, updated)
    ensures Removed(PodCallsOf(es), s, update, updated) == Removed(es, s, update, updated)
  {
    hide Side, EqualToRevisionHash;
    if es != [] {
      var n := |es| - 1;
      TallyPodCalls(es[..n], s, update, updated);
      TallyConcat(PodCallsOf(es[..n]), if IsPodCall(es[n]) then [es[n]] else [], s, update, updated);
      assert [es[n]][..0] == [];
    }
  }

  // ---- What a pass keeps

  /** The floors and the ceiling of a pass, less the pods that died. */
  predicate KeepsEnough(pw: Spec, current: Name, update: Name, s: State, es: seq<Event>) {
    var t, diedUps, diedOthers := Replay(s, es), Died(s, es, update, true), Died(s, es, update, false);
    && pw.replicas.Some?
    && |Own(t)| + diedUps + diedOthers >= Min(|Own(s)|, pw.replicas.value)
    && |Own(t)| <= |Own(s)| + pw.replicas.value
    && (update != current ==>
          && |Updated(t, update)| + diedUps >= Min(|Updated(s, update)|, Partition(pw))
          && |NotUpdated(t, update)| + diedOthers
             >= Min(|NotUpdated(s, update)|, pw.replicas.value - Partition(pw)))
  }

  /** Whatever others do between the calls of a pass, and whichever of the calls are refused, no more pods go missing
      than the pass may take away and others let die. */
  lemma FloorAmongOthers(g: Goal, s: State, claimed: seq<Pod>, t: Pass, es: seq<Event>)
    requires PassFrom(g, s, claimed, t) && PodCallsOf(es) <= Calls(t)
    requires forall e <- es :: Bearable(s, e)
    ensures KeepsEnough(g.pw, g.current, g.update, s, es)
  {
    hide PassFrom, Side, Own, Bearable, PodsKept, WellKeyed, Calls, Succeeds, Created, Removed, Died, PodCallsOf;
    var k := |PodCallsOf(es)|;
    KeyedPass(g, s, claimed, t);
    PlanMatches(g, s, claimed, t);
    PassTallies(g, s, claimed, t, k);
    assert PodCallsOf(es) == Calls(t)[..k];
    TallyPodCalls(es, s, g.update, true);
    TallyPodCalls(es, s, g.update, false);
    SideAmongOthers(s, es, g.update, true);
    SideAmongOthers(s, es, g.update, false);
    OwnSplits(Replay(s, es), g.update);
  }

  /** Where a pass makes no call on pods, they only die. */
  lemma NoCallsAmongOthers(pw: Spec, current: Name, update: Name, s: State, es: seq<Event>)
    requires WellKeyed(s) && pw.replicas.Some? && PodCallsOf(es) == [] && forall e <- es :: Bearable(s, e)
    ensures KeepsEnough(pw, current, update, s, es)
  {
    hide Side, Own, Bearable, PodsKept, WellKeyed, Died;
    TallyPodCalls(es, s, update, true);
    TallyPodCalls(es, s, update, false);
    SideAmongOthers(s, es, update, true);
    SideAmongOthers(s, es, update, false);
    OwnSplits(Replay(s, es), update);
    OwnSplits(s, update);
  }

  // ---- From the listing on

  /** A pass that works with the workload it read and the pods it listed, and how far it has come. */
  predicate WorksFrom(ctl: Control, w: Workload, listed: seq<Pod>) {
    match ctl
    case Claiming(w', listed') => w' == w && listed' == listed
    case Activating(w', claimed) => w' == w && claimed == Kept(OwnerOf(w), listed)
    case Rolling(w', claimed, _, _) => w' == w && claimed == Kept(OwnerOf(w), listed)
    case _ => false
  }

  /** From a listing in a log on, the pass has worked with the pods listed there. */
  predicate ListedAt(start: State, log: seq<Event>, n: nat) {
    && n < |log| && log[n].Listed? && Where(log[..n]).Reading?
    && ListsActive(log[n].listed, Replay(start, log[..n]).pods)
    && (forall k | n < k <= |log| :: WorksFrom(Where(log[..k]), Where(log[..n]).w, log[n].listed))
  }

  lemma StepBack(ctl: Control, s: State, e: Event)
    requires Permits(ctl, s, e) && !Step(ctl, e).Idle? && !Step(ctl, e).Reading?
    ensures (e.Listed? && ctl.Reading? && Step(ctl, e) == Claiming(ctl.w, e.listed) && ListsActive(e.listed, s.pods))
            || (!ctl.Idle? && !ctl.Reading?)
    ensures forall listed | !ctl.Idle? && !ctl.Reading? && WorksFrom(ctl, ctl.w, listed) ::
              WorksFrom(Step(ctl, e), ctl.w, listed)
  {
    hide Free, IsNew, IsBump, IsChoice, ListsActive, Kept;
  }

  /** Every pass that has come to claiming has listed its pods. */
  lemma {:induction false} PassListed(start: State, log: seq<Event>) returns (n: nat)
    requires Legal(start, log) && !Where(log).Idle? && !Where(log).Reading?
    ensures ListedAt(start, log, n)
  {
    hide Legal, Permits, ListsActive, Kept, Step;
    var m := |log| - 1;
    var e, before := log[m], log[..m];
    assert log == before + [e] && log[..|log|] == log;
    LastPermitted(start, before, e);
    StepBack(Where(before), Replay(start, before), e);
    if Where(before).Idle? || Where(before).Reading? {
      n := m;
    } else {
      n := PassListed(start, before);
      assert log[..n] == before[..n] && before[..m] == before;
      forall k | n < k <= |log|
        ensures WorksFrom(Where(log[..k]), Where(log[..n]).w, log[n].listed)
      {
        if k < |log| {
          assert log[..k] == before[..k];
        }
      }
    }
  }

  /** Without pods to adopt, those a pass claims are those the workload owns when they are listed. */
  lemma ListedOwn(s: State, w: Workload, listed: seq<Pod>)
    requires w.uid == s.workload.uid && w.spec.selector == s.workload.spec.selector
    requires ListsActive(listed, s.pods) && Orphans(s) == {}
    ensures Claims(s, Kept(OwnerOf(w), listed))
  {
    hide Kept, Matches, ControllerOf, Adopted, Released;
    var o := OwnerOf(w);
    KeptExactly(o, listed);
    KeptDistinct(o, listed);
    forall q | q in Kept(o, listed)
      ensures q.id in Own(s) && s.pods[q.id] == q
    {
      var p :| p in listed && IsClaimed(o, p) && q == Settled(o, p);
      assert p.id !in Orphans(s);
    }
    forall i | i in Own(s)
      ensures s.pods[i] in Kept(o, listed)
    {
      ClaimedIsOwned(o, s.pods[i]);
    }
  }

  /** Where no pod waited to be adopted when the run began, none ever does. */
  lemma NoOrphans(start: State, log: seq<Event>)
    requires Consistent({}, start) && Legal(start, log)
    ensures Orphans(Replay(start, log)) == {} && Inv({}, Replay(start, log), Where(log))
  {
    hide Legal, IsOrphan, Sound, Fits, Matches;
    assert Orphans(start) == {};
    EveryRunConsistent(start, log);
  }

  lemma ListingBearable(s: State, e: Event)
    requires e.Listed?
    ensures Bearable(s, e)
  {
  }

  lemma SettlementBearable(s: State, w: Workload, listed: seq<Pod>, e: Event)
    requires w.uid == s.workload.uid && w.spec.selector == s.workload.spec.selector && WellKeyed(s)
    requires ListsActive(listed, s.pods) && Orphans(s) == {}
    requires Settlement(OwnerOf(w), true, listed, e)
    ensures Bearable(s, e)
  {
    hide Matches, ControllerOf, Adopted, Released;
    var p :| p in listed && NeedsWrite(OwnerOf(w), p) && e == PodOwned(p.id, Settled(OwnerOf(w), p).owners);
    assert p.id !in Orphans(s);
  }

  /** Whatever is permitted from the listing on can be borne. */
  lemma PermittedBearable(s: State, w: Workload, listed: seq<Pod>, ctl: Control, t: State, e: Event)
    requires w.uid == s.workload.uid && w.spec.selector == s.workload.spec.selector && WellKeyed(s)
    requires ListsActive(listed, s.pods) && Orphans(s) == {}
    requires WorksFrom(ctl, w, listed) && Permits(ctl, t, e) && (IsPodCall(e) ==> PodCall(s, e))
    ensures Bearable(s, e)
  {
    hide PodCall, Settlement, ListsActive, Orphans, WellKeyed, IsNew, IsBump, IsChoice, Kept, Matches;
    if e.PodOwned? {
      SettlementBearable(s, w, listed, e);
    }
  }

  lemma LegalAt(start: State, log: seq<Event>, k: nat)
    requires Legal(start, log) && k < |log|
    ensures Permits(Where(log[..k]), Replay(start, log[..k]), log[k])
  {
    hide Permits, Where, Replay;
  }

  /** The listing of a pass shows the pods it will work with, of the workload it read. */
  lemma ListingGrounds(start: State, log: seq<Event>, n: nat)
    requires Consistent({}, start) && Legal(start, log) && ListedAt(start, log, n)
    ensures var s, w := Replay(start, log[..n]), Where(log[..n]).w;
            && WellKeyed(s) && Orphans(s) == {} && ListsActive(log[n].listed, s.pods)
            && w.uid == s.workload.uid && w.spec.selector == s.workload.spec.selector
            && w.uid == start.workload.uid && w.spec.selector == start.workload.spec.selector
  {
    hide Legal, Orphans, Sound, Fits, WorksFrom, ListsActive;
    PrefixLegal(start, log, n);
    NoOrphans(start, log[..n]);
    ReplayKeepsIdentity(start, log[..n]);
  }

  lemma AllBearable(start: State, log: seq<Event>, n: nat, k: nat, calls: seq<Event>)
    requires Consistent({}, start) && Legal(start, log) && ListedAt(start, log, n) && n <= k <= |log|
    requires var s := Replay(start, log[..n]); PodCallsOf(log[n..k]) <= calls && forall e <- calls :: PodCall(s, e)
    ensures forall e <- log[n..k] :: Bearable(Replay(start, log[..n]), e)
  {
    hide Legal, Consistent, Orphans, Permits, PodCall, WellKeyed, ListsActive, Bearable, WorksFrom, Where, Replay,
      PodCallsOf;
    ListingGrounds(start, log, n);
    var s, w := Replay(start, log[..n]), Where(log[..n]).w;
    forall e | e in log[n..k]
      ensures Bearable(s, e)
    {
      var j :| 0 <= j < k - n && log[n..k][j] == e;
      if j == 0 {
        ListingBearable(s, e);
      } else {
        LegalAt(start, log, n + j);
        if IsPodCall(e) {
          PodCallIn(log[n..k], e);
        }
        PermittedBearable(s, w, log[n].listed, Where(log[..n + j]), Replay(start, log[..n + j]), e);
      }
    }
  }

  /** Once it rolls out, the pass is one from the pods that were listed. */
  lemma RollsFromListing(start: State, log: seq<Event>, n: nat, t: Pass)
    requires Consistent({}, start) && Legal(start, log) && ListedAt(start, log, n) && Where(log).Rolling?
    requires var ctl := Where(log);
             ctl.w.spec.replicas.Some? && PassOf(ctl.w, ctl.claimed, ctl.current, ctl.update, t)
    ensures var ctl := Where(log);
            PassFrom(Goal(ctl.w.spec, ctl.current.name, ctl.update.name, Made(ctl.w.uid, ctl.current),
                          Made(ctl.w.uid, ctl.update)),
                     Replay(start, log[..n]), ctl.claimed, t)
  {
    hide Legal, Orphans, Permits, ListsActive, Made, Claims, IsPass, Mine, RevisionOf, Where, Replay, Fits, Data,
      FullyRolledOut, IsMadeOfStored, IsOrphan, WellKeyed;
    ListingGrounds(start, log, n);
    var s, ctl := Replay(start, log[..n]), Where(log);
    assert WorksFrom(ctl, Where(log[..n]).w, log[n].listed) by {
      assert log[..|log|] == log;
    }
    ListedOwn(s, ctl.w, log[n].listed);
    NoOrphans(start, log);
    ReplayKeepsIdentity(start, log);
    var end := Replay(start, log);
    assert IsSnapshot(end.workload.spec.selector, end.revisions[ctl.current.name].data);
    assert IsSnapshot(end.workload.spec.selector, end.revisions[ctl.update.name].data);
    MadePod(ctl.w.uid, ctl.w.spec.selector, ctl.current, Made(ctl.w.uid, ctl.current));
    MadePod(ctl.w.uid, ctl.w.spec.selector, ctl.update, Made(ctl.w.uid, ctl.update));
  }

  // ---- A whole pass

  lemma RollingStays(ctl: Control, s: State, e: Event)
    requires Permits(ctl, s, e)
    ensures ctl.Rolling? ==> Step(ctl, e) == ctl || Step(ctl, e).Idle?
  {
    hide Free;
  }

  lemma PodCallsRoll(ctl: Control, s: State, e: Event)
    requires !ctl.Rolling? && Permits(ctl, s, e)
    ensures !IsPodCall(e)
  {
    hide Settlement, IsNew, IsBump, IsChoice, ListsActive, Kept;
  }

  lemma PassPodCalls(w: Workload, claimed: seq<Pod>, current: Revision, update: Revision, t: Pass)
    requires w.spec.replicas.Some?
    requires if w.deleting then Calls(t) == [] else PassOf(w, claimed, current, update, t)
    ensures forall e <- Calls(t) :: IsPodCall(e)
  {
    hide Oldest, Feasible, Made, WithRevision, WithoutRevision, SlowStarted, Planned, IsPlan;
  }

  /** Up to its choice of revisions a pass has not rolled. */
  lemma {:induction false} NotRolledYet(start: State, log: seq<Event>, n: nat, k: nat)
    requires Legal(start, log) && ListedAt(start, log, n) && !Where(log).Rolling? && n < k <= |log|
    ensures !Where(log[..k]).Rolling?
    decreases |log| - k
  {
    hide Legal, Permits, ListsActive, Kept;
    if k == |log| {
      assert log[..k] == log;
    } else {
      NotRolledYet(start, log, n, k + 1);
      LegalAt(start, log, k);
      assert log[..k + 1][..k] == log[..k];
      RollingStays(Where(log[..k]), Replay(start, log[..k]), log[k]);
      assert WorksFrom(Where(log[..k + 1]), Where(log[..n]).w, log[n].listed);
    }
  }

  /** So it has not called on a pod to be created or deleted. */
  lemma NoPodCallsYet(start: State, log: seq<Event>, n: nat)
    requires Legal(start, log) && ListedAt(start, log, n) && !Where(log).Rolling?
    ensures PodCallsOf(log[n..]) == []
  {
    hide Legal, Permits, ListsActive, WorksFrom, Where, PodCallsOf;
    forall e | e in log[n..]
      ensures !IsPodCall(e)
    {
      var j :| 0 <= j < |log| - n && log[n..][j] == e;
      if j > 0 {
        LegalAt(start, log, n + j);
        NotRolledYet(start, log, n, n + j);
        PodCallsRoll(Where(log[..n + j]), Replay(start, log[..n + j]), e);
      }
    }
    NoPodCalls(log[n..]);
  }

  lemma NoPodReported(a: Account)
    requires a.reporting == [] || StatusCalls(a.status, RETRY_STEPS, a.reportErr, a.reporting)
    ensures forall e <- a.reporting :: !IsPodCall(e)
  {
    forall e | e in a.reporting
      ensures !IsPodCall(e)
    {
      var n := |a.reporting| - 1;
      assert a.reporting == a.reporting[..n] + [a.reporting[n]];
    }
  }

  /** The pod calls of a pass are those it plans, whatever else it does. */
  lemma PodCallsOfRolling(w: Workload, claimed: seq<Pod>, current: Revision, update: Revision, a: Account)
    requires Rolls(w, claimed, current, update, a)
    ensures PodCallsOf(RollingCalls(a)) == Calls(a.pass)
  {
    hide PodCallsOf, Reports, InconsistentStatus, PassOf, Surplus, StopsWith, Succeeds, StatusCalls;
    PassPodCalls(w, claimed, current, update, a.pass);
    NoPodReported(a);
    assert forall e <- a.truncating :: !IsPodCall(e);
    OnlyPodCalls(Calls(a.pass));
    NoPodCalls(a.reporting);
    NoPodCalls(a.truncating);
    PodCallsConcat(Calls(a.pass), a.reporting);
    PodCallsConcat(Calls(a.pass) + a.reporting, a.truncating);
  }

  lemma ListedInside(start: State, log: seq<Event>, n: nat)
    requires ListedAt(start, log, n)
    ensures n < |log|
  {
  }

  lemma ListedWorks(start: State, log: seq<Event>, n: nat, k: nat)
    requires ListedAt(start, log, n) && n < k <= |log|
    ensures !Where(log[..k]).Idle?
  {
    assert WorksFrom(Where(log[..k]), Where(log[..n]).w, log[n].listed);
  }

  lemma PassCallsArePodCalls(g: Goal, s: State, claimed: seq<Pod>, t: Pass)
    requires PassFrom(g, s, claimed, t)
    ensures forall e <- Calls(t) :: PodCall(s, e)
  {
    hide PassFrom, PodCall;
    PassIsPodCalls(g, s, claimed, t);
  }

  /** From the listing of its pods on, and up to now, a pass has kept enough of them at every moment. */
  ghost predicate KeptEnough(start: State, from: nat, log: seq<Event>)
    requires Where(log).Rolling?
  {
    var ctl := Where(log);
    exists n | from <= n < |log| :: ListedAt(start, log, n)
      && forall k | n <= k <= |log| ::
           KeepsEnough(ctl.w.spec, ctl.current.name, ctl.update.name, Replay(start, log[..n]), log[n..k])
  }

  lemma ChoiceWorks(start: State, chosen: seq<Event>, n: nat)
    requires Legal(start, chosen) && JustChosen(chosen) && ListedAt(start, chosen[..|chosen| - 1], n)
    ensures WorksFrom(Where(chosen), Where(chosen[..n]).w, chosen[n].listed)
    ensures !IsPodCall(chosen[|chosen| - 1]) && Legal(start, chosen[..|chosen| - 1])
  {
    hide Legal, Permits, ListsActive, Kept;
    var before, e := chosen[..|chosen| - 1], chosen[|chosen| - 1];
    assert before + [e] == chosen && before[..|before|] == before && before[..n] == chosen[..n];
    LastPermitted(start, before, e);
    StepBack(Where(before), Replay(start, before), e);
    PodCallsRoll(Where(before), Replay(start, before), e);
  }

  /** While it rolls out, a pass stays where it is. */
  lemma RollsOn(start: State, chosen: seq<Event>, log: seq<Event>, n: nat)
    requires Legal(start, chosen) && JustChosen(chosen) && ListedAt(start, chosen[..|chosen| - 1], n)
    requires FreeSince(start.workload.spec.selector, Where(chosen), chosen, log)
    ensures Legal(start, log) && Where(log) == Where(chosen) && ListedAt(start, log, n)
  {
    hide Legal, Free, Permits, ListsActive, Kept, WorksFrom, Where, Replay;
    FreeExtends(start, chosen, log);
    ChoiceWorks(start, chosen, n);
    var before := chosen[..|chosen| - 1];
    assert log[..n] == before[..n] == chosen[..n];
    forall k | n < k <= |log|
      ensures WorksFrom(Where(log[..k]), Where(log[..n]).w, log[n].listed)
    {
      if k < |chosen| {
        assert log[..k] == before[..k];
      } else {
        assert log[..k][..|chosen|] == chosen;
        FreeExtends(start, chosen, log[..k]);
      }
    }
  }

  lemma NoPodCallsToChoice(start: State, chosen: seq<Event>, n: nat)
    requires Legal(start, chosen) && JustChosen(chosen) && ListedAt(start, chosen[..|chosen| - 1], n)
    ensures PodCallsOf(chosen[n..]) == []
  {
    hide Legal, ListedAt, Where, PodCallsOf, WorksFrom;
    ChoiceWorks(start, chosen, n);
    var before, last := chosen[..|chosen| - 1], [chosen[|chosen| - 1]];
    NoPodCallsYet(start, before, n);
    NoPodCalls(last);
    assert n <= |before| by {
      ListedInside(start, before, n);
    }
    assert chosen[n..] == before[n..] + last;
    PodCallsConcat(before[n..], last);
  }

  lemma SameRest(a: seq<Event>, b: seq<Event>, c: seq<Event>)
    requires a + b == a + c
    ensures b == c
  {
    assert (a + b)[|a|..] == b && (a + c)[|a|..] == c;
  }

  lemma PodCallsWhileRolling(chosen: seq<Event>, log: seq<Event>, a: Account, w: Workload, claimed: seq<Pod>,
                             current: Revision, update: Revision)
    requires Did(chosen, log, RollingCalls(a)) && Rolls(w, claimed, current, update, a)
    ensures PodCallsOf(log[|chosen|..]) == Calls(a.pass)
  {
    hide Rolls, RollingCalls, Calls, PodCallsOf, CallsOf;
    var rest := log[|chosen|..];
    assert chosen + rest == log;
    CallsConcat(chosen, rest);
    SameRest(CallsOf(chosen), CallsOf(rest), RollingCalls(a));
    PodCallsAreCalls(rest);
    PodCallsOfRolling(w, claimed, current, update, a);
  }

  /** Since its pods were listed a pass has made no pod call but those of its plan. */
  lemma PodCallsSince(start: State, chosen: seq<Event>, log: seq<Event>, n: nat, k: nat, a: Account)
    requires Legal(start, chosen) && JustChosen(chosen) && ListedAt(start, chosen[..|chosen| - 1], n)
    requires Did(chosen, log, RollingCalls(a)) && n <= k <= |log|
    requires var ctl := Where(chosen); Rolls(ctl.w, ctl.claimed, ctl.current, ctl.update, a)
    ensures PodCallsOf(log[n..k]) <= Calls(a.pass)
  {
    hide Legal, Rolls, ListedAt, Where, Calls, RollingCalls, PodCallsOf, CallsOf;
    var ctl := Where(chosen);
    NoPodCallsToChoice(start, chosen, n);
    PodCallsWhileRolling(chosen, log, a, ctl.w, ctl.claimed, ctl.current, ctl.update);
    ListedInside(start, chosen[..|chosen| - 1], n);
    assert log[n..] == chosen[n..] + log[|chosen|..];
    PodCallsConcat(chosen[n..], log[|chosen|..]);
    assert PodCallsOf(log[n..]) == Calls(a.pass);
    assert log[n..] == log[n..k] + log[k..];
    PodCallsConcat(log[n..k], log[k..]);
  }

  /** The listing belongs to the pass. */
  lemma ListedSince(start: State, from: seq<Event>, chosen: seq<Event>) returns (n: nat)
    requires Legal(start, chosen) && JustChosen(chosen) && from <= chosen && Where(from).Idle?
    ensures |from| <= n && ListedAt(start, chosen[..|chosen| - 1], n)
  {
    hide Legal, ListedAt, Where;
    var before := chosen[..|chosen| - 1];
    PrefixLegal(start, chosen, |before|);
    n := PassListed(start, before);
    ListedInside(start, before, n);
    assert |from| == |chosen| ==> from == chosen;
    if n < |from| {
      assert before[..|from|] == from;
      ListedWorks(start, before, n, |from|);
    }
  }

  /** At one moment. */
  lemma EnoughAt(start: State, chosen: seq<Event>, log: seq<Event>, n: nat, k: nat, a: Account)
    requires Consistent({}, start) && Legal(start, chosen) && JustChosen(chosen)
    requires ListedAt(start, chosen[..|chosen| - 1], n) && n <= k <= |log|
    requires FreeSince(start.workload.spec.selector, Where(chosen), chosen, log) && Did(chosen, log, RollingCalls(a))
    requires var ctl := Where(chosen); Rolls(ctl.w, ctl.claimed, ctl.current, ctl.update, a)
    ensures var ctl := Where(chosen);
            KeepsEnough(ctl.w.spec, ctl.current.name, ctl.update.name, Replay(start, log[..n]), log[n..k])
  {
    hide Legal, ListedAt, PodCallsOf, CallsOf, Consistent, Free, FreeSince, KeepsEnough, Bearable, PassOf, Did, RollingCalls,
      Reports, Surplus, PodCall, PassFrom, Calls;
    var ctl, s := Where(chosen), Replay(start, log[..n]);
    RollsOn(start, chosen, log, n);
    PodCallsSince(start, chosen, log, n, k, a);
    if ctl.w.deleting {
      AllBearable(start, log, n, k, []);
      ListingGrounds(start, log, n);
      NoCallsAmongOthers(ctl.w.spec, ctl.current.name, ctl.update.name, s, log[n..k]);
    } else {
      RollsFromListing(start, log, n, a.pass);
      var g := Goal(ctl.w.spec, ctl.current.name, ctl.update.name, Made(ctl.w.uid, ctl.current),
                    Made(ctl.w.uid, ctl.update));
      PassCallsArePodCalls(g, s, ctl.claimed, a.pass);
      AllBearable(start, log, n, k, Calls(a.pass));
      FloorAmongOthers(g, s, ctl.claimed, a.pass, log[n..k]);
    }
  }

  /** Whatever others do meanwhile, and whichever calls are refused: from the listing of its pods to its end a pass keeps
      at every moment the pods it had or should have, less those that died, and never has more than it had plus its
      replicas; on either side of the partition too, where two revisions are in play. */
  lemma PassKeepsEnough(start: State, from: seq<Event>, chosen: seq<Event>, log: seq<Event>, a: Account)
    requires Consistent({}, start) && Legal(start, chosen) && JustChosen(chosen)
    requires from <= chosen && Where(from).Idle?
    requires FreeSince(start.workload.spec.selector, Where(chosen), chosen, log) && Did(chosen, log, RollingCalls(a))
    requires var ctl := Where(chosen); Rolls(ctl.w, ctl.claimed, ctl.current, ctl.update, a)
    ensures Where(log) == Where(chosen) && KeptEnough(start, |from|, log)
  {
    hide Legal, ListedAt, Where, Replay, PodCallsOf, CallsOf, Consistent, Free, FreeSince, KeepsEnough, Did, Rolls;
    var n := ListedSince(start, from, chosen);
    RollsOn(start, chosen, log, n);
    forall k | n <= k <= |log|
      ensures var ctl := Where(log);
              KeepsEnough(ctl.w.spec, ctl.current.name, ctl.update.name, Replay(start, log[..n]), log[n..k])
    {
      EnoughAt(start, chosen, log, n, k, a);
    }
    ListedInside(start, log, n);
  }
}
