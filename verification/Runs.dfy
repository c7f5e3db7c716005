/** The controller run again and again: among others' actions and failing calls, and undisturbed. */
module Runs {
  import opened Objects
  import opened Cluster
  import opened Server
  import opened Planner
  import opened Rollout
  import opened Guarantees
  import opened Availability
  import opened Executor
  import opened History
  import opened Protocol
  import opened Activation
  import opened Sweeps
  import opened Convergence
  import opened Controller

  /** Others act between two passes. */
  method Disturb(c: Client)
    requires Reached(c, Idle)
    modifies c
    ensures Reached(c, Idle)
  {
    hide Legal, Consistent, Where, Replay, Environment, CallsOf;
    c.Interfere();
    ReadingExtends(c.start, old(c.log), c.log);
  }

  /** Passes with others' actions before, between and within them, any call of which may fail. */
  method Run(c: Client, nameOf: Namer, passes: nat)
    requires Reached(c, Idle) && ProperNames(nameOf)
    modifies c
    ensures Reached(c, Idle)
    ensures forall k | 0 <= k <= |c.log| :: Consistent(Orphans(c.start), Replay(c.start, c.log[..k]))
  {
    hide Client.Valid, Legal, Consistent, Where, Replay, CallsOf, Passed, AllCalls, AnswersIn, LosesReread;
    for i := 0 to passes
      invariant Reached(c, Idle)
    {
      Disturb(c);
      var err;
      ghost var x, a;
      err, x, a := Reconcile(c, nameOf);
    }
    EveryMomentConsistent(c.start, c.log);
  }

  lemma AtRestOutside(c: Client)
    requires Reached(c, Idle) && !c.s.workload.deleting
    ensures Base(c.s)
  {
    hide Sound, Fits, Legal;
    ReachedInv(c, Idle);
  }

  lemma NotDeleting(s: State)
    requires Base(s)
    ensures !s.workload.deleting && s.workload.spec.replicas.Some?
  {
  }

  /** Passes that nobody disturbs and in which no call fails without cause: the store is at rest after the third, and
      at the goal exactly if the first plan can be carried out. */
  method RunUndisturbed(c: Client, nameOf: Namer, passes: nat) returns (ghost states: seq<State>, ghost sweeps: seq<Sweep>)
    requires Reached(c, Idle) && ProperNames(nameOf)
    requires c.calm && c.reliable && !c.s.workload.deleting && WellOwned(c.s)
    modifies c
    ensures Reached(c, Idle)
    ensures InARow(states, sweeps) && |sweeps| == passes
    ensures states[0] == old(c.s) && states[passes] == c.s
    ensures passes > 3 ==> c.s == states[3]
    ensures passes > 0 ==> (AtGoal(c.s, sweeps[0].update.name) <==> FirstPlanFits(states[0], sweeps[0]))
  {
    hide Client.Valid, Legal, Consistent, Where, Replay, IsSweep, Base, WellOwned, FirstPlanFits, AtGoal, CallsOf, Passed,
      AllCalls, AnswersIn, LosesReread;
    AtRestOutside(c);
    states, sweeps := [c.s], [];
    for i := 0 to passes
      invariant Reached(c, Idle) && InARow(states, sweeps) && |sweeps| == i
      invariant states[0] == old(c.s) && states[i] == c.s
      invariant Base(c.s)
    {
      NotDeleting(c.s);
      var err;
      ghost var before, x, a;
      before := c.s;
      err, x, a := Reconcile(c, nameOf);
      SweepLeaves(before, x, c.s);
      states, sweeps := states + [c.s], sweeps + [x];
    }
    if passes > 0 {
      Quiescence(states, sweeps, passes);
    }
  }

  // ---- Scaling again and again, whatever fails

  /** The listed pods that are the workload's own. */
  method OwnPods(pods: seq<Pod>, s: State) returns (own: seq<Pod>)
    requires WellKeyed(s) && ListsPods(pods, s.pods)
    ensures Claims(s, own)
  {
    own := [];
    for i := 0 to |pods|
      invariant forall p <- own :: p in pods[..i] && p.id in Own(s) && s.pods[p.id] == p
      invariant forall p <- pods[..i] :: p.id in Own(s) ==> p in own
      invariant DistinctIds(own)
    {
      assert pods[i] in pods;
      if Mine(s.workload.uid, s.workload.spec.selector, pods[i]) {
        own := own + [pods[i]];
      }
    }
    assert pods[..|pods|] == pods;
    forall i | i in Own(s)
      ensures s.pods[i] in own
    {
      assert s.pods[i] in pods;
    }
  }

  lemma CalmPass(c: Client, before: seq<Event>, after: seq<Event>, g: Goal, t: Pass)
    requires c.calm && PassLogged(c, before, after, g.currentPod, g.updatedPod, t)
    ensures after == before + Calls(t)
  {
    assert before + t.creates + t.deletes == before + Calls(t);
  }

  /** The goal is the spec's, with pods of both templates that the workload will own. */
  predicate ScalesTowards(s: State, g: Goal, currentPW: Spec, updatedPW: Spec, current: Name, update: Name) {
    && updatedPW.replicas.Some?
    && Fits(s.workload.spec.selector, currentPW.template.labels)
    && Fits(s.workload.spec.selector, updatedPW.template.labels)
    && g == Goal(updatedPW, current, update, VersionedPod(s.workload.uid, currentPW.template, current),
                 VersionedPod(s.workload.uid, updatedPW.template, update))
  }

  lemma VersionedIsMine(uid: Uid, selector: Labels, template: Template, revision: Name)
    requires Fits(selector, template.labels)
    ensures var p := VersionedPod(uid, template, revision); Mine(uid, selector, p) && RevisionOf(p) == revision
  {
    assert VersionedPod(uid, template, revision).owners == [OwnerRef(uid, true)];
  }

  lemma CalmPassKeeps(g: Goal, s: State, claimed: seq<Pod>, t: Pass, currentPW: Spec, updatedPW: Spec, current: Name,
                      update: Name)
    requires ScalesTowards(s, g, currentPW, updatedPW, current, update) && WellKeyed(s) && Claims(s, claimed)
    requires IsPass(g.pw, claimed, g.current, g.update, g.currentPod, g.updatedPod, t)
    ensures PassFrom(g, s, claimed, t) && Replay(s, Calls(t)).workload == s.workload
  {
    hide IsPass, Claims, WellKeyed, PodCalls, Replay;
    VersionedIsMine(s.workload.uid, s.workload.spec.selector, currentPW.template, current);
    VersionedIsMine(s.workload.uid, s.workload.spec.selector, updatedPW.template, update);
    PassIsPodCalls(g, s, claimed, t);
    ReplayPods(s, Calls(t));
  }

  /** Lists the pods and scales them, once. */
  method ScaleOnce(c: Client, ghost g: Goal, currentPW: Spec, updatedPW: Spec, current: Name, update: Name)
      returns (listed: bool, ghost claimed: seq<Pod>, ghost t: Pass)
    requires c.Valid() && c.calm && ScalesTowards(c.s, g, currentPW, updatedPW, current, update)
    modifies c
    ensures c.Valid() && c.s.workload == old(c.s).workload
    ensures listed ==> PassFrom(g, old(c.s), claimed, t) && c.s == Replay(old(c.s), Calls(t))
    ensures !listed ==> c.s == old(c.s)
    ensures c.reliable ==> listed
  {
    hide CallsOf, Replay, Mine, IsPass, Succeeds, Feasible, PassLogged, VersionedPod, Claims, Deletable, WellKeyed;
    claimed, t := [], Pass(Diffs(0, 0, 0, 0), [], [], [], []);
    var err, pods := c.ListPods();
    if err.Some? {
      return false, claimed, t;
    }
    var own := OwnPods(pods, c.s);
    var slice := new Pod[|own|](i requires 0 <= i < |own| => own[i]);
    assert slice[..] == own;
    ghost var log0 := c.log;
    err, t := ScaleAndUpdate(c, c.s.workload.uid, currentPW, updatedPW, current, update, slice);
    assert slice[..] == own;
    CalmPass(c, log0, c.log, g, t);
    ReplayConcat(c.start, log0, Calls(t));
    CalmPassKeeps(g, old(c.s), own, t, currentPW, updatedPW, current, update);
    return true, own, t;
  }

  /** Scaling again and again towards the same goal with calls that may be refused: the passes start each from what the
      one before left, so they reach the goal if each that is not there lands a call. */
  method ScaleRepeatedly(c: Client, ghost g: Goal, currentPW: Spec, updatedPW: Spec, current: Name, update: Name,
                         rounds: nat)
      returns (ghost states: seq<State>, ghost claims: seq<seq<Pod>>, ghost passes: seq<Pass>)
    requires c.Valid() && c.calm && ScalesTowards(c.s, g, currentPW, updatedPW, current, update)
    modifies c
    ensures c.Valid() && g.pw.replicas.Some? && Repeats(g, states, claims, passes)
    ensures states[0] == old(c.s) && states[|passes|] == c.s && |passes| <= rounds
    ensures c.reliable ==> |passes| == rounds
    ensures (forall i | 0 <= i < |passes| :: Distance(g, states[i]) == 0 || Done(Calls(passes[i])) > 0) ==>
              Distance(g, c.s) <= Max(0, Distance(g, old(c.s)) - |passes|)
  {
    hide Client.Valid, Replay, PassFrom, Distance, Done, CallsOf, VersionedPod, Fits;
    states, claims, passes := [c.s], [], [];
    for i := 0 to rounds
      invariant c.Valid() && ScalesTowards(c.s, g, currentPW, updatedPW, current, update)
      invariant Repeats(g, states, claims, passes)
      invariant states[0] == old(c.s) && states[|passes|] == c.s && |passes| <= i
      invariant c.reliable ==> |passes| == i
    {
      var listed;
      ghost var claimed, t;
      listed, claimed, t := ScaleOnce(c, g, currentPW, updatedPW, current, update);
      if listed {
        states, claims, passes := states + [c.s], claims + [claimed], passes + [t];
      }
    }
    if forall i | 0 <= i < |passes| :: Distance(g, states[i]) == 0 || Done(Calls(passes[i])) > 0 {
      RepeatedPassesArrive(g, states, claims, passes);
    }
  }
}
