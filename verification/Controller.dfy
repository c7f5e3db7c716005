/** The second half of a pass: rolling, reporting and truncating the history; and the whole of it. */
module Controller {
  import opened Objects
  import opened Snapshot
  import opened Cluster
  import opened Server
  import opened Planner
  import opened Rollout
  import opened Guarantees
  import opened Executor
  import opened History
  import opened Ownership
  import opened Reporting
  import opened Protocol
  import opened Activation
  import opened Truncation
  import opened Sweeps
  import opened Resilience

  // ---- Rolling

  lemma InvRolling(c: Client, w: Workload, claimed: seq<Pod>, current: Revision, update: Revision)
    requires Reached(c, Rolling(w, claimed, current, update))
    ensures w.spec.replicas.Some? && w.uid == c.s.workload.uid
    ensures update.data == Data(w.spec.template) && current.data == Data(Restored(current.data))
    ensures current.name in c.s.revisions && update.name in c.s.revisions
  {
    hide Legal, Reached, Data, Restored, IsMadeOfStored;
    ReachedInv(c, Rolling(w, claimed, current, update));
    assert IsSnapshot(c.s.workload.spec.selector, c.s.revisions[current.name].data);
  }

  lemma NothingDone(selector: Labels, ctl: Control, log: seq<Event>)
    ensures FreeSince(selector, ctl, log, log) && Did(log, log, []) && NamesOf([]) == {}
  {
    DidNothing(log);
  }

  lemma PassIsFree(c: Client, ctl: Control, before: seq<Event>, after: seq<Event>, t: Pass)
    requires c.exclusive && ctl.Rolling? && !ctl.w.deleting
    requires PassLogged(c, before, after, Made(ctl.w.uid, ctl.current), Made(ctl.w.uid, ctl.update), t)
    ensures Did(before, after, Calls(t)) && (c.calm ==> after == before + t.creates + t.deletes)
    ensures FreeSince(c.Selector(), ctl, before, after)
  {
    hide Made, Matches, CallsOf;
  }

  lemma MadeFrom(uid: Uid, r: Revision, template: Template)
    requires Restored(r.data) == template
    ensures VersionedPod(uid, template, r.name) == Made(uid, r)
  {
  }

  /** Scales and updates, unless the workload is being deleted; a failure shows in the status. */
  method SyncPods(c: Client, w: Workload, newStatus: Status, current: Revision, update: Revision, pods: array<Pod>)
      returns (err: Option<Error>, status: Status, ghost t: Pass)
    requires Reached(c, Rolling(w, pods[..], current, update))
    modifies c
    ensures Reached(c, Rolling(w, pods[..], current, update)) && w.spec.replicas.Some?
    ensures w.deleting ==> err.None? && c.s == old(c.s) && Calls(t) == []
    ensures Did(old(c.log), c.log, Calls(t))
    ensures FreeSince(c.Selector(), Rolling(w, pods[..], current, update), old(c.log), c.log)
    ensures status == newStatus.(failedScale := newStatus.failedScale || err.Some?)
    ensures !w.deleting ==>
              && PassOf(w, pods[..], current, update, t)
              && (err.None? <==> Succeeds(pods[..], update.name, t))
              && (err.Some? ==> StopsWith(pods[..], update.name, t, err.value))
              && (c.reliable ==> AllCreated(t.creates))
              && (c.calm && c.reliable && Deletable(pods[..], old(c.s)) ==>
                    (Feasible(pods[..], update.name, t.diffs) <==> Succeeds(pods[..], update.name, t)))
    ensures c.calm && !w.deleting ==> c.s == Replay(old(c.s), Calls(t))
    ensures c.s.revisions == old(c.s).revisions && c.s.workload.status == old(c.s).workload.status
  {
    hide Legal, Consistent, Where, Free, Replay, Environment, Data, Restored, Made, VersionedPod, IsPass, Succeeds, PassLogged,
      ApplyRevision, Deletable, Feasible, CallsOf, FreeSince, StopsWith;
    NothingDone(c.Selector(), Rolling(w, pods[..], current, update), c.log);
    status := newStatus;
    t := Pass(Diffs(0, 0, 0, 0), [], [], [], []);
    InvRolling(c, w, pods[..], current, update);
    if w.deleting {
      return None, newStatus, t;
    }
    ApplySnapshot(w.spec, Restored(current.data));
    ApplySnapshot(w.spec, w.spec.template);
    RestoredData(w.spec.template);
    var currentPW := ApplyRevision(w.spec, current.data);
    var updatedPW := ApplyRevision(w.spec, update.data);
    MadeFrom(w.uid, current, currentPW.template);
    MadeFrom(w.uid, update, updatedPW.template);
    err, t := ScaleAndUpdate(c, w.uid, currentPW, updatedPW, current.name, update.name, pods);
    PassIsFree(c, Rolling(w, pods[..], current, update), old(c.log), c.log, t);
    FreeExtends(c.start, old(c.log), c.log);
    ReplayConcat(c.start, old(c.log), t.creates + t.deletes);
    assert old(c.log) + t.creates + t.deletes == old(c.log) + (t.creates + t.deletes);
    if err.Some? {
      status := status.(failedScale := true);
    }
  }

  // ---- Reporting

  lemma ReportIsFree(c: Client, ctl: Control, blank: Status, status: Status, before: seq<Event>, after: seq<Event>,
                     written: bool)
    requires c.exclusive && ctl.Rolling? && ctl.w.spec.replicas.Some?
    requires Reports(ctl.w.spec, blank, ctl.claimed, status)
    requires blank.current == ctl.current.name && blank.update == ctl.update.name
    requires WritesAtMostOnce(c, before, after, status, written)
    ensures FreeSince(c.Selector(), ctl, before, after)
  {
    hide FullyRolledOut;
  }

  lemma WrittenOnce(c: Client, start: State, before: seq<Event>, after: seq<Event>, status: Status, written: bool)
    requires c.calm && c.reliable && WritesAtMostOnce(c, before, after, status, written)
    ensures written ==> Replay(start, after) == Next(Replay(start, before), StatusWritten(status))
  {
    if written {
      assert after == before + [StatusWritten(status)];
      ReplayOne(start, before, StatusWritten(status));
    }
  }

  /** Reports on the claimed pods. */
  method Report(c: Client, w: Workload, blank: Status, ghost current: Revision, ghost update: Revision, pods: array<Pod>)
      returns (err: Option<Error>, ghost status: Status, ghost calls: seq<Event>)
    requires Reached(c, Rolling(w, pods[..], current, update))
    requires blank.replicas == blank.updated == 0 && blank.current == current.name && blank.update == update.name
    modifies c
    ensures Reached(c, Rolling(w, pods[..], current, update)) && w.spec.replicas.Some?
    ensures Reports(w.spec, blank, pods[..], status) && Did(old(c.log), c.log, calls)
    ensures FreeSince(c.Selector(), Rolling(w, pods[..], current, update), old(c.log), c.log)
    ensures if InconsistentStatus(w.status, status) then StatusCalls(status, RETRY_STEPS, err, calls)
            else err.None? && calls == []
    ensures err == Some(Conflict) ==> |calls| == 4
    ensures c.s.revisions == old(c.s).revisions
    ensures c.calm && c.reliable ==>
              && err.None?
              && c.s == if InconsistentStatus(w.status, status) then Next(old(c.s), StatusWritten(status)) else old(c.s)
  {
    hide Legal, Consistent, Where, Free, Environment, Reports, InconsistentStatus, Conflicted, IsTry, CallsOf,
      FreeSince;
    InvRolling(c, w, pods[..], current, update);
    err, status, calls := UpdateStatus(c, w, blank, pods, RETRY_STEPS);
    ReportIsFree(c, Rolling(w, pods[..], current, update), blank, status, old(c.log), c.log,
                 err.None? && InconsistentStatus(w.status, status));
    FreeExtends(c.start, old(c.log), c.log);
    if c.calm && c.reliable {
      WrittenOnce(c, c.start, old(c.log), c.log, status, InconsistentStatus(w.status, status));
    }
  }

  // ---- Truncating

  lemma CollectingIsFree(c: Client, ctl: Control, before: seq<Event>, after: seq<Event>, name: Name)
    requires ctl.Rolling? && c.exclusive && before < after
    requires NoiseOnly(c.Selector(), c.exclusive, after, |before|, |after| - 1)
    requires var last := after[|after| - 1];
             last == RevisionDeleted(name) || (last.RevisionDeleteFailed? && last.name == name)
    requires !IsLive(ctl.claimed, ctl.current.name, ctl.update.name, name)
    ensures FreeSince(c.Selector(), ctl, before, after)
  {
    hide Environment, IsLive;
    forall k | |before| <= k < |after|
      ensures Free(c.Selector(), ctl, after[k])
    {
      if k < |after| - 1 {
        NoiseIsFree(c.Selector(), ctl, after[k]);
      }
    }
  }

  /** Collects the listed revisions that no pod runs and that are neither current nor update. */
  method FindNonLive(revisions: seq<Revision>, pods: array<Pod>, current: Name, update: Name)
      returns (nonLiveRevisions: seq<Revision>)
    ensures nonLiveRevisions == NonLive(revisions, pods[..], current, update)
  {
    nonLiveRevisions := [];
    for i := 0 to |revisions|
      invariant nonLiveRevisions == NonLive(revisions[..i], pods[..], current, update)
    {
      assert revisions[..i + 1][..i] == revisions[..i];
      if revisions[i].name != current && revisions[i].name != update {
        var found := false;
        for j := 0 to pods.Length
          invariant !found && forall k | 0 <= k < j :: RevisionOf(pods[k]) != revisions[i].name
        {
          if EqualToRevisionHash(pods[j], revisions[i].name) {
            found := true;
            break;
          }
        }
        assert found <==> exists p <- pods[..] :: RevisionOf(p) == revisions[i].name;
        if !found {
          nonLiveRevisions := nonLiveRevisions + [revisions[i]];
        }
      }
    }
    assert revisions[..|revisions|] == revisions;
  }

  lemma NotDeletedBefore(victims: seq<Revision>, i: nat)
    requires i < |victims| && Rising(victims)
    ensures victims[i].name !in NamesOf(victims[..i])
    ensures NamesOf(victims[..i + 1]) == NamesOf(victims[..i]) + {victims[i].name}
  {
    assert victims[..i + 1] == victims[..i] + [victims[i]];
  }

  lemma InNames(victims: seq<Revision>, i: nat)
    requires i < |victims|
    ensures victims[i].name in NamesOf(victims)
  {
  }

  method DeleteRevisions(c: Client, ghost ctl: Control, victims: seq<Revision>)
      returns (err: Option<Error>, ghost done: nat, ghost calls: seq<Event>)
    requires Reached(c, ctl) && ctl.Rolling? && Rising(victims)
    requires forall v <- victims :: !IsLive(ctl.claimed, ctl.current.name, ctl.update.name, v.name)
    modifies c
    ensures Reached(c, ctl)
    ensures done <= |victims| && (err.None? <==> done == |victims|)
    ensures TruncatingCalls(victims, done, calls) && Did(old(c.log), c.log, calls)
    ensures FreeSince(c.Selector(), ctl, old(c.log), c.log)
    ensures c.s.revisions == old(c.s).revisions - NamesOf(victims[..done])
    ensures victims == [] ==> c.s == old(c.s)
    ensures c.calm ==> OnlyRevisionsDiffer(old(c.s), c.s)
    ensures c.reliable && NamesOf(victims) <= old(c.s).revisions.Keys ==> err.None?
  {
    hide Client.Valid, Legal, Consistent, Where, Free, Replay, Environment, IsLive, Rising, NamesOf, FreeSince, CallsOf;
    ghost var log0 := c.log;
    done, calls := 0, [];
    NothingDone(c.Selector(), ctl, log0);
    for i := 0 to |victims|
      invariant c.Valid() && FreeSince(c.Selector(), ctl, log0, c.log) && done == i
      invariant |calls| == i && Did(log0, c.log, calls)
      invariant forall k | 0 <= k < i :: calls[k] == RevisionDeleted(victims[k].name)
      invariant c.s.revisions == old(c.s).revisions - NamesOf(victims[..i])
      invariant i == 0 ==> c.s == old(c.s)
      invariant c.calm ==> OnlyRevisionsDiffer(old(c.s), c.s)
    {
      ghost var middle := c.log;
      NotDeletedBefore(victims, i);
      InNames(victims, i);
      err := c.DeleteRevision(victims[i].name);
      CollectingIsFree(c, ctl, middle, c.log, victims[i].name);
      FreeSinceMore(c.Selector(), ctl, log0, middle, c.log);
      DidMore(log0, middle, c.log, calls, [c.Last()]);
      calls := calls + [c.Last()];
      if err.Some? {
        FreeExtends(c.start, log0, c.log);
        return;
      }
      done := done + 1;
    }
    FreeExtends(c.start, log0, c.log);
    return None, done, calls;
  }

  lemma SurplusRises(revisions: seq<Revision>, pods: seq<Pod>, current: Name, update: Name)
    requires Rising(revisions)
    ensures Rising(Surplus(revisions, pods, current, update))
    ensures forall v <- Surplus(revisions, pods, current, update) :: v in revisions && !IsLive(pods, current, update, v.name)
  {
    NonLiveRises(revisions, pods, current, update);
    forall v | v in Surplus(revisions, pods, current, update)
      ensures v in revisions && !IsLive(pods, current, update, v.name)
    {
      assert v in NonLive(revisions, pods, current, update);
    }
  }

  /** Deletes the surplus from the lowest number on, until a deletion fails. */
  method TruncateHistory(c: Client, ghost w: Workload, pods: array<Pod>, revisions: seq<Revision>, current: Revision,
                         update: Revision)
      returns (err: Option<Error>, ghost done: nat, ghost calls: seq<Event>)
    requires Reached(c, Rolling(w, pods[..], current, update)) && Rising(revisions)
    modifies c
    ensures Reached(c, Rolling(w, pods[..], current, update))
    ensures var surplus := Surplus(revisions, pods[..], current.name, update.name);
            && done <= |surplus| && (err.None? <==> done == |surplus|)
            && c.s.revisions == old(c.s).revisions - NamesOf(surplus[..done])
            && (surplus == [] ==> c.s == old(c.s))
            && TruncatingCalls(surplus, done, calls)
    ensures Did(old(c.log), c.log, calls)
    ensures FreeSince(c.Selector(), Rolling(w, pods[..], current, update), old(c.log), c.log)
    ensures c.calm ==> OnlyRevisionsDiffer(old(c.s), c.s)
    ensures c.reliable && NamesOf(revisions) <= old(c.s).revisions.Keys ==> err.None?
  {
    hide Client.Valid, Legal, Consistent, Where, Free, Replay, Environment, NonLive, IsLive, Rising, CallsOf, FreeSince;
    NothingDone(c.Selector(), Rolling(w, pods[..], current, update), c.log);
    var nonLiveRevisions := FindNonLive(revisions, pods, current.name, update.name);
    var historySize := |nonLiveRevisions|;
    assert NamesOf([]) == {};
    if historySize <= DEFAULT_HISTORY_LIMIT {
      return None, 0, [];
    }
    SurplusRises(revisions, pods[..], current.name, update.name);
    nonLiveRevisions := nonLiveRevisions[..historySize - DEFAULT_HISTORY_LIMIT];
    err, done, calls := DeleteRevisions(c, Rolling(w, pods[..], current, update), nonLiveRevisions);
  }

  // ---- The whole pass

  lemma ReachedKeyed(c: Client, ctl: Control)
    requires Reached(c, ctl)
    ensures WellKeyed(c.s)
  {
  }

  /** From the workload read to the choice of revisions. */
  method Prepare(c: Client, nameOf: Namer, w: Workload)
      returns (err: Option<Error>, claimed: seq<Pod>, revisions: seq<Revision>, current: Revision,
               update: Revision, collisionCount: nat, ghost x: Sweep, ghost a: Account)
    requires Reached(c, Reading(w)) && ProperNames(nameOf)
    modifies c
    ensures Reached(c, if err.Some? then Where(c.log) else Rolling(w, claimed, current, update))
    ensures if err.Some? then !Where(c.log).Rolling? else JustChosen(c.log)
    ensures c.s.workload.status == old(c.s).workload.status
    ensures err.Some? ==> c.s.revisions == old(c.s).revisions
    ensures err.None? ==> Prepared(nameOf, w, old(c.s).revisions, claimed, revisions, current, update, collisionCount, a,
                                   c.s.revisions)
    ensures err.Some? ==> Passed(nameOf, Where(c.log), old(c.s).revisions, a, c.s.revisions) && !Where(c.log).Idle?
    ensures a.failure == err
    ensures RollingCalls(a) == [] && Did(old(c.log), c.log, FirstCalls(a))
    ensures Where(c.log).Activating? || Where(c.log).Rolling? ==> Since(old(c.log), c.log, Listed(a.active))
    ensures c.reliable ==> !LosesReread(AnswersIn(a.activating), RETRY_STEPS)
    ensures c.calm && c.reliable && w == old(c.s).workload ==>
              && err.None?
              && SweepClaims(old(c.s), x) && SweepActivates(old(c.s), x) && x.activated == c.s
              && x == x.(claimed := claimed, revisions := revisions, current := current, update := update,
                         collisions := collisionCount)
  {
    hide Client.Valid, Legal, Consistent, Where, Free, Replay, Environment, Kept, Settlements, Settling, ListsSorted,
      Activated, LosesReread, ProperNames, ReusesTop, IsTop, CallsOf, AnswersIn, StoresUpdate, Since, JustChosen, Passed,
      FirstCalls, RollingCalls, Did;
    claimed, revisions, collisionCount := [], [], 0;
    update := Revision("", Null, 0, None, 0);
    current := update;
    ghost var s0, log0 := c.s, c.log;
    x, a := NoSweep(s0), NoAccount(w.status);
    NothingLost();
    var active;
    err, active := GetActivePods(c, w);
    if err.Some? {
      NothingPassed(nameOf, Where(c.log), s0.revisions, w.status, err.value);
      a := Unread(w.status, err.value);
      return;
    }
    NothingPassed(nameOf, Where(c.log), s0.revisions, w.status, NotFound);
    ghost var log1, calls, gate := c.log, [], None;
    err, claimed, calls, gate := ClaimPods(c, w, active);
    DidMore(log0, log1, c.log, [], calls);
    StaysSince(log0, log1, c.log, Listed(active));
    assert [] + calls == calls;
    a := ClaimTried(w.status, active, gate, calls, err);
    ClaimingPassed(nameOf, w, active, gate, calls, err, s0.revisions, w.status);
    if err.Some? {
      return;
    }
    ghost var settled, log2 := c.s, c.log;
    err, revisions := ListSorted(c, w, claimed);
    DidMore(log0, log2, c.log, a.settling, FailedRead(err));
    StaysSince(log0, log2, c.log, Listed(active));
    if err.Some? {
      ListingPassed(nameOf, w, claimed, a, err.value, s0.revisions, w.status);
      a := a.(failure := err, activating := FailedRead(err));
      return;
    }
    assert a.settling + [] == a.settling;
    ghost var log3 := c.log;
    err, current, update, collisionCount, calls := GetActiveRevisions(c, nameOf, w, claimed, revisions);
    DidMore(log0, log3, c.log, a.settling, calls);
    StaysSince(log0, log3, c.log, Listed(active));
    ReachedKeyed(c, Where(c.log));
    ghost var a1 := a;
    a := a.(failure := err, revisions := revisions, activating := calls, activated := c.s.revisions,
            collisions := collisionCount);
    ActivatingPassed(nameOf, w, claimed, a1, a, s0.revisions, w.status);
    x := x.(active := active, claimed := claimed, settled := settled, revisions := revisions, current := current,
            update := update, activated := c.s, collisions := collisionCount);
  }

  lemma ClaimedDeletable(s: State, x: Sweep, mid: State)
    requires SweepClaims(s, x) && SweepActivates(s, x) && mid == x.activated
    ensures Deletable(x.claimed, mid)
  {
    hide Kept, Settlements, Replay, IsClaimed, Settled, ListsSorted, Activated;
    var o := OwnerOf(s.workload);
    KeptDistinct(o, x.active);
    SettlementsAreWrites(o, x.active);
    OwningKeepsIds(s, Settlements(o, x.active));
  }

  lemma PreparedRises(nameOf: Namer, w: Workload, before: map<Name, Revision>, claimed: seq<Pod>, revisions: seq<Revision>,
                      current: Revision, update: Revision, collisions: nat, a: Account, after: map<Name, Revision>)
    requires Prepared(nameOf, w, before, claimed, revisions, current, update, collisions, a, after)
    ensures Rising(revisions) && NamesOf(revisions) <= after.Keys
    ensures a.revisions == revisions && a.collisions == collisions
  {
    hide Data, IsTop, LosesReread, AnswersIn, Kept, Settlements, StoresUpdate;
  }

  lemma NoNames()
    ensures NamesOf([]) == {}
  {
  }

  /** Everything after the choice of revisions: roll, report, and truncate the history. */
  method RollOut(c: Client, w: Workload, claimed: seq<Pod>, revisions: seq<Revision>, current: Revision,
                 update: Revision, collisionCount: nat, ghost x0: Sweep, ghost a0: Account)
      returns (err: Option<Error>, ghost x: Sweep, ghost a: Account)
    requires Reached(c, Rolling(w, claimed, current, update)) && Rising(revisions)
    requires a0.revisions == revisions && a0.collisions == collisionCount
    modifies c
    ensures Reached(c, Rolling(w, claimed, current, update))
    ensures a == a0.(pass := a.pass, syncErr := a.syncErr, status := a.status, reportErr := a.reportErr,
                     reporting := a.reporting, done := a.done, truncating := a.truncating)
    ensures Rolls(w, claimed, current, update, a) && Did(old(c.log), c.log, RollingCalls(a))
    ensures FreeSince(c.Selector(), Rolling(w, claimed, current, update), old(c.log), c.log)
    ensures err == if a.reportErr.Some? then a.reportErr else a.syncErr
    ensures var surplus := Surplus(revisions, claimed, current.name, update.name);
            && a.done <= |surplus| && c.s.revisions == old(c.s).revisions - NamesOf(surplus[..a.done])
    ensures c.calm && c.reliable && !w.deleting && Deletable(claimed, old(c.s))
            && NamesOf(revisions) <= old(c.s).revisions.Keys
            && x0 == x0.(claimed := claimed, revisions := revisions, current := current, update := update,
                         activated := old(c.s), collisions := collisionCount) ==>
              && x == x0.(pass := x.pass, rolled := x.rolled, status := x.status, reported := x.reported)
              && w.spec.replicas.Some? && RollsOut(w, x, c.s)
              && (err.None? <==> Feasible(claimed, update.name, x.pass.diffs))
  {
    hide Client.Valid, Legal, Consistent, Where, Free, Replay, Environment, ListsSorted, Rising, Surplus, NamesOf, Reports,
      InconsistentStatus, PassOf, Succeeds, Feasible, Deletable, Calls, AllCreated, CallsOf, StatusCalls, TruncatingCalls,
      FreeSince, StopsWith;
    x, a := x0, a0;
    assert NamesOf(Surplus(revisions, claimed, current.name, update.name)[..0]) == {} by {
      NoNames();
    }
    var pods := new Pod[|claimed|](i requires 0 <= i < |claimed| => claimed[i]);
    assert pods[..] == claimed;
    var newStatus := Status(w.generation, 0, 0, current.name, update.name, Some(collisionCount), false);
    var syncErr;
    ghost var t, status, calls;
    syncErr, newStatus, t := SyncPods(c, w, newStatus, current, update, pods);
    ghost var rolled, log1 := c.s, c.log;
    err, status, calls := Report(c, w, newStatus, current, update, pods);
    ghost var log2 := c.log;
    ghost var ctl := Rolling(w, claimed, current, update);
    DidMore(old(c.log), log1, log2, Calls(t), calls);
    FreeSinceMore(c.Selector(), ctl, old(c.log), log1, log2);
    x := x0.(pass := t, rolled := rolled, status := status, reported := c.s);
    a := a0.(pass := t, syncErr := syncErr, status := status, reportErr := err, reporting := calls, done := 0,
             truncating := []);
    assert syncErr.Some? == newStatus.failedScale;
    if err.Some? {
      assert Calls(t) + calls + [] == Calls(t) + calls;
      return;
    }
    var ignored;
    ghost var done, surplus := 0, Surplus(revisions, claimed, current.name, update.name);
    ignored, done, calls := TruncateHistory(c, w, pods, revisions, current, update);
    DidMore(old(c.log), log2, c.log, Calls(t) + a.reporting, calls);
    FreeSinceMore(c.Selector(), ctl, old(c.log), log2, c.log);
    a := a.(done := done, truncating := calls);
    assert surplus[..|surplus|] == surplus;
    ReachedKeyed(c, Where(c.log));
    err := syncErr;
  }

  /** What a pass did up to its return, however it ended: its calls are those of the steps it came to, in their order; the
      pods it worked with are those it listed; it returns the error it stopped with, but for that of a workload that is
      not there, and once it rolls that of the report before that of scaling; and where no pod waited to be adopted it
      kept enough pods at every moment. */
  ghost predicate Accounted(nameOf: Namer, start: State, from: seq<Event>, log: seq<Event>, before: map<Name, Revision>,
                            after: map<Name, Revision>, err: Option<Error>, a: Account)
  {
    var ctl := Where(log);
    && Did(from, log, AllCalls(a)) && Passed(nameOf, ctl, before, a, after)
    && (ctl.Activating? || ctl.Rolling? ==> Since(from, log, Listed(a.active)))
    && (if ctl.Rolling? then
          && err == (if a.reportErr.Some? then a.reportErr else a.syncErr)
          && (Orphans(start) == {} ==> KeptEnough(start, |from|, log))
        else if ctl.Idle? && a.failure == Some(NotFound) then err.None?
        else err == a.failure)
  }

  lemma NeverFetched(nameOf: Namer, start: State, from: seq<Event>, log: seq<Event>, store: map<Name, Revision>,
                     error: Error, status: Status)
    requires Where(log).Idle? && Did(from, log, [ReadFailed(error)])
    ensures Accounted(nameOf, start, from, log, store, store, if error.NotFound? then None else Some(error),
                      Unread(status, error))
  {
    hide Did;
    NothingPassed(nameOf, Where(log), store, status, error);
  }

  lemma StoppedEarly(nameOf: Namer, start: State, from: seq<Event>, middle: seq<Event>, log: seq<Event>,
                     before: map<Name, Revision>, after: map<Name, Revision>, a: Account)
    requires !Where(log).Rolling? && !Where(log).Idle? && RollingCalls(a) == []
    requires Did(from, middle, []) && Did(middle, log, FirstCalls(a))
    requires Passed(nameOf, Where(log), before, a, after)
    requires Where(log).Activating? ==> Since(middle, log, Listed(a.active))
    ensures Accounted(nameOf, start, from, log, before, after, a.failure, a)
  {
    hide CallsOf, Where, RollingCalls, FirstCalls, Passed, Since;
    NotRolling(a);
    DidMore(from, middle, log, [], FirstCalls(a));
    assert [] + FirstCalls(a) == FirstCalls(a);
    if Where(log).Activating? {
      ComesSince(from, middle, log, log, Listed(a.active));
    }
  }

  lemma RolledOut(nameOf: Namer, start: State, from: seq<Event>, middle: seq<Event>, chosen: seq<Event>, log: seq<Event>,
                  w: Workload, before: map<Name, Revision>, claimed: seq<Pod>, revisions: seq<Revision>,
                  current: Revision, update: Revision, collisions: nat, a1: Account, activated: map<Name, Revision>,
                  a: Account, after: map<Name, Revision>)
    requires Consistent(Orphans(start), start) && Legal(start, chosen) && JustChosen(chosen)
    requires Where(from).Idle? && Where(chosen) == Rolling(w, claimed, current, update)
    requires Did(from, middle, []) && Did(middle, chosen, FirstCalls(a1)) && Did(chosen, log, RollingCalls(a))
    requires Since(middle, chosen, Listed(a1.active))
    requires FreeSince(start.workload.spec.selector, Where(chosen), chosen, log)
    requires Prepared(nameOf, w, before, claimed, revisions, current, update, collisions, a1, activated)
    requires a == a1.(pass := a.pass, syncErr := a.syncErr, status := a.status, reportErr := a.reportErr,
                      reporting := a.reporting, done := a.done, truncating := a.truncating)
    requires Rolls(w, claimed, current, update, a)
    requires var surplus := Surplus(revisions, claimed, current.name, update.name);
             a.done <= |surplus| && after == activated - NamesOf(surplus[..a.done])
    ensures Accounted(nameOf, start, from, log, before, after, if a.reportErr.Some? then a.reportErr else a.syncErr, a)
  {
    hide CallsOf, Where, RollingCalls, Passed, Since, Prepared, Rolls, Consistent, Legal, JustChosen, FreeSince,
      Surplus, NamesOf, KeptEnough, Orphans;
    DidMore(from, middle, chosen, [], FirstCalls(a));
    assert [] + FirstCalls(a) == FirstCalls(a);
    DidMore(from, chosen, log, FirstCalls(a), RollingCalls(a));
    CallsInOrder(a);
    PassedAll(nameOf, w, before, claimed, revisions, current, update, collisions, a1, activated, a, after);
    ComesSince(from, middle, chosen, log, Listed(a.active));
    FreeExtends(start, chosen, log);
    if Orphans(start) == {} {
      PassKeepsEnough(start, from, chosen, log, a);
    }
  }

  /** One pass over the workload. */
  method Reconcile(c: Client, nameOf: Namer) returns (err: Option<Error>, ghost x: Sweep, ghost a: Account)
    requires Reached(c, Idle) && ProperNames(nameOf)
    modifies c
    ensures Reached(c, Idle) && c.log != [] && c.Last() == Returned
    ensures Accounted(nameOf, c.start, old(c.log), c.log[..|c.log| - 1], old(c.s).revisions, c.s.revisions, err, a)
    ensures c.reliable ==> !LosesReread(AnswersIn(a.activating), RETRY_STEPS)
    ensures c.calm && c.reliable && !old(c.s).workload.deleting ==>
              IsSweep(old(c.s), x, c.s) && (err.None? <==> Feasible(x.claimed, x.update.name, x.pass.diffs))
  {
    hide Client.Valid, Legal, Consistent, Where, Free, Replay, Environment, ListsSorted, Rising, Surplus, NamesOf, Activated,
      SweepClaims, SweepActivates, RollsOut, Feasible, CallsOf, Prepared, Rolls, RollingCalls, LosesReread, AnswersIn,
      Passed, AllCalls, FirstCalls, Since, JustChosen, FreeSince, Accounted, Did, Orphans;
    var workload;
    err, workload := Fetch(c);
    x, a := NoSweep(c.s), NoAccount(workload.status);
    ghost var log1 := c.log;
    NothingLost();
    if err.Some? {
      NeverFetched(nameOf, c.start, old(c.log), log1, c.s.revisions, err.value, workload.status);
      a := Unread(workload.status, err.value);
      Advance(c, Idle, Returned);
      assert c.log[..|c.log| - 1] == log1;
      if err == Some(NotFound) {
        return None, x, a;
      }
      return;
    }
    var claimed, revisions, current, update, collisionCount;
    err, claimed, revisions, current, update, collisionCount, x, a := Prepare(c, nameOf, workload);
    ghost var log2 := c.log;
    if err.Some? {
      StoppedEarly(nameOf, c.start, old(c.log), log1, log2, old(c.s).revisions, c.s.revisions, a);
      Advance(c, Where(c.log), Returned);
      assert c.log[..|c.log| - 1] == log2;
      return;
    }
    ghost var s1, x1, a1 := c.s, x, a;
    PreparedRises(nameOf, workload, old(c.s).revisions, claimed, revisions, current, update, collisionCount, a,
                  c.s.revisions);
    if c.calm && c.reliable && !old(c.s).workload.deleting {
      ClaimedDeletable(old(c.s), x, c.s);
    }
    err, x, a := RollOut(c, workload, claimed, revisions, current, update, collisionCount, x, a);
    ghost var log3 := c.log;
    RolledOut(nameOf, c.start, old(c.log), log1, log2, log3, workload, old(c.s).revisions, claimed, revisions, current,
              update, collisionCount, a1, s1.revisions, a, c.s.revisions);
    Advance(c, Rolling(workload, claimed, current, update), Returned);
    assert c.log[..|c.log| - 1] == log3;
    if c.calm && c.reliable && !old(c.s).workload.deleting {
      HalvesMakeSweep(old(c.s), x1, x, c.s);
    }
  }
}
