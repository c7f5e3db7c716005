/** The status a pass reports: counted before the pods change, promoted on a full rollout. */
module Reporting {
  import opened Objects
  import opened Cluster
  import opened Server
  import opened Planner

  /** All pods there were are updated, and they are as many as the spec wants. */
  predicate FullyRolledOut(spec: Spec, update: Name, pods: seq<Pod>)
    requires spec.replicas.Some?
  {
    (forall p <- pods :: RevisionOf(p) == update) && |pods| == spec.replicas.value
  }

  /** What is to be reported of the pods, from a status that carries only revisions and generation. */
  predicate Reports(spec: Spec, blank: Status, pods: seq<Pod>, status: Status)
    requires spec.replicas.Some?
  {
    && status.replicas == |pods|
    && status.updated == |WithRevision(pods, blank.update)|
    && status.current == (if FullyRolledOut(spec, blank.update, pods) then blank.update else blank.current)
    && status == blank.(replicas := status.replicas, updated := status.updated, current := status.current)
  }

  lemma {:induction false} AllWithRevision(pods: seq<Pod>, revision: Name)
    ensures |WithRevision(pods, revision)| <= |pods|
    ensures |WithRevision(pods, revision)| == |pods| <==> forall p <- pods :: RevisionOf(p) == revision
  {
    if pods != [] {
      var n := |pods| - 1;
      AllWithRevision(pods[..n], revision);
      assert pods == pods[..n] + [pods[n]];
      assert pods[n] in pods && forall p <- pods[..n] :: p in pods;
    }
  }

  method CalculateStatus(spec: Spec, blank: Status, pods: array<Pod>) returns (status: Status)
    requires spec.replicas.Some? && blank.replicas == blank.updated == 0
    ensures Reports(spec, blank, pods[..], status)
    ensures status.replicas == pods.Length && status.updated == |WithRevision(pods[..], blank.update)|
    ensures status.current == if status.updated == pods.Length == spec.replicas.value then blank.update else blank.current
  {
    status := blank;
    for i := 0 to pods.Length
      invariant status == blank.(replicas := i, updated := |WithRevision(pods[..i], blank.update)|)
    {
      assert pods[..i + 1][..i] == pods[..i];
      status := status.(replicas := status.replicas + 1);
      if EqualToRevisionHash(pods[i], status.update) {
        status := status.(updated := status.updated + 1);
      }
    }
    assert pods[..pods.Length] == pods[..];
    AllWithRevision(pods[..], blank.update);
    if status.updated == status.replicas && status.replicas == spec.replicas.value {
      status := status.(current := status.update);
    }
  }

  /** Whether a status is worth writing. The condition and the collision count are not looked at. */
  predicate InconsistentStatus(stored: Status, status: Status) {
    || status.observed > stored.observed
    || status.replicas != stored.replicas
    || status.updated != stored.updated
    || status.update != stored.update
    || status.current != stored.current
  }

  /** The status after a report: the new one if anything that counts differs. */
  function Reported(stored: Status, status: Status): Status {
    if InconsistentStatus(stored, status) then status else stored
  }

  /** Whichever is stored, it agrees with what was to be reported, except that a condition or a collision
      count that alone has changed is not written. */
  lemma ReportedAgrees(stored: Status, status: Status)
    ensures var r := Reported(stored, status);
            && r.replicas == status.replicas && r.updated == status.updated
            && r.current == status.current && r.update == status.update && r.observed >= status.observed
    ensures Reported(stored, status) == stored <==>
              || stored == status
              || (stored.replicas == status.replicas && stored.updated == status.updated
                  && stored.current == status.current && stored.update == status.update
                  && stored.observed >= status.observed)
  {
  }

  /** A failed scaling that leaves the counts as they were goes unreported. */
  lemma FailureUnreported(stored: Status)
    ensures var failed := stored.(failedScale := true); Reported(stored, failed) == stored
  {
  }

  /** Refusals, failed reads and what others do, and at most one status write at the end. */
  ghost predicate WritesAtMostOnce(c: Client, before: seq<Event>, after: seq<Event>, status: Status, written: bool) {
    && before <= after
    && (written ==> before < after && after[|after| - 1] == StatusWritten(status))
    && (c.calm && c.reliable ==> |after| <= |before| + 1)
    && forall k | |before| <= k < |after| - (if written then 1 else 0) ::
         IsNoise(c.Selector(), c.exclusive, after[k]) || after[k].StatusWriteFailed? || after[k].ReadFailed?
  }

  lemma WritesMore(c: Client, before: seq<Event>, middle: seq<Event>, after: seq<Event>, status: Status, written: bool)
    requires WritesAtMostOnce(c, before, middle, status, false)
    requires WritesAtMostOnce(c, middle, after, status, written)
    requires c.calm && c.reliable ==> middle == before
    ensures WritesAtMostOnce(c, before, after, status, written)
  {
    forall k | |before| <= k < |after| - (if written then 1 else 0)
      ensures IsNoise(c.Selector(), c.exclusive, after[k]) || after[k].StatusWriteFailed? || after[k].ReadFailed?
    {
      if k < |middle| {
        assert after[k] == middle[k];
      }
    }
  }

  /** The call that one attempt shows: the write, accepted or refused, or the failed read before it. */
  predicate IsTry(status: Status, err: Option<Error>, e: Event) {
    if err.None? then e == StatusWritten(status)
    else e == StatusWriteFailed(status, err.value) || e == ReadFailed(err.value)
  }

  /** Attempts that all met a conflict. */
  predicate Conflicted(status: Status, calls: seq<Event>) {
    forall e <- calls :: IsTry(status, Some(Conflict), e)
  }

  /** All the calls of a report that ends so: after every conflict there is another attempt, unless there were as many as
      there may be, and after nothing else; and it ends as the last one did. */
  predicate StatusCalls(status: Status, steps: nat, err: Option<Error>, calls: seq<Event>) {
    && 0 < |calls| <= steps
    && Conflicted(status, calls[..|calls| - 1]) && IsTry(status, err, calls[|calls| - 1])
    && (err == Some(Conflict) ==> |calls| == steps)
  }

  lemma OneTryMore(status: Status, calls: seq<Event>, steps: nat, err: Option<Error>, e: Event)
    requires |calls| < steps && Conflicted(status, calls) && IsTry(status, err, e)
    ensures err == Some(Conflict) ==> Conflicted(status, calls + [e])
    ensures err != Some(Conflict) || |calls| + 1 == steps ==> StatusCalls(status, steps, err, calls + [e])
  {
    assert (calls + [e])[..|calls|] == calls;
  }

  /** The last event replaced the status of the workload as it then was, and nothing else. */
  ghost predicate StatusReplaced(c: Client, status: Status)
    reads c
  {
    && c.log != []
    && c.s.workload == c.Before().workload.(status := status, rv := c.s.workload.rv)
    && c.s.pods == c.Before().pods && c.s.revisions == c.Before().revisions
  }

  /** One attempt to write the status onto the workload as it is now. */
  method TryCommit(c: Client, status: Status) returns (err: Option<Error>, ghost calls: seq<Event>)
    requires c.Valid()
    modifies c
    ensures c.Valid() && WritesAtMostOnce(c, old(c.log), c.log, status, err.None?)
    ensures |calls| == 1 && IsTry(status, err, calls[0]) && Did(old(c.log), c.log, calls)
    ensures err.None? ==> StatusReplaced(c, status)
    ensures c.exclusive ==> c.s.revisions == old(c.s).revisions
    ensures c.exclusive && err.Some? ==> c.s.workload.status == old(c.s).workload.status
    ensures c.calm && c.reliable ==> err.None?
  {
    hide CallsOf, IsNoise, WellKeyed, Replay;
    var clone;
    err, clone := c.GetWorkload();
    if err.Some? {
      return err, [c.Last()];
    }
    ghost var middle := c.log;
    clone := clone.(status := status);
    err := c.UpdateStatus(clone);
    calls := [c.Last()];
    DidMore(old(c.log), middle, c.log, [], calls);
    assert [] + calls == calls;
  }

  lemma NothingWritten(c: Client, log: seq<Event>, status: Status)
    ensures WritesAtMostOnce(c, log, log, status, false) && Conflicted(status, []) && Did(log, log, [])
  {
    DidNothing(log);
  }

  /** Writes the status, trying again on conflicts, each time on the latest workload. */
  method CommitStatusUpdate(c: Client, status: Status, steps: nat)
      returns (err: Option<Error>, ghost calls: seq<Event>)
    requires c.Valid() && steps > 0
    modifies c
    ensures c.Valid() && WritesAtMostOnce(c, old(c.log), c.log, status, err.None?)
    ensures StatusCalls(status, steps, err, calls) && Did(old(c.log), c.log, calls)
    ensures err.None? ==> StatusReplaced(c, status)
    ensures c.exclusive ==> c.s.revisions == old(c.s).revisions
    ensures c.exclusive && err.Some? ==> c.s.workload.status == old(c.s).workload.status
    ensures c.calm && c.reliable ==> err.None?
  {
    hide WritesAtMostOnce, StatusReplaced, StatusCalls, Conflicted, IsTry, CallsOf;
    calls := [];
    var attempts := 0;
    NothingWritten(c, c.log, status);
    while attempts < steps
      invariant c.Valid() && WritesAtMostOnce(c, old(c.log), c.log, status, false)
      invariant |calls| == attempts <= steps && Conflicted(status, calls) && Did(old(c.log), c.log, calls)
      invariant attempts == steps ==> StatusCalls(status, steps, Some(Conflict), calls)
      invariant c.exclusive ==> c.s.revisions == old(c.s).revisions && c.s.workload.status == old(c.s).workload.status
      invariant c.calm && c.reliable ==> attempts == 0
      invariant attempts == 0 ==> c.log == old(c.log)
      decreases steps - attempts
    {
      ghost var middle := c.log;
      ghost var more;
      err, more := TryCommit(c, status);
      WritesMore(c, old(c.log), middle, c.log, status, err.None?);
      DidMore(old(c.log), middle, c.log, calls, more);
      OneTryMore(status, calls, steps, err, more[0]);
      assert calls + more == calls + [more[0]];
      calls := calls + more;
      if err != Some(Conflict) {
        return;
      }
      attempts := attempts + 1;
    }
    err := Some(Conflict);
  }

  /** Reports on the pods listed before they were scaled. */
  method UpdateStatus(c: Client, instance: Workload, blank: Status, pods: array<Pod>, steps: nat)
      returns (err: Option<Error>, ghost status: Status, ghost calls: seq<Event>)
    requires c.Valid() && steps > 0
    requires instance.spec.replicas.Some? && blank.replicas == blank.updated == 0
    modifies c
    ensures c.Valid() && Reports(instance.spec, blank, pods[..], status)
    ensures WritesAtMostOnce(c, old(c.log), c.log, status,
                             err.None? && InconsistentStatus(instance.status, status))
    ensures err.None? && InconsistentStatus(instance.status, status) ==> StatusReplaced(c, status)
    ensures Did(old(c.log), c.log, calls)
    ensures if InconsistentStatus(instance.status, status) then StatusCalls(status, steps, err, calls) else calls == []
    ensures c.exclusive ==> c.s.revisions == old(c.s).revisions
    ensures c.exclusive && (err.Some? || !InconsistentStatus(instance.status, status)) ==>
              c.s.workload.status == old(c.s).workload.status
    ensures !InconsistentStatus(instance.status, status) ==> err.None? && c.s == old(c.s) && c.log == old(c.log)
    ensures c.calm && c.reliable ==> err.None?
  {
    var newStatus := CalculateStatus(instance.spec, blank, pods);
    status := newStatus;
    DidNothing(c.log);
    if !InconsistentStatus(instance.status, newStatus) {
      return None, newStatus, [];
    }
    err, calls := CommitStatusUpdate(c, newStatus, steps);
  }
}
