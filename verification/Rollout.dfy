/** What one pass of scaling and updating does, call by call. */
module Rollout {
  import opened Objects
  import opened Cluster
  import opened Planner
  import opened SlowStart

  /** A pass: its plan, the pods it picks for deletion, and its calls. */
  datatype Pass = Pass(
    diffs: Diffs,
    updatedVictims: seq<Pod>,
    otherVictims: seq<Pod>,
    creates: seq<Event>,
    deletes: seq<Event>)

  predicate AllCreated(creates: seq<Event>) {
    forall e <- creates :: e.PodCreated?
  }

  /** The creations try the planned pods in order, each at most once, as far as a slow start goes. */
  predicate CreatesAs(planned: seq<Pod>, creates: seq<Event>) {
    && |creates| <= |planned|
    && (forall i | 0 <= i < |creates| :: Attempts(creates[i], planned[i], creates[i].PodCreated?))
    && SlowStarted(|planned|, 1, Outcomes(creates))
  }

  predicate Deletes(e: Event, p: Pod) {
    e == PodDeleted(p.id) || (e.PodDeleteFailed? && e.id == p.id)
  }

  /** The deletions take the victims in order and stop at the first that fails. */
  predicate DeletesAs(victims: seq<Pod>, deletes: seq<Event>) {
    && |deletes| <= |victims|
    && (forall i | 0 <= i < |deletes| :: Deletes(deletes[i], victims[i]))
    && (forall i | 0 <= i < |deletes| - 1 :: deletes[i].PodDeleted?)
    && (|deletes| < |victims| ==> deletes != [] && deletes[|deletes| - 1].PodDeleteFailed?)
  }

  /** Some pods of a group, none of them twice, from the oldest on: none is younger than one that stays. */
  predicate Oldest(group: seq<Pod>, victims: seq<Pod>) {
    && (forall v <- victims :: v in group)
    && (DistinctIds(group) ==> DistinctIds(victims))
    && (forall i, j | 0 <= i < j < |victims| :: victims[i].created <= victims[j].created)
    && forall v <- victims, p <- group :: p !in victims ==> v.created <= p.created
  }

  /** Both groups hold as many pods as the plan wants deleted from them. */
  predicate Feasible(pods: seq<Pod>, updated: Name, d: Diffs) {
    && d.scaleDownNum <= |WithRevision(pods, updated)|
    && d.scaleDownNumOldRevision <= |WithoutRevision(pods, updated)|
  }

  predicate IsPass(pw: Spec, pods: seq<Pod>, current: Name, updated: Name, currentPod: Pod, updatedPod: Pod, t: Pass)
    requires pw.replicas.Some?
  {
    && IsPlan(pw, pods, current, updated, t.diffs)
    && CreatesAs(Planned(currentPod, updatedPod, t.diffs), t.creates)
    && (if AllCreated(t.creates) && Feasible(pods, updated, t.diffs) then
          && |t.updatedVictims| == t.diffs.scaleDownNum && |t.otherVictims| == t.diffs.scaleDownNumOldRevision
          && Oldest(WithRevision(pods, updated), t.updatedVictims)
          && Oldest(WithoutRevision(pods, updated), t.otherVictims)
          && DeletesAs(t.updatedVictims + t.otherVictims, t.deletes)
        else
          t.deletes == [] && t.updatedVictims == [] && t.otherVictims == [])
  }

  /** The pass made every call its plan asks for, and each was accepted. */
  predicate Succeeds(pods: seq<Pod>, updated: Name, t: Pass) {
    && AllCreated(t.creates)
    && Feasible(pods, updated, t.diffs)
    && forall e <- t.deletes :: e.PodDeleted?
  }

  /** Why a pass stopped: a creation was refused, a group is too small, the updated one first, or a deletion was
      refused. */
  predicate StopsWith(pods: seq<Pod>, updated: Name, t: Pass, error: Error) {
    if !AllCreated(t.creates) then FailsWith(t.creates, error)
    else if t.diffs.scaleDownNum > |WithRevision(pods, updated)| then error == NotEnoughUpdated
    else if t.diffs.scaleDownNumOldRevision > |WithoutRevision(pods, updated)| then error == NotEnoughCurrent
    else t.deletes != [] && t.deletes[|t.deletes| - 1].PodDeleteFailed? && t.deletes[|t.deletes| - 1].error == error
  }
}
