/** How many pods of which revision a pass creates and deletes, and what the new pods look like. */
module Planner {
  import opened Objects

  datatype Diffs = Diffs(
    scaleUpNum: nat,
    scaleUpNumOldRevision: nat,
    scaleDownNum: nat,
    scaleDownNumOldRevision: nat)

  predicate IsEmpty(d: Diffs) {
    d == Diffs(0, 0, 0, 0)
  }

  /** A pod without the label runs no revision. */
  lemma UnlabelledRunsNothing(p: Pod, revision: Name)
    requires "controller-revision-hash" !in p.labels && revision != ""
    ensures !EqualToRevisionHash(p, revision)
  {
  }

  /** The pods of a revision, in their order. */
  function WithRevision(pods: seq<Pod>, revision: Name): (r: seq<Pod>)
    ensures forall p <- r :: p in pods && RevisionOf(p) == revision
  {
    if pods == [] then []
    else
      var n := |pods| - 1;
      WithRevision(pods[..n], revision) + if EqualToRevisionHash(pods[n], revision) then [pods[n]] else []
  }

  /** The pods of any other revision, in their order. */
  function WithoutRevision(pods: seq<Pod>, revision: Name): (r: seq<Pod>)
    ensures forall p <- r :: p in pods && RevisionOf(p) != revision
  {
    if pods == [] then []
    else
      var n := |pods| - 1;
      WithoutRevision(pods[..n], revision) + if EqualToRevisionHash(pods[n], revision) then [] else [pods[n]]
  }

  /** Counting and grouping split the pods the same way. */
  lemma {:induction false} GroupsPartition(pods: seq<Pod>, revision: Name)
    ensures multiset(pods) == multiset(WithRevision(pods, revision)) + multiset(WithoutRevision(pods, revision))
    ensures |pods| == |WithRevision(pods, revision)| + |WithoutRevision(pods, revision)|
  {
    if pods != [] {
      var n := |pods| - 1;
      assert pods == pods[..n] + [pods[n]];
      GroupsPartition(pods[..n], revision);
    }
  }

  /** No pod is listed twice. */
  predicate DistinctIds(pods: seq<Pod>) {
    forall i, j | 0 <= i < j < |pods| :: pods[i].id != pods[j].id
  }

  lemma {:induction false} GroupsDistinct(pods: seq<Pod>, revision: Name)
    requires DistinctIds(pods)
    ensures DistinctIds(WithRevision(pods, revision)) && DistinctIds(WithoutRevision(pods, revision))
    ensures forall p, q | p in WithRevision(pods, revision) && q in WithoutRevision(pods, revision) :: p.id != q.id
  {
    if pods != [] {
      var n := |pods| - 1;
      GroupsDistinct(pods[..n], revision);
      assert pods == pods[..n] + [pods[n]];
      forall p | p in pods[..n]
        ensures p.id != pods[n].id
      {
      }
    }
  }

  /** Of two opposite numbers the one that takes have to want, and no more. */
  predicate Balances(have: nat, want: nat, up: nat, down: nat) {
    have + up == want + down && (up == 0 || down == 0)
  }

  /** A plan's numbers lead from the pods there are to the partition; with one revision only the total counts. */
  predicate IsPlan(pw: Spec, pods: seq<Pod>, current: Name, updated: Name, d: Diffs)
    requires pw.replicas.Some?
  {
    if updated != current then
      && Balances(|WithRevision(pods, updated)|, Partition(pw), d.scaleUpNum, d.scaleDownNum)
      && Balances(|WithoutRevision(pods, updated)|, pw.replicas.value - Partition(pw),
                  d.scaleUpNumOldRevision, d.scaleDownNumOldRevision)
    else
      && Balances(|pods|, pw.replicas.value, d.scaleUpNum, d.scaleDownNum)
      && d.scaleUpNumOldRevision == 0 && d.scaleDownNumOldRevision == 0
  }

  /** Counts the pods of the revision and those of any other. */
  method CountRevisions(pods: array<Pod>, updated: Name) returns (newRevisionCount: nat, oldRevisionCount: nat)
    ensures newRevisionCount == |WithRevision(pods[..], updated)|
    ensures oldRevisionCount == |WithoutRevision(pods[..], updated)|
    ensures newRevisionCount + oldRevisionCount == pods.Length
  {
    newRevisionCount, oldRevisionCount := 0, 0;
    for i := 0 to pods.Length
      invariant newRevisionCount == |WithRevision(pods[..i], updated)|
      invariant oldRevisionCount == |WithoutRevision(pods[..i], updated)|
    {
      assert pods[..i + 1][..i] == pods[..i];
      if EqualToRevisionHash(pods[i], updated) {
        newRevisionCount := newRevisionCount + 1;
      } else {
        oldRevisionCount := oldRevisionCount + 1;
      }
    }
    assert pods[..pods.Length] == pods[..];
    GroupsPartition(pods[..], updated);
  }

  method CalculateDiffs(pw: Spec, pods: array<Pod>, current: Name, updated: Name) returns (res: Diffs)
    requires pw.replicas.Some?
    ensures IsPlan(pw, pods[..], current, updated, res)
    ensures updated != current && (pw.partition.None? || pw.partition.value > pw.replicas.value) ==>
              && |WithRevision(pods[..], updated)| + res.scaleUpNum == pw.replicas.value + res.scaleDownNum
              && |WithoutRevision(pods[..], updated)| + res.scaleUpNumOldRevision == res.scaleDownNumOldRevision
    ensures updated != current && pw.partition.Some? && pw.partition.value <= pw.replicas.value ==>
              && |WithRevision(pods[..], updated)| + res.scaleUpNum == pw.partition.value + res.scaleDownNum
              && |WithoutRevision(pods[..], updated)| + res.scaleUpNumOldRevision
                 == pw.replicas.value - pw.partition.value + res.scaleDownNumOldRevision
    ensures updated == current ==> |pods[..]| + res.scaleUpNum == pw.replicas.value + res.scaleDownNum
  {
    hide WithRevision, WithoutRevision;
    var replicas := pw.replicas.value;
    var partition := if pw.partition.Some? then Min(pw.partition.value, replicas) else replicas;

    var newRevisionCount, oldRevisionCount := CountRevisions(pods, updated);

    var updateNewDiff := newRevisionCount - partition;
    var updateOldDiff := oldRevisionCount - (replicas - partition);
    if updated == current {
      updateNewDiff := newRevisionCount + oldRevisionCount - replicas;
      updateOldDiff := 0;
    }

    res := Diffs(0, 0, 0, 0);
    if updateNewDiff < 0 {
      res := res.(scaleUpNum := res.scaleUpNum + Abs(updateNewDiff));
    }
    if updateOldDiff < 0 {
      res := res.(scaleUpNumOldRevision := res.scaleUpNumOldRevision + Abs(updateOldDiff));
    }
    if updateNewDiff > 0 {
      res := res.(scaleDownNum := res.scaleDownNum + Abs(updateNewDiff));
    }
    if updateOldDiff > 0 {
      res := res.(scaleDownNumOldRevision := res.scaleDownNumOldRevision + Abs(updateOldDiff));
    }
  }

  /** Builds both groups as slices of their own, so that sorting one leaves the caller's list alone. */
  method GroupUpdatedAndNotUpdatedPods(pods: array<Pod>, updated: Name)
      returns (update: array<Pod>, notUpdate: array<Pod>)
    ensures fresh(update) && fresh(notUpdate) && update != notUpdate
    ensures update[..] == WithRevision(pods[..], updated)
    ensures notUpdate[..] == WithoutRevision(pods[..], updated)
  {
    var ups: seq<Pod>, rest: seq<Pod> := [], [];
    for i := 0 to pods.Length
      invariant ups == WithRevision(pods[..i], updated)
      invariant rest == WithoutRevision(pods[..i], updated)
    {
      assert pods[..i + 1][..i] == pods[..i];
      if EqualToRevisionHash(pods[i], updated) {
        ups := ups + [pods[i]];
      } else {
        rest := rest + [pods[i]];
      }
    }
    assert pods[..pods.Length] == pods[..];
    update := new Pod[|ups|](i requires 0 <= i < |ups| => ups[i]);
    notUpdate := new Pod[|rest|](i requires 0 <= i < |rest| => rest[i]);
  }

  // ---- New pods

  /** The part of a name behind its last '-', or all of it if it has none. */
  predicate IsLastPart(short: string, name: Name) {
    && '-' !in short && |short| <= |name| && name[|name| - |short|..] == short
    && (|short| < |name| ==> name[|name| - |short| - 1] == '-')
  }

  /** The labels carry the whole name of a revision and its last part, and all else is as it was. */
  predicate Hashed(before: Labels, hash: Name, after: Labels) {
    && after.Keys == before.Keys + {"controller-revision-hash", "pod-template-hash"}
    && after["controller-revision-hash"] == hash && IsLastPart(after["pod-template-hash"], hash)
    && forall k <- before :: k != "controller-revision-hash" && k != "pod-template-hash" ==> after[k] == before[k]
  }

  lemma NoLastPart(name: Name)
    requires name == "" || name[|name| - 1] == '-'
    ensures IsLastPart("", name)
  {
  }

  lemma LastPartMore(short: string, name: Name, c: char)
    requires IsLastPart(short, name) && c != '-'
    ensures IsLastPart(short + [c], name + [c])
  {
  }

  lemma {:induction false} ShortHashIsLastPart(name: Name)
    ensures IsLastPart(ShortHash(name), name)
  {
    hide IsLastPart;
    if name == "" || name[|name| - 1] == '-' {
      NoLastPart(name);
    } else {
      var n := |name| - 1;
      ShortHashIsLastPart(name[..n]);
      LastPartMore(ShortHash(name[..n]), name[..n], name[n]);
      assert name == name[..n] + [name[n]];
    }
  }

  /** What the stamp means. */
  lemma StampHashes(labels: Labels, revision: Name)
    ensures Hashed(labels, revision, Stamp(labels, revision))
  {
    hide IsLastPart, ShortHash;
    ShortHashIsLastPart(revision);
  }

  /** A pod as it is sent to be created at a revision; the server sets its id and creation time. */
  function VersionedPod(uid: Uid, template: Template, revision: Name): Pod {
    Pod(0, Stamp(template.labels, revision), template.body, 0, [OwnerRef(uid, true)], false)
  }

  method WriteRevisionHash(p: Pod, hash: Name) returns (q: Pod)
    ensures q == p.(labels := Stamp(p.labels, hash))
    ensures RevisionOf(q) == hash && Hashed(p.labels, hash, q.labels)
  {
    hide IsLastPart;
    StampHashes(p.labels, hash);
    q := p.(labels := p.labels[REVISION_LABEL := hash]);
    q := q.(labels := q.labels[SHORT_LABEL := ShortHash(hash)]);
  }

  method NewVersionedPods(uid: Uid, pw: Spec, revision: Name, replicas: nat) returns (newPods: seq<Pod>)
    ensures newPods == seq(replicas, i => VersionedPod(uid, pw.template, revision))
    ensures |newPods| == replicas
    ensures forall p <- newPods ::
              && Hashed(pw.template.labels, revision, p.labels) && p.body == pw.template.body
              && p.owners == [OwnerRef(uid, true)] && !p.terminating
  {
    hide Hashed, Stamp;
    StampHashes(pw.template.labels, revision);
    newPods := [];
    for i := 0 to replicas
      invariant newPods == seq(i, k => VersionedPod(uid, pw.template, revision))
    {
      var pod := Pod(0, pw.template.labels, pw.template.body, 0, [OwnerRef(uid, true)], false);
      pod := WriteRevisionHash(pod, revision);
      newPods := newPods + [pod];
    }
  }

  /** The pods a plan creates, those of the current revision first. */
  function Planned(currentPod: Pod, updatedPod: Pod, d: Diffs): seq<Pod> {
    seq(d.scaleUpNumOldRevision, i => currentPod) + seq(d.scaleUpNum, i => updatedPod)
  }

  method NewMultiVersionedPods(uid: Uid, currentPW: Spec, updatedPW: Spec, current: Name, updated: Name,
                               expectedCurrentCreations: nat, expectedUpdatedCreations: nat)
      returns (newPods: seq<Pod>)
    ensures newPods == Planned(VersionedPod(uid, currentPW.template, current),
                               VersionedPod(uid, updatedPW.template, updated),
                               Diffs(expectedUpdatedCreations, expectedCurrentCreations, 0, 0))
  {
    hide Hashed, VersionedPod;
    newPods := [];
    if expectedCurrentCreations > 0 {
      var pods := NewVersionedPods(uid, currentPW, current, expectedCurrentCreations);
      newPods := newPods + pods;
    }
    if expectedUpdatedCreations > 0 {
      var pods := NewVersionedPods(uid, updatedPW, updated, expectedUpdatedCreations);
      newPods := newPods + pods;
    }
  }
}
