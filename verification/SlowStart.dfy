/** Calls made in batches that double while nothing fails. */
module SlowStart {
  import opened Objects
  import opened Cluster
  import opened Server

  /** The buffered channel that hands the planned pods to the creating goroutines, first in first out. */
  class Channel {
    var queue: seq<Pod>

    constructor (pods: seq<Pod>)
      ensures queue == pods
    {
      queue := pods;
    }

    /** A receive from an empty channel would block for ever. */
    method Receive() returns (p: Pod)
      requires queue != []
      modifies this
      ensures p == old(queue)[0] && queue == old(queue)[1..]
    {
      p := queue[0];
      queue := queue[1..];
    }
  }

  function Successes(outcomes: seq<bool>): nat {
    if outcomes == [] then 0
    else Successes(outcomes[..|outcomes| - 1]) + if outcomes[|outcomes| - 1] then 1 else 0
  }

  /** The place of the first failure, or the number of outcomes when there is none. */
  function FirstFailure(outcomes: seq<bool>): (f: nat)
    ensures f <= |outcomes|
    ensures forall i | 0 <= i < f :: outcomes[i]
    ensures f < |outcomes| ==> !outcomes[f]
  {
    if outcomes == [] || !outcomes[0] then 0 else 1 + FirstFailure(outcomes[1..])
  }

  /** Where the batch that holds call f ends, when batches start at lo with the given size and double. */
  function BatchEnd(lo: nat, size: nat, f: nat): nat
    requires size > 0
    decreases Max(0, f - lo)
  {
    if f < lo + size then lo + size else BatchEnd(lo + size, 2 * size, f)
  }

  /** Where that batch starts. */
  function BatchStart(lo: nat, size: nat, f: nat): nat
    requires size > 0
    decreases Max(0, f - lo)
  {
    if f < lo + size then lo else BatchStart(lo + size, 2 * size, f)
  }

  function Pow2(k: nat): nat {
    if k == 0 then 1 else 2 * Pow2(k - 1)
  }

  /** One batch begins at a call if the batches before it, each twice as long as the one before, make just the calls
      before that call. */
  predicate BeginsBatch(initial: nat, b: nat)
    requires initial > 0
  {
    exists k: nat :: k <= b && b == initial * (Pow2(k) - 1)
  }

  /** The outcomes of a slow start over count calls: all of them if none fails, and otherwise
      those up to the end of the batch in which the first failure happens. */
  predicate SlowStarted(count: nat, initial: nat, outcomes: seq<bool>)
    requires initial > 0
  {
    var f := FirstFailure(outcomes);
    |outcomes| == if f == |outcomes| then count else Min(count, BatchEnd(0, initial, f))
  }

  /** The number of batches that make count calls when none fails. */
  function Batches(remaining: nat, size: nat): nat
    requires size > 0
  {
    if remaining == 0 then 0 else if remaining <= size then 1 else 1 + Batches(remaining - size, 2 * size)
  }

  /** The event that one attempt to create a pod leaves. */
  predicate Attempts(e: Event, p: Pod, accepted: bool) {
    if accepted then e.PodCreated? && e.pod == p else e.PodCreateFailed? && e.refused == p
  }

  /** The error is the server's answer to one of the attempts. */
  predicate FailsWith(creates: seq<Event>, error: Error) {
    exists e <- creates :: e.PodCreateFailed? && e.error == error
  }

  lemma FailsLater(a: seq<Event>, b: seq<Event>, error: Error)
    requires FailsWith(a, error) || FailsWith(b, error)
    ensures FailsWith(a + b, error)
  {
    var e :| (e in a || e in b) && e.PodCreateFailed? && e.error == error;
    assert e in a + b;
  }

  predicate IsAttempt(e: Event, pods: seq<Pod>) {
    (e.PodCreated? && e.pod in pods) || (e.PodCreateFailed? && e.refused in pods)
  }

  lemma {:induction false} FirstFailureOf(outcomes: seq<bool>, f: nat)
    requires f <= |outcomes|
    requires forall i | 0 <= i < f :: outcomes[i]
    requires f < |outcomes| ==> !outcomes[f]
    ensures FirstFailure(outcomes) == f
  {
  }

  lemma {:induction false} AllSucceed(outcomes: seq<bool>)
    ensures Successes(outcomes) <= |outcomes|
    ensures Successes(outcomes) == |outcomes| <==> forall i | 0 <= i < |outcomes| :: outcomes[i]
  {
    if outcomes != [] {
      var n := |outcomes| - 1;
      AllSucceed(outcomes[..n]);
      if forall i | 0 <= i < n :: outcomes[..n][i] {
        assert forall i | 0 <= i < |outcomes| :: i < n ==> outcomes[i] == outcomes[..n][i];
      }
    }
  }

  /** The batch of a call starts at a batch boundary, at or before the call, and is as long as all batches before
      it and the first one together. */
  lemma {:induction false} BatchBounds(lo: nat, size: nat, f: nat, initial: nat, k: nat)
    requires initial > 0 && size == initial * Pow2(k) && lo == size - initial && k <= lo <= f
    ensures var b := BatchStart(lo, size, f);
            && b <= f < BatchEnd(lo, size, f) == 2 * b + initial
            && BeginsBatch(initial, b)
    decreases f - lo
  {
    assert initial * (Pow2(k) - 1) == lo;
    if f >= lo + size {
      assert Pow2(k + 1) == 2 * Pow2(k);
      assert initial * (2 * Pow2(k)) == 2 * size;
      BatchBounds(lo + size, 2 * size, f, initial, k + 1);
    }
  }

  /** Accounting for every pattern of failures: no call is made twice or beyond count, all are made when
      nothing fails, and a batch that fails follows only successes and is no longer than those and the first batch
      together. */
  lemma SlowStartAccounts(count: nat, initial: nat, outcomes: seq<bool>)
    requires initial > 0 && SlowStarted(count, initial, outcomes)
    ensures |outcomes| <= count
    ensures Successes(outcomes) == |outcomes| <==> forall i | 0 <= i < |outcomes| :: outcomes[i]
    ensures Successes(outcomes) == |outcomes| ==> |outcomes| == count
    ensures Successes(outcomes) < |outcomes| ==>
              var b := BatchStart(0, initial, FirstFailure(outcomes));
              && BeginsBatch(initial, b) && b <= FirstFailure(outcomes) < |outcomes|
              && Successes(outcomes[..b]) == b
              && |outcomes| == Min(count, b + (b + initial))
  {
    AllSucceed(outcomes);
    var f := FirstFailure(outcomes);
    if f < |outcomes| {
      assert Pow2(0) == 1;
      BatchBounds(0, initial, f, initial, 0);
      AllSucceed(outcomes[..BatchStart(0, initial, f)]);
    }
  }

  lemma {:induction false} BatchesDouble(remaining: nat, size: nat)
    requires size > 0 && remaining > 0
    ensures var k := Batches(remaining, size);
            k > 0 && size * (Pow2(k - 1) - 1) < remaining <= size * (Pow2(k) - 1)
  {
    if remaining > size {
      BatchesDouble(remaining - size, 2 * size);
      var k := Batches(remaining - size, 2 * size);
      var p := Pow2(k - 1);
      assert Pow2(k) == 2 * p && Pow2(k + 1) == 4 * p && Batches(remaining, size) == k + 1;
      assert size * (2 * p - 1) == 2 * size * (p - 1) + size;
      assert size * (4 * p - 1) == 2 * size * (2 * p - 1) + size;
    }
  }

  /** Starting with single calls, k batches suffice for count calls exactly when 2^k exceeds count. */
  lemma BatchesLogarithmic(count: nat)
    ensures var k := Batches(count, 1); Pow2(k) > count && (k > 0 ==> Pow2(k - 1) <= count)
  {
    if count > 0 {
      BatchesDouble(count, 1);
    }
  }

  lemma {:induction false} SuccessesConcat(a: seq<bool>, b: seq<bool>)
    ensures Successes(a + b) == Successes(a) + Successes(b)
  {
    if b == [] {
      assert a + b == a;
    } else {
      assert (a + b)[..|a + b| - 1] == a + b[..|b| - 1];
      SuccessesConcat(a, b[..|b| - 1]);
    }
  }

  /** Which of the attempts were accepted. */
  function Outcomes(creates: seq<Event>): seq<bool> {
    seq(|creates|, i requires 0 <= i < |creates| => creates[i].PodCreated?)
  }

  /** Some pods were tried in order, each once; those are all the calls made, and the rest of what the log has grown
      by is what others did. */
  ghost predicate Tried(c: Client, before: seq<Event>, after: seq<Event>, pods: seq<Pod>, creates: seq<Event>) {
    && before <= after && |creates| <= |pods|
    && (forall i | 0 <= i < |creates| :: Attempts(creates[i], pods[i], creates[i].PodCreated?))
    && Did(before, after, creates)
    && (c.calm ==> after == before + creates)
    && (forall k | |before| <= k < |after| ::
          IsNoise(c.Selector(), c.exclusive, after[k]) || IsAttempt(after[k], pods))
  }

  lemma TriedMore(c: Client, before: seq<Event>, middle: seq<Event>, after: seq<Event>, pods: seq<Pod>,
                  a: seq<Event>, b: seq<Event>, n: nat)
    requires |a| + n <= |pods|
    requires Tried(c, before, middle, pods, a)
    requires Tried(c, middle, after, pods[|a|..][..n], b)
    ensures Tried(c, before, after, pods, a + b)
    ensures Outcomes(a + b) == Outcomes(a) + Outcomes(b)
  {
    hide CallsOf;
    DidMore(before, middle, after, a, b);
    forall k | |before| <= k < |after|
      ensures IsNoise(c.Selector(), c.exclusive, after[k]) || IsAttempt(after[k], pods)
    {
      if k < |middle| {
        assert after[k] == middle[k];
      }
    }
    forall i | 0 <= i < |a + b|
      ensures Attempts((a + b)[i], pods[i], (a + b)[i].PodCreated?)
    {
      if i >= |a| {
        assert pods[|a|..][..n][i - |a|] == pods[i];
      }
    }
    if c.calm {
      assert before + (a + b) == (before + a) + b;
    }
  }

  /** One call of a batch: receive a pod and try to create it. */
  method CallOnce(c: Client, channel: Channel) returns (err: Option<Error>, ghost creates: seq<Event>)
    requires c.Valid() && channel.queue != []
    modifies c, channel
    ensures c.Valid() && c.KeepsRevisions(old(c.s))
    ensures channel.queue == old(channel.queue)[1..]
    ensures |creates| == 1 && (creates[0].PodCreated? <==> err.None?)
    ensures err.Some? ==> ByServer(err.value) && FailsWith(creates, err.value)
    ensures c.reliable ==> err.None?
    ensures Tried(c, old(c.log), c.log, old(channel.queue)[..1], creates)
  {
    hide Client.Valid, CallsOf, Replay, IsNoise;
    var pod := channel.Receive();
    err := c.CreatePod(pod);
    creates := [c.Last()];
    assert c.Last() in creates;
    assert old(channel.queue)[..1][0] == pod;
  }

  lemma NoSuccesses()
    ensures Successes(Outcomes([])) == 0
  {
  }

  lemma SuccessOfOne(outcomes: seq<bool>)
    requires |outcomes| == 1
    ensures Successes(outcomes) == if outcomes[0] then 1 else 0
  {
    assert outcomes[..0] == [];
  }

  lemma TriedNothing(c: Client, log: seq<Event>, pods: seq<Pod>)
    ensures Tried(c, log, log, pods, [])
  {
    DidNothing(log);
    assert log + [] == log;
  }

  /** One batch: every goroutine makes its call, whatever the others report. */
  method CallBatch(c: Client, channel: Channel, batchSize: nat)
      returns (failures: nat, err: Option<Error>, ghost creates: seq<Event>)
    requires c.Valid() && batchSize <= |channel.queue|
    modifies c, channel
    ensures c.Valid() && c.KeepsRevisions(old(c.s))
    ensures |creates| == batchSize && channel.queue == old(channel.queue)[batchSize..]
    ensures Successes(Outcomes(creates)) + failures == batchSize
    ensures failures > 0 <==> err.Some?
    ensures err.Some? ==> ByServer(err.value) && FailsWith(creates, err.value)
    ensures c.reliable ==> err.None?
    ensures Tried(c, old(c.log), c.log, old(channel.queue)[..batchSize], creates)
  {
    hide Client.Valid, Tried, Replay, Successes, FailsWith;
    ghost var pods := channel.queue[..batchSize];
    failures, err, creates := 0, None, [];
    TriedNothing(c, c.log, pods);
    NoSuccesses();
    for i := 0 to batchSize
      invariant c.Valid() && c.KeepsRevisions(old(c.s))
      invariant |creates| == i && channel.queue == old(channel.queue)[i..]
      invariant Successes(Outcomes(creates)) + failures == i
      invariant failures > 0 <==> err.Some?
      invariant err.Some? ==> ByServer(err.value) && FailsWith(creates, err.value)
      invariant c.reliable ==> err.None?
      invariant Tried(c, old(c.log), c.log, pods, creates)
    {
      ghost var middle := c.log;
      var refused;
      ghost var call;
      refused, call := CallOnce(c, channel);
      assert pods[i..][..1] == old(channel.queue)[i..][..1];
      TriedMore(c, old(c.log), middle, c.log, pods, creates, call, 1);
      SuccessesConcat(Outcomes(creates), Outcomes(call));
      SuccessOfOne(Outcomes(call));
      if refused.Some? {
        failures := failures + 1;
        err := if err.Some? then err else refused;
      }
      if err.Some? {
        FailsLater(creates, call, err.value);
      }
      creates := creates + call;
    }
  }

  /** How far the doubling has got: done calls behind it, none of them failed, and a next batch of size. */
  ghost predicate Ramping(count: nat, initial: int, outcomes: seq<bool>, size: int, batches: nat) {
    && (forall i | 0 <= i < |outcomes| :: outcomes[i])
    && (initial <= 0 ==> size == initial && outcomes == [])
    && (initial > 0 ==>
          && size > 0 && |outcomes| <= count
          && batches + Batches(count - |outcomes|, size) == Batches(count, initial)
          && forall f: nat | |outcomes| <= f < count :: BatchEnd(0, initial, f) == BatchEnd(|outcomes|, size, f))
  }

  lemma RampingStarts(count: nat, initial: int)
    ensures Ramping(count, initial, Outcomes([]), initial, 0)
  {
  }

  lemma RampingGrows(count: nat, initial: int, outcomes: seq<bool>, size: int, batches: nat, outs: seq<bool>)
    requires Ramping(count, initial, outcomes, size, batches) && |outcomes| < count && size > 0
    requires |outs| == Min(count - |outcomes|, size) && forall i | 0 <= i < |outs| :: outs[i]
    ensures Ramping(count, initial, outcomes + outs, 2 * size, batches + 1)
  {
    var all, done := outcomes + outs, |outcomes|;
    forall f: nat | |all| <= f < count
      ensures BatchEnd(0, initial, f) == BatchEnd(|all|, 2 * size, f)
    {
      assert BatchEnd(0, initial, f) == BatchEnd(done, size, f);
    }
  }

  lemma RampingFails(count: nat, initial: int, outcomes: seq<bool>, size: int, batches: nat, outs: seq<bool>)
    requires Ramping(count, initial, outcomes, size, batches) && |outcomes| < count && size > 0
    requires |outs| == Min(count - |outcomes|, size) && !forall i | 0 <= i < |outs| :: outs[i]
    ensures initial > 0 && SlowStarted(count, initial, outcomes + outs)
  {
    var all, done := outcomes + outs, |outcomes|;
    var i :| 0 <= i < |outs| && !outs[i];
    assert !all[done + i];
    var f := FirstFailure(all);
    assert done <= f < done + size;
    assert BatchEnd(0, initial, f) == BatchEnd(done, size, f);
  }

  lemma RampingNext(count: nat, initial: int, outcomes: seq<bool>, size: int, batches: nat, outs: seq<bool>)
    requires Ramping(count, initial, outcomes, size, batches) && |outcomes| < count && size > 0
    requires |outs| == Min(count - |outcomes|, size)
    ensures Successes(outs) == |outs| ==> Ramping(count, initial, outcomes + outs, 2 * size, batches + 1)
    ensures initial > 0
    ensures Successes(outs) < |outs| ==> SlowStarted(count, initial, outcomes + outs)
    ensures Successes(outcomes + outs) == |outcomes| + Successes(outs)
  {
    hide SlowStarted;
    AllSucceed(outcomes);
    AllSucceed(outs);
    SuccessesConcat(outcomes, outs);
    if Successes(outs) == |outs| {
      RampingGrows(count, initial, outcomes, size, batches, outs);
    } else {
      RampingFails(count, initial, outcomes, size, batches, outs);
    }
  }

  lemma RampingEnds(count: nat, initial: int, outcomes: seq<bool>, size: int, batches: nat)
    requires Ramping(count, initial, outcomes, size, batches) && Min(count - |outcomes|, size) <= 0
    requires |outcomes| <= count
    ensures Successes(outcomes) == |outcomes|
    ensures initial > 0 ==> SlowStarted(count, initial, outcomes) && batches == Batches(count, initial)
    ensures initial <= 0 ==> outcomes == []
  {
    AllSucceed(outcomes);
    FirstFailureOf(outcomes, |outcomes|);
  }

  /** Receives and creates pods in batches until a batch has a failure in it or all calls are made. */
  method DoItSlowly(c: Client, channel: Channel, count: nat, initialBatchSize: int)
      returns (successes: nat, err: Option<Error>, ghost creates: seq<Event>, ghost batches: nat)
    requires c.Valid()
    requires count <= |channel.queue|
    modifies c, channel
    ensures c.Valid() && c.KeepsRevisions(old(c.s))
    ensures initialBatchSize > 0 ==> SlowStarted(count, initialBatchSize, Outcomes(creates))
    ensures initialBatchSize <= 0 ==> creates == []
    ensures |creates| <= count && channel.queue == old(channel.queue)[|creates|..]
    ensures successes == Successes(Outcomes(creates))
    ensures err.None? <==> successes == |creates|
    ensures err.None? && initialBatchSize > 0 ==> batches == Batches(count, initialBatchSize)
    ensures err.Some? ==> ByServer(err.value) && FailsWith(creates, err.value)
    ensures c.reliable ==> err.None?
    ensures Tried(c, old(c.log), c.log, old(channel.queue), creates)
  {
    hide Ramping, Tried, FailsWith;
    RampingStarts(count, initialBatchSize);
    TriedNothing(c, c.log, channel.queue);
    ghost var pods := channel.queue;
    var remaining := count;
    successes, creates, batches, err := 0, [], 0, None;
    var batchSize := Min(remaining, initialBatchSize);
    ghost var size := initialBatchSize;
    while batchSize > 0
      invariant 0 <= remaining && |creates| + remaining == count && successes == |creates|
      invariant batchSize == Min(remaining, size) && err.None?
      invariant Ramping(count, initialBatchSize, Outcomes(creates), size, batches)
      invariant channel.queue == pods[|creates|..]
      invariant c.Valid() && c.KeepsRevisions(old(c.s))
      invariant Tried(c, old(c.log), c.log, pods, creates)
      decreases remaining
    {
      ghost var middle, calls := c.log, [];
      var failures;
      failures, err, calls := CallBatch(c, channel, batchSize);
      TriedMore(c, old(c.log), middle, c.log, pods, creates, calls, batchSize);
      RampingNext(count, initialBatchSize, Outcomes(creates), size, batches, Outcomes(calls));
      if err.Some? {
        FailsLater(creates, calls, err.value);
      }
      creates := creates + calls;
      successes := successes + (batchSize - failures);
      if failures > 0 {
        return;
      }
      remaining := remaining - batchSize;
      size, batches := 2 * size, batches + 1;
      batchSize := Min(2 * batchSize, remaining);
    }
    RampingEnds(count, initialBatchSize, Outcomes(creates), size, batches);
  }
}
