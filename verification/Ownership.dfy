/** Which pods a workload keeps, releases and adopts. */
module Ownership {
  import opened Objects
  import opened Cluster
  import opened Server

  /** The workload as it was read at the start of a pass. */
  datatype Owner = Owner(uid: Uid, selector: Labels, deleting: bool)

  datatype Verdict = Keep | Ignore | Release | Adopt

  function Judge(o: Owner, p: Pod): Verdict {
    match ControllerOf(p.owners)
    case Some(uid) =>
      if uid != o.uid then Ignore
      else if Matches(o.selector, p.labels) then Keep
      else if o.deleting then Ignore
      else Release
    case None =>
      if o.deleting || !Matches(o.selector, p.labels) || p.terminating then Ignore else Adopt
  }

  predicate NeedsWrite(o: Owner, p: Pod) {
    Judge(o, p).Release? || Judge(o, p).Adopt?
  }

  /** The references without the first one to the owner. */
  function Released(owners: seq<OwnerRef>, uid: Uid): seq<OwnerRef> {
    if owners == [] then []
    else if owners[0].uid == uid then owners[1..]
    else [owners[0]] + Released(owners[1..], uid)
  }

  /** The references with a controller's in place of the first one to the owner, or at the end. */
  function Adopted(owners: seq<OwnerRef>, uid: Uid): seq<OwnerRef> {
    if owners == [] then [OwnerRef(uid, true)]
    else if owners[0].uid == uid then [OwnerRef(uid, true)] + owners[1..]
    else [owners[0]] + Adopted(owners[1..], uid)
  }

  /** The pod once it is dealt with. */
  function Settled(o: Owner, p: Pod): Pod {
    match Judge(o, p)
    case Release => p.(owners := Released(p.owners, o.uid))
    case Adopt => p.(owners := Adopted(p.owners, o.uid))
    case _ => p
  }

  predicate IsClaimed(o: Owner, p: Pod) {
    Judge(o, p).Keep? || Judge(o, p).Adopt?
  }

  /** The pods claimed out of a list, as they are then. */
  function Kept(o: Owner, pods: seq<Pod>): seq<Pod> {
    if pods == [] then []
    else
      var n := |pods| - 1;
      Kept(o, pods[..n]) + if IsClaimed(o, pods[n]) then [Settled(o, pods[n])] else []
  }

  /** The writes it takes to deal with a list of pods. */
  function Settlements(o: Owner, pods: seq<Pod>): seq<Event> {
    if pods == [] then []
    else
      var n := |pods| - 1;
      Settlements(o, pods[..n])
      + if NeedsWrite(o, pods[n]) then [PodOwned(pods[n].id, Settled(o, pods[n]).owners)] else []
  }

  // ---- What the verdicts achieve

  predicate OneController(owners: seq<OwnerRef>) {
    forall i, j | 0 <= i < j < |owners| :: !(owners[i].controller && owners[j].controller)
  }

  lemma {:induction false} ControllerOfNone(owners: seq<OwnerRef>)
    ensures ControllerOf(owners).None? <==> forall r <- owners :: !r.controller
  {
    if owners != [] {
      ControllerOfNone(owners[1..]);
      assert owners == [owners[0]] + owners[1..];
    }
  }

  lemma {:induction false} ControllerOfSome(owners: seq<OwnerRef>) returns (i: nat)
    requires ControllerOf(owners).Some?
    ensures i < |owners| && owners[i] == OwnerRef(ControllerOf(owners).value, true)
    ensures forall j | 0 <= j < i :: !owners[j].controller
  {
    if owners[0].controller {
      i := 0;
    } else {
      i := ControllerOfSome(owners[1..]);
      i := i + 1;
    }
  }

  /** The first reference to an owner, if there is any. */
  function FirstRef(owners: seq<OwnerRef>, uid: Uid): (i: nat)
    ensures i <= |owners|
    ensures forall j | 0 <= j < i :: owners[j].uid != uid
    ensures i < |owners| ==> owners[i].uid == uid
  {
    if owners == [] || owners[0].uid == uid then 0 else 1 + FirstRef(owners[1..], uid)
  }

  lemma HasRef(owners: seq<OwnerRef>, uid: Uid, j: nat)
    requires j < |owners| && owners[j].uid == uid
    ensures FirstRef(owners, uid) < |owners|
  {
  }

  lemma CutBehind(first: OwnerRef, rest: seq<OwnerRef>, i: nat)
    requires i < |rest|
    ensures var owners := [first] + rest; owners[..i + 1] + owners[i + 2..] == [first] + (rest[..i] + rest[i + 1..])
  {
  }

  /** Releasing takes out exactly the first reference to the owner; the others keep their order. */
  lemma {:induction false} ReleasedExactly(owners: seq<OwnerRef>, uid: Uid)
    ensures var i := FirstRef(owners, uid);
            Released(owners, uid) == if i < |owners| then owners[..i] + owners[i + 1..] else owners
  {
    if owners != [] {
      var first, rest := owners[0], owners[1..];
      assert owners == [first] + rest;
      if first.uid == uid {
        assert owners[..0] + owners[1..] == rest;
      } else {
        ReleasedExactly(rest, uid);
        var i := FirstRef(rest, uid);
        if i < |rest| {
          CutBehind(first, rest, i);
        }
      }
    }
  }

  /** Adopting puts one reference in the place of the first to the owner, or at the end. */
  lemma {:induction false} AdoptedExactly(owners: seq<OwnerRef>, uid: Uid)
    ensures var i := FirstRef(owners, uid);
            Adopted(owners, uid)
            == if i < |owners| then owners[i := OwnerRef(uid, true)] else owners + [OwnerRef(uid, true)]
  {
    if owners != [] {
      var first, rest, ref := owners[0], owners[1..], OwnerRef(uid, true);
      assert owners == [first] + rest;
      if first.uid == uid {
        assert owners[0 := ref] == [ref] + rest;
      } else {
        AdoptedExactly(rest, uid);
        var i := FirstRef(rest, uid);
        if i < |rest| {
          assert owners[i + 1 := ref] == [first] + rest[i := ref];
        } else {
          assert owners + [ref] == [first] + (rest + [ref]);
        }
      }
    }
  }

  lemma ReleasedKeepsOne(owners: seq<OwnerRef>, uid: Uid)
    requires OneController(owners)
    ensures OneController(Released(owners, uid))
  {
    ReleasedExactly(owners, uid);
    var rest, f := Released(owners, uid), FirstRef(owners, uid);
    forall i, j | 0 <= i < j < |rest|
      ensures !(rest[i].controller && rest[j].controller)
    {
      assert rest[i] == owners[if i < f then i else i + 1] && rest[j] == owners[if j < f then j else j + 1];
    }
  }

  lemma AdoptedKeepsOne(owners: seq<OwnerRef>, uid: Uid)
    requires ControllerOf(owners).None?
    ensures OneController(Adopted(owners, uid))
  {
    AdoptedExactly(owners, uid);
    ControllerOfNone(owners);
    var all, f := Adopted(owners, uid), FirstRef(owners, uid);
    forall i | 0 <= i < |all| && i != f
      ensures !all[i].controller
    {
      assert all[i] == owners[i] && owners[i] in owners;
    }
  }

  /** No pod gets a second controller. */
  lemma KeepsOneController(o: Owner, p: Pod)
    requires OneController(p.owners)
    ensures OneController(Settled(o, p).owners)
  {
    hide OneController, Released, Adopted;
    ReleasedKeepsOne(p.owners, o.uid);
    if Judge(o, p).Adopt? {
      AdoptedKeepsOne(p.owners, o.uid);
    }
  }

  predicate FirstRefControls(owners: seq<OwnerRef>, uid: Uid) {
    var i := FirstRef(owners, uid);
    i < |owners| && owners[i].controller
  }

  lemma {:induction false} AdoptControls(owners: seq<OwnerRef>, uid: Uid)
    requires ControllerOf(owners).None?
    ensures ControllerOf(Adopted(owners, uid)) == Some(uid)
  {
    if owners != [] && owners[0].uid != uid {
      AdoptControls(owners[1..], uid);
    }
  }

  /** What is claimed matches the selector and is controlled by the owner, and pods that others control
      are left alone; while the owner is being deleted nothing is written. */
  lemma ClaimedIsOwned(o: Owner, p: Pod)
    ensures IsClaimed(o, p) ==>
              Matches(o.selector, Settled(o, p).labels) && ControllerOf(Settled(o, p).owners) == Some(o.uid)
    ensures Mine(o.uid, o.selector, p) ==> Settled(o, p) == p && IsClaimed(o, p)
    ensures ControllerOf(p.owners).Some? && ControllerOf(p.owners) != Some(o.uid) ==>
              !NeedsWrite(o, p) && !IsClaimed(o, p)
    ensures o.deleting ==> !NeedsWrite(o, p)
    ensures Settled(o, p) == p.(owners := Settled(o, p).owners)
  {
    if Judge(o, p).Adopt? {
      AdoptControls(p.owners, o.uid);
    }
  }

  /** Once released by an owner that controls it, a pod has no controller exactly when its first reference to the
      owner was the controller's; otherwise the owner still controls it. */
  lemma ReleaseFrees(owners: seq<OwnerRef>, uid: Uid)
    requires OneController(owners) && ControllerOf(owners) == Some(uid)
    ensures ControllerOf(Released(owners, uid)) == if FirstRefControls(owners, uid) then None else Some(uid)
  {
    hide Released, ControllerOf, FirstRef;
    var i, rest := FirstRef(owners, uid), Released(owners, uid);
    var j := ControllerOfSome(owners);
    ReleasedExactly(owners, uid);
    ControllerOfNone(rest);
    if i == j {
      forall r | r in rest
        ensures !r.controller
      {
        var k :| 0 <= k < |rest| && rest[k] == r;
        assert r == owners[if k < i then k else k + 1];
      }
    } else {
      assert rest[j - 1] == owners[j];
      ReleasedKeepsOne(owners, uid);
      var k := ControllerOfSome(rest);
    }
  }

  /** A second look at a pod dealt with asks for no write and gives the same answer, exactly unless it was released
      and its first reference to the owner was not the controller's. */
  lemma SecondLookIff(o: Owner, p: Pod)
    requires OneController(p.owners)
    ensures var q := Settled(o, p);
            !NeedsWrite(o, q) && Settled(o, q) == q && IsClaimed(o, q) == IsClaimed(o, p)
            <==> Judge(o, p).Release? ==> FirstRefControls(p.owners, o.uid)
  {
    hide OneController, Released, Adopted, FirstRefControls;
    ClaimedIsOwned(o, p);
    if Judge(o, p).Release? {
      ReleaseFrees(p.owners, o.uid);
    }
  }

  /** Such a pod: its first reference to the owner is not the controller's, and it has to be released twice. */
  lemma ReleasedTwice()
    ensures var o := Owner(7, map["app" := "a"], false);
            var p := Pod(0, map[], Null, 0, [OwnerRef(7, false), OwnerRef(7, true)], false);
            && OneController(p.owners) && Judge(o, p).Release?
            && Settled(o, p).owners == [OwnerRef(7, true)] && Judge(o, Settled(o, p)).Release?
            && Settled(o, Settled(o, p)).owners == []
  {
    var owners := [OwnerRef(7, false), OwnerRef(7, true)];
    assert ControllerOf(owners) == ControllerOf(owners[1..]);
    assert "app" in map["app" := "a"];
  }

  // ---- Lists of pods

  /** The pods claimed are among those listed, each at most once. */
  lemma {:induction false} KeptDistinct(o: Owner, pods: seq<Pod>)
    requires forall i, j | 0 <= i < j < |pods| :: pods[i].id != pods[j].id
    ensures forall q <- Kept(o, pods) :: exists p :: p in pods && IsClaimed(o, p) && q == Settled(o, p) && q.id == p.id
    ensures forall i, j | 0 <= i < j < |Kept(o, pods)| :: Kept(o, pods)[i].id != Kept(o, pods)[j].id
  {
    hide Settled, IsClaimed;
    if pods != [] {
      var n := |pods| - 1;
      KeptDistinct(o, pods[..n]);
      assert pods == pods[..n] + [pods[n]];
      ClaimedIsOwned(o, pods[n]);
    }
  }

  lemma {:induction false} KeptExactly(o: Owner, pods: seq<Pod>)
    ensures forall q :: q in Kept(o, pods) <==> exists p :: p in pods && IsClaimed(o, p) && q == Settled(o, p)
  {
    hide Settled, IsClaimed;
    if pods != [] {
      var n := |pods| - 1;
      KeptExactly(o, pods[..n]);
      assert pods == pods[..n] + [pods[n]];
    }
  }

  lemma {:induction false} SettlementsAreWrites(o: Owner, pods: seq<Pod>)
    ensures forall e <- Settlements(o, pods) :: e.PodOwned?
  {
    if pods != [] {
      SettlementsAreWrites(o, pods[..|pods| - 1]);
    }
  }

  /** The pods claimed keep the order of the list. */
  lemma {:induction false} KeptInOrder(o: Owner, pods: seq<Pod>, i: nat, j: nat) returns (k: nat, l: nat)
    requires i < j < |pods| && IsClaimed(o, pods[i]) && IsClaimed(o, pods[j])
    ensures k < l < |Kept(o, pods)| && Kept(o, pods)[k] == Settled(o, pods[i]) && Kept(o, pods)[l] == Settled(o, pods[j])
  {
    hide Settled, IsClaimed;
    var n := |pods| - 1;
    if j < n {
      k, l := KeptInOrder(o, pods[..n], i, j);
    } else {
      KeptExactly(o, pods[..n]);
      assert pods[..n][i] == pods[i] && pods[i] in pods[..n] && Settled(o, pods[i]) in Kept(o, pods[..n]);
      k :| 0 <= k < |Kept(o, pods[..n])| && Kept(o, pods[..n])[k] == Settled(o, pods[i]);
      l := |Kept(o, pods[..n])|;
    }
  }

  lemma {:induction false} SettlementsExactly(o: Owner, pods: seq<Pod>)
    ensures forall e :: e in Settlements(o, pods) <==>
              exists p :: p in pods && NeedsWrite(o, p) && e == PodOwned(p.id, Settled(o, p).owners)
  {
    hide Settled, NeedsWrite;
    if pods != [] {
      var n := |pods| - 1;
      SettlementsExactly(o, pods[..n]);
      assert pods == pods[..n] + [pods[n]];
    }
  }

  // ---- What claiming promises

  /** Of the pods claimed, the one with the id is this one, or there is none. */
  predicate ClaimedAs(claimed: seq<Pod>, id: PodId, p: Option<Pod>) {
    && (p.Some? ==> p.value in claimed)
    && forall q <- claimed :: q.id == id ==> p == Some(q)
  }

  /** Of the writes, the one to the pod with the id is of these owners, or there is none. */
  predicate WrittenAs(writes: seq<Event>, id: PodId, owners: Option<seq<OwnerRef>>) {
    && (owners.Some? ==> PodOwned(id, owners.value) in writes)
    && forall e <- writes :: e.PodOwned? && e.id == id ==> owners == Some(e.owners)
  }

  /** A pod that is controlled by the workload is kept if it is selected, and else loses its first reference to it; one
      that nobody controls comes under its control if it is active and selected; any other is let be. A workload that is
      being deleted writes to none. */
  ghost predicate DealtWith(o: Owner, p: Pod, claimed: seq<Pod>, writes: seq<Event>) {
    var selected := forall k <- o.selector :: k in p.labels && p.labels[k] == o.selector[k];
    if ControllerOf(p.owners) == Some(o.uid) && selected then
      ClaimedAs(claimed, p.id, Some(p)) && WrittenAs(writes, p.id, None)
    else if ControllerOf(p.owners) == Some(o.uid) && !o.deleting then
      var i := FirstRef(p.owners, o.uid);
      && i < |p.owners|
      && ClaimedAs(claimed, p.id, None) && WrittenAs(writes, p.id, Some(p.owners[..i] + p.owners[i + 1..]))
    else if ControllerOf(p.owners).None? && selected && !p.terminating && !o.deleting then
      exists owners :: ControllerOf(owners) == Some(o.uid)
                       && ClaimedAs(claimed, p.id, Some(p.(owners := owners))) && WrittenAs(writes, p.id, Some(owners))
    else
      ClaimedAs(claimed, p.id, None) && WrittenAs(writes, p.id, None)
  }

  lemma OnlyOneWithId(pods: seq<Pod>, p: Pod, q: Pod)
    requires forall i, j | 0 <= i < j < |pods| :: pods[i].id != pods[j].id
    requires p in pods && q in pods && p.id == q.id
    ensures p == q
  {
  }

  /** What becomes of one pod of a list. */
  lemma BecomesOf(o: Owner, pods: seq<Pod>, p: Pod)
    requires forall i, j | 0 <= i < j < |pods| :: pods[i].id != pods[j].id
    requires p in pods
    ensures ClaimedAs(Kept(o, pods), p.id, if IsClaimed(o, p) then Some(Settled(o, p)) else None)
    ensures WrittenAs(Settlements(o, pods), p.id, if NeedsWrite(o, p) then Some(Settled(o, p).owners) else None)
  {
    hide Kept, Settlements, IsClaimed, NeedsWrite, Settled;
    KeptExactly(o, pods);
    SettlementsExactly(o, pods);
    forall q | q in Kept(o, pods) && q.id == p.id
      ensures IsClaimed(o, p) && q == Settled(o, p)
    {
      var r :| r in pods && IsClaimed(o, r) && q == Settled(o, r);
      ClaimedIsOwned(o, r);
      OnlyOneWithId(pods, p, r);
    }
    forall e | e in Settlements(o, pods) && e.PodOwned? && e.id == p.id
      ensures NeedsWrite(o, p) && e.owners == Settled(o, p).owners
    {
      var r :| r in pods && NeedsWrite(o, r) && e == PodOwned(r.id, Settled(o, r).owners);
      OnlyOneWithId(pods, p, r);
    }
  }

  /** Every pod of a list is dealt with so. */
  lemma AllDealtWith(o: Owner, pods: seq<Pod>)
    requires forall i, j | 0 <= i < j < |pods| :: pods[i].id != pods[j].id
    ensures forall p <- pods :: DealtWith(o, p, Kept(o, pods), Settlements(o, pods))
  {
    hide Kept, Settlements, ClaimedAs, WrittenAs, ControllerOf, Released, Adopted;
    forall p | p in pods
      ensures DealtWith(o, p, Kept(o, pods), Settlements(o, pods))
    {
      BecomesOf(o, pods, p);
      ClaimedIsOwned(o, p);
      if ControllerOf(p.owners) == Some(o.uid) {
        var j := ControllerOfSome(p.owners);
        HasRef(p.owners, o.uid, j);
        ReleasedExactly(p.owners, o.uid);
      }
    }
  }

  /** Writing owners creates and removes no pod, and changes nothing else. */
  lemma {:induction false} OwningKeepsIds(s: State, es: seq<Event>)
    requires forall e <- es :: e.PodOwned?
    ensures var t := Replay(s, es); t.pods.Keys == s.pods.Keys && t == s.(pods := t.pods, version := t.version)
  {
    if es != [] {
      assert es[|es| - 1] in es;
      OwningKeepsIds(s, es[..|es| - 1]);
    }
  }

  // ---- The reference manager

  predicate Settlement(o: Owner, mayAdopt: bool, pods: seq<Pod>, e: Event) {
    exists p <- pods ::
      NeedsWrite(o, p) && (Judge(o, p).Adopt? ==> mayAdopt) && e == PodOwned(p.id, Settled(o, p).owners)
  }

  /** The log has grown by writes that deal with pods of a list, by refusals, a failed read and by what others did. */
  ghost predicate Settles(c: Client, o: Owner, mayAdopt: bool, pods: seq<Pod>, before: seq<Event>, after: seq<Event>) {
    && before <= after
    && forall k | |before| <= k < |after| ::
         || IsNoise(c.Selector(), c.exclusive, after[k]) || after[k].PodOwnFailed? || after[k].ReadFailed?
         || Settlement(o, mayAdopt, pods, after[k])
  }

  /** The write of the owners that a pod is to have, accepted, or refused with the error that is wrapped up. */
  predicate TriesToSettle(o: Owner, p: Pod, err: Option<Error>, e: Event) {
    if err.None? then e == PodOwned(p.id, Settled(o, p).owners)
    else err.value.Wrapped? && e == PodOwnFailed(p.id, Settled(o, p).owners, err.value.inner)
  }

  /** The error of a read, unless the error is the caller's own. */
  function ByRead(err: Option<Error>): Option<Error> {
    if err.Some? && ByServer(err.value) then err else None
  }

  /** All the calls made for one pod, and the error they end with: one write if the pod has to be released; one if it has
      to be adopted and the check for that, made for the first such pod, found nothing against it; and else none. */
  predicate SettlesOne(o: Owner, p: Pod, first: bool, gate: Option<Error>, err: Option<Error>, calls: seq<Event>) {
    match Judge(o, p)
    case Release => |calls| == 1 && TriesToSettle(o, p, err, calls[0])
    case Adopt =>
      if gate.Some? then err == Some(Wrapped(gate.value)) && calls == if first then FailedRead(gate) else []
      else |calls| == 1 && TriesToSettle(o, p, err, calls[0])
    case _ => err.None? && calls == []
  }

  predicate AnyAdopted(o: Owner, pods: seq<Pod>) {
    exists p <- pods :: Judge(o, p).Adopt?
  }

  /** How many calls that are. */
  function Share(o: Owner, p: Pod, first: bool, gate: Option<Error>): nat {
    match Judge(o, p)
    case Release => 1
    case Adopt => if gate.None? then 1 else if first then |FailedRead(gate)| else 0
    case _ => 0
  }

  /** And the error. */
  function ErrorIn(o: Owner, p: Pod, gate: Option<Error>, calls: seq<Event>): Option<Error> {
    if Judge(o, p).Adopt? && gate.Some? then Some(Wrapped(gate.value))
    else if calls != [] && calls[0].PodOwnFailed? then Some(Wrapped(calls[0].error))
    else None
  }

  /** All the calls that deal with a list of pods, in order and whichever of them are refused, and the first error. */
  predicate Settling(o: Owner, pods: seq<Pod>, gate: Option<Error>, calls: seq<Event>, err: Option<Error>) {
    if pods == [] then calls == [] && err.None?
    else
      var n := |pods| - 1;
      var first := !AnyAdopted(o, pods[..n]);
      var k := Share(o, pods[n], first, gate);
      && k <= |calls|
      && var front, own := calls[..|calls| - k], calls[|calls| - k..];
         var e := ErrorIn(o, pods[n], gate, own);
         && SettlesOne(o, pods[n], first, gate, e, own)
         && if e.None? then Settling(o, pods[..n], gate, front, err)
            else err.Some?
                 && (Settling(o, pods[..n], gate, front, err) || (err == e && Settling(o, pods[..n], gate, front, None)))
  }

  lemma OneWrite(o: Owner, p: Pod)
    requires NeedsWrite(o, p)
    ensures Settlements(o, [p]) == [PodOwned(p.id, Settled(o, p).owners)]
  {
    assert [p][..0] == [];
  }

  lemma NoWrite(o: Owner, p: Pod)
    requires !NeedsWrite(o, p)
    ensures Settlements(o, [p]) == []
  {
    assert [p][..0] == [];
  }

  lemma SharesOf(o: Owner, p: Pod, first: bool, gate: Option<Error>, err: Option<Error>, calls: seq<Event>)
    requires SettlesOne(o, p, first, gate, err, calls)
    ensures |calls| == Share(o, p, first, gate) && err == ErrorIn(o, p, gate, calls)
  {
    hide Judge, Settled;
  }

  lemma SettlingMore(o: Owner, pods: seq<Pod>, i: nat, gate: Option<Error>, calls: seq<Event>, err: Option<Error>,
                     more: seq<Event>, e: Option<Error>)
    requires i < |pods| && Settling(o, pods[..i], gate, calls, err)
    requires SettlesOne(o, pods[i], !AnyAdopted(o, pods[..i]), gate, e, more)
    ensures Settling(o, pods[..i + 1], gate, calls + more, if err.Some? then err else e)
  {
    hide SettlesOne, Share, ErrorIn, AnyAdopted;
    assert pods[..i + 1][..i] == pods[..i];
    SharesOf(o, pods[i], !AnyAdopted(o, pods[..i]), gate, e, more);
    assert (calls + more)[..|calls|] == calls && (calls + more)[|calls|..] == more;
  }

  /** Where no pod has to be adopted the check does not matter. */
  lemma AnyGate(o: Owner, p: Pod, first: bool, gate: Option<Error>, first': bool, gate': Option<Error>,
                err: Option<Error>, calls: seq<Event>)
    requires SettlesOne(o, p, first, gate, err, calls) && !Judge(o, p).Adopt?
    ensures SettlesOne(o, p, first', gate', err, calls)
  {
    hide Judge;
  }

  lemma AnyAdoptedMore(o: Owner, pods: seq<Pod>, i: nat)
    requires i < |pods|
    ensures AnyAdopted(o, pods[..i + 1]) <==> AnyAdopted(o, pods[..i]) || Judge(o, pods[i]).Adopt?
  {
    assert pods[..i + 1] == pods[..i] + [pods[i]];
  }

  lemma SettlesMore(c: Client, o: Owner, mayAdopt: bool, pods: seq<Pod>, p: Pod, before: seq<Event>,
                    middle: seq<Event>, after: seq<Event>)
    requires Settles(c, o, mayAdopt, pods, before, middle) && Settles(c, o, mayAdopt, [p], middle, after)
    ensures Settles(c, o, mayAdopt, pods + [p], before, after)
  {
    forall k | |before| <= k < |after|
      ensures || IsNoise(c.Selector(), c.exclusive, after[k]) || after[k].PodOwnFailed? || after[k].ReadFailed?
              || Settlement(o, mayAdopt, pods + [p], after[k])
    {
      if k < |middle| {
        assert after[k] == middle[k];
        if Settlement(o, mayAdopt, pods, middle[k]) {
          var q :| q in pods && NeedsWrite(o, q) && (Judge(o, q).Adopt? ==> mayAdopt)
                   && middle[k] == PodOwned(q.id, Settled(o, q).owners);
          assert q in pods + [p];
        }
      } else if Settlement(o, mayAdopt, [p], after[k]) {
        assert p in pods + [p];
      }
    }
  }

  lemma WriteIsSettlement(o: Owner, p: Pod, mayAdopt: bool)
    requires NeedsWrite(o, p) && (Judge(o, p).Adopt? ==> mayAdopt)
    ensures Settlement(o, mayAdopt, [p], PodOwned(p.id, Settled(o, p).owners))
  {
    assert p in [p];
  }

  lemma NothingSettled(c: Client, o: Owner, mayAdopt: bool, log: seq<Event>)
    ensures Settles(c, o, mayAdopt, [], log, log) && Did(log, log, [])
    ensures Kept(o, []) == [] && Settlements(o, []) == [] && !AnyAdopted(o, [])
    ensures forall gate :: Settling(o, [], gate, [], None)
  {
    DidNothing(log);
  }

  lemma SettledOne(o: Owner, p: Pod, first: bool, gate: Option<Error>, err: Option<Error>, calls: seq<Event>)
    requires SettlesOne(o, p, first, gate, err, calls) && err.None?
    ensures calls == Settlements(o, [p])
  {
    hide Judge, Settled;
    if NeedsWrite(o, p) {
      OneWrite(o, p);
      assert calls == [calls[0]];
    } else {
      NoWrite(o, p);
    }
  }

  lemma NoCall(c: Client, o: Owner, mayAdopt: bool, p: Pod, before: seq<Event>, after: seq<Event>)
    requires before <= after
    requires forall k | |before| <= k < |after| :: IsNoise(c.Selector(), c.exclusive, after[k]) || after[k].ReadFailed?
    ensures Settles(c, o, mayAdopt, [p], before, after)
  {
  }

  /** One write to a pod, after a read, deals with it. */
  lemma OneCall(c: Client, o: Owner, mayAdopt: bool, p: Pod, before: seq<Event>, middle: seq<Event>, after: seq<Event>)
    requires before <= middle < after
    requires NoiseOnly(c.Selector(), c.exclusive, middle, |before|, |middle|)
    requires NoiseOnly(c.Selector(), c.exclusive, after, |middle|, |after| - 1)
    requires after[|after| - 1].PodOwnFailed? || Settlement(o, mayAdopt, [p], after[|after| - 1])
    requires Did(before, middle, []) && Did(middle, after, [after[|after| - 1]])
    ensures Settles(c, o, mayAdopt, [p], before, after) && Did(before, after, [after[|after| - 1]])
  {
    hide CallsOf;
    DidMore(before, middle, after, [], [after[|after| - 1]]);
    assert [] + [after[|after| - 1]] == [after[|after| - 1]];
    forall k | |before| <= k < |after|
      ensures || IsNoise(c.Selector(), c.exclusive, after[k]) || after[k].PodOwnFailed? || after[k].ReadFailed?
              || Settlement(o, mayAdopt, [p], after[k])
    {
      if k < |middle| {
        assert after[k] == middle[k];
      }
    }
  }

  lemma OneMore(o: Owner, pods: seq<Pod>, i: nat)
    requires i < |pods|
    ensures pods[..i + 1] == pods[..i] + [pods[i]]
    ensures Kept(o, pods[..i + 1]) == Kept(o, pods[..i]) + if IsClaimed(o, pods[i]) then [Settled(o, pods[i])] else []
    ensures Settlements(o, pods[..i + 1]) == Settlements(o, pods[..i]) + Settlements(o, [pods[i]])
    ensures |Settlements(o, [pods[i]])| <= 1
  {
    assert pods[..i + 1][..i] == pods[..i];
    assert [pods[i]][..0] == [];
  }

  lemma ReleaseSettles(o: Owner, mayAdopt: bool, p: Pod)
    requires Judge(o, p).Release?
    ensures ControllerOf(p.owners) == Some(o.uid)
    ensures var owners := Released(p.owners, o.uid);
            && (forall first, gate :: SettlesOne(o, p, first, gate, None, [PodOwned(p.id, owners)]))
            && (forall first, gate, e :: SettlesOne(o, p, first, gate, Some(Wrapped(e)), [PodOwnFailed(p.id, owners, e)]))
            && Settlement(o, mayAdopt, [p], PodOwned(p.id, owners))
  {
    hide Released, Settlement, Settlements;
    WriteIsSettlement(o, p, mayAdopt);
  }

  /** What adopting a pod comes to, by the check for it and the server's answer. */
  lemma AdoptSettles(o: Owner, p: Pod, first: bool, gate: Option<Error>, answer: Option<Error>)
    requires Judge(o, p).Adopt?
    ensures var owners := Adopted(p.owners, o.uid);
            && Settled(o, p) == p.(owners := owners)
            && (gate.Some? ==>
                  SettlesOne(o, p, first, gate, Some(Wrapped(gate.value)), if first then FailedRead(gate) else []))
            && (gate.None? && answer.None? ==> SettlesOne(o, p, first, gate, None, [PodOwned(p.id, owners)]))
            && (gate.None? && answer.Some? ==>
                  SettlesOne(o, p, first, gate, Some(Wrapped(answer.value)), [PodOwnFailed(p.id, owners, answer.value)]))
  {
    hide Adopted;
  }

  lemma OwningKeepsRest(s: State, e: Event)
    requires e.PodOwned? || e.PodOwnFailed?
    ensures Next(s, e).pods.Keys == s.pods.Keys && Next(s, e).workload == s.workload
  {
  }

  class RefManager {
    const c: Client
    const owner: Owner
    /** The check for adoption is made once, and its outcome remembered. */
    var checked: bool
    var canAdoptErr: Option<Error>

    constructor (c: Client, owner: Owner)
      ensures this.c == c && this.owner == owner && !checked
    {
      this.c, this.owner := c, owner;
      checked, canAdoptErr := false, None;
    }

    /** Reads the owner anew, to see that it is still there and not being deleted. */
    method CanAdopt() returns (err: Option<Error>)
      requires c.Valid()
      modifies c
      ensures c.Valid() && c.Asked(old(c.log), ByRead(err)) && c.KeepsRevisions(old(c.s))
      ensures Did(old(c.log), c.log, FailedRead(err))
      ensures c.calm ==> c.s == old(c.s)
      ensures old(c.s).workload.deleting ==> err.Some? && c.s.workload.deleting
      ensures err.None? ==> c.s.workload.uid == owner.uid && !c.s.workload.deleting
      ensures c.reliable && err.Some? ==> c.s.workload.uid != owner.uid || c.s.workload.deleting
    {
      var latest;
      err, latest := c.GetWorkload();
      if err.Some? {
        return;
      }
      if latest.uid != owner.uid {
        return Some(OwnerGone);
      }
      if latest.deleting {
        return Some(OwnerDeleting);
      }
    }

    method CanAdoptOnce() returns (err: Option<Error>)
      requires c.Valid()
      modifies c, this
      ensures c.Valid() && c.Asked(old(c.log), if old(checked) then None else ByRead(err)) && c.KeepsRevisions(old(c.s))
      ensures Did(old(c.log), c.log, if old(checked) then [] else FailedRead(err))
      ensures c.calm ==> c.s == old(c.s)
      ensures checked && canAdoptErr == err
      ensures old(checked) ==> err == old(canAdoptErr) && c.s == old(c.s) && c.log == old(c.log)
      ensures old(c.s).workload.deleting ==> (old(checked) || err.Some?) && c.s.workload.deleting
      ensures !old(checked) && err.None? ==> c.s.workload.uid == owner.uid && !c.s.workload.deleting
      ensures !old(checked) && c.reliable && err.Some? ==> c.s.workload.uid != owner.uid || c.s.workload.deleting
    {
      DidNothing(c.log);
      if !checked {
        canAdoptErr := CanAdopt();
        checked := true;
      }
      return canAdoptErr;
    }

    /** The owner is there to adopt, and has not been found otherwise. */
    ghost predicate Adoptable()
      reads this, c
    {
      c.s.workload.uid == owner.uid && !c.s.workload.deleting && (checked ==> canAdoptErr.None?)
    }

    /** The owner was being deleted before it was checked. */
    ghost predicate Barred()
      reads this, c
    {
      c.s.workload.deleting && (checked ==> canAdoptErr.Some?)
    }

    method AdoptPod(p: Pod, ghost mayAdopt: bool) returns (err: Option<Error>, q: Pod, ghost calls: seq<Event>)
      requires c.Valid() && Judge(owner, p).Adopt? && (mayAdopt || Barred())
      modifies c, this
      ensures c.Valid() && c.KeepsRevisions(old(c.s)) && Settles(c, owner, mayAdopt, [p], old(c.log), c.log)
      ensures c.calm ==> c.s.pods.Keys == old(c.s).pods.Keys
      ensures mayAdopt || Barred()
      ensures q == Settled(owner, p)
      ensures err.Some? ==> err.value.Wrapped?
      ensures err.None? ==> c.log != [] && p.id in c.Before().pods
      ensures SettlesOne(owner, p, !old(checked), canAdoptErr, err, calls) && Did(old(c.log), c.log, calls)
      ensures checked && (old(checked) ==> canAdoptErr == old(canAdoptErr))
      ensures c.calm ==> c.log == old(c.log) + calls
      ensures c.calm && c.reliable && old(Adoptable()) && p.id in old(c.s).pods ==> err.None? && Adoptable()
    {
      hide Client.Valid, Matches, Replay, IsNoise, Settles, Settlement, Adopted, ControllerOf, CallsOf, SettlesOne, Judge,
        Settled, Next;
      q := p.(owners := Adopted(p.owners, owner.uid));
      assert c.log + [] == c.log;
      ghost var first := !checked;
      var refused := CanAdoptOnce();
      ghost var middle := c.log;
      AdoptSettles(owner, p, first, refused, None);
      if refused.Some? {
        NoCall(c, owner, mayAdopt, p, old(c.log), middle);
        return Some(Wrapped(refused.value)), q, if first then FailedRead(refused) else [];
      }
      ghost var s1 := c.s;
      refused := c.UpdateOwners(q.id, q.owners);
      OwningKeepsRest(s1, c.Last());
      AdoptSettles(owner, p, first, None, refused);
      if mayAdopt {
        WriteIsSettlement(owner, p, mayAdopt);
      }
      OneCall(c, owner, mayAdopt, p, old(c.log), middle, c.log);
      return if refused.Some? then Some(Wrapped(refused.value)) else None, q, [c.Last()];
    }

    /** The index of the first reference to an owner, or -1. */
    static method RefIndex(owners: seq<OwnerRef>, uid: Uid) returns (idx: int)
      ensures idx == if FirstRef(owners, uid) < |owners| then FirstRef(owners, uid) else -1
    {
      for i := 0 to |owners|
        invariant forall j | 0 <= j < i :: owners[j].uid != uid
      {
        if owners[i].uid == uid {
          return i;
        }
      }
      return -1;
    }

    method ReleasePod(p: Pod, ghost mayAdopt: bool) returns (err: Option<Error>, ghost calls: seq<Event>)
      requires c.Valid() && Judge(owner, p).Release? && (mayAdopt || Barred())
      modifies c
      ensures c.Valid() && c.KeepsRevisions(old(c.s)) && Settles(c, owner, mayAdopt, [p], old(c.log), c.log)
      ensures c.calm ==> c.s.pods.Keys == old(c.s).pods.Keys
      ensures mayAdopt || Barred()
      ensures err.Some? ==> err.value.Wrapped?
      ensures err.None? ==> c.log != [] && p.id in c.Before().pods
      ensures |calls| == 1 && Did(old(c.log), c.log, calls)
      ensures forall first, gate :: SettlesOne(owner, p, first, gate, err, calls)
      ensures c.calm ==> c.log == old(c.log) + calls
      ensures c.calm && c.reliable && p.id in old(c.s).pods ==> err.None?
      ensures c.calm ==> c.s.workload == old(c.s).workload
    {
      hide Client.Valid, Matches, Replay, IsNoise, Settles, Settlement, Settlements, Released, ControllerOf, CallsOf,
        FirstRef, Fits, SettlesOne, Judge;
      DidNothing(c.log);
      ReleaseSettles(owner, mayAdopt, p);
      ghost var j := ControllerOfSome(p.owners);
      HasRef(p.owners, owner.uid, j);
      var idx := RefIndex(p.owners, owner.uid);
      if idx > -1 {
        var owners := p.owners[..idx] + p.owners[idx + 1..];
        ReleasedExactly(p.owners, owner.uid);
        var refused := c.UpdateOwners(p.id, owners);
        OneCall(c, owner, mayAdopt, p, old(c.log), old(c.log), c.log);
        return if refused.Some? then Some(Wrapped(refused.value)) else None, [c.Last()];
      }
      assert false;
    }

    /** Claims one pod, writing it if need be. */
    method ClaimObject(p: Pod, ghost mayAdopt: bool)
        returns (ok: bool, err: Option<Error>, q: Pod, ghost calls: seq<Event>)
      requires c.Valid() && (mayAdopt || Barred())
      modifies c, this
      ensures c.Valid() && c.KeepsRevisions(old(c.s)) && Settles(c, owner, mayAdopt, [p], old(c.log), c.log)
      ensures c.calm ==> c.s.pods.Keys == old(c.s).pods.Keys
      ensures mayAdopt || Barred()
      ensures ok <==> err.None? && IsClaimed(owner, p)
      ensures ok ==> q == Settled(owner, p)
      ensures err.Some? ==> err.value.Wrapped? && NeedsWrite(owner, p)
      ensures NeedsWrite(owner, p) && err.None? ==> c.log != [] && p.id in c.Before().pods
      ensures !NeedsWrite(owner, p) ==> c.s == old(c.s) && c.log == old(c.log)
      ensures SettlesOne(owner, p, !old(checked), canAdoptErr, err, calls) && Did(old(c.log), c.log, calls)
      ensures checked <==> old(checked) || Judge(owner, p).Adopt?
      ensures old(checked) ==> canAdoptErr == old(canAdoptErr)
      ensures c.calm ==> c.log == old(c.log) + calls
      ensures c.calm && c.reliable && (old(Adoptable()) || owner.deleting) && p.id in old(c.s).pods ==>
                err.None? && (Adoptable() || owner.deleting)
    {
      hide Client.Valid, Matches, Replay, IsNoise, CallsOf, Settlement;
      assert Settlements(owner, [p][..0]) == [] && c.log + [] == c.log;
      DidNothing(c.log);
      calls := [];
      var controllerRef := ControllerOf(p.owners);
      if controllerRef.Some? {
        if controllerRef.value != owner.uid {
          return false, None, p, [];
        }
        if Matches(owner.selector, p.labels) {
          return true, None, p, [];
        }
        if owner.deleting {
          return false, None, p, [];
        }
        err, calls := ReleasePod(p, mayAdopt);
        if err == Some(NotFound) {
          return false, None, p, calls;
        }
        return false, err, p, calls;
      }
      if owner.deleting || !Matches(owner.selector, p.labels) {
        return false, None, p, [];
      }
      if p.terminating {
        return false, None, p, [];
      }
      err, q, calls := AdoptPod(p, mayAdopt);
      if err == Some(NotFound) {
        return false, None, q, calls;
      }
      return err.None?, err, q, calls;
    }

    /** Claims what it can of a list and reports the first error, if there is any. */
    method ClaimOwnedObjects(pods: seq<Pod>)
        returns (claimed: seq<Pod>, err: Option<Error>, ghost calls: seq<Event>, ghost gate: Option<Error>)
      requires c.Valid() && !checked
      modifies c, this
      ensures c.Valid() && c.KeepsRevisions(old(c.s))
      ensures Settles(c, owner, !old(c.s).workload.deleting, pods, old(c.log), c.log)
      ensures forall q <- claimed :: q in Kept(owner, pods)
      ensures err.None? ==> claimed == Kept(owner, pods)
      ensures err.Some? ==> exists p <- pods :: NeedsWrite(owner, p)
      ensures (forall p <- pods :: !NeedsWrite(owner, p)) ==> c.s == old(c.s) && c.log == old(c.log)
      ensures Settling(owner, pods, gate, calls, err) && Did(old(c.log), c.log, calls)
      ensures err.None? ==> calls == Settlements(owner, pods)
      ensures c.calm ==> c.log == old(c.log) + calls
      ensures c.calm && c.reliable && (old(Adoptable()) || owner.deleting)
              && (forall p <- pods :: p.id in old(c.s).pods) ==>
                err.None?
    {
      hide Client.Valid, Settles, Kept, Settlements, Judge, Settled, NeedsWrite, IsClaimed, Replay, IsNoise, Settlement,
        Matches, ControllerOf, CallsOf, Settling, SettlesOne, AnyAdopted;
      claimed, err, calls, gate := [], None, [], None;
      ghost var mayAdopt := !c.s.workload.deleting;
      NothingSettled(c, owner, mayAdopt, c.log);
      for i := 0 to |pods|
        invariant c.Valid() && c.KeepsRevisions(old(c.s)) && (mayAdopt || Barred())
        invariant Settles(c, owner, mayAdopt, pods[..i], old(c.log), c.log)
        invariant forall q <- claimed :: q in Kept(owner, pods[..i])
        invariant err.None? ==> claimed == Kept(owner, pods[..i])
        invariant err.Some? ==> exists p <- pods :: NeedsWrite(owner, p)
        invariant (forall p <- pods[..i] :: !NeedsWrite(owner, p)) ==> c.s == old(c.s) && c.log == old(c.log)
        invariant forall g | checked ==> g == canAdoptErr :: Settling(owner, pods[..i], g, calls, err)
        invariant checked <==> AnyAdopted(owner, pods[..i])
        invariant Did(old(c.log), c.log, calls)
        invariant err.None? ==> calls == Settlements(owner, pods[..i])
        invariant c.calm ==> c.log == old(c.log) + calls
        invariant c.calm ==> c.s.pods.Keys == old(c.s).pods.Keys
        invariant c.calm && c.reliable && (old(Adoptable()) || owner.deleting)
                  && (forall p <- pods :: p.id in old(c.s).pods) ==>
                    err.None? && (Adoptable() || owner.deleting)
      {
        ghost var middle, more, first := c.log, [], !checked;
        var ok, refused, q;
        ok, refused, q, more := ClaimObject(pods[i], mayAdopt);
        SettlesMore(c, owner, mayAdopt, pods[..i], pods[i], old(c.log), middle, c.log);
        OneMore(owner, pods, i);
        ghost var listed, all, worst := pods[..i + 1], calls + more, if err.Some? then err else refused;
        forall g | checked ==> g == canAdoptErr
          ensures Settling(owner, listed, g, all, worst)
        {
          if !Judge(owner, pods[i]).Adopt? {
            AnyGate(owner, pods[i], first, canAdoptErr, first, g, refused, more);
          }
          SettlingMore(owner, pods, i, g, calls, err, more, refused);
        }
        AnyAdoptedMore(owner, pods, i);
        if refused.None? {
          SettledOne(owner, pods[i], first, canAdoptErr, refused, more);
        }
        DidMore(old(c.log), middle, c.log, calls, more);
        calls := calls + more;
        if refused.Some? {
          err := if err.Some? then err else refused;
        } else if ok {
          claimed := claimed + [q];
        }
      }
      assert pods[..|pods|] == pods;
      gate := canAdoptErr;
    }
  }
}
