/** The first half of a pass: reading, claiming the pods, and activating the update revision. */
module Activation {
  import opened Objects
  import opened Snapshot
  import opened Cluster
  import opened Server
  import opened Sorting
  import opened Planner
  import opened History
  import opened Ownership
  import opened Protocol

  const RETRY_STEPS := 4

  /** The run so far is one the protocol permits, and has come to a point of a pass. */
  ghost predicate Reached(c: Client, ctl: Control)
    reads c
  {
    c.Valid() && c.exclusive && Consistent(Orphans(c.start), c.start) && Legal(c.start, c.log) && Where(c.log) == ctl
  }

  lemma ReachedInv(c: Client, ctl: Control)
    requires Reached(c, ctl)
    ensures Inv(Orphans(c.start), c.s, ctl)
  {
    hide Inv, Legal, Consistent;
    EveryRunConsistent(c.start, c.log);
  }

  lemma NoiseIsFree(selector: Labels, ctl: Control, e: Event)
    requires IsNoise(selector, true, e)
    ensures Free(selector, ctl, e)
  {
  }

  lemma ReadIsFree(selector: Labels, ctl: Control, e: Event)
    requires IsNoise(selector, true, e) || e.ReadFailed?
    ensures Free(selector, ctl, e)
  {
  }

  /** Reading leaves the controller where it was. */
  lemma ReadingExtends(start: State, before: seq<Event>, after: seq<Event>)
    requires Legal(start, before) && before <= after
    requires forall k | |before| <= k < |after| ::
               IsNoise(start.workload.spec.selector, true, after[k]) || after[k].ReadFailed?
    ensures Legal(start, after) && Where(after) == Where(before)
  {
    hide Legal, Where, Replay, Permits, Step;
    forall k | |before| <= k < |after|
      ensures Free(start.workload.spec.selector, Where(before), after[k])
    {
      ReadIsFree(start.workload.spec.selector, Where(before), after[k]);
    }
    FreeExtends(start, before, after);
  }

  /** Appends a note of where the controller is. */
  ghost method Advance(c: Client, ctl: Control, e: Event)
    requires Reached(c, ctl) && IsControl(e) && Permits(ctl, c.s, e)
    modifies c`log
    ensures Reached(c, Step(ctl, e)) && c.log == old(c.log) + [e] && Did(old(c.log), c.log, [])
  {
    hide Legal, Consistent, Permits, Step, CallsOf;
    OneExtends(c.start, c.log, e);
    c.Note(e);
  }

  lemma DidNoMore(before: seq<Event>, middle: seq<Event>, after: seq<Event>)
    requires Did(before, middle, []) && Did(middle, after, [])
    ensures Did(before, after, [])
  {
    hide CallsOf;
    DidMore(before, middle, after, [], []);
    var none: seq<Event> := [];
    assert none + none == none;
  }

  lemma ThenNothing(before: seq<Event>, middle: seq<Event>, after: seq<Event>, calls: seq<Event>)
    requires Did(before, middle, calls) && Did(middle, after, [])
    ensures Did(before, after, calls)
  {
    hide CallsOf;
    DidMore(before, middle, after, calls, []);
    assert calls + [] == calls;
  }

  // ---- Reading and claiming

  method Fetch(c: Client) returns (err: Option<Error>, w: Workload)
    requires Reached(c, Idle)
    modifies c
    ensures Reached(c, if err.Some? then Idle else Reading(w))
    ensures err.None? ==> w == c.s.workload
    ensures c.calm ==> c.s == old(c.s)
    ensures c.reliable ==> err.None?
    ensures c.s.revisions == old(c.s).revisions && c.s.workload.status == old(c.s).workload.status
    ensures Did(old(c.log), c.log, FailedRead(err)) && (err.Some? ==> ByServer(err.value))
  {
    hide Legal, Consistent, Where, Free, Replay, Environment, CallsOf;
    err, w := c.GetWorkload();
    ReadingExtends(c.start, old(c.log), c.log);
    if err.None? {
      ghost var middle := c.log;
      Advance(c, Idle, Fetched(w));
      DidNoMore(old(c.log), middle, c.log);
    }
  }

  method OnlyActive(pods: seq<Pod>) returns (active: seq<Pod>)
    requires DistinctIds(pods)
    ensures forall p :: p in active <==> p in pods && !p.terminating
    ensures DistinctIds(active)
  {
    active := [];
    for i := 0 to |pods|
      invariant forall p :: p in active <==> p in pods[..i] && !p.terminating
      invariant DistinctIds(active)
    {
      if !pods[i].terminating {
        active := active + [pods[i]];
      }
    }
    assert pods[..|pods|] == pods;
  }

  /** An event is in a log since an earlier one. */
  predicate Since(before: seq<Event>, after: seq<Event>, e: Event) {
    before <= after && e in after[|before|..]
  }

  lemma StaysSince(before: seq<Event>, middle: seq<Event>, after: seq<Event>, e: Event)
    requires Since(before, middle, e) && middle <= after
    ensures Since(before, after, e)
  {
    assert after[|before|..][..|middle| - |before|] == middle[|before|..];
  }

  lemma ComesSince(before: seq<Event>, middle: seq<Event>, later: seq<Event>, after: seq<Event>, e: Event)
    requires before <= middle && Since(middle, later, e) && later <= after
    ensures Since(before, after, e)
  {
    assert later[|before|..][|middle| - |before|..] == later[|middle|..];
    StaysSince(before, later, after, e);
  }

  method GetActivePods(c: Client, ghost w: Workload) returns (err: Option<Error>, active: seq<Pod>)
    requires Reached(c, Reading(w))
    modifies c
    ensures Reached(c, if err.Some? then Reading(w) else Claiming(w, active))
    ensures err.None? ==> ListsActive(active, c.s.pods)
    ensures err.None? ==> Since(old(c.log), c.log, Listed(active))
    ensures c.calm ==> c.s == old(c.s)
    ensures c.reliable ==> err.None?
    ensures c.s.revisions == old(c.s).revisions && c.s.workload.status == old(c.s).workload.status
    ensures Did(old(c.log), c.log, FailedRead(err)) && (err.Some? ==> ByServer(err.value))
  {
    hide Legal, Consistent, Where, Free, Replay, Environment, CallsOf;
    var pods;
    err, pods := c.ListPods();
    ReadingExtends(c.start, old(c.log), c.log);
    active := [];
    if err.Some? {
      return;
    }
    active := OnlyActive(pods);
    ghost var middle := c.log;
    Advance(c, Reading(w), Listed(active));
    assert c.log[|old(c.log)|..][|c.log| - |old(c.log)| - 1] == Listed(active);
    DidNoMore(old(c.log), middle, c.log);
  }

  lemma ClaimingIsFree(c: Client, w: Workload, active: seq<Pod>, mayAdopt: bool, before: seq<Event>, after: seq<Event>)
    requires c.exclusive && Settles(c, OwnerOf(w), mayAdopt, active, before, after)
    ensures FreeSince(c.Selector(), Claiming(w, active), before, after)
  {
  }

  method ClaimPods(c: Client, w: Workload, active: seq<Pod>)
      returns (err: Option<Error>, claimed: seq<Pod>, ghost calls: seq<Event>, ghost gate: Option<Error>)
    requires Reached(c, Claiming(w, active))
    modifies c
    ensures Reached(c, if err.Some? then Claiming(w, active) else Activating(w, claimed))
    ensures err.None? ==> claimed == Kept(OwnerOf(w), active)
    ensures Settling(OwnerOf(w), active, gate, calls, err) && Did(old(c.log), c.log, calls)
    ensures err.None? ==> calls == Settlements(OwnerOf(w), active)
    ensures w.deleting ==> err.None? && calls == []
    ensures c.calm ==> c.s == Replay(old(c.s), calls)
    ensures c.calm && c.reliable && w == old(c.s).workload && (forall p <- active :: p.id in old(c.s).pods) ==> err.None?
    ensures c.s.revisions == old(c.s).revisions && c.s.workload.status == old(c.s).workload.status
  {
    hide Legal, Consistent, Kept, Settlements, Settling, Replay, Where, Free, Environment, CallsOf;
    var mgr := new RefManager(c, OwnerOf(w));
    claimed, err, calls, gate := mgr.ClaimOwnedObjects(active);
    ClaimingIsFree(c, w, active, !old(c.s).workload.deleting, old(c.log), c.log);
    FreeExtends(c.start, old(c.log), c.log);
    ReplayConcat(c.start, old(c.log), calls);
    if err.None? {
      ghost var middle := c.log;
      Advance(c, Claiming(w, active), Claimed(claimed));
      ThenNothing(old(c.log), middle, c.log, calls);
    }
  }

  // ---- Revisions

  /** The stored revisions with increasing numbers. */
  predicate ListsSorted(revisions: seq<Revision>, store: map<Name, Revision>) {
    && ListsRevisions(revisions, store)
    && (forall n <- store :: store[n].name == n)
    && forall i, j | 0 <= i < j < |revisions| :: revisions[i].number < revisions[j].number
  }

  method SortControllerRevisions(revisions: array<Revision>)
    modifies revisions
    ensures SortedBy((r: Revision) => r.number, revisions[..]) && multiset(revisions[..]) == multiset(old(revisions[..]))
  {
    SortInPlace((r: Revision) => r.number, revisions);
  }

  lemma NumbersRise(sorted: seq<Revision>, i: nat, j: nat)
    requires SortedBy((r: Revision) => r.number, sorted) && i < j < |sorted|
    ensures sorted[i].number <= sorted[j].number
  {
    var key := (r: Revision) => r.number;
    assert key(sorted[i]) <= key(sorted[j]);
  }

  lemma RevisionTwice(revisions: seq<Revision>, i: nat, j: nat)
    requires i < j < |revisions| && revisions[i] == revisions[j]
    ensures multiset(revisions)[revisions[i]] >= 2
  {
    var r := revisions[i];
    assert revisions == revisions[..i] + [r] + revisions[i + 1..j] + [r] + revisions[j + 1..];
  }

  lemma {:induction false} RevisionOnce(revisions: seq<Revision>, r: Revision)
    requires forall i, j | 0 <= i < j < |revisions| :: revisions[i].name != revisions[j].name
    ensures multiset(revisions)[r] <= 1
  {
    if revisions != [] {
      var n := |revisions| - 1;
      RevisionOnce(revisions[..n], r);
      assert revisions == revisions[..n] + [revisions[n]];
    }
  }

  lemma SameRevisions(owned: seq<Revision>, sorted: seq<Revision>)
    requires multiset(sorted) == multiset(owned)
    requires forall i, j | 0 <= i < j < |owned| :: owned[i].name != owned[j].name
    ensures forall r :: r in sorted <==> r in owned
    ensures forall i, j | 0 <= i < j < |sorted| :: sorted[i].name != sorted[j].name
  {
    forall r
      ensures r in sorted <==> r in owned
    {
      assert r in multiset(sorted) <==> r in multiset(owned);
    }
    forall i, j | 0 <= i < j < |sorted|
      ensures sorted[i].name != sorted[j].name
    {
      if sorted[i].name == sorted[j].name {
        assert sorted[i] in owned && sorted[j] in owned;
        RevisionTwice(sorted, i, j);
        RevisionOnce(owned, sorted[i]);
      }
    }
  }

  lemma SortedListing(owned: seq<Revision>, sorted: seq<Revision>, uid: Uid, selector: Labels, store: map<Name, Revision>)
    requires Sound(uid, selector, store) && ListsRevisions(owned, OwnedBy(store, uid))
    requires forall n <- store :: store[n].name == n
    requires SortedBy((r: Revision) => r.number, sorted) && multiset(sorted) == multiset(owned)
    ensures ListsSorted(sorted, store)
  {
    hide IsSnapshot, SortedBy;
    assert OwnedBy(store, uid) == store;
    SameRevisions(owned, sorted);
    forall i, j | 0 <= i < j < |sorted|
      ensures sorted[i].number < sorted[j].number
    {
      assert sorted[i] in sorted && sorted[j] in sorted;
      NumbersRise(sorted, i, j);
    }
  }

  lemma InvSound(c: Client, w: Workload, claimed: seq<Pod>)
    requires Reached(c, Activating(w, claimed))
    ensures Sound(w.uid, c.s.workload.spec.selector, c.s.revisions) && Remembers(c.s, w) && WellKeyed(c.s)
  {
    hide Sound, Legal, Reached;
    ReachedInv(c, Activating(w, claimed));
  }

  method ListSorted(c: Client, w: Workload, ghost claimed: seq<Pod>) returns (err: Option<Error>, revisions: seq<Revision>)
    requires Reached(c, Activating(w, claimed))
    modifies c
    ensures Reached(c, Activating(w, claimed))
    ensures err.None? ==> ListsSorted(revisions, c.s.revisions)
    ensures c.calm ==> c.s == old(c.s)
    ensures c.reliable ==> err.None?
    ensures c.s.revisions == old(c.s).revisions && c.s.workload.status == old(c.s).workload.status
    ensures Did(old(c.log), c.log, FailedRead(err)) && (err.Some? ==> ByServer(err.value))
  {
    hide Legal, Consistent, Where, Free, Replay, Environment, CallsOf, Sound, ListsRevisions, SortedBy, ListsSorted, OwnedBy;
    var owned;
    err, owned := ListControllerRevisions(c, w.uid);
    ReadingExtends(c.start, old(c.log), c.log);
    if err.Some? {
      return err, [];
    }
    InvSound(c, w, claimed);
    var slice := new Revision[|owned|](i requires 0 <= i < |owned| => owned[i]);
    assert slice[..] == owned;
    SortControllerRevisions(slice);
    SortedListing(owned, slice[..], w.uid, c.s.workload.spec.selector, c.s.revisions);
    return None, slice[..];
  }

  /** The equal ones among the revisions, in their order. */
  function FindEqualRevisions(revisions: seq<Revision>, data: Json): (equal: seq<Revision>)
    ensures forall r :: r in equal <==> r in revisions && r.data == data
  {
    if revisions == [] then []
    else
      var n := |revisions| - 1;
      FindEqualRevisions(revisions[..n], data) + if revisions[n].data == data then [revisions[n]] else []
  }

  /** The snapshot of the workload's template, as a revision yet to be stored. */
  method NewRevision(w: Workload, number: int) returns (r: Revision)
    ensures r == Revision("", Data(w.spec.template), number, Some(w.uid), 0)
  {
    SpecRoundTrip(w.spec);
    var patch := GetPatch(Encode(w.spec));
    assert TemplateField(Encode(w.spec)) == EncodeTemplate(w.spec.template);
    r := Revision("", patch, number, Some(w.uid), 0);
  }

  ghost predicate ProperNames(nameOf: Namer) {
    Injective(nameOf) && forall d, i :: nameOf(d, i) != ""
  }

  predicate IsTop(store: map<Name, Revision>, name: Name) {
    name in store && forall n <- store :: n != name ==> store[n].number < store[name].number
  }

  /** The number after all those stored. */
  function NextRevision(revisions: seq<Revision>): int {
    if revisions == [] then 1 else revisions[|revisions| - 1].number + 1
  }

  /** The first number is one, and every other comes next after the highest that is stored. */
  predicate ComesNext(store: map<Name, Revision>, number: int) {
    if store.Keys == {} then number == 1
    else exists n <- store :: number == store[n].number + 1 && forall m <- store :: store[m].number <= store[n].number
  }

  lemma NextComesNext(revisions: seq<Revision>, store: map<Name, Revision>)
    requires ListsSorted(revisions, store)
    ensures ComesNext(store, NextRevision(revisions))
  {
    assert forall n <- store :: store[n] in revisions;
    if revisions != [] {
      var last := revisions[|revisions| - 1];
      assert last in revisions;
      forall m | m in store
        ensures store[m].number <= last.number
      {
        var i :| 0 <= i < |revisions| && revisions[i] == store[m];
      }
    }
  }

  /** The revision that holds the workload's template is stored: reused as it is, or renumbered or new with the number
      that comes next. It has the highest number, unless its renumbering was lost; and no other revision has changed. */
  predicate Activated(w: Workload, before: map<Name, Revision>, after: map<Name, Revision>, update: Revision, lost: bool) {
    && update.name in after && after[update.name].data == update.data == Data(w.spec.template)
    && (after == before || after == before[update.name := update])
    && (if update.name in before then update == before[update.name].(number := update.number, rv := update.rv)
        else IsNew(w, before, update))
    && ((update.name in before && update == before[update.name]) || ComesNext(before, update.number))
    && (IsTop(after, update.name) <==> !lost)
    && (forall n | n in before && IsTop(before, n) && before[n].data == update.data :: after == before && update == before[n])
  }

  // ---- What is added to the log by storing a revision

  predicate IsQuiet(selector: Labels, e: Event) {
    IsNoise(selector, true, e) || StoresNothing(e)
  }

  predicate QuietSince(selector: Labels, before: seq<Event>, after: seq<Event>) {
    before <= after && forall k | |before| <= k < |after| :: IsQuiet(selector, after[k])
  }

  lemma QuietIsFree(selector: Labels, ctl: Control, e: Event)
    requires IsQuiet(selector, e) && ctl.Activating?
    ensures Free(selector, ctl, e)
  {
  }

  lemma QuietExtends(start: State, before: seq<Event>, after: seq<Event>)
    requires Legal(start, before) && QuietSince(start.workload.spec.selector, before, after)
    requires Where(before).Activating?
    ensures Legal(start, after) && Where(after) == Where(before)
    ensures Replay(start, after).revisions == Replay(start, before).revisions
  {
    hide Legal, Where, Permits, Step, Free, Environment;
    forall k | |before| <= k < |after|
      ensures Free(start.workload.spec.selector, Where(before), after[k])
    {
      QuietIsFree(start.workload.spec.selector, Where(before), after[k]);
    }
    FreeExtends(start, before, after);
    var more := after[|before|..];
    assert after == before + more;
    ReplayConcat(start, before, more);
    ReplayKeepsIdentity(start, before);
    forall e | e in more
      ensures IsQuiet(start.workload.spec.selector, e)
    {
      var k :| 0 <= k < |more| && more[k] == e;
      assert after[|before| + k] == e;
    }
    QuietKeeps(Replay(start, before), more);
  }

  predicate IsStoring(ctl: Control, store: map<Name, Revision>, e: Event) {
    && ctl.Activating?
    && ((e.RevisionCreated? && IsNew(ctl.w, store, e.revision)) || (e.RevisionUpdated? && IsBump(ctl.w, store, e.revision)))
  }

  lemma StoringPermitted(ctl: Control, s: State, e: Event)
    requires IsStoring(ctl, s.revisions, e)
    ensures Permits(ctl, s, e) && Step(ctl, e) == ctl
  {
  }

  /** Storing a revision may follow what others do. */
  lemma StoringExtends(start: State, before: seq<Event>, middle: seq<Event>, e: Event)
    requires Legal(start, before) && QuietSince(start.workload.spec.selector, before, middle)
    requires Where(before).Activating? && IsStoring(Where(before), Replay(start, before).revisions, e)
    ensures Legal(start, middle + [e]) && Where(middle + [e]) == Where(before)
  {
    hide Legal, Where, Replay, IsStoring, QuietSince, Permits, Step;
    QuietExtends(start, before, middle);
    StoringPermitted(Where(middle), Replay(start, middle), e);
    OneExtends(start, middle, e);
  }

  lemma QuietUntilLast(selector: Labels, before: seq<Event>, after: seq<Event>)
    requires before <= after && |before| < |after|
    requires forall k | |before| <= k < |after| - 1 :: IsQuiet(selector, after[k])
    ensures QuietSince(selector, before, after[..|after| - 1])
    ensures after == after[..|after| - 1] + [after[|after| - 1]]
  {
  }

  // ---- Activating the update revision

  /** The last of the sorted revisions has the highest number, and the next number is above it. */
  lemma LastIsTop(revisions: seq<Revision>, store: map<Name, Revision>)
    requires ListsSorted(revisions, store)
    ensures forall n <- store :: store[n].number < NextRevision(revisions)
    ensures revisions != [] ==> IsTop(store, revisions[|revisions| - 1].name)
    ensures forall n | n in store && IsTop(store, n) :: revisions != [] && store[n] == revisions[|revisions| - 1]
    ensures forall r <- revisions :: r.name in store && store[r.name] == r
  {
    forall n | n in store
      ensures revisions != [] && store[n].number <= revisions[|revisions| - 1].number
      ensures n != revisions[|revisions| - 1].name ==> store[n].number < revisions[|revisions| - 1].number
    {
      var i :| 0 <= i < |revisions| && revisions[i] == store[n];
    }
  }

  lemma ReuseActivates(w: Workload, revisions: seq<Revision>, store: map<Name, Revision>)
    requires ListsSorted(revisions, store) && revisions != []
    requires revisions[|revisions| - 1].data == Data(w.spec.template)
    ensures Activated(w, store, store, revisions[|revisions| - 1], false)
  {
    hide ListsSorted, Data;
    LastIsTop(revisions, store);
    assert revisions[|revisions| - 1] in revisions;
  }

  lemma RenumberingActivates(w: Workload, revisions: seq<Revision>, store: map<Name, Revision>, r: Revision,
                             update: Revision, landed: bool)
    requires ListsSorted(revisions, store) && r in revisions && r.data == Data(w.spec.template)
    requires revisions[|revisions| - 1].data != r.data
    requires update == r.(number := NextRevision(revisions), rv := update.rv)
    ensures Activated(w, store, if landed then store[r.name := update] else store, update, !landed)
    ensures IsBump(w, store, update)
  {
    hide ListsSorted, Data, NextRevision, ComesNext;
    LastIsTop(revisions, store);
    NextComesNext(revisions, store);
    assert revisions[|revisions| - 1] in revisions;
  }

  lemma NewIsTop(store: map<Name, Revision>, r: Revision)
    requires forall n <- store :: store[n].number < r.number
    ensures IsTop(store[r.name := r], r.name)
  {
  }

  lemma CreationActivates(w: Workload, revisions: seq<Revision>, store: map<Name, Revision>, update: Revision)
    requires ListsSorted(revisions, store) && forall n <- store :: store[n].data != update.data
    requires update.data == Data(w.spec.template) && update.owner == Some(w.uid) && update.name != ""
    requires update.number == NextRevision(revisions) && update.name !in store
    ensures Activated(w, store, store[update.name := update], update, false)
    ensures IsNew(w, store, update)
  {
    hide Data, NextRevision, ListsSorted, IsTop, ComesNext;
    LastIsTop(revisions, store);
    NextComesNext(revisions, store);
    NewIsTop(store, update);
    assert store[update.name := update][update.name] == update;
  }

  /** What a renumbering in a store of one writer leaves. */
  lemma RenumberingLeaves(c: Client, r: Revision, number: int, s0: State, log0: seq<Event>, s: State,
                          log: seq<Event>, calls: seq<Event>, update: Revision, err: Option<Error>, landed: bool)
    requires Renumbers(c, r, number, RETRY_STEPS, s0, log0, s, log, calls, update, err, landed)
    requires c.exclusive && r.number != number && r.name in s0.revisions && s0.revisions[r.name] == r
    ensures s.revisions == if landed then s0.revisions[r.name := update] else s0.revisions
    ensures err.None? ==> update == r.(number := number, rv := update.rv)
    ensures err.None? ==> (landed <==> !LosesReread(AnswersIn(calls), RETRY_STEPS))
    ensures landed ==> err.None? && |log0| < |log| && Updates(log[|log| - 1], update)
    ensures Did(log0, log, calls) && RenumberingCalls(r, number, RETRY_STEPS, err, calls)
    ensures forall k | |log0| <= k < |log| - (if landed then 1 else 0) ::
              IsNoise(c.Selector(), c.exclusive, log[k]) || StoresNothing(log[k])
    ensures s.workload.status == s0.workload.status
    ensures c.reliable ==> err.None? && landed
  {
    hide Retried, LosesReread, RereadAs, CallsOf, AnswersIn, Replay, RenumberingCalls;
    if err.None? {
      WrittenIff(c, r, number, RETRY_STEPS, s0, log0, s, log, calls, update, err, landed);
    }
  }

  lemma BumpIsStoring(w: Workload, claimed: seq<Pod>, store: map<Name, Revision>, e: Event, update: Revision)
    requires IsBump(w, store, update) && Updates(e, update)
    ensures IsStoring(Activating(w, claimed), store, e)
  {
  }

  method RollBack(c: Client, w: Workload, ghost claimed: seq<Pod>, revisions: seq<Revision>, r: Revision, number: int)
      returns (err: Option<Error>, update: Revision, ghost calls: seq<Event>)
    requires Reached(c, Activating(w, claimed)) && ListsSorted(revisions, c.s.revisions)
    requires r in revisions && r.data == Data(w.spec.template) && revisions[|revisions| - 1].data != r.data
    requires number == NextRevision(revisions)
    modifies c
    ensures Reached(c, Activating(w, claimed)) && c.s.workload.status == old(c.s).workload.status
    ensures c.calm ==> OnlyRevisionsDiffer(old(c.s), c.s)
    ensures Did(old(c.log), c.log, calls) && RenumberingCalls(r, number, RETRY_STEPS, err, calls)
    ensures err.None? ==>
              Activated(w, old(c.s).revisions, c.s.revisions, update, LosesReread(AnswersIn(calls), RETRY_STEPS))
    ensures err.Some? ==> c.s.revisions == old(c.s).revisions
    ensures c.reliable ==> err.None? && !LosesReread(AnswersIn(calls), RETRY_STEPS)
  {
    hide Legal, Consistent, Where, Free, Replay, Environment, Sound, ListsSorted, Activated, IsBump, Data, Renumbers,
      LosesReread, AnswersIn, RenumberingCalls, CallsOf, IsStoring, IsNoise, Updates;
    ghost var store := c.s.revisions;
    InvSound(c, w, claimed);
    LastIsTop(revisions, store);
    ghost var landed;
    err, update, calls, landed := UpdateControllerRevision(c, r, number, RETRY_STEPS);
    RenumberingLeaves(c, r, number, old(c.s), old(c.log), c.s, c.log, calls, update, err, landed);
    if landed || err.None? {
      RenumberingActivates(w, revisions, store, r, update, landed);
    }
    if landed {
      QuietUntilLast(c.Selector(), old(c.log), c.log);
      BumpIsStoring(w, claimed, store, c.Last(), update);
      StoringExtends(c.start, old(c.log), c.log[..|c.log| - 1], c.Last());
    } else {
      QuietExtends(c.start, old(c.log), c.log);
    }
  }

  lemma CreationAsksNothing(nameOf: Namer, r: Revision, from: nat, to: nat, err: Option<Error>, result: Revision,
                            taken: bool, retried: seq<Event>, last: seq<Event>)
    requires from <= to && Collisions(nameOf, r, from, to, retried)
    requires ProbeCalls(r.(name := nameOf(r.data, to)), err, result, taken, last)
    ensures AnswersIn(retried + last) == []
  {
    forall e | e in retried
      ensures e.RevisionCreateFailed? || e.RevisionGot?
    {
      var k :| 0 <= k < |retried| && retried[k] == e;
      var i := k / 2;
      assert k == 2 * i || k == 2 * i + 1;
    }
    NoAnswers(retried + last);
  }

  /** Where no stored revision has the data, the name that the probing stops at is free. */
  lemma CreationLeaves(nameOf: Namer, r: Revision, from: nat, store: map<Name, Revision>, err: Option<Error>,
                       result: Revision, to: nat, taken: bool, after: map<Name, Revision>)
    requires CreatesInStore(nameOf, r, from, store, err, result, to, taken, after) && Injective(nameOf)
    requires forall n <- store :: store[n].data != r.data
    ensures err.Some? ==> after == store
    ensures err.None? ==> !taken && result.name !in store && after == store[result.name := result]
    ensures err.None? ==> to - from <= |store|
  {
    if err.None? {
      var stop := ProbingStops(nameOf, store, r.data, from);
    }
  }

  lemma NoSuchData(revisions: seq<Revision>, store: map<Name, Revision>, data: Json)
    requires ListsSorted(revisions, store) && FindEqualRevisions(revisions, data) == []
    ensures forall n <- store :: store[n].data != data
  {
    forall n | n in store
      ensures store[n].data != data
    {
      assert store[n] in revisions && store[n] !in FindEqualRevisions(revisions, data);
    }
  }

  lemma NewIsStoring(w: Workload, claimed: seq<Pod>, store: map<Name, Revision>, e: Event, update: Revision)
    requires IsNew(w, store, update) && e.RevisionCreated? && e.revision == update.(rv := e.revision.rv)
    ensures IsStoring(Activating(w, claimed), store, e)
  {
  }

  /** All the calls of the creation of a revision whose data is not stored: probes that met other data, and the one that
      created it or failed. */
  predicate CreatingCalls(nameOf: Namer, r: Revision, from: nat, to: nat, err: Option<Error>, calls: seq<Event>) {
    && from <= to && 2 * (to - from) < |calls|
    && Collisions(nameOf, r, from, to, calls[..2 * (to - from)])
    && ProbeCalls(r.(name := nameOf(r.data, to)), err, r, false, calls[2 * (to - from)..])
  }

  lemma CollisionPairs(nameOf: Namer, r: Revision, from: nat, to: nat, calls: seq<Event>)
    requires from <= to && Collisions(nameOf, r, from, to, calls)
    ensures |calls| == 2 * (to - from) && forall e <- calls :: StoresNothing(e)
  {
    forall e | e in calls
      ensures StoresNothing(e)
    {
      var k :| 0 <= k < |calls| && calls[k] == e;
      var i := k / 2;
      assert k == 2 * i || k == 2 * i + 1;
    }
  }

  lemma CreationMakes(nameOf: Namer, r: Revision, from: nat, to: nat, err: Option<Error>, result: Revision, taken: bool,
                      retried: seq<Event>, last: seq<Event>)
    requires from <= to && Collisions(nameOf, r, from, to, retried)
    requires ProbeCalls(r.(name := nameOf(r.data, to)), err, result, taken, last)
    requires err.None? ==> !taken
    ensures CreatingCalls(nameOf, r, from, to, err, retried + last)
  {
    hide Collisions;
    assert |retried| == 2 * (to - from) by {
      CollisionPairs(nameOf, r, from, to, retried);
    }
    assert (retried + last)[..|retried|] == retried && (retried + last)[|retried|..] == last;
  }

  method CreateNew(c: Client, nameOf: Namer, w: Workload, ghost claimed: seq<Pod>, ghost revisions: seq<Revision>,
                   candidate: Revision, collisionCount: nat)
      returns (err: Option<Error>, update: Revision, newCount: nat, ghost calls: seq<Event>)
    requires Reached(c, Activating(w, claimed)) && ListsSorted(revisions, c.s.revisions) && ProperNames(nameOf)
    requires candidate == Revision("", Data(w.spec.template), NextRevision(revisions), Some(w.uid), 0)
    requires FindEqualRevisions(revisions, candidate.data) == []
    modifies c
    ensures Reached(c, Activating(w, claimed)) && c.s.workload.status == old(c.s).workload.status
    ensures c.calm ==> OnlyRevisionsDiffer(old(c.s), c.s)
    ensures err.None? ==> Activated(w, old(c.s).revisions, c.s.revisions, update, false)
    ensures err.Some? ==> c.s.revisions == old(c.s).revisions
    ensures err.None? ==> update.name !in old(c.s).revisions && newCount - collisionCount <= |old(c.s).revisions|
    ensures Did(old(c.log), c.log, calls) && AnswersIn(calls) == []
    ensures CreatingCalls(nameOf, candidate, collisionCount, newCount, err, calls)
    ensures c.reliable ==> err.None?
  {
    hide Legal, Consistent, Where, Free, Replay, Environment, Sound, ListsSorted, Activated, IsNew, Data, IsStoring, IsNoise,
      NextRevision, CallsOf, AnswersIn, Collisions, ProbeCalls, CreatesInStore, CreatingCalls;
    ghost var store := c.s.revisions;
    NoSuchData(revisions, store, candidate.data);
    ghost var taken, retried, last;
    err, update, newCount, taken, retried, last := CreateControllerRevision(c, nameOf, candidate, collisionCount);
    calls := retried + last;
    CreationAsksNothing(nameOf, candidate, collisionCount, newCount, err, update, taken, retried, last);
    CreationLeaves(nameOf, candidate, collisionCount, store, err, update, newCount, taken, c.s.revisions);
    CreationMakes(nameOf, candidate, collisionCount, newCount, err, update, taken, retried, last);
    if err.Some? {
      QuietExtends(c.start, old(c.log), c.log);
      return;
    }
    CreationActivates(w, revisions, store, update);
    QuietUntilLast(c.Selector(), old(c.log), c.log);
    NewIsStoring(w, claimed, store, c.Last(), update);
    StoringExtends(c.start, old(c.log), c.log[..|c.log| - 1], c.Last());
  }

  /** The last collision count reported, or none. */
  function CollisionsOf(w: Workload): nat {
    if w.status.collisions.Some? then w.status.collisions.value else 0
  }

  lemma NothingLost()
    ensures AnswersIn([]) == [] && !LosesReread([], RETRY_STEPS)
  {
  }

  /** The revision of the workload's template has the highest number already. */
  predicate ReusesTop(w: Workload, store: map<Name, Revision>, n: Name) {
    IsTop(store, n) && store[n].data == Data(w.spec.template)
  }

  /** All the calls that store the update revision: none if it is on top, else those of the renumbering of the equal one,
      or those of the creation of a new one, under the next number. */
  predicate StoresUpdate(nameOf: Namer, w: Workload, revisions: seq<Revision>, collisions: nat, err: Option<Error>,
                         calls: seq<Event>)
  {
    var data := Data(w.spec.template);
    var equal := FindEqualRevisions(revisions, data);
    if equal == [] then
      CreatingCalls(nameOf, Revision("", data, NextRevision(revisions), Some(w.uid), 0), CollisionsOf(w), collisions, err,
                    calls)
    else
      && collisions == CollisionsOf(w)
      && if revisions[|revisions| - 1].data == data then err.None? && calls == []
         else RenumberingCalls(equal[|equal| - 1], NextRevision(revisions), RETRY_STEPS, err, calls)
  }

  lemma CreationLandsOnce(nameOf: Namer, r: Revision, from: nat, to: nat, err: Option<Error>, calls: seq<Event>)
    requires CreatingCalls(nameOf, r, from, to, err, calls)
    ensures forall i | 0 <= i < |calls| - 1 :: StoresNothing(calls[i])
    ensures |calls| <= 2 * (to - from + 1) && calls != [] && (err.None? <==> !StoresNothing(calls[|calls| - 1]))
  {
    hide Collisions;
    var n := 2 * (to - from);
    CollisionPairs(nameOf, r, from, to, calls[..n]);
    forall i | 0 <= i < |calls| - 1
      ensures StoresNothing(calls[i])
    {
      if i < n {
        assert calls[..n][i] == calls[i] && calls[..n][i] in calls[..n];
      } else {
        assert calls[n..][i - n] == calls[i];
      }
    }
    assert calls[n..][|calls| - n - 1] == calls[|calls| - 1];
  }

  lemma FirstCreation(nameOf: Namer, r: Revision, from: nat, to: nat, err: Option<Error>, calls: seq<Event>)
    requires CreatingCalls(nameOf, r, from, to, err, calls)
    ensures calls != [] && (calls[0].RevisionCreated? || calls[0].RevisionCreateFailed?)
    ensures calls[0].revision == r.(name := nameOf(r.data, from))
  {
    var n := 2 * (to - from);
    if n > 0 {
      assert calls[..n][2 * 0] == RevisionCreateFailed(r.(name := nameOf(r.data, from + 0)), AlreadyExists);
      assert calls[..n][0] == calls[0];
    } else {
      assert calls[n..] == calls;
    }
  }

  /** The number of collisions reported before is where probing for a new revision begins, or zero if none was. */
  lemma FirstProbe(nameOf: Namer, w: Workload, revisions: seq<Revision>, collisions: nat, err: Option<Error>,
                   calls: seq<Event>)
    requires StoresUpdate(nameOf, w, revisions, collisions, err, calls)
    requires forall r <- revisions :: r.data != Data(w.spec.template)
    ensures calls != [] && (calls[0].RevisionCreated? || calls[0].RevisionCreateFailed?)
    ensures w.status.collisions.None? ==> calls[0].revision.name == nameOf(Data(w.spec.template), 0)
    ensures w.status.collisions.Some? ==>
              calls[0].revision.name == nameOf(Data(w.spec.template), w.status.collisions.value)
    ensures calls[0].revision.data == Data(w.spec.template) && calls[0].revision.owner == Some(w.uid)
  {
    hide Data, NextRevision, CreatingCalls;
    FirstCreation(nameOf, Revision("", Data(w.spec.template), NextRevision(revisions), Some(w.uid), 0), CollisionsOf(w),
                  collisions, err, calls);
  }

  /** A renumbering is given up for conflicts only after four attempts, each of which met one and read anew. */
  lemma GivesUpAfterFour(r: Revision, number: int, calls: seq<Event>)
    requires RenumberingCalls(r, number, RETRY_STEPS, Some(Conflict), calls)
    ensures |calls| == 8 && |AnswersIn(calls)| == 4 && forall a <- AnswersIn(calls) :: Conflicts(a)
  {
    hide AnswersIn, Complete, Retried, RetryCalls, Conflicts;
    EndsAsAnswered(r, number, AnswersIn(calls), RETRY_STEPS);
  }

  /** However it goes, one write is accepted at most, as the last call and not with an error; and the calls are no more
      than two for each attempt, or for each collision and the probe after it. */
  lemma StoresOnce(nameOf: Namer, w: Workload, revisions: seq<Revision>, collisions: nat, err: Option<Error>,
                   calls: seq<Event>)
    requires StoresUpdate(nameOf, w, revisions, collisions, err, calls)
    ensures forall i | 0 <= i < |calls| - 1 :: StoresNothing(calls[i])
    ensures calls != [] && err.Some? ==> StoresNothing(calls[|calls| - 1])
    ensures CollisionsOf(w) <= collisions && |calls| <= 2 * Max(RETRY_STEPS, collisions - CollisionsOf(w) + 1)
  {
    hide CreatingCalls, Complete, RetryCalls, Retried, Data, AnswersIn, NextRevision;
    var data := Data(w.spec.template);
    var equal := FindEqualRevisions(revisions, data);
    if equal == [] {
      CreationLandsOnce(nameOf, Revision("", data, NextRevision(revisions), Some(w.uid), 0), CollisionsOf(w), collisions,
                        err, calls);
    } else if calls != [] {
      RetryLandsOnce(equal[|equal| - 1], NextRevision(revisions), AnswersIn(calls), RETRY_STEPS);
      LandedIsSuccess(equal[|equal| - 1], NextRevision(revisions), AnswersIn(calls), RETRY_STEPS);
    }
  }

  /** Reuses, renumbers or creates the revision of the workload's template. */
  method ActivateUpdate(c: Client, nameOf: Namer, w: Workload, ghost claimed: seq<Pod>, revisions: seq<Revision>)
      returns (err: Option<Error>, update: Revision, collisionCount: nat, ghost calls: seq<Event>)
    requires Reached(c, Activating(w, claimed)) && ListsSorted(revisions, c.s.revisions) && ProperNames(nameOf)
    modifies c
    ensures Reached(c, Activating(w, claimed)) && c.s.workload.status == old(c.s).workload.status
    ensures c.calm ==> OnlyRevisionsDiffer(old(c.s), c.s)
    ensures err.None? ==>
              Activated(w, old(c.s).revisions, c.s.revisions, update, LosesReread(AnswersIn(calls), RETRY_STEPS))
    ensures err.Some? ==> c.s.revisions == old(c.s).revisions
    ensures c.reliable ==> err.None? && !LosesReread(AnswersIn(calls), RETRY_STEPS)
    ensures Did(old(c.log), c.log, calls) && StoresUpdate(nameOf, w, revisions, collisionCount, err, calls)
    ensures (exists n <- old(c.s).revisions :: ReusesTop(w, old(c.s).revisions, n)) ==> c.s == old(c.s) && calls == []
    ensures err.None? && update.name in old(c.s).revisions ==> collisionCount == CollisionsOf(w)
  {
    hide Legal, Consistent, Where, Free, Replay, Environment, Sound, ListsSorted, Activated, Data, ProperNames, LosesReread,
      NextRevision, IsTop, Reached, CallsOf, AnswersIn, CreatingCalls, RenumberingCalls;
    calls := [];
    DidNothing(c.log);
    collisionCount := CollisionsOf(w);
    var nextRevision := NextRevision(revisions);
    update := NewRevision(w, nextRevision);
    var equalRevisions := FindEqualRevisions(revisions, update.data);
    NothingLost();
    LastIsTop(revisions, c.s.revisions);
    if equalRevisions != [] && revisions[|revisions| - 1].data == equalRevisions[|equalRevisions| - 1].data {
      update := revisions[|revisions| - 1];
      ReuseActivates(w, revisions, c.s.revisions);
      err := None;
    } else if equalRevisions != [] {
      assert equalRevisions[|equalRevisions| - 1] in equalRevisions;
      err, update, calls := RollBack(c, w, claimed, revisions, equalRevisions[|equalRevisions| - 1], nextRevision);
    } else {
      err, update, collisionCount, calls := CreateNew(c, nameOf, w, claimed, revisions, update, collisionCount);
    }
  }

  lemma KeyedByName(revisions: seq<Revision>, store: map<Name, Revision>)
    requires ListsSorted(revisions, store)
    ensures forall n <- store :: store[n].name == n
  {
  }

  /** The first listed revision of a name, or else the update. */
  method CurrentOf(revisions: seq<Revision>, ghost store: map<Name, Revision>, name: Name, update: Revision)
      returns (current: Revision)
    requires ListsSorted(revisions, store)
    ensures current == if name in store then store[name] else update
  {
    for i := 0 to |revisions|
      invariant forall j | 0 <= j < i :: revisions[j].name != name
    {
      if revisions[i].name == name {
        return revisions[i];
      }
    }
    return update;
  }

  lemma ChoiceMade(w: Workload, before: map<Name, Revision>, after: map<Name, Revision>, current: Revision,
                   update: Revision, lost: bool)
    requires Activated(w, before, after, update, lost)
    requires current == if w.status.current in before then before[w.status.current] else update
    requires forall n <- before :: before[n].name == n
    ensures IsChoice(w, after, current, update)
  {
    hide Data;
  }

  lemma ChoosingChooses(log: seq<Event>, current: Revision, update: Revision)
    requires Where(log).Activating?
    ensures JustChosen(log + [Chose(current, update)])
  {
    assert (log + [Chose(current, update)])[..|log|] == log;
  }

  /** Activates the update revision, and looks up the current one in the list made before. */
  method GetActiveRevisions(c: Client, nameOf: Namer, w: Workload, ghost claimed: seq<Pod>, revisions: seq<Revision>)
      returns (err: Option<Error>, current: Revision, update: Revision, collisionCount: nat, ghost calls: seq<Event>)
    requires Reached(c, Activating(w, claimed)) && ListsSorted(revisions, c.s.revisions) && ProperNames(nameOf)
    modifies c
    ensures Reached(c, if err.Some? then Activating(w, claimed) else Rolling(w, claimed, current, update))
    ensures err.None? ==> JustChosen(c.log)
    ensures c.s.workload.status == old(c.s).workload.status
    ensures c.calm ==> OnlyRevisionsDiffer(old(c.s), c.s)
    ensures err.None? ==>
              Activated(w, old(c.s).revisions, c.s.revisions, update, LosesReread(AnswersIn(calls), RETRY_STEPS))
    ensures err.None? ==>
              current == if w.status.current in old(c.s).revisions then old(c.s).revisions[w.status.current] else update
    ensures err.Some? ==> c.s.revisions == old(c.s).revisions
    ensures c.reliable ==> err.None? && !LosesReread(AnswersIn(calls), RETRY_STEPS)
    ensures Did(old(c.log), c.log, calls) && StoresUpdate(nameOf, w, revisions, collisionCount, err, calls)
    ensures (exists n <- old(c.s).revisions :: ReusesTop(w, old(c.s).revisions, n)) ==> c.s == old(c.s) && calls == []
    ensures err.None? && update.name in old(c.s).revisions ==> collisionCount == CollisionsOf(w)
  {
    hide Legal, Consistent, Where, Free, Replay, Environment, Sound, ListsSorted, Activated, Data, ProperNames, LosesReread,
      ReusesTop, IsChoice, CallsOf, AnswersIn, StoresUpdate, JustChosen;
    ghost var store := c.s.revisions;
    KeyedByName(revisions, store);
    err, update, collisionCount, calls := ActivateUpdate(c, nameOf, w, claimed, revisions);
    current := update;
    if err.Some? {
      return;
    }
    current := CurrentOf(revisions, store, w.status.current, update);
    ChoiceMade(w, store, c.s.revisions, current, update, LosesReread(AnswersIn(calls), RETRY_STEPS));
    ghost var middle := c.log;
    ChoosingChooses(c.log, current, update);
    Advance(c, Activating(w, claimed), Chose(current, update));
    ThenNothing(old(c.log), middle, c.log, calls);
  }
}
