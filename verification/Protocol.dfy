/** The reconcile loop as a protocol: what may happen at each point of a pass, and what every run keeps. */
module Protocol {
  import opened Objects
  import opened Snapshot
  import opened Cluster
  import opened Planner
  import opened Ownership
  import opened Reporting

  /** Where in a pass the controller is, and what it has read and decided so far. */
  datatype Control =
    | Idle
    | Reading(w: Workload)
    | Claiming(w: Workload, listed: seq<Pod>)
    | Activating(w: Workload, claimed: seq<Pod>)
    | Rolling(w: Workload, claimed: seq<Pod>, current: Revision, update: Revision)

  function OwnerOf(w: Workload): Owner {
    Owner(w.uid, w.spec.selector, w.deleting)
  }

  function Step(ctl: Control, e: Event): Control {
    match e
    case Fetched(w) => Reading(w)
    case Listed(pods) => if ctl.Reading? then Claiming(ctl.w, pods) else ctl
    case Claimed(pods) => if ctl.Claiming? then Activating(ctl.w, pods) else ctl
    case Chose(current, update) => if ctl.Activating? then Rolling(ctl.w, ctl.claimed, current, update) else ctl
    case Returned => Idle
    case _ => ctl
  }

  /** Where the controller is after a log of events. */
  function Where(log: seq<Event>): Control {
    if log == [] then Idle else Step(Where(log[..|log| - 1]), log[|log| - 1])
  }

  /** The last event of a log is the choice of the revisions. */
  predicate JustChosen(log: seq<Event>) {
    log != [] && Where(log).Rolling? && Where(log[..|log| - 1]).Activating?
  }

  /** All active pods, as they are, each once. */
  predicate ListsActive(pods: seq<Pod>, store: map<PodId, Pod>) {
    && (forall p <- pods :: p.id in store && store[p.id] == p && !p.terminating)
    && (forall i <- store :: !store[i].terminating ==> store[i] in pods)
    && DistinctIds(pods)
  }

  /** A pod as it is made from a revision. */
  function Made(uid: Uid, r: Revision): Pod {
    VersionedPod(uid, Restored(r.data), r.name)
  }

  predicate MadeOf(uid: Uid, r: Revision, p: Pod) {
    p == Made(uid, r)
  }

  /** The status names the update revision, and moves the current revision to it only on a full rollout. */
  predicate Promotes(ctl: Control, status: Status)
    requires ctl.Rolling?
  {
    && ctl.w.spec.replicas.Some? && status.update == ctl.update.name
    && status.current == if FullyRolledOut(ctl.w.spec, ctl.update.name, ctl.claimed) then ctl.update.name
                         else ctl.current.name
  }

  /** A revision in use: the current one, the update, or one that a claimed pod runs. */
  predicate IsLive(claimed: seq<Pod>, current: Name, update: Name, name: Name) {
    name == current || name == update || exists p <- claimed :: RevisionOf(p) == name
  }

  /** While it rolls out, a pass makes pods of the two revisions in play. */
  predicate MayMake(ctl: Control, p: Pod) {
    && ctl.Rolling? && !ctl.w.deleting
    && (MadeOf(ctl.w.uid, ctl.current, p) || MadeOf(ctl.w.uid, ctl.update, p))
  }

  predicate MayCollect(ctl: Control, name: Name) {
    ctl.Rolling? && !IsLive(ctl.claimed, ctl.current.name, ctl.update.name, name)
  }

  /** What does not depend on the store: others' actions, the writes the pass has decided on, and calls that are refused,
      each where it may be made. */
  predicate Free(selector: Labels, ctl: Control, e: Event) {
    match e
    case PodOwned(_, _) => ctl.Claiming? && Settlement(OwnerOf(ctl.w), true, ctl.listed, e)
    case PodOwnFailed(_, _, _) => ctl.Claiming?
    case PodCreated(p, _) => MayMake(ctl, p)
    case PodCreateFailed(p, _) => MayMake(ctl, p)
    case PodDeleted(_) => ctl.Rolling? && !ctl.w.deleting
    case PodDeleteFailed(_, _) => ctl.Rolling? && !ctl.w.deleting
    case StatusWritten(status) => ctl.Rolling? && Promotes(ctl, status)
    case StatusWriteFailed(_, _) => ctl.Rolling?
    case RevisionDeleted(name) => MayCollect(ctl, name)
    case RevisionDeleteFailed(name, _) => MayCollect(ctl, name)
    case ReadFailed(_) => true
    case _ => Environment(selector, e) || (ctl.Activating? && StoresNothing(e))
  }

  /** A revision for data not stored yet, under an unused name and numbered above all stored ones. */
  predicate IsNew(w: Workload, store: map<Name, Revision>, r: Revision) {
    && r.name != "" && r.name !in store && r.data == Data(w.spec.template) && r.owner == Some(w.uid)
    && forall n <- store :: store[n].data != r.data && store[n].number < r.number
  }

  /** The stored revision of the same data, numbered above all others. */
  predicate IsBump(w: Workload, store: map<Name, Revision>, r: Revision) {
    && r.name in store && r.data == Data(w.spec.template)
    && r == store[r.name].(number := r.number, rv := r.rv)
    && forall n <- store :: n != r.name ==> store[n].number < r.number
  }

  /** The update is the stored revision of the workload's template, the current one that which the status names,
      if it is stored, and else the update. */
  predicate IsChoice(w: Workload, store: map<Name, Revision>, current: Revision, update: Revision) {
    && update.name in store && store[update.name].data == update.data == Data(w.spec.template)
    && current.name in store && store[current.name].data == current.data
    && current.name == if w.status.current in store then w.status.current else update.name
  }

  predicate Permits(ctl: Control, s: State, e: Event) {
    match e
    case Fetched(w) => ctl.Idle? && w == s.workload
    case Listed(pods) => ctl.Reading? && ListsActive(pods, s.pods)
    case Claimed(pods) => ctl.Claiming? && pods == Kept(OwnerOf(ctl.w), ctl.listed)
    case RevisionCreated(r) => ctl.Activating? && IsNew(ctl.w, s.revisions, r)
    case RevisionUpdated(r) => ctl.Activating? && IsBump(ctl.w, s.revisions, r)
    case Chose(current, update) => ctl.Activating? && IsChoice(ctl.w, s.revisions, current, update)
    case Returned => true
    case _ => Free(s.workload.spec.selector, ctl, e)
  }

  predicate LegalFrom(start: State, log: seq<Event>, n: nat)
    requires n <= |log|
  {
    forall k | n <= k < |log| :: Permits(Where(log[..k]), Replay(start, log[..k]), log[k])
  }

  /** Every event of a log was permitted where it happened. */
  predicate Legal(start: State, log: seq<Event>) {
    LegalFrom(start, log, 0)
  }

  lemma LegalConcat(start: State, before: seq<Event>, after: seq<Event>)
    requires Legal(start, before) && before <= after && LegalFrom(start, after, |before|)
    ensures Legal(start, after)
  {
    hide Permits;
    forall k | 0 <= k < |before|
      ensures Permits(Where(after[..k]), Replay(start, after[..k]), after[k])
    {
      assert after[..k] == before[..k] && after[k] == before[k];
    }
  }

  lemma OneExtends(start: State, before: seq<Event>, e: Event)
    requires Legal(start, before) && Permits(Where(before), Replay(start, before), e)
    ensures Legal(start, before + [e]) && Where(before + [e]) == Step(Where(before), e)
  {
    hide Permits, Step;
    assert (before + [e])[..|before|] == before;
    LegalConcat(start, before, before + [e]);
  }

  lemma FreePermitted(ctl: Control, s: State, e: Event)
    requires Free(s.workload.spec.selector, ctl, e)
    ensures Permits(ctl, s, e) && Step(ctl, e) == ctl
  {
  }

  /** A log has grown by such events only, while the controller was at one point. */
  predicate FreeSince(selector: Labels, ctl: Control, before: seq<Event>, after: seq<Event>) {
    before <= after && forall k | |before| <= k < |after| :: Free(selector, ctl, after[k])
  }

  lemma FreeSinceMore(selector: Labels, ctl: Control, before: seq<Event>, middle: seq<Event>, after: seq<Event>)
    requires FreeSince(selector, ctl, before, middle) && FreeSince(selector, ctl, middle, after)
    ensures FreeSince(selector, ctl, before, after)
  {
    hide Free;
    forall k | |before| <= k < |after|
      ensures Free(selector, ctl, after[k])
    {
      if k < |middle| {
        assert after[k] == middle[k];
      }
    }
  }

  /** Events that do not depend on the store may follow wherever the controller is. */
  lemma {:induction false} FreeExtends(start: State, before: seq<Event>, after: seq<Event>)
    requires Legal(start, before) && FreeSince(start.workload.spec.selector, Where(before), before, after)
    ensures Legal(start, after) && Where(after) == Where(before)
  {
    hide Legal, Free, Permits;
    if |before| == |after| {
      assert before == after;
    } else {
      var n := |after| - 1;
      FreeExtends(start, before, after[..n]);
      ReplayKeepsIdentity(start, after[..n]);
      FreePermitted(Where(before), Replay(start, after[..n]), after[n]);
      OneExtends(start, after[..n], after[n]);
      assert after == after[..n] + [after[n]];
    }
  }

  // ---- The invariant

  predicate IsSnapshot(selector: Labels, data: Json) {
    data == Data(Restored(data)) && Fits(selector, Restored(data).labels)
  }

  /** The stored revisions are snapshots of different templates with different numbers. */
  predicate Sound(uid: Uid, selector: Labels, store: map<Name, Revision>) {
    && (forall n <- store :: n != "" && store[n].owner == Some(uid) && IsSnapshot(selector, store[n].data))
    && (forall m, n | m in store && n in store && m != n ::
          store[m].data != store[n].data && store[m].number != store[n].number)
  }

  /** The pod names a stored revision, and was made from that revision's template. */
  predicate IsMadeOfStored(store: map<Name, Revision>, p: Pod) {
    && RevisionOf(p) in store
    && p.labels == Stamp(Restored(store[RevisionOf(p)].data).labels, RevisionOf(p))
    && p.body == Restored(store[RevisionOf(p)].data).body
  }

  predicate IsOrphan(selector: Labels, p: Pod) {
    ControllerOf(p.owners).None? && !p.terminating && Matches(selector, p.labels)
  }

  /** The active pods that wait to be adopted. */
  function Orphans(s: State): set<PodId> {
    set i | i in s.pods && IsOrphan(s.workload.spec.selector, s.pods[i])
  }

  /** Every active pod of the workload's own was made from the revision it names, which is stored, unless it came from
      outside and was adopted; the current revision, once it is reported, is stored; and all pods that wait to be adopted
      come from outside. */
  predicate Consistent(outside: set<PodId>, s: State) {
    && WellKeyed(s)
    && Sound(s.workload.uid, s.workload.spec.selector, s.revisions)
    && Fits(s.workload.spec.selector, s.workload.spec.template.labels) && s.workload.spec.replicas.Some?
    && (forall i <- Own(s) - outside :: IsMadeOfStored(s.revisions, s.pods[i]))
    && (forall i <- s.pods :: IsOrphan(s.workload.spec.selector, s.pods[i]) ==> i in outside)
    && (s.workload.status.current == "" || s.workload.status.current in s.revisions)
  }

  /** What the controller holds of the workload it read. */
  predicate Remembers(s: State, w: Workload) {
    && w.uid == s.workload.uid && w.spec.selector == s.workload.spec.selector
    && Fits(w.spec.selector, w.spec.template.labels) && w.spec.replicas.Some?
  }

  /** A pod listed earlier and still there has the labels it had. */
  predicate StillLabelled(s: State, listed: seq<Pod>) {
    forall p <- listed :: p.id < s.version && (p.id in s.pods ==> s.pods[p.id].labels == p.labels)
  }

  /** The reported current revision is the one the pass started from, or the update after a full rollout;
      before the first report the pass starts from the update. */
  predicate FollowsStatus(reported: Name, ctl: Control)
    requires ctl.Rolling? && ctl.w.spec.replicas.Some?
  {
    if reported == "" then ctl.current.name == ctl.update.name
    else
      || reported == ctl.current.name
      || (reported == ctl.update.name && FullyRolledOut(ctl.w.spec, ctl.update.name, ctl.claimed))
  }

  predicate Grounded(outside: set<PodId>, s: State, ctl: Control) {
    match ctl
    case Idle => true
    case Reading(w) => Remembers(s, w) && w.status.current == s.workload.status.current
    case Claiming(w, listed) =>
      && Remembers(s, w) && w.status.current == s.workload.status.current
      && StillLabelled(s, listed)
      && (forall p <- listed :: IsOrphan(w.spec.selector, p) ==> p.id in outside)
      && (forall i <- Own(s) - outside :: s.pods[i] in listed)
    case Activating(w, claimed) =>
      && Remembers(s, w) && w.status.current == s.workload.status.current
      && (forall i <- Own(s) - outside :: s.pods[i] in claimed)
    case Rolling(w, claimed, current, update) =>
      && Remembers(s, w)
      && current.name in s.revisions && s.revisions[current.name].data == current.data
      && update.name in s.revisions && s.revisions[update.name].data == update.data == Data(w.spec.template)
      && FollowsStatus(s.workload.status.current, ctl)
      && (forall i <- Own(s) - outside :: IsLive(claimed, current.name, update.name, RevisionOf(s.pods[i])))
  }

  predicate Inv(outside: set<PodId>, s: State, ctl: Control) {
    Consistent(outside, s) && Grounded(outside, s, ctl)
  }

  // ---- Each kind of event keeps it

  /** Pods that vanish, and edits of the workload, leave everything else consistent. */
  lemma OthersKeep(outside: set<PodId>, s: State, ctl: Control, e: Event)
    requires Inv(outside, s, ctl) && (Environment(s.workload.spec.selector, e) || e.PodDeleted?)
    ensures Inv(outside, Next(s, e), ctl)
  {
    hide Stamp, Restored, Data, IsSnapshot;
    NextKeepsKeys(s, e);
    var t := Next(s, e);
    forall i | i in Own(t) - outside
      ensures i in Own(s) && t.pods[i] == s.pods[i]
    {
    }
  }

  /** A release concerns a pod that is not selected, and an adoption one from outside. */
  lemma SettlementKeeps(outside: set<PodId>, s: State, ctl: Control, e: Event)
    requires Inv(outside, s, ctl) && ctl.Claiming? && Settlement(OwnerOf(ctl.w), true, ctl.listed, e)
    ensures Inv(outside, Next(s, e), ctl)
  {
    hide Stamp, Restored, Data, IsSnapshot, Sound, Fits, Matches, IsMadeOfStored, Released, Adopted;
    NextKeepsKeys(s, e);
    var p :| p in ctl.listed && NeedsWrite(OwnerOf(ctl.w), p) && e == PodOwned(p.id, Settled(OwnerOf(ctl.w), p).owners);
    assert Judge(OwnerOf(ctl.w), p).Release? || p.id in outside;
    var t := Next(s, e);
    assert p.id in s.pods ==> s.pods[p.id].labels == p.labels && t.pods[p.id].labels == p.labels;
    forall i | i in Own(t) - outside
      ensures i in Own(s) && t.pods[i] == s.pods[i]
    {
    }
  }

  lemma MadePod(uid: Uid, selector: Labels, r: Revision, p: Pod)
    requires MadeOf(uid, r, p) && Fits(selector, Restored(r.data).labels)
    ensures Mine(uid, selector, p) && RevisionOf(p) == r.name
    ensures p.labels == Stamp(Restored(r.data).labels, r.name) && p.body == Restored(r.data).body
  {
    hide Restored;
    assert p.owners == [OwnerRef(uid, true)];
  }

  lemma SameLabels(p: Pod, q: Pod)
    requires p.labels == q.labels
    ensures RevisionOf(p) == RevisionOf(q)
  {
  }

  /** New pods are made from one of the two revisions in play, both of which are stored. */
  lemma CreationKeeps(outside: set<PodId>, s: State, ctl: Control, p: Pod, now: int)
    requires Inv(outside, s, ctl) && ctl.Rolling? && (MadeOf(ctl.w.uid, ctl.current, p) || MadeOf(ctl.w.uid, ctl.update, p))
    ensures Inv(outside, Next(s, PodCreated(p, now)), ctl)
  {
    hide Stamp, Restored, Data, Fits, Matches, MadeOf, RevisionOf;
    NextKeepsKeys(s, PodCreated(p, now));
    var r := if MadeOf(ctl.w.uid, ctl.current, p) then ctl.current else ctl.update;
    assert IsSnapshot(s.workload.spec.selector, s.revisions[r.name].data);
    MadePod(ctl.w.uid, ctl.w.spec.selector, r, p);
    var t, id := Next(s, PodCreated(p, now)), s.version;
    var q := t.pods[id];
    SameLabels(p, q);
    assert ControllerOf(q.owners).Some?;
    forall i | i in Own(t) - outside && i != id
      ensures i in Own(s) && t.pods[i] == s.pods[i]
    {
    }
  }

  lemma SoundStore(uid: Uid, selector: Labels, store: map<Name, Revision>, w: Workload, r: Revision, rv: nat)
    requires Sound(uid, selector, store) && w.uid == uid && Fits(selector, w.spec.template.labels)
    requires IsNew(w, store, r) || IsBump(w, store, r)
    ensures Sound(uid, selector, store[r.name := r.(rv := rv)])
  {
    hide Data, Restored, Fits;
    RestoredData(w.spec.template);
    var after := store[r.name := r.(rv := rv)];
    forall n | n in after
      ensures n != "" && after[n].owner == Some(uid) && IsSnapshot(selector, after[n].data)
    {
      if n == r.name {
        assert IsSnapshot(selector, Data(w.spec.template));
      }
    }
  }

  /** A revision that is stored anew, or renumbered, keeps the data of all others and its own. */
  lemma StoringKeeps(outside: set<PodId>, s: State, ctl: Control, r: Revision)
    requires Inv(outside, s, ctl) && ctl.Activating? && (IsNew(ctl.w, s.revisions, r) || IsBump(ctl.w, s.revisions, r))
    ensures Inv(outside, Store(s, r), ctl)
  {
    hide Stamp, Restored, Data, Fits, Matches, RevisionOf, Mine, Sound, WellKeyed, ControllerOf;
    NextKeepsKeys(s, RevisionCreated(r));
    var t := Store(s, r);
    SoundStore(s.workload.uid, s.workload.spec.selector, s.revisions, ctl.w, r, s.version + 1);
    assert Own(t) == Own(s);
  }

  lemma NoEmptyName(outside: set<PodId>, s: State)
    requires Consistent(outside, s)
    ensures "" !in s.revisions
  {
  }

  lemma StatusKeeps(outside: set<PodId>, s: State, ctl: Control, status: Status)
    requires Inv(outside, s, ctl) && ctl.Rolling? && Promotes(ctl, status)
    ensures Inv(outside, Next(s, StatusWritten(status)), ctl)
  {
    hide Stamp, Restored, Data, Fits, Matches, Sound, IsMadeOfStored, FullyRolledOut, RevisionOf;
    NoEmptyName(outside, s);
    var t := Next(s, StatusWritten(status));
    assert Own(t) == Own(s);
  }

  lemma SoundRemains(uid: Uid, selector: Labels, store: map<Name, Revision>, gone: set<Name>)
    requires Sound(uid, selector, store)
    ensures Sound(uid, selector, store - gone)
  {
    hide IsSnapshot;
  }

  /** What is collected was stored when the pods were listed, and no pod made since names it. */
  lemma CollectionKeeps(outside: set<PodId>, s: State, ctl: Control, name: Name)
    requires Inv(outside, s, ctl) && ctl.Rolling? && !IsLive(ctl.claimed, ctl.current.name, ctl.update.name, name)
    ensures Inv(outside, Next(s, RevisionDeleted(name)), ctl)
  {
    hide Stamp, Restored, Data, Fits, Matches, RevisionOf, Sound, Mine, WellKeyed, ControllerOf, FullyRolledOut;
    NextKeepsKeys(s, RevisionDeleted(name));
    SoundRemains(s.workload.uid, s.workload.spec.selector, s.revisions, {name});
    var t := Next(s, RevisionDeleted(name));
    assert Own(t) == Own(s);
    forall i | i in Own(t) - outside
      ensures IsMadeOfStored(t.revisions, t.pods[i])
    {
      assert IsLive(ctl.claimed, ctl.current.name, ctl.update.name, RevisionOf(s.pods[i]));
    }
  }

  lemma {:induction false} KeptOwn(o: Owner, pods: seq<Pod>, p: Pod)
    requires p in pods && Mine(o.uid, o.selector, p)
    ensures p in Kept(o, pods)
  {
    hide Matches, ControllerOf;
    var n := |pods| - 1;
    assert pods == pods[..n] + [pods[n]];
    if p in pods[..n] {
      KeptOwn(o, pods[..n], p);
    } else {
      ClaimedIsOwned(o, p);
    }
  }

  lemma FetchingKeeps(outside: set<PodId>, s: State, ctl: Control)
    requires Inv(outside, s, ctl)
    ensures Inv(outside, s, Reading(s.workload))
  {
  }

  lemma ReturningKeeps(outside: set<PodId>, s: State, ctl: Control)
    requires Inv(outside, s, ctl)
    ensures Inv(outside, s, Idle)
  {
    hide Consistent;
  }

  lemma ListingKeeps(outside: set<PodId>, s: State, ctl: Control, pods: seq<Pod>)
    requires Inv(outside, s, ctl) && ctl.Reading? && ListsActive(pods, s.pods)
    ensures Inv(outside, s, Claiming(ctl.w, pods))
  {
    hide Stamp, Restored, Data, Fits, Matches, RevisionOf, Sound, IsMadeOfStored, ControllerOf;
    forall p | p in pods && IsOrphan(ctl.w.spec.selector, p)
      ensures p.id in outside
    {
      assert s.pods[p.id] == p;
    }
  }

  lemma ClaimingKeeps(outside: set<PodId>, s: State, ctl: Control, claimed: seq<Pod>)
    requires Inv(outside, s, ctl) && ctl.Claiming? && claimed == Kept(OwnerOf(ctl.w), ctl.listed)
    ensures Inv(outside, s, Activating(ctl.w, claimed))
  {
    hide Stamp, Restored, Data, Fits, Matches, RevisionOf, Sound, IsMadeOfStored, Kept, ControllerOf, WellKeyed;
    forall i | i in Own(s) - outside
      ensures s.pods[i] in claimed
    {
      KeptOwn(OwnerOf(ctl.w), ctl.listed, s.pods[i]);
    }
  }

  lemma ChoosingKeeps(outside: set<PodId>, s: State, ctl: Control, current: Revision, update: Revision)
    requires Inv(outside, s, ctl) && ctl.Activating? && IsChoice(ctl.w, s.revisions, current, update)
    ensures Inv(outside, s, Rolling(ctl.w, ctl.claimed, current, update))
  {
    hide Stamp, Restored, Data, Fits, Matches, RevisionOf, Sound, IsMadeOfStored, ControllerOf, WellKeyed;
    NoEmptyName(outside, s);
    forall i | i in Own(s) - outside
      ensures IsLive(ctl.claimed, current.name, update.name, RevisionOf(s.pods[i]))
    {
      assert s.pods[i] in ctl.claimed;
    }
  }

  lemma ControlKeeps(outside: set<PodId>, s: State, ctl: Control, e: Event)
    requires Inv(outside, s, ctl) && Permits(ctl, s, e) && IsControl(e)
    ensures Inv(outside, Next(s, e), Step(ctl, e))
  {
    hide Consistent, IsChoice, Kept, ListsActive, Fits, Inv;
    match e {
      case Listed(pods) => ListingKeeps(outside, s, ctl, pods);
      case Claimed(pods) => ClaimingKeeps(outside, s, ctl, pods);
      case Chose(current, update) => ChoosingKeeps(outside, s, ctl, current, update);
      case Fetched(_) => FetchingKeeps(outside, s, ctl);
      case _ => ReturningKeeps(outside, s, ctl);
    }
  }

  /** Whatever is permitted keeps the invariant. */
  lemma InvStep(outside: set<PodId>, s: State, ctl: Control, e: Event)
    requires Inv(outside, s, ctl) && Permits(ctl, s, e)
    ensures Inv(outside, Next(s, e), Step(ctl, e))
  {
    hide Inv, Settlement, MadeOf, Promotes, IsLive, IsNew, IsBump, IsChoice, ListsActive, Kept, Fits;
    if IsControl(e) {
      ControlKeeps(outside, s, ctl, e);
    } else {
      match e {
        case PodOwned(_, _) => SettlementKeeps(outside, s, ctl, e);
        case PodCreated(p, now) => CreationKeeps(outside, s, ctl, p, now);
        case RevisionCreated(r) => StoringKeeps(outside, s, ctl, r);
        case RevisionUpdated(r) => StoringKeeps(outside, s, ctl, r);
        case StatusWritten(status) => StatusKeeps(outside, s, ctl, status);
        case RevisionDeleted(name) => CollectionKeeps(outside, s, ctl, name);
        case _ =>
          if !HasNoEffect(e) {
            OthersKeep(outside, s, ctl, e);
          }
      }
    }
  }

  lemma StartsConsistent(outside: set<PodId>, s: State)
    requires Consistent(outside, s)
    ensures Inv(outside, s, Idle)
  {
  }

  lemma PrefixLegal(start: State, log: seq<Event>, n: nat)
    requires Legal(start, log) && n <= |log|
    ensures Legal(start, log[..n])
  {
    forall k | 0 <= k < n
      ensures Permits(Where(log[..n][..k]), Replay(start, log[..n][..k]), log[..n][k])
    {
      assert log[..n][..k] == log[..k];
    }
  }

  /** Safety over whole runs: however reconciles, refused calls, spec edits and pod deaths follow one another,
      the invariant holds after every event. */
  lemma {:induction false} EveryRunConsistent(start: State, log: seq<Event>)
    requires Consistent(Orphans(start), start) && Legal(start, log)
    ensures Inv(Orphans(start), Replay(start, log), Where(log))
  {
    hide Inv, Permits, Consistent;
    if log == [] {
      StartsConsistent(Orphans(start), start);
    } else {
      var n := |log| - 1;
      PrefixLegal(start, log, n);
      EveryRunConsistent(start, log[..n]);
      InvStep(Orphans(start), Replay(start, log[..n]), Where(log[..n]), log[n]);
    }
  }

  /** In particular, at every moment of a run each active pod of the workload's own was made from the stored
      revision it names. */
  lemma EveryMomentConsistent(start: State, log: seq<Event>)
    requires Consistent(Orphans(start), start) && Legal(start, log)
    ensures forall k | 0 <= k <= |log| :: Consistent(Orphans(start), Replay(start, log[..k]))
  {
    hide Consistent, Legal;
    forall k | 0 <= k <= |log|
      ensures Consistent(Orphans(start), Replay(start, log[..k]))
    {
      PrefixLegal(start, log, k);
      EveryRunConsistent(start, log[..k]);
    }
  }

  lemma LastPermitted(start: State, log: seq<Event>, e: Event)
    requires Legal(start, log + [e])
    ensures Legal(start, log) && Permits(Where(log), Replay(start, log), e)
  {
    hide Permits;
    PrefixLegal(start, log + [e], |log|);
    assert (log + [e])[..|log|] == log && (log + [e])[|log|] == e;
  }

  lemma SettlementTakes(outside: set<PodId>, s: State, ctl: Control, e: Event)
    requires Inv(outside, s, ctl) && ctl.Claiming? && Settlement(OwnerOf(ctl.w), true, ctl.listed, e)
    ensures forall i <- Own(Next(s, e)) - Own(s) :: i in outside
  {
    hide Stamp, Restored, Data, IsSnapshot, Sound, Fits, Matches, IsMadeOfStored, Released, Adopted;
    var p :| p in ctl.listed && NeedsWrite(OwnerOf(ctl.w), p) && e == PodOwned(p.id, Settled(OwnerOf(ctl.w), p).owners);
    assert Judge(OwnerOf(ctl.w), p).Release? || p.id in outside;
    assert p.id in s.pods ==> s.pods[p.id].labels == p.labels && Next(s, e).pods[p.id].labels == p.labels;
  }

  /** A pod becomes the workload's own only by being created, or by the adoption of one that nobody controlled when the
      run began. */
  lemma OwnComesFrom(start: State, log: seq<Event>, e: Event)
    requires Consistent(Orphans(start), start) && Legal(start, log + [e])
    ensures var s := Replay(start, log);
            forall i <- Own(Next(s, e)) - Own(s) :: (e.PodCreated? && i == s.version) || (e.PodOwned? && i in Orphans(start))
  {
    hide Legal, Consistent, FullyRolledOut, Settlement, Matches, ControllerOf, Orphans, Inv;
    LastPermitted(start, log, e);
    EveryRunConsistent(start, log);
    var s := Replay(start, log);
    match e {
      case PodOwned(_, _) => SettlementTakes(Orphans(start), s, Where(log), e);
      case _ =>
    }
  }

  /** The reported current revision moves only to the update revision, and only when all claimed pods run it and
      are as many as the spec read wants, or when none was reported before. */
  lemma CurrentMovesOnRollout(start: State, log: seq<Event>, e: Event)
    requires Consistent(Orphans(start), start) && Legal(start, log + [e])
    ensures var s, ctl := Replay(start, log), Where(log);
            Next(s, e).workload.status.current != s.workload.status.current ==>
              && ctl.Rolling? && ctl.w.spec.replicas.Some?
              && Next(s, e).workload.status.current == ctl.update.name
              && (s.workload.status.current == "" || FullyRolledOut(ctl.w.spec, ctl.update.name, ctl.claimed))
  {
    hide Legal, Consistent, FullyRolledOut;
    LastPermitted(start, log, e);
    EveryRunConsistent(start, log);
  }

  lemma NamesAreProper(start: State, log: seq<Event>)
    requires Consistent(Orphans(start), start) && Legal(start, log)
    ensures Where(log).Rolling? ==> Where(log).update.name != ""
  {
    hide Legal;
    EveryRunConsistent(start, log);
  }

  lemma {:induction false} StaysReported(start: State, log: seq<Event>, n: nat)
    requires Consistent(Orphans(start), start) && n <= |log| && Legal(start, log)
    requires Replay(start, log[..n]).workload.status.current != ""
    ensures Replay(start, log).workload.status.current != ""
  {
    hide Legal, Consistent, FullyRolledOut;
    if n == |log| {
      assert log[..n] == log;
    } else {
      var m := |log| - 1;
      assert log[..m] + [log[m]] == log && log[..m][..n] == log[..n];
      LastPermitted(start, log[..m], log[m]);
      StaysReported(start, log[..m], n);
      NamesAreProper(start, log[..m]);
      CurrentMovesOnRollout(start, log[..m], log[m]);
    }
  }

  /** Once a current revision is reported it is always stored, and every later pass starts from the one reported:
      the fallback to the update revision is out of reach. */
  lemma FallbackUnreachable(start: State, log: seq<Event>, n: nat, current: Revision, update: Revision)
    requires Consistent(Orphans(start), start) && n <= |log| && Legal(start, log + [Chose(current, update)])
    requires Replay(start, log[..n]).workload.status.current != ""
    ensures var s := Replay(start, log);
            && s.workload.status.current in s.revisions
            && current.name == s.workload.status.current
            && Where(log).Activating? && Where(log).w.status.current in s.revisions
  {
    hide Legal, FullyRolledOut, Fits, Sound, IsMadeOfStored;
    LastPermitted(start, log, Chose(current, update));
    EveryRunConsistent(start, log);
    StaysReported(start, log, n);
  }
}
