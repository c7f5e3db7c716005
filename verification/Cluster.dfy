/** The cluster as a state machine: what the API server stores, and the events that change it. */
module Cluster {
  import opened Objects

  /** Everything stored about one workload. Every accepted write raises version by one. */
  datatype State = State(
    pods: map<PodId, Pod>,
    revisions: map<Name, Revision>,
    workload: Workload,
    version: nat)

  datatype Event =
      // Done by others, at any moment
    | PodDied(id: PodId)
    | SpecEdited(replicas: nat, partition: Option<nat>, template: Template)
    | DeletionRequested
    | RevisionTouched(touched: Revision)
      // Calls of the controller, accepted or refused, what re-reading a revision gave, and other reads that failed
    | PodCreated(pod: Pod, now: int)
    | PodCreateFailed(refused: Pod, error: Error)
    | PodDeleted(id: PodId)
    | PodDeleteFailed(id: PodId, error: Error)
    | PodOwned(id: PodId, owners: seq<OwnerRef>)
    | PodOwnFailed(id: PodId, owners: seq<OwnerRef>, error: Error)
    | RevisionCreated(revision: Revision)
    | RevisionCreateFailed(revision: Revision, error: Error)
    | RevisionUpdated(revision: Revision)
    | RevisionUpdateFailed(revision: Revision, error: Error)
    | RevisionGot(name: Name, answer: Answer<Revision>)
    | RevisionDeleted(name: Name)
    | RevisionDeleteFailed(name: Name, error: Error)
    | StatusWritten(status: Status)
    | StatusWriteFailed(status: Status, error: Error)
    | ReadFailed(error: Error)
      // Where the controller is in its pass
    | Fetched(workload: Workload)
    | Listed(listed: seq<Pod>)
    | Claimed(claimed: seq<Pod>)
    | Chose(current: Revision, update: Revision)
    | Returned

  /** The events other actors may cause while the revisions belong to this controller alone. */
  predicate Environment(selector: Labels, e: Event) {
    match e
    case PodDied(_) => true
    case SpecEdited(_, _, template) => Fits(selector, template.labels)
    case DeletionRequested => true
    case _ => false
  }

  /** A write by somebody else to a revision that keeps its name. */
  predicate Touches(e: Event) {
    e.RevisionTouched?
  }

  predicate ByOthers(e: Event) {
    e.PodDied? || e.SpecEdited? || e.DeletionRequested? || e.RevisionTouched?
  }

  predicate IsControl(e: Event) {
    e.Fetched? || e.Listed? || e.Claimed? || e.Chose? || e.Returned?
  }

  /** A call of the controller, whatever came of it. */
  predicate IsCall(e: Event) {
    !ByOthers(e) && !IsControl(e)
  }

  /** A call about storing a revision that was refused, or that only read. */
  predicate StoresNothing(e: Event) {
    e.RevisionCreateFailed? || e.RevisionUpdateFailed? || e.RevisionGot?
  }

  /** A call that was refused, or that only read. */
  predicate HasNoEffect(e: Event) {
    || e.PodCreateFailed? || e.PodDeleteFailed? || e.PodOwnFailed? || StoresNothing(e)
    || e.RevisionDeleteFailed? || e.StatusWriteFailed? || e.ReadFailed?
  }

  /** What the server can have answered in a state. A write of a revision is accepted only if the writer's copy is of
      the stored resource version. */
  predicate Accepts(s: State, e: Event) {
    match e
    case PodDeleted(id) => id in s.pods
    case PodOwned(id, _) => id in s.pods
    case RevisionCreated(r) => r.name !in s.revisions
    case RevisionUpdated(r) => r.name in s.revisions && s.revisions[r.name].rv == r.rv
    case RevisionGot(name, answer) => answer.Got? ==> name in s.revisions && answer.value == s.revisions[name]
    case RevisionDeleted(name) => name in s.revisions
    case _ => true
  }

  /** The controller's own calls in a log, in their order. */
  function CallsOf(log: seq<Event>): seq<Event> {
    if log == [] then []
    else CallsOf(log[..|log| - 1]) + if IsCall(log[|log| - 1]) then [log[|log| - 1]] else []
  }

  /** Between two logs the controller made exactly these calls. */
  predicate Did(before: seq<Event>, after: seq<Event>, calls: seq<Event>) {
    before <= after && CallsOf(after) == CallsOf(before) + calls
  }

  lemma CallsOfOne(log: seq<Event>, e: Event)
    ensures CallsOf(log + [e]) == CallsOf(log) + if IsCall(e) then [e] else []
  {
    assert (log + [e])[..|log|] == log;
  }

  lemma DidNothing(log: seq<Event>)
    ensures Did(log, log, [])
  {
    assert CallsOf(log) + [] == CallsOf(log);
  }

  lemma DidMore(before: seq<Event>, middle: seq<Event>, after: seq<Event>, a: seq<Event>, b: seq<Event>)
    requires Did(before, middle, a) && Did(middle, after, b)
    ensures Did(before, after, a + b) && before <= middle <= after
  {
    assert CallsOf(before) + a + b == CallsOf(before) + (a + b);
  }

  /** A write of a whole revision, which gets a resource version never used before. */
  function Store(s: State, r: Revision): State {
    s.(revisions := s.revisions[r.name := r.(rv := s.version + 1)], version := s.version + 1)
  }

  function Next(s: State, e: Event): State {
    match e
    case PodDied(id) => s.(pods := s.pods - {id}, version := s.version + 1)
    case SpecEdited(replicas, partition, template) =>
      var spec := s.workload.spec.(replicas := Some(replicas), partition := partition, template := template);
      s.(workload := s.workload.(spec := spec, generation := s.workload.generation + 1, rv := s.version + 1),
         version := s.version + 1)
    case DeletionRequested =>
      s.(workload := s.workload.(deleting := true, rv := s.version + 1), version := s.version + 1)
    case RevisionTouched(r) => Store(s, r)
    case PodCreated(p, now) =>
      s.(pods := s.pods[s.version := p.(id := s.version, created := now)], version := s.version + 1)
    case PodDeleted(id) => s.(pods := s.pods - {id}, version := s.version + 1)
    case PodOwned(id, owners) =>
      if id in s.pods then s.(pods := s.pods[id := s.pods[id].(owners := owners)], version := s.version + 1) else s
    case RevisionCreated(r) => Store(s, r)
    case RevisionUpdated(r) => Store(s, r)
    case RevisionDeleted(name) => s.(revisions := s.revisions - {name}, version := s.version + 1)
    case StatusWritten(status) =>
      s.(workload := s.workload.(status := status, rv := s.version + 1), version := s.version + 1)
    case _ => s
  }

  /** The state after a log of events. */
  function Replay(start: State, log: seq<Event>): State {
    if log == [] then start else Next(Replay(start, log[..|log| - 1]), log[|log| - 1])
  }

  lemma ReplayOne(start: State, log: seq<Event>, e: Event)
    ensures Replay(start, log + [e]) == Next(Replay(start, log), e)
  {
    assert (log + [e])[..|log|] == log;
  }

  lemma ReplayConcat(start: State, a: seq<Event>, b: seq<Event>)
    ensures Replay(start, a + b) == Replay(Replay(start, a), b)
  {
    if b == [] {
      assert a + b == a;
    } else {
      var n := |b| - 1;
      assert (a + b)[..|a + b| - 1] == a + b[..n];
      ReplayConcat(start, a, b[..n]);
    }
  }

  /** Nothing an event does changes who the workload is or which pods it selects. */
  lemma {:induction false} ReplayKeepsIdentity(start: State, log: seq<Event>)
    ensures Replay(start, log).workload.uid == start.workload.uid
    ensures Replay(start, log).workload.spec.selector == start.workload.spec.selector
  {
    if log != [] {
      ReplayKeepsIdentity(start, log[..|log| - 1]);
    }
  }

  /** What others do, and refused calls, leave the revisions and the status alone. */
  lemma {:induction false} QuietKeeps(s: State, log: seq<Event>)
    requires forall e <- log :: Environment(s.workload.spec.selector, e) || HasNoEffect(e)
    ensures Replay(s, log).revisions == s.revisions
    ensures Replay(s, log).workload.status == s.workload.status
  {
    if log != [] {
      assert log[|log| - 1] in log;
      QuietKeeps(s, log[..|log| - 1]);
    }
  }

  /** Nothing but revisions was written. */
  predicate OnlyRevisionsDiffer(before: State, after: State) {
    after == before.(revisions := after.revisions, version := after.version)
  }

  /** The ids of the workload's own active pods. */
  function Own(s: State): set<PodId> {
    set i | i in s.pods && Mine(s.workload.uid, s.workload.spec.selector, s.pods[i])
  }

  /** Those of them that run the update revision, or those that do not. */
  function Side(s: State, update: Name, updated: bool): set<PodId> {
    set i | i in Own(s) && EqualToRevisionHash(s.pods[i], update) == updated
  }

  function Updated(s: State, update: Name): set<PodId> {
    Side(s, update, true)
  }

  function NotUpdated(s: State, update: Name): set<PodId> {
    Side(s, update, false)
  }

  lemma OwnSplits(s: State, update: Name)
    ensures |Own(s)| == |Updated(s, update)| + |NotUpdated(s, update)|
  {
    assert Own(s) == Updated(s, update) + NotUpdated(s, update);
    assert Updated(s, update) !! NotUpdated(s, update);
  }

  /** Objects are stored under their own ids and names. Pod ids are the versions at which the pods were
      created, and resource versions those of the last write, so the next of either was never used. */
  predicate WellKeyed(s: State) {
    && (forall i <- s.pods :: i < s.version && s.pods[i].id == i)
    && (forall n <- s.revisions :: s.revisions[n].name == n && s.revisions[n].rv <= s.version)
    && s.workload.rv <= s.version
  }

  lemma {:induction false} NextKeepsKeys(s: State, e: Event)
    requires WellKeyed(s)
    ensures WellKeyed(Next(s, e)) && s.version <= Next(s, e).version
  {
  }

  /** Between two states every revision either stayed as it was or was written with a new resource version. */
  predicate Aged(before: State, after: State) {
    && before.version <= after.version
    && forall n <- after.revisions ::
         after.revisions[n].rv > before.version || (n in before.revisions && after.revisions[n] == before.revisions[n])
  }

  lemma AgedSelf(s: State)
    ensures Aged(s, s)
  {
  }

  lemma AgedByNext(s: State, e: Event)
    ensures Aged(s, Next(s, e))
  {
  }

  lemma AgedTransitive(a: State, b: State, c: State)
    requires Aged(a, b) && Aged(b, c)
    ensures Aged(a, c)
  {
  }

  /** Between two states no revision's name has gone, and others have used up their writes for every name that came. */
  predicate NamesKept(before: State, left: nat, after: State, stillLeft: nat) {
    && before.revisions.Keys <= after.revisions.Keys
    && |after.revisions.Keys| + stillLeft <= |before.revisions.Keys| + left
  }

  lemma NamesKeptMore(a: State, i: nat, b: State, j: nat, c: State, k: nat)
    requires NamesKept(a, i, b, j) && NamesKept(b, j, c, k)
    ensures NamesKept(a, i, c, k) && b.revisions.Keys <= c.revisions.Keys
  {
  }

  /** A listing of the stored pods: each one once, in some order. */
  predicate ListsPods(pods: seq<Pod>, store: map<PodId, Pod>) {
    && (forall p <- pods :: p.id in store && store[p.id] == p)
    && (forall i <- store :: store[i] in pods)
    && (forall i, j | 0 <= i < j < |pods| :: pods[i].id != pods[j].id)
  }

  /** A listing of the stored revisions: each one once, in some order. */
  predicate ListsRevisions(revisions: seq<Revision>, store: map<Name, Revision>) {
    && (forall r <- revisions :: r.name in store && store[r.name] == r)
    && (forall n <- store :: store[n] in revisions)
    && (forall i, j | 0 <= i < j < |revisions| :: revisions[i].name != revisions[j].name)
  }
}
