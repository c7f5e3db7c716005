/** One undisturbed pass of the controller as a relation between the state before it and the state after it. */
module Sweeps {
  import opened Objects
  import opened Cluster
  import opened Planner
  import opened Rollout
  import opened Guarantees
  import opened History
  import opened Ownership
  import opened Reporting
  import opened Protocol
  import opened Activation
  import opened Truncation

  /** What a pass read, decided and did, and the states it went through. */
  datatype Sweep = Sweep(
    active: seq<Pod>,
    claimed: seq<Pod>,
    settled: State,
    revisions: seq<Revision>,
    current: Revision,
    update: Revision,
    activated: State,
    collisions: nat,
    pass: Pass,
    rolled: State,
    status: Status,
    reported: State)

  /** The pass of a workload over its claimed pods, once its revisions are chosen. */
  predicate PassOf(w: Workload, claimed: seq<Pod>, current: Revision, update: Revision, t: Pass)
    requires w.spec.replicas.Some?
  {
    IsPass(w.spec, claimed, current.name, update.name, Made(w.uid, current), Made(w.uid, update), t)
  }

  /** A record for a pass that has done nothing yet. */
  ghost function NoSweep(s: State): Sweep {
    var none := Revision("", Null, 0, None, 0);
    Sweep([], [], s, [], none, none, s, 0, Pass(Diffs(0, 0, 0, 0), [], [], [], []), s, s.workload.status, s)
  }

  /** A status that carries only what a pass has decided. */
  function Blank(w: Workload, current: Name, update: Name, collisions: nat, failed: bool): Status {
    Status(w.generation, 0, 0, current, update, Some(collisions), failed)
  }

  /** The pods are listed and claimed. */
  predicate SweepClaims(s: State, x: Sweep) {
    && ListsActive(x.active, s.pods)
    && x.claimed == Kept(OwnerOf(s.workload), x.active)
    && x.settled == Replay(s, Settlements(OwnerOf(s.workload), x.active))
  }

  /** The revisions are listed, and the update revision is activated. */
  predicate SweepActivates(s: State, x: Sweep) {
    var store := x.settled.revisions;
    && ListsSorted(x.revisions, store)
    && Activated(s.workload, store, x.activated.revisions, x.update, false)
    && x.current == (if s.workload.status.current in store then store[s.workload.status.current] else x.update)
    && OnlyRevisionsDiffer(x.settled, x.activated) && WellKeyed(x.activated)
    && ((exists n <- store :: ReusesTop(s.workload, store, n)) ==> x.activated == x.settled)
    && (x.update.name in store ==> x.collisions == CollisionsOf(s.workload))
  }

  /** The history is truncated. */
  predicate SweepTruncates(x: Sweep, end: State) {
    var surplus := Surplus(x.revisions, x.claimed, x.current.name, x.update.name);
    && OnlyRevisionsDiffer(x.reported, end) && WellKeyed(end)
    && end.revisions == x.reported.revisions - NamesOf(surplus)
    && (surplus == [] ==> end == x.reported)
  }

  /** The pods are scaled and updated, with all calls accepted that the plan allows; the status is reported from
      the pods as they were claimed; and the history is truncated. */
  predicate RollsOut(w: Workload, x: Sweep, end: State)
    requires w.spec.replicas.Some?
  {
    && PassOf(w, x.claimed, x.current, x.update, x.pass)
    && AllCreated(x.pass.creates)
    && (Feasible(x.claimed, x.update.name, x.pass.diffs) <==> Succeeds(x.claimed, x.update.name, x.pass))
    && x.rolled == Replay(x.activated, Calls(x.pass))
    && Reports(w.spec,
               Blank(w, x.current.name, x.update.name, x.collisions, !Succeeds(x.claimed, x.update.name, x.pass)),
               x.claimed, x.status)
    && x.reported == (if InconsistentStatus(w.status, x.status) then Next(x.rolled, StatusWritten(x.status)) else x.rolled)
    && SweepTruncates(x, end)
  }

  predicate IsSweep(s: State, x: Sweep, end: State) {
    && !s.workload.deleting && s.workload.spec.replicas.Some?
    && SweepClaims(s, x) && SweepActivates(s, x) && RollsOut(s.workload, x, end)
  }

  lemma HalvesMakeSweep(s: State, x0: Sweep, x: Sweep, end: State)
    requires !s.workload.deleting && SweepClaims(s, x0) && SweepActivates(s, x0)
    requires x == x0.(pass := x.pass, rolled := x.rolled, status := x.status, reported := x.reported)
    requires s.workload.spec.replicas.Some? && RollsOut(s.workload, x, end)
    ensures IsSweep(s, x, end)
  {
    hide Activated, ListsSorted, ListsActive, PassOf, Succeeds, Feasible, Reports, Surplus, Kept, Settlements, Replay;
  }

  // ---- Any pass, whatever fails or happens meanwhile

  /** What a pass did: the calls of its parts, in the order in which they are made, what they were made for, and the
      errors they ended with. The first is the one that kept the pass from choosing its revisions. */
  datatype Account = Account(
    failure: Option<Error>,
    reading: seq<Event>,
    active: seq<Pod>,
    gate: Option<Error>,
    settling: seq<Event>,
    revisions: seq<Revision>,
    activating: seq<Event>,
    activated: map<Name, Revision>,
    collisions: nat,
    pass: Pass,
    syncErr: Option<Error>,
    status: Status,
    reportErr: Option<Error>,
    reporting: seq<Event>,
    done: nat,
    truncating: seq<Event>)

  function RollingCalls(a: Account): seq<Event> {
    Calls(a.pass) + a.reporting + a.truncating
  }

  function AllCalls(a: Account): seq<Event> {
    a.reading + a.settling + a.activating + RollingCalls(a)
  }

  /** The calls up to the choice of revisions. */
  function FirstCalls(a: Account): seq<Event> {
    a.reading + a.settling + a.activating
  }

  /** From the choice of revisions on: a pass towards the spec, unless the workload is being deleted; then the report of
      the claimed pods, if it is worth writing; and if that did not fail, the truncation of the history. */
  predicate Rolls(w: Workload, claimed: seq<Pod>, current: Revision, update: Revision, a: Account) {
    var surplus := Surplus(a.revisions, claimed, current.name, update.name);
    && w.spec.replicas.Some?
    && (if w.deleting then Calls(a.pass) == [] && a.syncErr.None?
        else
          && PassOf(w, claimed, current, update, a.pass)
          && (a.syncErr.None? <==> Succeeds(claimed, update.name, a.pass))
          && (a.syncErr.Some? ==> StopsWith(claimed, update.name, a.pass, a.syncErr.value)))
    && Reports(w.spec, Blank(w, current.name, update.name, a.collisions, a.syncErr.Some?), claimed, a.status)
    && (if InconsistentStatus(w.status, a.status) then StatusCalls(a.status, RETRY_STEPS, a.reportErr, a.reporting)
        else a.reportErr.None? && a.reporting == [])
    && (if a.reportErr.None? then TruncatingCalls(surplus, a.done, a.truncating)
        else a.truncating == [] && a.done == 0)
  }

  /** All the pass did was a read that failed. */
  predicate StopsReading(a: Account) {
    && a.failure.Some? && a.reading == [ReadFailed(a.failure.value)]
    && a.settling == [] && a.activating == [] && RollingCalls(a) == []
  }

  /** A pass that came as far as its place in the protocol says: what it read and chose is what the log shows it noted.
      Its calls are those of the steps it came to; and if it did not come to choose its revisions, it leaves the stored
      ones alone. */
  predicate Passed(nameOf: Namer, ctl: Control, before: map<Name, Revision>, a: Account, after: map<Name, Revision>) {
    match ctl
    case Idle => StopsReading(a) && after == before
    case Reading(_) => StopsReading(a) && after == before
    case Claiming(w, listed) =>
      && Settling(OwnerOf(w), listed, a.gate, a.settling, a.failure) && a.failure.Some?
      && a.reading == [] && a.activating == [] && RollingCalls(a) == [] && after == before
    case Activating(w, claimed) =>
      && claimed == Kept(OwnerOf(w), a.active) && a.settling == Settlements(OwnerOf(w), a.active)
      && a.failure.Some?
      && (|| a.activating == [ReadFailed(a.failure.value)]
          || (&& ListsSorted(a.revisions, before)
              && StoresUpdate(nameOf, w, a.revisions, a.collisions, a.failure, a.activating)))
      && a.reading == [] && RollingCalls(a) == [] && after == before
    case Rolling(_, _, _, _) =>
      && a.failure.None? && a.reading == []
      && ctl.claimed == Kept(OwnerOf(ctl.w), a.active) && a.settling == Settlements(OwnerOf(ctl.w), a.active)
      && ListsSorted(a.revisions, before)
      && StoresUpdate(nameOf, ctl.w, a.revisions, a.collisions, None, a.activating)
      && Activated(ctl.w, before, a.activated, ctl.update, LosesReread(AnswersIn(a.activating), RETRY_STEPS))
      && ctl.current == (if ctl.w.status.current in before then before[ctl.w.status.current] else ctl.update)
      && (ctl.update.name in before ==> a.collisions == CollisionsOf(ctl.w))
      && Rolls(ctl.w, ctl.claimed, ctl.current, ctl.update, a)
      && a.done <= |Surplus(a.revisions, ctl.claimed, ctl.current.name, ctl.update.name)|
      && after == a.activated
                  - NamesOf(Surplus(a.revisions, ctl.claimed, ctl.current.name, ctl.update.name)[..a.done])
  }

  /** A record for a pass that has made no call yet. */
  ghost function NoAccount(status: Status): Account {
    Account(None, [], [], None, [], [], [], map[], 0, Pass(Diffs(0, 0, 0, 0), [], [], [], []), None, status, None, [],
            0, [])
  }

  /** What is known of a pass once it has chosen its revisions. */
  predicate Prepared(nameOf: Namer, w: Workload, before: map<Name, Revision>, claimed: seq<Pod>,
                     revisions: seq<Revision>, current: Revision, update: Revision, collisions: nat, a: Account,
                     after: map<Name, Revision>)
  {
    && a.failure.None? && a.reading == []
    && claimed == Kept(OwnerOf(w), a.active) && a.settling == Settlements(OwnerOf(w), a.active)
    && ListsSorted(revisions, before) && StoresUpdate(nameOf, w, revisions, collisions, None, a.activating)
    && Activated(w, before, after, update, LosesReread(AnswersIn(a.activating), RETRY_STEPS))
    && current == (if w.status.current in before then before[w.status.current] else update)
    && (update.name in before ==> collisions == CollisionsOf(w))
    && a.revisions == revisions && a.collisions == collisions && a.activated == after
  }

  /** A record for a pass that stops at its first read, or at its second. */
  ghost function Unread(status: Status, error: Error): Account {
    NoAccount(status).(failure := Some(error), reading := [ReadFailed(error)])
  }

  lemma NothingPassed(nameOf: Namer, ctl: Control, store: map<Name, Revision>, status: Status, error: Error)
    ensures ctl.Idle? || ctl.Reading? ==> Passed(nameOf, ctl, store, Unread(status, error), store)
    ensures AllCalls(Unread(status, error)) == FirstCalls(Unread(status, error)) == [ReadFailed(error)]
    ensures RollingCalls(NoAccount(status)) == []
    ensures !LosesReread(AnswersIn([]), RETRY_STEPS)
  {
  }

  /** A record for a pass that has tried to claim its pods. */
  ghost function ClaimTried(status: Status, active: seq<Pod>, gate: Option<Error>, calls: seq<Event>,
                         err: Option<Error>): Account
  {
    NoAccount(status).(failure := err, active := active, gate := gate, settling := calls)
  }

  lemma ClaimingPassed(nameOf: Namer, w: Workload, listed: seq<Pod>, gate: Option<Error>, calls: seq<Event>,
                       err: Option<Error>, store: map<Name, Revision>, status: Status)
    requires Settling(OwnerOf(w), listed, gate, calls, err)
    ensures var a := ClaimTried(status, listed, gate, calls, err);
            && (err.Some? ==> Passed(nameOf, Claiming(w, listed), store, a, store))
            && FirstCalls(a) == calls && RollingCalls(a) == []
  {
    hide Settling;
    assert [] + calls + [] == calls;
  }

  lemma ListingPassed(nameOf: Namer, w: Workload, claimed: seq<Pod>, a: Account, error: Error, store: map<Name, Revision>,
                      status: Status)
    requires a == ClaimTried(status, a.active, a.gate, a.settling, None)
    requires claimed == Kept(OwnerOf(w), a.active) && a.settling == Settlements(OwnerOf(w), a.active)
    ensures var b := a.(failure := Some(error), activating := [ReadFailed(error)]);
            && Passed(nameOf, Activating(w, claimed), store, b, store)
            && FirstCalls(b) == a.settling + [ReadFailed(error)] && RollingCalls(b) == []
  {
    hide Kept, Settlements;
    assert [] + a.settling + [ReadFailed(error)] == a.settling + [ReadFailed(error)];
  }

  lemma ActivatingPassed(nameOf: Namer, w: Workload, claimed: seq<Pod>, a: Account, b: Account,
                         store: map<Name, Revision>, status: Status)
    requires a == ClaimTried(status, a.active, a.gate, a.settling, None)
    requires claimed == Kept(OwnerOf(w), a.active) && a.settling == Settlements(OwnerOf(w), a.active)
    requires b == a.(failure := b.failure, revisions := b.revisions, activating := b.activating, activated := b.activated,
                     collisions := b.collisions)
    requires ListsSorted(b.revisions, store)
    requires StoresUpdate(nameOf, w, b.revisions, b.collisions, b.failure, b.activating)
    ensures b.failure.Some? ==> Passed(nameOf, Activating(w, claimed), store, b, store)
    ensures FirstCalls(b) == a.settling + b.activating && RollingCalls(b) == []
  {
    hide Kept, Settlements, ListsSorted, StoresUpdate;
    assert [] + a.settling + b.activating == a.settling + b.activating;
  }

  lemma NotRolling(a: Account)
    requires RollingCalls(a) == []
    ensures AllCalls(a) == FirstCalls(a)
  {
  }

  lemma CallsInOrder(a: Account)
    ensures AllCalls(a) == FirstCalls(a) + RollingCalls(a)
  {
  }

  lemma PassedAll(nameOf: Namer, w: Workload, before: map<Name, Revision>, claimed: seq<Pod>, revisions: seq<Revision>,
                  current: Revision, update: Revision, collisions: nat, a1: Account, middle: map<Name, Revision>,
                  a: Account, after: map<Name, Revision>)
    requires Prepared(nameOf, w, before, claimed, revisions, current, update, collisions, a1, middle)
    requires a == a1.(pass := a.pass, syncErr := a.syncErr, status := a.status, reportErr := a.reportErr,
                      reporting := a.reporting, done := a.done, truncating := a.truncating)
    requires Rolls(w, claimed, current, update, a)
    requires var surplus := Surplus(revisions, claimed, current.name, update.name);
             a.done <= |surplus| && after == middle - NamesOf(surplus[..a.done])
    ensures Passed(nameOf, Rolling(w, claimed, current, update), before, a, after)
  {
    hide Activated, StoresUpdate, ListsSorted, Rolls, Surplus, NamesOf, Kept, Settlements, LosesReread, AnswersIn;
  }
}
