/** The API server as the controller's client sees it: every call can be refused, and others act in between. */
module Server {
  import opened Objects
  import opened Cluster

  predicate IsNoise(selector: Labels, exclusive: bool, e: Event) {
    Environment(selector, e) || (!exclusive && Touches(e))
  }

  /** The events between two points of a log are not this controller's. */
  predicate NoiseOnly(selector: Labels, exclusive: bool, log: seq<Event>, lo: int, hi: int)
    requires 0 <= lo && hi <= |log|
  {
    forall k | lo <= k < hi :: IsNoise(selector, exclusive, log[k])
  }

  /** What others' events leave alone. */
  lemma NoiseTouches(selector: Labels, exclusive: bool, s: State, e: Event)
    requires IsNoise(selector, exclusive, e)
    ensures ByOthers(e) && (exclusive ==> !Touches(e))
    ensures !Touches(e) ==> Next(s, e).revisions == s.revisions && Next(s, e).workload.status == s.workload.status
    ensures s.revisions.Keys <= Next(s, e).revisions.Keys
    ensures Touches(e) ==> |Next(s, e).revisions.Keys| <= |s.revisions.Keys| + 1
    ensures s.workload.deleting ==> Next(s, e).workload.deleting
  {
    if Touches(e) {
      assert Next(s, e).revisions.Keys == s.revisions.Keys + {e.touched.name};
    }
  }

  /** What a failed read shows in the log; an error of the caller's own shows nothing. */
  function FailedRead(err: Option<Error>): seq<Event> {
    if err.Some? && ByServer(err.value) then [ReadFailed(err.value)] else []
  }

  class Client {
    /** Nobody else acts between two calls of this controller. */
    const calm: bool
    /** No call is refused for a reason that is not in the store. */
    const reliable: bool
    /** Nobody else writes this workload's revisions. */
    const exclusive: bool

    var s: State
    /** How many more writes of revisions others will make: any number, but not without end. */
    var othersLeft: nat

    ghost const start: State
    ghost var log: seq<Event>

    constructor (s: State, calm: bool, reliable: bool, exclusive: bool, othersLeft: nat)
      requires WellKeyed(s)
      requires calm ==> exclusive
      ensures Valid() && this.s == s && start == s && log == []
      ensures this.calm == calm && this.reliable == reliable && this.exclusive == exclusive
      ensures this.othersLeft == othersLeft
    {
      this.calm, this.reliable, this.exclusive, this.othersLeft := calm, reliable, exclusive, othersLeft;
      this.s := s;
      this.start := s;
      this.log := [];
    }

    ghost predicate Valid()
      reads this
    {
      && s == Replay(start, log)
      && WellKeyed(s)
      && s.workload.uid == start.workload.uid
      && s.workload.spec.selector == start.workload.spec.selector
      && (calm ==> exclusive)
    }

    ghost function Selector(): Labels {
      start.workload.spec.selector
    }

    /** The log since a moment holds what others did and then, last, one call. */
    ghost predicate CalledOnce(before: seq<Event>)
      reads this
    {
      && before < log
      && NoiseOnly(Selector(), exclusive, log, |before|, |log| - 1)
      && Did(before, log, [Last()])
      && (calm ==> log == before + [Last()])
    }

    /** The log since a moment holds only what others did. */
    ghost predicate OnlyRead(before: seq<Event>)
      reads this
    {
      && before <= log
      && NoiseOnly(Selector(), exclusive, log, |before|, |log|)
      && Did(before, log, [])
      && (calm ==> log == before)
    }

    /** The same after a read, but for its failure, which comes last. */
    ghost predicate Asked(before: seq<Event>, err: Option<Error>)
      reads this
    {
      if err.None? then OnlyRead(before) else CalledOnce(before) && Last() == ReadFailed(err.value)
    }

    /** The revisions and the status are as they were, unless others write revisions too. */
    ghost predicate KeepsRevisions(before: State)
      reads this
    {
      exclusive ==> s.revisions == before.revisions && s.workload.status == before.workload.status
    }

    ghost predicate KeepsNames(before: State, left: nat)
      reads this
    {
      NamesKept(before, left, s, othersLeft)
    }

    ghost function Last(): Event
      requires log != []
      reads this
    {
      log[|log| - 1]
    }

    /** The state the last event found. */
    ghost function Before(): State
      requires log != []
      reads this
    {
      Replay(start, log[..|log| - 1])
    }

    /** Appends an event to the log and makes it happen. */
    method Record(e: Event)
      requires Valid() && Accepts(s, e)
      modifies this`s, this`log
      ensures Valid() && log == old(log) + [e] && s == Next(old(s), e)
      ensures CallsOf(log) == CallsOf(old(log)) + if IsCall(e) then [e] else []
    {
      NextKeepsKeys(s, e);
      ReplayOne(start, log, e);
      CallsOfOne(log, e);
      s := Next(s, e);
      log := log + [e];
    }

    /** Notes where the controller is; the cluster does not see it. */
    ghost method Note(e: Event)
      requires Valid() && IsControl(e)
      modifies this`log
      ensures Valid() && log == old(log) + [e] && Did(old(log), log, [])
    {
      ReplayOne(start, log, e);
      CallsOfOne(log, e);
      log := log + [e];
    }

    /** One event by others. */
    method Let(ghost before: seq<Event>, ghost s0: State, ghost left: nat, e: Event)
      requires Valid() && OnlyRead(before) && !calm && IsNoise(Selector(), exclusive, e)
      requires Touches(e) ==> othersLeft > 0
      requires Aged(s0, s) && KeepsRevisions(s0) && KeepsNames(s0, left)
      modifies this
      ensures Valid() && OnlyRead(before)
      ensures Aged(s0, s) && KeepsRevisions(s0) && KeepsNames(s0, left)
      ensures old(s).workload.deleting ==> s.workload.deleting
    {
      hide Replay, CallsOf, Aged, WellKeyed, IsNoise, Next;
      AgedByNext(s, e);
      AgedTransitive(s0, s, Next(s, e));
      NoiseTouches(Selector(), exclusive, s, e);
      if Touches(e) {
        othersLeft := othersLeft - 1;
      }
      var middle := log;
      Record(e);
      assert forall k | |before| <= k < |log| - 1 :: log[k] == middle[k];
    }

    lemma SameNames()
      ensures KeepsNames(s, othersLeft)
    {
    }

    /** Others act: pods die, the spec is edited, deletion is requested, revisions are written. */
    method Interfere()
      requires Valid()
      modifies this
      ensures Valid() && OnlyRead(old(log))
      ensures calm ==> s == old(s)
      ensures KeepsRevisions(old(s))
      ensures Aged(old(s), s)
      ensures old(s).workload.deleting ==> s.workload.deleting
      ensures KeepsNames(old(s), old(othersLeft))
    {
      hide Replay, CallsOf, IsNoise, NamesKept, Aged, WellKeyed;
      DidNothing(log);
      SameNames();
      AgedSelf(s);
      if calm {
        return;
      }
      var others: seq<Event> :| forall e <- others :: IsNoise(s.workload.spec.selector, exclusive, e);
      for i := 0 to |others|
        invariant Valid() && OnlyRead(old(log)) && Aged(old(s), s)
        invariant KeepsRevisions(old(s))
        invariant old(s).workload.deleting ==> s.workload.deleting
        invariant KeepsNames(old(s), old(othersLeft))
      {
        assert others[i] in others;
        if !(Touches(others[i]) && othersLeft == 0) {
          Let(old(log), old(s), old(othersLeft), others[i]);
        }
      }
    }

    /** Whether the server turns the next call down for a reason of its own. */
    method Fault() returns (fault: Option<Error>)
      ensures reliable ==> fault.None?
      ensures fault.Some? ==> ByServer(fault.value)
    {
      var refused: bool := *;
      if reliable || !refused {
        return None;
      }
      assert ByServer(Unavailable);
      var e: Error :| ByServer(e);
      return Some(e);
    }

    /** One call, after others have acted. */
    method Answer(ghost before: seq<Event>, e: Event)
      requires Valid() && OnlyRead(before) && Accepts(s, e) && IsCall(e)
      modifies this`s, this`log
      ensures Valid() && CalledOnce(before)
      ensures log != [] && Last() == e && Before() == old(s) && s == Next(old(s), e)
    {
      hide Replay, CallsOf, Accepts, IsNoise;
      var middle := log;
      Record(e);
      assert log[..|log| - 1] == middle;
      assert forall k | |before| <= k < |log| - 1 :: log[k] == middle[k];
      assert CallsOf(before) + [] + [e] == CallsOf(before) + [e];
      if calm {
        assert middle == before;
      }
    }

    // ---- Reads

    method GetWorkload() returns (err: Option<Error>, w: Workload)
      requires Valid()
      modifies this
      ensures err.Some? ==> ByServer(err.value)
      ensures Valid() && Asked(old(log), err)
      ensures calm ==> s == old(s)
      ensures KeepsRevisions(old(s))
      ensures reliable ==> err.None?
      ensures w == s.workload && (old(s).workload.deleting ==> w.deleting)
    {
      hide Replay, OnlyRead, CalledOnce, CallsOf, NamesKept, Aged, IsNoise;
      Interfere();
      err := Fault();
      w := s.workload;
      if err.Some? {
        Answer(old(log), ReadFailed(err.value));
      }
    }

    method ListPods() returns (err: Option<Error>, pods: seq<Pod>)
      requires Valid()
      modifies this
      ensures err.Some? ==> ByServer(err.value)
      ensures Valid() && Asked(old(log), err)
      ensures calm ==> s == old(s)
      ensures KeepsRevisions(old(s))
      ensures reliable ==> err.None?
      ensures ListsPods(pods, s.pods)
    {
      hide Replay, OnlyRead, CalledOnce, CallsOf, NamesKept, Aged, IsNoise;
      Interfere();
      err := Fault();
      if err.Some? {
        Answer(old(log), ReadFailed(err.value));
      }
      pods := [];
      var left := s.pods.Keys;
      while left != {}
        invariant left <= s.pods.Keys
        invariant forall p <- pods :: p.id in s.pods && s.pods[p.id] == p && p.id !in left
        invariant forall i <- s.pods :: i in left || s.pods[i] in pods
        invariant forall i, j | 0 <= i < j < |pods| :: pods[i].id != pods[j].id
      {
        var i :| i in left;
        left := left - {i};
        pods := pods + [s.pods[i]];
      }
    }

    method ListRevisions() returns (err: Option<Error>, revisions: seq<Revision>)
      requires Valid()
      modifies this
      ensures err.Some? ==> ByServer(err.value)
      ensures Valid() && Asked(old(log), err)
      ensures calm ==> s == old(s)
      ensures KeepsRevisions(old(s))
      ensures reliable ==> err.None?
      ensures ListsRevisions(revisions, s.revisions)
    {
      hide Replay, OnlyRead, CalledOnce, CallsOf, NamesKept, Aged, IsNoise;
      Interfere();
      err := Fault();
      if err.Some? {
        Answer(old(log), ReadFailed(err.value));
      }
      revisions := [];
      var left := s.revisions.Keys;
      while left != {}
        invariant left <= s.revisions.Keys
        invariant forall r <- revisions :: r.name in s.revisions && s.revisions[r.name] == r && r.name !in left
        invariant forall n <- s.revisions :: n in left || s.revisions[n] in revisions
        invariant forall i, j | 0 <= i < j < |revisions| :: revisions[i].name != revisions[j].name
      {
        var n :| n in left;
        left := left - {n};
        revisions := revisions + [s.revisions[n]];
      }
    }

    method GetRevision(name: Name) returns (answer: Answer<Revision>)
      requires Valid()
      modifies this
      ensures answer.Missed? ==> ByServer(answer.error)
      ensures Valid() && CalledOnce(old(log)) && Last() == RevisionGot(name, answer)
      ensures calm ==> s == old(s)
      ensures KeepsRevisions(old(s)) && KeepsNames(old(s), old(othersLeft))
      ensures answer.Got? ==> name in s.revisions && answer.value == s.revisions[name] && answer.value.name == name
      ensures answer.Got? ==> answer.value.rv <= s.version
      ensures reliable && name in s.revisions ==> answer.Got?
      ensures Aged(old(s), s)
    {
      hide Replay, OnlyRead, CalledOnce, CallsOf, NamesKept, Aged, IsNoise;
      Interfere();
      var err := Fault();
      if err.None? && name !in s.revisions {
        err := Some(NotFound);
      }
      answer := if err.None? then Got(s.revisions[name]) else Missed(err.value);
      Answer(old(log), RevisionGot(name, answer));
    }

    // ---- Writes

    method CreatePod(p: Pod) returns (err: Option<Error>)
      requires Valid()
      modifies this
      ensures err.Some? ==> ByServer(err.value)
      ensures Valid() && CalledOnce(old(log))
      ensures calm ==> s == Next(old(s), Last())
      ensures KeepsRevisions(old(s))
      ensures reliable ==> err.None?
      ensures if err.None? then Last().PodCreated? && Last().pod == p else Last() == PodCreateFailed(p, err.value)
    {
      hide Replay, OnlyRead, CalledOnce, CallsOf, NamesKept, Aged, IsNoise;
      Interfere();
      err := Fault();
      if err.Some? {
        Answer(old(log), PodCreateFailed(p, err.value));
        return;
      }
      var now: int := *;
      Answer(old(log), PodCreated(p, now));
    }

    method DeletePod(id: PodId) returns (err: Option<Error>)
      requires Valid()
      modifies this
      ensures err.Some? ==> ByServer(err.value)
      ensures Valid() && CalledOnce(old(log))
      ensures calm ==> s == Next(old(s), Last())
      ensures KeepsRevisions(old(s))
      ensures calm && reliable && id in old(s).pods ==> err.None?
      ensures Last() == if err.None? then PodDeleted(id) else PodDeleteFailed(id, err.value)
      ensures err.None? ==> id in Before().pods
    {
      hide Replay, OnlyRead, CalledOnce, CallsOf, NamesKept, Aged, IsNoise;
      Interfere();
      err := Fault();
      if err.None? && id !in s.pods {
        err := Some(NotFound);
      }
      Answer(old(log), if err.None? then PodDeleted(id) else PodDeleteFailed(id, err.value));
    }

    /** Writes the owner references of a pod, as read and changed by the caller. */
    method UpdateOwners(id: PodId, owners: seq<OwnerRef>) returns (err: Option<Error>)
      requires Valid()
      modifies this
      ensures err.Some? ==> ByServer(err.value)
      ensures Valid() && CalledOnce(old(log))
      ensures calm ==> s == Next(old(s), Last())
      ensures KeepsRevisions(old(s))
      ensures calm && reliable && id in old(s).pods ==> err.None?
      ensures Last() == if err.None? then PodOwned(id, owners) else PodOwnFailed(id, owners, err.value)
      ensures err.None? ==> id in Before().pods
      ensures old(s).workload.deleting ==> s.workload.deleting
    {
      hide Replay, OnlyRead, CalledOnce, CallsOf, NamesKept, Aged, IsNoise;
      Interfere();
      err := Fault();
      if err.None? && id !in s.pods {
        err := Some(NotFound);
      }
      Answer(old(log), if err.None? then PodOwned(id, owners) else PodOwnFailed(id, owners, err.value));
    }

    method CreateRevision(r: Revision) returns (err: Option<Error>, created: Revision)
      requires Valid()
      modifies this
      ensures err.Some? ==> ByServer(err.value)
      ensures Valid() && CalledOnce(old(log))
      ensures calm ==> s == Next(old(s), Last())
      ensures exclusive ==> Before().revisions == old(s).revisions && s.workload.status == old(s).workload.status
      ensures Last() == if err.None? then RevisionCreated(r) else RevisionCreateFailed(r, err.value)
      ensures err.Some? ==> KeepsNames(old(s), old(othersLeft))
      ensures s.revisions == if err.None? then Before().revisions[r.name := created] else Before().revisions
      ensures created.(rv := r.rv) == r
      ensures err.None? ==> r.name !in Before().revisions
      ensures reliable && err.Some? ==> err == Some(AlreadyExists)
      ensures err == Some(AlreadyExists) && reliable ==> r.name in Before().revisions
    {
      hide Replay, OnlyRead, CalledOnce, CallsOf, NamesKept, Aged, IsNoise;
      Interfere();
      err := Fault();
      if err.None? && r.name in s.revisions {
        err := Some(AlreadyExists);
      }
      created := r.(rv := s.version + 1);
      Answer(old(log), if err.None? then RevisionCreated(r) else RevisionCreateFailed(r, err.value));
    }

    /** Overwrites a revision if the caller's copy is of the stored resource version. */
    method UpdateRevision(r: Revision) returns (err: Option<Error>, stored: Revision)
      requires Valid()
      modifies this
      ensures err.Some? ==> ByServer(err.value)
      ensures Valid() && CalledOnce(old(log))
      ensures calm ==> s == Next(old(s), Last())
      ensures exclusive ==> Before().revisions == old(s).revisions && s.workload.status == old(s).workload.status
      ensures Last() == if err.None? then RevisionUpdated(r) else RevisionUpdateFailed(r, err.value)
      ensures s.revisions == if err.None? then Before().revisions[r.name := stored] else Before().revisions
      ensures stored.(rv := r.rv) == r
      ensures err.None? ==> r.name in Before().revisions && Before().revisions[r.name].rv == r.rv
      ensures exclusive && reliable && r.name in old(s).revisions && old(s).revisions[r.name].rv == r.rv
              ==> err.None?
      ensures Aged(old(s), Before()) && WellKeyed(Before())
      ensures err.Some? ==> s == Before()
    {
      hide Replay, OnlyRead, CalledOnce, CallsOf, NamesKept, Aged, IsNoise;
      Interfere();
      err := Fault();
      if err.None? {
        if r.name !in s.revisions {
          err := Some(NotFound);
        } else if s.revisions[r.name].rv != r.rv {
          err := Some(Conflict);
        }
      }
      stored := r.(rv := s.version + 1);
      Answer(old(log), if err.None? then RevisionUpdated(r) else RevisionUpdateFailed(r, err.value));
    }

    method DeleteRevision(name: Name) returns (err: Option<Error>)
      requires Valid()
      modifies this
      ensures err.Some? ==> ByServer(err.value)
      ensures Valid() && CalledOnce(old(log))
      ensures calm ==> s == Next(old(s), Last())
      ensures exclusive ==> Before().revisions == old(s).revisions && s.workload.status == old(s).workload.status
      ensures Last() == if err.None? then RevisionDeleted(name) else RevisionDeleteFailed(name, err.value)
      ensures s.revisions == if err.None? then Before().revisions - {name} else Before().revisions
      ensures exclusive && reliable && name in old(s).revisions ==> err.None?
    {
      hide Replay, OnlyRead, CalledOnce, CallsOf, NamesKept, Aged, IsNoise;
      Interfere();
      err := Fault();
      if err.None? && name !in s.revisions {
        err := Some(NotFound);
      }
      Answer(old(log), if err.None? then RevisionDeleted(name) else RevisionDeleteFailed(name, err.value));
    }

    /** Writes the status of the workload if the caller's copy is of the stored resource version. */
    method UpdateStatus(w: Workload) returns (err: Option<Error>)
      requires Valid()
      modifies this
      ensures err.Some? ==> ByServer(err.value)
      ensures Valid() && CalledOnce(old(log))
      ensures calm ==> s == Next(old(s), Last())
      ensures exclusive ==> s.revisions == old(s).revisions
      ensures Last() == if err.None? then StatusWritten(w.status) else StatusWriteFailed(w.status, err.value)
      ensures s == Next(Before(), Last())
      ensures err.None? ==> Before().workload.rv == w.rv
      ensures exclusive && err.Some? ==> s.workload.status == old(s).workload.status
      ensures calm && reliable && old(s).workload.rv == w.rv ==> err.None?
    {
      hide Replay, OnlyRead, CalledOnce, CallsOf, NamesKept, Aged, IsNoise;
      Interfere();
      err := Fault();
      if err.None? && s.workload.rv != w.rv {
        err := Some(Conflict);
      }
      Answer(old(log), if err.None? then StatusWritten(w.status) else StatusWriteFailed(w.status, err.value));
    }
  }
}
