/** The revision history: listing, creating past name collisions, and renumbering past conflicts. */
module History {
  import opened Objects
  import opened Cluster
  import opened Server

  /** The name a revision's data gets after a number of collisions. */
  type Namer = (Json, nat) -> Name

  /** For the same data, another collision count gives another name. */
  ghost predicate Injective(nameOf: Namer) {
    forall d, i, j :: nameOf(d, i) == nameOf(d, j) ==> i == j
  }

  /** The stored revisions controlled by a workload. */
  function OwnedBy(store: map<Name, Revision>, uid: Uid): map<Name, Revision> {
    map n | n in store && store[n].owner == Some(uid) :: store[n]
  }

  method ListControllerRevisions(c: Client, uid: Uid) returns (err: Option<Error>, owned: seq<Revision>)
    requires c.Valid()
    modifies c
    ensures c.Valid() && c.Asked(old(c.log), err) && c.KeepsRevisions(old(c.s)) && (err.Some? ==> ByServer(err.value))
    ensures c.calm ==> c.s == old(c.s)
    ensures c.reliable ==> err.None?
    ensures err.None? ==> ListsRevisions(owned, OwnedBy(c.s.revisions, uid))
  {
    hide Client.Valid, Replay, CallsOf, IsNoise, NoiseOnly;
    var revisions;
    err, revisions := c.ListRevisions();
    owned := [];
    if err.Some? {
      return;
    }
    for i := 0 to |revisions|
      invariant forall r <- owned :: r in revisions[..i] && r.owner == Some(uid)
      invariant forall r <- revisions[..i] :: r.owner == Some(uid) ==> r in owned
      invariant forall j, k | 0 <= j < k < |owned| :: owned[j].name != owned[k].name
    {
      if revisions[i].owner == Some(uid) {
        owned := owned + [revisions[i]];
      }
    }
  }

  // ---- Creating a revision

  /** The name after j collisions is taken by other data. */
  predicate Collides(nameOf: Namer, store: map<Name, Revision>, data: Json, j: nat) {
    nameOf(data, j) in store && store[nameOf(data, j)].data != data
  }

  /** Probing from one collision count stops at another: the first that does not collide. */
  predicate ProbesTo(nameOf: Namer, store: map<Name, Revision>, data: Json, from: nat, to: nat) {
    from <= to && !Collides(nameOf, store, data, to)
    && forall j | from <= j < to :: Collides(nameOf, store, data, j)
  }

  function Names(nameOf: Namer, data: Json, from: nat, to: nat): set<Name> {
    set j | from <= j < to :: nameOf(data, j)
  }

  lemma {:induction false} NamesDiffer(nameOf: Namer, data: Json, from: nat, to: nat)
    requires Injective(nameOf) && from <= to
    ensures |Names(nameOf, data, from, to)| == to - from
  {
    if from == to {
      assert Names(nameOf, data, from, to) == {};
    } else {
      NamesDiffer(nameOf, data, from, to - 1);
      assert nameOf(data, to - 1) !in Names(nameOf, data, from, to - 1);
      assert Names(nameOf, data, from, to) == Names(nameOf, data, from, to - 1) + {nameOf(data, to - 1)};
    }
  }

  lemma SubsetIsSmaller<T>(a: set<T>, b: set<T>)
    requires a <= b
    ensures |a| <= |b|
  {
    assert b == a + (b - a);
  }

  /** Probing stops after at most as many collisions as there are stored revisions, at one count only. */
  lemma ProbingStops(nameOf: Namer, store: map<Name, Revision>, data: Json, from: nat) returns (to: nat)
    requires Injective(nameOf)
    ensures ProbesTo(nameOf, store, data, from, to) && to - from <= |store|
    ensures forall other | ProbesTo(nameOf, store, data, from, other) :: other == to
  {
    to := from;
    while Collides(nameOf, store, data, to)
      invariant from <= to && forall j | from <= j < to :: Collides(nameOf, store, data, j)
      invariant to - from <= |store|
      decreases |store| - (to - from)
    {
      NamesDiffer(nameOf, data, from, to + 1);
      forall n | n in Names(nameOf, data, from, to + 1)
        ensures n in store.Keys
      {
        var j :| from <= j < to + 1 && n == nameOf(data, j);
        assert Collides(nameOf, store, data, j);
      }
      SubsetIsSmaller(Names(nameOf, data, from, to + 1), store.Keys);
      to := to + 1;
    }
  }

  /** The log of a creation: calls without effect and what others do, and at most one creation at the end. */
  ghost predicate CreatesAtMostOne(c: Client, before: seq<Event>, after: seq<Event>, r: Revision, created: bool) {
    && before <= after
    && (forall k | |before| <= k < |after| - (if created then 1 else 0) ::
          IsNoise(c.Selector(), c.exclusive, after[k]) || StoresNothing(after[k]))
    && (created ==> before < after && after[|after| - 1] == RevisionCreated(r))
  }

  /** The calls of one probe, by its outcome: a creation, accepted or refused, and if the name was taken, a look at the
      revision that has it. */
  predicate ProbeCalls(r: Revision, err: Option<Error>, result: Revision, taken: bool, calls: seq<Event>) {
    if err.None? && !taken then
      calls == [RevisionCreated(r)]
    else if err.None? then
      calls == [RevisionCreateFailed(r, AlreadyExists), RevisionGot(r.name, Got(result))]
    else
      || (calls == [RevisionCreateFailed(r, err.value)] && err != Some(AlreadyExists))
      || calls == [RevisionCreateFailed(r, AlreadyExists), RevisionGot(r.name, Missed(err.value))]
  }

  /** The calls of probes that all met other data: one pair for each collision count, in order. */
  predicate Collisions(nameOf: Namer, r: Revision, from: nat, to: nat, calls: seq<Event>)
    requires from <= to
  {
    && |calls| == 2 * (to - from)
    && forall i | 0 <= i < to - from ::
         && calls[2 * i] == RevisionCreateFailed(r.(name := nameOf(r.data, from + i)), AlreadyExists)
         && calls[2 * i + 1].RevisionGot? && calls[2 * i + 1].name == nameOf(r.data, from + i)
         && calls[2 * i + 1].answer.Got? && calls[2 * i + 1].answer.value.data != r.data
  }

  lemma OneMoreCollision(nameOf: Namer, r: Revision, from: nat, to: nat, calls: seq<Event>, result: Revision,
                         more: seq<Event>)
    requires from <= to && Collisions(nameOf, r, from, to, calls)
    requires ProbeCalls(r.(name := nameOf(r.data, to)), None, result, true, more) && result.data != r.data
    ensures Collisions(nameOf, r, from, to + 1, calls + more)
  {
  }

  lemma CreatesOne(c: Client, before: seq<Event>, after: seq<Event>, r: Revision, created: bool)
    requires before < after && NoiseOnly(c.Selector(), c.exclusive, after, |before|, |after| - 1)
    requires if created then after[|after| - 1] == RevisionCreated(r) else StoresNothing(after[|after| - 1])
    ensures CreatesAtMostOne(c, before, after, r, created)
  {
  }

  lemma CreatesMore(c: Client, before: seq<Event>, middle: seq<Event>, after: seq<Event>, r: Revision, r': Revision,
                    created: bool)
    requires CreatesAtMostOne(c, before, middle, r, false) && CreatesAtMostOne(c, middle, after, r', created)
    ensures CreatesAtMostOne(c, before, after, r', created)
    ensures !created ==> forall any :: CreatesAtMostOne(c, before, after, any, false)
  {
    forall k | |before| <= k < |after| - (if created then 1 else 0)
      ensures IsNoise(c.Selector(), c.exclusive, after[k]) || StoresNothing(after[k])
    {
      if k < |middle| {
        assert after[k] == middle[k];
      }
    }
  }

  /** One probe: creates the revision, or gets the one that has its name. */
  method CreateOrGet(c: Client, clone: Revision)
      returns (err: Option<Error>, result: Revision, taken: bool, ghost calls: seq<Event>)
    requires c.Valid()
    modifies c
    ensures c.Valid() && (c.exclusive ==> c.s.workload.status == old(c.s).workload.status)
    ensures c.calm ==> OnlyRevisionsDiffer(old(c.s), c.s)
    ensures c.reliable ==> err.None?
    ensures ProbeCalls(clone, err, result, taken, calls) && Did(old(c.log), c.log, calls)
    ensures CreatesAtMostOne(c, old(c.log), c.log, clone, err.None? && !taken)
    ensures err.None? ==> c.s.revisions.Keys >= {clone.name} && c.s.revisions[clone.name] == result
    ensures err.None? ==> result.name == clone.name
    ensures err.None? && !taken ==> result == clone.(rv := result.rv)
    ensures err.Some? || taken ==> c.KeepsNames(old(c.s), old(c.othersLeft))
    ensures c.exclusive && (err.Some? || taken) ==> c.s.revisions == old(c.s).revisions
    ensures c.exclusive && err.None? && !taken ==>
              clone.name !in old(c.s).revisions && c.s.revisions == old(c.s).revisions[clone.name := result]
  {
    hide Client.Valid, IsNoise, Replay, CallsOf, NamesKept, CreatesAtMostOne;
    taken := false;
    ghost var s0, left0 := c.s, c.othersLeft;
    err, result := c.CreateRevision(clone);
    calls := [c.Last()];
    CreatesOne(c, old(c.log), c.log, clone, err.None?);
    if err == Some(AlreadyExists) {
      ghost var middle, s1, left1 := c.log, c.s, c.othersLeft;
      var got := c.GetRevision(clone.name);
      NamesKeptMore(s0, left0, s1, left1, c.s, c.othersLeft);
      CreatesOne(c, middle, c.log, clone, false);
      CreatesMore(c, old(c.log), middle, c.log, clone, clone, false);
      DidMore(old(c.log), middle, c.log, calls, [c.Last()]);
      assert calls + [c.Last()] == [calls[0], c.Last()];
      calls := [calls[0], c.Last()];
      if got.Got? {
        return None, got.value, true, calls;
      }
      err := Some(got.error);
    }
  }

  lemma NothingCreated(c: Client, nameOf: Namer, r: Revision, from: nat, log: seq<Event>)
    ensures CreatesAtMostOne(c, log, log, r, false) && Collisions(nameOf, r, from, from, []) && Did(log, log, [])
  {
    DidNothing(log);
  }

  lemma DoesCollide(nameOf: Namer, store: map<Name, Revision>, data: Json, j: nat)
    ensures Collides(nameOf, store, data, j) <==> nameOf(data, j) in store && store[nameOf(data, j)].data != data
  {
  }

  /** All the names probed so far are stored. */
  ghost predicate AllTaken(nameOf: Namer, data: Json, from: nat, to: nat, names: set<Name>) {
    Names(nameOf, data, from, to) <= names
  }

  lemma NoneTaken(nameOf: Namer, data: Json, from: nat, names: set<Name>)
    ensures AllTaken(nameOf, data, from, from, names)
  {
  }

  /** However many names others add, there are as many stored as were probed. */
  lemma OneMoreTaken(nameOf: Namer, data: Json, from: nat, to: nat, names: set<Name>, more: set<Name>)
    requires Injective(nameOf) && from <= to && AllTaken(nameOf, data, from, to, names)
    requires names <= more && nameOf(data, to) in more
    ensures AllTaken(nameOf, data, from, to + 1, more) && to + 1 - from <= |more|
  {
    NamesDiffer(nameOf, data, from, to + 1);
    SubsetIsSmaller(Names(nameOf, data, from, to + 1), more);
  }

  /** In a store nobody else writes: all probed names but the last are taken by other data, and the last is free or
      taken by the data asked for; no stored revision changes. */
  ghost predicate CreatesInStore(nameOf: Namer, revision: Revision, from: nat, store: map<Name, Revision>,
                                 err: Option<Error>, result: Revision, to: nat, taken: bool,
                                 after: map<Name, Revision>)
  {
    && from <= to
    && (forall j | from <= j < to :: Collides(nameOf, store, revision.data, j))
    && (err.Some? ==> after == store)
    && (err.None? ==>
          && ProbesTo(nameOf, store, revision.data, from, to) && (taken <==> result.name in store)
          && result.name == nameOf(revision.data, to)
          && after == if taken then store else store[result.name := result])
  }

  lemma StoreAfterProbe(nameOf: Namer, revision: Revision, from: nat, store: map<Name, Revision>, err: Option<Error>,
                        result: Revision, to: nat, taken: bool, after: map<Name, Revision>)
    requires from <= to && forall j | from <= j < to :: Collides(nameOf, store, revision.data, j)
    requires err.None? ==> result.name == nameOf(revision.data, to)
    requires err.Some? || taken ==> after == store
    requires err.None? && taken ==> result.name in store && store[result.name] == result
    requires err.None? && !taken ==> result.name !in store && after == store[result.name := result]
    ensures !(err.None? && taken && result.data != revision.data) ==>
              CreatesInStore(nameOf, revision, from, store, err, result, to, taken, after)
  {
  }

  method CreateControllerRevision(c: Client, nameOf: Namer, revision: Revision, collisionCount: nat)
      returns (err: Option<Error>, result: Revision, newCount: nat, ghost taken: bool, ghost retried: seq<Event>,
               ghost last: seq<Event>)
    requires c.Valid() && Injective(nameOf)
    modifies c
    ensures c.Valid() && (c.exclusive ==> c.s.workload.status == old(c.s).workload.status)
    ensures c.calm ==> OnlyRevisionsDiffer(old(c.s), c.s)
    ensures collisionCount <= newCount <= collisionCount + |old(c.s).revisions.Keys| + old(c.othersLeft)
    ensures Collisions(nameOf, revision, collisionCount, newCount, retried)
    ensures ProbeCalls(revision.(name := nameOf(revision.data, newCount)), err, result, taken, last)
    ensures Did(old(c.log), c.log, retried + last)
    ensures c.reliable ==> err.None?
    ensures err.None? ==> result.name == nameOf(revision.data, newCount) && result.data == revision.data
    ensures err.None? ==> result.name in c.s.revisions && c.s.revisions[result.name] == result
    ensures err.None? && !taken ==> result == revision.(name := result.name, rv := result.rv)
    ensures c.exclusive ==> CreatesInStore(nameOf, revision, collisionCount, old(c.s).revisions, err, result, newCount, taken,
                                           c.s.revisions)
    ensures CreatesAtMostOne(c, old(c.log), c.log, revision.(name := nameOf(revision.data, newCount)), err.None? && !taken)
  {
    hide Client.Valid, IsNoise, Replay, Collides, Injective, CreatesAtMostOne, CallsOf, Collisions, ProbeCalls, AllTaken,
      CreatesInStore;
    newCount := collisionCount;
    var clone := revision;
    ghost var store, log0, left := c.s.revisions, c.log, c.othersLeft;
    retried := [];
    NothingCreated(c, nameOf, revision, collisionCount, log0);
    NoneTaken(nameOf, revision.data, collisionCount, store.Keys);
    while true
      invariant c.Valid() && (c.exclusive ==> c.s.revisions == store && c.s.workload.status == old(c.s).workload.status)
      invariant c.KeepsNames(old(c.s), left)
      invariant AllTaken(nameOf, revision.data, collisionCount, newCount, c.s.revisions.Keys)
      invariant collisionCount <= newCount <= collisionCount + |c.s.revisions.Keys|
      invariant Collisions(nameOf, revision, collisionCount, newCount, retried) && Did(log0, c.log, retried)
      invariant c.exclusive ==> forall j | collisionCount <= j < newCount :: Collides(nameOf, store, revision.data, j)
      invariant clone == revision.(name := clone.name)
      invariant CreatesAtMostOne(c, log0, c.log, revision, false)
      invariant c.calm ==> OnlyRevisionsDiffer(old(c.s), c.s)
      decreases |c.s.revisions.Keys| + c.othersLeft + collisionCount - newCount
    {
      clone := clone.(name := nameOf(revision.data, newCount));
      ghost var middle, names := c.log, c.s.revisions.Keys;
      var inUse;
      err, result, inUse, last := CreateOrGet(c, clone);
      taken := inUse;
      CreatesMore(c, log0, middle, c.log, revision, clone, err.None? && !taken);
      DidMore(log0, middle, c.log, retried, last);
      if c.exclusive {
        DoesCollide(nameOf, store, revision.data, newCount);
        StoreAfterProbe(nameOf, revision, collisionCount, store, err, result, newCount, taken, c.s.revisions);
      }
      if err.Some? || !inUse {
        return;
      }
      if result.data == clone.data {
        return;
      }
      OneMoreCollision(nameOf, revision, collisionCount, newCount, retried, result, last);
      OneMoreTaken(nameOf, revision.data, collisionCount, newCount, names, c.s.revisions.Keys);
      retried := retried + last;
      newCount := newCount + 1;
    }
  }

  // ---- Renumbering a revision

  /** What the server answered to one attempt: it took the update, or gave an error and, to the re-read, another answer. */
  datatype Response = Accepted | Refused(error: Error, reread: Answer<Revision>)

  predicate Conflicts(a: Response) {
    a.Refused? && a.error.Conflict?
  }

  /** The copy that a refused attempt leaves: read anew if that can be done. */
  function CopyAfter(clone: Revision, number: int, a: Response): Revision {
    if a.Refused? && a.reread.Got? then a.reread.value else clone.(number := number)
  }

  /** The outcome of a renumbering: the copy handed back, the error, and whether a write was accepted. */
  datatype Renumbering = Renumbering(clone: Revision, err: Option<Error>, landed: bool)

  /** The retry loop over the answers it gets. An attempt that finds its copy already numbered does nothing. */
  function Retried(clone: Revision, number: int, answers: seq<Response>, steps: nat): Renumbering
    decreases steps
  {
    if steps == 0 || (answers == [] && clone.number != number) then
      Renumbering(clone, Some(Conflict), false)
    else if clone.number == number then
      Renumbering(clone, None, false)
    else if answers[0].Accepted? then
      Renumbering(clone.(number := number), None, true)
    else if Conflicts(answers[0]) then
      Retried(CopyAfter(clone, number, answers[0]), number, answers[1..], steps - 1)
    else
      Renumbering(CopyAfter(clone, number, answers[0]), Some(answers[0].error), false)
  }

  lemma {:induction false} LandedIsSuccess(clone: Revision, number: int, answers: seq<Response>, steps: nat)
    ensures Retried(clone, number, answers, steps).landed ==> Retried(clone, number, answers, steps).err.None?
    decreases steps
  {
    if steps > 0 && answers != [] && clone.number != number && Conflicts(answers[0]) {
      LandedIsSuccess(CopyAfter(clone, number, answers[0]), number, answers[1..], steps - 1);
    }
  }

  /** The answers are all those the retry loop asks for, and no more. */
  predicate Complete(clone: Revision, number: int, answers: seq<Response>, steps: nat)
    decreases steps
  {
    if steps == 0 || clone.number == number then answers == []
    else if answers == [] then false
    else if !Conflicts(answers[0]) then |answers| == 1
    else Complete(CopyAfter(clone, number, answers[0]), number, answers[1..], steps - 1)
  }

  /** The calls of one attempt: an update that was accepted, or one that was refused and a re-read. */
  function AttemptCalls(renumbered: Revision, a: Response): seq<Event> {
    match a
    case Accepted => [RevisionUpdated(renumbered)]
    case Refused(error, reread) => [RevisionUpdateFailed(renumbered, error), RevisionGot(renumbered.name, reread)]
  }

  /** The calls of the retry loop over the answers it gets, each made with the copy the one before left. */
  function RetryCalls(clone: Revision, number: int, answers: seq<Response>, steps: nat): seq<Event>
    decreases steps
  {
    if steps == 0 || answers == [] || clone.number == number then []
    else
      AttemptCalls(clone.(number := number), answers[0])
      + if Conflicts(answers[0]) then RetryCalls(CopyAfter(clone, number, answers[0]), number, answers[1..], steps - 1)
        else []
  }

  /** However often it is tried again, a renumbering lands one write at most, as its last call; all others are refused
      or only read. */
  lemma {:induction false} RetryLandsOnce(clone: Revision, number: int, answers: seq<Response>, steps: nat)
    ensures var calls := RetryCalls(clone, number, answers, steps);
            && |calls| <= 2 * steps
            && (forall i | 0 <= i < |calls| - 1 :: StoresNothing(calls[i]))
            && (calls != [] ==> StoresNothing(calls[|calls| - 1]) || calls[|calls| - 1].RevisionUpdated?)
            && (Retried(clone, number, answers, steps).landed <==> calls != [] && calls[|calls| - 1].RevisionUpdated?)
    decreases steps
  {
    if steps > 0 && answers != [] && clone.number != number && Conflicts(answers[0]) {
      RetryLandsOnce(CopyAfter(clone, number, answers[0]), number, answers[1..], steps - 1);
    }
  }

  /** The server's answers to the updates among some calls. */
  function AnswersIn(calls: seq<Event>): seq<Response> {
    if calls == [] then []
    else
      var n := |calls| - 1;
      match calls[n]
      case RevisionUpdated(_) => AnswersIn(calls[..n]) + [Accepted]
      case RevisionGot(_, reread) =>
        if n > 0 && calls[n - 1].RevisionUpdateFailed? then
          AnswersIn(calls[..n - 1]) + [Refused(calls[n - 1].error, reread)]
        else
          AnswersIn(calls[..n])
      case _ => AnswersIn(calls[..n])
  }

  lemma AnswersMore(calls: seq<Event>, renumbered: Revision, a: Response)
    ensures AnswersIn(calls + AttemptCalls(renumbered, a)) == AnswersIn(calls) + [a]
  {
    var all := calls + AttemptCalls(renumbered, a);
    if a.Accepted? {
      assert all[..|all| - 1] == calls;
    } else {
      assert all[..|all| - 2] == calls;
    }
  }

  /** A creation asks for no update. */
  lemma {:induction false} NoAnswers(calls: seq<Event>)
    requires forall e <- calls :: e.RevisionCreated? || e.RevisionCreateFailed? || e.RevisionGot?
    ensures AnswersIn(calls) == []
  {
    if calls != [] {
      var n := |calls| - 1;
      assert calls[n] in calls && (n > 0 ==> calls[n - 1] in calls);
      NoAnswers(calls[..n]);
    }
  }

  /** All the calls of a renumbering that ends with an error or without: those of the retry loop over all the answers it
      asked for. */
  predicate RenumberingCalls(revision: Revision, number: int, steps: nat, err: Option<Error>, calls: seq<Event>) {
    var answers := AnswersIn(calls);
    && Complete(revision, number, answers, steps) && calls == RetryCalls(revision, number, answers, steps)
    && Retried(revision, number, answers, steps).err == err
  }

  /** It is tried again after every conflict and after nothing else: a conflict is reported only when all attempts met
      one, and any other error is the answer to the last attempt. */
  lemma {:induction false} EndsAsAnswered(clone: Revision, number: int, answers: seq<Response>, steps: nat)
    requires Complete(clone, number, answers, steps)
    ensures var err, n := Retried(clone, number, answers, steps).err, |answers|;
            && (forall i | 0 <= i < n - 1 :: Conflicts(answers[i]))
            && (err == Some(Conflict) ==> n == steps && forall i | 0 <= i < n :: Conflicts(answers[i]))
            && (err.Some? && err != Some(Conflict) ==> n > 0 && answers[n - 1].Refused? && Some(answers[n - 1].error) == err)
            && (err.Some? ==> |RetryCalls(clone, number, answers, steps)| == 2 * n)
    decreases steps
  {
    if steps > 0 && clone.number != number && Conflicts(answers[0]) {
      EndsAsAnswered(CopyAfter(clone, number, answers[0]), number, answers[1..], steps - 1);
    }
  }

  /** An attempt conflicts, its re-read fails, and yet another attempt follows. */
  predicate LosesReread(answers: seq<Response>, steps: nat)
    decreases steps
  {
    && steps > 1 && answers != [] && Conflicts(answers[0])
    && (answers[0].reread.Missed? || LosesReread(answers[1..], steps - 1))
  }

  /** A re-read found the number stored. */
  predicate Shows(a: Response, number: int) {
    a.Refused? && a.reread.Got? && a.reread.value.number == number
  }

  /** The renumbering reports success without a write exactly when a conflict is retried although its re-read
      failed, as long as nobody else stores the wanted number. */
  lemma {:induction false} SilentlyLostIff(clone: Revision, number: int, answers: seq<Response>, steps: nat)
    requires steps > 0 && clone.number != number
    requires forall a <- answers :: !Shows(a, number)
    ensures Retried(clone, number, answers, steps).err.None? && !Retried(clone, number, answers, steps).landed
            <==> LosesReread(answers, steps)
    decreases steps
  {
    if answers != [] && Conflicts(answers[0]) && answers[0].reread.Got? && steps > 1 {
      assert answers[0] in answers && forall a <- answers[1..] :: a in answers;
      SilentlyLostIff(answers[0].reread.value, number, answers[1..], steps - 1);
    }
  }

  /** Whoever else writes, a renumbering that reports success and re-read after every conflict it retried was
      either written, or found the wanted number stored by somebody else. */
  lemma {:induction false} WrittenOrFound(clone: Revision, number: int, answers: seq<Response>, steps: nat)
    requires steps > 0 && clone.number != number
    requires Retried(clone, number, answers, steps).err.None? && !LosesReread(answers, steps)
    ensures || Retried(clone, number, answers, steps).landed
            || exists a <- answers :: Shows(a, number)
    decreases steps
  {
    var a := answers[0];
    assert a in answers;
    if Conflicts(a) && a.reread.Got? && a.reread.value.number != number {
      WrittenOrFound(a.reread.value, number, answers[1..], steps - 1);
      assert forall b <- answers[1..] :: b in answers;
    }
  }

  /** One conflict and one failed re-read: success is reported for a number that was never written. */
  lemma SilentlyLost(r: Revision)
    ensures var r1 := r.(number := 1);
            Retried(r1, 2, [Refused(Conflict, Missed(Unavailable))], 4) == Renumbering(r1.(number := 2), None, false)
  {
    var r1 := r.(number := 1);
    assert Retried(r1.(number := 2), 2, [], 3) == Renumbering(r1.(number := 2), None, false);
  }

  /** The retry loop has come this far: what it will report depends on the answers still to come. */
  ghost predicate Continues(revision: Revision, number: int, answers: seq<Response>, steps: nat, calls: seq<Event>,
                            clone: Revision, left: nat)
  {
    forall more ::
      && Retried(revision, number, answers + more, steps) == Retried(clone, number, more, left)
      && Complete(revision, number, answers + more, steps) == Complete(clone, number, more, left)
      && RetryCalls(revision, number, answers + more, steps) == calls + RetryCalls(clone, number, more, left)
  }

  lemma ContinuesFromStart(revision: Revision, number: int, steps: nat)
    ensures Continues(revision, number, [], steps, [], revision, steps)
  {
    hide Retried, Complete, RetryCalls;
    forall more: seq<Response>
      ensures [] + more == more
    {
    }
    forall calls: seq<Event>
      ensures [] + calls == calls
    {
    }
  }

  lemma ContinuesAfter(revision: Revision, number: int, answers: seq<Response>, steps: nat, calls: seq<Event>,
                       clone: Revision, left: nat, a: Response)
    requires Continues(revision, number, answers, steps, calls, clone, left)
    requires left > 0 && clone.number != number && Conflicts(a)
    ensures Continues(revision, number, answers + [a], steps, calls + AttemptCalls(clone.(number := number), a),
                      CopyAfter(clone, number, a), left - 1)
  {
    hide CopyAfter, AttemptCalls;
    var next := CopyAfter(clone, number, a);
    var one := AttemptCalls(clone.(number := number), a);
    forall more: seq<Response>
      ensures Retried(revision, number, answers + [a] + more, steps) == Retried(next, number, more, left - 1)
      ensures Complete(revision, number, answers + [a] + more, steps) == Complete(next, number, more, left - 1)
      ensures RetryCalls(revision, number, answers + [a] + more, steps)
              == calls + one + RetryCalls(next, number, more, left - 1)
    {
      assert answers + [a] + more == answers + ([a] + more);
      assert ([a] + more)[1..] == more;
      assert calls + one + RetryCalls(next, number, more, left - 1)
             == calls + (one + RetryCalls(next, number, more, left - 1));
    }
  }

  lemma ContinuesToEnd(revision: Revision, number: int, answers: seq<Response>, steps: nat, calls: seq<Event>,
                       clone: Revision, left: nat)
    requires Continues(revision, number, answers, steps, calls, clone, left)
    requires left == 0 || clone.number == number
    ensures Retried(revision, number, answers, steps)
            == Renumbering(clone, if left == 0 then Some(Conflict) else None, false)
    ensures Complete(revision, number, answers, steps) && calls == RetryCalls(revision, number, answers, steps)
  {
    assert answers + [] == answers && calls + [] == calls;
  }

  lemma ContinuesOnce(revision: Revision, number: int, answers: seq<Response>, steps: nat, calls: seq<Event>,
                      clone: Revision, left: nat, a: Response)
    requires Continues(revision, number, answers, steps, calls, clone, left)
    requires left > 0 && clone.number != number && !Conflicts(a)
    ensures Retried(revision, number, answers + [a], steps)
            == if a.Accepted? then Renumbering(clone.(number := number), None, true)
               else Renumbering(CopyAfter(clone, number, a), Some(a.error), false)
    ensures Complete(revision, number, answers + [a], steps)
    ensures calls + AttemptCalls(clone.(number := number), a) == RetryCalls(revision, number, answers + [a], steps)
  {
    var one := AttemptCalls(clone.(number := number), a);
    assert one + [] == one;
  }

  /** The copy is of some version of the stored revision, but for its number. */
  ghost predicate CopyOf(clone: Revision, base: Revision, s: State) {
    && clone == base.(number := clone.number)
    && base.rv <= s.version
    && (base.name in s.revisions && s.revisions[base.name].rv == base.rv ==> s.revisions[base.name] == base)
  }

  lemma CopyAges(clone: Revision, base: Revision, before: State, after: State)
    requires CopyOf(clone, base, before) && Aged(before, after)
    ensures CopyOf(clone, base, after)
  {
  }

  /** A write renumbered a revision and changed nothing else of its latest version. */
  ghost predicate Renumbered(before: State, after: State, name: Name, number: int) {
    && name in before.revisions && name in after.revisions
    && after.revisions[name] == before.revisions[name].(number := number, rv := after.revisions[name].rv)
    && after.revisions == before.revisions[name := after.revisions[name]]
  }

  /** The event that stores a revision, which gets its resource version only then. */
  predicate Updates(e: Event, stored: Revision) {
    e.RevisionUpdated? && e.revision == stored.(rv := e.revision.rv)
  }

  /** Refusals and what others do, and at most one update at the end. */
  ghost predicate UpdatesAtMostOnce(c: Client, before: seq<Event>, after: seq<Event>, landed: bool) {
    && before <= after
    && (landed ==> before < after)
    && (forall k | |before| <= k < |after| - (if landed then 1 else 0) ::
          IsNoise(c.Selector(), c.exclusive, after[k]) || StoresNothing(after[k]))
    && (c.calm && c.reliable ==> |after| <= |before| + 1)
  }

  /** What one attempt hands to the next: the update's error, and a copy that is read anew if that can be done. */
  predicate Answers(clone: Revision, number: int, a: Response, err: Option<Error>, next: Revision) {
    if err.None? then a.Accepted? && next == clone.(number := number, rv := next.rv)
    else a.Refused? && err == Some(a.error) && next == CopyAfter(clone, number, a)
  }

  /** In the store nobody else writes, the copy is of what is stored. */
  ghost predicate Current(c: Client, clone: Revision, base: Revision, s: State)
  {
    && CopyOf(clone, base, s)
    && (c.exclusive ==> base.name in s.revisions && s.revisions[base.name] == base)
  }

  /** The state that the last event of a log found. */
  function FoundBy(start: State, log: seq<Event>): State
    requires log != []
  {
    Replay(start, log[..|log| - 1])
  }

  /** The last event of a log renumbered the revision as it found it, whoever had written it, and changed nothing else. */
  ghost predicate Lands(c: Client, name: Name, number: int, stored: Revision, s: State, log: seq<Event>) {
    && log != [] && Updates(log[|log| - 1], stored)
    && Renumbered(FoundBy(c.start, log), s, name, number) && stored == s.revisions[name]
  }

  /** What one attempt did. */
  ghost predicate Attempted(c: Client, s0: State, s1: State, log1: seq<Event>, clone: Revision, base: Revision,
                            number: int, err: Option<Error>, next: Revision, a: Response, newBase: Revision)
  {
    && Answers(clone, number, a, err, next)
    && (if err.None? then Lands(c, base.name, number, next, s1, log1)
        else Current(c, next, newBase, s1) && newBase.name == base.name)
    && (c.exclusive ==>
          && s1.workload.status == s0.workload.status
          && (err.Some? ==> s1.revisions == s0.revisions)
          && (err.None? ==> log1 != [] && FoundBy(c.start, log1).revisions == s0.revisions)
          && (a.Refused? && a.reread.Got? ==> a.reread.value == base))
    && (c.exclusive && c.reliable ==> err.None?)
  }

  /** One attempt of the retry loop, on a copy that does not have the number yet. */
  method Attempt(c: Client, clone: Revision, newRevision: int, ghost base: Revision)
      returns (err: Option<Error>, next: Revision, ghost a: Response, ghost newBase: Revision)
    requires c.Valid() && Current(c, clone, base, c.s)
    modifies c
    ensures c.Valid() && UpdatesAtMostOnce(c, old(c.log), c.log, err.None?)
    ensures c.calm ==> OnlyRevisionsDiffer(old(c.s), c.s)
    ensures Did(old(c.log), c.log, AttemptCalls(clone.(number := newRevision), a))
    ensures Attempted(c, old(c.s), c.s, c.log, clone, base, newRevision, err, next, a, newBase)
  {
    hide CallsOf, Replay, Aged, IsNoise, WellKeyed;
    var renumbered := clone.(number := newRevision);
    ghost var s0 := c.s;
    var stored;
    err, stored := c.UpdateRevision(renumbered);
    ghost var before := c.Before();
    CopyAges(clone, base, s0, before);
    if err.None? {
      return None, stored, Accepted, base;
    }
    ghost var s1, log1, call := c.s, c.log, c.Last();
    var got := c.GetRevision(clone.name);
    DidMore(old(c.log), log1, c.log, [call], [c.Last()]);
    assert [call] + [c.Last()] == [call, c.Last()];
    CopyAges(clone, base, s1, c.s);
    next := if got.Got? then got.value else renumbered;
    newBase := if got.Got? then got.value else base;
    a := Refused(err.value, got);
  }

  lemma UpdatesMore(c: Client, before: seq<Event>, middle: seq<Event>, after: seq<Event>, landed: bool)
    requires UpdatesAtMostOnce(c, before, middle, false)
    requires UpdatesAtMostOnce(c, middle, after, landed)
    requires c.calm && c.reliable ==> middle == before
    ensures UpdatesAtMostOnce(c, before, after, landed)
  {
    forall k | |before| <= k < |after| - (if landed then 1 else 0)
      ensures IsNoise(c.Selector(), c.exclusive, after[k]) || StoresNothing(after[k])
    {
      if k < |middle| {
        assert after[k] == middle[k];
      }
    }
  }

  /** Every re-read that succeeded found the revision as it was at first. */
  predicate RereadAs(answers: seq<Response>, revision: Revision) {
    forall a <- answers :: a.Refused? && a.reread.Got? ==> a.reread.value == revision
  }

  /** A renumbering under way: where it started, the calls made and answers got, where it stands, and the attempts it
      has left. */
  datatype Trail = Trail(revision: Revision, number: int, steps: nat, s0: State, log0: seq<Event>, calls: seq<Event>,
                         answers: seq<Response>, clone: Revision, base: Revision, left: nat)

  ghost predicate OnTrail(c: Client, t: Trail, s: State, log: seq<Event>) {
    && t.left <= t.steps
    && UpdatesAtMostOnce(c, t.log0, log, false)
    && Did(t.log0, log, t.calls) && AnswersIn(t.calls) == t.answers
    && Continues(t.revision, t.number, t.answers, t.steps, t.calls, t.clone, t.left)
    && Current(c, t.clone, t.base, s) && t.base.name == t.revision.name
    && (c.exclusive ==> s.revisions == t.s0.revisions && s.workload.status == t.s0.workload.status)
    && (c.exclusive ==> t.base == t.revision && RereadAs(t.answers, t.revision))
    && (c.exclusive && c.reliable ==> t.left == t.steps)
    && (t.left == t.steps ==> t.clone == t.revision && log == t.log0)
  }

  /** How a renumbering ended. The result is what the retry loop makes of the answers it got, all of them, but for the
      resource version; an accepted write renumbered the latest version and was the last event; and in a store of one
      writer nothing else changed. */
  ghost predicate Renumbers(c: Client, revision: Revision, number: int, steps: nat, s0: State, log0: seq<Event>,
                            s: State, log: seq<Event>, calls: seq<Event>, clone: Revision, err: Option<Error>,
                            landed: bool)
  {
    var answers := AnswersIn(calls);
    && UpdatesAtMostOnce(c, log0, log, landed) && Did(log0, log, calls)
    && RenumberingCalls(revision, number, steps, err, calls)
    && Retried(revision, number, answers, steps).(clone := clone) == Renumbering(clone, err, landed)
    && clone == Retried(revision, number, answers, steps).clone.(rv := clone.rv)
    && (landed ==> err.None? && Lands(c, revision.name, number, clone, s, log))
    && (c.exclusive ==>
          && s.workload.status == s0.workload.status
          && (if landed then FoundBy(c.start, log).revisions == s0.revisions else s.revisions == s0.revisions)
          && clone == revision.(number := clone.number, rv := clone.rv)
          && RereadAs(answers, revision))
    && (err.None? ==> clone.number == number)
    && (c.exclusive && c.reliable && revision.number != number ==> landed && err.None?)
  }

  lemma TrailStarts(c: Client, revision: Revision, number: int, steps: nat, s: State, log: seq<Event>)
    requires Current(c, revision, revision, s)
    ensures OnTrail(c, Trail(revision, number, steps, s, log, [], [], revision, revision, steps), s, log)
  {
    ContinuesFromStart(revision, number, steps);
    DidNothing(log);
  }

  lemma TrailEnds(c: Client, t: Trail, s: State, log: seq<Event>)
    requires OnTrail(c, t, s, log) && t.steps > 0 && (t.left == 0 || t.clone.number == t.number)
    ensures Renumbers(c, t.revision, t.number, t.steps, t.s0, t.log0, s, log, t.calls, t.clone,
                      if t.left == 0 then Some(Conflict) else None, false)
  {
    hide Continues, Retried, Complete, RetryCalls, Did, UpdatesAtMostOnce;
    ContinuesToEnd(t.revision, t.number, t.answers, t.steps, t.calls, t.clone, t.left);
  }

  /** The trail one attempt further. */
  function TrailAfter(t: Trail, next: Revision, a: Response, newBase: Revision): Trail {
    t.(calls := t.calls + AttemptCalls(t.clone.(number := t.number), a), answers := t.answers + [a], clone := next,
       base := newBase, left := if t.left == 0 then 0 else t.left - 1)
  }

  lemma TrailGoesOn(c: Client, t: Trail, s: State, log: seq<Event>, s1: State, log1: seq<Event>,
                    err: Option<Error>, next: Revision, a: Response, newBase: Revision)
    requires c.calm ==> c.exclusive
    requires OnTrail(c, t, s, log) && t.left > 0 && t.clone.number != t.number
    requires UpdatesAtMostOnce(c, log, log1, err.None?)
    requires Did(log, log1, AttemptCalls(t.clone.(number := t.number), a))
    requires Attempted(c, s, s1, log1, t.clone, t.base, t.number, err, next, a, newBase)
    ensures err == Some(Conflict) ==>
              OnTrail(c, TrailAfter(t, next, a, newBase), s1, log1)
    ensures err != Some(Conflict) ==>
              Renumbers(c, t.revision, t.number, t.steps, t.s0, t.log0, s1, log1, TrailAfter(t, next, a, newBase).calls,
                        next, err, err.None?)
  {
    hide Continues, Retried, Complete, RetryCalls, Did, AttemptCalls, Replay, AnswersIn;
    var calls := AttemptCalls(t.clone.(number := t.number), a);
    UpdatesMore(c, t.log0, log, log1, err.None?);
    DidMore(t.log0, log, log1, t.calls, calls);
    AnswersMore(t.calls, t.clone.(number := t.number), a);
    if err == Some(Conflict) {
      ContinuesAfter(t.revision, t.number, t.answers, t.steps, t.calls, t.clone, t.left, a);
    } else {
      ContinuesOnce(t.revision, t.number, t.answers, t.steps, t.calls, t.clone, t.left, a);
    }
  }

  lemma TrailIsCurrent(c: Client, t: Trail, s: State, log: seq<Event>)
    requires OnTrail(c, t, s, log)
    ensures Current(c, t.clone, t.base, s)
  {
  }

  /** Renumbers a revision, trying again on conflicts with what re-reading gives. */
  method UpdateControllerRevision(c: Client, revision: Revision, newRevision: int, steps: nat)
      returns (err: Option<Error>, clone: Revision, ghost calls: seq<Event>, ghost landed: bool)
    requires c.Valid() && steps > 0
    requires Current(c, revision, revision, c.s)
    modifies c
    ensures c.Valid()
    ensures c.calm ==> OnlyRevisionsDiffer(old(c.s), c.s)
    ensures Renumbers(c, revision, newRevision, steps, old(c.s), old(c.log), c.s, c.log, calls, clone, err, landed)
  {
    hide OnTrail, Renumbers, Attempted, Current, UpdatesAtMostOnce, Did, AttemptCalls;
    clone := revision;
    TrailStarts(c, revision, newRevision, steps, c.s, c.log);
    ghost var t := Trail(revision, newRevision, steps, c.s, c.log, [], [], revision, revision, steps);
    var attempts := 0;
    while attempts < steps
      invariant c.Valid() && 0 <= attempts <= steps && t.left == steps - attempts && t.clone == clone
      invariant t == Trail(revision, newRevision, steps, old(c.s), old(c.log), t.calls, t.answers, t.clone, t.base, t.left)
      invariant c.calm ==> OnlyRevisionsDiffer(old(c.s), c.s)
      invariant OnTrail(c, t, c.s, c.log)
      decreases steps - attempts
    {
      if clone.number == newRevision {
        TrailEnds(c, t, c.s, c.log);
        return None, clone, t.calls, false;
      }
      ghost var s1, log1 := c.s, c.log;
      ghost var a, base;
      TrailIsCurrent(c, t, c.s, c.log);
      err, clone, a, base := Attempt(c, clone, newRevision, t.base);
      TrailGoesOn(c, t, s1, log1, c.s, c.log, err, clone, a, base);
      t := TrailAfter(t, clone, a, base);
      if err != Some(Conflict) {
        return err, clone, t.calls, err.None?;
      }
      attempts := attempts + 1;
    }
    TrailEnds(c, t, c.s, c.log);
    return Some(Conflict), clone, t.calls, false;
  }

  /** In a store of one writer, a renumbering that reports success was written exactly when no conflict was
      retried after a failed re-read. */
  lemma WrittenIff(c: Client, revision: Revision, number: int, steps: nat, s0: State, log0: seq<Event>, s: State,
                   log: seq<Event>, calls: seq<Event>, clone: Revision, err: Option<Error>, landed: bool)
    requires Renumbers(c, revision, number, steps, s0, log0, s, log, calls, clone, err, landed)
    requires c.exclusive && steps > 0 && revision.number != number && err.None?
    requires revision.name in s0.revisions && s0.revisions[revision.name] == revision
    ensures s.revisions[revision.name].number == number <==> !LosesReread(AnswersIn(calls), steps)
  {
    hide UpdatesAtMostOnce, Retried, RetryCalls, Did, Complete, AnswersIn;
    SilentlyLostIff(revision, number, AnswersIn(calls), steps);
  }

  /** No concurrent write is lost: whoever else writes, a renumbering that reports success and re-read after every
      conflict it retried changed, of the store as its last call found it, nothing but the number of the revision; or
      it found the number stored by somebody else. */
  lemma NoWriteLost(c: Client, revision: Revision, number: int, steps: nat, s0: State, log0: seq<Event>, s: State,
                    log: seq<Event>, calls: seq<Event>, clone: Revision, err: Option<Error>, landed: bool)
    requires Renumbers(c, revision, number, steps, s0, log0, s, log, calls, clone, err, landed)
    requires steps > 0 && revision.number != number && err.None? && !LosesReread(AnswersIn(calls), steps)
    ensures || (log != [] && Renumbered(FoundBy(c.start, log), s, revision.name, number)
                && clone == s.revisions[revision.name])
            || exists a <- AnswersIn(calls) :: Shows(a, number)
  {
    hide UpdatesAtMostOnce, Retried, RetryCalls, LosesReread, Did, Complete, AnswersIn, Replay;
    WrittenOrFound(revision, number, AnswersIn(calls), steps);
  }
}
