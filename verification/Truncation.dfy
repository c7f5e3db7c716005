/** Which revisions the history limit lets go, as seen from a list made before the update revision was stored. */
module Truncation {
  import opened Objects
  import opened Cluster
  import opened Protocol
  import opened Activation
  import opened History

  const DEFAULT_HISTORY_LIMIT := 10

  /** The listed revisions that are not in use, in their order. */
  function NonLive(revisions: seq<Revision>, pods: seq<Pod>, current: Name, update: Name): (r: seq<Revision>)
    ensures forall x :: x in r <==> x in revisions && !IsLive(pods, current, update, x.name)
  {
    if revisions == [] then []
    else
      var n := |revisions| - 1;
      NonLive(revisions[..n], pods, current, update)
      + if IsLive(pods, current, update, revisions[n].name) then [] else [revisions[n]]
  }

  /** Those in excess of the limit, from the front. */
  function Surplus(revisions: seq<Revision>, pods: seq<Pod>, current: Name, update: Name): seq<Revision> {
    var all := NonLive(revisions, pods, current, update);
    if |all| <= DEFAULT_HISTORY_LIMIT then [] else all[..|all| - DEFAULT_HISTORY_LIMIT]
  }

  function NamesOf(revisions: seq<Revision>): set<Name> {
    set r | r in revisions :: r.name
  }

  /** The stored names that are not in use. */
  function NonLiveNames(store: map<Name, Revision>, pods: seq<Pod>, current: Name, update: Name): set<Name> {
    set n | n in store && !IsLive(pods, current, update, n)
  }

  predicate Rising(revisions: seq<Revision>) {
    && (forall i, j | 0 <= i < j < |revisions| :: revisions[i].name != revisions[j].name)
    && forall i, j | 0 <= i < j < |revisions| :: revisions[i].number < revisions[j].number
  }

  lemma RisingMore(revisions: seq<Revision>, r: Revision)
    requires Rising(revisions) && forall x <- revisions :: x.name != r.name && x.number < r.number
    ensures Rising(revisions + [r])
  {
  }

  lemma RisingFront(revisions: seq<Revision>, n: nat)
    requires Rising(revisions) && n < |revisions|
    ensures Rising(revisions[..n])
    ensures forall x <- revisions[..n] :: x.name != revisions[n].name && x.number < revisions[n].number
  {
  }

  lemma NoneRises()
    ensures Rising([])
  {
  }

  lemma {:induction false} NonLiveRises(revisions: seq<Revision>, pods: seq<Pod>, current: Name, update: Name)
    requires Rising(revisions)
    ensures Rising(NonLive(revisions, pods, current, update))
  {
    hide Rising, IsLive;
    if revisions == [] {
      NoneRises();
    } else {
      var n := |revisions| - 1;
      RisingFront(revisions, n);
      NonLiveRises(revisions[..n], pods, current, update);
      var front := NonLive(revisions[..n], pods, current, update);
      assert front + [] == front;
      RisingMore(front, revisions[n]);
    }
  }

  lemma {:induction false} CountNames(revisions: seq<Revision>)
    requires Rising(revisions)
    ensures |NamesOf(revisions)| == |revisions|
  {
    if revisions == [] {
      assert NamesOf(revisions) == {};
    } else {
      var n := |revisions| - 1;
      CountNames(revisions[..n]);
      assert revisions == revisions[..n] + [revisions[n]];
      assert NamesOf(revisions) == NamesOf(revisions[..n]) + {revisions[n].name};
      assert revisions[n].name !in NamesOf(revisions[..n]);
    }
  }

  function LabelsOf(pods: seq<Pod>): set<Name> {
    set p | p in pods :: RevisionOf(p)
  }

  lemma {:induction false} CountLabels(pods: seq<Pod>)
    ensures |LabelsOf(pods)| <= |pods|
  {
    if pods == [] {
      assert LabelsOf(pods) == {};
    } else {
      var n := |pods| - 1;
      CountLabels(pods[..n]);
      assert pods == pods[..n] + [pods[n]];
      assert LabelsOf(pods) == LabelsOf(pods[..n]) + {RevisionOf(pods[n])};
    }
  }

  /** The stale list shows exactly the stored revisions that are not in use, with the numbers they have. */
  lemma StaleListSuffices(w: Workload, before: map<Name, Revision>, revisions: seq<Revision>, after: map<Name, Revision>,
                          update: Revision, lost: bool, pods: seq<Pod>, current: Name)
    requires ListsSorted(revisions, before) && Activated(w, before, after, update, lost)
    ensures NamesOf(NonLive(revisions, pods, current, update.name)) == NonLiveNames(after, pods, current, update.name)
    ensures forall r <- NonLive(revisions, pods, current, update.name) :: r.name in after && after[r.name] == r
    ensures Rising(NonLive(revisions, pods, current, update.name))
  {
    hide IsTop;
    NonLiveRises(revisions, pods, current, update.name);
    forall n | n in NonLiveNames(after, pods, current, update.name)
      ensures n in NamesOf(NonLive(revisions, pods, current, update.name))
    {
      assert before[n] in revisions;
    }
  }

  lemma RisingPart(all: seq<Revision>, lo: nat, hi: nat)
    requires lo <= hi <= |all| && Rising(all)
    ensures |NamesOf(all[lo..hi])| == hi - lo
  {
    CountNames(all[lo..hi]);
  }

  lemma FrontIsLower(all: seq<Revision>, k: nat, v: Revision, r: Revision)
    requires k <= |all| && Rising(all) && v in all[..k] && r in all[k..]
    ensures v.number < r.number && v.name != r.name
  {
    var i :| 0 <= i < k && all[..k][i] == v;
    var j :| 0 <= j < |all| - k && all[k..][j] == r;
    assert all[i] == v && all[k + j] == r;
  }

  lemma Split(all: seq<Revision>, k: nat)
    requires k <= |all| && Rising(all)
    ensures NamesOf(all[..k]) + NamesOf(all[k..]) == NamesOf(all) && NamesOf(all[..k]) !! NamesOf(all[k..])
  {
    assert all == all[..k] + all[k..];
    assert forall r :: r in all <==> r in all[..k] || r in all[k..];
    forall v, r | v in all[..k] && r in all[k..]
      ensures v.name != r.name
    {
      FrontIsLower(all, k, v, r);
    }
  }

  /** What is left of the unused revisions after the first k of them are deleted. */
  lemma Left(store: map<Name, Revision>, all: seq<Revision>, k: nat, pods: seq<Pod>, current: Name, update: Name)
    requires k <= |all| && Rising(all) && NamesOf(all) == NonLiveNames(store, pods, current, update)
    requires forall r <- all :: r.name in store && store[r.name] == r
    ensures NonLiveNames(store - NamesOf(all[..k]), pods, current, update) == NamesOf(all[k..])
    ensures forall v, n | v in NamesOf(all[..k]) && n in NamesOf(all[k..]) ::
              v in store && n in store && store[v].number < store[n].number
  {
    hide IsLive, Rising;
    Split(all, k);
    forall v, n | v in NamesOf(all[..k]) && n in NamesOf(all[k..])
      ensures v in store && n in store && store[v].number < store[n].number
    {
      var a :| a in all[..k] && a.name == v;
      var b :| b in all[k..] && b.name == n;
      FrontIsLower(all, k, a, b);
      assert a in all && b in all;
    }
  }

  /** A store holds its unused revisions and at most those in use. */
  lemma LiveOrLeft(store: map<Name, Revision>, pods: seq<Pod>, current: Name, update: Name)
    ensures |store| <= |NonLiveNames(store, pods, current, update)| + 2 + |pods|
  {
    var left, labels, two := NonLiveNames(store, pods, current, update), LabelsOf(pods), {current, update};
    CountLabels(pods);
    assert store.Keys <= left + labels + two;
    SubsetIsSmaller(store.Keys, left + labels + two);
    assert |two| <= 2;
    assert |left + labels| <= |left| + |labels|;
  }

  /** A truncation that succeeds leaves ten revisions that are not in use, or fewer if there were fewer; those it
      deleted have lower numbers than all of those; and it deleted none in use. */
  lemma TruncationExact(w: Workload, before: map<Name, Revision>, revisions: seq<Revision>, after: map<Name, Revision>,
                        update: Revision, lost: bool, pods: seq<Pod>, current: Name)
    requires ListsSorted(revisions, before) && Activated(w, before, after, update, lost)
    ensures var gone := NamesOf(Surplus(revisions, pods, current, update.name));
            var end := after - gone;
            && gone <= NonLiveNames(after, pods, current, update.name)
            && |NonLiveNames(end, pods, current, update.name)|
               == Min(10, |NonLiveNames(after, pods, current, update.name)|)
            && (forall v, n | v in gone && n in NonLiveNames(end, pods, current, update.name) ::
                  after[v].number < after[n].number)
            && |end| <= 10 + 2 + |pods|
  {
    hide ListsSorted, Activated, IsLive, Rising, NamesOf, NonLiveNames;
    var all := NonLive(revisions, pods, current, update.name);
    StaleListSuffices(w, before, revisions, after, update, lost, pods, current);
    var k := Max(0, |all| - DEFAULT_HISTORY_LIMIT);
    assert Surplus(revisions, pods, current, update.name) == all[..k];
    Split(all, k);
    Left(after, all, k, pods, current, update.name);
    CountNames(all);
    RisingPart(all, k, |all|);
    assert all[k..|all|] == all[k..];
    assert NamesOf(all[..k]) <= NamesOf(all);
    LiveOrLeft(after - NamesOf(all[..k]), pods, current, update.name);
  }

  /** The calls of a truncation that deletes the first so many of the surplus, and is refused the next if it stops. */
  predicate TruncatingCalls(surplus: seq<Revision>, done: nat, calls: seq<Event>) {
    && done <= |surplus|
    && |calls| == Min(done + 1, |surplus|)
    && (forall i | 0 <= i < done :: calls[i] == RevisionDeleted(surplus[i].name))
    && (done < |surplus| ==> calls[done].RevisionDeleteFailed? && calls[done].name == surplus[done].name)
  }
}
