/** The objects the controller reads and writes, as the API server stores them. */
module Objects {

  datatype Option<+T> = None | Some(value: T)

  type Name = string
  type Labels = map<string, string>
  type Uid = nat
  type PodId = nat

  /** A decoded JSON document. */
  datatype Json = Null | Num(n: int) | Str(s: string) | Arr(items: seq<Json>) | Obj(fields: map<string, Json>)

  /** The pod template of a workload: the labels its pods get, and the pod spec. */
  datatype Template = Template(labels: Labels, body: Json)

  datatype OwnerRef = OwnerRef(uid: Uid, controller: bool)

  datatype Pod = Pod(
    id: PodId,
    labels: Labels,
    body: Json,
    created: int,
    owners: seq<OwnerRef>,
    terminating: bool)

  datatype Revision = Revision(name: Name, data: Json, number: int, owner: Option<Uid>, rv: nat)

  datatype Spec = Spec(replicas: Option<nat>, partition: Option<nat>, selector: Labels, template: Template)

  datatype Status = Status(
    observed: nat,
    replicas: nat,
    updated: nat,
    current: Name,
    update: Name,
    collisions: Option<nat>,
    failedScale: bool)

  datatype Workload = Workload(uid: Uid, generation: nat, deleting: bool, spec: Spec, status: Status, rv: nat)

  /** What an API call, or one of the controller's own checks, reports. */
  datatype Error =
    | NotFound
    | AlreadyExists
    | Conflict
    | Unavailable
    | NoReplicas
    | NotEnoughUpdated
    | NotEnoughCurrent
    | OwnerGone
    | OwnerDeleting
    | Wrapped(inner: Error)

  /** What a read gives. */
  datatype Answer<+T> = Got(value: T) | Missed(error: Error)

  predicate ByServer(e: Error) {
    e.NotFound? || e.AlreadyExists? || e.Conflict? || e.Unavailable?
  }

  const REVISION_LABEL := "controller-revision-hash"
  const SHORT_LABEL := "pod-template-hash"

  function Min(a: int, b: int): int {
    if a < b then a else b
  }

  function Max(a: int, b: int): int {
    if a < b then b else a
  }

  /** The integer absolute value of helpers.go. */
  function Abs(x: int): int {
    if x < 0 then -x else x
  }

  /** A label a pod does not carry reads as the empty string. */
  function LabelOf(p: Pod, key: string): string {
    if key in p.labels then p.labels[key] else ""
  }

  /** The revision a pod says it runs. */
  function RevisionOf(p: Pod): Name {
    LabelOf(p, REVISION_LABEL)
  }

  predicate EqualToRevisionHash(p: Pod, hash: Name) {
    RevisionOf(p) == hash
  }

  predicate Matches(selector: Labels, labels: Labels) {
    forall k <- selector :: k in labels && labels[k] == selector[k]
  }

  /** The first owner reference that is a controller's. */
  function ControllerOf(owners: seq<OwnerRef>): Option<Uid> {
    if owners == [] then None
    else if owners[0].controller then Some(owners[0].uid)
    else ControllerOf(owners[1..])
  }

  /** The part of a revision name after its last '-'. */
  function ShortHash(name: Name): string {
    if name == "" || name[|name| - 1] == '-' then ""
    else ShortHash(name[..|name| - 1]) + [name[|name| - 1]]
  }

  /** The labels of a pod made from a template at a named revision. */
  function Stamp(labels: Labels, revision: Name): Labels {
    labels[REVISION_LABEL := revision][SHORT_LABEL := ShortHash(revision)]
  }

  /** The number of desired replicas that may run the latest template. */
  function Partition(spec: Spec): nat
    requires spec.replicas.Some?
  {
    if spec.partition.Some? then Min(spec.partition.value, spec.replicas.value) else spec.replicas.value
  }

  /** The template's pods match the selector, whatever revision they are stamped with. */
  predicate Fits(selector: Labels, labels: Labels) {
    Matches(selector, labels) && REVISION_LABEL !in selector && SHORT_LABEL !in selector
  }

  /** A pod this workload counts: active, matched by the selector and controlled by the workload. */
  predicate Mine(uid: Uid, selector: Labels, p: Pod) {
    !p.terminating && ControllerOf(p.owners) == Some(uid) && Matches(selector, p.labels)
  }
}
