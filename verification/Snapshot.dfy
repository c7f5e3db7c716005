/** Snapshots of the pod template, and how one is laid over a workload again. */
module Snapshot {
  import opened Objects

  const MARKER := "$patch"

  /** A patch object that says it replaces, rather than merges with, what it meets. */
  predicate Replaces(patch: Json) {
    patch.Obj? && MARKER in patch.fields && patch.fields[MARKER] == Str("replace")
  }

  /** Lays a patch over a document, field by field, as a strategic merge patch does. */
  function Merge(original: Json, patch: Json): Json
    decreases patch
  {
    if !(original.Obj? && patch.Obj?) then
      patch
    else if Replaces(patch) then
      Obj(patch.fields - {MARKER})
    else
      Obj(map k | k in original.fields.Keys + patch.fields.Keys ::
        if k !in patch.fields then original.fields[k]
        else if k !in original.fields then patch.fields[k]
        else Merge(original.fields[k], patch.fields[k]))
  }

  /** A document with the required fields of a workload. */
  predicate IsWorkload(doc: Json) {
    && doc.Obj? && "spec" in doc.fields
    && doc.fields["spec"].Obj? && "template" in doc.fields["spec"].fields
    && doc.fields["spec"].fields["template"].Obj?
  }

  function TemplateField(doc: Json): map<string, Json>
    requires IsWorkload(doc)
  {
    doc.fields["spec"].fields["template"].fields
  }

  /** The document with another pod template and every other field as it was. */
  function WithTemplate(doc: Json, template: map<string, Json>): Json
    requires IsWorkload(doc)
  {
    Obj(doc.fields["spec" := Obj(doc.fields["spec"].fields["template" := Obj(template)])])
  }

  /** The patch that holds only a document's pod template. */
  function PatchOf(template: map<string, Json>): Json {
    Obj(map["spec" := Obj(map["template" := Obj(template[MARKER := Str("replace")])])])
  }

  /** Takes the template out of a decoded workload, marks it and wraps it up again. */
  method GetPatch(doc: Json) returns (patch: Json)
    requires IsWorkload(doc)
    ensures patch == PatchOf(TemplateField(doc))
    ensures patch == Obj(map["spec" := Obj(map["template" := Obj(TemplateField(doc)["$patch" := Str("replace")])])])
  {
    var objCopy: map<string, Json> := map[];
    var specCopy: map<string, Json> := map[];
    var spec := doc.fields["spec"].fields;
    var template := spec["template"].fields;
    template := template[MARKER := Str("replace")];
    specCopy := specCopy["template" := Obj(template)];
    objCopy := objCopy["spec" := Obj(specCopy)];
    return Obj(objCopy);
  }

  /** Laying a snapshot of b over a changes the pod template of a to b's and nothing else,
      exactly when b's template has no field of its own named like the marker. */
  lemma ApplyReplacesTemplate(a: Json, b: Json)
    requires IsWorkload(a) && IsWorkload(b)
    ensures Merge(a, PatchOf(TemplateField(b))) == WithTemplate(a, TemplateField(b) - {MARKER})
    ensures Merge(a, PatchOf(TemplateField(b))) == WithTemplate(a, TemplateField(b))
            <==> MARKER !in TemplateField(b)
  {
    var patch := PatchOf(TemplateField(b));
    var marked := patch.fields["spec"].fields["template"];
    assert Merge(a.fields["spec"].fields["template"], marked) == Obj(TemplateField(b) - {MARKER}) by {
      assert marked.fields - {MARKER} == TemplateField(b) - {MARKER};
    }
    var spec := Merge(a.fields["spec"], patch.fields["spec"]);
    assert spec.fields == a.fields["spec"].fields["template" := Obj(TemplateField(b) - {MARKER})];
    assert Merge(a, patch).fields == a.fields["spec" := spec];
    if MARKER !in TemplateField(b) {
      assert TemplateField(b) - {MARKER} == TemplateField(b);
    } else {
      assert TemplateField(WithTemplate(a, TemplateField(b))) == TemplateField(b);
      assert TemplateField(WithTemplate(a, TemplateField(b) - {MARKER})) == TemplateField(b) - {MARKER};
    }
  }

  /** Taking a snapshot again after it was applied gives the same snapshot. */
  lemma SnapshotAfterApply(a: Json, b: Json)
    requires IsWorkload(a) && IsWorkload(b)
    ensures IsWorkload(Merge(a, PatchOf(TemplateField(b))))
    ensures PatchOf(TemplateField(Merge(a, PatchOf(TemplateField(b))))) == PatchOf(TemplateField(b))
  {
    ApplyReplacesTemplate(a, b);
    var t := TemplateField(b);
    assert (t - {MARKER})[MARKER := Str("replace")] == t[MARKER := Str("replace")];
  }

  /** The snapshot applied last wins: the first leaves no trace. */
  lemma LastApplyWins(a: Json, b: Json, c: Json)
    requires IsWorkload(a) && IsWorkload(b) && IsWorkload(c)
    ensures Merge(Merge(a, PatchOf(TemplateField(b))), PatchOf(TemplateField(c)))
            == Merge(a, PatchOf(TemplateField(c)))
  {
    ApplyReplacesTemplate(a, b);
    var ab := Merge(a, PatchOf(TemplateField(b)));
    ApplyReplacesTemplate(ab, c);
    ApplyReplacesTemplate(a, c);
    var t := TemplateField(c) - {MARKER};
    assert WithTemplate(ab, t).fields["spec"].fields == WithTemplate(a, t).fields["spec"].fields;
    assert WithTemplate(ab, t).fields == WithTemplate(a, t).fields;
  }

  // ---- Workload specs as documents

  function EncodeLabels(labels: Labels): Json {
    Obj(map k | k in labels :: Str(labels[k]))
  }

  function DecodeLabels(j: Json): Labels {
    if j.Obj? then map k | k in j.fields && j.fields[k].Str? :: j.fields[k].s else map[]
  }

  function EncodeTemplate(t: Template): map<string, Json> {
    map["metadata" := Obj(map["labels" := EncodeLabels(t.labels)]), "spec" := t.body]
  }

  function DecodeTemplate(fields: map<string, Json>): Template {
    Template(
      if "metadata" in fields && fields["metadata"].Obj? && "labels" in fields["metadata"].fields
      then DecodeLabels(fields["metadata"].fields["labels"]) else map[],
      if "spec" in fields then fields["spec"] else Null)
  }

  /** An unset pointer field is left out of the document. */
  function OptionalField(key: string, value: Option<nat>): map<string, Json> {
    if value.Some? then map[key := Num(value.value)] else map[]
  }

  function DecodeNat(fields: map<string, Json>, key: string): Option<nat> {
    if key in fields && fields[key].Num? && fields[key].n >= 0 then Some(fields[key].n) else None
  }

  function Encode(spec: Spec): Json {
    Obj(map["spec" := Obj(
      OptionalField("replicas", spec.replicas) + OptionalField("partition", spec.partition)
      + map["selector" := EncodeLabels(spec.selector), "template" := Obj(EncodeTemplate(spec.template))])])
  }

  function Decode(doc: Json): Spec
    requires IsWorkload(doc)
  {
    var fields := doc.fields["spec"].fields;
    Spec(
      DecodeNat(fields, "replicas"),
      DecodeNat(fields, "partition"),
      if "selector" in fields then DecodeLabels(fields["selector"]) else map[],
      DecodeTemplate(TemplateField(doc)))
  }

  lemma LabelsRoundTrip(labels: Labels)
    ensures DecodeLabels(EncodeLabels(labels)) == labels
  {
    var j := EncodeLabels(labels);
    assert forall k <- labels :: j.fields[k] == Str(labels[k]);
  }

  lemma IsObject(labels: Labels)
    ensures EncodeLabels(labels).Obj?
  {
  }

  lemma TemplateRoundTrip(t: Template)
    ensures DecodeTemplate(EncodeTemplate(t)) == t
  {
    hide EncodeLabels, DecodeLabels;
    LabelsRoundTrip(t.labels);
    IsObject(t.labels);
  }

  lemma SpecRoundTrip(spec: Spec)
    ensures IsWorkload(Encode(spec)) && Decode(Encode(spec)) == spec
  {
    hide EncodeLabels, DecodeLabels, DecodeTemplate, EncodeTemplate;
    LabelsRoundTrip(spec.selector);
    TemplateRoundTrip(spec.template);
    var fields := Encode(spec).fields["spec"].fields;
    assert DecodeNat(fields, "replicas") == spec.replicas;
    assert DecodeNat(fields, "partition") == spec.partition;
  }

  /** What a revision stores about a template. */
  function Data(t: Template): Json {
    PatchOf(EncodeTemplate(t))
  }

  /** The template a revision's data restores. */
  function Restored(data: Json): Template {
    DecodeTemplate(
      if data.Obj? && "spec" in data.fields && data.fields["spec"].Obj?
         && "template" in data.fields["spec"].fields && data.fields["spec"].fields["template"].Obj?
      then data.fields["spec"].fields["template"].fields else map[])
  }

  lemma RestoredData(t: Template)
    ensures Restored(Data(t)) == t
  {
    LabelsRoundTrip(t.labels);
  }

  /** The workload as it was specified at a revision. */
  function ApplyRevision(spec: Spec, data: Json): Spec
    requires IsWorkload(Merge(Encode(spec), data))
  {
    Decode(Merge(Encode(spec), data))
  }

  lemma EncodeReplaced(spec: Spec, t: Template)
    requires IsWorkload(Encode(spec))
    ensures WithTemplate(Encode(spec), EncodeTemplate(t)) == Encode(spec.(template := t))
  {
    var body := OptionalField("replicas", spec.replicas) + OptionalField("partition", spec.partition);
    var mine := map["selector" := EncodeLabels(spec.selector), "template" := Obj(EncodeTemplate(spec.template))];
    var other := map["selector" := EncodeLabels(spec.selector), "template" := Obj(EncodeTemplate(t))];
    assert (body + mine)["template" := Obj(EncodeTemplate(t))] == body + other;
  }

  /** Applying a revision taken of template t gives the workload with t, replicas and all else unchanged. */
  lemma ApplySnapshot(spec: Spec, t: Template)
    ensures IsWorkload(Merge(Encode(spec), Data(t)))
    ensures ApplyRevision(spec, Data(t)) == spec.(template := t)
  {
    SpecRoundTrip(spec);
    SpecRoundTrip(spec.(template := t));
    EncodeReplaced(spec, t);
    ApplyReplacesTemplate(Encode(spec), Encode(spec.(template := t)));
  }

  /** Two templates with the same revision data are the same template. */
  lemma DataInjective(t: Template, t': Template)
    requires Data(t) == Data(t')
    ensures t == t'
  {
    RestoredData(t);
    RestoredData(t');
  }
}
