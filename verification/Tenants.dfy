/**
 The Tenant object: its value, its JSON form, and the object in memory that the controller
 changes in place.
 */
module Tenants {
  import opened Wrappers
  import opened MergePatch
  import C = Conditions

  const API_VERSION := "tenancy.kcp.io/v1alpha1"
  const KIND := "Tenant"

  const FINALIZER := "tenancy.kcp.io/tenants"

  const PENDING := "Pending"
  const PROVISIONING := "Provisioning"
  const PROVISIONED := "Provisioned"
  const READY := "Ready"
  const FAILED := "Failed"
  const TERMINATING := "Terminating"

  datatype OwnerReference = OwnerReference(apiVersion: string, kind: string, name: string, uid: nat)

  datatype Tenant = Tenant(
    name: string,
    uid: nat,
    labels: map<string, string>,
    annotations: map<string, string>,
    finalizers: seq<string>,
    owners: seq<OwnerReference>,
    deletionTimestamp: C.Time,
    phase: string,
    conditions: C.Conditions)
  {
    predicate Deleting() { !deletionTimestamp.Zero? }

    predicate Guarded() { FINALIZER in finalizers }

    /** The reference every object made for the tenant carries. */
    function AsOwner(): OwnerReference { OwnerReference(API_VERSION, KIND, name, uid) }
  }

  /** The namespace of the host cluster that holds a tenant's objects. */
  function ClusterNamespaceInHost(name: string): string { "tenant-" + name }

  lemma NamespacesAreDistinct(a: string, b: string)
    ensures ClusterNamespaceInHost(a) == ClusterNamespaceInHost(b) ==> a == b
  {
    assert ClusterNamespaceInHost(a)[7..] == a && ClusterNamespaceInHost(b)[7..] == b;
  }

  /** All finalizers but ours, in order. */
  function Without(finalizers: seq<string>): (r: seq<string>)
    ensures FINALIZER !in r
    ensures FINALIZER !in finalizers ==> r == finalizers
    ensures forall f :: f in r ==> f in finalizers
    ensures forall f :: f in finalizers && f != FINALIZER ==> f in r
  {
    if finalizers == [] then []
    else if finalizers[0] == FINALIZER then Without(finalizers[1..])
    else [finalizers[0]] + Without(finalizers[1..])
  }

  // ---------- JSON form ----------

  /** Zero values are omitted from the document. */
  function Omit(empty: bool, j: Json): Option<Json> { if empty then None else Some(j) }

  function EncodeStrings(xs: seq<string>): Json {
    Arr(seq(|xs|, i requires 0 <= i < |xs| => Str(xs[i])))
  }

  function EncodeMap(m: map<string, string>): Json { Obj(map k | k in m :: Str(m[k])) }

  function EncodeTime(t: C.Time): Json { if t.Zero? then Null else Num(t.s) }

  function EncodeOwner(o: OwnerReference): Json {
    Obj(map["apiVersion" := Str(o.apiVersion), "kind" := Str(o.kind), "name" := Str(o.name), "uid" := Num(o.uid)])
  }

  function EncodeOwners(os: seq<OwnerReference>): Json {
    Arr(seq(|os|, i requires 0 <= i < |os| => EncodeOwner(os[i])))
  }

  function EncodeTruth(t: C.Truth): Json {
    Str(match t case True => "True" case False => "False" case Unknown => "Unknown")
  }

  function EncodeCondition(c: C.Condition): Json {
    Obj(map["type" := Str(c.kind), "status" := EncodeTruth(c.status), "reason" := Str(c.reason),
            "message" := Str(c.message), "lastTransitionTime" := EncodeTime(c.since)])
  }

  function EncodeConditions(cs: C.Conditions): Json {
    Arr(seq(|cs|, i requires 0 <= i < |cs| => EncodeCondition(cs[i])))
  }

  const META_KEYS := {"name", "uid", "labels", "annotations", "finalizers", "ownerReferences", "deletionTimestamp"}

  function MetaValue(t: Tenant, k: string): Option<Json> {
    if k == "name" then Some(Str(t.name))
    else if k == "uid" then Some(Num(t.uid))
    else if k == "labels" then Omit(t.labels == map[], EncodeMap(t.labels))
    else if k == "annotations" then Omit(t.annotations == map[], EncodeMap(t.annotations))
    else if k == "finalizers" then Omit(t.finalizers == [], EncodeStrings(t.finalizers))
    else if k == "ownerReferences" then Omit(t.owners == [], EncodeOwners(t.owners))
    else if k == "deletionTimestamp" then Omit(t.deletionTimestamp.Zero?, EncodeTime(t.deletionTimestamp))
    else None
  }

  function EncodeMeta(t: Tenant): Json {
    Obj(map k | k in META_KEYS && MetaValue(t, k).Some? :: MetaValue(t, k).value)
  }

  function StatusValue(t: Tenant, k: string): Option<Json> {
    if k == "phase" then Omit(t.phase == "", Str(t.phase))
    else if k == "conditions" then Omit(t.conditions == [], EncodeConditions(t.conditions))
    else None
  }

  function EncodeStatus(t: Tenant): Json {
    Obj(map k | k in {"phase", "conditions"} && StatusValue(t, k).Some? :: StatusValue(t, k).value)
  }

  function Encode(t: Tenant): (j: Json)
    ensures j.Obj?
  {
    Obj(map["apiVersion" := Str(API_VERSION), "kind" := Str(KIND),
            "metadata" := EncodeMeta(t), "spec" := Obj(map[]), "status" := EncodeStatus(t)])
  }

  function DecodeString(o: Option<Json>): Option<string> {
    match o
    case None => Some("")
    case Some(Str(s)) => Some(s)
    case _ => None
  }

  function DecodeItem(j: Json): Option<string> { DecodeString(Some(j)) }

  function DecodeList<T>(items: seq<Json>, f: Json -> Option<T>): Option<seq<T>> {
    if forall i | 0 <= i < |items| :: f(items[i]).Some?
    then Some(seq(|items|, i requires 0 <= i < |items| && f(items[i]).Some? => f(items[i]).value))
    else None
  }

  function DecodeArray<T>(o: Option<Json>, f: Json -> Option<T>): Option<seq<T>> {
    match o
    case None => Some([])
    case Some(Arr(items)) => DecodeList(items, f)
    case _ => None
  }

  function DecodeMap(o: Option<Json>): Option<map<string, string>> {
    match o
    case None => Some(map[])
    case Some(Obj(fields)) =>
      if forall k | k in fields :: fields[k].Str?
      then Some(map k | k in fields && fields[k].Str? :: fields[k].s)
      else None
    case _ => None
  }

  function DecodeTime(o: Option<Json>): Option<C.Time> {
    match o
    case None => Some(C.Zero)
    case Some(Null) => Some(C.Zero)
    case Some(Num(n)) => Some(C.Second(n))
    case _ => None
  }

  function DecodeOwner(j: Json): Option<OwnerReference> {
    var apiVersion, kind := DecodeString(Field(j, "apiVersion")), DecodeString(Field(j, "kind"));
    var name, uid := DecodeString(Field(j, "name")), Field(j, "uid");
    if apiVersion.Some? && kind.Some? && name.Some? && uid.Some? && uid.value.Num? && uid.value.n >= 0
    then Some(OwnerReference(apiVersion.value, kind.value, name.value, uid.value.n))
    else None
  }

  function DecodeTruth(o: Option<Json>): Option<C.Truth> {
    match o
    case Some(Str(s)) =>
      if s == "True" then Some(C.True) else if s == "False" then Some(C.False)
      else if s == "Unknown" then Some(C.Unknown) else None
    case _ => None
  }

  function DecodeCondition(j: Json): Option<C.Condition> {
    var kind, status := DecodeString(Field(j, "type")), DecodeTruth(Field(j, "status"));
    var reason, message := DecodeString(Field(j, "reason")), DecodeString(Field(j, "message"));
    var since := DecodeTime(Field(j, "lastTransitionTime"));
    if kind.Some? && status.Some? && reason.Some? && message.Some? && since.Some?
    then Some(C.Condition(kind.value, status.value, reason.value, message.value, since.value))
    else None
  }

  function DecodeMeta(meta: Json): Option<Tenant> {
    var name, uid := DecodeString(Field(meta, "name")), Field(meta, "uid");
    var labels, annotations := DecodeMap(Field(meta, "labels")), DecodeMap(Field(meta, "annotations"));
    var finalizers := DecodeArray(Field(meta, "finalizers"), DecodeItem);
    var owners := DecodeArray(Field(meta, "ownerReferences"), DecodeOwner);
    var deletion := DecodeTime(Field(meta, "deletionTimestamp"));
    if name.Some? && uid.Some? && uid.value.Num? && uid.value.n >= 0 && labels.Some? && annotations.Some? &&
       finalizers.Some? && owners.Some? && deletion.Some?
    then Some(Tenant(name.value, uid.value.n, labels.value, annotations.value, finalizers.value, owners.value,
                     deletion.value, "", []))
    else None
  }

  function DecodeStatus(status: Json, t: Tenant): Option<Tenant> {
    var phase := DecodeString(Field(status, "phase"));
    var conditions := DecodeArray(Field(status, "conditions"), DecodeCondition);
    if phase.Some? && conditions.Some? then Some(t.(phase := phase.value, conditions := conditions.value)) else None
  }

  /** Reads a document back; None for one that is not a Tenant. */
  function Decode(j: Json): Option<Tenant> {
    match (Field(j, "metadata"), Field(j, "status"))
    case (Some(meta), Some(status)) =>
      (match DecodeMeta(meta)
       case Some(t) => DecodeStatus(status, t)
       case None => None)
    case _ => None
  }

  lemma DecodeListInverts<T>(xs: seq<T>, items: seq<Json>, f: Json -> Option<T>)
    requires |items| == |xs| && forall i | 0 <= i < |xs| :: f(items[i]) == Some(xs[i])
    ensures DecodeList(items, f) == Some(xs)
  {
    assert DecodeList(items, f).value == xs;
  }

  lemma DecodeStringsInverts(xs: seq<string>)
    ensures DecodeArray(Omit(xs == [], EncodeStrings(xs)), DecodeItem) == Some(xs)
  {
    DecodeListInverts(xs, EncodeStrings(xs).items, DecodeItem);
  }

  lemma DecodeOwnersInverts(os: seq<OwnerReference>)
    ensures DecodeArray(Omit(os == [], EncodeOwners(os)), DecodeOwner) == Some(os)
  {
    forall i | 0 <= i < |os| ensures DecodeOwner(EncodeOwner(os[i])) == Some(os[i]) {}
    DecodeListInverts(os, EncodeOwners(os).items, DecodeOwner);
  }

  lemma DecodeConditionInverts(c: C.Condition)
    ensures DecodeCondition(EncodeCondition(c)) == Some(c)
  {
  }

  lemma DecodeConditionsInverts(cs: C.Conditions)
    ensures DecodeArray(Omit(cs == [], EncodeConditions(cs)), DecodeCondition) == Some(cs)
  {
    forall i | 0 <= i < |cs| ensures DecodeCondition(EncodeCondition(cs[i])) == Some(cs[i]) {
      DecodeConditionInverts(cs[i]);
    }
    DecodeListInverts(cs, EncodeConditions(cs).items, DecodeCondition);
  }

  lemma DecodeMapInverts(m: map<string, string>)
    ensures DecodeMap(Omit(m == map[], EncodeMap(m))) == Some(m)
  {
    assert EncodeMap(m).fields.Keys == m.Keys;
    if m != map[] {
      assert DecodeMap(Some(EncodeMap(m))).value == m;
    }
  }

  lemma MetaFields(t: Tenant, k: string)
    ensures Field(EncodeMeta(t), k) == MetaValue(t, k)
  {
  }

  lemma StatusFields(t: Tenant, k: string)
    ensures Field(EncodeStatus(t), k) == StatusValue(t, k)
  {
  }

  lemma DecodeMetaInverts(t: Tenant)
    ensures DecodeMeta(EncodeMeta(t)) == Some(t.(phase := "", conditions := []))
  {
    DecodeStringsInverts(t.finalizers);
    DecodeOwnersInverts(t.owners);
    DecodeMapInverts(t.labels);
    DecodeMapInverts(t.annotations);
    MetaFields(t, "name");
    MetaFields(t, "uid");
    MetaFields(t, "labels");
    MetaFields(t, "annotations");
    MetaFields(t, "finalizers");
    MetaFields(t, "ownerReferences");
    MetaFields(t, "deletionTimestamp");
  }

  lemma DecodeStatusInverts(t: Tenant, u: Tenant)
    ensures DecodeStatus(EncodeStatus(t), u) == Some(u.(phase := t.phase, conditions := t.conditions))
  {
    DecodeConditionsInverts(t.conditions);
    StatusFields(t, "phase");
    StatusFields(t, "conditions");
  }

  /** A Tenant survives the trip to JSON and back. */
  lemma DecodeInverts(t: Tenant)
    ensures Decode(Encode(t)) == Some(t)
  {
    DecodeMetaInverts(t);
    DecodeStatusInverts(t, t.(phase := "", conditions := []));
  }
}
