/** What holds of a tenant after every step, and the proof that every step keeps it. */
module Invariants {
  import opened Wrappers
  import opened MergePatch
  import opened Tenants
  import opened TenantPatches
  import opened HostObjects
  import opened Protocol
  import C = Conditions

  // ---------- Phases and conditions ----------

  /** How far along its life a phase is; Failed, Unknown and any other text come last. */
  function PhaseRank(phase: string): nat {
    if phase == "" then 0
    else if phase == PENDING then 1
    else if phase == PROVISIONING then 2
    else if phase == PROVISIONED then 3
    else if phase == READY then 4
    else if phase == TERMINATING then 5
    else 6
  }

  lemma PhasesAreDistinct()
    ensures PhaseRank("") == 0 && PhaseRank(PENDING) == 1 && PhaseRank(PROVISIONING) == 2
    ensures PhaseRank(PROVISIONED) == 3 && PhaseRank(READY) == 4 && PhaseRank(TERMINATING) == 5 &&
            PhaseRank(FAILED) == 6
    ensures forall a, b :: PhaseRank(a) == PhaseRank(b) < 6 ==> a == b
  {
  }

  /** How much of the provisioning the conditions record: nothing, a failure, success, readiness. */
  function Recorded(cs: C.Conditions): nat {
    if C.Has(cs, READY_CONDITION) then 3
    else if C.IsTrue(cs, PROVISIONED_CONDITION) then 2
    else if C.Has(cs, PROVISIONED_CONDITION) then 1
    else 0
  }

  predicate Says(c: Option<C.Condition>, status: C.Truth, reason: string, message: string) {
    c.Some? && c.value.status == status && c.value.reason == reason && c.value.message == message
  }

  ghost predicate ConditionsOk(cs: C.Conditions) {
    var provisioned, ready := C.Get(cs, PROVISIONED_CONDITION), C.Get(cs, READY_CONDITION);
    && C.Canonical(cs)
    && (provisioned.None? || Says(provisioned, C.True, "Success", "Success to provision")
                          || Says(provisioned, C.False, "Failed", "Failed to handle phase"))
    && (ready.None? || (Says(ready, C.True, "Success", "Ready") && provisioned.Some? && provisioned.value.status.True?))
  }

  /** Unless the tenant is terminating, its phase is the one its conditions call for. */
  predicate PhaseFits(phase: string, cs: C.Conditions) {
    match Recorded(cs)
    case 0 => phase == "" || phase == PENDING
    case 1 => phase == PROVISIONING
    case 2 => phase == PROVISIONED
    case _ => phase == READY
  }

  ghost predicate StatusOk(phase: string, cs: C.Conditions) {
    ConditionsOk(cs) && (phase == TERMINATING || PhaseFits(phase, cs))
  }

  /** Conditions only ever record more, and stay identical while they record the same. */
  ghost predicate RecordsMore(before: C.Conditions, after: C.Conditions) {
    ConditionsOk(after) && Recorded(before) <= Recorded(after) &&
    (Recorded(before) == Recorded(after) ==> before == after)
  }

  lemma MarkNotProvisionedOk(t: Tenant, now: int)
    requires ConditionsOk(t.conditions) && NeedsProvisioning(t)
    ensures RecordsMore(t.conditions, MarkNotProvisioned(t, now).conditions)
    ensures Recorded(MarkNotProvisioned(t, now).conditions) == 1
  {
    var mark := C.Fresh(PROVISIONED_CONDITION, C.False, "Failed", "Failed to handle phase");
    C.OrderedUniqueIsCanonical(t.conditions);
    C.SetRefinesMapUpdate(t.conditions, mark, now);
    C.GetFinds(t.conditions, PROVISIONED_CONDITION);
    if C.Has(t.conditions, PROVISIONED_CONDITION) {
      C.SetSameStateIsIdentity(t.conditions, mark, now);
    }
  }

  lemma MarkProvisionedOk(t: Tenant, now: int)
    requires ConditionsOk(t.conditions) && NeedsProvisioning(t)
    ensures RecordsMore(t.conditions, MarkProvisioned(t, now).conditions)
    ensures Recorded(MarkProvisioned(t, now).conditions) == 2
  {
    var mark := C.Fresh(PROVISIONED_CONDITION, C.True, "Success", "Success to provision");
    C.OrderedUniqueIsCanonical(t.conditions);
    C.SetRefinesMapUpdate(t.conditions, mark, now);
    C.GetFinds(t.conditions, PROVISIONED_CONDITION);
  }

  lemma MarkReadyOk(t: Tenant, now: int)
    requires ConditionsOk(t.conditions) && Recorded(t.conditions) >= 2
    ensures RecordsMore(t.conditions, MarkReady(t, now).conditions)
    ensures Recorded(MarkReady(t, now).conditions) == 3
  {
    var mark := C.Fresh(READY_CONDITION, C.True, "Success", "Ready");
    C.OrderedUniqueIsCanonical(t.conditions);
    C.SetRefinesMapUpdate(t.conditions, mark, now);
    C.GetFinds(t.conditions, READY_CONDITION);
    if C.Has(t.conditions, READY_CONDITION) {
      C.SetSameStateIsIdentity(t.conditions, mark, now);
    }
  }

  // ---------- The stored state ----------

  ghost predicate Complete(host: map<Part, HostObject>) { forall p: Part :: p in host }

  /** Everything that comes before the part in the order of creation is there. */
  ghost predicate Before(p: Part, host: map<Part, HostObject>) {
    forall q: Part | Position(q) < Position(p) :: q in host
  }

  ghost predicate Prefix(host: map<Part, HostObject>) { forall p | p in host :: Before(p, host) }

  /** The object is one the controller makes for this tenant, from the CA that is stored beside it. */
  ghost predicate ObjectOk(setup: Setup, owner: OwnerReference, host: map<Part, HostObject>, p: Part)
    requires p in host
  {
    match p
    case ServerCert => exists entropy :: Draft(setup, p, owner, entropy) == Ok(host[p])
    case Apiserver => host[p].Deployment? && host[p].owners == [owner] && host[p].spec == ApiserverSpec(setup)
    case Manager => host[p].Deployment? && host[p].owners == [owner] && host[p].spec == ManagerSpec(setup)
    case HostNamespace => host[p] == Namespace([owner])
    case ApiserverService => host[p] == Service([owner], Labels("kube-apiserver", setup.name), 6443)
    case _ =>
      ServerCert in host && exists entropy :: DraftKubeconfig(setup, p, owner, host[ServerCert], entropy) == Ok(host[p])
  }

  ghost predicate HostOk(setup: Setup, owner: OwnerReference, host: map<Part, HostObject>) {
    Prefix(host) && forall p | p in host :: ObjectOk(setup, owner, host, p)
  }

  ghost predicate StoredOk(setup: Setup, t: Tenant, host: map<Part, HostObject>) {
    && t.name == setup.name
    && StatusOk(t.phase, t.conditions)
    && (t.phase == TERMINATING ==> t.Deleting())
    && (Recorded(t.conditions) >= 2 ==> Complete(host))
    && (t.Guarded() || t.Deleting() || (host == map[] && t.phase == "" && t.conditions == []))
    && HostOk(setup, t.AsOwner(), host)
  }

  // ---------- The reconcile in flight ----------

  /** The fields only the controller writes. */
  predicate SameOwned(a: Tenant, b: Tenant) {
    a.name == b.name && a.uid == b.uid && a.finalizers == b.finalizers && a.owners == b.owners && SameStatus(a, b)
  }

  /** The Tenant once read is still there, and nobody but its user has changed it. */
  predicate Current(c: Cell, t: Tenant) {
    c.tenant.Some? && SameOwned(c.tenant.value, t) && (t.Deleting() ==> c.tenant.value.Deleting())
  }

  /** Before our finalizer is on it, a Tenant may also vanish under the reconcile. */
  predicate CurrentOrGone(c: Cell, t: Tenant) {
    Current(c, t) || (!t.Guarded() && c.tenant.None?)
  }

  predicate Working(c: Cell, seen: Tenant) {
    Current(c, seen) && seen.Guarded() && !seen.Deleting() && seen.phase != TERMINATING
  }

  /** The finalizer is added when missing, and removed only from a Tenant read as deleted and terminating. */
  predicate FinalizerMove(seen: Tenant, goal: Tenant) {
    || (!seen.Guarded() && goal.finalizers == seen.finalizers + [FINALIZER])
    || (seen.Guarded() && goal.finalizers == seen.finalizers)
    || (seen.Guarded() && seen.Deleting() && seen.phase == TERMINATING &&
        goal.finalizers == Without(seen.finalizers) && SameStatus(goal, seen))
  }

  /** What the deferred patch is going to store, compared with what the reconcile read. */
  ghost predicate GoalOk(c: Cell, seen: Tenant, goal: Tenant, verdict: Verdict) {
    && goal.owners == seen.owners
    && StatusOk(goal.phase, goal.conditions)
    && (goal.phase == TERMINATING ==> seen.Deleting())
    && PhaseRank(seen.phase) <= PhaseRank(goal.phase)
    && (PhaseRank(seen.phase) == PhaseRank(goal.phase) ==> SameStatus(seen, goal))
    && (c.tenant.Some? && Recorded(goal.conditions) >= 2 ==> Complete(c.host))
    && FinalizerMove(seen, goal)
    && (verdict.Finished? ==>
          goal.finalizers != seen.finalizers || !SameStatus(goal, seen) || (goal.phase == READY && !seen.Deleting()))
  }

  ghost predicate ProcOk(setup: Setup, c: Cell) {
    match c.proc
    case Idle => true
    case Reading => true
    case Probing(seen, part) =>
      Working(c, seen) && Before(part, c.host) && (part.HostNamespace? || NeedsProvisioning(seen))
    case ReadingCA(seen, part) =>
      Working(c, seen) && Before(part, c.host) && NeedsProvisioning(seen) && IsKubeconfig(part) && part !in c.host
    case Creating(seen, part, draft) =>
      Working(c, seen) && Before(part, c.host) && (part.HostNamespace? || NeedsProvisioning(seen)) &&
      part !in c.host && ObjectOk(setup, seen.AsOwner(), c.host[part := draft], part)
    case Checking(seen, mem, part) =>
      Working(c, seen) && Complete(c.host) && (part.Apiserver? || part.Manager?) &&
      mem == seen.(conditions := mem.conditions) && RecordsMore(seen.conditions, mem.conditions) &&
      Recorded(mem.conditions) >= 2
    case Rereading(seen, mem, verdict) => CurrentOrGone(c, seen) && GoalOk(c, seen, mem, verdict)
    case PatchingMain(seen, base, goal, verdict) =>
      CurrentOrGone(c, base) && SameOwned(base, seen) && (seen.Deleting() ==> base.Deleting()) &&
      goal == Overwrite(base, goal) && goal.finalizers != base.finalizers && GoalOk(c, seen, goal, verdict)
    case PatchingStatus(seen, base, goal, verdict, wrote) =>
      c.tenant.Some? && SameOwned(base, seen) && GoalOk(c, seen, goal, verdict) && !SameStatus(base, goal) &&
      SameOwned(c.tenant.value, seen.(finalizers := goal.finalizers)) && goal.Guarded() &&
      (seen.Deleting() ==> c.tenant.value.Deleting()) && (goal.finalizers != seen.finalizers ==> wrote)
    case Returned(verdict, saw, wrote) =>
      verdict.Finished? ==>
        c.tenant.None? || wrote || (saw.Some? && !saw.value.Deleting() && c.tenant.value.phase == READY)
  }

  ghost predicate Inv(setup: Setup, c: Cell) {
    (c.tenant.Some? ==> StoredOk(setup, c.tenant.value, c.host)) && ProcOk(setup, c)
  }

  // ---------- The surroundings keep the invariant ----------

  /** A status report changes no object in any way that another one depends on. */
  lemma OnlyTwoDeployments(setup: Setup, owner: OwnerReference, host: map<Part, HostObject>, part: Part)
    requires HostOk(setup, owner, host) && part in host && host[part].Deployment?
    ensures part.Apiserver? || part.Manager?
  {
    assert ObjectOk(setup, owner, host, part);
  }

  lemma ObjectStaysOk(
      setup: Setup, owner: OwnerReference, host: map<Part, HostObject>, after: map<Part, HostObject>, p: Part)
    requires p in host && p in after && ObjectOk(setup, owner, host, p)
    requires ServerCert in host ==> ServerCert in after && after[ServerCert] == host[ServerCert]
    requires after[p] == host[p] || ((p.Apiserver? || p.Manager?) && host[p].Deployment? && after[p].Deployment? &&
                                     after[p].owners == host[p].owners && after[p].spec == host[p].spec)
    ensures ObjectOk(setup, owner, after, p)
  {
    hide Draft, DraftKubeconfig, ApiserverSpec, ManagerSpec;
  }

  lemma StatusReportKeepsHost(
      setup: Setup, owner: OwnerReference, host: map<Part, HostObject>, part: Part, replicas: int, ready: int)
    requires HostOk(setup, owner, host) && part in host && host[part].Deployment?
    ensures HostOk(setup, owner, host[part := host[part].(replicas := replicas, readyReplicas := ready)])
  {
    hide ObjectOk;
    var after := host[part := host[part].(replicas := replicas, readyReplicas := ready)];
    OnlyTwoDeployments(setup, owner, host, part);
    forall p | p in after ensures Before(p, after) && ObjectOk(setup, owner, after, p) {
      assert Before(p, host);
      ObjectStaysOk(setup, owner, host, after, p);
    }
  }

  /** Nothing of a live tenant is ever collected. */
  lemma LiveObjectsHaveOwner(setup: Setup, t: Tenant, host: map<Part, HostObject>, part: Part)
    requires HostOk(setup, t.AsOwner(), host) && part in host
    ensures host[part].owners == [t.AsOwner()] && !Orphaned(Some(t), host[part])
  {
    assert ObjectOk(setup, t.AsOwner(), host, part);
    assert host[part].owners == [t.AsOwner()];
    assert host[part].owners[0].uid == t.uid;
  }

  lemma FreshTenantOk(setup: Setup, t: Tenant)
    requires t.name == setup.name && t.phase == "" && t.conditions == [] && t.deletionTimestamp.Zero?
    ensures StoredOk(setup, t, map[])
  {
    PhasesAreDistinct();
  }

  /** A change that leaves the controller's fields and the set of objects alone does not disturb a reconcile. */
  lemma DisturbanceKeepsProc(setup: Setup, c: Cell, d: Cell)
    requires ProcOk(setup, c) && d.proc == c.proc
    requires c.tenant.Some? && d.tenant.Some?
    requires SameOwned(c.tenant.value, d.tenant.value) && (c.tenant.value.Deleting() ==> d.tenant.value.Deleting())
    requires d.host.Keys == c.host.Keys && (ServerCert in c.host ==> d.host[ServerCert] == c.host[ServerCert])
    ensures ProcOk(setup, d)
  {
    hide Draft, DraftKubeconfig, ApiserverSpec, ManagerSpec;
    if c.proc.Creating? {
      var before, after := c.host[c.proc.part := c.proc.draft], d.host[c.proc.part := c.proc.draft];
      assert ObjectOk(setup, c.proc.seen.AsOwner(), before, c.proc.part);
      assert ServerCert in before ==> after[ServerCert] == before[ServerCert];
    }
  }

  lemma DeletionKeepsInv(setup: Setup, c: Cell, at: int)
    requires Inv(setup, c)
    ensures Inv(setup, AfterEnv(setup.name, c, UserDeletes(at)))
  {
    if c.tenant.Some? && c.tenant.value.finalizers != [] {
      DisturbanceKeepsProc(setup, c, AfterEnv(setup.name, c, UserDeletes(at)));
    }
  }

  lemma EditKeepsInv(setup: Setup, c: Cell, labels: map<string, string>, annotations: map<string, string>)
    requires Inv(setup, c)
    ensures Inv(setup, AfterEnv(setup.name, c, UserEdits(labels, annotations)))
  {
    if c.tenant.Some? {
      DisturbanceKeepsProc(setup, c, AfterEnv(setup.name, c, UserEdits(labels, annotations)));
    }
  }

  lemma ReportKeepsStored(setup: Setup, t: Tenant, host: map<Part, HostObject>, part: Part, replicas: int, ready: int)
    requires StoredOk(setup, t, host) && part in host && host[part].Deployment?
    ensures var after := host[part := host[part].(replicas := replicas, readyReplicas := ready)];
            StoredOk(setup, t, after) && (ServerCert in host ==> after[ServerCert] == host[ServerCert])
  {
    hide DraftKubeconfig, ApiserverSpec, ManagerSpec;
    StatusReportKeepsHost(setup, t.AsOwner(), host, part, replicas, ready);
    if ServerCert in host { assert ObjectOk(setup, t.AsOwner(), host, ServerCert); }
  }

  lemma ReportKeepsInv(setup: Setup, c: Cell, part: Part, replicas: int, ready: int)
    requires Inv(setup, c)
    ensures Inv(setup, AfterEnv(setup.name, c, StatusReported(part, replicas, ready)))
  {
    hide Draft, DraftKubeconfig, ApiserverSpec, ManagerSpec;
    if part in c.host && c.host[part].Deployment? {
      var after := AfterEnv(setup.name, c, StatusReported(part, replicas, ready));
      assert after.host.Keys == c.host.Keys;
      if c.tenant.Some? {
        ReportKeepsStored(setup, c.tenant.value, c.host, part, replicas, ready);
        DisturbanceKeepsProc(setup, c, after);
      }
    }
  }

  lemma CollectionKeepsInv(setup: Setup, c: Cell, part: Part)
    requires Inv(setup, c)
    ensures Inv(setup, AfterEnv(setup.name, c, Collected(part)))
  {
    if part in c.host && c.tenant.Some? {
      LiveObjectsHaveOwner(setup, c.tenant.value, c.host, part);
    }
  }

  lemma AfterEnvKeepsInv(setup: Setup, c: Cell, e: Env)
    requires Inv(setup, c)
    ensures Inv(setup, AfterEnv(setup.name, c, e))
  {
    match e
    case UserCreates(uid, labels, annotations, finalizers, owners) =>
      FreshTenantOk(setup, Tenant(setup.name, uid, labels, annotations, finalizers, owners, C.Zero, "", []));
    case UserDeletes(at) => DeletionKeepsInv(setup, c, at);
    case UserEdits(labels, annotations) => EditKeepsInv(setup, c, labels, annotations);
    case StatusReported(part, replicas, ready) => ReportKeepsInv(setup, c, part, replicas, ready);
    case Collected(part) => CollectionKeepsInv(setup, c, part);
  }

  lemma {:induction false} AfterEnvsKeepInv(setup: Setup, c: Cell, es: seq<Env>)
    requires Inv(setup, c)
    ensures Inv(setup, AfterEnvs(setup.name, c, es))
    decreases es
  {
    if es != [] {
      AfterEnvKeepsInv(setup, c, es[0]);
      AfterEnvsKeepInv(setup, AfterEnv(setup.name, c, es[0]), es[1..]);
    }
  }

  // ---------- The controller keeps the invariant ----------

  /** Leaving the finalizers alone, the reconcile may defer any conditions that record more than it read. */
  lemma DeferOk(setup: Setup, c: Cell, seen: Tenant, mem: Tenant, verdict: Verdict)
    requires StatusOk(seen.phase, seen.conditions) && Working(c, seen)
    requires mem == seen.(conditions := mem.conditions) && RecordsMore(seen.conditions, mem.conditions)
    requires Recorded(mem.conditions) >= 2 ==> Complete(c.host)
    requires verdict.Finished? ==> Recorded(mem.conditions) == 3
    ensures ProcOk(setup, c.(proc := Defer(seen, mem, verdict)))
  {
    PhasesAreDistinct();
    var goal := mem.(phase := DerivePhase(mem));
    assert PhaseFits(goal.phase, goal.conditions);
    assert GoalOk(c, seen, goal, verdict);
  }

  lemma DispatchOk(setup: Setup, c: Cell)
    requires Inv(setup, c) && c.tenant.Some?
    ensures ProcOk(setup, c.(proc := Dispatch(c.tenant.value)))
  {
    PhasesAreDistinct();
    var t := c.tenant.value;
    if !t.Guarded() {
      var goal := t.(finalizers := t.finalizers + [FINALIZER]);
      assert GoalOk(c, t, goal.(phase := DerivePhase(goal)), Finished);
    } else if t.Deleting() {
      var goal := if t.phase == TERMINATING then t.(finalizers := Without(t.finalizers)) else t;
      assert GoalOk(c, t, goal.(phase := DerivePhase(goal)), Finished);
    }
  }

  lemma PartFailedOk(setup: Setup, c: Cell, seen: Tenant, part: Part, now: int)
    requires StatusOk(seen.phase, seen.conditions) && (Recorded(seen.conditions) >= 2 ==> Complete(c.host))
    requires Working(c, seen) && (part.HostNamespace? || NeedsProvisioning(seen))
    ensures ProcOk(setup, c.(proc := PartFailed(seen, part, now)))
  {
    if part.HostNamespace? {
      DeferOk(setup, c, seen, seen, Failed);
    } else {
      MarkNotProvisionedOk(seen, now);
      DeferOk(setup, c, seen, MarkNotProvisioned(seen, now), Failed);
    }
  }

  lemma NextBefore(host: map<Part, HostObject>, p: Part, q: Part)
    requires Before(p, host) && p in host && Position(q) <= Position(p) + 1
    ensures Before(q, host)
  {
  }

  lemma LastIsComplete(host: map<Part, HostObject>)
    requires Before(Manager, host) && Manager in host
    ensures Complete(host)
  {
  }

  /** The next part is looked for when all the earlier ones are there. */
  lemma ProbeNextOk(setup: Setup, c: Cell, seen: Tenant, part: Part, next: Part)
    requires Working(c, seen) && NeedsProvisioning(seen)
    requires Before(part, c.host) && part in c.host && Position(next) == Position(part) + 1
    ensures ProcOk(setup, c.(proc := Probing(seen, next)))
  {
    NextBefore(c.host, part, next);
  }

  lemma CheckOk(setup: Setup, c: Cell, seen: Tenant, mem: Tenant)
    requires Working(c, seen) && Complete(c.host) && mem == seen.(conditions := mem.conditions)
    requires RecordsMore(seen.conditions, mem.conditions) && Recorded(mem.conditions) >= 2
    ensures ProcOk(setup, c.(proc := Checking(seen, mem, Apiserver)))
  {
  }

  lemma PartExistsOk(setup: Setup, c: Cell, seen: Tenant, part: Part, now: int)
    requires ConditionsOk(seen.conditions) && (Recorded(seen.conditions) >= 2 ==> Complete(c.host))
    requires Working(c, seen) && (part.HostNamespace? || NeedsProvisioning(seen))
    requires Before(part, c.host) && part in c.host
    ensures ProcOk(setup, c.(proc := PartExists(seen, part, now)))
  {
    if part.Manager? {
      MarkProvisionedOk(seen, now);
      LastIsComplete(c.host);
      CheckOk(setup, c, seen, MarkProvisioned(seen, now));
    } else if NeedsProvisioning(seen) {
      ProbeNextOk(setup, c, seen, part, PartExists(seen, part, now).part);
    } else {
      CheckOk(setup, c, seen, seen);
    }
  }

  lemma ProbingKeepsInv(setup: Setup, c: Cell, call: Call)
    requires Inv(setup, c) && c.proc.Probing?
    ensures Inv(setup, AfterCall(setup, c, call))
  {
    hide DraftKubeconfig, PartFailed, PartExists, NewPki, ServerCertData, DerivePhase, MarkNotProvisioned,
         MarkProvisioned, ApiserverSpec, ManagerSpec;
    var seen, part := c.proc.seen, c.proc.part;
    if !call.outcome.Answered? {
      PartFailedOk(setup, c, seen, part, call.now);
    } else if part in c.host {
      PartExistsOk(setup, c, seen, part, call.now);
    } else if !IsKubeconfig(part) {
      var draft := Draft(setup, part, seen.AsOwner(), call.entropy);
      if draft.Err? {
        PartFailedOk(setup, c, seen, part, call.now);
      } else {
        assert c.host[part := draft.value][part] == draft.value;
      }
    }
  }

  lemma ReadingCAKeepsInv(setup: Setup, c: Cell, call: Call)
    requires Inv(setup, c) && c.proc.ReadingCA?
    ensures Inv(setup, AfterCall(setup, c, call))
  {
    hide DraftKubeconfig, PartFailed, Draft, DerivePhase, MarkNotProvisioned, ApiserverSpec, ManagerSpec;
    var seen, part := c.proc.seen, c.proc.part;
    PartFailedOk(setup, c, seen, part, call.now);
    if call.outcome.Answered? && ServerCert in c.host {
      var draft := DraftKubeconfig(setup, part, seen.AsOwner(), c.host[ServerCert], call.entropy);
      if draft.Ok? {
        var after := c.host[part := draft.value];
        assert after[part] == draft.value && after[ServerCert] == c.host[ServerCert];
      }
    }
  }

  /** A created object joins the prefix and disturbs none of the others. */
  lemma CreationOk(setup: Setup, owner: OwnerReference, host: map<Part, HostObject>, part: Part, draft: HostObject)
    requires HostOk(setup, owner, host) && Before(part, host) && part !in host
    requires ObjectOk(setup, owner, host[part := draft], part)
    ensures HostOk(setup, owner, host[part := draft])
  {
    hide Draft, DraftKubeconfig, ApiserverSpec, ManagerSpec;
    var after := host[part := draft];
    forall p | p in after ensures Before(p, after) && ObjectOk(setup, owner, after, p) {
      if p != part {
        assert Before(p, host) && ObjectOk(setup, owner, host, p);
        assert IsKubeconfig(p) ==> ServerCert in host;
      }
    }
  }

  lemma CreatingKeepsInv(setup: Setup, c: Cell, call: Call)
    requires Inv(setup, c) && c.proc.Creating?
    ensures Inv(setup, AfterCall(setup, c, call))
  {
    var seen, part, draft := c.proc.seen, c.proc.part, c.proc.draft;
    var stored := c.(host := if call.outcome.Refused? then c.host else c.host[part := draft], proc := Idle);
    if !call.outcome.Refused? {
      assert seen.AsOwner() == c.tenant.value.AsOwner();
      CreationOk(setup, c.tenant.value.AsOwner(), c.host, part, draft);
    }
    assert Complete(c.host) ==> Complete(stored.host);
    assert Before(part, stored.host);
    if call.outcome.Answered? {
      PartExistsOk(setup, stored, seen, part, call.now);
    } else {
      PartFailedOk(setup, stored, seen, part, call.now);
    }
  }

  lemma CheckingKeepsInv(setup: Setup, c: Cell, call: Call)
    requires Inv(setup, c) && c.proc.Checking?
    ensures Inv(setup, AfterCall(setup, c, call))
  {
    hide Draft, DraftKubeconfig, ApiserverSpec, ManagerSpec, DerivePhase;
    var seen, mem := c.proc.seen, c.proc.mem;
    DeferOk(setup, c, seen, mem, Failed);
    DeferOk(setup, c, seen, mem, Requeue);
    MarkReadyOk(mem, call.now);
    DeferOk(setup, c, seen, MarkReady(mem, call.now), Finished);
  }

  lemma RereadingKeepsInv(setup: Setup, c: Cell, call: Call)
    requires Inv(setup, c) && c.proc.Rereading?
    ensures Inv(setup, AfterCall(setup, c, call))
  {
    var seen, mem, verdict := c.proc.seen, c.proc.mem, c.proc.verdict;
    if call.outcome.Answered? && c.tenant.Some? {
      var base := c.tenant.value;
      var goal := Overwrite(base, mem);
      MainDiffersMeans(base, goal);
      StatusDiffersMeans(base, goal);
      assert GoalOk(c, seen, goal, verdict);
    }
  }

  /** The main patch of the reconcile in flight changes the finalizers, if the server accepts it, and nothing else. */
  lemma MainPatchEffect(cur: Tenant, base: Tenant, goal: Tenant, outcome: Outcome)
    requires SameOwned(cur, base) && goal == Overwrite(base, goal)
    requires goal.owners == base.owners && goal.finalizers != base.finalizers
    ensures var t := cur.(finalizers := goal.finalizers);
            MainEndpoint(Some(cur), PatchBetween(base, goal), outcome) ==
            if cur.Deleting() && exists f :: f in goal.finalizers && f !in cur.finalizers then (Some(cur), None)
            else (if outcome.Refused? then Some(cur) else if t.Deleting() && t.finalizers == [] then None else Some(t),
                  if outcome.Answered? then Some(t) else None)
  {
    MainPatchByField(cur, base, goal);
  }

  /** The status patch of the reconcile in flight changes the phase and the conditions, and nothing else. */
  lemma StatusPatchEffect(cur: Tenant, base: Tenant, goal: Tenant, outcome: Outcome)
    requires SameStatus(cur, base)
    ensures var t := cur.(phase := goal.phase, conditions := goal.conditions);
            StatusEndpoint(Some(cur), PatchBetween(base, goal), outcome) ==
            (if outcome.Refused? then Some(cur) else Some(t), if outcome.Answered? then Some(t) else None)
  {
    StatusPatchByField(cur, base, goal);
  }

  lemma FinalizerAddedKeepsInv(setup: Setup, c: Cell, call: Call)
    requires Inv(setup, c) && c.proc.PatchingMain? && !c.proc.seen.Guarded() && c.tenant.Some?
    ensures Inv(setup, AfterCall(setup, c, call))
  {
    hide PatchBetween, Decode, Encode, PatchMain, StatusDiffers, Draft, DraftKubeconfig;
    var seen, base, goal, verdict := c.proc.seen, c.proc.base, c.proc.goal, c.proc.verdict;
    var cur := c.tenant.value;
    MainPatchEffect(cur, base, goal, call.outcome);
    if cur.Deleting() {
      assert FINALIZER in goal.finalizers && FINALIZER !in cur.finalizers;
    } else {
      var t := cur.(finalizers := goal.finalizers);
      assert t.AsOwner() == cur.AsOwner();
      StatusDiffersMeans(base, goal);
      assert FINALIZER in goal.finalizers;
      assert GoalOk(c.(tenant := Some(t)), seen, t.(phase := goal.phase, conditions := goal.conditions), verdict);
    }
  }

  lemma FinalizerRemovedKeepsInv(setup: Setup, c: Cell, call: Call)
    requires Inv(setup, c) && c.proc.PatchingMain? && c.proc.seen.Guarded()
    ensures Inv(setup, AfterCall(setup, c, call))
  {
    var base, goal := c.proc.base, c.proc.goal;
    var cur := c.tenant.value;
    MainPatchEffect(cur, base, goal, call.outcome);
    assert forall f :: f in goal.finalizers ==> f in cur.finalizers;
    assert cur.(finalizers := goal.finalizers).AsOwner() == cur.AsOwner();
    StatusDiffersMeans(base, goal);
  }

  lemma PatchingMainKeepsInv(setup: Setup, c: Cell, call: Call)
    requires Inv(setup, c) && c.proc.PatchingMain?
    ensures Inv(setup, AfterCall(setup, c, call))
  {
    if c.proc.seen.Guarded() {
      FinalizerRemovedKeepsInv(setup, c, call);
    } else if c.tenant.Some? {
      FinalizerAddedKeepsInv(setup, c, call);
    }
  }

  lemma PatchingStatusKeepsInv(setup: Setup, c: Cell, call: Call)
    requires Inv(setup, c) && c.proc.PatchingStatus?
    ensures Inv(setup, AfterCall(setup, c, call))
  {
    var cur := c.tenant.value;
    StatusPatchEffect(cur, c.proc.base, c.proc.goal, call.outcome);
    assert cur.(phase := c.proc.goal.phase, conditions := c.proc.goal.conditions).AsOwner() == cur.AsOwner();
  }

  lemma AfterCallKeepsInv(setup: Setup, c: Cell, call: Call)
    requires Inv(setup, c)
    ensures Inv(setup, AfterCall(setup, c, call))
  {
    hide HostOk, StatusOk, GoalOk, ObjectOk;
    match c.proc
    case Idle =>
    case Returned(_, _, _) =>
    case Reading => if c.tenant.Some? { DispatchOk(setup, c); }
    case Probing(_, _) => ProbingKeepsInv(setup, c, call);
    case ReadingCA(_, _) => ReadingCAKeepsInv(setup, c, call);
    case Creating(_, _, _) => CreatingKeepsInv(setup, c, call);
    case Checking(_, _, _) => CheckingKeepsInv(setup, c, call);
    case Rereading(_, _, _) => RereadingKeepsInv(setup, c, call);
    case PatchingMain(_, _, _, _) => PatchingMainKeepsInv(setup, c, call);
    case PatchingStatus(_, _, _, _, _) => PatchingStatusKeepsInv(setup, c, call);
  }

  lemma StepKeepsInv(setup: Setup, c: Cell, e: Event)
    requires Inv(setup, c)
    ensures Inv(setup, Step(setup, c, e))
  {
    match e
    case Surroundings(env) => AfterEnvKeepsInv(setup, c, env);
    case Begin =>
    case Perform(call) =>
      AfterEnvsKeepInv(setup, c, call.before);
      AfterCallKeepsInv(setup, AfterEnvs(setup.name, c, call.before), call);
    case Crash =>
  }

  lemma {:induction false} RunKeepsInv(setup: Setup, c: Cell, es: seq<Event>)
    requires Inv(setup, c)
    ensures Inv(setup, Run(setup, c, es))
    decreases es
  {
    if es != [] {
      StepKeepsInv(setup, c, es[0]);
      RunKeepsInv(setup, Step(setup, c, es[0]), es[1..]);
    }
  }

  /** The invariant holds in every state a tenant can get into. */
  lemma ReachableInv(setup: Setup, c: Cell)
    requires Reachable(setup, c)
    ensures Inv(setup, c)
  {
    var es :| c == Run(setup, EMPTY, es);
    RunKeepsInv(setup, EMPTY, es);
  }
}
