/**
 The Tenant reconciler as a state machine over one tenant: what the API server stores for it,
 and how far the reconcile in flight has got. One step is one API call of the controller, with
 any outcome, or one action of its surroundings.
 */
module Protocol {
  import opened Wrappers
  import opened MergePatch
  import opened Certificates
  import opened Tenants
  import opened TenantPatches
  import opened HostObjects
  import C = Conditions

  // ---------- State ----------

  datatype Verdict = Finished | Requeue | Failed

  /**
   The next API call of a reconcile, with what it has in hand: the Tenant as first read, the one
   in memory, and for the deferred patch the Tenant as read again and the one to be stored.
   */
  datatype Proc =
    | Idle
    | Reading
    | Probing(seen: Tenant, part: Part)
    | ReadingCA(seen: Tenant, part: Part)
    | Creating(seen: Tenant, part: Part, draft: HostObject)
    | Checking(seen: Tenant, mem: Tenant, part: Part)
    | Rereading(seen: Tenant, mem: Tenant, verdict: Verdict)
    | PatchingMain(seen: Tenant, base: Tenant, goal: Tenant, verdict: Verdict)
    | PatchingStatus(seen: Tenant, base: Tenant, goal: Tenant, verdict: Verdict, wrote: bool)
    | Returned(verdict: Verdict, saw: Option<Tenant>, wrote: bool)
  {
    predicate AtRest() { Idle? || Returned? }
  }

  datatype Cell = Cell(tenant: Option<Tenant>, host: map<Part, HostObject>, proc: Proc)

  const EMPTY := Cell(None, map[], Idle)

  // ---------- Events ----------

  datatype Env =
    | UserCreates(uid: nat, labels: map<string, string>, annotations: map<string, string>,
                  finalizers: seq<string>, owners: seq<OwnerReference>)
    | UserDeletes(at: int)
    | UserEdits(labels: map<string, string>, annotations: map<string, string>)
    | StatusReported(part: Part, replicas: int, readyReplicas: int)
    | Collected(part: Part)

  /** An answer; a refusal that changed nothing; or an error reported although the call took effect. */
  datatype Outcome = Answered | Refused | Lost

  /**
   One API call: what happened since the previous one, how it turns out, and the randomness and
   clock that follow it.
   */
  datatype Call = Call(before: seq<Env>, outcome: Outcome, entropy: Entropy, now: int)

  datatype Event =
    | Surroundings(env: Env)
    | Begin
    | Perform(call: Call)
    | Crash

  // ---------- The API server ----------

  /** A user may reuse a name once nothing is left of its last bearer. */
  function AfterEnv(name: string, c: Cell, e: Env): Cell {
    match e
    case UserCreates(uid, labels, annotations, finalizers, owners) =>
      if c.tenant.None? && c.host == map[] && c.proc.AtRest()
      then Cell(Some(Tenant(name, uid, labels, annotations, finalizers, owners, C.Zero, "", [])), map[], Idle)
      else c
    case UserDeletes(at) =>
      (match c.tenant
       case None => c
       case Some(t) =>
         if t.finalizers == [] then c.(tenant := None)
         else if t.Deleting() then c
         else c.(tenant := Some(t.(deletionTimestamp := C.Second(at)))))
    case UserEdits(labels, annotations) =>
      (match c.tenant
       case None => c
       case Some(t) => c.(tenant := Some(t.(labels := labels, annotations := annotations))))
    case StatusReported(part, replicas, readyReplicas) =>
      if part in c.host && c.host[part].Deployment?
      then c.(host := c.host[part := c.host[part].(replicas := replicas, readyReplicas := readyReplicas)])
      else c
    case Collected(part) =>
      if part in c.host && Orphaned(c.tenant, c.host[part]) then c.(host := c.host - {part}) else c
  }

  /** Garbage collection takes an object all of whose owners are gone. */
  predicate Orphaned(tenant: Option<Tenant>, o: HostObject) {
    o.owners != [] && forall i | 0 <= i < |o.owners| :: tenant.None? || tenant.value.uid != o.owners[i].uid
  }

  function AfterEnvs(name: string, c: Cell, es: seq<Env>): Cell
    decreases es
  {
    if es == [] then c else AfterEnvs(name, AfterEnv(name, c, es[0]), es[1..])
  }

  /**
   A patch through the main endpoint: what is stored after it and, if it was answered, the response.
   A Tenant being deleted accepts no new finalizer, and vanishes with its last one.
   */
  function MainEndpoint(stored: Option<Tenant>, patch: Json, outcome: Outcome): (Option<Tenant>, Option<Tenant>)
    requires patch.Obj?
  {
    match stored
    case None => (None, None)
    case Some(cur) =>
      match Decode(PatchMain(Encode(cur), patch))
      case None => (stored, None)
      case Some(t) =>
        if cur.Deleting() && exists f :: f in t.finalizers && f !in cur.finalizers then (stored, None)
        else
          var after := if t.Deleting() && t.finalizers == [] then None else Some(t);
          (if outcome.Refused? then stored else after, if outcome.Answered? then Some(t) else None)
  }

  /** A patch through the status endpoint. */
  function StatusEndpoint(stored: Option<Tenant>, patch: Json, outcome: Outcome): (Option<Tenant>, Option<Tenant>)
    requires patch.Obj?
  {
    match stored
    case None => (None, None)
    case Some(cur) =>
      match Decode(PatchStatus(Encode(cur), patch))
      case None => (stored, None)
      case Some(t) => (if outcome.Refused? then stored else Some(t), if outcome.Answered? then Some(t) else None)
  }

  // ---------- The controller ----------

  const PROVISIONED_CONDITION := "Provisioned"
  const READY_CONDITION := "Ready"

  /** The phase that follows from the old phase, the conditions and the deletion timestamp; later rules win. */
  function DerivePhase(t: Tenant): string {
    if t.Deleting() then TERMINATING
    else if C.IsTrue(t.conditions, READY_CONDITION) then READY
    else if C.IsFalse(t.conditions, READY_CONDITION) then FAILED
    else if C.IsTrue(t.conditions, PROVISIONED_CONDITION) then PROVISIONED
    else if C.IsFalse(t.conditions, PROVISIONED_CONDITION) then PROVISIONING
    else if t.phase == "" then PENDING
    else t.phase
  }

  predicate NeedsProvisioning(t: Tenant) {
    !C.Has(t.conditions, PROVISIONED_CONDITION) || C.IsFalse(t.conditions, PROVISIONED_CONDITION)
  }

  function MarkProvisioned(t: Tenant, now: int): Tenant {
    t.(conditions := C.MarkTrue(t.conditions, PROVISIONED_CONDITION, "Success", "Success to provision", now))
  }

  function MarkNotProvisioned(t: Tenant, now: int): Tenant {
    t.(conditions := C.MarkFalse(t.conditions, PROVISIONED_CONDITION, "Failed", "Failed to handle phase", now))
  }

  function MarkReady(t: Tenant, now: int): Tenant {
    t.(conditions := C.MarkTrue(t.conditions, READY_CONDITION, "Success", "Ready", now))
  }

  /** The reconcile is over but for the deferred patch. */
  function Defer(seen: Tenant, mem: Tenant, verdict: Verdict): Proc {
    Rereading(seen, mem.(phase := DerivePhase(mem)), verdict)
  }

  function Dispatch(t: Tenant): Proc {
    if !t.Guarded() then Defer(t, t.(finalizers := t.finalizers + [FINALIZER]), Finished)
    else if t.Deleting() then
      Defer(t, if t.phase == TERMINATING then t.(finalizers := Without(t.finalizers)) else t, Finished)
    else Probing(t, HostNamespace)
  }

  /** A failure to make the namespace is only reported; one in a later part is also recorded. */
  function PartFailed(seen: Tenant, part: Part, now: int): Proc {
    Defer(seen, if part.HostNamespace? then seen else MarkNotProvisioned(seen, now), Failed)
  }

  function PartExists(seen: Tenant, part: Part, now: int): Proc {
    match part
    case HostNamespace => if NeedsProvisioning(seen) then Probing(seen, ServerCert) else Checking(seen, seen, Apiserver)
    case ServerCert => Probing(seen, AdminConfig)
    case AdminConfig => Probing(seen, ManagerConfig)
    case ManagerConfig => Probing(seen, Apiserver)
    case Apiserver => Probing(seen, ApiserverService)
    case ApiserverService => Probing(seen, Manager)
    case Manager => Checking(seen, MarkProvisioned(seen, now), Apiserver)
  }

  function PartMissing(setup: Setup, seen: Tenant, part: Part, call: Call): Proc {
    if IsKubeconfig(part) then ReadingCA(seen, part)
    else
      match Draft(setup, part, seen.AsOwner(), call.entropy)
      case Ok(draft) => Creating(seen, part, draft)
      case Err => PartFailed(seen, part, call.now)
  }

  function CARead(setup: Setup, host: map<Part, HostObject>, seen: Tenant, part: Part, call: Call): Proc {
    if ServerCert !in host then PartFailed(seen, part, call.now)
    else
      match DraftKubeconfig(setup, part, seen.AsOwner(), host[ServerCert], call.entropy)
      case Ok(draft) => Creating(seen, part, draft)
      case Err => PartFailed(seen, part, call.now)
  }

  function Checked(host: map<Part, HostObject>, seen: Tenant, mem: Tenant, part: Part, now: int): Proc {
    if part !in host || !host[part].Deployment? then Defer(seen, mem, Failed)
    else if host[part].replicas != host[part].readyReplicas then Defer(seen, mem, Requeue)
    else if part.Apiserver? then Checking(seen, mem, Manager)
    else Defer(seen, MarkReady(mem, now), Finished)
  }

  /** What the deferred patch means to store: four fields from memory on the Tenant just read. */
  function Overwrite(base: Tenant, mem: Tenant): Tenant {
    base.(finalizers := mem.finalizers, owners := mem.owners, phase := mem.phase, conditions := mem.conditions)
  }

  function Reread(seen: Tenant, mem: Tenant, verdict: Verdict, base: Tenant): Proc {
    var goal := Overwrite(base, mem);
    if MainDiffers(base, goal) then PatchingMain(seen, base, goal, verdict)
    else if StatusDiffers(base, goal) then PatchingStatus(seen, base, goal, verdict, false)
    else Returned(verdict, Some(seen), false)
  }

  /** After the main patch the response is in memory, with the status to be stored put back. */
  function MainPatched(
      seen: Tenant, base: Tenant, goal: Tenant, verdict: Verdict, response: Tenant, wrote: bool)
    : Proc
  {
    if StatusDiffers(base, goal)
    then PatchingStatus(seen, base, response.(phase := goal.phase, conditions := goal.conditions), verdict, wrote)
    else Returned(verdict, Some(seen), wrote)
  }

  /** One API call of the reconcile in flight, taking effect on a state that no longer changes under it. */
  function AfterCall(setup: Setup, c: Cell, call: Call): Cell {
    var answered := call.outcome.Answered?;
    match c.proc
    case Idle => c
    case Returned(_, _, _) => c
    case Reading =>
      c.(proc := if !answered then Returned(Failed, None, false)
                 else match c.tenant case None => Returned(Finished, None, false) case Some(t) => Dispatch(t))
    case Probing(seen, part) =>
      c.(proc := if !answered then PartFailed(seen, part, call.now)
                 else if part in c.host then PartExists(seen, part, call.now)
                 else PartMissing(setup, seen, part, call))
    case ReadingCA(seen, part) =>
      c.(proc := if !answered then PartFailed(seen, part, call.now) else CARead(setup, c.host, seen, part, call))
    case Creating(seen, part, draft) =>
      if part in c.host then c.(proc := PartFailed(seen, part, call.now))
      else Cell(c.tenant,
                if call.outcome.Refused? then c.host else c.host[part := draft],
                if answered then PartExists(seen, part, call.now) else PartFailed(seen, part, call.now))
    case Checking(seen, mem, part) =>
      c.(proc := if !answered then Defer(seen, mem, Failed) else Checked(c.host, seen, mem, part, call.now))
    case Rereading(seen, mem, verdict) =>
      c.(proc := if !answered then Returned(Failed, Some(seen), false)
                 else match c.tenant
                      case None => Returned(verdict, Some(seen), false)
                      case Some(base) => Reread(seen, mem, verdict, base))
    case PatchingMain(seen, base, goal, verdict) =>
      var (stored, response) := MainEndpoint(c.tenant, PatchBetween(base, goal), call.outcome);
      var wrote := stored != c.tenant;
      Cell(stored, c.host,
           match response
           case None => Returned(Failed, Some(seen), wrote)
           case Some(r) => MainPatched(seen, base, goal, verdict, r, wrote))
    case PatchingStatus(seen, base, goal, verdict, wrote) =>
      var (stored, response) := StatusEndpoint(c.tenant, PatchBetween(base, goal), call.outcome);
      Cell(stored, c.host,
           Returned(if response.None? then Failed else verdict, Some(seen), wrote || stored != c.tenant))
  }

  function Step(setup: Setup, c: Cell, e: Event): Cell {
    match e
    case Surroundings(env) => AfterEnv(setup.name, c, env)
    case Begin => if c.proc.AtRest() then c.(proc := Reading) else c
    case Perform(call) => AfterCall(setup, AfterEnvs(setup.name, c, call.before), call)
    case Crash => c.(proc := Idle)
  }

  function Run(setup: Setup, c: Cell, es: seq<Event>): Cell
    decreases es
  {
    if es == [] then c else Run(setup, Step(setup, c, es[0]), es[1..])
  }

  lemma {:induction false} RunConcat(setup: Setup, c: Cell, a: seq<Event>, b: seq<Event>)
    ensures Run(setup, c, a + b) == Run(setup, Run(setup, c, a), b)
    decreases a
  {
    if a == [] {
      assert [] + b == b;
    } else {
      assert (a + b)[1..] == a[1..] + b;
      RunConcat(setup, Step(setup, c, a[0]), a[1..], b);
    }
  }

  /** The states a tenant can get into from nothing. */
  ghost predicate Reachable(setup: Setup, c: Cell) {
    exists es :: c == Run(setup, EMPTY, es)
  }
}
