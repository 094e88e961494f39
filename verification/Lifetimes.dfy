/** What holds over whole runs: order of creation, truth of the status, bounded writes, no stall. */
module Lifetimes {
  import opened Tenants
  import opened TenantPatches
  import opened HostObjects
  import opened Protocol
  import opened Invariants
  import C = Conditions

  // ---------- In every reachable state ----------

  /** The objects present are a prefix of the order of creation. */
  lemma ObjectsArePrefix(setup: Setup, c: Cell, p: Part, q: Part)
    requires Reachable(setup, c) && c.tenant.Some?
    ensures q in c.host && Position(p) < Position(q) ==> p in c.host
  {
    ReachableInv(setup, c);
    if q in c.host { assert Before(q, c.host); }
  }

  /** Ready implies Provisioned, and Provisioned implies that all seven objects exist. */
  lemma StatusIsTrue(setup: Setup, c: Cell)
    requires Reachable(setup, c) && c.tenant.Some?
    ensures C.IsTrue(c.tenant.value.conditions, READY_CONDITION) ==>
            C.IsTrue(c.tenant.value.conditions, PROVISIONED_CONDITION)
    ensures C.IsTrue(c.tenant.value.conditions, PROVISIONED_CONDITION) ==> forall p: Part :: p in c.host
    ensures !C.IsFalse(c.tenant.value.conditions, READY_CONDITION)
  {
    ReachableInv(setup, c);
  }

  /** Failed, Unknown and any other phase the code never sets are unreachable. */
  lemma PhaseIsKnown(setup: Setup, c: Cell)
    requires Reachable(setup, c) && c.tenant.Some?
    ensures c.tenant.value.phase in {"", PENDING, PROVISIONING, PROVISIONED, READY, TERMINATING}
    ensures c.tenant.value.phase == TERMINATING ==> c.tenant.value.Deleting()
    ensures var phase, conditions := c.tenant.value.phase, c.tenant.value.conditions;
            && (phase in {"", PENDING} ==> !C.Has(conditions, PROVISIONED_CONDITION))
            && (phase == PROVISIONING ==> C.IsFalse(conditions, PROVISIONED_CONDITION))
            && (phase in {PROVISIONED, READY} ==> C.IsTrue(conditions, PROVISIONED_CONDITION))
            && (phase != TERMINATING ==> (phase == READY <==> C.Has(conditions, READY_CONDITION)))
  {
    ReachableInv(setup, c);
    PhasesAreDistinct();
  }

  // ---------- Steps ----------

  /** The state an API call meets: whatever preceded it has happened. */
  function Met(setup: Setup, c: Cell, e: Event): Cell {
    if e.Perform? then AfterEnvs(setup.name, c, e.call.before) else c
  }

  lemma MetOk(setup: Setup, c: Cell, e: Event)
    requires Inv(setup, c)
    ensures Inv(setup, Met(setup, c, e))
  {
    if e.Perform? { AfterEnvsKeepInv(setup, c, e.call.before); }
  }

  /** The state in which the i-th event of a run happens. */
  function StateAt(setup: Setup, c: Cell, es: seq<Event>, i: nat): Cell
    requires i <= |es|
  {
    Run(setup, c, es[..i])
  }

  lemma SnocRun(setup: Setup, c: Cell, es: seq<Event>)
    ensures es != [] ==> Run(setup, c, es) == Step(setup, Run(setup, c, es[..|es| - 1]), es[|es| - 1])
  {
    if es != [] {
      RunConcat(setup, c, es[..|es| - 1], [es[|es| - 1]]);
      assert es == es[..|es| - 1] + [es[|es| - 1]];
    }
  }

  /** The call changed the stored finalizers, or removed the Tenant. */
  predicate WritesMain(setup: Setup, c: Cell, e: Event) {
    e.Perform? && Met(setup, c, e).proc.PatchingMain? && Step(setup, c, e).tenant != Met(setup, c, e).tenant
  }

  predicate WritesStatus(setup: Setup, c: Cell, e: Event) {
    e.Perform? && Met(setup, c, e).proc.PatchingStatus? && Step(setup, c, e).tenant != Met(setup, c, e).tenant
  }

  predicate Creates(setup: Setup, c: Cell, e: Event) {
    e.Perform? && Met(setup, c, e).proc.Creating? && Step(setup, c, e).host != Met(setup, c, e).host
  }

  function One(b: bool): nat { if b then 1 else 0 }

  function MainWrites(setup: Setup, c: Cell, es: seq<Event>): nat
    decreases es
  {
    if es == [] then 0 else One(WritesMain(setup, c, es[0])) + MainWrites(setup, Step(setup, c, es[0]), es[1..])
  }

  function StatusWrites(setup: Setup, c: Cell, es: seq<Event>): nat
    decreases es
  {
    if es == [] then 0 else One(WritesStatus(setup, c, es[0])) + StatusWrites(setup, Step(setup, c, es[0]), es[1..])
  }

  function Creations(setup: Setup, c: Cell, es: seq<Event>): nat
    decreases es
  {
    if es == [] then 0 else One(Creates(setup, c, es[0])) + Creations(setup, Step(setup, c, es[0]), es[1..])
  }

  /** No user creates the tenant anew: the run stays within one lifetime. */
  predicate OneLife(es: seq<Event>) {
    forall e | e in es :: WithinLife(e)
  }

  predicate WithinLife(e: Event) {
    (e.Surroundings? ==> !e.env.UserCreates?) && (e.Perform? ==> forall x | x in e.call.before :: !x.UserCreates?)
  }

  predicate Undeleted(es: seq<Event>) {
    forall e | e in es :: SparesTenant(e)
  }

  predicate SparesTenant(e: Event) {
    WithinLife(e) &&
    (e.Surroundings? ==> !e.env.UserDeletes?) && (e.Perform? ==> forall x | x in e.call.before :: !x.UserDeletes?)
  }

  // ---------- The rank of a life ----------

  /** Finalizer not yet stored, stored, or out of reach for good. */
  function Stage(c: Cell): nat {
    if c.tenant.None? then 2 else if c.tenant.value.Guarded() then 1 else if c.tenant.value.Deleting() then 2 else 0
  }

  function Phase(c: Cell): nat { if c.tenant.None? then 5 else PhaseRank(c.tenant.value.phase) }

  function Objects(c: Cell): nat { if c.tenant.None? then 7 else |c.host| }

  /** Objects with the same content; only the status of a deployment may differ. */
  predicate SameObject(a: HostObject, b: HostObject) {
    a == b || (a.Deployment? && b.Deployment? && a.owners == b.owners && a.spec == b.spec)
  }

  /** Within a life and while the tenant lives, objects are neither lost nor rewritten. */
  ghost predicate KeepsObjects(c: Cell, d: Cell) {
    d.tenant.Some? ==> forall p | p in c.host :: p in d.host && SameObject(c.host[p], d.host[p])
  }

  ghost predicate NoRegress(c: Cell, d: Cell) {
    && (c.tenant.None? ==> d.tenant.None?)
    && (c.tenant.Some? && d.tenant.Some? && c.tenant.value.Deleting() ==> d.tenant.value.Deleting())
    && Stage(c) <= Stage(d) && Phase(c) <= Phase(d) && Objects(c) <= Objects(d)
    && KeepsObjects(c, d)
  }

  lemma HostIsSmall(host: map<Part, HostObject>)
    ensures |host| <= 7
  {
    forall p: Part ensures p in PARTS {
      match p
      case HostNamespace => case ServerCert => case AdminConfig => case ManagerConfig =>
      case Apiserver => case ApiserverService => case Manager =>
    }
    SubsetIsSmaller(host.Keys, PARTS);
    assert |host| == |host.Keys|;
  }

  lemma {:induction false} SubsetIsSmaller(a: set<Part>, b: set<Part>)
    requires a <= b
    ensures |a| <= |b|
  {
    if a != {} {
      var x :| x in a;
      SubsetIsSmaller(a - {x}, b - {x});
    }
  }

  lemma NoRegressTransitive(c: Cell, d: Cell, e: Cell)
    requires NoRegress(c, d) && NoRegress(d, e)
    ensures NoRegress(c, e)
  {
  }

  lemma ReportDoesNotRegress(setup: Setup, c: Cell, part: Part, replicas: int, readyReplicas: int)
    ensures NoRegress(c, AfterEnv(setup.name, c, StatusReported(part, replicas, readyReplicas)))
  {
    var d := AfterEnv(setup.name, c, StatusReported(part, replicas, readyReplicas));
    assert d.host.Keys == c.host.Keys;
    assert |d.host| == |d.host.Keys| && |c.host| == |c.host.Keys|;
  }

  lemma EnvDoesNotRegress(setup: Setup, c: Cell, e: Env)
    requires Inv(setup, c) && !e.UserCreates?
    ensures NoRegress(c, AfterEnv(setup.name, c, e))
  {
    hide Draft, DraftKubeconfig, ApiserverSpec, ManagerSpec;
    HostIsSmall(c.host);
    PhasesAreDistinct();
    match e
    case Collected(part) =>
      if part in c.host && c.tenant.Some? { LiveObjectsHaveOwner(setup, c.tenant.value, c.host, part); }
    case StatusReported(part, replicas, readyReplicas) => ReportDoesNotRegress(setup, c, part, replicas, readyReplicas);
    case _ =>
  }

  lemma {:induction false} EnvsDoNotRegress(setup: Setup, c: Cell, es: seq<Env>)
    requires Inv(setup, c) && forall x | x in es :: !x.UserCreates?
    ensures NoRegress(c, AfterEnvs(setup.name, c, es))
    decreases es
  {
    if es != [] {
      var d := AfterEnv(setup.name, c, es[0]);
      EnvDoesNotRegress(setup, c, es[0]);
      AfterEnvKeepsInv(setup, c, es[0]);
      EnvsDoNotRegress(setup, d, es[1..]);
      NoRegressTransitive(c, d, AfterEnvs(setup.name, c, es));
    }
  }

  lemma OtherCallsWriteNothing(setup: Setup, c: Cell, call: Call)
    requires !c.proc.PatchingMain? && !c.proc.PatchingStatus? && !c.proc.Creating?
    ensures AfterCall(setup, c, call).tenant == c.tenant && AfterCall(setup, c, call).host == c.host
  {
  }

  /** A main patch that takes effect moves the finalizer on, and touches nothing else. */
  lemma MainWriteAdvances(setup: Setup, c: Cell, call: Call)
    requires Inv(setup, c) && c.proc.PatchingMain?
    ensures var d := AfterCall(setup, c, call);
            NoRegress(c, d) && d.host == c.host && (d.tenant != c.tenant ==> Stage(c) < Stage(d))
    ensures var d := AfterCall(setup, c, call);
            c.tenant.Some? && c.tenant.value.Guarded() && d.tenant != c.tenant ==>
              c.tenant.value.Deleting() && c.tenant.value.phase == TERMINATING && d.proc.Returned?
  {
    HostIsSmall(c.host);
    PhasesAreDistinct();
    if c.tenant.Some? {
      var cur, base, goal := c.tenant.value, c.proc.base, c.proc.goal;
      MainPatchEffect(cur, base, goal, call.outcome);
      StatusDiffersMeans(base, goal);
      if !c.proc.seen.Guarded() { assert FINALIZER in goal.finalizers && FINALIZER !in cur.finalizers; }
    }
  }

  /** A status patch that takes effect moves the phase on, and touches nothing else. */
  lemma StatusWriteAdvances(setup: Setup, c: Cell, call: Call)
    requires Inv(setup, c) && c.proc.PatchingStatus?
    ensures var d := AfterCall(setup, c, call);
            NoRegress(c, d) && d.host == c.host && (d.tenant != c.tenant ==> Phase(c) < Phase(d)) &&
            Stage(c) == Stage(d)
  {
    hide PatchBetween, StatusEndpoint, HostOk;
    StatusPatchEffect(c.tenant.value, c.proc.base, c.proc.goal, call.outcome);
  }

  /** A create that takes effect adds one object, for a Tenant that stores our finalizer. */
  lemma CreationAdvances(setup: Setup, c: Cell, call: Call)
    requires Inv(setup, c) && c.proc.Creating?
    ensures var d := AfterCall(setup, c, call);
            NoRegress(c, d) && d.tenant == c.tenant && (d.host != c.host ==> Objects(c) < Objects(d))
    ensures c.tenant.Some? && c.tenant.value.Guarded()
  {
    assert |c.host.Keys| == |c.host|;
    var more := c.host[c.proc.part := c.proc.draft];
    assert more.Keys == c.host.Keys + {c.proc.part};
    assert |more.Keys| == |more|;
  }

  lemma CallDoesNotRegress(setup: Setup, c: Cell, call: Call)
    requires Inv(setup, c)
    ensures NoRegress(c, AfterCall(setup, c, call))
  {
    if c.proc.PatchingMain? { MainWriteAdvances(setup, c, call); }
    else if c.proc.PatchingStatus? { StatusWriteAdvances(setup, c, call); }
    else if c.proc.Creating? { CreationAdvances(setup, c, call); }
    else { OtherCallsWriteNothing(setup, c, call); }
  }

  /** No step of a life takes back the finalizer stage, the phase, an object, or the content of one. */
  lemma StepDoesNotRegress(setup: Setup, c: Cell, e: Event)
    requires Inv(setup, c) && WithinLife(e)
    ensures NoRegress(c, Step(setup, c, e))
    ensures NoRegress(c, Met(setup, c, e)) && NoRegress(Met(setup, c, e), Step(setup, c, e))
    ensures WritesMain(setup, c, e) ==> Stage(Met(setup, c, e)) < Stage(Step(setup, c, e))
    ensures WritesStatus(setup, c, e) ==> Phase(Met(setup, c, e)) < Phase(Step(setup, c, e))
    ensures Creates(setup, c, e) ==> Objects(Met(setup, c, e)) < Objects(Step(setup, c, e))
  {
    hide AfterCall, AfterEnvs, AfterEnv, Inv;
    match e
    case Surroundings(env) => EnvDoesNotRegress(setup, c, env);
    case Begin =>
    case Crash =>
    case Perform(call) =>
      var d := Met(setup, c, e);
      MetOk(setup, c, e);
      EnvsDoNotRegress(setup, c, call.before);
      CallDoesNotRegress(setup, d, call);
      NoRegressTransitive(c, d, Step(setup, c, e));
      if d.proc.PatchingMain? { MainWriteAdvances(setup, d, call); }
      if d.proc.PatchingStatus? { StatusWriteAdvances(setup, d, call); }
      if d.proc.Creating? { CreationAdvances(setup, d, call); }
  }

  lemma {:induction false} RunDoesNotRegress(setup: Setup, c: Cell, es: seq<Event>)
    requires Inv(setup, c) && OneLife(es)
    ensures NoRegress(c, Run(setup, c, es))
    decreases es
  {
    if es != [] {
      StepDoesNotRegress(setup, c, es[0]);
      StepKeepsInv(setup, c, es[0]);
      RunDoesNotRegress(setup, Step(setup, c, es[0]), es[1..]);
      NoRegressTransitive(c, Step(setup, c, es[0]), Run(setup, c, es));
    }
  }

  /** The stored phase only ever moves forward, and Terminating is for good. */
  lemma PhaseIsMonotone(setup: Setup, c: Cell, es: seq<Event>)
    requires Reachable(setup, c) && OneLife(es) && c.tenant.Some? && Run(setup, c, es).tenant.Some?
    ensures PhaseRank(c.tenant.value.phase) <= PhaseRank(Run(setup, c, es).tenant.value.phase)
    ensures c.tenant.value.phase == TERMINATING ==> Run(setup, c, es).tenant.value.phase == TERMINATING
  {
    ReachableInv(setup, c);
    RunDoesNotRegress(setup, c, es);
    RunKeepsInv(setup, c, es);
    PhasesAreDistinct();
  }

  /** Once made, an object of a live tenant keeps its content through any run. */
  lemma ObjectsAreWrittenOnce(setup: Setup, c: Cell, es: seq<Event>, p: Part)
    requires Reachable(setup, c) && OneLife(es) && Run(setup, c, es).tenant.Some?
    ensures p in c.host ==> p in Run(setup, c, es).host && SameObject(c.host[p], Run(setup, c, es).host[p])
  {
    ReachableInv(setup, c);
    RunDoesNotRegress(setup, c, es);
  }

  /**
   Every write that takes effect strictly raises a bounded rank, so one life sees at most two
   main patches, five status patches and seven creates, however long it lasts.
   */
  lemma {:induction false} WritesAreRanked(setup: Setup, c: Cell, es: seq<Event>)
    requires Inv(setup, c) && OneLife(es)
    ensures Stage(c) + MainWrites(setup, c, es) <= Stage(Run(setup, c, es)) <= 2
    ensures Phase(c) + StatusWrites(setup, c, es) <= Phase(Run(setup, c, es)) <= 5
    ensures Objects(c) + Creations(setup, c, es) <= Objects(Run(setup, c, es)) <= 7
    decreases es
  {
    if es == [] {
      PhasesAreDistinct();
      HostIsSmall(c.host);
    } else {
      StepDoesNotRegress(setup, c, es[0]);
      StepKeepsInv(setup, c, es[0]);
      WritesAreRanked(setup, Step(setup, c, es[0]), es[1..]);
    }
  }

  lemma WritesAreBounded(setup: Setup, c: Cell, es: seq<Event>)
    requires Reachable(setup, c) && OneLife(es)
    ensures MainWrites(setup, c, es) <= 2 && StatusWrites(setup, c, es) <= 5 && Creations(setup, c, es) <= 7
  {
    ReachableInv(setup, c);
    WritesAreRanked(setup, c, es);
  }

  // ---------- Finalizer discipline ----------

  /** No object is created before the finalizer is stored. */
  lemma CreatesUnderFinalizer(setup: Setup, c: Cell, e: Event)
    requires Reachable(setup, c) && Creates(setup, c, e)
    ensures Met(setup, c, e).tenant.Some? && Met(setup, c, e).tenant.value.Guarded()
  {
    ReachableInv(setup, c);
    MetOk(setup, c, e);
  }

  predicate HoldsFinalizer(c: Cell) { c.tenant.Some? && c.tenant.value.Guarded() }

  lemma {:induction false} EnvsKeepFinalizer(setup: Setup, c: Cell, es: seq<Env>)
    requires HoldsFinalizer(c)
    ensures HoldsFinalizer(AfterEnvs(setup.name, c, es))
    decreases es
  {
    if es != [] { EnvsKeepFinalizer(setup, AfterEnv(setup.name, c, es[0]), es[1..]); }
  }

  /**
   The finalizer leaves only by a main patch on a Tenant that already stored its deletion and the
   phase Terminating, and that patch ends its reconcile: no status patch follows.
   */
  lemma FinalizerLeavesLast(setup: Setup, c: Cell, e: Event)
    requires Reachable(setup, c) && HoldsFinalizer(c) && !HoldsFinalizer(Step(setup, c, e))
    ensures WritesMain(setup, c, e) && Met(setup, c, e).tenant.Some?
    ensures var t := Met(setup, c, e).tenant.value; t.Deleting() && t.phase == TERMINATING
    ensures Step(setup, c, e).proc.Returned?
  {
    hide HostOk, StatusOk;
    ReachableInv(setup, c);
    MetOk(setup, c, e);
    if e.Surroundings? { EnvsKeepFinalizer(setup, c, [e.env]); }
    if e.Perform? {
      var d := Met(setup, c, e);
      EnvsKeepFinalizer(setup, c, e.call.before);
      if d.proc.PatchingMain? { MainWriteAdvances(setup, d, e.call); }
      else if d.proc.PatchingStatus? { StatusWriteAdvances(setup, d, e.call); }
      else if d.proc.Creating? { CreationAdvances(setup, d, e.call); }
      else { OtherCallsWriteNothing(setup, d, e.call); }
    }
  }

  // ---------- No stall ----------

  predicate SaysWrote(p: Proc) { (p.PatchingStatus? || p.Returned?) && p.wrote }

  function TenantWrites(setup: Setup, c: Cell, es: seq<Event>): nat {
    MainWrites(setup, c, es) + StatusWrites(setup, c, es)
  }

  lemma {:induction false} EnvsKeepNote(setup: Setup, c: Cell, es: seq<Env>)
    ensures SaysWrote(AfterEnvs(setup.name, c, es).proc) ==> SaysWrote(c.proc)
    decreases es
  {
    if es != [] { EnvsKeepNote(setup, AfterEnv(setup.name, c, es[0]), es[1..]); }
  }

  lemma CallNotesTruly(setup: Setup, c: Cell, call: Call)
    requires SaysWrote(AfterCall(setup, c, call).proc) && !SaysWrote(c.proc)
    ensures (c.proc.PatchingMain? || c.proc.PatchingStatus?) && AfterCall(setup, c, call).tenant != c.tenant
  {
    hide StatusDiffers, MainDiffers, PatchBetween, MainEndpoint, StatusEndpoint, DerivePhase;
  }

  lemma StepNotesTruly(setup: Setup, c: Cell, e: Event)
    requires SaysWrote(Step(setup, c, e).proc) && !SaysWrote(c.proc)
    ensures WritesMain(setup, c, e) || WritesStatus(setup, c, e)
  {
    if e.Perform? {
      hide AfterCall, AfterEnvs;
      EnvsKeepNote(setup, c, e.call.before);
      CallNotesTruly(setup, Met(setup, c, e), e.call);
    }
  }

  /** A reconcile notes that it wrote the Tenant only if it did. */
  lemma {:induction false} NoteIsTrue(setup: Setup, c: Cell, es: seq<Event>)
    requires SaysWrote(Run(setup, c, es).proc) && !SaysWrote(c.proc)
    ensures TenantWrites(setup, c, es) >= 1
    decreases es
  {
    hide AfterCall, AfterEnvs;
    var e := es[0];
    var d := Step(setup, c, e);
    if SaysWrote(d.proc) {
      StepNotesTruly(setup, c, e);
    } else {
      NoteIsTrue(setup, d, es[1..]);
    }
  }

  /**
   A reconcile, from its start to its end, that reports no error and no requeue leaves the tenant
   gone, or stored as Ready and read as not being deleted, or has itself written to it and so made
   the event that brings the next reconcile.
   */
  lemma NoStall(setup: Setup, c: Cell, es: seq<Event>)
    requires Reachable(setup, c) && c.proc.Reading? && forall e | e in es :: !e.Begin?
    requires var end := Run(setup, c, es); end.proc.Returned? && end.proc.verdict.Finished?
    ensures var end := Run(setup, c, es);
            || end.tenant.None?
            || TenantWrites(setup, c, es) >= 1
            || (end.tenant.value.phase == READY && end.proc.saw.Some? && !end.proc.saw.value.Deleting())
  {
    ReachableInv(setup, c);
    RunKeepsInv(setup, c, es);
    if SaysWrote(Run(setup, c, es).proc) {
      NoteIsTrue(setup, c, es);
    }
  }
}
