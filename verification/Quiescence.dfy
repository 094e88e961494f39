/** When a reconcile writes nothing: exactly what makes the deferred patch write, and runs in which nothing does. */
module Quiescence {
  import opened Tenants
  import opened TenantPatches
  import opened HostObjects
  import opened Protocol
  import opened Invariants
  import opened Lifetimes
  import C = Conditions

  predicate PatchesTenant(p: Proc) { p.PatchingMain? || p.PatchingStatus? }

  predicate Settled(c: Cell) { c.tenant.Some? && c.tenant.value.phase == READY && !c.tenant.value.Deleting() }

  /** No reconcile of a Ready tenant is ever about to write anything. */
  lemma SettledIsQuiet(setup: Setup, c: Cell)
    requires Inv(setup, c) && Settled(c)
    ensures !PatchesTenant(c.proc) && !c.proc.Creating?
  {
    PhasesAreDistinct();
  }

  /** The user's doings, short of deletion, leave what the controller owns alone. */
  lemma {:induction false} EnvsSpareOwned(setup: Setup, c: Cell, es: seq<Env>)
    requires c.tenant.Some? && forall x | x in es :: !x.UserCreates? && !x.UserDeletes?
    ensures var d := AfterEnvs(setup.name, c, es);
            d.tenant.Some? && SameOwned(c.tenant.value, d.tenant.value) && d.proc == c.proc &&
            d.tenant.value.deletionTimestamp == c.tenant.value.deletionTimestamp
    decreases es
  {
    if es != [] { EnvsSpareOwned(setup, AfterEnv(setup.name, c, es[0]), es[1..]); }
  }

  ghost predicate Untroubled(c: Cell, d: Cell) {
    c.tenant.Some? && d.tenant.Some? && SameOwned(c.tenant.value, d.tenant.value) &&
    d.tenant.value.deletionTimestamp == c.tenant.value.deletionTimestamp
  }

  /** No call of the run so much as asks for a write to the Tenant. */
  predicate RequestsNoPatch(setup: Setup, c: Cell, es: seq<Event>)
    decreases es
  {
    es == [] ||
    (!(es[0].Perform? && PatchesTenant(Met(setup, c, es[0]).proc)) &&
     RequestsNoPatch(setup, Step(setup, c, es[0]), es[1..]))
  }

  predicate RequestsNoCreate(setup: Setup, c: Cell, es: seq<Event>)
    decreases es
  {
    es == [] ||
    (!(es[0].Perform? && Met(setup, c, es[0]).proc.Creating?) &&
     RequestsNoCreate(setup, Step(setup, c, es[0]), es[1..]))
  }

  lemma QuietStep(setup: Setup, c: Cell, e: Event)
    requires Inv(setup, c) && c.tenant.Some? && SparesTenant(e)
    requires e.Perform? ==> !PatchesTenant(Met(setup, c, e).proc)
    ensures Untroubled(c, Step(setup, c, e)) && Untroubled(c, Met(setup, c, e))
  {
    match e
    case Surroundings(env) => EnvsSpareOwned(setup, c, [env]);
    case Begin =>
    case Crash =>
    case Perform(call) =>
      EnvsSpareOwned(setup, c, call.before);
  }

  /** Once Ready is stored, and until the tenant is deleted, no reconcile requests any write, whatever faults occur. */
  lemma {:induction false} ReadyIsQuiescent(setup: Setup, c: Cell, es: seq<Event>)
    requires Inv(setup, c) && Settled(c) && Undeleted(es)
    ensures RequestsNoPatch(setup, c, es) && RequestsNoCreate(setup, c, es)
    ensures Settled(Run(setup, c, es)) && Untroubled(c, Run(setup, c, es))
    decreases es
  {
    if es != [] {
      var e := es[0];
      MetSpares(setup, c, e);
      MetOk(setup, c, e);
      SettledIsQuiet(setup, Met(setup, c, e));
      QuietStep(setup, c, e);
      StepKeepsInv(setup, c, e);
      ReadyIsQuiescent(setup, Step(setup, c, e), es[1..]);
    }
  }

  lemma MetSpares(setup: Setup, c: Cell, e: Event)
    requires c.tenant.Some? && SparesTenant(e)
    ensures Untroubled(c, Met(setup, c, e))
  {
    if e.Perform? { EnvsSpareOwned(setup, c, e.call.before); }
  }

  predicate Alive(c: Cell) { c.tenant.Some? && !c.tenant.value.Deleting() }

  lemma StepSparesTenant(setup: Setup, c: Cell, e: Event)
    requires Inv(setup, c) && Alive(c) && SparesTenant(e)
    ensures Alive(Step(setup, c, e))
  {
    hide PatchBetween, MainEndpoint, StatusEndpoint, HostOk, StatusOk, Draft, DraftKubeconfig, PartFailed,
         PartExists, DerivePhase;
    match e
    case Surroundings(env) => EnvsSpareOwned(setup, c, [env]);
    case Begin =>
    case Crash =>
    case Perform(call) =>
      var d := Met(setup, c, e);
      MetOk(setup, c, e);
      MetSpares(setup, c, e);
      if d.proc.PatchingMain? { MainPatchEffect(d.tenant.value, d.proc.base, d.proc.goal, call.outcome); }
      else if d.proc.PatchingStatus? { StatusPatchEffect(d.tenant.value, d.proc.base, d.proc.goal, call.outcome); }
  }

  /** A tenant nobody deletes stays. */
  lemma {:induction false} RunSparesTenant(setup: Setup, c: Cell, es: seq<Event>)
    requires Inv(setup, c) && Alive(c) && Undeleted(es)
    ensures Alive(Run(setup, c, es))
    decreases es
  {
    if es != [] {
      StepSparesTenant(setup, c, es[0]);
      StepKeepsInv(setup, c, es[0]);
      RunSparesTenant(setup, Step(setup, c, es[0]), es[1..]);
    }
  }

  // ---------- What makes the deferred patch write ----------

  /**
   The deferred patch, once it has read the Tenant again, asks for a write exactly if it moves the
   finalizer or carries a phase beyond the one read at the start.
   */
  lemma PatchIffProgress(setup: Setup, c: Cell, call: Call)
    requires Inv(setup, c) && c.proc.Rereading? && c.tenant.Some? && call.outcome.Answered?
    ensures var seen, mem := c.proc.seen, c.proc.mem;
            PatchesTenant(AfterCall(setup, c, call).proc) <==>
            mem.finalizers != seen.finalizers || PhaseRank(seen.phase) < PhaseRank(mem.phase)
  {
    var cur, goal := c.tenant.value, Overwrite(c.tenant.value, c.proc.mem);
    MainDiffersMeans(cur, goal);
    StatusDiffersMeans(cur, goal);
  }

  /** So every patch under way moves the finalizer, and every status patch moves the phase on. */
  lemma PatchesProgress(setup: Setup, c: Cell)
    requires Inv(setup, c)
    ensures c.proc.PatchingMain? ==> c.proc.goal.finalizers != c.proc.seen.finalizers
    ensures c.proc.PatchingStatus? ==> PhaseRank(c.proc.seen.phase) < PhaseRank(c.proc.goal.phase)
  {
  }

  // ---------- Retries ----------

  /** The reconcile in flight has come no further than what is stored of a live Tenant with our finalizer. */
  predicate Behind(c: Cell) {
    && Alive(c) && HoldsFinalizer(c) && c.tenant.value.phase != ""
    && match c.proc
       case Probing(seen, part) => part.HostNamespace? || seen.phase != PENDING
       case ReadingCA(seen, part) => part.HostNamespace? || seen.phase != PENDING
       case Creating(seen, part, _) => part.HostNamespace? || seen.phase != PENDING
       case Checking(seen, mem, _) => SameStatus(mem, seen)
       case Rereading(seen, mem, _) => mem.finalizers == seen.finalizers && SameStatus(mem, seen)
       case PatchingMain(_, _, _, _) => false
       case PatchingStatus(_, _, _, _, _) => false
       case _ => true
  }

  /**
   How far a reconcile must come to go beyond a stored phase: past the namespace for Pending, past
   the last object for Provisioning, past both deployments with equal counts for Provisioned.
   Nothing is beyond Ready.
   */
  predicate Past(phase: string, p: Proc) {
    if phase == PENDING then p.Probing? && p.part.ServerCert?
    else if phase == PROVISIONING then p.Checking?
    else phase == PROVISIONED && p.Rereading? && p.verdict.Finished?
  }

  /** No state that the run goes on to is past the stored phase. */
  predicate NeverPast(setup: Setup, c: Cell, es: seq<Event>)
    decreases es
  {
    es == [] ||
    var d := Step(setup, c, es[0]);
    !(d.tenant.Some? && Past(d.tenant.value.phase, d.proc)) && NeverPast(setup, d, es[1..])
  }

  /** A stored phase beyond the empty one is what its conditions call for. */
  lemma PhaseStays(t: Tenant)
    requires StatusOk(t.phase, t.conditions) && !t.Deleting() && t.phase != "" && t.phase != TERMINATING
    ensures DerivePhase(t) == t.phase
  {
    PhasesAreDistinct();
  }

  lemma DeferStaysBehind(c: Cell, seen: Tenant, mem: Tenant, verdict: Verdict)
    requires Alive(c) && HoldsFinalizer(c) && c.tenant.value.phase == seen.phase != ""
    requires StatusOk(seen.phase, seen.conditions) && !seen.Deleting() && seen.phase != TERMINATING
    requires mem == seen.(conditions := mem.conditions) && mem.conditions == seen.conditions
    ensures Behind(c.(proc := Defer(seen, mem, verdict)))
  {
    PhaseStays(seen);
    assert mem == seen;
  }

  /** Failing once more at a part changes nothing that is recorded already. */
  lemma FailedAgainStaysBehind(setup: Setup, c: Cell, seen: Tenant, part: Part, now: int)
    requires Inv(setup, c) && Alive(c) && HoldsFinalizer(c) && Working(c, seen) && seen.phase != ""
    requires part.HostNamespace? || (NeedsProvisioning(seen) && seen.phase != PENDING)
    ensures Behind(c.(proc := PartFailed(seen, part, now)))
  {
    PhasesAreDistinct();
    if !part.HostNamespace? {
      MarkNotProvisionedOk(seen, now);
      assert Recorded(seen.conditions) == 1;
    }
    DeferStaysBehind(c, seen, if part.HostNamespace? then seen else MarkNotProvisioned(seen, now), Verdict.Failed);
  }

  /** A part found or made leads on. */
  lemma PartThereStaysBehind(setup: Setup, c: Cell, seen: Tenant, part: Part, now: int)
    requires Inv(setup, c) && Alive(c) && HoldsFinalizer(c) && Working(c, seen) && seen.phase != ""
    requires part.HostNamespace? || (NeedsProvisioning(seen) && seen.phase != PENDING)
    requires !Past(seen.phase, PartExists(seen, part, now))
    ensures Behind(c.(proc := PartExists(seen, part, now)))
  {
    PhasesAreDistinct();
  }

  lemma ProbingStaysBehind(setup: Setup, c: Cell, call: Call)
    requires Inv(setup, c) && Behind(c) && c.proc.Probing? &&
             !Past(c.tenant.value.phase, AfterCall(setup, c, call).proc)
    ensures Behind(AfterCall(setup, c, call))
  {
    hide Draft, DraftKubeconfig, PartFailed, MarkNotProvisioned, MarkProvisioned;
    var seen, part := c.proc.seen, c.proc.part;
    FailedAgainStaysBehind(setup, c, seen, part, call.now);
    if call.outcome.Answered? && part in c.host {
      PartThereStaysBehind(setup, c, seen, part, call.now);
    }
  }

  lemma ReadingCAStaysBehind(setup: Setup, c: Cell, call: Call)
    requires Inv(setup, c) && Behind(c) && c.proc.ReadingCA?
    ensures Behind(AfterCall(setup, c, call))
  {
    hide Draft, DraftKubeconfig, PartFailed, MarkNotProvisioned, MarkProvisioned;
    FailedAgainStaysBehind(setup, c, c.proc.seen, c.proc.part, call.now);
  }

  lemma CreatingStaysBehind(setup: Setup, c: Cell, call: Call)
    requires Inv(setup, c) && Inv(setup, AfterCall(setup, c, call)) && Behind(c) && c.proc.Creating?
    requires !Past(c.tenant.value.phase, AfterCall(setup, c, call).proc)
    ensures Behind(AfterCall(setup, c, call))
  {
    hide Draft, DraftKubeconfig, PartFailed, MarkNotProvisioned, MarkProvisioned;
    var seen, part, d := c.proc.seen, c.proc.part, AfterCall(setup, c, call);
    var idle := d.(proc := Idle);
    FailedAgainStaysBehind(setup, idle, seen, part, call.now);
    if call.outcome.Answered? && part !in c.host {
      PartThereStaysBehind(setup, idle, seen, part, call.now);
    }
  }

  lemma CheckedStaysBehind(setup: Setup, c: Cell, seen: Tenant, part: Part, now: int)
    requires Alive(c) && HoldsFinalizer(c) && c.tenant.value.phase == seen.phase != ""
    requires StatusOk(seen.phase, seen.conditions) && !seen.Deleting() && seen.phase != TERMINATING
    requires Recorded(seen.conditions) >= 2 && !Past(seen.phase, Checked(c.host, seen, seen, part, now))
    ensures Behind(c.(proc := Checked(c.host, seen, seen, part, now)))
  {
    hide C.MarkTrue, DerivePhase;
    PhasesAreDistinct();
    PhaseStays(seen);
    MarkReadyOk(seen, now);
    var ready := MarkReady(seen, now);
    assert ready.phase == seen.phase;
    if ready.conditions == seen.conditions { assert ready == seen; }
  }

  lemma CheckingStaysBehind(setup: Setup, c: Cell, call: Call)
    requires Inv(setup, c) && Behind(c) && c.proc.Checking?
    requires !Past(c.tenant.value.phase, AfterCall(setup, c, call).proc)
    ensures Behind(AfterCall(setup, c, call))
  {
    hide Checked, DerivePhase;
    var seen, mem := c.proc.seen, c.proc.mem;
    PhaseStays(seen);
    assert mem == seen;
    if call.outcome.Answered? {
      CheckedStaysBehind(setup, c, seen, c.proc.part, call.now);
    }
  }

  lemma CallStaysBehind(setup: Setup, c: Cell, call: Call)
    requires Inv(setup, c) && Inv(setup, AfterCall(setup, c, call)) && Behind(c) &&
             !Past(c.tenant.value.phase, AfterCall(setup, c, call).proc)
    ensures Behind(AfterCall(setup, c, call))
  {
    match c.proc
    case Probing(_, _) => ProbingStaysBehind(setup, c, call);
    case ReadingCA(_, _) => ReadingCAStaysBehind(setup, c, call);
    case Creating(_, _, _) => CreatingStaysBehind(setup, c, call);
    case Checking(_, _, _) => CheckingStaysBehind(setup, c, call);
    case Rereading(_, _, _) => if call.outcome.Answered? { PatchIffProgress(setup, c, call); }
    case _ =>
  }

  /**
   A reconcile that comes no further than an earlier one writes nothing to the Tenant, whatever it
   fails at, however often it is retried, and whatever the clock says: a Pending tenant whose
   namespace cannot be made, a Provisioning one that fails at any later call, even with all seven
   objects there, a Provisioned one that goes on requeueing, and a Ready one always.
   */
  lemma {:induction false} RetriesAreQuiescent(setup: Setup, c: Cell, es: seq<Event>)
    requires Inv(setup, c) && Behind(c) && Undeleted(es) && NeverPast(setup, c, es)
    ensures RequestsNoPatch(setup, c, es) && Behind(Run(setup, c, es)) && Untroubled(c, Run(setup, c, es))
    decreases es
  {
    hide Inv, Behind, Past, AfterCall, AfterEnvs, AfterEnv, Untroubled;
    UntroubledBySelf(c);
    if es != [] {
      var e := es[0];
      var d := Met(setup, c, e);
      MetOk(setup, c, e);
      MetStaysBehind(setup, c, e);
      StepKeepsInv(setup, c, e);
      UntroubledBySelf(d);
      QuietStep(setup, c, e);
      if e.Perform? { CallKeepsBehind(setup, c, e); }
      if !e.Perform? { OtherEventsStayBehind(setup, c, e); }
      RetriesAreQuiescent(setup, Step(setup, c, e), es[1..]);
      UntroubledTransitive(c, Step(setup, c, e), Run(setup, c, es));
    }
  }

  lemma UntroubledBySelf(c: Cell)
    requires Behind(c)
    ensures Untroubled(c, c) && c.tenant.Some? && !PatchesTenant(c.proc)
  {
  }

  lemma UntroubledTransitive(c: Cell, d: Cell, e: Cell)
    requires Untroubled(c, d) && Untroubled(d, e)
    ensures Untroubled(c, e)
  {
  }

  lemma EnvsStayBehind(setup: Setup, c: Cell, es: seq<Env>)
    requires Behind(c) && forall x | x in es :: !x.UserCreates? && !x.UserDeletes?
    ensures Behind(AfterEnvs(setup.name, c, es))
  {
    EnvsSpareOwned(setup, c, es);
  }

  lemma CallKeepsBehind(setup: Setup, c: Cell, e: Event)
    requires e.Perform? && Inv(setup, Met(setup, c, e)) && Inv(setup, Step(setup, c, e)) && Behind(Met(setup, c, e))
    requires Untroubled(c, Met(setup, c, e)) && Untroubled(c, Step(setup, c, e))
    requires var d := Step(setup, c, e); !Past(d.tenant.value.phase, d.proc)
    ensures Behind(Step(setup, c, e))
  {
    hide Inv, Behind, Past, AfterCall, AfterEnvs;
    CallStaysBehind(setup, Met(setup, c, e), e.call);
  }

  lemma OtherEventsStayBehind(setup: Setup, c: Cell, e: Event)
    requires Behind(c) && SparesTenant(e) && !e.Perform?
    ensures Behind(Step(setup, c, e))
  {
    if e.Surroundings? { EnvsStayBehind(setup, c, [e.env]); }
  }

  lemma MetStaysBehind(setup: Setup, c: Cell, e: Event)
    requires Behind(c) && SparesTenant(e)
    ensures Behind(Met(setup, c, e))
  {
    if e.Perform? { EnvsStayBehind(setup, c, e.call.before); }
  }
}
