/** Fault-free reconciles bring a tenant to its goal from every reachable state. */
module Convergence {
  import opened Wrappers
  import opened Certificates
  import opened Tenants
  import opened TenantPatches
  import opened HostObjects
  import opened Protocol
  import opened Invariants
  import opened Lifetimes
  import opened Quiescence
  import opened Credentials
  import K = Kubeconfigs
  import C = Conditions

  // ---------- Fault-free runs ----------

  predicate Balanced(o: HostObject) { o.Deployment? ==> o.replicas == o.readyReplicas }

  ghost predicate AllBalanced(host: map<Part, HostObject>) { forall p | p in host :: Balanced(host[p]) }

  /** Neither creation nor deletion of the tenant; and, if so asked, only reports of equal replica counts. */
  predicate Harmless(e: Env, balanced: bool) {
    !e.UserCreates? && !e.UserDeletes? && (balanced && e.StatusReported? ==> e.replicas == e.readyReplicas)
  }

  /** Every call is answered and every key generated; the surroundings go on. */
  predicate FaultFree(e: Event, balanced: bool) {
    match e
    case Surroundings(env) => Harmless(env, balanced)
    case Perform(call) =>
      call.outcome.Answered? && call.entropy.Keys? && forall x | x in call.before :: Harmless(x, balanced)
    case _ => false
  }

  predicate AllFaultFree(es: seq<Event>, balanced: bool) { forall e | e in es :: FaultFree(e, balanced) }

  function Calls(es: seq<Event>): nat {
    if es == [] then 0 else One(es[0].Perform?) + Calls(es[1..])
  }

  /** More API calls than any reconcile makes. */
  const ENOUGH_CALLS: nat := 27

  /** How many more calls the reconcile in flight can make. */
  function Remaining(p: Proc): nat {
    match p
    case Idle => 0
    case Returned(_, _, _) => 0
    case PatchingStatus(_, _, _, _, _) => 1
    case PatchingMain(_, _, _, _) => 2
    case Rereading(_, _, _) => 3
    case Checking(_, _, part) => if part.Apiserver? then 5 else 4
    case Creating(_, part, _) => 3 + 3 * (7 - Position(part))
    case ReadingCA(_, part) => 4 + 3 * (7 - Position(part))
    case Probing(_, part) => 5 + 3 * (7 - Position(part))
    case Reading => ENOUGH_CALLS
  }

  lemma HarmlessEnv(setup: Setup, c: Cell, e: Env, balanced: bool)
    requires c.tenant.Some? && Harmless(e, balanced)
    ensures var d := AfterEnv(setup.name, c, e);
            Untroubled(c, d) && d.proc == c.proc && (balanced && AllBalanced(c.host) ==> AllBalanced(d.host))
  {
  }

  lemma {:induction false} HarmlessEnvs(setup: Setup, c: Cell, es: seq<Env>, balanced: bool)
    requires c.tenant.Some? && forall x | x in es :: Harmless(x, balanced)
    ensures var d := AfterEnvs(setup.name, c, es);
            Untroubled(c, d) && d.proc == c.proc && (balanced && AllBalanced(c.host) ==> AllBalanced(d.host))
    decreases es
  {
    if es != [] {
      HarmlessEnv(setup, c, es[0], balanced);
      HarmlessEnvs(setup, AfterEnv(setup.name, c, es[0]), es[1..], balanced);
    }
  }

  // ---------- Provisioning ----------

  /** What is asked of the surroundings and of the state a reconcile starts from. */
  datatype Terms = Terms(balanced: bool, guarded: bool)

  /** What a fault-free reconcile is going to store: the finalizer and, if it was there already, success. */
  ghost predicate Promising(seen: Tenant, goal: Tenant, verdict: Verdict, terms: Terms) {
    && !verdict.Failed? && goal.Guarded() && (terms.guarded ==> seen.Guarded())
    && (terms.balanced && seen.Guarded() ==> verdict.Finished?)
    && (seen.Guarded() ==> Recorded(goal.conditions) >= 2 && (verdict.Finished? ==> Recorded(goal.conditions) == 3))
  }

  ghost predicate Healthy(c: Cell, terms: Terms) {
    && Alive(c) && (terms.balanced ==> AllBalanced(c.host)) && (terms.guarded ==> c.tenant.value.Guarded())
    && match c.proc
       case Idle => false
       case Creating(_, _, draft) => terms.balanced ==> Balanced(draft)
       case Rereading(seen, mem, verdict) => Promising(seen, mem, verdict, terms)
       case PatchingMain(seen, _, goal, verdict) => Promising(seen, goal, verdict, terms)
       case PatchingStatus(seen, _, goal, verdict, _) => Promising(seen, goal, verdict, terms)
       case Returned(verdict, saw, _) => saw.Some? && Promising(saw.value, c.tenant.value, verdict, terms)
       case _ => true
  }

  /** With keys to be had, the CA read back from the stored secret makes a kubeconfig. */
  lemma KubeconfigCanBeMade(setup: Setup, owner: OwnerReference, host: map<Part, HostObject>, p: Part, entropy: Entropy)
    requires HostOk(setup, owner, host) && ServerCert in host && entropy.Keys? && IsKubeconfig(p)
    ensures DraftKubeconfig(setup, p, owner, host[ServerCert], entropy).Ok?
    ensures DraftKubeconfig(setup, p, owner, host[ServerCert], entropy).value.Secret?
  {
    hide Draft, ParseCASecret;
    assert ObjectOk(setup, owner, host, ServerCert);
    var e :| Draft(setup, ServerCert, owner, e) == Ok(host[ServerCert]);
    DraftTakesKeys(setup, owner, e);
    ServerCertParses(setup, owner, e);
    K.NewWithSecretResolves(setup.name, K.Endpoint(setup.name), CACert(EMPTY_CONFIG, e.k0), e.k0, UserConfig(p),
        entropy.k0);
  }

  /** A part found or made leads on to the next one, and the last one to the checks. */
  lemma PartExistsProgresses(c: Cell, seen: Tenant, part: Part, now: int, terms: Terms)
    requires Healthy(c, terms)
    ensures var next := PartExists(seen, part, now);
            Healthy(c.(proc := next), terms) && Remaining(next) < 3 + 3 * (7 - Position(part))
  {
  }

  lemma ProbingCallProgresses(setup: Setup, c: Cell, call: Call, terms: Terms)
    requires Healthy(c, terms) && c.proc.Probing?
    requires call.outcome.Answered? && call.entropy.Keys?
    ensures var d := AfterCall(setup, c, call); Healthy(d, terms) && Remaining(d.proc) < Remaining(c.proc)
  {
    var seen, part := c.proc.seen, c.proc.part;
    if part in c.host {
      PartExistsProgresses(c, seen, part, call.now, terms);
    } else if part.ServerCert? {
      NewPkiChains(setup.name, call.entropy);
    }
  }

  lemma ReadingCACallProgresses(setup: Setup, c: Cell, call: Call, terms: Terms)
    requires Inv(setup, c) && Healthy(c, terms) && c.proc.ReadingCA?
    requires call.outcome.Answered? && call.entropy.Keys?
    ensures var d := AfterCall(setup, c, call); Healthy(d, terms) && Remaining(d.proc) < Remaining(c.proc)
  {
    var part := c.proc.part;
    assert Position(ServerCert) < Position(part) && Before(part, c.host);
    assert c.proc.seen.AsOwner() == c.tenant.value.AsOwner();
    KubeconfigCanBeMade(setup, c.tenant.value.AsOwner(), c.host, part, call.entropy);
  }

  lemma CreatingCallProgresses(setup: Setup, c: Cell, call: Call, terms: Terms)
    requires Healthy(c, terms) && c.proc.Creating? && c.proc.part !in c.host
    requires call.outcome.Answered?
    ensures var d := AfterCall(setup, c, call); Healthy(d, terms) && Remaining(d.proc) < Remaining(c.proc)
  {
    var stored := c.(host := c.host[c.proc.part := c.proc.draft]);
    assert terms.balanced ==> AllBalanced(stored.host);
    PartExistsProgresses(stored, c.proc.seen, c.proc.part, call.now, terms);
  }

  lemma CheckedProgresses(c: Cell, seen: Tenant, mem: Tenant, part: Part, now: int, terms: Terms)
    requires Healthy(c, terms) && seen.Guarded() && mem.finalizers == seen.finalizers
    requires ConditionsOk(mem.conditions) && Recorded(mem.conditions) >= 2
    requires part in c.host && c.host[part].Deployment?
    ensures var next := Checked(c.host, seen, mem, part, now);
            Healthy(c.(proc := next), terms) && Remaining(next) < if part.Apiserver? then 5 else 4
  {
    MarkReadyOk(mem, now);
    assert terms.balanced ==> Balanced(c.host[part]);
  }

  lemma CheckingCallProgresses(setup: Setup, c: Cell, call: Call, terms: Terms)
    requires Inv(setup, c) && Healthy(c, terms) && c.proc.Checking?
    requires call.outcome.Answered?
    ensures var d := AfterCall(setup, c, call); Healthy(d, terms) && Remaining(d.proc) < Remaining(c.proc)
  {
    assert ObjectOk(setup, c.tenant.value.AsOwner(), c.host, c.proc.part);
    CheckedProgresses(c, c.proc.seen, c.proc.mem, c.proc.part, call.now, terms);
  }

  lemma PatchCallProgresses(setup: Setup, c: Cell, call: Call, terms: Terms)
    requires Inv(setup, c) && Healthy(c, terms)
    requires c.proc.Rereading? || c.proc.PatchingMain? || c.proc.PatchingStatus?
    requires call.outcome.Answered?
    ensures var d := AfterCall(setup, c, call); Healthy(d, terms) && Remaining(d.proc) < Remaining(c.proc)
  {
    var cur := c.tenant.value;
    if c.proc.Rereading? {
      var goal := Overwrite(cur, c.proc.mem);
      MainDiffersMeans(cur, goal);
      StatusDiffersMeans(cur, goal);
    } else if c.proc.PatchingMain? {
      MainPatchEffect(cur, c.proc.base, c.proc.goal, call.outcome);
      StatusDiffersMeans(c.proc.base, c.proc.goal);
    } else {
      StatusPatchEffect(cur, c.proc.base, c.proc.goal, call.outcome);
    }
  }

  lemma CallProgresses(setup: Setup, c: Cell, call: Call, terms: Terms)
    requires Inv(setup, c) && Healthy(c, terms)
    requires call.outcome.Answered? && call.entropy.Keys?
    ensures var d := AfterCall(setup, c, call);
            Healthy(d, terms) && Remaining(d.proc) <= Remaining(c.proc) &&
            (Remaining(c.proc) > 0 ==> Remaining(d.proc) < Remaining(c.proc))
  {
    match c.proc
    case Returned(_, _, _) =>
    case Reading =>
    case Probing(_, _) => ProbingCallProgresses(setup, c, call, terms);
    case ReadingCA(_, _) => ReadingCACallProgresses(setup, c, call, terms);
    case Creating(_, _, _) => CreatingCallProgresses(setup, c, call, terms);
    case Checking(_, _, _) => CheckingCallProgresses(setup, c, call, terms);
    case _ => PatchCallProgresses(setup, c, call, terms);
  }

  /** The surroundings do not make a reconcile less healthy. */
  lemma HealthyThroughEnvs(setup: Setup, c: Cell, es: seq<Env>, terms: Terms)
    requires Healthy(c, terms) && forall x | x in es :: Harmless(x, terms.balanced)
    ensures Healthy(AfterEnvs(setup.name, c, es), terms) && AfterEnvs(setup.name, c, es).proc == c.proc
  {
    HarmlessEnvs(setup, c, es, terms.balanced);
  }

  lemma {:induction false} HealthyRunReturns(setup: Setup, c: Cell, es: seq<Event>, terms: Terms)
    requires Inv(setup, c) && Healthy(c, terms) && AllFaultFree(es, terms.balanced)
    ensures var end := Run(setup, c, es);
            Inv(setup, end) && Healthy(end, terms) && (Calls(es) >= Remaining(c.proc) ==> end.proc.Returned?)
    decreases es
  {
    hide AfterCall, AfterEnv, Inv;
    if es != [] {
      var e := es[0];
      var d := Step(setup, c, e);
      StepKeepsInv(setup, c, e);
      assert FaultFree(e, terms.balanced);
      if e.Surroundings? {
        HealthyThroughEnvs(setup, c, [e.env], terms);
        assert AfterEnvs(setup.name, c, [e.env]) == d;
      } else {
        MetOk(setup, c, e);
        HealthyThroughEnvs(setup, c, e.call.before, terms);
        CallProgresses(setup, Met(setup, c, e), e.call, terms);
      }
      HealthyRunReturns(setup, d, es[1..], terms);
    }
  }

  /** One fault-free reconcile, from its start until it has returned. */
  function Reconcile(setup: Setup, c: Cell, es: seq<Event>): Cell { Run(setup, Step(setup, c, Begin), es) }

  predicate FaultFreeReconcile(es: seq<Event>, balanced: bool) {
    AllFaultFree(es, balanced) && Calls(es) >= ENOUGH_CALLS
  }

  /** What one fault-free reconcile achieves depends only on whether the finalizer was there already. */
  lemma OneReconcile(setup: Setup, c: Cell, es: seq<Event>, balanced: bool)
    requires Inv(setup, c) && Alive(c) && c.proc.AtRest() && FaultFreeReconcile(es, balanced)
    requires balanced ==> AllBalanced(c.host)
    ensures var end := Reconcile(setup, c, es);
            && Inv(setup, end) && Alive(end) && end.proc.Returned? && !end.proc.verdict.Failed? && HoldsFinalizer(end)
            && (balanced ==> AllBalanced(end.host))
            && (HoldsFinalizer(c) ==> Recorded(end.tenant.value.conditions) >= (if balanced then 3 else 2))
  {
    hide AfterCall, AfterEnvs;
    StepKeepsInv(setup, c, Begin);
    HealthyRunReturns(setup, Step(setup, c, Begin), es, Terms(balanced, HoldsFinalizer(c)));
  }

  /**
   From every reachable state at rest, two fault-free reconciles leave the finalizer and all seven
   objects stored and Provisioned true; and Ready true if the deployments, whenever looked at,
   have as many ready replicas as replicas.
   */
  lemma TwoReconcilesProvision(setup: Setup, c: Cell, first: seq<Event>, second: seq<Event>, balanced: bool)
    requires Reachable(setup, c) && Alive(c) && c.proc.AtRest()
    requires FaultFreeReconcile(first, balanced) && FaultFreeReconcile(second, balanced)
    requires balanced ==> AllBalanced(c.host)
    ensures var end := Reconcile(setup, Reconcile(setup, c, first), second);
            && HoldsFinalizer(end) && (forall p: Part :: p in end.host)
            && end.proc.Returned? && !end.proc.verdict.Failed?
            && C.IsTrue(end.tenant.value.conditions, PROVISIONED_CONDITION)
            && (balanced ==> C.IsTrue(end.tenant.value.conditions, READY_CONDITION) && end.tenant.value.phase == READY)
  {
    hide AfterCall, AfterEnvs;
    ReachableInv(setup, c);
    OneReconcile(setup, c, first, balanced);
    OneReconcile(setup, Reconcile(setup, c, first), second, balanced);
    var end := Reconcile(setup, Reconcile(setup, c, first), second);
    assert end.tenant.value.phase != TERMINATING;
  }

  // ---------- Ready without anything running ----------

  predicate Unscaled(o: HostObject) { o.Deployment? ==> o.replicas == o.readyReplicas == 0 }

  ghost predicate NothingRuns(c: Cell) {
    (forall p | p in c.host :: Unscaled(c.host[p])) && (c.proc.Creating? ==> Unscaled(c.proc.draft))
  }

  const SAMPLE_CALL := Perform(Call([], Answered, Keys(1, 2, 3, 4, 5, 6), 0))

  lemma {:induction false} CallsOfRepeated(n: nat)
    ensures Calls(seq(n, _ => SAMPLE_CALL)) == n
  {
    if n > 0 {
      assert seq(n, _ => SAMPLE_CALL)[1..] == seq(n - 1, _ => SAMPLE_CALL);
      CallsOfRepeated(n - 1);
    }
  }

  lemma {:induction false} SampleCallsStartNothing(setup: Setup, c: Cell, n: nat)
    requires NothingRuns(c)
    ensures NothingRuns(Run(setup, c, seq(n, _ => SAMPLE_CALL)))
    decreases n
  {
    hide AfterEnv;
    if n > 0 {
      var es := seq(n, _ => SAMPLE_CALL);
      assert es[1..] == seq(n - 1, _ => SAMPLE_CALL) && es[0] == SAMPLE_CALL;
      assert AfterEnvs(setup.name, c, []) == c;
      SampleCallsStartNothing(setup, Step(setup, c, SAMPLE_CALL), n - 1);
    }
  }

  /**
   Ready does not mean that anything runs: a deployment nobody has reported on has as many ready
   replicas as replicas, none, and a new tenant whose deployments are in that state is Ready
   after two undisturbed reconciles.
   */
  lemma ReadyWithoutReplicas(setup: Setup)
    ensures var created := Run(setup, EMPTY, [Surroundings(UserCreates(1, map[], map[], [], []))]);
            var calls := seq(ENOUGH_CALLS, _ => SAMPLE_CALL);
            var end := Reconcile(setup, Reconcile(setup, created, calls), calls);
            && end.tenant.Some? && end.tenant.value.phase == READY
            && Apiserver in end.host && end.host[Apiserver].Deployment? && end.host[Apiserver].readyReplicas == 0
  {
    hide AfterCall;
    var create := Surroundings(UserCreates(1, map[], map[], [], []));
    var start := Step(setup, EMPTY, create);
    assert Run(setup, EMPTY, [create]) == start;
    var calls := seq(ENOUGH_CALLS, _ => SAMPLE_CALL);
    CallsOfRepeated(ENOUGH_CALLS);
    TwoReconcilesProvision(setup, start, calls, calls, true);
    var middle := Reconcile(setup, start, calls);
    SampleCallsStartNothing(setup, Step(setup, start, Begin), ENOUGH_CALLS);
    SampleCallsStartNothing(setup, Step(setup, middle, Begin), ENOUGH_CALLS);
    var end := Reconcile(setup, middle, calls);
    ReachableInv(setup, start);
    RunKeepsInv(setup, Step(setup, start, Begin), calls);
    RunKeepsInv(setup, Step(setup, middle, Begin), calls);
    assert ObjectOk(setup, end.tenant.value.AsOwner(), end.host, Apiserver);
  }

  // ---------- Removal ----------

  predicate Doomed(c: Cell) { HoldsFinalizer(c) && c.tenant.value.Deleting() }

  /** A Tenant being deleted that only other finalizers keep alive. */
  predicate Abandoned(c: Cell) {
    c.tenant.Some? && c.tenant.value.Deleting() && !c.tenant.value.Guarded() && c.tenant.value.finalizers != []
  }

  /** What one fault-free reconcile makes of a doomed Tenant: the phase first, the finalizer next time. */
  predicate Dismissed(before: Tenant, after: Option<Tenant>) {
    if before.phase != TERMINATING
    then after.Some? && after.value.phase == TERMINATING && after.value.Deleting() &&
         after.value.finalizers == before.finalizers
    else if Without(before.finalizers) == [] then after.None?
    else after.Some? && after.value.Deleting() && after.value.finalizers == Without(before.finalizers)
  }

  predicate Leaving(c: Cell, t: Tenant) {
    match c.proc
    case Reading => Doomed(c) && SameOwned(c.tenant.value, t)
    case Rereading(seen, mem, verdict) =>
      Doomed(c) && SameOwned(seen, t) && seen.Deleting() && seen.Guarded() && mem.phase == TERMINATING &&
      verdict.Finished? &&
      mem.finalizers == (if t.phase == TERMINATING then Without(t.finalizers) else t.finalizers)
    case PatchingMain(seen, base, goal, verdict) =>
      Doomed(c) && SameOwned(seen, t) && seen.Guarded() && t.phase == TERMINATING &&
      goal.finalizers == Without(t.finalizers) && verdict.Finished?
    case PatchingStatus(seen, base, goal, verdict, _) =>
      Doomed(c) && SameOwned(seen, t) && t.phase != TERMINATING && goal.phase == TERMINATING &&
      goal.finalizers == t.finalizers && verdict.Finished?
    case Returned(verdict, _, _) => verdict.Finished? && Dismissed(t, c.tenant)
    case _ => false
  }

  lemma LeavingCallProgresses(setup: Setup, c: Cell, call: Call, t: Tenant)
    requires Inv(setup, c) && Leaving(c, t) && t.Guarded() && call.outcome.Answered?
    ensures var d := AfterCall(setup, c, call);
            Leaving(d, t) && Remaining(d.proc) <= Remaining(c.proc) &&
            (Remaining(c.proc) > 0 ==> Remaining(d.proc) < Remaining(c.proc))
  {
    PhasesAreDistinct();
    if c.proc.Rereading? {
      var cur, goal := c.tenant.value, Overwrite(c.tenant.value, c.proc.mem);
      MainDiffersMeans(cur, goal);
      StatusDiffersMeans(cur, goal);
    } else if c.proc.PatchingMain? {
      MainPatchEffect(c.tenant.value, c.proc.base, c.proc.goal, call.outcome);
      StatusDiffersMeans(c.proc.base, c.proc.goal);
    } else if c.proc.PatchingStatus? {
      StatusPatchEffect(c.tenant.value, c.proc.base, c.proc.goal, call.outcome);
    }
  }

  lemma {:induction false} LeavingThroughEnvs(setup: Setup, c: Cell, es: seq<Env>, t: Tenant)
    requires Leaving(c, t) && forall x | x in es :: Harmless(x, false)
    ensures Leaving(AfterEnvs(setup.name, c, es), t) && AfterEnvs(setup.name, c, es).proc == c.proc
    decreases es
  {
    if es != [] {
      assert Harmless(es[0], false);
      LeavingThroughEnvs(setup, AfterEnv(setup.name, c, es[0]), es[1..], t);
    }
  }

  lemma {:induction false} LeavingRunReturns(setup: Setup, c: Cell, es: seq<Event>, t: Tenant)
    requires Inv(setup, c) && Leaving(c, t) && t.Guarded() && AllFaultFree(es, false)
    ensures var end := Run(setup, c, es);
            Inv(setup, end) && Leaving(end, t) && (Calls(es) >= Remaining(c.proc) ==> end.proc.Returned?)
    decreases es
  {
    hide AfterCall, AfterEnv, Inv;
    if es != [] {
      var e := es[0];
      var d := Step(setup, c, e);
      StepKeepsInv(setup, c, e);
      assert FaultFree(e, false);
      if e.Surroundings? {
        LeavingThroughEnvs(setup, c, [e.env], t);
        assert AfterEnvs(setup.name, c, [e.env]) == d;
      } else {
        MetOk(setup, c, e);
        LeavingThroughEnvs(setup, c, e.call.before, t);
        LeavingCallProgresses(setup, Met(setup, c, e), e.call, t);
      }
      LeavingRunReturns(setup, d, es[1..], t);
    }
  }

  lemma OneDismissal(setup: Setup, c: Cell, es: seq<Event>)
    requires Inv(setup, c) && Doomed(c) && c.proc.AtRest() && FaultFreeReconcile(es, false)
    ensures var end := Reconcile(setup, c, es);
            Inv(setup, end) && end.proc.Returned? && Dismissed(c.tenant.value, end.tenant)
  {
    hide AfterCall, AfterEnvs;
    StepKeepsInv(setup, c, Begin);
    LeavingRunReturns(setup, Step(setup, c, Begin), es, c.tenant.value);
  }

  // ---------- Other finalizers ----------

  predicate Rejecting(p: Proc) {
    p.Idle? || p.Reading? || p.Rereading? || p.PatchingMain? || (p.Returned? && p.verdict.Failed?)
  }

  lemma {:induction false} AbandonedThroughEnvs(setup: Setup, c: Cell, es: seq<Env>)
    requires Abandoned(c) && forall x | x in es :: !x.UserCreates?
    ensures var d := AfterEnvs(setup.name, c, es); Abandoned(d) && Untroubled(c, d) && d.proc == c.proc
    decreases es
  {
    if es != [] {
      AbandonedThroughEnvs(setup, AfterEnv(setup.name, c, es[0]), es[1..]);
    }
  }

  lemma AbandonedCall(setup: Setup, c: Cell, call: Call)
    requires Inv(setup, c) && Abandoned(c)
    ensures AfterCall(setup, c, call).tenant == c.tenant
    ensures Rejecting(c.proc) ==> Rejecting(AfterCall(setup, c, call).proc)
  {
    var cur := c.tenant.value;
    if c.proc.PatchingMain? {
      MainPatchEffect(cur, c.proc.base, c.proc.goal, call.outcome);
      assert FINALIZER in c.proc.goal.finalizers && FINALIZER !in cur.finalizers;
    } else if c.proc.Rereading? {
      var goal := Overwrite(cur, c.proc.mem);
      assert FINALIZER in goal.finalizers;
      MainDiffersMeans(cur, goal);
    }
  }

  /**
   Once our finalizer is gone and others remain, the controller changes nothing any more, and
   every reconcile that reads the Tenant tries to put the finalizer back and fails.
   */
  lemma {:induction false} OtherFinalizersFailEveryReconcile(setup: Setup, c: Cell, es: seq<Event>)
    requires Inv(setup, c) && Abandoned(c) && OneLife(es)
    ensures var end := Run(setup, c, es);
            Abandoned(end) && Untroubled(c, end) && (Rejecting(c.proc) ==> Rejecting(end.proc))
    decreases es
  {
    hide AfterCall, AfterEnv, Inv;
    if es != [] {
      var e := es[0];
      StepKeepsInv(setup, c, e);
      assert WithinLife(e);
      if e.Surroundings? {
        AbandonedThroughEnvs(setup, c, [e.env]);
        assert AfterEnvs(setup.name, c, [e.env]) == Step(setup, c, e);
      } else if e.Perform? {
        MetOk(setup, c, e);
        AbandonedThroughEnvs(setup, c, e.call.before);
        AbandonedCall(setup, Met(setup, c, e), e.call);
      }
      OtherFinalizersFailEveryReconcile(setup, Step(setup, c, e), es[1..]);
    }
  }

  /**
   From every reachable state at rest in which a deletion is stored and our finalizer is too, two
   fault-free reconciles remove the Tenant exactly if there is no finalizer but ours, and leave it
   to the others for good if there is.
   */
  lemma TwoReconcilesRemove(setup: Setup, c: Cell, first: seq<Event>, second: seq<Event>)
    requires Reachable(setup, c) && Doomed(c) && c.proc.AtRest()
    requires FaultFreeReconcile(first, false) && FaultFreeReconcile(second, false)
    ensures Reconcile(setup, Reconcile(setup, c, first), second).tenant.None?
       <==> forall f | f in c.tenant.value.finalizers :: f == FINALIZER
    ensures var end := Reconcile(setup, Reconcile(setup, c, first), second); end.tenant.Some? ==> Abandoned(end)
  {
    hide AfterCall, AfterEnvs;
    ReachableInv(setup, c);
    var t := c.tenant.value;
    var middle := Reconcile(setup, c, first);
    OneDismissal(setup, c, first);
    assert Without(t.finalizers) == [] <==> forall f | f in t.finalizers :: f == FINALIZER by {
      if Without(t.finalizers) != [] { assert Without(t.finalizers)[0] in Without(t.finalizers); }
    }
    assert OneLife(second) by {
      forall e | e in second ensures WithinLife(e) { assert FaultFree(e, false); }
    }
    StepKeepsInv(setup, middle, Begin);
    if t.phase != TERMINATING {
      OneDismissal(setup, middle, second);
    } else if Without(t.finalizers) == [] {
      RunDoesNotRegress(setup, Step(setup, middle, Begin), second);
    } else {
      OtherFinalizersFailEveryReconcile(setup, Step(setup, middle, Begin), second);
    }
  }

  /**
   A Tenant created with a foreign finalizer beside ours, and deleted, is abandoned after two
   undisturbed reconciles.
   */
  lemma ForeignFinalizerStrands(setup: Setup, other: string)
    requires other != FINALIZER
    ensures var deleted := Run(setup, EMPTY, [Surroundings(UserCreates(1, map[], map[], [FINALIZER, other], [])),
                                              Surroundings(UserDeletes(0))]);
            var calls := seq(ENOUGH_CALLS, _ => SAMPLE_CALL);
            Abandoned(Reconcile(setup, Reconcile(setup, deleted, calls), calls))
  {
    hide AfterCall;
    var create := Surroundings(UserCreates(1, map[], map[], [FINALIZER, other], []));
    var delete := Surroundings(UserDeletes(0));
    var created := Step(setup, EMPTY, create);
    var deleted := Step(setup, created, delete);
    RunOfTwo(setup, EMPTY, create, delete);
    assert deleted.tenant.value.finalizers == [FINALIZER, other];
    assert deleted.tenant.value.finalizers[1] == other && Doomed(deleted);
    assert other in deleted.tenant.value.finalizers;
    var calls := seq(ENOUGH_CALLS, _ => SAMPLE_CALL);
    CallsOfRepeated(ENOUGH_CALLS);
    TwoReconcilesRemove(setup, deleted, calls, calls);
  }

  lemma RunOfTwo(setup: Setup, c: Cell, e: Event, f: Event)
    ensures Run(setup, c, [e, f]) == Step(setup, Step(setup, c, e), f)
  {
    hide Step;
    assert [e, f][1..] == [f] && [f][1..] == [];
    assert Run(setup, Step(setup, c, e), [f]) == Step(setup, Step(setup, c, e), f);
  }
}
