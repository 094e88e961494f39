/** When the reconciler's marks came about: the times that its stored conditions carry. */
module TransitionTimes {
  import opened Wrappers
  import opened MergePatch
  import opened Tenants
  import opened TenantPatches
  import opened HostObjects
  import opened Protocol
  import opened Invariants
  import opened Lifetimes
  import opened Verdicts
  import C = Conditions

  /** A condition type with one of its statuses. */
  datatype Fact = Fact(kind: string, status: C.Truth)

  const IS_PROVISIONED := Fact(PROVISIONED_CONDITION, C.True)
  const NOT_PROVISIONED := Fact(PROVISIONED_CONDITION, C.False)
  const IS_READY := Fact(READY_CONDITION, C.True)

  /** The condition of the type, if it has the status. */
  function Saying(cs: C.Conditions, f: Fact): Option<C.Condition> {
    match C.Get(cs, f.kind)
    case Some(c) => if c.status == f.status then Some(c) else None
    case None => None
  }

  /** What the reconcile in flight has read, and the Tenant it means to store. */
  function InHand(p: Proc): Option<(Tenant, Tenant)> {
    match p
    case Checking(seen, mem, _) => Some((seen, mem))
    case Rereading(seen, mem, _) => Some((seen, mem))
    case PatchingMain(seen, _, goal, _) => Some((seen, goal))
    case PatchingStatus(seen, _, goal, _, _) => Some((seen, goal))
    case _ => None
  }

  /** What is said of the tenant, in the store or by the reconcile in flight. */
  function Stored(c: Cell, f: Fact): Option<C.Condition> {
    if c.tenant.Some? then Saying(c.tenant.value.conditions, f) else None
  }

  function Meant(c: Cell, f: Fact): Option<C.Condition> {
    if InHand(c.proc).Some? then Saying(InHand(c.proc).value.1.conditions, f) else None
  }

  predicate Shows(c: Cell, f: Fact) { Stored(c, f).Some? || Meant(c, f).Some? }

  predicate ShowsSince(c: Cell, f: Fact, since: C.Time) {
    && (Stored(c, f).Some? ==> Stored(c, f).value.since == since)
    && (Meant(c, f).Some? ==> Meant(c, f).value.since == since)
  }

  // ---------- Marks ----------

  /** Setting a condition gives it the clock's time, unless it says the same already, and spares the others. */
  lemma MarkSays(cs: C.Conditions, mark: C.Condition, now: int, f: Fact)
    requires C.UniqueTypes(cs) && mark.since.Zero?
    requires var was := C.Get(cs, mark.kind);
             was.Some? && was.value.status == mark.status ==> C.SameState(was.value, mark)
    ensures Saying(C.Set(cs, mark, now), f) ==
            if f.kind != mark.kind then Saying(cs, f)
            else if f.status != mark.status then None
            else if Saying(cs, f).Some? then Saying(cs, f)
            else Some(mark.(since := C.Second(now)))
  {
    C.SetRefinesMapUpdate(cs, mark, now);
    C.GetFinds(cs, mark.kind);
  }

  lemma ProvisionedSays(t: Tenant, now: int, f: Fact)
    requires ConditionsOk(t.conditions) && NeedsProvisioning(t)
    ensures var said := Saying(MarkProvisioned(t, now).conditions, f);
            if f == IS_PROVISIONED then said.Some? && said.value.since == C.Second(now) && Saying(t.conditions, f).None?
            else if f.kind == PROVISIONED_CONDITION then said.None?
            else said == Saying(t.conditions, f)
  {
    C.OrderedUniqueIsCanonical(t.conditions);
    C.GetFinds(t.conditions, PROVISIONED_CONDITION);
    MarkSays(t.conditions, C.Fresh(PROVISIONED_CONDITION, C.True, "Success", "Success to provision"), now, f);
  }

  lemma NotProvisionedSays(t: Tenant, now: int, f: Fact)
    requires ConditionsOk(t.conditions) && NeedsProvisioning(t)
    ensures var said, was := Saying(MarkNotProvisioned(t, now).conditions, f), Saying(t.conditions, f);
            if f == NOT_PROVISIONED && was.None? then said.Some? && said.value.since == C.Second(now)
            else said == was
  {
    C.OrderedUniqueIsCanonical(t.conditions);
    C.GetFinds(t.conditions, PROVISIONED_CONDITION);
    MarkSays(t.conditions, C.Fresh(PROVISIONED_CONDITION, C.False, "Failed", "Failed to handle phase"), now, f);
  }

  lemma ReadySays(t: Tenant, now: int, f: Fact)
    requires ConditionsOk(t.conditions) && Recorded(t.conditions) >= 2
    ensures var said, was := Saying(MarkReady(t, now).conditions, f), Saying(t.conditions, f);
            if f == IS_READY && was.None? then said.Some? && said.value.since == C.Second(now)
            else said == was
  {
    C.OrderedUniqueIsCanonical(t.conditions);
    C.GetFinds(t.conditions, READY_CONDITION);
    MarkSays(t.conditions, C.Fresh(READY_CONDITION, C.True, "Success", "Ready"), now, f);
  }

  // ---------- One call ----------

  /** The call finds or makes the last of the seven objects. */
  predicate EndsProvisioning(c: Cell, call: Call) {
    call.outcome.Answered? &&
    ((c.proc.Probing? && c.proc.part.Manager? && Manager in c.host) ||
     (c.proc.Creating? && c.proc.part.Manager? && Manager !in c.host))
  }

  /** The call fails at an object other than the namespace. */
  predicate FailsProvisioning(setup: Setup, c: Cell, call: Call) {
    && (c.proc.Probing? || c.proc.ReadingCA? || c.proc.Creating?) && !c.proc.part.HostNamespace?
    && Troubled(setup, c, call)
  }

  /** The call looks at the second deployment and finds equal counts. */
  predicate EndsChecks(c: Cell, call: Call) { LooksEqual(c, call) && c.proc.part.Manager? }

  /** The call brings about what is said. */
  predicate Brings(setup: Setup, c: Cell, call: Call, f: Fact) {
    || (f == IS_PROVISIONED && EndsProvisioning(c, call))
    || (f == NOT_PROVISIONED && FailsProvisioning(setup, c, call))
    || (f == IS_READY && EndsChecks(c, call))
  }

  /** What one call does to what is said: nothing, unless it brings it about, and then at the clock's time. */
  ghost predicate Tells(setup: Setup, c: Cell, call: Call, d: Cell, f: Fact) {
    && (Shows(c, f) ==> forall since | ShowsSince(c, f, since) :: ShowsSince(d, f, since))
    && (!Shows(c, f) && Shows(d, f) ==> Brings(setup, c, call, f) && ShowsSince(d, f, C.Second(call.now)))
  }

  /** What is said in the store is what the reconcile has read. */
  lemma NothingNewTells(setup: Setup, c: Cell, call: Call, d: Cell, f: Fact)
    requires d.tenant == c.tenant && Meant(d, f).None?
    ensures Tells(setup, c, call, d, f)
  {
  }

  lemma PartFailedTells(setup: Setup, c: Cell, call: Call, d: Cell, seen: Tenant, part: Part, f: Fact)
    requires ConditionsOk(seen.conditions) && c.tenant.Some? && SameStatus(c.tenant.value, seen)
    requires InHand(c.proc).None? && d.tenant == c.tenant && d.proc == PartFailed(seen, part, call.now)
    requires !part.HostNamespace? ==> NeedsProvisioning(seen) && FailsProvisioning(setup, c, call)
    ensures Tells(setup, c, call, d, f)
  {
    hide MarkNotProvisioned, DerivePhase, FailsProvisioning, EndsProvisioning, EndsChecks;
    if !part.HostNamespace? {
      NotProvisionedSays(seen, call.now, f);
    }
  }

  lemma PartExistsTells(setup: Setup, c: Cell, call: Call, d: Cell, seen: Tenant, part: Part, f: Fact)
    requires ConditionsOk(seen.conditions) && c.tenant.Some? && SameStatus(c.tenant.value, seen)
    requires InHand(c.proc).None? && d.tenant == c.tenant && d.proc == PartExists(seen, part, call.now)
    requires part.Manager? ==> NeedsProvisioning(seen) && EndsProvisioning(c, call)
    ensures Tells(setup, c, call, d, f)
  {
    hide MarkProvisioned, FailsProvisioning, EndsProvisioning, EndsChecks;
    if part.Manager? {
      ProvisionedSays(seen, call.now, f);
    }
  }

  lemma WorkTells(setup: Setup, c: Cell, call: Call, f: Fact)
    requires Inv(setup, c) && (c.proc.Probing? || c.proc.ReadingCA? || c.proc.Creating?)
    ensures Tells(setup, c, call, AfterCall(setup, c, call), f)
  {
    hide Draft, DraftKubeconfig, PartFailed, PartExists, HostOk, Tells, IsKubeconfig;
    var seen, part, d := c.proc.seen, c.proc.part, AfterCall(setup, c, call);
    WorkGoes(setup, c, call);
    if Troubled(setup, c, call) {
      PartFailedTells(setup, c, call, d, seen, part, f);
    } else if InHand(d.proc).Some? {
      PartExistsTells(setup, c, call, d, seen, part, f);
    } else {
      NothingNewTells(setup, c, call, d, f);
    }
  }

  lemma WorkGoes(setup: Setup, c: Cell, call: Call)
    requires c.proc.Probing? || c.proc.ReadingCA? || c.proc.Creating?
    ensures var d := AfterCall(setup, c, call);
            && d.tenant == c.tenant
            && (Troubled(setup, c, call) ==> d.proc == PartFailed(c.proc.seen, c.proc.part, call.now))
            && (!Troubled(setup, c, call) ==>
                  InHand(d.proc).None? ||
                  (d.proc == PartExists(c.proc.seen, c.proc.part, call.now) &&
                   (c.proc.part.Manager? ==> EndsProvisioning(c, call))))
  {
    hide Draft, DraftKubeconfig, PartFailed;
  }

  /** Whatever is said afterwards was said before in the same words. */
  predicate OldNews(c: Cell, d: Cell, f: Fact) {
    && (Stored(d, f).Some? ==> Stored(d, f) == Stored(c, f) || Stored(d, f) == Meant(c, f))
    && (Meant(d, f).Some? ==> Meant(d, f) == Stored(c, f) || Meant(d, f) == Meant(c, f))
  }

  lemma OldNewsTells(setup: Setup, c: Cell, call: Call, d: Cell, f: Fact)
    requires OldNews(c, d, f)
    ensures Tells(setup, c, call, d, f)
  {
    hide Brings, Stored, Meant;
  }

  lemma CheckingGoes(setup: Setup, c: Cell, call: Call)
    requires c.proc.Checking? && (c.proc.part.Apiserver? || c.proc.part.Manager?)
    ensures var d, mem := AfterCall(setup, c, call), c.proc.mem;
            && d.tenant == c.tenant && InHand(d.proc).Some?
            && InHand(d.proc).value.1.conditions ==
               if EndsChecks(c, call) then MarkReady(mem, call.now).conditions else mem.conditions
  {
    hide C.MarkTrue, DerivePhase;
  }

  lemma BroughtNowTells(setup: Setup, c: Cell, call: Call, d: Cell, f: Fact)
    requires !Shows(c, f) && Brings(setup, c, call, f) && ShowsSince(d, f, C.Second(call.now))
    ensures Tells(setup, c, call, d, f)
  {
  }

  lemma CheckingTells(setup: Setup, c: Cell, call: Call, f: Fact)
    requires Inv(setup, c) && c.proc.Checking?
    ensures Tells(setup, c, call, AfterCall(setup, c, call), f)
  {
    hide AfterCall, MarkReady, HostOk, EndsChecks, EndsProvisioning, FailsProvisioning, Tells;
    var d := AfterCall(setup, c, call);
    CheckingGoes(setup, c, call);
    ReadySays(c.proc.mem, call.now, f);
    ReadyStaysSaid(c.proc.seen.conditions, c.proc.mem.conditions);
    if !EndsChecks(c, call) || f != IS_READY || Meant(c, f).Some? {
      OldNewsTells(setup, c, call, d, f);
    } else {
      assert Stored(c, f).None? && Stored(d, f).None? && Meant(d, f).Some?;
      BroughtNowTells(setup, c, call, d, f);
    }
  }

  /** What records more still says Ready if it was said. */
  lemma ReadyStaysSaid(before: C.Conditions, after: C.Conditions)
    requires ConditionsOk(before) && RecordsMore(before, after)
    ensures Saying(before, IS_READY).Some? ==> Saying(after, IS_READY).Some?
  {
  }

  lemma RereadingTells(setup: Setup, c: Cell, call: Call, f: Fact)
    requires c.proc.Rereading?
    ensures OldNews(c, AfterCall(setup, c, call), f)
  {
    hide MainDiffers, StatusDiffers, Saying;
  }

  lemma MainPatchGoes(setup: Setup, c: Cell, call: Call)
    requires c.proc.PatchingMain?
    ensures var (stored, response) := MainEndpoint(c.tenant, PatchBetween(c.proc.base, c.proc.goal), call.outcome);
            var d := AfterCall(setup, c, call);
            && d.tenant == stored
            && (InHand(d.proc).Some? ==> InHand(d.proc).value.1.conditions == c.proc.goal.conditions)
  {
    hide PatchBetween, MainEndpoint, StatusDiffers;
  }

  lemma MainPatchTells(setup: Setup, c: Cell, call: Call, f: Fact)
    requires Inv(setup, c) && c.proc.PatchingMain?
    ensures OldNews(c, AfterCall(setup, c, call), f)
  {
    hide AfterCall, PatchBetween, Decode, PatchMain, HostOk, StatusOk, Saying;
    MainPatchGoes(setup, c, call);
    if c.tenant.Some? {
      MainPatchEffect(c.tenant.value, c.proc.base, c.proc.goal, call.outcome);
    }
  }

  lemma StatusPatchTells(setup: Setup, c: Cell, call: Call, f: Fact)
    requires Inv(setup, c) && c.proc.PatchingStatus?
    ensures OldNews(c, AfterCall(setup, c, call), f)
  {
    hide PatchBetween, StatusEndpoint, HostOk, StatusOk, Saying;
    StatusPatchEffect(c.tenant.value, c.proc.base, c.proc.goal, call.outcome);
  }

  lemma ReadingTells(setup: Setup, c: Cell, call: Call, f: Fact)
    requires c.proc.Reading? || c.proc.AtRest()
    ensures Tells(setup, c, call, AfterCall(setup, c, call), f)
  {
    hide DerivePhase, Brings;
  }

  lemma CallTells(setup: Setup, c: Cell, call: Call, f: Fact)
    requires Inv(setup, c)
    ensures Tells(setup, c, call, AfterCall(setup, c, call), f)
  {
    hide AfterCall, Inv, Tells, OldNews;
    if c.proc.Checking? {
      CheckingTells(setup, c, call, f);
    } else if c.proc.Reading? || c.proc.AtRest() {
      ReadingTells(setup, c, call, f);
    } else if c.proc.Probing? || c.proc.ReadingCA? || c.proc.Creating? {
      WorkTells(setup, c, call, f);
    } else {
      if c.proc.Rereading? {
        RereadingTells(setup, c, call, f);
      } else if c.proc.PatchingMain? {
        MainPatchTells(setup, c, call, f);
      } else {
        StatusPatchTells(setup, c, call, f);
      }
      OldNewsTells(setup, c, call, AfterCall(setup, c, call), f);
    }
  }

  // ---------- Over a run ----------

  /** The surroundings say nothing; they may unsay, with the Tenant itself. */
  lemma OneEnvTellsNothing(setup: Setup, c: Cell, env: Env, f: Fact)
    ensures var d := AfterEnv(setup.name, c, env);
            && (Stored(d, f).Some? ==> Stored(d, f) == Stored(c, f))
            && (Meant(d, f).Some? ==> Meant(d, f) == Meant(c, f))
  {
  }

  lemma {:induction false} EnvsTellNothing(setup: Setup, c: Cell, envs: seq<Env>, f: Fact)
    ensures var d := AfterEnvs(setup.name, c, envs);
            && (Stored(d, f).Some? ==> Stored(d, f) == Stored(c, f))
            && (Meant(d, f).Some? ==> Meant(d, f) == Meant(c, f))
    decreases envs
  {
    hide AfterEnv, Stored, Meant;
    if envs != [] {
      OneEnvTellsNothing(setup, c, envs[0], f);
      EnvsTellNothing(setup, AfterEnv(setup.name, c, envs[0]), envs[1..], f);
    }
  }

  /** What the state is in which the i-th event's call takes effect. */
  function MetAt(setup: Setup, c: Cell, es: seq<Event>, i: nat): Cell
    requires i < |es|
  {
    Met(setup, StateAt(setup, c, es, i), es[i])
  }

  lemma MetTellsNothing(setup: Setup, c: Cell, e: Event, f: Fact)
    ensures Shows(Met(setup, c, e), f) ==> Shows(c, f)
    ensures forall since | ShowsSince(c, f, since) :: ShowsSince(Met(setup, c, e), f, since)
  {
    hide Stored, Meant, AfterEnvs;
    if e.Perform? { EnvsTellNothing(setup, c, e.call.before, f); }
  }

  lemma StepTells(setup: Setup, c: Cell, e: Event, f: Fact)
    requires Inv(setup, c)
    ensures var met, d := Met(setup, c, e), Step(setup, c, e);
            && (Shows(met, f) ==> forall since | ShowsSince(met, f, since) :: ShowsSince(d, f, since))
            && (!Shows(met, f) && Shows(d, f) ==>
                  e.Perform? && Brings(setup, met, e.call, f) && ShowsSince(d, f, C.Second(e.call.now)))
  {
    hide AfterCall, AfterEnvs, AfterEnv, Inv, Brings, Saying;
    match e
    case Perform(call) =>
      MetOk(setup, c, e);
      CallTells(setup, Met(setup, c, e), call, f);
    case Surroundings(env) => OneEnvTellsNothing(setup, c, env, f);
    case _ =>
  }

  /** The j-th event brought it about, and it has been said ever since. */
  ghost predicate BroughtAt(setup: Setup, c: Cell, es: seq<Event>, j: int, f: Fact) {
    && 0 <= j < |es| && es[j].Perform?
    && !Shows(MetAt(setup, c, es, j), f) && Brings(setup, MetAt(setup, c, es, j), es[j].call, f)
    && forall k | j < k <= |es| :: Shows(StateAt(setup, c, es, k), f)
  }

  lemma BroughtEarlier(setup: Setup, c: Cell, es: seq<Event>, j: nat, f: Fact)
    requires es != [] && BroughtAt(setup, c, es[..|es| - 1], j, f) && Shows(Run(setup, c, es), f)
    ensures BroughtAt(setup, c, es, j, f)
  {
    hide Shows, Brings, Run;
    var pre := es[..|es| - 1];
    assert forall k | 0 <= k < |es| :: pre[..k] == es[..k];
    assert es[..|es|] == es;
    forall k | j < k <= |es| ensures Shows(StateAt(setup, c, es, k), f) {
      if k < |es| { assert StateAt(setup, c, pre, k) == StateAt(setup, c, es, k); }
    }
    assert StateAt(setup, c, pre, j) == StateAt(setup, c, es, j);
  }

  /**
   If a run that starts without it ends with a condition saying something, stored or about to be,
   then an event brought it about, it has been said ever since, and its time is that event's.
   */
  lemma {:induction false} FactWasBrought(setup: Setup, c: Cell, es: seq<Event>, f: Fact) returns (j: nat)
    requires Inv(setup, c) && !Shows(c, f) && Shows(Run(setup, c, es), f)
    ensures BroughtAt(setup, c, es, j, f)
    ensures ShowsSince(Run(setup, c, es), f, C.Second(es[j].call.now))
  {
    hide Inv, Shows, ShowsSince, Brings, Step, Met;
    var n := |es| - 1;
    var pre := es[..n];
    SnocRun(setup, c, es);
    RunKeepsInv(setup, c, pre);
    var d := Run(setup, c, pre);
    MetTellsNothing(setup, d, es[n], f);
    StepTells(setup, d, es[n], f);
    if Shows(Met(setup, d, es[n]), f) {
      j := FactWasBrought(setup, c, pre, f);
      BroughtEarlier(setup, c, es, j, f);
    } else {
      j := n;
      assert es[..|es|] == es;
    }
  }

  // ---------- What becomes of what is said ----------

  /** A condition, once there, stays identical, its time included, or becomes true and was not. */
  predicate StaysOrComesTrue(before: Option<C.Condition>, after: Option<C.Condition>) {
    before.Some? ==> after.Some? && (after == before || (after.value.status.True? && !before.value.status.True?))
  }

  ghost predicate Evolves(before: C.Conditions, after: C.Conditions) {
    forall kind :: StaysOrComesTrue(C.Get(before, kind), C.Get(after, kind))
  }

  lemma EvolvesOn(a: C.Conditions, b: C.Conditions, c: C.Conditions)
    requires Evolves(a, b) && Evolves(b, c)
    ensures Evolves(a, c)
  {
    forall kind ensures StaysOrComesTrue(C.Get(a, kind), C.Get(c, kind)) {
      assert StaysOrComesTrue(C.Get(a, kind), C.Get(b, kind)) && StaysOrComesTrue(C.Get(b, kind), C.Get(c, kind));
    }
  }

  /** Whatever mark is set on a list without a true condition of its type that says otherwise, the list evolves. */
  lemma MarkEvolves(cs: C.Conditions, mark: C.Condition, now: int)
    requires C.UniqueTypes(cs) && mark.since.Zero?
    requires var was := C.Get(cs, mark.kind);
             was.Some? ==> C.SameState(was.value, mark) || (mark.status.True? && !was.value.status.True?)
    ensures Evolves(cs, C.Set(cs, mark, now))
  {
    C.SetRefinesMapUpdate(cs, mark, now);
    forall kind ensures StaysOrComesTrue(C.Get(cs, kind), C.Get(C.Set(cs, mark, now), kind)) {
      if kind != mark.kind { assert C.Get(C.Set(cs, mark, now), kind) == C.Get(cs, kind); }
    }
  }

  lemma MarksEvolve(t: Tenant, now: int)
    requires ConditionsOk(t.conditions)
    ensures NeedsProvisioning(t) ==> Evolves(t.conditions, MarkProvisioned(t, now).conditions)
    ensures NeedsProvisioning(t) ==> Evolves(t.conditions, MarkNotProvisioned(t, now).conditions)
    ensures Evolves(t.conditions, MarkReady(t, now).conditions)
  {
    C.OrderedUniqueIsCanonical(t.conditions);
    C.GetFinds(t.conditions, PROVISIONED_CONDITION);
    C.GetFinds(t.conditions, READY_CONDITION);
    MarkEvolves(t.conditions, C.Fresh(READY_CONDITION, C.True, "Success", "Ready"), now);
    if NeedsProvisioning(t) {
      MarkEvolves(t.conditions, C.Fresh(PROVISIONED_CONDITION, C.True, "Success", "Success to provision"), now);
      MarkEvolves(t.conditions, C.Fresh(PROVISIONED_CONDITION, C.False, "Failed", "Failed to handle phase"), now);
    }
  }

  /** What the reconcile in flight means to store has evolved from what it read. */
  ghost predicate HandEvolves(c: Cell) {
    InHand(c.proc).Some? ==> Evolves(InHand(c.proc).value.0.conditions, InHand(c.proc).value.1.conditions)
  }

  ghost predicate TenantEvolves(c: Cell, d: Cell) {
    c.tenant.Some? && d.tenant.Some? ==> Evolves(c.tenant.value.conditions, d.tenant.value.conditions)
  }

  lemma EvolvesBySelf(cs: C.Conditions)
    ensures Evolves(cs, cs)
  {
  }

  lemma WorkEvolves(setup: Setup, c: Cell, call: Call)
    requires Inv(setup, c) && (c.proc.Probing? || c.proc.ReadingCA? || c.proc.Creating?)
    ensures HandEvolves(AfterCall(setup, c, call)) && AfterCall(setup, c, call).tenant == c.tenant
  {
    hide Draft, DraftKubeconfig, MarkNotProvisioned, MarkProvisioned, DerivePhase, HostOk, Evolves;
    MarksEvolve(c.proc.seen, call.now);
    EvolvesBySelf(c.proc.seen.conditions);
  }

  lemma CheckingEvolves(setup: Setup, c: Cell, call: Call)
    requires Inv(setup, c) && c.proc.Checking? && HandEvolves(c)
    ensures HandEvolves(AfterCall(setup, c, call)) && AfterCall(setup, c, call).tenant == c.tenant
  {
    hide MarkReady, DerivePhase, HostOk, Evolves, AfterCall;
    var seen, mem := c.proc.seen, c.proc.mem;
    CheckingGoes(setup, c, call);
    CheckingKeepsSeen(setup, c, call);
    MarksEvolve(mem, call.now);
    EvolvesOn(seen.conditions, mem.conditions, MarkReady(mem, call.now).conditions);
  }

  lemma CheckingKeepsSeen(setup: Setup, c: Cell, call: Call)
    requires c.proc.Checking?
    ensures var d := AfterCall(setup, c, call); InHand(d.proc).Some? && InHand(d.proc).value.0 == c.proc.seen
  {
    hide MarkReady, DerivePhase;
  }

  lemma MainPatchEvolves(setup: Setup, c: Cell, call: Call)
    requires Inv(setup, c) && c.proc.PatchingMain? && HandEvolves(c)
    ensures HandEvolves(AfterCall(setup, c, call)) && TenantEvolves(c, AfterCall(setup, c, call))
  {
    hide AfterCall, PatchBetween, Decode, PatchMain, HostOk, StatusOk, Evolves;
    MainPatchGoes(setup, c, call);
    MainPatchKeepsSeen(setup, c, call);
    if c.tenant.Some? {
      MainPatchEffect(c.tenant.value, c.proc.base, c.proc.goal, call.outcome);
      EvolvesBySelf(c.tenant.value.conditions);
    }
  }

  lemma MainPatchKeepsSeen(setup: Setup, c: Cell, call: Call)
    requires c.proc.PatchingMain?
    ensures var d := AfterCall(setup, c, call); InHand(d.proc).Some? ==> InHand(d.proc).value.0 == c.proc.seen
  {
    hide PatchBetween, MainEndpoint, StatusDiffers;
  }

  lemma StatusPatchEvolves(setup: Setup, c: Cell, call: Call)
    requires Inv(setup, c) && c.proc.PatchingStatus? && HandEvolves(c)
    ensures HandEvolves(AfterCall(setup, c, call)) && TenantEvolves(c, AfterCall(setup, c, call))
  {
    hide PatchBetween, StatusEndpoint, HostOk, StatusOk, Evolves;
    StatusPatchEffect(c.tenant.value, c.proc.base, c.proc.goal, call.outcome);
    EvolvesBySelf(c.tenant.value.conditions);
  }

  lemma OtherCallEvolves(setup: Setup, c: Cell, call: Call)
    requires (c.proc.Reading? || c.proc.Rereading? || c.proc.AtRest()) && HandEvolves(c)
    ensures HandEvolves(AfterCall(setup, c, call)) && AfterCall(setup, c, call).tenant == c.tenant
  {
    hide DerivePhase, MainDiffers, StatusDiffers, Evolves;
    if c.tenant.Some? { EvolvesBySelf(c.tenant.value.conditions); }
  }

  lemma CallEvolves(setup: Setup, c: Cell, call: Call)
    requires Inv(setup, c) && HandEvolves(c)
    ensures HandEvolves(AfterCall(setup, c, call)) && TenantEvolves(c, AfterCall(setup, c, call))
  {
    hide AfterCall, Inv, HandEvolves, Evolves;
    if c.tenant.Some? { EvolvesBySelf(c.tenant.value.conditions); }
    if c.proc.Checking? {
      CheckingEvolves(setup, c, call);
    } else if c.proc.PatchingMain? {
      MainPatchEvolves(setup, c, call);
    } else if c.proc.PatchingStatus? {
      StatusPatchEvolves(setup, c, call);
    } else if c.proc.Probing? || c.proc.ReadingCA? || c.proc.Creating? {
      WorkEvolves(setup, c, call);
    } else {
      OtherCallEvolves(setup, c, call);
    }
  }

  lemma OneEnvEvolves(name: string, c: Cell, env: Env)
    requires HandEvolves(c)
    ensures HandEvolves(AfterEnv(name, c, env))
    ensures !env.UserCreates? ==> SameLifeConditions(c, AfterEnv(name, c, env))
  {
    hide Evolves;
  }

  predicate SameLifeConditions(c: Cell, d: Cell) {
    d.tenant.Some? ==> c.tenant.Some? && d.tenant.value.conditions == c.tenant.value.conditions
  }

  lemma {:induction false} EnvsEvolve(name: string, c: Cell, envs: seq<Env>)
    requires HandEvolves(c)
    ensures HandEvolves(AfterEnvs(name, c, envs))
    ensures (forall x | x in envs :: !x.UserCreates?) ==> SameLifeConditions(c, AfterEnvs(name, c, envs))
    decreases envs
  {
    hide HandEvolves, AfterEnv;
    if envs != [] {
      OneEnvEvolves(name, c, envs[0]);
      EnvsEvolve(name, AfterEnv(name, c, envs[0]), envs[1..]);
    }
  }

  /** Within a life, conditions evolve, and no Tenant comes back. */
  ghost predicate LifeEvolves(c: Cell, d: Cell) {
    d.tenant.Some? ==> c.tenant.Some? && Evolves(c.tenant.value.conditions, d.tenant.value.conditions)
  }

  lemma SameLifeEvolves(c: Cell, d: Cell, e: Cell)
    requires SameLifeConditions(c, d) && (e.tenant.Some? ==> d.tenant.Some?) && TenantEvolves(d, e)
    ensures LifeEvolves(c, e)
  {
    hide Evolves;
  }

  lemma StepEvolves(setup: Setup, c: Cell, e: Event)
    requires Inv(setup, c) && HandEvolves(c)
    ensures HandEvolves(Step(setup, c, e)) && (WithinLife(e) ==> LifeEvolves(c, Step(setup, c, e)))
  {
    hide AfterCall, AfterEnvs, AfterEnv, Inv, Evolves;
    var d := Step(setup, c, e);
    if d.tenant.Some? { EvolvesBySelf(d.tenant.value.conditions); }
    match e
    case Perform(call) =>
      var met := Met(setup, c, e);
      MetOk(setup, c, e);
      EnvsEvolve(setup.name, c, call.before);
      CallEvolves(setup, met, call);
      CallDoesNotRegress(setup, met, call);
      if WithinLife(e) { SameLifeEvolves(c, met, d); }
    case Surroundings(env) => OneEnvEvolves(setup.name, c, env);
    case _ =>
  }

  lemma LifeEvolvesOn(c: Cell, d: Cell, e: Cell)
    requires LifeEvolves(c, d) && LifeEvolves(d, e)
    ensures LifeEvolves(c, e)
  {
    hide Evolves;
    if e.tenant.Some? {
      EvolvesOn(c.tenant.value.conditions, d.tenant.value.conditions, e.tenant.value.conditions);
    }
  }

  lemma {:induction false} RunEvolves(setup: Setup, c: Cell, es: seq<Event>)
    requires Inv(setup, c) && HandEvolves(c)
    ensures HandEvolves(Run(setup, c, es)) && (OneLife(es) ==> LifeEvolves(c, Run(setup, c, es)))
    decreases es
  {
    hide Step, Inv, HandEvolves, LifeEvolves, WithinLife;
    if es == [] {
      LifeEvolvesBySelf(c);
    } else {
      var d := Step(setup, c, es[0]);
      StepEvolves(setup, c, es[0]);
      StepKeepsInv(setup, c, es[0]);
      RunEvolves(setup, d, es[1..]);
      if OneLife(es) { LifeEvolvesOn(c, d, Run(setup, c, es)); }
    }
  }

  lemma LifeEvolvesBySelf(c: Cell)
    ensures LifeEvolves(c, c)
  {
  }

  /**
   Over any run of one life from any reachable state, through whatever faults, no stored condition
   vanishes, and each stays identical, its time included, unless it becomes true and was not.
   */
  lemma ConditionsEvolve(setup: Setup, c: Cell, es: seq<Event>, kind: string)
    requires Reachable(setup, c) && OneLife(es) && Run(setup, c, es).tenant.Some?
    ensures c.tenant.Some?
    ensures StaysOrComesTrue(C.Get(c.tenant.value.conditions, kind),
                             C.Get(Run(setup, c, es).tenant.value.conditions, kind))
  {
    hide Step, Inv, StaysOrComesTrue;
    ReachableInv(setup, c);
    var first :| c == Run(setup, EMPTY, first);
    EmptyIsOk(setup);
    RunEvolves(setup, EMPTY, first);
    RunEvolves(setup, c, es);
  }

  lemma EmptyIsOk(setup: Setup)
    ensures Inv(setup, EMPTY) && HandEvolves(EMPTY)
  {
  }

  /** In every reachable state a stored condition carries the clock of the call that brought it about. */
  lemma StoredTimeIsTrue(setup: Setup, es: seq<Event>, f: Fact) returns (j: nat)
    requires Stored(Run(setup, EMPTY, es), f).Some?
    ensures BroughtAt(setup, EMPTY, es, j, f)
    ensures Stored(Run(setup, EMPTY, es), f).value.since == C.Second(es[j].call.now)
  {
    hide Inv, Step;
    EmptyIsOk(setup);
    j := FactWasBrought(setup, EMPTY, es, f);
  }
}
