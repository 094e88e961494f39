/** How a reconcile ends: with an error, a requeue or neither, in terms of what its calls met. */
module Verdicts {
  import opened Wrappers
  import opened MergePatch
  import opened Certificates
  import opened TenantPatches
  import opened HostObjects
  import opened Protocol
  import opened Lifetimes

  // ---------- What a call meets ----------

  /** The server cannot do what the call asks for: the object is there already, gone, or not to be patched so. */
  predicate Rejected(c: Cell, outcome: Outcome) {
    match c.proc
    case ReadingCA(_, _) => ServerCert !in c.host
    case Creating(_, part, _) => part in c.host
    case Checking(_, _, part) => part !in c.host || !c.host[part].Deployment?
    case PatchingMain(_, base, goal, _) => MainEndpoint(c.tenant, PatchBetween(base, goal), outcome).1.None?
    case PatchingStatus(_, base, goal, _, _) => StatusEndpoint(c.tenant, PatchBetween(base, goal), outcome).1.None?
    case _ => false
  }

  /** What was found out leaves no object to create: no keys to be had, or no CA to be read. */
  predicate Unmakeable(setup: Setup, c: Cell, entropy: Entropy) {
    match c.proc
    case Probing(seen, part) =>
      part !in c.host && !IsKubeconfig(part) && Draft(setup, part, seen.AsOwner(), entropy).Err?
    case ReadingCA(seen, part) =>
      ServerCert in c.host && DraftKubeconfig(setup, part, seen.AsOwner(), c.host[ServerCert], entropy).Err?
    case _ => false
  }

  /** The call of a reconcile in flight is not answered, or rejected, or leaves nothing to create. */
  predicate Troubled(setup: Setup, c: Cell, call: Call) {
    !c.proc.AtRest() &&
    (!call.outcome.Answered? || Rejected(c, call.outcome) || Unmakeable(setup, c, call.entropy))
  }

  /** An answered look at a deployment that has not as many ready replicas as replicas. */
  predicate LooksUnequal(c: Cell, call: Call) {
    c.proc.Checking? && call.outcome.Answered? && c.proc.part in c.host && c.host[c.proc.part].Deployment? &&
    c.host[c.proc.part].replicas != c.host[c.proc.part].readyReplicas
  }

  predicate LooksEqual(c: Cell, call: Call) {
    c.proc.Checking? && call.outcome.Answered? && c.proc.part in c.host && c.host[c.proc.part].Deployment? &&
    c.host[c.proc.part].replicas == c.host[c.proc.part].readyReplicas
  }

  /** What a reconcile that has done its work is going to report, unless its patch fails. */
  function Carried(p: Proc): Option<Verdict> {
    match p
    case Rereading(_, _, verdict) => Some(verdict)
    case PatchingMain(_, _, _, verdict) => Some(verdict)
    case PatchingStatus(_, _, _, verdict, _) => Some(verdict)
    case Returned(verdict, _, _) => Some(verdict)
    case _ => None
  }

  // ---------- One call ----------

  lemma PatchCarries(setup: Setup, c: Cell, call: Call)
    requires c.proc.PatchingMain? || c.proc.PatchingStatus?
    ensures Carried(AfterCall(setup, c, call).proc) ==
            if Troubled(setup, c, call) then Some(Verdict.Failed) else Carried(c.proc)
  {
    hide PatchBetween, PatchMain, PatchStatus, StatusDiffers;
  }

  lemma WorkCarries(setup: Setup, c: Cell, call: Call)
    requires c.proc.Probing? || c.proc.ReadingCA? || c.proc.Creating? || c.proc.Checking?
    ensures var carried := Carried(AfterCall(setup, c, call).proc);
            && (Troubled(setup, c, call) ==> carried == Some(Verdict.Failed))
            && (!Troubled(setup, c, call) && LooksUnequal(c, call) ==> carried == Some(Requeue))
            && (!Troubled(setup, c, call) && !LooksUnequal(c, call) ==> carried.None? || carried == Some(Finished))
  {
    hide Draft, DraftKubeconfig, MarkNotProvisioned, MarkProvisioned, MarkReady, DerivePhase;
    if c.proc.Probing? && c.proc.part !in c.host && !IsKubeconfig(c.proc.part) && call.outcome.Answered? {
      assert Unmakeable(setup, c, call.entropy) <==>
             Draft(setup, c.proc.part, c.proc.seen.AsOwner(), call.entropy).Err?;
    }
  }

  lemma OtherCallCarries(setup: Setup, c: Cell, call: Call)
    requires c.proc.Reading? || c.proc.Rereading?
    ensures var carried := Carried(AfterCall(setup, c, call).proc);
            && (Troubled(setup, c, call) ==> carried == Some(Verdict.Failed))
            && (!Troubled(setup, c, call) && c.proc.Reading? ==> carried.None? || carried == Some(Finished))
            && (!Troubled(setup, c, call) && c.proc.Rereading? ==> carried == Carried(c.proc))
  {
    hide DerivePhase, MainDiffers, StatusDiffers;
  }

  /** What a reconcile carries after a call follows from what it carried before and from what the call met. */
  lemma CallCarries(setup: Setup, c: Cell, call: Call)
    ensures var before, after := Carried(c.proc), Carried(AfterCall(setup, c, call).proc);
            && (after == Some(Verdict.Failed) <==> before == Some(Verdict.Failed) || Troubled(setup, c, call))
            && (after == Some(Requeue) <==>
                  !Troubled(setup, c, call) && (before == Some(Requeue) || LooksUnequal(c, call)))
  {
    if c.proc.AtRest() {
    } else if c.proc.PatchingMain? || c.proc.PatchingStatus? {
      hide AfterCall, Troubled;
      PatchCarries(setup, c, call);
    } else if c.proc.Reading? || c.proc.Rereading? {
      hide AfterCall, Troubled;
      OtherCallCarries(setup, c, call);
    } else {
      hide AfterCall, Troubled;
      WorkCarries(setup, c, call);
    }
  }

  // ---------- Over a reconcile ----------

  /** Some call of the run, while a reconcile is in flight, gets into trouble. */
  predicate MeetsTrouble(setup: Setup, c: Cell, es: seq<Event>)
    decreases es
  {
    es != [] &&
    ((es[0].Perform? && Troubled(setup, Met(setup, c, es[0]), es[0].call)) ||
     MeetsTrouble(setup, Step(setup, c, es[0]), es[1..]))
  }

  /** Some call of the run looks at a deployment and finds unequal counts. */
  predicate MeetsUnequal(setup: Setup, c: Cell, es: seq<Event>)
    decreases es
  {
    es != [] &&
    ((es[0].Perform? && LooksUnequal(Met(setup, c, es[0]), es[0].call)) ||
     MeetsUnequal(setup, Step(setup, c, es[0]), es[1..]))
  }

  predicate OneReconcileOnly(es: seq<Event>) { forall e | e in es :: !e.Begin? && !e.Crash? }

  /** The surroundings leave a reconcile where it is, or where there is none. */
  lemma {:induction false} EnvsKeepProc(setup: Setup, c: Cell, envs: seq<Env>)
    ensures var d := AfterEnvs(setup.name, c, envs);
            d.proc == c.proc || (d.proc.Idle? && c.proc.AtRest())
    decreases envs
  {
    if envs != [] {
      EnvsKeepProc(setup, AfterEnv(setup.name, c, envs[0]), envs[1..]);
    }
  }

  lemma OneEnvKeepsProc(setup: Setup, c: Cell, env: Env)
    ensures var d := AfterEnv(setup.name, c, env);
            d.proc == c.proc || (d.proc.Idle? && c.proc.AtRest())
  {
    EnvsKeepProc(setup, c, [env]);
  }

  lemma StepCarries(setup: Setup, c: Cell, e: Event)
    requires !e.Begin? && !e.Crash? && !Step(setup, c, e).proc.Idle?
    ensures var before, after := Carried(c.proc), Carried(Step(setup, c, e).proc);
            var met := Met(setup, c, e);
            var trouble := e.Perform? && Troubled(setup, met, e.call);
            && (after == Some(Verdict.Failed) <==> before == Some(Verdict.Failed) || trouble)
            && (after == Some(Requeue) <==>
                  !trouble && (before == Some(Requeue) || (e.Perform? && LooksUnequal(met, e.call))))
            && (before.Some? ==> after.Some? && !(e.Perform? && LooksUnequal(met, e.call)))
  {
    hide AfterCall, AfterEnvs, AfterEnv, Troubled;
    match e
    case Surroundings(env) => OneEnvKeepsProc(setup, c, env);
    case Perform(call) =>
      EnvsKeepProc(setup, c, call.before);
      CallCarries(setup, Met(setup, c, e), call);
      CallKeepsRest(setup, Met(setup, c, e), call);
  }

  lemma CallKeepsRest(setup: Setup, c: Cell, call: Call)
    ensures Carried(c.proc).Some? ==> Carried(AfterCall(setup, c, call).proc).Some?
    ensures c.proc.Idle? ==> AfterCall(setup, c, call) == c
  {
    hide PatchBetween, MainEndpoint, StatusEndpoint, StatusDiffers, MainDiffers;
  }

  lemma {:induction false} IdleStays(setup: Setup, c: Cell, es: seq<Event>)
    requires c.proc.Idle? && OneReconcileOnly(es)
    ensures Run(setup, c, es).proc.Idle?
    decreases es
  {
    hide AfterCall, AfterEnvs, AfterEnv;
    if es != [] {
      match es[0] {
        case Surroundings(env) => OneEnvKeepsProc(setup, c, env);
        case Perform(call) =>
          EnvsKeepProc(setup, c, call.before);
          CallKeepsRest(setup, AfterEnvs(setup.name, c, call.before), call);
        case _ =>
      }
      IdleStays(setup, Step(setup, c, es[0]), es[1..]);
    }
  }

  lemma {:induction false} CarriedSettles(setup: Setup, c: Cell, es: seq<Event>)
    requires Carried(c.proc).Some? && OneReconcileOnly(es) && !Run(setup, c, es).proc.Idle?
    ensures !MeetsUnequal(setup, c, es)
    decreases es
  {
    hide AfterCall, AfterEnvs, AfterEnv, LooksUnequal, Carried;
    if es != [] {
      var d := Step(setup, c, es[0]);
      NotIdle(setup, d, es[1..]);
      StepCarries(setup, c, es[0]);
      CarriedSettles(setup, d, es[1..]);
    }
  }

  lemma NotIdle(setup: Setup, c: Cell, es: seq<Event>)
    requires OneReconcileOnly(es) && !Run(setup, c, es).proc.Idle?
    ensures !c.proc.Idle?
  {
    hide Step;
    if c.proc.Idle? { IdleStays(setup, c, es); }
  }

  lemma {:induction false} RunCarries(setup: Setup, c: Cell, es: seq<Event>)
    requires OneReconcileOnly(es) && !Run(setup, c, es).proc.Idle?
    ensures var before, after := Carried(c.proc), Carried(Run(setup, c, es).proc);
            && (after == Some(Verdict.Failed) <==> before == Some(Verdict.Failed) || MeetsTrouble(setup, c, es))
            && (after == Some(Requeue) <==>
                  !MeetsTrouble(setup, c, es) && (before == Some(Requeue) || MeetsUnequal(setup, c, es)))
    decreases es
  {
    hide AfterCall, AfterEnvs, AfterEnv, LooksUnequal, Troubled, Carried;
    if es != [] {
      var d := Step(setup, c, es[0]);
      NotIdle(setup, d, es[1..]);
      StepCarries(setup, c, es[0]);
      RunCarries(setup, d, es[1..]);
      if Carried(d.proc).Some? { CarriedSettles(setup, d, es[1..]); }
    }
  }

  /**
   A reconcile, followed from its start to its end, reports an error exactly if some call of it was
   not answered, was rejected, or left nothing to create; it asks for a requeue exactly if none was
   and a deployment was seen with unequal counts; and it reports neither in all other cases.
   */
  lemma VerdictIsEarned(setup: Setup, c: Cell, es: seq<Event>)
    requires c.proc.Reading? && OneReconcileOnly(es) && Run(setup, c, es).proc.Returned?
    ensures var verdict := Run(setup, c, es).proc.verdict;
            && (verdict.Failed? <==> MeetsTrouble(setup, c, es))
            && (verdict.Requeue? <==> !MeetsTrouble(setup, c, es) && MeetsUnequal(setup, c, es))
  {
    hide Step, MeetsTrouble, MeetsUnequal;
    RunCarries(setup, c, es);
  }
}
