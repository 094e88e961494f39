/** What a stored Ready condition says: which deployments were seen, with what counts, and when. */
module Readiness {
  import opened Wrappers
  import opened HostObjects
  import opened Protocol
  import opened Invariants
  import opened Lifetimes
  import opened Verdicts
  import opened TransitionTimes
  import C = Conditions

  /** One deployment has been seen with equal counts, and the other is looked at next. */
  predicate Halfway(p: Proc) { p.Checking? && p.part.Manager? }

  /** The deployment the next call looks at, if it is there. */
  function Looked(c: Cell): Option<HostObject> {
    if c.proc.Checking? && c.proc.part in c.host && c.host[c.proc.part].Deployment?
    then Some(c.host[c.proc.part])
    else None
  }

  /** The call looks at the deployment of a part, is answered, and meets equal counts. */
  predicate SeesEqual(setup: Setup, c: Cell, e: Event, part: Part) {
    e.Perform? && LooksEqual(Met(setup, c, e), e.call) && Met(setup, c, e).proc.part == part
  }

  /**
   Within the run, the i-th event sees the apiserver and the j-th, later in the same reconcile, the
   controller manager.
   */
  ghost predicate ReadySeen(setup: Setup, c: Cell, es: seq<Event>, i: int, j: int) {
    && 0 <= i < j < |es|
    && SeesEqual(setup, StateAt(setup, c, es, i), es[i], Apiserver)
    && SeesEqual(setup, StateAt(setup, c, es, j), es[j], Manager)
    && forall k | i < k <= j :: Halfway(StateAt(setup, c, es, k).proc)
  }

  /** A reconcile gets halfway only by a look at the apiserver that finds equal counts. */
  lemma CallGoesHalfway(setup: Setup, c: Cell, call: Call)
    requires Halfway(AfterCall(setup, c, call).proc)
    ensures LooksEqual(c, call) && c.proc.part.Apiserver?
  {
  }

  lemma {:induction false} EnvsGoNowhere(setup: Setup, c: Cell, es: seq<Env>)
    ensures Halfway(AfterEnvs(setup.name, c, es).proc) ==> Halfway(c.proc)
    decreases es
  {
    if es != [] {
      EnvsGoNowhere(setup, AfterEnv(setup.name, c, es[0]), es[1..]);
    }
  }

  lemma StepGoesHalfway(setup: Setup, c: Cell, e: Event)
    requires !Halfway(c.proc) && Halfway(Step(setup, c, e).proc)
    ensures SeesEqual(setup, c, e, Apiserver)
  {
    if e.Perform? {
      hide AfterCall, AfterEnvs;
      EnvsGoNowhere(setup, c, e.call.before);
      CallGoesHalfway(setup, Met(setup, c, e), e.call);
    } else if e.Surroundings? {
      EnvsGoNowhere(setup, c, [e.env]);
    }
  }

  lemma {:induction false} HalfwaySaw(setup: Setup, c: Cell, es: seq<Event>) returns (i: nat)
    requires !Halfway(c.proc) && Halfway(Run(setup, c, es).proc)
    ensures i < |es| && SeesEqual(setup, StateAt(setup, c, es, i), es[i], Apiserver)
    ensures forall k | i < k <= |es| :: Halfway(StateAt(setup, c, es, k).proc)
  {
    hide SeesEqual, Halfway;
    var n := |es| - 1;
    var pre := es[..n];
    SnocRun(setup, c, es);
    var d := Run(setup, c, pre);
    assert es[..|es|] == es;
    if Halfway(d.proc) {
      i := HalfwaySaw(setup, c, pre);
      assert forall k | 0 <= k <= n :: pre[..k] == es[..k];
      forall k | i < k <= |es| ensures Halfway(StateAt(setup, c, es, k).proc) {
        if k <= n { assert StateAt(setup, c, pre, k) == StateAt(setup, c, es, k); }
      }
    } else {
      i := n;
      StepGoesHalfway(setup, d, es[n]);
    }
  }

  /** What the i-th event of the run looked at. */
  function LookedAt(setup: Setup, c: Cell, es: seq<Event>, i: nat): Option<HostObject>
    requires i < |es|
  {
    Looked(MetAt(setup, c, es, i))
  }

  /** A replica of the deployment was ready. */
  predicate Runs(o: Option<HostObject>) { o.Some? && o.value.Deployment? && o.value.readyReplicas > 0 }

  /** The deployment had come to ask for a replica. */
  predicate Scaled(o: Option<HostObject>) { o.Some? && o.value.Deployment? && o.value.replicas > 0 }

  /**
   If a run that starts without Ready ends with Ready stored, then in one of its reconciles an
   answered call met the apiserver's deployment and a later one the controller manager's, each
   with as many ready replicas as replicas. At those two calls both were running exactly if both
   had replicas at all, which is what the comparison of counts does not ask. The condition's time
   is that of the second of the two.
   */
  lemma ReadyWasSeen(setup: Setup, c: Cell, es: seq<Event>) returns (i: nat, j: nat)
    requires Inv(setup, c) && !Shows(c, IS_READY) && !Halfway(c.proc)
    requires Stored(Run(setup, c, es), IS_READY).Some?
    ensures ReadySeen(setup, c, es, i, j)
    ensures Runs(LookedAt(setup, c, es, i)) <==> Scaled(LookedAt(setup, c, es, i))
    ensures Runs(LookedAt(setup, c, es, j)) <==> Scaled(LookedAt(setup, c, es, j))
    ensures Stored(Run(setup, c, es), IS_READY).value.since == C.Second(es[j].call.now)
  {
    hide Inv, Step, AfterEnvs, Halfway;
    j := FactWasBrought(setup, c, es, IS_READY);
    MetGoesNowhere(setup, StateAt(setup, c, es, j), es[j]);
    i := HalfwaySaw(setup, c, es[..j]);
    SeenInPrefix(setup, c, es, i, j);
  }

  lemma MetGoesNowhere(setup: Setup, c: Cell, e: Event)
    requires e.Perform? && EndsChecks(Met(setup, c, e), e.call)
    ensures SeesEqual(setup, c, e, Manager) && Halfway(c.proc)
  {
    hide AfterEnvs;
    EnvsGoNowhere(setup, c, e.call.before);
  }

  lemma SeenInPrefix(setup: Setup, c: Cell, es: seq<Event>, i: nat, j: nat)
    requires i < j < |es| && SeesEqual(setup, StateAt(setup, c, es, j), es[j], Manager)
    requires SeesEqual(setup, StateAt(setup, c, es[..j], i), es[..j][i], Apiserver)
    requires forall k | i < k <= j :: Halfway(StateAt(setup, c, es[..j], k).proc)
    ensures ReadySeen(setup, c, es, i, j)
  {
    hide SeesEqual, Halfway, Run;
    assert forall k | 0 <= k <= j :: es[..j][..k] == es[..k];
    forall k | i < k <= j ensures Halfway(StateAt(setup, c, es, k).proc) {
      assert StateAt(setup, c, es[..j], k) == StateAt(setup, c, es, k);
    }
    assert StateAt(setup, c, es[..j], i) == StateAt(setup, c, es, i);
  }
}
