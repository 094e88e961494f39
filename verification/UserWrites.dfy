/** What others write to a Tenant is never lost, although the deferred patch stores what an older read returned. */
module UserWrites {
  import opened Tenants
  import opened HostObjects
  import opened Protocol
  import opened Invariants
  import opened Lifetimes
  import C = Conditions

  /** The part of a Tenant that belongs to its user: all but our finalizer and the status. */
  datatype UserPart = UserPart(
    name: string,
    uid: nat,
    labels: map<string, string>,
    annotations: map<string, string>,
    owners: seq<OwnerReference>,
    otherFinalizers: seq<string>,
    deletionTimestamp: C.Time)

  function UserPartOf(t: Tenant): UserPart {
    UserPart(t.name, t.uid, t.labels, t.annotations, t.owners, Others(t.finalizers), t.deletionTimestamp)
  }

  /** The finalizers that are not ours, in their order. */
  function Others(finalizers: seq<string>): seq<string> {
    if finalizers == [] then []
    else
      var n := |finalizers| - 1;
      Others(finalizers[..n]) + (if finalizers[n] == FINALIZER then [] else [finalizers[n]])
  }

  lemma AddingKeepsOthers(finalizers: seq<string>)
    ensures Others(finalizers + [FINALIZER]) == Others(finalizers)
  {
    assert (finalizers + [FINALIZER])[..|finalizers|] == finalizers;
  }

  lemma {:induction false} OthersFromFront(finalizers: seq<string>)
    requires finalizers != []
    ensures Others(finalizers) ==
            (if finalizers[0] == FINALIZER then [] else [finalizers[0]]) + Others(finalizers[1..])
  {
    var n := |finalizers| - 1;
    if n > 0 {
      OthersFromFront(finalizers[..n]);
      assert finalizers[..n][1..] == finalizers[1..][..n - 1];
    }
  }

  lemma {:induction false} RemovingKeepsOthers(finalizers: seq<string>)
    ensures Others(Without(finalizers)) == Others(finalizers)
  {
    if finalizers != [] {
      RemovingKeepsOthers(finalizers[1..]);
      OthersFromFront(finalizers);
      var left := Without(finalizers);
      if finalizers[0] != FINALIZER {
        OthersFromFront(left);
        assert left[1..] == Without(finalizers[1..]);
      }
    }
  }

  /** The controller's move of its finalizer leaves the others alone. */
  lemma MovesKeepOthers(seen: Tenant, goal: Tenant)
    requires FinalizerMove(seen, goal)
    ensures Others(goal.finalizers) == Others(seen.finalizers)
  {
    hide Others;
    AddingKeepsOthers(seen.finalizers);
    RemovingKeepsOthers(seen.finalizers);
  }

  function ByUser(u: UserPart, e: Env): UserPart {
    match e
    case UserEdits(labels, annotations) => u.(labels := labels, annotations := annotations)
    case UserDeletes(at) => if u.deletionTimestamp.Zero? then u.(deletionTimestamp := C.Second(at)) else u
    case _ => u
  }

  /** What the user would have, were there no controller. */
  function ByUserAlone(u: UserPart, es: seq<Env>): UserPart
    decreases es
  {
    if es == [] then u else ByUserAlone(ByUser(u, es[0]), es[1..])
  }

  /** All that the surroundings did in a run, between the calls as well as before each of them. */
  function EnvsOf(es: seq<Event>): seq<Env>
    decreases es
  {
    if es == [] then []
    else (match es[0] case Surroundings(env) => [env] case Perform(call) => call.before case _ => []) + EnvsOf(es[1..])
  }

  lemma {:induction false} ByUserConcat(u: UserPart, a: seq<Env>, b: seq<Env>)
    ensures ByUserAlone(u, a + b) == ByUserAlone(ByUserAlone(u, a), b)
    decreases a
  {
    if a == [] {
      assert [] + b == b;
    } else {
      assert (a + b)[1..] == a[1..] + b;
      ByUserConcat(ByUser(u, a[0]), a[1..], b);
    }
  }

  lemma {:induction false} EnvsWriteForUser(name: string, c: Cell, es: seq<Env>)
    requires forall e | e in es :: !e.UserCreates?
    ensures var d := AfterEnvs(name, c, es);
            d.tenant.Some? ==>
              c.tenant.Some? && UserPartOf(d.tenant.value) == ByUserAlone(UserPartOf(c.tenant.value), es)
    decreases es
  {
    if es != [] {
      EnvsWriteForUser(name, AfterEnv(name, c, es[0]), es[1..]);
    }
  }

  /** No call of the controller changes the user's part of a Tenant, or brings a Tenant back. */
  lemma CallsSpareUserPart(setup: Setup, c: Cell, call: Call)
    requires Inv(setup, c)
    ensures var d := AfterCall(setup, c, call);
            d.tenant.Some? ==> c.tenant.Some? && UserPartOf(d.tenant.value) == UserPartOf(c.tenant.value)
  {
    hide Others;
    if c.proc.PatchingMain? {
      if c.tenant.Some? {
        MovesKeepOthers(c.proc.seen, c.proc.goal);
        MainPatchEffect(c.tenant.value, c.proc.base, c.proc.goal, call.outcome);
      }
    } else if c.proc.PatchingStatus? {
      StatusPatchEffect(c.tenant.value, c.proc.base, c.proc.goal, call.outcome);
    } else if !c.proc.Creating? {
      OtherCallsWriteNothing(setup, c, call);
    }
  }

  lemma StepSparesUserPart(setup: Setup, c: Cell, e: Event)
    requires Inv(setup, c) && WithinLife(e)
    ensures var d := Step(setup, c, e);
            d.tenant.Some? ==>
              c.tenant.Some? && UserPartOf(d.tenant.value) == ByUserAlone(UserPartOf(c.tenant.value), EnvsOf([e]))
  {
    match e
    case Surroundings(env) =>
      assert EnvsOf([e]) == [env];
      EnvsWriteForUser(setup.name, c, [env]);
    case Perform(call) =>
      assert EnvsOf([e]) == call.before;
      MetOk(setup, c, e);
      EnvsWriteForUser(setup.name, c, call.before);
      CallsSpareUserPart(setup, AfterEnvs(setup.name, c, call.before), call);
    case Begin =>
    case Crash =>
  }

  /**
   After any run of one life, through whatever faults, all that is stored of the Tenant but our
   finalizer and the status is what the user's own actions produce: labels, annotations, deletion
   timestamp, owners and the other finalizers in their order.
   */
  lemma {:induction false} UserWritesSurvive(setup: Setup, c: Cell, es: seq<Event>)
    requires Inv(setup, c) && OneLife(es) && Run(setup, c, es).tenant.Some?
    ensures c.tenant.Some?
    ensures UserPartOf(Run(setup, c, es).tenant.value) == ByUserAlone(UserPartOf(c.tenant.value), EnvsOf(es))
    decreases es
  {
    hide AfterCall, AfterEnvs, AfterEnv, Inv, Step, EnvsOf, ByUserAlone, UserPartOf;
    EnvsOfRun(es);
    if es == [] {
      ByNobody(c);
    } else {
      var d := Step(setup, c, es[0]);
      StepKeepsInv(setup, c, es[0]);
      UserWritesSurvive(setup, d, es[1..]);
      StepSparesUserPart(setup, c, es[0]);
      ByUserConcat(UserPartOf(c.tenant.value), EnvsOf([es[0]]), EnvsOf(es[1..]));
    }
  }

  lemma EnvsOfRun(es: seq<Event>)
    ensures EnvsOf(es) == if es == [] then [] else EnvsOf([es[0]]) + EnvsOf(es[1..])
  {
  }

  lemma ByNobody(c: Cell)
    requires c.tenant.Some?
    ensures ByUserAlone(UserPartOf(c.tenant.value), []) == UserPartOf(c.tenant.value)
  {
  }
}
