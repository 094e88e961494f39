/** What becomes of the host objects: they are kept while their tenant lives, and left to garbage collection after. */
module Collection {
  import opened Tenants
  import opened HostObjects
  import opened Protocol
  import opened Invariants

  /** The object has one owner, a Tenant of this name. */
  predicate OwnedByTenant(o: HostObject, name: string) {
    |o.owners| == 1 &&
    o.owners[0] == OwnerReference("tenancy.kcp.io/v1alpha1", "Tenant", name, o.owners[0].uid)
  }

  ghost predicate AllOwned(setup: Setup, c: Cell) { forall p | p in c.host :: OwnedByTenant(c.host[p], setup.name) }

  lemma LiveIsOwned(setup: Setup, c: Cell)
    requires Inv(setup, c) && c.tenant.Some?
    ensures forall p | p in c.host :: c.host[p].owners == [c.tenant.value.AsOwner()]
    ensures AllOwned(setup, c)
  {
    hide ObjectOk;
    forall p | p in c.host ensures c.host[p].owners == [c.tenant.value.AsOwner()] {
      LiveObjectsHaveOwner(setup, c.tenant.value, c.host, p);
    }
  }

  lemma EnvKeepsOwners(setup: Setup, c: Cell, env: Env)
    requires AllOwned(setup, c)
    ensures AllOwned(setup, AfterEnv(setup.name, c, env))
  {
  }

  lemma {:induction false} EnvsKeepOwners(setup: Setup, c: Cell, envs: seq<Env>)
    requires AllOwned(setup, c)
    ensures AllOwned(setup, AfterEnvs(setup.name, c, envs))
    decreases envs
  {
    hide AfterEnv, AllOwned;
    if envs != [] {
      EnvKeepsOwners(setup, c, envs[0]);
      EnvsKeepOwners(setup, AfterEnv(setup.name, c, envs[0]), envs[1..]);
    }
  }

  /** A call that finds or leaves no Tenant makes no object. */
  lemma CallWithoutTenant(setup: Setup, c: Cell, call: Call)
    requires Inv(setup, c) && AfterCall(setup, c, call).tenant.None?
    ensures AfterCall(setup, c, call).host == c.host
  {
    hide Draft, DraftKubeconfig, MainEndpoint, StatusEndpoint, HostOk, StatusOk, GoalOk;
  }

  lemma CallKeepsOwners(setup: Setup, c: Cell, call: Call)
    requires Inv(setup, c) && AllOwned(setup, c)
    ensures AllOwned(setup, AfterCall(setup, c, call))
  {
    hide AfterCall, Inv;
    AfterCallKeepsInv(setup, c, call);
    if AfterCall(setup, c, call).tenant.Some? {
      LiveIsOwned(setup, AfterCall(setup, c, call));
    } else {
      CallWithoutTenant(setup, c, call);
    }
  }

  lemma {:induction false} RunKeepsOwners(setup: Setup, c: Cell, es: seq<Event>)
    requires Inv(setup, c) && AllOwned(setup, c)
    ensures AllOwned(setup, Run(setup, c, es))
    decreases es
  {
    hide AfterCall, AfterEnvs, AfterEnv, Inv;
    if es != [] {
      match es[0] {
        case Surroundings(env) => EnvKeepsOwners(setup, c, env);
        case Perform(call) =>
          EnvsKeepOwners(setup, c, call.before);
          AfterEnvsKeepInv(setup, c, call.before);
          CallKeepsOwners(setup, AfterEnvs(setup.name, c, call.before), call);
        case _ =>
      }
      StepKeepsInv(setup, c, es[0]);
      RunKeepsOwners(setup, Step(setup, c, es[0]), es[1..]);
    }
  }

  /** In every reachable state each object names its Tenant as its one owner, and is garbage exactly if that is gone. */
  lemma GarbageIffGone(setup: Setup, c: Cell, p: Part)
    requires Reachable(setup, c) && p in c.host
    ensures OwnedByTenant(c.host[p], setup.name)
    ensures c.tenant.Some? ==> c.host[p].owners[0].uid == c.tenant.value.uid
    ensures Orphaned(c.tenant, c.host[p]) <==> c.tenant.None?
  {
    hide Inv, Run;
    ReachableInv(setup, c);
    var es :| c == Run(setup, EMPTY, es);
    EmptyIsOwned(setup);
    RunKeepsOwners(setup, EMPTY, es);
    if c.tenant.Some? { LiveIsOwned(setup, c); }
  }

  lemma EmptyIsOwned(setup: Setup)
    ensures Inv(setup, EMPTY) && AllOwned(setup, EMPTY)
  {
  }

  lemma OneLeftIsUncollected(setup: Setup, c: Cell, env: Env, p: Part)
    requires c.tenant.None? && AllOwned(setup, c) && !env.UserCreates?
    ensures var d := AfterEnv(setup.name, c, env);
            d.tenant.None? && (p in d.host ==> p in c.host && env != Collected(p))
  {
  }

  /** What is left after some actions of the surroundings, none of them a creation, was there and was not collected. */
  lemma {:induction false} LeftIsUncollected(setup: Setup, c: Cell, envs: seq<Env>, p: Part)
    requires c.tenant.None? && AllOwned(setup, c) && forall e | e in envs :: !e.UserCreates?
    ensures var d := AfterEnvs(setup.name, c, envs); p in d.host ==> p in c.host && Collected(p) !in envs
    decreases envs
  {
    hide AfterEnv, AllOwned;
    if envs != [] {
      EnvKeepsOwners(setup, c, envs[0]);
      OneLeftIsUncollected(setup, c, envs[0], p);
      LeftIsUncollected(setup, AfterEnv(setup.name, c, envs[0]), envs[1..], p);
    }
  }

  /** Once a Tenant is gone, collecting each part, in whatever order and whatever else happens, leaves nothing. */
  lemma CollectionEmptiesHost(setup: Setup, c: Cell, envs: seq<Env>)
    requires Reachable(setup, c) && c.tenant.None?
    requires (forall e | e in envs :: !e.UserCreates?) && forall p: Part :: Collected(p) in envs
    ensures AfterEnvs(setup.name, c, envs).host == map[]
  {
    hide AfterEnvs, Run;
    forall p | p in c.host ensures OwnedByTenant(c.host[p], setup.name) { GarbageIffGone(setup, c, p); }
    var d := AfterEnvs(setup.name, c, envs);
    forall p: Part ensures p !in d.host { LeftIsUncollected(setup, c, envs, p); }
    assert d.host.Keys == {};
  }
}
