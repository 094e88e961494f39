/** Which call drew the keys in the secrets that are stored. */
module Provenance {
  import opened Wrappers
  import opened Certificates
  import opened TenantPatches
  import opened HostObjects
  import opened Protocol
  import opened Worlds

  // ---------- Keys drawn ----------

  function KeysIn(entropy: Entropy): seq<KeyId> {
    match entropy
    case Exhausted => []
    case Keys(k0, k1, k2, k3, k4, k5) => [k0, k1, k2, k3, k4, k5]
  }

  /** The keys that the random source holds ready after a move's call. */
  function KeysAfter(x: Move): seq<KeyId> {
    if x.event.Perform? then KeysIn(x.event.call.entropy) else []
  }

  /** No key comes up twice, neither after different moves nor after the same one. */
  ghost predicate FreshKeys(xs: seq<Move>) {
    forall i, j, p, q | 0 <= i < |xs| && 0 <= j < |xs| && 0 <= p < |KeysAfter(xs[i])| && 0 <= q < |KeysAfter(xs[j])| ::
      KeysAfter(xs[i])[p] == KeysAfter(xs[j])[q] ==> i == j && p == q
  }

  // ---------- Secrets made ----------

  predicate HoldsKeys(p: Part) { p.ServerCert? || IsKubeconfig(p) }

  /** The object is what the controller makes of the part with these keys. */
  ghost predicate MadeWith(setup: Setup, p: Part, o: HostObject, entropy: Entropy) {
    if p.ServerCert? then exists owner :: Draft(setup, ServerCert, owner, entropy) == Ok(o)
    else IsKubeconfig(p) &&
         exists owner, serverCert :: DraftKubeconfig(setup, p, owner, serverCert, entropy) == Ok(o)
  }

  /** The i-th event of the run made the object, which the reconcile then held ready to create. */
  ghost predicate MadeAt(setup: Setup, es: seq<Event>, i: int, p: Part, o: HostObject) {
    && 0 <= i < |es| && es[i].Perform? && MadeWith(setup, p, o, es[i].call.entropy)
    && var next := Run(setup, EMPTY, es[..i + 1]).proc;
       next.Creating? && next.part == p && next.draft == o
  }

  ghost predicate Made(setup: Setup, es: seq<Event>, p: Part, o: HostObject) {
    exists i :: MadeAt(setup, es, i, p, o)
  }

  /** Every secret with keys, stored or about to be, was made in the run. */
  ghost predicate Accounted(setup: Setup, es: seq<Event>, c: Cell) {
    && (forall p | HoldsKeys(p) && p in c.host :: Made(setup, es, p, c.host[p]))
    && (c.proc.Creating? && HoldsKeys(c.proc.part) ==> Made(setup, es, c.proc.part, c.proc.draft))
    && (c.proc.ReadingCA? ==> IsKubeconfig(c.proc.part))
  }

  lemma MadeIsSecret(setup: Setup, es: seq<Event>, p: Part, o: HostObject)
    requires HoldsKeys(p) && Made(setup, es, p, o)
    ensures o.Secret?
  {
    hide Run;
    var i :| MadeAt(setup, es, i, p, o);
    assert MadeWith(setup, p, o, es[i].call.entropy);
  }

  lemma OneEnvKeepsAccount(setup: Setup, es: seq<Event>, c: Cell, env: Env)
    requires Accounted(setup, es, c)
    ensures Accounted(setup, es, AfterEnv(setup.name, c, env))
  {
    hide Made;
    forall p | HoldsKeys(p) && p in c.host ensures c.host[p].Secret? {
      MadeIsSecret(setup, es, p, c.host[p]);
    }
  }

  lemma {:induction false} EnvsKeepAccount(setup: Setup, es: seq<Event>, c: Cell, envs: seq<Env>)
    requires Accounted(setup, es, c)
    ensures Accounted(setup, es, AfterEnvs(setup.name, c, envs))
    decreases envs
  {
    hide Accounted, AfterEnv;
    if envs != [] {
      OneEnvKeepsAccount(setup, es, c, envs[0]);
      EnvsKeepAccount(setup, es, AfterEnv(setup.name, c, envs[0]), envs[1..]);
    }
  }

  lemma MadeEarlier(setup: Setup, es: seq<Event>, e: Event, p: Part, o: HostObject)
    requires Made(setup, es, p, o)
    ensures Made(setup, es + [e], p, o)
  {
    hide Run, MadeWith;
    var i :| MadeAt(setup, es, i, p, o);
    assert (es + [e])[..i + 1] == es[..i + 1] && (es + [e])[i] == es[i];
    assert MadeAt(setup, es + [e], i, p, o);
  }

  lemma MadeNow(setup: Setup, es: seq<Event>, e: Event, p: Part, o: HostObject)
    requires e.Perform? && MadeWith(setup, p, o, e.call.entropy)
    requires var next := Run(setup, EMPTY, es + [e]).proc; next.Creating? && next.part == p && next.draft == o
    ensures Made(setup, es + [e], p, o)
  {
    hide Run, MadeWith;
    assert (es + [e])[..|es| + 1] == es + [e] && (es + [e])[|es|] == e;
    assert MadeAt(setup, es + [e], |es|, p, o);
  }

  lemma AccountedLater(setup: Setup, es: seq<Event>, e: Event, c: Cell)
    requires Accounted(setup, es, c)
    ensures Accounted(setup, es + [e], c)
  {
    hide Made;
    forall p | HoldsKeys(p) && p in c.host ensures Made(setup, es + [e], p, c.host[p]) {
      MadeEarlier(setup, es, e, p, c.host[p]);
    }
    if c.proc.Creating? && HoldsKeys(c.proc.part) {
      MadeEarlier(setup, es, e, c.proc.part, c.proc.draft);
    }
  }

  /** A call that leaves a secret ready to create has just made it. */
  lemma DraftedNow(setup: Setup, c: Cell, call: Call)
    requires c.proc.ReadingCA? ==> IsKubeconfig(c.proc.part)
    requires var next := AfterCall(setup, c, call).proc; next.Creating? && HoldsKeys(next.part)
    ensures var next := AfterCall(setup, c, call).proc; MadeWith(setup, next.part, next.draft, call.entropy)
  {
    hide MainEndpoint, StatusEndpoint, NewPki, ServerCertData, ParseCASecret, ApiserverSpec, ManagerSpec;
    var next := AfterCall(setup, c, call).proc;
    if c.proc.Probing? {
      assert Draft(setup, next.part, c.proc.seen.AsOwner(), call.entropy) == Ok(next.draft);
    } else {
      assert DraftKubeconfig(setup, next.part, c.proc.seen.AsOwner(), c.host[ServerCert], call.entropy) ==
             Ok(next.draft);
    }
  }

  lemma CallKeepsAccount(setup: Setup, es: seq<Event>, c: Cell, e: Event)
    requires e.Perform? && Accounted(setup, es, c)
    requires AfterCall(setup, c, e.call) == Run(setup, EMPTY, es + [e])
    ensures Accounted(setup, es + [e], AfterCall(setup, c, e.call))
  {
    hide Made, MadeWith, Run, AfterCall;
    var d := AfterCall(setup, c, e.call);
    AccountedLater(setup, es, e, c);
    CallAdds(setup, c, e.call);
    if d.proc.Creating? && HoldsKeys(d.proc.part) {
      DraftedNow(setup, c, e.call);
      MadeNow(setup, es, e, d.proc.part, d.proc.draft);
    }
  }

  /** A call adds at most what was ready to create. */
  lemma CallAdds(setup: Setup, c: Cell, call: Call)
    ensures var d := AfterCall(setup, c, call);
            && (forall p | p in d.host :: (p in c.host && d.host[p] == c.host[p]) ||
                                          (c.proc.Creating? && c.proc.part == p && c.proc.draft == d.host[p]))
            && (d.proc.ReadingCA? ==> IsKubeconfig(d.proc.part) || d.proc == c.proc)
  {
    hide Draft, DraftKubeconfig, MainEndpoint, StatusEndpoint, MainDiffers, StatusDiffers;
  }

  lemma StepKeepsAccount(setup: Setup, es: seq<Event>, e: Event)
    requires Accounted(setup, es, Run(setup, EMPTY, es))
    ensures Accounted(setup, es + [e], Run(setup, EMPTY, es + [e]))
  {
    hide AfterCall, AfterEnvs, AfterEnv, Accounted;
    var c := Run(setup, EMPTY, es);
    RunConcat(setup, EMPTY, es, [e]);
    assert [e][1..] == [] && Run(setup, EMPTY, es + [e]) == Step(setup, c, e);
    match e
    case Perform(call) =>
      EnvsKeepAccount(setup, es, c, call.before);
      CallKeepsAccount(setup, es, AfterEnvs(setup.name, c, call.before), e);
    case Surroundings(env) =>
      OneEnvKeepsAccount(setup, es, c, env);
      AccountedLater(setup, es, e, AfterEnv(setup.name, c, env));
    case _ =>
      ProcChangeKeepsAccount(setup, es, c, Step(setup, c, e));
      AccountedLater(setup, es, e, Step(setup, c, e));
  }

  lemma ProcChangeKeepsAccount(setup: Setup, es: seq<Event>, c: Cell, d: Cell)
    requires Accounted(setup, es, c) && d.host == c.host && (d.proc == c.proc || d.proc.Idle? || d.proc.Reading?)
    ensures Accounted(setup, es, d)
  {
  }

  lemma {:induction false} RunIsAccounted(setup: Setup, es: seq<Event>)
    ensures Accounted(setup, es, Run(setup, EMPTY, es))
    decreases |es|
  {
    hide Accounted, Step;
    if es == [] {
      NothingAccounted(setup);
    } else {
      var n := |es| - 1;
      RunIsAccounted(setup, es[..n]);
      StepKeepsAccount(setup, es[..n], es[n]);
      assert es == es[..n] + [es[n]];
    }
  }

  lemma NothingAccounted(setup: Setup)
    ensures Accounted(setup, [], EMPTY)
  {
  }

  // ---------- In the world ----------

  /** The move that is the i-th event of a tenant. */
  function MoveOf(xs: seq<Move>, n: string, i: nat): (k: nat)
    requires i < |EventsOf(xs, n)|
    ensures k < |xs| && xs[k] == Move(n, EventsOf(xs, n)[i])
  {
    if xs[0].tenant != n then MoveOf(xs[1..], n, i) + 1
    else if i == 0 then 0
    else MoveOf(xs[1..], n, i - 1) + 1
  }

  lemma {:induction false} MovesAreInOrder(xs: seq<Move>, n: string, i: nat, j: nat)
    requires i < j < |EventsOf(xs, n)|
    ensures MoveOf(xs, n, i) < MoveOf(xs, n, j)
  {
    if xs[0].tenant != n {
      MovesAreInOrder(xs[1..], n, i, j);
    } else if i > 0 {
      MovesAreInOrder(xs[1..], n, i - 1, j - 1);
    }
  }

  /** The event of its tenant's run that made a stored secret. */
  lemma StoredWasMade(site: Site, xs: seq<Move>, n: string, p: Part) returns (i: nat)
    requires HoldsKeys(p) && p in Project(RunWorld(site, NOTHING, xs), n).host
    ensures i < |EventsOf(xs, n)|
    ensures MadeAt(SetupFor(site, n), EventsOf(xs, n), i, p, Project(RunWorld(site, NOTHING, xs), n).host[p])
  {
    hide Project, RunWorld, MadeAt, Run;
    var setup, es := SetupFor(site, n), EventsOf(xs, n);
    RunWorldProjects(site, NOTHING, xs, n);
    NothingProjects(n);
    RunIsAccounted(setup, es);
    var o := Run(setup, EMPTY, es).host[p];
    assert Made(setup, es, p, o);
    var k :| MadeAt(setup, es, k, p, o);
    MadeInRun(setup, es, k, p, o);
    i := k;
  }

  lemma MadeInRun(setup: Setup, es: seq<Event>, i: int, p: Part, o: HostObject)
    requires MadeAt(setup, es, i, p, o)
    ensures 0 <= i < |es|
  {
  }

  lemma NothingProjects(n: string)
    ensures Project(NOTHING, n) == EMPTY
  {
  }
}
