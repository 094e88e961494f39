/**
 The Tenant controller, changing a Tenant object in place and talking to the API server one call at
 a time. Every run of Reconcile is proved to be a run of the machine, call by call, so that what is
 proved of the machine holds of it.
 */
module Controllers {
  import opened Wrappers
  import opened Certificates
  import opened Tenants
  import opened TenantObjects
  import opened HostObjects
  import opened Protocol
  import opened Invariants
  import opened ApiServers
  import opened ControllerUtil
  import opened StoreSteps
  import Setter = ConditionSetter
  import K = Kubeconfigs
  import C = Conditions
  import W = Worlds
  import V = Verdicts

  /** How a part of the reconcile ends: the process is gone, an error, or all went well. */
  datatype Progress = Dead | Broken | Fine

  /** How a reconcile ends, or would end but for the deferred patch. */
  datatype Ending = Gone | Ended(verdict: Verdict)

  // ---------- What a stretch of the reconcile did ----------

  datatype Moment = Moment(store: Store, history: seq<Turn>, script: seq<Turn>)

  /** The calls made between two moments take the machine from one point of the reconcile to another. */
  ghost predicate Went(setup: Setup, a: Moment, p: Proc, b: Moment, q: Proc) {
    && a.history <= b.history && a.history + a.script == b.history + b.script
    && Leads(setup, a.store, p, b.history[|a.history|..], b.store, q)
  }

  lemma WentOn(setup: Setup, a: Moment, p: Proc, b: Moment, q: Proc, c: Moment, r: Proc)
    requires Went(setup, a, p, b, q) && Went(setup, b, q, c, r)
    ensures Went(setup, a, p, c, r)
  {
    hide Leads;
    var one, two := b.history[|a.history|..], c.history[|b.history|..];
    LeadsOn(setup, a.store, p, one, b.store, q, two, c.store, r);
    assert c.history[|a.history|..] == one + two;
  }

  lemma WentNowhere(setup: Setup, a: Moment, p: Proc)
    ensures Went(setup, a, p, a, p)
  {
    hide Leads;
    LeadsNowhere(setup, a.store, p);
    assert a.history[|a.history|..] == [];
  }

  lemma WentOneCall(setup: Setup, a: Moment, p: Proc, b: Moment, q: Proc)
    requires a.script != [] && b.script == a.script[1..] && b.history == a.history + [a.script[0]]
    requires Leads(setup, a.store, p, [a.script[0]], b.store, q)
    ensures Went(setup, a, p, b, q)
  {
    hide Leads;
    assert b.history[|a.history|..] == [a.script[0]];
    assert a.script == [a.script[0]] + b.script;
  }

  /** What a write helper did, and the call it made last. */
  lemma WentByHelper<O>(setup: Setup, a: Moment, p: Proc, b: Moment, result: OperationResult, obj: O, q: Proc)
    requires Ends(setup, a.store, p, a.script, Done(b.store, b.script, result, obj), q)
    requires b.history + b.script == a.history + a.script
    ensures Went(setup, a, p, b, q)
    ensures |b.script| < |a.script| ==>
              b.history != [] && b.history[|b.history| - 1] == a.script[|a.script| - |b.script| - 1]
  {
    hide Leads;
    UsedUp(a.history, a.script, b.history, b.script);
  }

  lemma UsedUp(h: seq<Turn>, script: seq<Turn>, after: seq<Turn>, rest: seq<Turn>)
    requires after + rest == h + script && |rest| <= |script|
    ensures h <= after && after[|h|..] == script[..|script| - |rest|]
  {
    assert |after| == |h| + (|script| - |rest|);
    assert forall i | 0 <= i < |after| :: after[i] == (after + rest)[i] == (h + script)[i];
  }

  /** The last call was answered and met the deployment with as many ready replicas as replicas. */
  ghost predicate LooksEqual(m: Moment, n: string, part: Part) {
    var key := KeyOf(part, n);
    && m.history != [] && m.history[|m.history| - 1].call.outcome.Answered?
    && key in m.store.objects && m.store.objects[key].Deployment?
    && m.store.objects[key].replicas == m.store.objects[key].readyReplicas
  }

  /** The verdict is the one that the calls between two moments call for: an error, a requeue or neither. */
  ghost predicate Earned(setup: Setup, a: Moment, p: Proc, b: Moment, verdict: Verdict)
    requires a.history <= b.history
  {
    var c, es := At(a.store, setup.name, p), Performed(b.history[|a.history|..]);
    && (verdict.Failed? <==> V.MeetsTrouble(setup, c, es))
    && (verdict.Requeue? <==> !V.MeetsTrouble(setup, c, es) && V.MeetsUnequal(setup, c, es))
  }

  lemma WentEarns(setup: Setup, a: Moment, p: Proc, b: Moment, q: Proc)
    requires Went(setup, a, p, b, q) && V.Carried(p).None? && V.Carried(q).Some?
    ensures Earned(setup, a, p, b, V.Carried(q).value)
  {
    hide At, V.MeetsTrouble, V.MeetsUnequal;
    var c, used := At(a.store, setup.name, p), b.history[|a.history|..];
    AtProc(setup, a, p);
    AtProc(setup, b, q);
    RunCallsIsRun(setup, c, used);
    V.RunCarries(setup, c, Performed(used));
  }

  /** The same, just before the deferred patch. */
  lemma WentAndEarned(setup: Setup, a: Moment, p: Proc, b: Moment, seen: Tenant, mem: Tenant, verdict: Verdict)
    requires Went(setup, a, p, b, Defer(seen, mem, verdict)) && V.Carried(p).None?
    ensures Earned(setup, a, p, b, verdict)
  {
    hide Earned, Leads;
    WentEarns(setup, a, p, b, Defer(seen, mem, verdict));
  }

  lemma AtProc(setup: Setup, a: Moment, p: Proc)
    ensures At(a.store, setup.name, p).proc == p
  {
  }

  // ---------- Marks ----------

  /** One condition has come to say what the mark says, with the clock's time unless it said so before. */
  ghost predicate Marked(was: C.Conditions, after: C.Conditions, mark: C.Condition, clock: int) {
    var before, said := C.Get(was, mark.kind), C.Get(after, mark.kind);
    && said.Some? && C.SameState(said.value, mark)
    && (said == before || said.value.since == C.Second(clock))
    && (before.Some? && C.SameState(before.value, mark) ==> said == before)
    && forall kind | kind != mark.kind :: C.Get(after, kind) == C.Get(was, kind)
  }

  lemma SetMarks(was: C.Conditions, mark: C.Condition, clock: int)
    requires C.UniqueTypes(was) && mark.since.Zero?
    ensures Marked(was, C.Set(was, mark, clock), mark, clock)
  {
    hide C.Set;
    C.SetRefinesMapUpdate(was, mark, clock);
  }

  const PROVISIONED_MARK := C.Fresh(PROVISIONED_CONDITION, C.True, "Success", "Success to provision")
  const NOT_PROVISIONED_MARK := C.Fresh(PROVISIONED_CONDITION, C.False, "Failed", "Failed to handle phase")
  const READY_MARK := C.Fresh(READY_CONDITION, C.True, "Success", "Ready")

  // ---------- The phases of provisioning ----------

  /** The functions the provisioning loop runs, in order. */
  datatype Phase = SecretPhase | KubeConfigPhase | ApiserverPhase | ManagerPhase

  const PHASES := [SecretPhase, KubeConfigPhase, ApiserverPhase, ManagerPhase]

  function FirstPart(phase: Phase): Part {
    match phase
    case SecretPhase => ServerCert
    case KubeConfigPhase => AdminConfig
    case ApiserverPhase => Apiserver
    case ManagerPhase => Manager
  }

  function LastPart(phase: Phase): Part {
    match phase
    case SecretPhase => ServerCert
    case KubeConfigPhase => ManagerConfig
    case ApiserverPhase => ApiserverService
    case ManagerPhase => Manager
  }

  /** Where a stretch from the probe for one object to the end of a later one leaves the machine. */
  ghost predicate PartsDone(seen: Tenant, first: Part, last: Part, r: Progress, now: int, script: seq<Turn>, q: Proc) {
    match r
    case Dead => script == [] && !q.AtRest()
    case Broken =>
      exists part :: Position(first) <= Position(part) <= Position(last) && q == PartFailed(seen, part, now)
    case Fine => q == PartExists(seen, last, now)
  }

  const NO_DEPLOYMENT := Deployment([], DeploymentSpec(0, map[], [], [], []), 0, 0)

  class TenantController {
    const etcdSecret: map<string, Pem>
    const etcdServers: string
    const api: ApiServer

    constructor (api: ApiServer, etcdSecret: map<string, Pem>, etcdServers: string)
      ensures this.api == api && this.etcdSecret == etcdSecret && this.etcdServers == etcdServers
    {
      this.api, this.etcdSecret, this.etcdServers := api, etcdSecret, etcdServers;
    }

    function SetupOf(n: string): Setup { Setup(n, etcdSecret, etcdServers) }

    ghost function Now(): Moment
      reads api
    {
      Moment(api.Contents(), api.history, api.script)
    }

    ghost predicate Serving(n: string)
      reads api
    {
      api.Valid() && api.rules == RulesFor(SetupOf(n))
    }

    /** Makes one object if it is missing. */
    method Ensure(ghost seen: Tenant, ghost part: Part, obj: LocalObject, f: Callback)
      returns (r: Progress, ghost at: Proc)
      requires Serving(seen.name) && Fills(SetupOf(seen.name), seen.AsOwner(), part, obj.View(), f)
      modifies api, obj
      ensures Serving(seen.name) && Went(SetupOf(seen.name), old(Now()), Probing(seen, part), Now(), at)
      ensures PartsDone(seen, part, part, r, api.clock, api.script, at)
    {
      hide CreateIfNotExistsDone, Leads, Fills, PartFailed, PartExists, RulesFor, KeyOf;
      ghost var was, setup, local := Now(), SetupOf(seen.name), obj.View();
      var result := CreateIfNotExists(api, obj, f);
      at := CreateMatches(setup, was.store, seen, part, local, f, was.script);
      WentByHelper(setup, was, Probing(seen, part), Now(), result, obj.View(), at);
      r := match result case Died => Dead case Error => Broken case _ => Fine;
    }

    method ReconcileSecret(tenant: TenantObject) returns (r: Progress, ghost at: Proc)
      requires Serving(tenant.name)
      modifies api
      ensures Serving(tenant.name)
      ensures Went(SetupOf(tenant.name), old(Now()), Probing(tenant.View(), ServerCert), Now(), at)
      ensures PartsDone(tenant.View(), ServerCert, ServerCert, r, api.clock, api.script, at)
    {
      hide Went, PartsDone, Serving;
      var name, owner, etcd := tenant.name, tenant.AsOwner(), etcdSecret;
      var key := Key(SecretKind, ClusterNamespaceInHost(name), "server-cert");
      var secretObj := new LocalObject(key, Secret([], "", map[]));
      var fill := (entropy, obj: Keyed) =>
        match NewPki(name, entropy)
        case Err => Err
        case Ok(pki) => Ok(obj.(content := Secret([owner], "kcp/kube-secret", ServerCertData(etcd, pki))));
      r, at := Ensure(tenant.View(), ServerCert, secretObj, Fill(fill));
    }

    /** Makes one kubeconfig, from the CA read back from the secret that holds it. */
    method EnsureKubeConfig(
        ghost part: Part, tenant: TenantObject, secretName: string, file: string, config: CertConfig)
      returns (r: Progress, ghost at: Proc)
      requires Serving(tenant.name) && IsKubeconfig(part)
      requires Key(SecretKind, ClusterNamespaceInHost(tenant.name), secretName) == KeyOf(part, tenant.name)
      requires file == ConfigFileName(part) && config == UserConfig(part)
      modifies api
      ensures Serving(tenant.name) && Went(SetupOf(tenant.name), old(Now()), Probing(tenant.View(), part), Now(), at)
      ensures PartsDone(tenant.View(), part, part, r, api.clock, api.script, at)
    {
      hide Went, PartsDone, Serving, ParseCASecret;
      K.EndpointText(tenant.name);
      var name, owner := tenant.name, tenant.AsOwner();
      var source := Key(SecretKind, ClusterNamespaceInHost(name), "server-cert");
      var key := Key(SecretKind, ClusterNamespaceInHost(name), secretName);
      var secretObj := new LocalObject(key, Secret([], "", map[]));
      var fill := (serverCert, entropy: Entropy, obj: Keyed) =>
        match ParseCASecret(serverCert)
        case Err => Err
        case Ok((ca, caKey)) =>
          if entropy.Exhausted? then Err
          else
            match K.NewWithSecret(name, "https://kube-apiserver." + name + ".svc:6443", ca, caKey, config, entropy.k0)
            case Err => Err
            case Ok(kubeconfig) =>
              Ok(obj.(content := Secret([owner], "kcp/kubeconfig", map[file := ConfigFile(kubeconfig)])));
      r, at := Ensure(tenant.View(), part, secretObj, FillFrom(source, fill));
    }

    method ReconcileKubeConfig(tenant: TenantObject) returns (r: Progress, ghost at: Proc)
      requires Serving(tenant.name)
      modifies api
      ensures Serving(tenant.name)
      ensures Went(SetupOf(tenant.name), old(Now()), Probing(tenant.View(), AdminConfig), Now(), at)
      ensures PartsDone(tenant.View(), AdminConfig, ManagerConfig, r, api.clock, api.script, at)
    {
      hide Went, Serving, PartFailed, Leads;
      ghost var was, p := Now(), Probing(tenant.View(), AdminConfig);
      r, at := EnsureKubeConfig(AdminConfig, tenant, "kubeconfig-admin", "admin.conf", ADMIN_CONFIG);
      if !r.Fine? {
        return;
      }
      ghost var mid, q := Now(), at;
      r, at := EnsureKubeConfig(ManagerConfig, tenant, "kubeconfig-controller-manager", "controller-manager.conf",
          MANAGER_CONFIG);
      WentOn(SetupOf(tenant.name), was, p, mid, q, Now(), at);
    }

    method ReconcileAPIServer(tenant: TenantObject) returns (r: Progress, ghost at: Proc)
      requires Serving(tenant.name)
      modifies api
      ensures Serving(tenant.name)
      ensures Went(SetupOf(tenant.name), old(Now()), Probing(tenant.View(), Apiserver), Now(), at)
      ensures PartsDone(tenant.View(), Apiserver, ApiserverService, r, api.clock, api.script, at)
    {
      hide Went, Serving, PartFailed, Leads, ApiserverSpec;
      ghost var was, p := Now(), Probing(tenant.View(), Apiserver);
      var name, owner, setup := tenant.name, tenant.AsOwner(), SetupOf(tenant.name);
      var key := Key(DeploymentKind, ClusterNamespaceInHost(name), "kube-apiserver");
      var deployment := new LocalObject(key, NO_DEPLOYMENT);
      r, at := Ensure(tenant.View(), Apiserver, deployment,
                      Fill((e, obj: Keyed) => Ok(obj.(content := Deployment([owner], ApiserverSpec(setup), 0, 0)))));
      if !r.Fine? {
        return;
      }
      ghost var mid, q := Now(), at;
      key := Key(ServiceKind, ClusterNamespaceInHost(name), "kube-apiserver");
      var service := new LocalObject(key, Service([], map[], 0));
      r, at := Ensure(tenant.View(), ApiserverService, service,
                      Fill((e, obj: Keyed) =>
                             Ok(obj.(content := Service([owner], Labels("kube-apiserver", name), 6443)))));
      WentOn(SetupOf(tenant.name), was, p, mid, q, Now(), at);
    }

    method ReconcileControllerManager(tenant: TenantObject) returns (r: Progress, ghost at: Proc)
      requires Serving(tenant.name)
      modifies api
      ensures Serving(tenant.name) && Went(SetupOf(tenant.name), old(Now()), Probing(tenant.View(), Manager), Now(), at)
      ensures PartsDone(tenant.View(), Manager, Manager, r, api.clock, api.script, at)
    {
      hide Went, PartsDone, Serving, ManagerSpec;
      var owner, setup := tenant.AsOwner(), SetupOf(tenant.name);
      var key := Key(DeploymentKind, ClusterNamespaceInHost(tenant.name), "kube-controller-manager");
      var deployment := new LocalObject(key, NO_DEPLOYMENT);
      r, at := Ensure(tenant.View(), Manager, deployment,
                      Fill((e, obj: Keyed) => Ok(obj.(content := Deployment([owner], ManagerSpec(setup), 0, 0)))));
    }

    method RunPhase(phase: Phase, tenant: TenantObject) returns (r: Progress, ghost at: Proc)
      requires Serving(tenant.name)
      modifies api
      ensures Serving(tenant.name)
      ensures Went(SetupOf(tenant.name), old(Now()), Probing(tenant.View(), FirstPart(phase)), Now(), at)
      ensures PartsDone(tenant.View(), FirstPart(phase), LastPart(phase), r, api.clock, api.script, at)
    {
      hide Went, PartsDone, Serving;
      match phase {
        case SecretPhase => r, at := ReconcileSecret(tenant);
        case KubeConfigPhase => r, at := ReconcileKubeConfig(tenant);
        case ApiserverPhase => r, at := ReconcileAPIServer(tenant);
        case ManagerPhase => r, at := ReconcileControllerManager(tenant);
      }
    }

    /** The provisioning loop: the phases in order, until one fails. */
    method Provision(tenant: TenantObject) returns (r: Progress, ghost at: Proc)
      requires Serving(tenant.name) && C.UniqueTypes(tenant.conditions)
      modifies api, tenant
      ensures Serving(tenant.name) && tenant.name == old(tenant.name)
      ensures Went(SetupOf(tenant.name), old(Now()), Probing(old(tenant.View()), ServerCert), Now(), at)
      ensures r.Dead? ==> api.script == [] && !at.AtRest()
      ensures r.Broken? ==> at == Defer(old(tenant.View()), tenant.View(), Verdict.Failed)
      ensures r.Fine? ==>
                at == Checking(old(tenant.View()), tenant.View(), Apiserver) && C.UniqueTypes(tenant.conditions)
      ensures !r.Dead? ==>
                Marked(old(tenant.conditions), tenant.conditions,
                       if r.Fine? then PROVISIONED_MARK else NOT_PROVISIONED_MARK, api.clock)
    {
      hide Went, Serving, Leads, Defer, Marked;
      ghost var was, seen := Now(), tenant.View();
      at := Probing(seen, ServerCert);
      WentNowhere(SetupOf(seen.name), was, at);
      var i := 0;
      while i < |PHASES|
        invariant 0 <= i <= |PHASES| && tenant.View() == seen && Serving(seen.name)
        invariant Went(SetupOf(seen.name), was, Probing(seen, ServerCert), Now(), at)
        invariant at == if i < |PHASES| then Probing(seen, FirstPart(PHASES[i]))
                        else Checking(seen, MarkProvisioned(seen, api.clock), Apiserver)
      {
        ghost var mid, p := Now(), at;
        r, at := RunPhase(PHASES[i], tenant);
        WentOn(SetupOf(seen.name), was, Probing(seen, ServerCert), mid, p, Now(), at);
        if r.Dead? {
          return;
        }
        if r.Broken? {
          Setter.MarkFalse(tenant, PROVISIONED_CONDITION, "Failed", "Failed to handle phase", api.clock);
          SetMarks(seen.conditions, NOT_PROVISIONED_MARK, api.clock);
          return;
        }
        i := i + 1;
      }
      Setter.MarkTrue(tenant, PROVISIONED_CONDITION, "Success", "Success to provision", api.clock);
      C.SetRefinesMapUpdate(seen.conditions, PROVISIONED_MARK, api.clock);
      SetMarks(seen.conditions, PROVISIONED_MARK, api.clock);
      r := Fine;
    }

    /** Whether a deployment is there with as many ready replicas as replicas. */
    method CheckDeploy(tenant: TenantObject, name: string, ghost seen: Tenant, ghost part: Part)
      returns (r: Ending, ghost at: Proc)
      requires Serving(tenant.name) && tenant.name == seen.name
      requires (part.Apiserver? && name == "kube-apiserver") || (part.Manager? && name == "kube-controller-manager")
      modifies api
      ensures Serving(tenant.name)
      ensures Went(SetupOf(tenant.name), old(Now()), Checking(seen, tenant.View(), part), Now(), at)
      ensures r.Gone? ==> api.script == [] && !at.AtRest()
      ensures r.Ended? ==> (r.verdict.Finished? <==> LooksEqual(Now(), seen.name, part))
      ensures r.Ended? && !r.verdict.Finished? ==> at == Defer(seen, tenant.View(), r.verdict)
      ensures r == Ended(Finished) ==>
                at == if part.Apiserver? then Checking(seen, tenant.View(), Manager)
                      else Defer(seen, MarkReady(tenant.View(), api.clock), Finished)
    {
      hide Went, Leads, Settle, Defer, MarkReady;
      ghost var was, setup, mem := Now(), SetupOf(seen.name), tenant.View();
      at := Checking(seen, mem, part);
      var deploy := api.GetObject(Key(DeploymentKind, ClusterNamespaceInHost(tenant.name), name));
      if deploy.Crashed? {
        WentNowhere(setup, was, at);
        return Gone, at;
      }
      ghost var turn := was.script[0];
      CheckStep(setup, was.store, seen, mem, part, turn);
      at := if deploy.Found? then Checked(map[part := deploy.value], seen, mem, part, turn.call.now)
            else Defer(seen, mem, Verdict.Failed);
      WentOneCall(setup, was, Checking(seen, mem, part), Now(), at);
      if !deploy.Found? || !deploy.value.Deployment? {
        return Ended(Verdict.Failed), at;
      }
      if deploy.value.replicas != deploy.value.readyReplicas {
        return Ended(Requeue), at;
      }
      return Ended(Finished), at;
    }

    /**
     Both deployments in turn. The tenant is marked ready exactly if the call for each is answered
     with equal counts, the second at the end and the first at the moment returned.
     */
    method CheckReady(tenant: TenantObject, ghost seen: Tenant)
      returns (r: Ending, ghost at: Proc, ghost first: Moment)
      requires Serving(tenant.name) && tenant.name == seen.name && C.UniqueTypes(tenant.conditions)
      modifies api, tenant
      ensures Serving(seen.name) && tenant.name == seen.name
      ensures Went(SetupOf(seen.name), old(Now()), Checking(seen, old(tenant.View()), Apiserver), Now(), at)
      ensures r.Gone? ==> api.script == [] && !at.AtRest()
      ensures r.Ended? ==> at == Defer(seen, tenant.View(), r.verdict)
      ensures r.Ended? ==>
                (r.verdict.Finished? <==>
                 BothLookEqual(old(Now()), Checking(seen, old(tenant.View()), Apiserver), first,
                               Checking(seen, old(tenant.View()), Manager), Now(), seen.name))
      ensures tenant.View() ==
              if r == Ended(Finished) then MarkReady(old(tenant.View()), api.clock) else old(tenant.View())
      ensures r == Ended(Finished) ==> Marked(old(tenant.conditions), tenant.conditions, READY_MARK, api.clock)
    {
      hide Went, Serving, Leads, Defer, LooksEqual, Marked;
      ghost var was, setup, p := Now(), SetupOf(seen.name), Checking(seen, tenant.View(), Apiserver);
      r, at := CheckDeploy(tenant, "kube-apiserver", seen, Apiserver);
      first := Now();
      if r != Ended(Finished) {
        return;
      }
      ghost var q := at;
      r, at := CheckDeploy(tenant, "kube-controller-manager", seen, Manager);
      WentOn(setup, was, p, first, q, Now(), at);
      if r != Ended(Finished) {
        return;
      }
      SetMarks(tenant.conditions, READY_MARK, api.clock);
      Setter.MarkTrue(tenant, READY_CONDITION, "Success", "Ready", api.clock);
    }

    /** The calls up to one moment, and those after it, are the two looks, and each finds equal counts. */
    ghost predicate BothLookEqual(a: Moment, p: Proc, b: Moment, q: Proc, c: Moment, n: string) {
      Went(SetupOf(n), a, p, b, q) && LooksEqual(b, n, Apiserver) && LooksEqual(c, n, Manager)
    }

    method ReconcileNormal(tenant: TenantObject) returns (r: Ending, ghost at: Proc)
      requires Serving(tenant.name) && C.UniqueTypes(tenant.conditions)
      modifies api, tenant
      ensures Serving(tenant.name) && tenant.name == old(tenant.name)
      ensures Went(SetupOf(old(tenant.name)), old(Now()), Probing(old(tenant.View()), HostNamespace), Now(), at)
      ensures r.Gone? ==> api.script == [] && !at.AtRest()
      ensures r.Ended? ==> at == Defer(old(tenant.View()), tenant.View(), r.verdict)
      ensures r.Ended? ==>
                Earned(SetupOf(old(tenant.name)), old(Now()), Probing(old(tenant.View()), HostNamespace), Now(),
                       r.verdict)
    {
      hide Went, Serving, Leads, Defer, Earned;
      ghost var was, seen, setup := Now(), tenant.View(), SetupOf(tenant.name);
      ghost var start := Probing(seen, HostNamespace);
      // Ensure the namespace.
      var key := Key(NamespaceKind, "", ClusterNamespaceInHost(tenant.name));
      var ns := new LocalObject(key, Namespace([tenant.AsOwner()]));
      var made;
      made, at := Ensure(seen, HostNamespace, ns, Fill((e, obj) => Ok(obj)));
      if made.Dead? {
        return Gone, at;
      }
      if made.Broken? {
        WentAndEarned(setup, was, start, Now(), seen, seen, Verdict.Failed);
        return Ended(Verdict.Failed), at;
      }
      ghost var mid, q := Now(), at;
      if !C.Has(tenant.conditions, PROVISIONED_CONDITION) || C.IsFalse(tenant.conditions, PROVISIONED_CONDITION) {
        made, at := Provision(tenant);
        WentOn(setup, was, start, mid, q, Now(), at);
        if made.Dead? {
          return Gone, at;
        }
        if made.Broken? {
          WentAndEarned(setup, was, start, Now(), seen, tenant.View(), Verdict.Failed);
          return Ended(Verdict.Failed), at;
        }
        mid, q := Now(), at;
      }
      ghost var first;
      r, at, first := CheckReady(tenant, seen);
      WentOn(setup, was, start, mid, q, Now(), at);
      if r.Ended? { WentAndEarned(setup, was, start, Now(), seen, tenant.View(), r.verdict); }
    }

    /**
     The finalizer goes only once the phase is stored as terminating; the host objects are left to
     garbage collection.
     */
    method ReconcileDelete(tenant: TenantObject) returns (verdict: Verdict)
      modifies tenant
      ensures verdict.Finished?
      ensures tenant.View() == if old(tenant.phase) == TERMINATING
                               then old(tenant.View()).(finalizers := Without(old(tenant.finalizers)))
                               else old(tenant.View())
    {
      if !tenant.IsPhase(TERMINATING) {
        return Finished;
      }
      tenant.RemoveFinalizer();
      return Finished;
    }

    method ReconcilePhase(tenant: TenantObject)
      modifies tenant
      ensures tenant.View() == old(tenant.View()).(phase := DerivePhase(old(tenant.View())))
    {
      if tenant.phase == "" {
        tenant.SetPhase(PENDING);
      }
      if C.IsFalse(tenant.conditions, PROVISIONED_CONDITION) {
        tenant.SetPhase(PROVISIONING);
      }
      if C.IsTrue(tenant.conditions, PROVISIONED_CONDITION) {
        tenant.SetPhase(PROVISIONED);
      }
      if C.IsFalse(tenant.conditions, READY_CONDITION) {
        tenant.SetPhase(FAILED);
      }
      if C.IsTrue(tenant.conditions, READY_CONDITION) {
        tenant.SetPhase(READY);
      }
      if !tenant.deletionTimestamp.Zero? {
        tenant.SetPhase(TERMINATING);
      }
    }

    /** The patch that ends every reconcile, whatever came of it: four fields of the Tenant as it was left in memory. */
    method DeferredPatch(tenant: TenantObject, ghost seen: Tenant, verdict: Verdict) returns (r: Ending, ghost at: Proc)
      requires Serving(tenant.name)
      requires Inv(SetupOf(tenant.name), At(api.Contents(), tenant.name, Defer(seen, tenant.View(), verdict)))
      modifies api, tenant
      ensures Serving(old(tenant.name))
      ensures Went(SetupOf(old(tenant.name)), old(Now()), Defer(seen, old(tenant.View()), verdict), Now(), at)
      ensures match r case Gone => api.script == [] && !at.AtRest() case Ended(v) => at.Returned? && at.verdict == v
    {
      hide PatchIfExistsDone, Leads, Inv, RulesFor;
      ghost var was, setup := Now(), SetupOf(tenant.name);
      ReconcilePhase(tenant);
      ghost var mem := tenant.View();
      var finalizers, owners, phase, conditions := tenant.finalizers, tenant.owners, tenant.phase, tenant.conditions;
      var f := (base: Tenant) =>
        Ok(base.(finalizers := finalizers, owners := owners, phase := phase, conditions := conditions));
      var runtimeObj := new TenantObject(tenant.View());
      var patched := PatchIfExists(api, runtimeObj, Some(f));
      at := PatchMatches(setup, was.store, seen, mem, verdict, mem, f, was.script);
      WentByHelper(setup, was, Rereading(seen, mem, verdict), Now(), patched, runtimeObj.View(), at);
      r := match patched case Died => Gone case Error => Ended(Verdict.Failed) case _ => Ended(verdict);
    }

    /** The part of a reconcile between reading the Tenant and patching it. */
    method Work(tenant: TenantObject) returns (r: Ending, ghost at: Proc)
      requires Serving(tenant.name) && C.UniqueTypes(tenant.conditions)
      modifies api, tenant
      ensures Serving(old(tenant.name)) && tenant.name == old(tenant.name)
      ensures Went(SetupOf(old(tenant.name)), old(Now()), Dispatch(old(tenant.View())), Now(), at)
      ensures r.Gone? ==> api.script == [] && !at.AtRest()
      ensures r.Ended? ==> at == Defer(old(tenant.View()), tenant.View(), r.verdict)
    {
      hide Went, Serving, Leads, Defer;
      ghost var was, seen := Now(), tenant.View();
      if FINALIZER !in tenant.finalizers {
        tenant.AddFinalizer(FINALIZER);
        WentNowhere(SetupOf(seen.name), was, Dispatch(seen));
        return Ended(Finished), Dispatch(seen);
      }
      if !tenant.deletionTimestamp.Zero? {
        var verdict := ReconcileDelete(tenant);
        WentNowhere(SetupOf(seen.name), was, Dispatch(seen));
        return Ended(verdict), Dispatch(seen);
      }
      r, at := ReconcileNormal(tenant);
    }

    /**
     One reconcile. Its calls are a run of the machine from Reading: to the verdict the method
     returns or, if the process dies, to the point it had reached. The verdict is an error exactly if
     a call met trouble, and a requeue exactly if none did and a deployment had unequal counts.
     */
    method Reconcile(n: string) returns (r: Ending, ghost at: Proc)
      requires Serving(n) && Inv(SetupOf(n), At(api.Contents(), n, Reading))
      modifies api
      ensures Serving(n) && Went(SetupOf(n), old(Now()), Reading, Now(), at)
      ensures match r case Gone => api.script == [] && !at.AtRest() case Ended(v) => at.Returned? && at.verdict == v
      ensures r.Ended? ==> Earned(SetupOf(n), old(Now()), Reading, Now(), r.verdict)
    {
      hide Went, Leads, Settle, Inv, Defer, Dispatch, At, Earned;
      ghost var was, setup := Now(), SetupOf(n);
      var got := api.GetTenant(n);
      if got.Crashed? {
        WentNowhere(setup, was, Reading);
        return Gone, Reading;
      }
      ReadStep(setup, was.store, was.script[0]);
      StoredUnderItsName(setup, was.store, Reading, was.script[0]);
      if !got.Found? {
        r := Ended(if got.Missing? then Finished else Verdict.Failed);
        at := Returned(r.verdict, None, false);
        WentOneCall(setup, was, Reading, Now(), at);
        WentEarns(setup, was, Reading, Now(), at);
        return;
      }
      var tenant := new TenantObject(got.value);
      at := Dispatch(tenant.View());
      WentOneCall(setup, was, Reading, Now(), at);
      ghost var mid, q, seen := Now(), at, tenant.View();
      r, at := Work(tenant);
      WentOn(setup, was, Reading, mid, q, Now(), at);
      if r.Gone? {
        // A process that has died does not get to its deferred patch.
        return;
      }
      WentKeepsInv(setup, was, Reading, Now(), at);
      mid, q := Now(), at;
      r, at := DeferredPatch(tenant, seen, r.verdict);
      WentOn(setup, was, Reading, mid, q, Now(), at);
      if r.Ended? { WentEarns(setup, was, Reading, Now(), at); }
    }
  }

  lemma WentKeepsInv(setup: Setup, a: Moment, p: Proc, b: Moment, q: Proc)
    requires Went(setup, a, p, b, q) && Inv(setup, At(a.store, setup.name, p))
    ensures Inv(setup, At(b.store, setup.name, q))
  {
    hide Leads, Inv, At;
    LeadsKeepsInv(setup, a.store, p, b.history[|a.history|..], b.store, q);
  }

  /** After a reconcile the tenant is in a reachable state, if it was in one when the reconcile began. */
  lemma ReconcileStaysReachable(setup: Setup, a: Moment, b: Moment, at: Proc)
    requires Reachable(setup, At(a.store, setup.name, Idle)) && Went(setup, a, Reading, b, at)
    ensures Reachable(setup, At(b.store, setup.name, at)) && Inv(setup, At(a.store, setup.name, Reading))
  {
    hide At, Elsewhere, Inv, AfterCall, AfterEnvs, Step, W.RunWorld;
    var idle, reading := At(a.store, setup.name, Idle), At(a.store, setup.name, Reading);
    BeginReads(setup, a.store);
    var used := b.history[|a.history|..];
    var es :| idle == Run(setup, EMPTY, es);
    assert Run(setup, idle, [Begin]) == reading by { assert [Begin][1..] == []; }
    RunConcat(setup, EMPTY, es, [Begin]);
    RunCallsIsRun(setup, reading, used);
    RunConcat(setup, EMPTY, es + [Begin], Performed(used));
    ReachableInv(setup, reading);
  }

  lemma BeginReads(setup: Setup, s: Store)
    ensures Step(setup, At(s, setup.name, Idle), Begin) == At(s, setup.name, Reading)
  {
  }
}
