/**
 The API server as the controller calls it: a store of Tenants and of host objects under global
 keys, shared with the reconciles of other tenants. A script fixes how the coming calls turn out
 and what happens before each; the process dies where it ends.
 */
module ApiServers {
  import opened Wrappers
  import opened MergePatch
  import opened Certificates
  import opened Tenants
  import opened HostObjects
  import opened Protocol
  import W = Worlds

  /** All tenants, all host objects, and how far the reconciles of other tenants have got. */
  type Store = W.World

  /** One call of the reconcile of one tenant, and the moves of other tenants that come before it. */
  datatype Turn = Turn(call: Call, others: seq<W.Move>)

  function SiteOf(setup: Setup): W.Site { W.Site(setup.etcdSecret, setup.etcdServers) }

  /** The part of the store that belongs to a tenant whose reconcile is in flight. */
  function Here(s: Store, n: string): Cell { Cell(TenantAt(s, n), W.HostOf(s.objects, n), Reading) }

  function TenantAt(s: Store, n: string): Option<Tenant> { W.TenantOf(s, n) }

  /** All the rest of the store. */
  function Elsewhere(s: Store, n: string): Store {
    W.World(s.tenants - {n}, map k | k in s.objects && !W.Owns(n, k) :: s.objects[k], s.procs - {n})
  }

  function Put(s: Store, n: string, c: Cell): Store {
    W.World(W.PutTenant(s.tenants, n, c.tenant), W.PutObjects(s.objects, n, c.host), s.procs)
  }

  /** The store as other tenants leave it. */
  function Shared(setup: Setup, s: Store, turn: Turn): Store {
    W.RunWorld(SiteOf(setup), s, W.Except(turn.others, setup.name))
  }

  /** The store a call meets, after what happened to other tenants and to this one since the previous one. */
  function Settle(setup: Setup, s: Store, turn: Turn): Store {
    var t := Shared(setup, s, turn);
    Put(t, setup.name, AfterEnvs(setup.name, Here(t, setup.name), turn.call.before))
  }

  /** How a call ended for its caller; a caller that has crashed hears nothing more. */
  datatype Reply<+T> = Crashed | Failed | Missing | Found(value: T)

  function ObjectReply(s: Store, call: Call, key: Key): Reply<HostObject> {
    if !call.outcome.Answered? then Reply.Failed else if key in s.objects then Found(s.objects[key]) else Missing
  }

  function TenantReply(s: Store, call: Call, n: string): Reply<Tenant> {
    if !call.outcome.Answered? then Reply.Failed else if n in s.tenants then Found(s.tenants[n]) else Missing
  }

  function CreateIn(s: Store, call: Call, key: Key, o: HostObject): (Store, Reply<()>) {
    if key in s.objects then (s, Reply.Failed)
    else (if call.outcome.Refused? then s else s.(objects := s.objects[key := o]),
          if call.outcome.Answered? then Found(()) else Reply.Failed)
  }

  function PatchMainIn(s: Store, call: Call, n: string, patch: Json): (Store, Option<Tenant>) {
    if !patch.Obj? then (s, None)
    else
      var (stored, response) := MainEndpoint(TenantAt(s, n), patch, call.outcome);
      (s.(tenants := W.PutTenant(s.tenants, n, stored)), response)
  }

  function PatchStatusIn(s: Store, call: Call, n: string, patch: Json): (Store, Option<Tenant>) {
    if !patch.Obj? then (s, None)
    else
      var (stored, response) := StatusEndpoint(TenantAt(s, n), patch, call.outcome);
      (s.(tenants := W.PutTenant(s.tenants, n, stored)), response)
  }

  /** What the caller of a patch hears. */
  function PatchReply(response: Option<Tenant>): Reply<Tenant> {
    match response case None => Reply.Failed case Some(t) => Found(t)
  }

  /**
   How a server behaves: what becomes of the store between the previous call and this one, and
   what its two patch endpoints do. The helpers that write through it hold for any such rules.
   */
  datatype Rules = Rules(
    world: (Store, Turn) -> Store,
    patchMain: (Store, Call, string, Json) -> (Store, Option<Tenant>),
    patchStatus: (Store, Call, string, Json) -> (Store, Option<Tenant>))

  /** The rules of this API server, as seen by the reconcile of one tenant. */
  function RulesFor(setup: Setup): Rules {
    Rules((s, turn) => Settle(setup, s, turn), PatchMainIn, PatchStatusIn)
  }

  class ApiServer {
    const rules: Rules
    var tenants: map<string, Tenant>
    var objects: map<Key, HostObject>
    var procs: map<string, Proc>
    var script: seq<Turn>
    var entropy: Entropy
    var clock: int
    ghost var history: seq<Turn>

    constructor (rules: Rules, s: Store, script: seq<Turn>)
      ensures this.rules == rules && Contents() == s && this.script == script && history == [] && Valid()
    {
      this.rules := rules;
      tenants, objects, procs := s.tenants, s.objects, s.procs;
      this.script := script;
      entropy, clock := Exhausted, 0;
      history := [];
    }

    function Contents(): Store
      reads this
    {
      W.World(tenants, objects, procs)
    }

    /** The clock and the random source are the ones that follow the last call. */
    ghost predicate Valid()
      reads this
    {
      history != [] ==> entropy == history[|history| - 1].call.entropy && clock == history[|history| - 1].call.now
    }

    /** One call of the script has been used up. */
    twostate predicate Advanced()
      reads this
    {
      && old(script) != [] && script == old(script)[1..] && history == old(history) + [old(script)[0]]
      && entropy == old(script)[0].call.entropy && clock == old(script)[0].call.now
      && history + script == old(history) + old(script)
    }

    /** Lets happen what happens before the next call; None when the process dies here. */
    method Await() returns (call: Option<Call>)
      modifies this
      ensures old(script) == [] ==> call.None? && unchanged(this)
      ensures old(script) != [] ==>
                Advanced() && call == Some(old(script)[0].call) &&
                Contents() == rules.world(old(Contents()), old(script)[0])
    {
      if script == [] {
        return None;
      }
      var next := script[0];
      var settled := rules.world(Contents(), next);
      tenants, objects, procs := settled.tenants, settled.objects, settled.procs;
      entropy, clock := next.call.entropy, next.call.now;
      history := history + [next];
      script := script[1..];
      return Some(next.call);
    }

    method GetTenant(n: string) returns (r: Reply<Tenant>)
      modifies this
      ensures old(script) == [] ==> r.Crashed? && unchanged(this)
      ensures old(script) != [] ==>
                Advanced() && Contents() == rules.world(old(Contents()), old(script)[0]) &&
                r == TenantReply(Contents(), old(script)[0].call, n)
    {
      var call := Await();
      if call.None? {
        return Crashed;
      }
      r := TenantReply(Contents(), call.value, n);
    }

    method GetObject(key: Key) returns (r: Reply<HostObject>)
      modifies this
      ensures old(script) == [] ==> r.Crashed? && unchanged(this)
      ensures old(script) != [] ==>
                Advanced() && Contents() == rules.world(old(Contents()), old(script)[0]) &&
                r == ObjectReply(Contents(), old(script)[0].call, key)
    {
      var call := Await();
      if call.None? {
        return Crashed;
      }
      r := ObjectReply(Contents(), call.value, key);
    }

    method CreateObject(key: Key, o: HostObject) returns (r: Reply<()>)
      modifies this
      ensures old(script) == [] ==> r.Crashed? && unchanged(this)
      ensures old(script) != [] ==>
                Advanced() &&
                (Contents(), r) == CreateIn(rules.world(old(Contents()), old(script)[0]), old(script)[0].call, key, o)
    {
      var call := Await();
      if call.None? {
        return Crashed;
      }
      if key in objects {
        return Reply.Failed;
      }
      if !call.value.outcome.Refused? {
        objects := objects[key := o];
      }
      r := if call.value.outcome.Answered? then Found(()) else Reply.Failed;
    }

    method PatchTenant(n: string, patch: Json) returns (r: Reply<Tenant>)
      modifies this
      ensures old(script) == [] ==> r.Crashed? && unchanged(this)
      ensures old(script) != [] ==>
                Advanced() &&
                var met := rules.world(old(Contents()), old(script)[0]);
                var (after, response) := rules.patchMain(met, old(script)[0].call, n, patch);
                Contents() == after && r == PatchReply(response)
    {
      var call := Await();
      if call.None? {
        return Crashed;
      }
      var (after, response) := rules.patchMain(Contents(), call.value, n, patch);
      tenants, objects, procs := after.tenants, after.objects, after.procs;
      r := PatchReply(response);
    }

    method PatchTenantStatus(n: string, patch: Json) returns (r: Reply<Tenant>)
      modifies this
      ensures old(script) == [] ==> r.Crashed? && unchanged(this)
      ensures old(script) != [] ==>
                Advanced() &&
                var met := rules.world(old(Contents()), old(script)[0]);
                var (after, response) := rules.patchStatus(met, old(script)[0].call, n, patch);
                Contents() == after && r == PatchReply(response)
    {
      var call := Await();
      if call.None? {
        return Crashed;
      }
      var (after, response) := rules.patchStatus(Contents(), call.value, n, patch);
      tenants, objects, procs := after.tenants, after.objects, after.procs;
      r := PatchReply(response);
    }
  }

  // ---------- Calls on the store are steps of the machine ----------

  /** The machine's state for a store and a point of the reconcile. */
  function At(s: Store, n: string, p: Proc): Cell { Here(s, n).(proc := p) }

  function RunCalls(setup: Setup, c: Cell, used: seq<Turn>): Cell
    decreases used
  {
    if used == [] then c else RunCalls(setup, Step(setup, c, Perform(used[0].call)), used[1..])
  }

  function Performed(used: seq<Turn>): seq<Event> {
    seq(|used|, i requires 0 <= i < |used| => Perform(used[i].call))
  }

  lemma {:induction false} RunCallsIsRun(setup: Setup, c: Cell, used: seq<Turn>)
    ensures RunCalls(setup, c, used) == Run(setup, c, Performed(used))
    decreases used
  {
    hide Step;
    if used != [] {
      RunCallsIsRun(setup, Step(setup, c, Perform(used[0].call)), used[1..]);
      assert Performed(used)[1..] == Performed(used[1..]);
    }
  }

  lemma {:induction false} RunCallsConcat(setup: Setup, c: Cell, a: seq<Turn>, b: seq<Turn>)
    ensures RunCalls(setup, c, a + b) == RunCalls(setup, RunCalls(setup, c, a), b)
    decreases a
  {
    hide Step;
    if a == [] {
      assert [] + b == b;
    } else {
      assert (a + b)[1..] == a[1..] + b;
      RunCallsConcat(setup, Step(setup, c, Perform(a[0].call)), a[1..], b);
    }
  }

  lemma HereIs(s: Store, n: string, c: Cell)
    requires TenantAt(s, n) == c.tenant && W.HostOf(s.objects, n) == c.host
    ensures Here(s, n) == c.(proc := Reading)
  {
  }

  lemma HostOfPut(s: Store, n: string, c: Cell)
    ensures W.HostOf(Put(s, n, c).objects, n) == c.host
  {
    W.HostOfPut(s.objects, n, c.host, n);
  }

  lemma PutIsHere(s: Store, n: string, c: Cell)
    ensures Here(Put(s, n, c), n) == c.(proc := Reading)
  {
    HostOfPut(s, n, c);
    HereIs(Put(s, n, c), n, c);
  }

  lemma ElsewhereOfPut(s: Store, n: string, c: Cell)
    ensures Elsewhere(Put(s, n, c), n) == Elsewhere(s, n)
  {
    var a, b := Elsewhere(Put(s, n, c), n), Elsewhere(s, n);
    forall k ensures W.Lookup(a.objects, k) == W.Lookup(b.objects, k) {
      W.PutAt(s.objects, n, c.host, k);
    }
    W.SameMap(a.objects, b.objects);
    assert a.tenants == b.tenants;
  }

  /** What the surroundings do to a tenant in mid-reconcile does not depend on how far it has got. */
  lemma {:induction false} EnvsIgnoreProgress(n: string, c: Cell, p: Proc, es: seq<Env>)
    requires !c.proc.AtRest() && !p.AtRest()
    ensures AfterEnvs(n, c.(proc := p), es) == AfterEnvs(n, c, es).(proc := p)
    ensures AfterEnvs(n, c, es).proc == c.proc
    decreases es
  {
    if es != [] {
      EnvsIgnoreProgress(n, AfterEnv(n, c, es[0]), p, es[1..]);
    }
  }

  lemma {:induction false} NoEventsOfNobody(xs: seq<W.Move>, n: string)
    requires forall x | x in xs :: x.tenant != n
    ensures W.EventsOf(xs, n) == []
  {
    if xs != [] { NoEventsOfNobody(xs[1..], n); }
  }

  /** Other tenants leave this one alone. */
  lemma OthersSpareHere(setup: Setup, s: Store, turn: Turn)
    ensures Here(Shared(setup, s, turn), setup.name) == Here(s, setup.name)
  {
    hide W.RunWorld;
    var xs := W.Except(turn.others, setup.name);
    W.RunWorldProjects(SiteOf(setup), s, xs, setup.name);
    NoEventsOfNobody(xs, setup.name);
  }

  lemma SettleElsewhere(setup: Setup, s: Store, turn: Turn)
    ensures Elsewhere(Settle(setup, s, turn), setup.name) == Elsewhere(Shared(setup, s, turn), setup.name)
  {
    hide W.RunWorld, Elsewhere;
    var t := Shared(setup, s, turn);
    ElsewhereOfPut(t, setup.name, AfterEnvs(setup.name, Here(t, setup.name), turn.call.before));
  }

  /** A call of the machine meets the state that the same call on the server meets. */
  lemma SettleMatches(setup: Setup, s: Store, p: Proc, turn: Turn)
    requires !p.AtRest()
    ensures AfterEnvs(setup.name, At(s, setup.name, p), turn.call.before) == At(Settle(setup, s, turn), setup.name, p)
  {
    hide W.RunWorld, Shared, Put, AfterEnvs, AfterEnv;
    var n, t := setup.name, Shared(setup, s, turn);
    OthersSpareHere(setup, s, turn);
    EnvsIgnoreProgress(n, Here(s, n), p, turn.call.before);
    PutIsHere(t, n, AfterEnvs(n, Here(t, n), turn.call.before));
  }

  lemma StoreObjectElsewhere(s: Store, n: string, part: Part, o: HostObject)
    ensures Elsewhere(s.(objects := s.objects[KeyOf(part, n) := o]), n) == Elsewhere(s, n)
  {
    hide KeyOf;
    KeyIsOwned(part, n);
  }

  /** Storing an object under one of the tenant's keys. */
  lemma StoreObject(s: Store, n: string, part: Part, o: HostObject)
    ensures var t := s.(objects := s.objects[KeyOf(part, n) := o]);
            Here(t, n) == Here(s, n).(host := Here(s, n).host[part := o]) && Elsewhere(t, n) == Elsewhere(s, n)
  {
    hide KeyOf, W.HostOf, Elsewhere;
    var t := s.(objects := s.objects[KeyOf(part, n) := o]);
    var host := Here(s, n).host[part := o];
    forall p ensures W.Lookup(W.HostOf(t.objects, n), p) == W.Lookup(host, p) {
      W.HostOfAt(t.objects, n, p);
      W.HostOfAt(s.objects, n, p);
      KeysAreDistinct(p, part, n, n);
    }
    W.SameMap(W.HostOf(t.objects, n), host);
    StoreObjectElsewhere(s, n, part, o);
  }

  lemma StoreTenant(s: Store, n: string, v: Option<Tenant>)
    ensures var t := s.(tenants := W.PutTenant(s.tenants, n, v));
            Here(t, n) == Here(s, n).(tenant := v) && Elsewhere(t, n) == Elsewhere(s, n)
  {
  }

  lemma PartIsHere(s: Store, n: string, part: Part)
    ensures part in Here(s, n).host <==> KeyOf(part, n) in s.objects
    ensures part in Here(s, n).host ==> Here(s, n).host[part] == s.objects[KeyOf(part, n)]
  {
  }

  // ---------- Other tenants ----------

  lemma ElsewhereAt(s: Store, n: string, k: Key)
    ensures W.Lookup(Elsewhere(s, n).objects, k) == if W.Owns(n, k) then None else W.Lookup(s.objects, k)
  {
  }

  /** What belongs to another tenant can be read off the rest of the store. */
  lemma ProjectElsewhere(a: Store, b: Store, n: string, m: string)
    requires Elsewhere(a, n) == Elsewhere(b, n) && m != n
    ensures W.Project(a, m) == W.Project(b, m)
  {
    hide W.Owns, KeyOf;
    forall p ensures W.Lookup(W.HostOf(a.objects, m), p) == W.Lookup(W.HostOf(b.objects, m), p) {
      var k := KeyOf(p, m);
      W.HostOfAt(a.objects, m, p);
      W.HostOfAt(b.objects, m, p);
      ElsewhereAt(a, n, k);
      ElsewhereAt(b, n, k);
      KeyIsOwned(p, m);
      W.OneOwner(n, m, k);
    }
    W.SameMap(W.HostOf(a.objects, m), W.HostOf(b.objects, m));
    assert m in a.tenants <==> m in Elsewhere(a, n).tenants;
    assert m in b.tenants <==> m in Elsewhere(b, n).tenants;
    assert m in a.procs <==> m in Elsewhere(a, n).procs;
    assert m in b.procs <==> m in Elsewhere(b, n).procs;
  }

  lemma KeyIsOwned(p: Part, n: string)
    ensures W.Owns(n, KeyOf(p, n))
  {
    W.AllParts(p);
  }

  lemma InjectObjectsElsewhere(a: Store, b: Store, n: string, m: string, c: Cell)
    requires Elsewhere(a, n).objects == Elsewhere(b, n).objects
    ensures Elsewhere(W.Inject(a, m, c), n).objects == Elsewhere(W.Inject(b, m, c), n).objects
  {
    hide W.Owns, KeyOf, W.PutObjects, W.KeysOf, Elsewhere;
    var x, y := W.Inject(a, m, c), W.Inject(b, m, c);
    forall k ensures W.Lookup(Elsewhere(x, n).objects, k) == W.Lookup(Elsewhere(y, n).objects, k) {
      ElsewhereAt(x, n, k);
      ElsewhereAt(y, n, k);
      ElsewhereAt(a, n, k);
      ElsewhereAt(b, n, k);
      W.PutAt(a.objects, m, c.host, k);
      W.PutAt(b.objects, m, c.host, k);
    }
    W.SameMap(Elsewhere(x, n).objects, Elsewhere(y, n).objects);
  }

  lemma MapElsewhere<V>(a: map<string, V>, b: map<string, V>, n: string, m: string, v: V)
    requires a - {n} == b - {n} && m != n
    ensures a[m := v] - {n} == b[m := v] - {n} && (a - {m}) - {n} == (b - {m}) - {n}
  {
    assert a[m := v] - {n} == (a - {n})[m := v] && b[m := v] - {n} == (b - {n})[m := v];
    assert (a - {m}) - {n} == (a - {n}) - {m} && (b - {m}) - {n} == (b - {n}) - {m};
  }

  lemma InjectElsewhere(a: Store, b: Store, n: string, m: string, c: Cell)
    requires Elsewhere(a, n) == Elsewhere(b, n) && m != n
    ensures Elsewhere(W.Inject(a, m, c), n) == Elsewhere(W.Inject(b, m, c), n)
  {
    hide W.Owns, W.PutObjects;
    InjectObjectsElsewhere(a, b, n, m, c);
    MapElsewhere(a.procs, b.procs, n, m, c.proc);
    if c.tenant.Some? {
      MapElsewhere(a.tenants, b.tenants, n, m, c.tenant.value);
    } else if m in a.tenants {
      MapElsewhere(a.tenants, b.tenants, n, m, a.tenants[m]);
    } else {
      assert m !in Elsewhere(a, n).tenants && m !in Elsewhere(b, n).tenants;
      assert a.tenants - {m} == a.tenants && b.tenants - {m} == b.tenants;
    }
  }

  /** The moves of other tenants depend on nothing but the rest of the store. */
  lemma {:induction false} OthersDependOnElsewhere(site: W.Site, a: Store, b: Store, n: string, xs: seq<W.Move>)
    requires Elsewhere(a, n) == Elsewhere(b, n) && forall x | x in xs :: x.tenant != n
    ensures Elsewhere(W.RunWorld(site, a, xs), n) == Elsewhere(W.RunWorld(site, b, xs), n)
    decreases xs
  {
    hide Elsewhere, Step, W.Inject, W.Project;
    if xs != [] {
      var m := xs[0].tenant;
      ProjectElsewhere(a, b, n, m);
      InjectElsewhere(a, b, n, m, Step(W.SetupFor(site, m), W.Project(a, m), xs[0].event));
      OthersDependOnElsewhere(site, W.StepWorld(site, a, xs[0]), W.StepWorld(site, b, xs[0]), n, xs[1..]);
    }
  }

  /** The moves of other tenants before and between some calls, in their order. */
  function OthersOf(used: seq<Turn>, n: string): (xs: seq<W.Move>)
    ensures forall x | x in xs :: x.tenant != n
  {
    if used == [] then [] else W.Except(used[0].others, n) + OthersOf(used[1..], n)
  }

  lemma {:induction false} OthersOfConcat(a: seq<Turn>, b: seq<Turn>, n: string)
    ensures OthersOf(a + b, n) == OthersOf(a, n) + OthersOf(b, n)
  {
    if a == [] {
      assert [] + b == b;
    } else {
      assert (a + b)[1..] == a[1..] + b;
      OthersOfConcat(a[1..], b, n);
    }
  }
}
