/**
 Many tenants side by side on one API server. The store is keyed globally; the steps of one
 tenant touch only its own keys, so reconciles of different tenants do not interfere.
 */
module Worlds {
  import opened Wrappers
  import opened Certificates
  import opened Tenants
  import opened HostObjects
  import opened Protocol

  datatype World = World(tenants: map<string, Tenant>, objects: map<Key, HostObject>, procs: map<string, Proc>)

  const NOTHING := World(map[], map[], map[])

  /** What the one controller is started with. */
  datatype Site = Site(etcdSecret: map<string, Pem>, etcdServers: string)

  function SetupFor(site: Site, n: string): Setup { Setup(n, site.etcdSecret, site.etcdServers) }

  predicate Owns(n: string, k: Key) { exists p | p in PARTS :: k == KeyOf(p, n) }

  lemma AllParts(p: Part)
    ensures p in PARTS
  {
  }

  function HostOf(objects: map<Key, HostObject>, n: string): map<Part, HostObject> {
    map p | p in PARTS && KeyOf(p, n) in objects :: objects[KeyOf(p, n)]
  }

  function TenantOf(w: World, n: string): Option<Tenant> { if n in w.tenants then Some(w.tenants[n]) else None }

  function ProcOf(w: World, n: string): Proc { if n in w.procs then w.procs[n] else Idle }

  /** The part of the world that belongs to one tenant. */
  function Project(w: World, n: string): Cell {
    Cell(TenantOf(w, n), HostOf(w.objects, n), ProcOf(w, n))
  }

  function KeysOf(host: map<Part, HostObject>, n: string): map<Key, HostObject> {
    map p | p in host :: KeyOf(p, n) := host[p]
  }

  function PutObjects(objects: map<Key, HostObject>, n: string, host: map<Part, HostObject>): map<Key, HostObject> {
    (map k | k in objects && !Owns(n, k) :: objects[k]) + KeysOf(host, n)
  }

  function PutTenant(tenants: map<string, Tenant>, n: string, t: Option<Tenant>): map<string, Tenant> {
    match t case None => tenants - {n} case Some(v) => tenants[n := v]
  }

  /** The world with one tenant's part replaced. */
  function Inject(w: World, n: string, c: Cell): World {
    World(PutTenant(w.tenants, n, c.tenant), PutObjects(w.objects, n, c.host), w.procs[n := c.proc])
  }

  lemma KeysOfAt(host: map<Part, HostObject>, n: string, k: Key, p: Part)
    requires k == KeyOf(p, n)
    ensures k in KeysOf(host, n) <==> p in host
    ensures p in host ==> KeysOf(host, n)[k] == host[p]
  {
    if k in KeysOf(host, n) {
      var q :| q in host && KeyOf(q, n) == k;
      KeysAreDistinct(p, q, n, n);
    }
  }

  lemma NotOwned(host: map<Part, HostObject>, n: string, k: Key)
    requires !Owns(n, k)
    ensures k !in KeysOf(host, n)
  {
  }

  /** An object's place in the world after one tenant's part has been replaced. */
  lemma PutObjectsAt(objects: map<Key, HostObject>, n: string, host: map<Part, HostObject>, m: string, p: Part)
    ensures var r := PutObjects(objects, n, host);
            if m == n
            then (KeyOf(p, m) in r <==> p in host) && (p in host ==> r[KeyOf(p, m)] == host[p])
            else (KeyOf(p, m) in r <==> KeyOf(p, m) in objects) &&
                 (KeyOf(p, m) in objects ==> r[KeyOf(p, m)] == objects[KeyOf(p, m)])
  {
    AllParts(p);
    if m == n {
      KeysOfAt(host, n, KeyOf(p, n), p);
      assert Owns(n, KeyOf(p, n));
    } else {
      forall q: Part ensures KeyOf(q, n) != KeyOf(p, m) { KeysAreDistinct(q, p, n, m); }
      assert !Owns(n, KeyOf(p, m));
      NotOwned(host, n, KeyOf(p, m));
    }
  }

  function Lookup<K, V>(m: map<K, V>, k: K): Option<V> { if k in m then Some(m[k]) else None }

  lemma SameMap<K, V>(a: map<K, V>, b: map<K, V>)
    requires forall k :: Lookup(a, k) == Lookup(b, k)
    ensures a == b
  {
    forall k ensures (k in a <==> k in b) && (k in a ==> a[k] == b[k]) {
      assert Lookup(a, k) == Lookup(b, k);
    }
  }

  lemma HostOfAt(objects: map<Key, HostObject>, n: string, p: Part)
    ensures Lookup(HostOf(objects, n), p) == Lookup(objects, KeyOf(p, n))
  {
  }

  lemma HostOfPut(objects: map<Key, HostObject>, n: string, host: map<Part, HostObject>, m: string)
    ensures HostOf(PutObjects(objects, n, host), m) == if m == n then host else HostOf(objects, m)
  {
    var put := HostOf(PutObjects(objects, n, host), m);
    var expected := if m == n then host else HostOf(objects, m);
    forall p ensures Lookup(put, p) == Lookup(expected, p) {
      HostOfAt(PutObjects(objects, n, host), m, p);
      HostOfAt(objects, m, p);
      PutObjectsAt(objects, n, host, m, p);
    }
    SameMap(put, expected);
  }

  lemma HostOfInject(w: World, n: string, c: Cell, m: string)
    ensures HostOf(Inject(w, n, c).objects, m) == if m == n then c.host else HostOf(w.objects, m)
  {
    HostOfPut(w.objects, n, c.host, m);
  }

  lemma ProjectionIs(w: World, n: string, c: Cell)
    requires TenantOf(w, n) == c.tenant && HostOf(w.objects, n) == c.host && ProcOf(w, n) == c.proc
    ensures Project(w, n) == c
  {
  }

  lemma ProjectInject(w: World, n: string, c: Cell)
    ensures Project(Inject(w, n, c), n) == c
  {
    HostOfInject(w, n, c, n);
    ProjectionIs(Inject(w, n, c), n, c);
  }

  lemma ProjectOther(w: World, n: string, c: Cell, m: string)
    requires n != m
    ensures Project(Inject(w, n, c), m) == Project(w, m)
  {
    HostOfInject(w, n, c, m);
    ProjectionIs(Inject(w, n, c), m, Project(w, m));
  }

  lemma PutAt(objects: map<Key, HostObject>, n: string, host: map<Part, HostObject>, k: Key)
    ensures Lookup(PutObjects(objects, n, host), k) ==
            if Owns(n, k) then Lookup(KeysOf(host, n), k) else Lookup(objects, k)
  {
    if !Owns(n, k) { NotOwned(host, n, k); }
  }

  lemma OneOwner(n: string, m: string, k: Key)
    ensures Owns(n, k) && Owns(m, k) ==> n == m
  {
    if Owns(n, k) && Owns(m, k) {
      var p :| p in PARTS && k == KeyOf(p, n);
      var q :| q in PARTS && k == KeyOf(q, m);
      KeysAreDistinct(p, q, n, m);
    }
  }

  lemma PutTwice(
      objects: map<Key, HostObject>, n: string, a: map<Part, HostObject>, m: string, b: map<Part, HostObject>)
    requires n != m
    ensures PutObjects(PutObjects(objects, n, a), m, b) == PutObjects(PutObjects(objects, m, b), n, a)
  {
    var x, y := PutObjects(PutObjects(objects, n, a), m, b), PutObjects(PutObjects(objects, m, b), n, a);
    forall k ensures Lookup(x, k) == Lookup(y, k) {
      PutAt(PutObjects(objects, n, a), m, b, k);
      PutAt(objects, n, a, k);
      PutAt(PutObjects(objects, m, b), n, a, k);
      PutAt(objects, m, b, k);
      OneOwner(n, m, k);
    }
    SameMap(x, y);
  }

  lemma PutTenantTwice(tenants: map<string, Tenant>, n: string, a: Option<Tenant>, m: string, b: Option<Tenant>)
    requires n != m
    ensures PutTenant(PutTenant(tenants, n, a), m, b) == PutTenant(PutTenant(tenants, m, b), n, a)
  {
    var x, y := PutTenant(PutTenant(tenants, n, a), m, b), PutTenant(PutTenant(tenants, m, b), n, a);
    forall k ensures Lookup(x, k) == Lookup(y, k) {}
    SameMap(x, y);
  }

  /** Replacing the parts of two tenants can be done in either order. */
  lemma InjectsCommute(w: World, n: string, c: Cell, m: string, d: Cell)
    requires n != m
    ensures Inject(Inject(w, n, c), m, d) == Inject(Inject(w, m, d), n, c)
  {
    hide PutObjects, PutTenant;
    PutTwice(w.objects, n, c.host, m, d.host);
    PutTenantTwice(w.tenants, n, c.tenant, m, d.tenant);
    assert w.procs[n := c.proc][m := d.proc] == w.procs[m := d.proc][n := c.proc];
  }

  // ---------- Runs of the world ----------

  /** One step of one tenant: an action of its user or surroundings, or one API call of its reconcile. */
  datatype Move = Move(tenant: string, event: Event)

  function StepWorld(site: Site, w: World, x: Move): World {
    Inject(w, x.tenant, Step(SetupFor(site, x.tenant), Project(w, x.tenant), x.event))
  }

  function RunWorld(site: Site, w: World, xs: seq<Move>): World
    decreases xs
  {
    if xs == [] then w else RunWorld(site, StepWorld(site, w, xs[0]), xs[1..])
  }

  lemma StepWorldProjects(site: Site, w: World, x: Move, n: string)
    ensures Project(StepWorld(site, w, x), n) ==
            if n == x.tenant then Step(SetupFor(site, n), Project(w, n), x.event) else Project(w, n)
  {
    var c := Step(SetupFor(site, x.tenant), Project(w, x.tenant), x.event);
    if n == x.tenant { ProjectInject(w, n, c); } else { ProjectOther(w, x.tenant, c, n); }
  }

  /** API calls of two tenants commute. */
  lemma MovesCommute(site: Site, w: World, x: Move, y: Move)
    requires x.tenant != y.tenant
    ensures StepWorld(site, StepWorld(site, w, x), y) == StepWorld(site, StepWorld(site, w, y), x)
  {
    hide Step, Inject, Project;
    StepWorldProjects(site, w, x, y.tenant);
    StepWorldProjects(site, w, y, x.tenant);
    InjectsCommute(w, x.tenant, Step(SetupFor(site, x.tenant), Project(w, x.tenant), x.event),
                      y.tenant, Step(SetupFor(site, y.tenant), Project(w, y.tenant), y.event));
  }

  function EventsOf(xs: seq<Move>, n: string): seq<Event> {
    if xs == [] then []
    else if xs[0].tenant == n then [xs[0].event] + EventsOf(xs[1..], n)
    else EventsOf(xs[1..], n)
  }

  /** However the moves interleave, each tenant goes through the run of its own moves. */
  lemma {:induction false} RunWorldProjects(site: Site, w: World, xs: seq<Move>, n: string)
    ensures Project(RunWorld(site, w, xs), n) == Run(SetupFor(site, n), Project(w, n), EventsOf(xs, n))
    decreases xs
  {
    hide Step, Inject, Project;
    if xs != [] {
      StepWorldProjects(site, w, xs[0], n);
      RunWorldProjects(site, StepWorld(site, w, xs[0]), xs[1..], n);
      if xs[0].tenant == n {
        assert EventsOf(xs, n)[0] == xs[0].event && EventsOf(xs, n)[1..] == EventsOf(xs[1..], n);
      }
    }
  }

  /** So whatever holds of every reachable state of a tenant holds of it in every interleaving. */
  lemma EveryTenantIsReachable(site: Site, xs: seq<Move>, n: string)
    ensures Reachable(SetupFor(site, n), Project(RunWorld(site, NOTHING, xs), n))
  {
    RunWorldProjects(site, NOTHING, xs, n);
    assert Project(NOTHING, n) == EMPTY;
  }

  function Only(xs: seq<Move>, n: string): seq<Move> {
    if xs == [] then [] else if xs[0].tenant == n then [xs[0]] + Only(xs[1..], n) else Only(xs[1..], n)
  }

  function Except(xs: seq<Move>, n: string): (r: seq<Move>)
    ensures forall x :: x in r <==> x in xs && x.tenant != n
  {
    if xs == [] then []
    else
      assert xs == [xs[0]] + xs[1..];
      if xs[0].tenant == n then Except(xs[1..], n) else [xs[0]] + Except(xs[1..], n)
  }

  /** A move of another tenant may be put off until after all the moves of one tenant. */
  lemma {:induction false} PutOff(site: Site, w: World, y: Move, xs: seq<Move>, n: string)
    requires y.tenant != n && forall x | x in xs :: x.tenant == n
    ensures RunWorld(site, StepWorld(site, w, y), xs) == StepWorld(site, RunWorld(site, w, xs), y)
    decreases xs
  {
    hide Step, Inject, Project;
    if xs != [] {
      MovesCommute(site, w, y, xs[0]);
      PutOff(site, StepWorld(site, w, xs[0]), y, xs[1..], n);
    }
  }

  lemma {:induction false} OnlyIsOne(xs: seq<Move>, n: string)
    ensures forall x | x in Only(xs, n) :: x.tenant == n
  {
    if xs != [] { OnlyIsOne(xs[1..], n); }
  }

  /** Any interleaving ends where it would with all the moves of one tenant first. */
  lemma {:induction false} OneTenantFirst(site: Site, w: World, xs: seq<Move>, n: string)
    ensures RunWorld(site, w, xs) == RunWorld(site, RunWorld(site, w, Only(xs, n)), Except(xs, n))
    decreases xs
  {
    hide Step, Inject, Project;
    if xs != [] {
      var x, rest := xs[0], xs[1..];
      OneTenantFirst(site, StepWorld(site, w, x), rest, n);
      if x.tenant == n {
        assert Only(xs, n)[0] == x && Only(xs, n)[1..] == Only(rest, n);
      } else {
        OnlyIsOne(rest, n);
        PutOff(site, w, x, Only(rest, n), n);
        assert Except(xs, n)[0] == x && Except(xs, n)[1..] == Except(rest, n);
      }
    }
  }

  lemma {:induction false} RunWorldConcat(site: Site, w: World, a: seq<Move>, b: seq<Move>)
    ensures RunWorld(site, w, a + b) == RunWorld(site, RunWorld(site, w, a), b)
    decreases a
  {
    hide Step, Inject, Project;
    if a == [] {
      assert [] + b == b;
    } else {
      assert (a + b)[1..] == a[1..] + b;
      RunWorldConcat(site, StepWorld(site, w, a[0]), a[1..], b);
    }
  }

  /** The moves tenant by tenant, in the given order of tenants. */
  function Serial(xs: seq<Move>, names: seq<string>): seq<Move>
    decreases names
  {
    if names == [] then [] else Only(xs, names[0]) + Serial(Except(xs, names[0]), names[1..])
  }

  lemma NoMovesOfNobody(xs: seq<Move>)
    ensures (forall x | x in xs :: false) ==> xs == []
  {
    if xs != [] { assert xs[0] in xs; }
  }

  /** Any interleaving ends in the same world as any serial order of its tenants. */
  lemma {:induction false} EveryInterleavingIsSerial(site: Site, w: World, xs: seq<Move>, names: seq<string>)
    requires forall x | x in xs :: x.tenant in names
    ensures RunWorld(site, w, xs) == RunWorld(site, w, Serial(xs, names))
    decreases names
  {
    hide Step, Inject, Project;
    if names != [] {
      var n := names[0];
      var w' := RunWorld(site, w, Only(xs, n));
      OneTenantFirst(site, w, xs, n);
      forall x | x in Except(xs, n) ensures x.tenant in names[1..] {
        assert x.tenant in names && x.tenant != n;
      }
      EveryInterleavingIsSerial(site, w', Except(xs, n), names[1..]);
      RunWorldConcat(site, w, Only(xs, n), Serial(Except(xs, n), names[1..]));
    } else {
      NoMovesOfNobody(xs);
    }
  }
}
