/**
 A reconcile run by the controller, with the moves of other tenants in between its calls, is a run
 of the world; so it ends as it would had they gone before or after it.
 */
module Interleaving {
  import opened HostObjects
  import opened Protocol
  import opened ApiServers
  import opened Controllers
  import W = Worlds

  /** The store as a world in which the reconcile of a tenant is at a certain point. */
  function Holding(s: Store, n: string, p: Proc): W.World { s.(procs := s.procs[n := p]) }

  /** The moves behind some calls of the reconcile of a tenant, other tenants' included. */
  function MovesOf(used: seq<Turn>, n: string): seq<W.Move> {
    if used == [] then []
    else W.Except(used[0].others, n) + [W.Move(n, Perform(used[0].call))] + MovesOf(used[1..], n)
  }

  lemma {:induction false} EventsOfConcat(a: seq<W.Move>, b: seq<W.Move>, n: string)
    ensures W.EventsOf(a + b, n) == W.EventsOf(a, n) + W.EventsOf(b, n)
  {
    if a == [] {
      assert [] + b == b;
    } else {
      assert (a + b)[1..] == a[1..] + b;
      EventsOfConcat(a[1..], b, n);
    }
  }

  lemma {:induction false} EventsOfMoves(used: seq<Turn>, n: string)
    ensures W.EventsOf(MovesOf(used, n), n) == Performed(used)
  {
    if used != [] {
      var others, own := W.Except(used[0].others, n), [W.Move(n, Perform(used[0].call))];
      NoEventsOfNobody(others, n);
      EventsOfConcat(others + own, MovesOf(used[1..], n), n);
      EventsOfConcat(others, own, n);
      assert W.EventsOf(own, n) == [Perform(used[0].call)];
      EventsOfMoves(used[1..], n);
      assert Performed(used) == [Perform(used[0].call)] + Performed(used[1..]);
    }
  }

  lemma {:induction false} ExceptConcat(a: seq<W.Move>, b: seq<W.Move>, n: string)
    ensures W.Except(a + b, n) == W.Except(a, n) + W.Except(b, n)
  {
    if a == [] {
      assert [] + b == b;
    } else {
      assert (a + b)[1..] == a[1..] + b;
      ExceptConcat(a[1..], b, n);
    }
  }

  lemma {:induction false} ExceptOfOthers(xs: seq<W.Move>, n: string)
    requires forall x | x in xs :: x.tenant != n
    ensures W.Except(xs, n) == xs
  {
    if xs != [] {
      ExceptOfOthers(xs[1..], n);
      assert xs == [xs[0]] + xs[1..];
    }
  }

  lemma ExceptOfTurn(others: seq<W.Move>, own: W.Move, rest: seq<W.Move>)
    requires forall x | x in others :: x.tenant != own.tenant
    ensures W.Except(others + [own] + rest, own.tenant) == others + W.Except(rest, own.tenant)
  {
    hide W.Except;
    ExceptConcat(others + [own], rest, own.tenant);
    ExceptConcat(others, [own], own.tenant);
    ExceptOfOthers(others, own.tenant);
    ExceptOfOwn(own);
  }

  lemma ExceptOfOwn(own: W.Move)
    ensures W.Except([own], own.tenant) == []
  {
  }

  lemma {:induction false} ExceptOfMoves(used: seq<Turn>, n: string)
    ensures W.Except(MovesOf(used, n), n) == OthersOf(used, n)
  {
    hide W.Except;
    if used == [] {
      ExceptOfOthers([], n);
    } else {
      ExceptOfTurn(W.Except(used[0].others, n), W.Move(n, Perform(used[0].call)), MovesOf(used[1..], n));
      ExceptOfMoves(used[1..], n);
    }
  }

  lemma InjectKeepsElsewhere(s: Store, n: string, c: Cell)
    ensures Elsewhere(W.Inject(s, n, c), n) == Elsewhere(s, n)
  {
    hide W.PutObjects, W.PutTenant;
    ElsewhereOfPut(s, n, c);
    assert s.procs[n := c.proc] - {n} == s.procs - {n};
  }

  lemma {:induction false} OwnMovesKeepElsewhere(site: W.Site, s: Store, xs: seq<W.Move>, n: string)
    requires forall x | x in xs :: x.tenant == n
    ensures Elsewhere(W.RunWorld(site, s, xs), n) == Elsewhere(s, n)
    decreases xs
  {
    hide Elsewhere, Step, W.Inject, W.Project;
    if xs != [] {
      InjectKeepsElsewhere(s, n, Step(W.SetupFor(site, n), W.Project(s, n), xs[0].event));
      OwnMovesKeepElsewhere(site, W.StepWorld(site, s, xs[0]), xs[1..], n);
    }
  }

  /** The rest of the world goes where other tenants take it. */
  lemma ElsewhereOfRun(site: W.Site, s: Store, xs: seq<W.Move>, n: string)
    ensures Elsewhere(W.RunWorld(site, s, xs), n) == Elsewhere(W.RunWorld(site, s, W.Except(xs, n)), n)
  {
    hide Elsewhere, W.RunWorld;
    W.OneTenantFirst(site, s, xs, n);
    W.OnlyIsOne(xs, n);
    OwnMovesKeepElsewhere(site, s, W.Only(xs, n), n);
    OthersDependOnElsewhere(site, W.RunWorld(site, s, W.Only(xs, n)), s, n, W.Except(xs, n));
  }

  lemma {:induction false} RunKeepsProcs(site: W.Site, s: Store, xs: seq<W.Move>, n: string)
    requires n in s.procs
    ensures n in W.RunWorld(site, s, xs).procs
    decreases xs
  {
    hide Step, W.PutObjects, W.Project;
    if xs != [] {
      RunKeepsProcs(site, W.StepWorld(site, s, xs[0]), xs[1..], n);
    }
  }

  lemma HoldingIs(s: Store, n: string, p: Proc)
    ensures W.Project(Holding(s, n, p), n) == At(s, n, p) && Elsewhere(Holding(s, n, p), n) == Elsewhere(s, n)
    ensures n in Holding(s, n, p).procs
  {
    hide W.Owns, W.HostOf;
    assert s.procs[n := p] - {n} == s.procs - {n};
  }

  lemma SameWorld(a: Store, b: Store, n: string)
    requires W.Project(a, n) == W.Project(b, n) && Elsewhere(a, n) == Elsewhere(b, n) && n in a.procs && n in b.procs
    ensures a == b
  {
    hide W.HostOf, KeyOf, W.Owns;
    forall k ensures W.Lookup(a.objects, k) == W.Lookup(b.objects, k) { SameObject(a, b, n, k); }
    W.SameMap(a.objects, b.objects);
    forall m ensures W.Lookup(a.tenants, m) == W.Lookup(b.tenants, m) {
      assert W.Lookup(Elsewhere(a, n).tenants, m) == W.Lookup(Elsewhere(b, n).tenants, m);
    }
    W.SameMap(a.tenants, b.tenants);
    forall m ensures W.Lookup(a.procs, m) == W.Lookup(b.procs, m) {
      assert W.Lookup(Elsewhere(a, n).procs, m) == W.Lookup(Elsewhere(b, n).procs, m);
    }
    W.SameMap(a.procs, b.procs);
  }

  lemma SameObject(a: Store, b: Store, n: string, k: Key)
    requires W.Project(a, n) == W.Project(b, n) && Elsewhere(a, n) == Elsewhere(b, n)
    ensures W.Lookup(a.objects, k) == W.Lookup(b.objects, k)
  {
    hide KeyOf, W.HostOf, Elsewhere;
    ElsewhereAt(a, n, k);
    ElsewhereAt(b, n, k);
    if W.Owns(n, k) {
      var p :| p in PARTS && k == KeyOf(p, n);
      W.HostOfAt(a.objects, n, p);
      W.HostOfAt(b.objects, n, p);
    }
  }

  /**
   The stretch of a reconcile between two moments, whatever other tenants did meanwhile, is the run
   of the world made of its calls and their moves in the order in which they happened.
   */
  lemma ReconcileIsARunOfTheWorld(setup: Setup, a: Moment, p: Proc, b: Moment, q: Proc)
    requires Went(setup, a, p, b, q)
    ensures var moves := MovesOf(b.history[|a.history|..], setup.name);
            W.RunWorld(SiteOf(setup), Holding(a.store, setup.name, p), moves) == Holding(b.store, setup.name, q)
  {
    hide Holding, At, Elsewhere, W.RunWorld, W.Project, RunCalls, Run, OthersOf, MovesOf;
    var n, site, used := setup.name, SiteOf(setup), b.history[|a.history|..];
    var start, end := Holding(a.store, n, p), Holding(b.store, n, q);
    var there := W.RunWorld(site, start, MovesOf(used, n));
    HoldingIs(a.store, n, p);
    HoldingIs(b.store, n, q);
    W.RunWorldProjects(site, start, MovesOf(used, n), n);
    EventsOfMoves(used, n);
    RunCallsIsRun(setup, At(a.store, n, p), used);
    assert W.Project(there, n) == W.Project(end, n);
    ElsewhereOfRun(site, start, MovesOf(used, n), n);
    ExceptOfMoves(used, n);
    OthersDependOnElsewhere(site, start, a.store, n, OthersOf(used, n));
    assert Elsewhere(there, n) == Elsewhere(end, n);
    RunKeepsProcs(site, start, MovesOf(used, n), n);
    SameWorld(there, end, n);
  }
}
