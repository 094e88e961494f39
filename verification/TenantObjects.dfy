/** The Tenant object in memory, which a reconcile reads once and changes in place. */
module TenantObjects {
  import opened Tenants
  import C = Conditions

  class TenantObject {
    var name: string
    var uid: nat
    var labels: map<string, string>
    var annotations: map<string, string>
    var finalizers: seq<string>
    var owners: seq<OwnerReference>
    var deletionTimestamp: C.Time
    var phase: string
    var conditions: C.Conditions

    /** A deep copy of a Tenant. */
    constructor (t: Tenant)
      ensures View() == t
    {
      name, uid, labels, annotations := t.name, t.uid, t.labels, t.annotations;
      finalizers, owners, deletionTimestamp := t.finalizers, t.owners, t.deletionTimestamp;
      phase, conditions := t.phase, t.conditions;
    }

    function View(): Tenant
      reads this
    {
      Tenant(name, uid, labels, annotations, finalizers, owners, deletionTimestamp, phase, conditions)
    }

    function AsOwner(): OwnerReference
      reads this
    {
      OwnerReference(API_VERSION, KIND, name, uid)
    }

    /** Overwrites the object, as reading it or patching it does. */
    method Assign(t: Tenant)
      modifies this
      ensures View() == t
    {
      name, uid, labels, annotations := t.name, t.uid, t.labels, t.annotations;
      finalizers, owners, deletionTimestamp := t.finalizers, t.owners, t.deletionTimestamp;
      phase, conditions := t.phase, t.conditions;
    }

    predicate IsPhase(p: string)
      reads this
    {
      phase == p
    }

    method SetPhase(p: string)
      modifies this
      ensures View() == old(View()).(phase := p)
    {
      phase := p;
    }

    function GetConditions(): C.Conditions
      reads this
    {
      conditions
    }

    method SetConditions(cs: C.Conditions)
      modifies this
      ensures View() == old(View()).(conditions := cs)
    {
      conditions := cs;
    }

    method AddFinalizer(f: string)
      modifies this
      ensures View() ==
              old(View()).(finalizers := if f in old(finalizers) then old(finalizers) else old(finalizers) + [f])
    {
      if f !in finalizers {
        finalizers := finalizers + [f];
      }
    }

    /** Takes out every occurrence of our finalizer, closing the gap each time. */
    method RemoveFinalizer()
      modifies this
      ensures View() == old(View()).(finalizers := Without(old(finalizers)))
    {
      ghost var was := finalizers;
      var i := 0;
      while i < |finalizers|
        invariant 0 <= i <= |finalizers|
        invariant finalizers[..i] + Without(finalizers[i..]) == Without(was)
        invariant View() == old(View()).(finalizers := finalizers)
        decreases |finalizers| - i
      {
        WithoutStep(finalizers, i);
        if finalizers[i] == FINALIZER {
          finalizers := finalizers[..i] + finalizers[i + 1..];
        } else {
          i := i + 1;
        }
      }
      assert finalizers[..i] == finalizers && Without(finalizers[i..]) == [];
    }
  }

  lemma WithoutStep(fs: seq<string>, i: nat)
    requires i < |fs|
    ensures fs[i] == FINALIZER ==>
              var cut := fs[..i] + fs[i + 1..]; cut[..i] + Without(cut[i..]) == fs[..i] + Without(fs[i..])
    ensures fs[i] != FINALIZER ==> fs[..i + 1] + Without(fs[i + 1..]) == fs[..i] + Without(fs[i..])
  {
  }
}
