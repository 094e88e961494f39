/**
 What a merge patch between two versions of a Tenant does to the Tenant the server holds,
 field by field.
 */
module TenantPatches {
  import opened Wrappers
  import opened MergePatch
  import opened Tenants

  function PatchBetween(base: Tenant, goal: Tenant): (patch: Json)
    ensures patch.Obj?
  {
    Diff(Encode(base), Encode(goal))
  }

  predicate MainDiffers(base: Tenant, goal: Tenant) { Main(Encode(base)) != Main(Encode(goal)) }

  predicate StatusDiffers(base: Tenant, goal: Tenant) { Status(Encode(base)) != Status(Encode(goal)) }

  /** A field after a patch: the writer's value if the writer changed it, else what is stored. */
  function Pick<T(==)>(base: T, goal: T, cur: T): T { if base != goal then goal else cur }

  /** The two agree on everything that the controller never assigns. */
  predicate SameUserPart(a: Tenant, b: Tenant) {
    a.name == b.name && a.uid == b.uid && a.labels == b.labels && a.annotations == b.annotations &&
    a.deletionTimestamp == b.deletionTimestamp
  }

  predicate SameStatus(a: Tenant, b: Tenant) { a.phase == b.phase && a.conditions == b.conditions }

  lemma EncodeStatusOnlyStatus(a: Tenant, b: Tenant)
    ensures EncodeStatus(a) == EncodeStatus(b) <==> SameStatus(a, b)
  {
    DecodeStatusInverts(a, a);
    DecodeStatusInverts(b, a);
    if SameStatus(a, b) {
      SameFields(EncodeStatus(a), EncodeStatus(b));
    }
  }

  predicate SameMain(a: Tenant, b: Tenant) {
    SameUserPart(a, b) && a.finalizers == b.finalizers && a.owners == b.owners
  }

  lemma EncodeMetaDetermined(a: Tenant, b: Tenant)
    requires SameMain(a, b)
    ensures EncodeMeta(a) == EncodeMeta(b)
  {
    forall k ensures Field(EncodeMeta(a), k) == Field(EncodeMeta(b), k) {
      MetaFields(a, k);
      MetaFields(b, k);
      assert MetaValue(a, k) == MetaValue(b, k);
    }
    SameFields(EncodeMeta(a), EncodeMeta(b));
  }

  lemma EncodeMetaOnlyMeta(a: Tenant, b: Tenant)
    ensures EncodeMeta(a) == EncodeMeta(b) <==> SameMain(a, b)
  {
    if SameMain(a, b) {
      EncodeMetaDetermined(a, b);
    }
    if EncodeMeta(a) == EncodeMeta(b) {
      DecodeMetaInverts(a);
      DecodeMetaInverts(b);
      assert a.(phase := "", conditions := []) == b.(phase := "", conditions := []);
      assert a.name == a.(phase := "", conditions := []).name;
    }
  }

  /** The comparison the client makes to decide on a main patch sees every field outside the status. */
  lemma MainDiffersMeans(a: Tenant, b: Tenant)
    ensures MainDiffers(a, b) <==> !SameMain(a, b)
  {
    EncodeMetaOnlyMeta(a, b);
    assert Field(Main(Encode(a)), "metadata") == Some(EncodeMeta(a));
    assert Field(Main(Encode(b)), "metadata") == Some(EncodeMeta(b));
    if EncodeMeta(a) == EncodeMeta(b) {
      SameFields(Main(Encode(a)), Main(Encode(b)));
    }
  }

  /** The comparison the client makes to decide on a status patch sees the phase and the conditions. */
  lemma StatusDiffersMeans(a: Tenant, b: Tenant)
    ensures StatusDiffers(a, b) <==> !SameStatus(a, b)
  {
    EncodeStatusOnlyStatus(a, b);
  }

  /** The result of a main patch: finalizers and owners by field, all else as stored. */
  function MergedMain(cur: Tenant, base: Tenant, goal: Tenant): Tenant {
    cur.(finalizers := Pick(base.finalizers, goal.finalizers, cur.finalizers),
         owners := Pick(base.owners, goal.owners, cur.owners))
  }

  /** The result of a status patch: phase and conditions by field, all else as stored. */
  function MergedStatus(cur: Tenant, base: Tenant, goal: Tenant): Tenant {
    cur.(phase := Pick(base.phase, goal.phase, cur.phase),
         conditions := Pick(base.conditions, goal.conditions, cur.conditions))
  }

  lemma MetaMergeField(cur: Tenant, base: Tenant, goal: Tenant, k: string)
    requires SameUserPart(base, goal)
    ensures Field(Apply(EncodeMeta(cur), Diff(EncodeMeta(base), EncodeMeta(goal))), k)
         == MetaValue(MergedMain(cur, base, goal), k)
  {
    hide EncodeMap, Diff;
    ApplyDiffField(EncodeMeta(cur), EncodeMeta(base), EncodeMeta(goal), k);
    MetaFields(cur, k);
    MetaFields(base, k);
    MetaFields(goal, k);
    if k == "finalizers" {
      DecodeStringsInverts(base.finalizers);
      DecodeStringsInverts(goal.finalizers);
    } else if k == "ownerReferences" {
      DecodeOwnersInverts(base.owners);
      DecodeOwnersInverts(goal.owners);
    } else {
      assert MetaValue(base, k) == MetaValue(goal, k);
    }
  }

  lemma MetaMerge(cur: Tenant, base: Tenant, goal: Tenant)
    requires SameUserPart(base, goal)
    ensures Apply(EncodeMeta(cur), Diff(EncodeMeta(base), EncodeMeta(goal))) == EncodeMeta(MergedMain(cur, base, goal))
  {
    var r := Apply(EncodeMeta(cur), Diff(EncodeMeta(base), EncodeMeta(goal)));
    var m := EncodeMeta(MergedMain(cur, base, goal));
    forall k ensures Field(r, k) == Field(m, k) {
      MetaMergeField(cur, base, goal, k);
      MetaFields(MergedMain(cur, base, goal), k);
    }
    SameFields(r, m);
  }

  lemma StatusMerge(cur: Tenant, base: Tenant, goal: Tenant)
    ensures Apply(EncodeStatus(cur), Diff(EncodeStatus(base), EncodeStatus(goal))) ==
            EncodeStatus(MergedStatus(cur, base, goal))
  {
    var merged := MergedStatus(cur, base, goal);
    var r, m := Apply(EncodeStatus(cur), Diff(EncodeStatus(base), EncodeStatus(goal))), EncodeStatus(merged);
    DecodeConditionsInverts(base.conditions);
    DecodeConditionsInverts(goal.conditions);
    forall k ensures Field(r, k) == Field(m, k) {
      ApplyDiffField(EncodeStatus(cur), EncodeStatus(base), EncodeStatus(goal), k);
      StatusFields(cur, k);
      StatusFields(base, k);
      StatusFields(goal, k);
      StatusFields(merged, k);
    }
    SameFields(r, m);
  }

  lemma TopFields(a: Tenant, b: Tenant, k: string)
    ensures Field(Encode(a), "metadata") == Some(EncodeMeta(a)) && Field(Encode(a), "status") == Some(EncodeStatus(a))
    ensures k != "metadata" && k != "status" ==> Field(Encode(a), k) == Field(Encode(b), k)
  {
  }

  /** The main endpoint takes over the fields the writer changed and keeps all others as stored, the status included. */
  lemma MainPatchByField(cur: Tenant, base: Tenant, goal: Tenant)
    requires SameUserPart(base, goal)
    ensures Decode(PatchMain(Encode(cur), PatchBetween(base, goal))) == Some(MergedMain(cur, base, goal))
  {
    var merged := MergedMain(cur, base, goal);
    var c, b, g := Encode(cur), Encode(base), Encode(goal);
    var r := PatchMain(c, Diff(b, g));
    forall k ensures Field(r, k) == Field(Encode(merged), k) {
      TopFields(cur, merged, k);
      TopFields(base, goal, k);
      TopFields(goal, base, k);
      TopFields(merged, cur, k);
      if k == "status" {
        EncodeStatusOnlyStatus(cur, merged);
      } else {
        ApplyDiffField(c, b, g, k);
        if k == "metadata" {
          MetaMerge(cur, base, goal);
          EncodeMetaOnlyMeta(base, goal);
        }
      }
    }
    SameFields(r, Encode(merged));
    DecodeInverts(merged);
  }

  /** The status endpoint takes over the phase and the conditions the writer changed, and nothing else. */
  lemma StatusPatchByField(cur: Tenant, base: Tenant, goal: Tenant)
    ensures Decode(PatchStatus(Encode(cur), PatchBetween(base, goal))) == Some(MergedStatus(cur, base, goal))
  {
    var merged := MergedStatus(cur, base, goal);
    var c, b, g := Encode(cur), Encode(base), Encode(goal);
    var r := PatchStatus(c, Diff(b, g));
    forall k ensures Field(r, k) == Field(Encode(merged), k) {
      TopFields(cur, merged, k);
      TopFields(base, goal, k);
      TopFields(goal, base, k);
      TopFields(merged, cur, k);
      if k == "status" {
        ApplyDiffField(c, b, g, k);
        StatusMerge(cur, base, goal);
        EncodeStatusOnlyStatus(base, goal);
      } else if k == "metadata" {
        EncodeMetaDetermined(cur, merged);
      }
    }
    SameFields(r, Encode(merged));
    DecodeInverts(merged);
  }
}
