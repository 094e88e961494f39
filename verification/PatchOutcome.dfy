/** What PatchIfExists leaves stored when nothing disturbs it, whatever the callback does to the Tenant. */
module PatchOutcome {
  import opened Wrappers
  import opened MergePatch
  import opened Tenants
  import opened TenantPatches
  import opened Protocol
  import opened HostObjects
  import opened ApiServers
  import opened ControllerUtil
  import W = Worlds

  lemma {:induction false} NullFreeIsExpressible(before: Json, after: Json)
    requires before.Obj? && after.Obj? && NullFree(after)
    ensures Expressible(before, after)
    decreases after
  {
    forall k | k in after.fields && k in before.fields && before.fields[k].Obj? && after.fields[k].Obj?
      ensures Expressible(before.fields[k], after.fields[k])
    {
      NullFreeIsExpressible(before.fields[k], after.fields[k]);
    }
  }

  /** Zero values are left out of a Tenant's document, so that it holds no null member. */
  lemma EncodeIsNullFree(t: Tenant)
    ensures NullFree(Encode(t))
  {
    MapIsNullFree(t.labels);
    MapIsNullFree(t.annotations);
    assert NullFree(EncodeMeta(t)) by {
      forall k | k in EncodeMeta(t).fields ensures !EncodeMeta(t).fields[k].Null? && NullFree(EncodeMeta(t).fields[k]) {
        MetaFields(t, k);
      }
    }
    assert NullFree(EncodeStatus(t));
    assert NullFree(Obj(map[]));
  }

  lemma MapIsNullFree(m: map<string, string>)
    ensures NullFree(EncodeMap(m))
  {
  }

  /** The main endpoint takes over all that the callback changed outside the status. */
  lemma MainPatchWhole(base: Tenant, goal: Tenant)
    ensures Decode(PatchMain(Encode(base), PatchBetween(base, goal))) ==
            Some(goal.(phase := base.phase, conditions := base.conditions))
  {
    EncodeIsNullFree(goal);
    NullFreeIsExpressible(Encode(base), Encode(goal));
    DiffRoundTrip(Encode(base), Encode(goal));
    RestoreStatus(goal, base);
  }

  lemma PutBack(s: Store, n: string)
    ensures Put(s, n, Here(s, n)) == s
  {
    var t := Put(s, n, Here(s, n));
    forall k ensures W.Lookup(t.objects, k) == W.Lookup(s.objects, k) {
      W.PutAt(s.objects, n, W.HostOf(s.objects, n), k);
    }
    W.SameMap(t.objects, s.objects);
    assert t.tenants == s.tenants;
  }

  /**
   The server takes the change as a whole: the fields only it may set are as they were, no new
   finalizer on a Tenant being deleted, and not its last one gone.
   */
  predicate Acceptable(base: Tenant, goal: Tenant) {
    && goal.name == base.name && goal.uid == base.uid && goal.deletionTimestamp == base.deletionTimestamp
    && (base.Deleting() ==> forall i | 0 <= i < |goal.finalizers| :: goal.finalizers[i] in base.finalizers)
    && (goal.Deleting() ==> goal.finalizers != [])
  }

  predicate Undisturbed(turn: Turn) { turn.others == [] && turn.call.before == [] && turn.call.outcome.Answered? }

  lemma MainPatchStored(s: Store, call: Call, n: string, base: Tenant, goal: Tenant)
    requires TenantAt(s, n) == Some(base) && call.outcome.Answered? && Acceptable(base, goal)
    ensures var t := goal.(phase := base.phase, conditions := base.conditions);
            PatchMainIn(s, call, n, PatchBetween(base, goal)) == (s.(tenants := s.tenants[n := t]), Some(t))
  {
    hide PatchBetween, Decode, PatchMain, Encode;
    MainPatchWhole(base, goal);
  }

  lemma StatusPatchStored(s: Store, call: Call, n: string, cur: Tenant, base: Tenant, goal: Tenant)
    requires TenantAt(s, n) == Some(cur) && call.outcome.Answered? && SameStatus(cur, base)
    ensures var t := cur.(phase := goal.phase, conditions := goal.conditions);
            PatchStatusIn(s, call, n, PatchBetween(base, goal)) == (s.(tenants := s.tenants[n := t]), Some(t))
  {
    hide PatchBetween, Decode, PatchStatus, Encode;
    StatusPatchByField(cur, base, goal);
  }

  lemma UndisturbedWorld(setup: Setup, s: Store, turn: Turn)
    requires Undisturbed(turn)
    ensures RulesFor(setup).world(s, turn) == s
  {
    hide Put, Here;
    assert Shared(setup, s, turn) == s;
    PutBack(s, setup.name);
  }

  lemma StatusPartStored(
      setup: Setup, s: Store, script: seq<Turn>, base: Tenant, goal: Tenant, cur: Tenant, updated: bool)
    requires script != [] && Undisturbed(script[0])
    requires var stored := TenantAt(s, setup.name);
             stored.Some? && SameStatus(stored.value, base) && SameMain(stored.value, goal)
    requires Restored(goal, cur, updated) == goal && (SameStatus(base, goal) ==> cur == goal)
    ensures StatusPart(s, script, RulesFor(setup), setup.name, base, goal, cur, updated) ==
            if SameStatus(base, goal) then Done(s, script, if updated then Updated else Unchanged, goal)
            else Done(s.(tenants := s.tenants[setup.name := goal]), script[1..],
                      if updated then UpdatedStatus else UpdatedStatusOnly, goal)
  {
    hide PatchBetween, StatusDiffers, PatchStatusIn, Settle, Restored;
    StatusDiffersMeans(base, goal);
    UndisturbedWorld(setup, s, script[0]);
    StatusPatchStored(s, script[0].call, setup.name, TenantAt(s, setup.name).value, base, goal);
  }

  /**
   Undisturbed, the helper leaves stored, and in memory, exactly what the callback made of the
   Tenant, finalizers, labels and status alike, with as many patches as there are halves that
   changed; and it says which.
   */
  lemma PatchStoresTheMutation(
      setup: Setup, s: Store, script: seq<Turn>, obj: Tenant, f: Option<Tenant -> Result<Tenant>>,
      base: Tenant, goal: Tenant)
    requires |script| >= 3 && forall i | 0 <= i < 3 :: Undisturbed(script[i])
    requires obj.name == base.name == setup.name && TenantAt(s, setup.name) == Some(base)
    requires Mutation(f, base) == Ok(goal) && Acceptable(base, goal)
    ensures PatchIfExistsDone(s, script, RulesFor(setup), obj, f) ==
            Done(s.(tenants := s.tenants[setup.name := goal]),
                 script[1 + (if SameMain(base, goal) then 0 else 1) + (if SameStatus(base, goal) then 0 else 1)..],
                 if SameMain(base, goal) then (if SameStatus(base, goal) then Unchanged else UpdatedStatusOnly)
                 else if SameStatus(base, goal) then Updated else UpdatedStatus,
                 goal)
  {
    hide PatchBetween, MainDiffers, StatusDiffers, PatchMainIn, PatchStatusIn, Settle, StatusPart;
    var n := setup.name;
    MainDiffersMeans(base, goal);
    UndisturbedWorld(setup, s, script[0]);
    var rest := script[1..];
    assert rest[0] == script[1] && rest[1..] == script[2..] && script[2..][0] == script[2] &&
           script[2..][1..] == script[3..];
    var whole := s.(tenants := s.tenants[n := goal]);
    if SameMain(base, goal) {
      StatusPartStored(setup, s, rest, base, goal, goal, false);
      if SameStatus(base, goal) {
        assert base == goal && whole == s;
      }
    } else {
      UndisturbedWorld(setup, s, script[1]);
      MainPatchStored(s, script[1].call, n, base, goal);
      var cur := goal.(phase := base.phase, conditions := base.conditions);
      var t := s.(tenants := s.tenants[n := cur]);
      StatusPartStored(setup, t, script[2..], base, goal, cur, true);
      assert t.tenants[n := goal] == s.tenants[n := goal];
    }
  }

  /** The callback succeeds and keeps the name. */
  predicate Mutates(f: Option<Tenant -> Result<Tenant>>, obj: Tenant, base: Tenant) {
    Mutation(f, base).Ok? && (f.Some? ==> Mutation(f, base).value.name == obj.name)
  }

  /**
   Disturbed or not, a result that is no error says which halves of the Tenant the callback changed;
   after an error the object in memory still has the status that was to be stored; and a callback
   that fails, or changes the name, is an error with nothing written.
   */
  lemma ResultTellsWhatChanged(
      s: Store, script: seq<Turn>, rules: Rules, obj: Tenant, f: Option<Tenant -> Result<Tenant>>, base: Tenant)
    requires script != [] && TenantReply(rules.world(s, script[0]), script[0].call, obj.name) == Found(base)
    ensures var d := PatchIfExistsDone(s, script, rules, obj, f);
            if !Mutates(f, obj, base)
            then d.result.Error? && d.store == rules.world(s, script[0]) && d.rest == script[1..]
            else
              var goal := Mutation(f, base).value;
              match d.result
              case Died => SameStatus(d.obj, goal) && d.rest == []
              case Error => SameStatus(d.obj, goal)
              case Unchanged => base == goal == d.obj
              case Updated => !SameMain(base, goal) && SameStatus(base, goal)
              case UpdatedStatus => !SameMain(base, goal) && !SameStatus(base, goal)
              case UpdatedStatusOnly => SameMain(base, goal) && !SameStatus(base, goal)
              case Created => false
  {
    hide PatchBetween, MainDiffers, StatusDiffers;
    if Mutates(f, obj, base) {
      MainDiffersMeans(base, Mutation(f, base).value);
      StatusDiffersMeans(base, Mutation(f, base).value);
    }
  }
}
