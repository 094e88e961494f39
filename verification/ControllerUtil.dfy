/** The two helpers through which the controller writes: create if missing, and patch if present. */
module ControllerUtil {
  import opened Wrappers
  import opened MergePatch
  import opened Certificates
  import opened Tenants
  import opened TenantPatches
  import opened TenantObjects
  import opened HostObjects
  import opened ApiServers

  datatype OperationResult = Died | Error | Unchanged | Created | Updated | UpdatedStatus | UpdatedStatusOnly

  /** How a helper leaves the store and the object in memory, and what of the script it has not used. */
  datatype Done<O> = Done(store: Store, rest: seq<Turn>, result: OperationResult, obj: O)

  // ---------- CreateIfNotExists ----------

  datatype Keyed = Keyed(key: Key, content: HostObject)

  /** A host object in memory, which Get and the callback overwrite. */
  class LocalObject {
    var key: Key
    var content: HostObject

    constructor (key: Key, content: HostObject)
      ensures View() == Keyed(key, content)
    {
      this.key, this.content := key, content;
    }

    function View(): Keyed
      reads this
    {
      Keyed(key, content)
    }
  }

  /** A callback fills in key and content, perhaps after reading another object; one that fails has assigned nothing. */
  datatype Callback =
    | Fill(fill: (Entropy, Keyed) -> Result<Keyed>)
    | FillFrom(source: Key, fillFrom: (HostObject, Entropy, Keyed) -> Result<Keyed>)

  function CreateFilled(s: Store, script: seq<Turn>, rules: Rules, obj: Keyed, filled: Result<Keyed>): Done<Keyed> {
    match filled
    case Err => Done(s, script, Error, obj)
    case Ok(o) =>
      if o.key != obj.key then Done(s, script, Error, o)
      else if script == [] then Done(s, [], Died, o)
      else
        var (t, r) := CreateIn(rules.world(s, script[0]), script[0].call, o.key, o.content);
        Done(t, script[1..], if r.Found? then Created else Error, o)
  }

  function CreateIfNotExistsDone(s: Store, script: seq<Turn>, rules: Rules, obj: Keyed, f: Callback): Done<Keyed> {
    if script == [] then Done(s, [], Died, obj)
    else
      var t := rules.world(s, script[0]);
      match ObjectReply(t, script[0].call, obj.key)
      case Found(o) => Done(t, script[1..], Unchanged, obj.(content := o))
      case Missing =>
        (match f
         case Fill(fill) => CreateFilled(t, script[1..], rules, obj, fill(script[0].call.entropy, obj))
         case FillFrom(source, fillFrom) => CreateReading(t, script[1..], rules, obj, source, fillFrom))
      case _ => Done(t, script[1..], Error, obj)
  }

  function CreateReading(
      s: Store, script: seq<Turn>, rules: Rules, obj: Keyed, source: Key,
      fillFrom: (HostObject, Entropy, Keyed) -> Result<Keyed>): Done<Keyed>
  {
    if script == [] then Done(s, [], Died, obj)
    else
      var t := rules.world(s, script[0]);
      match ObjectReply(t, script[0].call, source)
      case Found(o) => CreateFilled(t, script[1..], rules, obj, fillFrom(o, script[0].call.entropy, obj))
      case _ => Done(t, script[1..], Error, obj)
  }

  /** Runs the callback's assignments on the object; one that changes the key is an error. */
  method Mutate(obj: LocalObject, filled: Result<Keyed>) returns (ok: bool)
    modifies obj
    ensures obj.View() == if filled.Ok? then filled.value else old(obj.View())
    ensures ok <==> filled.Ok? && filled.value.key == old(obj.key)
  {
    if filled.Err? {
      return false;
    }
    var key := obj.key;
    obj.key, obj.content := filled.value.key, filled.value.content;
    return obj.key == key;
  }

  /** The end of CreateIfNotExists: mutate, and create. */
  method CreateMutated(api: ApiServer, obj: LocalObject, filled: Result<Keyed>) returns (r: OperationResult)
    requires api.Valid()
    modifies api, obj
    ensures api.Valid() && api.history + api.script == old(api.history) + old(api.script)
    ensures Done(api.Contents(), api.script, r, obj.View()) ==
            CreateFilled(old(api.Contents()), old(api.script), api.rules, old(obj.View()), filled)
  {
    var ok := Mutate(obj, filled);
    if !ok {
      return Error;
    }
    var created := api.CreateObject(obj.key, obj.content);
    match created
    case Crashed => return Died;
    case Found(_) => return Created;
    case _ => return Error;
  }

  method CreateIfNotExists(api: ApiServer, obj: LocalObject, f: Callback) returns (r: OperationResult)
    requires api.Valid()
    modifies api, obj
    ensures api.Valid() && api.history + api.script == old(api.history) + old(api.script)
    ensures Done(api.Contents(), api.script, r, obj.View()) ==
            CreateIfNotExistsDone(old(api.Contents()), old(api.script), api.rules, old(obj.View()), f)
  {
    var found := api.GetObject(obj.key);
    match found
    case Crashed => return Died;
    case Failed => return Error;
    case Found(o) =>
      obj.content := o;
      return Unchanged;
    case Missing =>
      match f {
        case Fill(fill) =>
          r := CreateMutated(api, obj, fill(api.entropy, obj.View()));
        case FillFrom(source, fillFrom) =>
          var other := api.GetObject(source);
          match other {
            case Crashed => return Died;
            case Found(o) => r := CreateMutated(api, obj, fillFrom(o, api.entropy, obj.View()));
            case _ => return Error;
          }
      }
  }

  /** What the store would be if the calls had changed nothing and only the world had gone on. */
  function Drift(s: Store, calls: seq<Turn>, rules: Rules): Store
    decreases calls
  {
    if calls == [] then s else Drift(rules.world(s, calls[0]), calls[1..], rules)
  }

  /** The key is absent from the first state the helper meets. */
  predicate MissingAtFirst(s: Store, script: seq<Turn>, rules: Rules, key: Key) {
    script != [] && key !in rules.world(s, script[0]).objects
  }

  /** The last call put this object under a key that was free then; apart from that, only the world moved. */
  ghost predicate AddsThis(s: Store, used: seq<Turn>, rules: Rules, key: Key, o: HostObject, after: Store) {
    var drifted := Drift(s, used, rules);
    key !in drifted.objects && after == drifted.(objects := drifted.objects[key := o])
  }

  /**
   Whatever the callback does, an existing object is never touched: the helper changes the store
   only by adding one object under its own key, and only if it found that key free.
   */
  lemma CreatesOnlyWhatIsMissing(s: Store, script: seq<Turn>, rules: Rules, obj: Keyed, f: Callback)
    ensures var d := CreateIfNotExistsDone(s, script, rules, obj, f);
            && |d.rest| <= |script|
            && var used := script[..|script| - |d.rest|];
            && (d.store == Drift(s, used, rules) ||
                (MissingAtFirst(s, script, rules, obj.key) &&
                 AddsThis(s, used, rules, obj.key, d.obj.content, d.store)))
            && (d.result.Created? ==>
                  Has(d.store, obj.key, d.obj) && MissingAtFirst(s, script, rules, obj.key))
            && (d.result.Unchanged? ==> Has(d.store, obj.key, d.obj) && d.store == Drift(s, used, rules))
  {
    hide CreateFilled, AddsThis;
    if script != [] {
      var t := rules.world(s, script[0]);
      assert script[..1] == [script[0]] && Drift(s, script[..1], rules) == t;
      if ObjectReply(t, script[0].call, obj.key).Missing? {
        if |script| > 1 { assert script[1..][0] == script[1] && script[1..][1..] == script[2..]; }
        if |script| > 2 { assert script[2..][0] == script[2] && script[2..][1..] == script[3..]; }
        DriftStep(s, script, rules, 2);
        DriftStep(s, script, rules, 3);
        match f
        case Fill(fill) =>
          AddedAfter(s, script, 1, rules, obj, fill(script[0].call.entropy, obj));
        case FillFrom(source, fillFrom) =>
          if |script| > 1 {
            var u := rules.world(t, script[1]);
            if ObjectReply(u, script[1].call, source).Found? {
              var o := ObjectReply(u, script[1].call, source).value;
              AddedAfter(s, script, 2, rules, obj, fillFrom(o, script[1].call.entropy, obj));
            }
          }
      }
    }
  }

  /** The store holds, under the key, what is in memory. */
  predicate Has(s: Store, key: Key, obj: Keyed) { key in s.objects && obj == Keyed(key, s.objects[key]) }

  /** The end of the helper, seen from its start n calls earlier. */
  lemma AddedAfter(s: Store, script: seq<Turn>, n: nat, rules: Rules, obj: Keyed, filled: Result<Keyed>)
    requires 0 < n <= 2 && n <= |script|
    ensures var d := CreateFilled(Drift(s, script[..n], rules), script[n..], rules, obj, filled);
            && |d.rest| <= |script|
            && var used := script[..|script| - |d.rest|];
            && (d.store == Drift(s, used, rules) || AddsThis(s, used, rules, obj.key, d.obj.content, d.store))
            && (d.result.Created? ==> Has(d.store, obj.key, d.obj))
            && !d.result.Unchanged?
  {
    var met := Drift(s, script[..n], rules);
    var d := CreateFilled(met, script[n..], rules, obj, filled);
    DriftStep(s, script, rules, n + 1);
    if d.rest != script[n..] {
      assert script[n..][1..] == script[n + 1..];
    }
  }

  lemma DriftStep(s: Store, script: seq<Turn>, rules: Rules, n: nat)
    requires 0 < n <= 3
    ensures n <= |script| ==>
              Drift(s, script[..n], rules) == rules.world(Drift(s, script[..n - 1], rules), script[n - 1])
  {
    if n <= |script| {
      DriftConcat(s, script[..n - 1], [script[n - 1]], rules);
      assert script[..n] == script[..n - 1] + [script[n - 1]];
    }
  }

  lemma {:induction false} DriftConcat(s: Store, a: seq<Turn>, b: seq<Turn>, rules: Rules)
    ensures Drift(s, a + b, rules) == Drift(Drift(s, a, rules), b, rules)
    decreases a
  {
    if a == [] {
      assert [] + b == b;
    } else {
      assert (a + b)[1..] == a[1..] + b;
      DriftConcat(rules.world(s, a[0]), a[1..], b, rules);
    }
  }

  /** Whatever it is given, the callback fails or leaves the object under another key. */
  ghost predicate Renames(obj: Keyed, f: Callback) {
    match f
    case Fill(fill) => forall e :: fill(e, obj).Err? || fill(e, obj).value.key != obj.key
    case FillFrom(_, fillFrom) => forall o, e :: fillFrom(o, e, obj).Err? || fillFrom(o, e, obj).value.key != obj.key
  }

  /** A callback that changes the key never reaches Create: the helper makes no call but its reads. */
  lemma RenamingNeverCreates(s: Store, script: seq<Turn>, rules: Rules, obj: Keyed, f: Callback)
    requires Renames(obj, f)
    ensures var d := CreateIfNotExistsDone(s, script, rules, obj, f);
            && |d.rest| <= |script| && |script| - |d.rest| <= (if f.Fill? then 1 else 2)
            && d.store == Drift(s, script[..|script| - |d.rest|], rules) && !d.result.Created?
  {
    if script != [] {
      var t := rules.world(s, script[0]);
      assert script[..1] == [script[0]] && Drift(s, script[..1], rules) == t;
      if |script| > 1 {
        assert script[1..][0] == script[1] && script[1..][1..] == script[2..];
        DriftStep(s, script, rules, 2);
      }
    }
  }

  // ---------- PatchIfExists ----------

  /** The object the status patch is computed from, cur being the one in memory after the first half. */
  function Restored(goal: Tenant, cur: Tenant, updated: bool): Tenant {
    if updated then cur.(phase := goal.phase, conditions := goal.conditions) else cur
  }

  function StatusPart(
      s: Store, script: seq<Turn>, rules: Rules, n: string, base: Tenant, goal: Tenant, cur: Tenant, updated: bool)
    : Done<Tenant>
  {
    if !StatusDiffers(base, goal) then Done(s, script, if updated then Updated else Unchanged, cur)
    else if script == [] then Done(s, [], Died, Restored(goal, cur, updated))
    else
      var patch := PatchBetween(base, Restored(goal, cur, updated));
      var (t, r) := rules.patchStatus(rules.world(s, script[0]), script[0].call, n, patch);
      match r
      case None => Done(t, script[1..], Error, Restored(goal, cur, updated))
      case Some(response) => Done(t, script[1..], if updated then UpdatedStatus else UpdatedStatusOnly, response)
  }

  function PatchParts(s: Store, script: seq<Turn>, rules: Rules, n: string, base: Tenant, goal: Tenant): Done<Tenant> {
    if !MainDiffers(base, goal) then StatusPart(s, script, rules, n, base, goal, goal, false)
    else if script == [] then Done(s, [], Died, goal)
    else
      var (t, r) := rules.patchMain(rules.world(s, script[0]), script[0].call, n, PatchBetween(base, goal));
      match r
      case Some(response) => StatusPart(t, script[1..], rules, n, base, goal, response, true)
      case None => Done(t, script[1..], Error, goal)
  }

  /** What the callback, if there is one, makes of the Tenant; one that fails has assigned nothing. */
  function Mutation(f: Option<Tenant -> Result<Tenant>>, base: Tenant): Result<Tenant> {
    match f case None => Ok(base) case Some(g) => g(base)
  }

  function PatchIfExistsDone(
      s: Store, script: seq<Turn>, rules: Rules, obj: Tenant, f: Option<Tenant -> Result<Tenant>>): Done<Tenant>
  {
    if script == [] then Done(s, [], Died, obj)
    else
      var t := rules.world(s, script[0]);
      match TenantReply(t, script[0].call, obj.name)
      case Missing => Done(t, script[1..], Unchanged, obj)
      case Found(base) =>
        (match Mutation(f, base)
         case Err => Done(t, script[1..], Error, base)
         case Ok(goal) =>
           if f.Some? && goal.name != obj.name then Done(t, script[1..], Error, goal)
           else PatchParts(t, script[1..], rules, obj.name, base, goal))
      case _ => Done(t, script[1..], Error, obj)
  }

  /** Putting the status to be stored back into the object that the response to the main patch overwrote. */
  lemma RestoreStatus(response: Tenant, goal: Tenant)
    ensures Decode(WithStatus(Encode(response), Status(Encode(goal)))) ==
            Some(response.(phase := goal.phase, conditions := goal.conditions))
  {
    var restored := response.(phase := goal.phase, conditions := goal.conditions);
    EncodeStatusOnlyStatus(goal, restored);
    EncodeMetaDetermined(response, restored);
    forall k ensures Field(WithStatus(Encode(response), Status(Encode(goal))), k) == Field(Encode(restored), k) {
      TopFields(response, restored, k);
      TopFields(restored, response, k);
      TopFields(goal, response, k);
    }
    SameFields(WithStatus(Encode(response), Status(Encode(goal))), Encode(restored));
    DecodeInverts(restored);
  }

  /** Puts a status back into the object that the response to the main patch overwrote. */
  method RestoreInto(obj: TenantObject, ghost goal: Tenant, afterStatus: Option<Json>)
    requires afterStatus == Status(Encode(goal))
    modifies obj
    ensures obj.View() == old(obj.View()).(phase := goal.phase, conditions := goal.conditions)
  {
    RestoreStatus(obj.View(), goal);
    var objectAfterPatch := WithStatus(Encode(obj.View()), afterStatus);
    obj.Assign(Decode(objectAfterPatch).value);
  }

  /** A version of the object as JSON, the status apart from the rest. */
  method Unstructured(t: Tenant) returns (rest: Json, status: Option<Json>)
    ensures rest == Main(Encode(t)) && status == Status(Encode(t)) && status.Some?
  {
    rest := Encode(t);
    status := Status(rest);
    rest := Main(rest);
  }

  /** The second half of PatchIfExists: the status patch, if the two versions of the status differ. */
  method PatchStatusPart(
      api: ApiServer, key: string, obj: TenantObject, original: Tenant, ghost goal: Tenant,
      beforeStatus: Option<Json>, afterStatus: Option<Json>, soFar: OperationResult) returns (r: OperationResult)
    requires api.Valid()
    requires beforeStatus == Status(Encode(original)) && afterStatus == Status(Encode(goal))
    requires soFar.Updated? || (soFar.Unchanged? && obj.View() == goal)
    modifies api, obj
    ensures api.Valid() && api.history + api.script == old(api.history) + old(api.script)
    ensures Done(api.Contents(), api.script, r, obj.View()) ==
            StatusPart(old(api.Contents()), old(api.script), api.rules, key, original, goal, old(obj.View()),
                       soFar.Updated?)
  {
    var hasBeforeStatus, hasAfterStatus := beforeStatus.Some?, afterStatus.Some?;
    r := soFar;
    if (hasBeforeStatus || hasAfterStatus) && beforeStatus != afterStatus {
      if r.Updated? {
        RestoreInto(obj, goal, afterStatus);
      }
      var patched := api.PatchTenantStatus(key, PatchBetween(original, obj.View()));
      match patched {
        case Crashed => return Died;
        case Found(response) => obj.Assign(response);
        case _ => return Error;
      }
      r := if r.Updated? then UpdatedStatus else UpdatedStatusOnly;
    }
  }

  /** The first half: the main patch, if the two versions differ outside the status. */
  method PatchBothParts(api: ApiServer, key: string, obj: TenantObject, original: Tenant) returns (r: OperationResult)
    requires api.Valid()
    modifies api, obj
    ensures api.Valid() && api.history + api.script == old(api.history) + old(api.script)
    ensures Done(api.Contents(), api.script, r, obj.View()) ==
            PatchParts(old(api.Contents()), old(api.script), api.rules, key, original, old(obj.View()))
  {
    ghost var goal := obj.View();
    var before, beforeStatus := Unstructured(original);
    var after, afterStatus := Unstructured(obj.View());
    r := Unchanged;
    if before != after {
      var patched := api.PatchTenant(key, PatchBetween(original, obj.View()));
      match patched {
        case Crashed => return Died;
        case Found(response) => obj.Assign(response);
        case _ => return Error;
      }
      r := Updated;
    }
    r := PatchStatusPart(api, key, obj, original, goal, beforeStatus, afterStatus, r);
  }

  /** Reads the object again, lets the callback change it, and stores the difference. */
  method PatchIfExists(api: ApiServer, obj: TenantObject, f: Option<Tenant -> Result<Tenant>>)
    returns (r: OperationResult)
    requires api.Valid()
    modifies api, obj
    ensures api.Valid() && api.history + api.script == old(api.history) + old(api.script)
    ensures Done(api.Contents(), api.script, r, obj.View()) ==
            PatchIfExistsDone(old(api.Contents()), old(api.script), api.rules, old(obj.View()), f)
  {
    var key := obj.name;
    var found := api.GetTenant(key);
    match found {
      case Crashed => return Died;
      case Failed => return Error;
      case Missing => return Unchanged;
      case Found(t) => obj.Assign(t);
    }
    // Both patches are taken from the object as it is now.
    var original := obj.View();
    if f.Some? {
      var mutated := f.value(obj.View());
      if mutated.Err? {
        return Error;
      }
      obj.Assign(mutated.value);
      if obj.name != key {
        return Error;
      }
    }
    r := PatchBothParts(api, key, obj, original);
  }
}
