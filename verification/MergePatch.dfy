/**
 JSON documents, the merge patches the client computes between two of them, and the way the
 API server applies such a patch (sections 1 and 2 of RFC 7396).
 */
module MergePatch {
  import opened Wrappers

  datatype Json =
    | Null
    | Bool(b: bool)
    | Num(n: int)
    | Str(s: string)
    | Arr(items: seq<Json>)
    | Obj(fields: map<string, Json>)

  function Field(j: Json, k: string): Option<Json> {
    if j.Obj? && k in j.fields then Some(j.fields[k]) else None
  }

  /** The value found by following member names from the root. */
  function At(j: Json, path: seq<string>): Option<Json> {
    if path == [] then Some(j)
    else if j.Obj? && path[0] in j.fields then At(j.fields[path[0]], path[1..])
    else None
  }

  /** Applies a merge patch: a null member removes, any other member is merged recursively. */
  function Apply(target: Json, patch: Json): Json
    decreases patch
  {
    if !patch.Obj? then patch
    else
      var base := if target.Obj? then target.fields else map[];
      Obj(map k | k in base.Keys + patch.fields.Keys && !(k in patch.fields && patch.fields[k].Null?) ::
            if k in patch.fields
            then Apply(if k in base then base[k] else Null, patch.fields[k])
            else base[k])
  }

  /** The merge patch from one document to another: changed members only, null for a removed one. */
  function Diff(before: Json, after: Json): (patch: Json)
    requires before.Obj? && after.Obj?
    ensures patch.Obj?
    decreases after
  {
    Obj(map k | k in before.fields.Keys + after.fields.Keys && Field(before, k) != Field(after, k) ::
          if k !in after.fields then Null
          else if k in before.fields && before.fields[k].Obj? && after.fields[k].Obj?
          then Diff(before.fields[k], after.fields[k])
          else after.fields[k])
  }

  /** No member, at any depth of nested objects, is null. A null inside an array is data. */
  ghost predicate NullFree(j: Json) {
    j.Obj? ==> forall k | k in j.fields :: !j.fields[k].Null? && NullFree(j.fields[k])
  }

  /** Whatever the change introduces is free of null members, the one thing a merge patch cannot say. */
  ghost predicate Expressible(before: Json, after: Json)
    requires before.Obj? && after.Obj?
    decreases after
  {
    forall k | k in after.fields && Field(before, k) != Field(after, k) ::
      if k in before.fields && before.fields[k].Obj? && after.fields[k].Obj?
      then Expressible(before.fields[k], after.fields[k])
      else !after.fields[k].Null? && NullFree(after.fields[k])
  }

  lemma {:induction false} ApplyToNonObject(target: Json, patch: Json)
    requires !target.Obj?
    ensures Apply(target, patch) == patch <==> NullFree(patch)
    decreases patch
  {
    if patch.Obj? {
      var r := Apply(target, patch);
      forall k | k in patch.fields
        ensures Field(r, k) == Some(patch.fields[k]) <==> !patch.fields[k].Null? && NullFree(patch.fields[k])
      {
        ApplyToNonObject(Null, patch.fields[k]);
      }
      if r == patch {
        forall k | k in patch.fields ensures !patch.fields[k].Null? && NullFree(patch.fields[k]) {
          assert Field(r, k) == Field(patch, k);
        }
      }
      if NullFree(patch) {
        assert r.fields == patch.fields;
      }
    }
  }

  /** One member of a merged document, in terms of that member in the three documents involved. */
  lemma ApplyDiffField(cur: Json, before: Json, after: Json, k: string)
    requires cur.Obj? && before.Obj? && after.Obj?
    ensures var r := Field(Apply(cur, Diff(before, after)), k);
            if Field(before, k) == Field(after, k) then r == Field(cur, k)
            else if k !in after.fields || (after.fields[k].Null?) then r == None
            else
              var was := if k in cur.fields then cur.fields[k] else Null;
              if k in before.fields && before.fields[k].Obj? && after.fields[k].Obj?
              then r == Some(Apply(was, Diff(before.fields[k], after.fields[k])))
              else r == Some(Apply(was, after.fields[k]))
  {
  }

  /** Exactly when a merge patch carries one document to the other. */
  lemma {:induction false} DiffRoundTrip(before: Json, after: Json)
    requires before.Obj? && after.Obj?
    ensures Apply(before, Diff(before, after)) == after <==> Expressible(before, after)
    decreases after
  {
    var r := Apply(before, Diff(before, after));
    forall k
      ensures Field(r, k) == Field(after, k) <==>
              (k in after.fields && Field(before, k) != Field(after, k) ==>
                 if k in before.fields && before.fields[k].Obj? && after.fields[k].Obj?
                 then Expressible(before.fields[k], after.fields[k])
                 else !after.fields[k].Null? && NullFree(after.fields[k]))
    {
      ApplyDiffField(before, before, after, k);
      if k in after.fields && Field(before, k) != Field(after, k) {
        if k in before.fields && before.fields[k].Obj? && after.fields[k].Obj? {
          DiffRoundTrip(before.fields[k], after.fields[k]);
        } else if k in before.fields && before.fields[k].Obj? {
        } else {
          ApplyToNonObject(if k in before.fields then before.fields[k] else Null, after.fields[k]);
        }
      }
    }
    if forall k :: Field(r, k) == Field(after, k) {
      assert forall k :: k in r.fields <==> Field(r, k).Some?;
      assert forall k :: k in after.fields <==> Field(after, k).Some?;
      assert forall k | k in r.fields :: Field(r, k) == Some(r.fields[k]);
      assert r.fields == after.fields;
    }
  }

  /** The change from before to after leaves the value at the path alone. */
  predicate Untouched(before: Json, after: Json, path: seq<string>) {
    before == after ||
    (path != [] && before.Obj? && after.Obj? &&
     (Field(before, path[0]) == Field(after, path[0]) ||
      (path[0] in before.fields && path[0] in after.fields &&
       Untouched(before.fields[path[0]], after.fields[path[0]], path[1..]))))
  }

  /** The change from before to after removes the value at the path, or puts a new scalar or array there. */
  predicate Assigned(before: Json, after: Json, path: seq<string>) {
    path != [] && before.Obj? && after.Obj? && Field(before, path[0]) != Field(after, path[0]) &&
    if path[0] in before.fields && path[0] in after.fields && before.fields[path[0]].Obj? && after.fields[path[0]].Obj?
    then Assigned(before.fields[path[0]], after.fields[path[0]], path[1..])
    else |path| == 1 && (path[0] !in after.fields || (!after.fields[path[0]].Obj? && !after.fields[path[0]].Null?))
  }

  /** Whatever a concurrent writer put at an untouched path survives the patch. */
  lemma {:induction false} UntouchedSurvives(cur: Json, before: Json, after: Json, path: seq<string>)
    requires cur.Obj? && before.Obj? && after.Obj? && Untouched(before, after, path)
    ensures At(Apply(cur, Diff(before, after)), path) == At(cur, path)
    decreases path
  {
    if before == after {
      assert Apply(cur, Diff(before, after)).fields == cur.fields;
    } else {
      var k := path[0];
      ApplyDiffField(cur, before, after, k);
      if Field(before, k) != Field(after, k) {
        var b, a := before.fields[k], after.fields[k];
        assert b.Obj? && a.Obj? && path[1..] != [];
        if k in cur.fields && cur.fields[k].Obj? {
          UntouchedSurvives(cur.fields[k], b, a, path[1..]);
        } else {
          UntouchedSurvives(Obj(map[]), b, a, path[1..]);
        }
      }
    }
  }

  /** The patch puts the new value at an assigned path, whatever a concurrent writer left there. */
  lemma {:induction false} AssignedIsWritten(cur: Json, before: Json, after: Json, path: seq<string>)
    requires cur.Obj? && before.Obj? && after.Obj? && Assigned(before, after, path)
    ensures At(Apply(cur, Diff(before, after)), path) == At(after, path)
    decreases path
  {
    var k := path[0];
    ApplyDiffField(cur, before, after, k);
    if k in before.fields && k in after.fields && before.fields[k].Obj? && after.fields[k].Obj? {
      if k in cur.fields && cur.fields[k].Obj? {
        AssignedIsWritten(cur.fields[k], before.fields[k], after.fields[k], path[1..]);
      } else {
        AssignedIsWritten(Obj(map[]), before.fields[k], after.fields[k], path[1..]);
      }
    }
  }

  // ---------- The two endpoints of an object with a status subresource ----------

  /** A document with its status replaced, or taken away. */
  function WithStatus(doc: Json, status: Option<Json>): (r: Json)
    requires doc.Obj?
    ensures r.Obj? && Field(r, "status") == status
    ensures forall k | k != "status" :: Field(r, k) == Field(doc, k)
  {
    if status.Some? then Obj(doc.fields["status" := status.value]) else Obj(doc.fields - {"status"})
  }

  function Status(doc: Json): Option<Json> { Field(doc, "status") }

  function Main(doc: Json): (r: Json)
    requires doc.Obj?
    ensures r.Obj?
  {
    WithStatus(doc, None)
  }

  /** The main endpoint ignores what a patch says about the status. */
  function PatchMain(stored: Json, patch: Json): (r: Json)
    requires stored.Obj? && patch.Obj?
    ensures r.Obj?
  {
    WithStatus(Apply(stored, patch), Status(stored))
  }

  /** The status endpoint ignores everything else. */
  function PatchStatus(stored: Json, patch: Json): (r: Json)
    requires stored.Obj? && patch.Obj?
    ensures r.Obj?
  {
    WithStatus(stored, Status(Apply(stored, patch)))
  }

  lemma SameFields(a: Json, b: Json)
    requires a.Obj? && b.Obj?
    requires forall k :: Field(a, k) == Field(b, k)
    ensures a == b
  {
    forall k ensures (k in a.fields <==> k in b.fields) && (k in a.fields ==> a.fields[k] == b.fields[k]) {
      assert Field(a, k) == Field(b, k);
    }
    assert a.fields == b.fields;
  }

  /** What the main endpoint stores for a change from before to after, sent only if the main parts differ. */
  function AfterMainPatch(stored: Json, before: Json, after: Json): (r: Json)
    requires stored.Obj? && before.Obj? && after.Obj?
    ensures r.Obj?
  {
    if Main(before) != Main(after) then PatchMain(stored, Diff(before, after)) else stored
  }

  /**
   The object the status patch is computed from: the mutated one or, when the main endpoint has
   answered with a response that overwrote it, that response with the mutated status put back.
   */
  function StatusGoal(response: Json, before: Json, after: Json): (r: Json)
    requires response.Obj? && before.Obj? && after.Obj?
    ensures r.Obj?
  {
    if Main(before) != Main(after) then WithStatus(response, Status(after)) else after
  }

  /** What the status endpoint stores, the patch being sent only if the two status parts differ. */
  function AfterStatusPatch(stored: Json, response: Json, before: Json, after: Json): (r: Json)
    requires stored.Obj? && response.Obj? && before.Obj? && after.Obj?
    ensures r.Obj?
  {
    if Status(before) != Status(after)
    then PatchStatus(stored, Diff(before, StatusGoal(response, before, after)))
    else stored
  }

  /**
   Undisturbed, the two patches do what one patch of the whole object would, although the response
   to the first one carries the old status. They store the mutated object exactly when the change
   can be said in a merge patch.
   */
  lemma TwoPatchesStoreTheMutation(before: Json, after: Json)
    requires before.Obj? && after.Obj?
    ensures var response := AfterMainPatch(before, before, after);
            var stored := AfterStatusPatch(response, response, before, after);
            stored == Apply(before, Diff(before, after)) && (stored == after <==> Expressible(before, after))
  {
    var response := AfterMainPatch(before, before, after);
    var stored := AfterStatusPatch(response, response, before, after);
    var goal := StatusGoal(response, before, after);
    var once := Apply(before, Diff(before, after));
    forall k ensures Field(stored, k) == Field(once, k) {
      ApplyDiffField(before, before, after, k);
      if k != "status" {
        if Main(before) == Main(after) {
          assert Field(Main(before), k) == Field(Main(after), k);
        }
      } else if Status(before) != Status(after) {
        ApplyDiffField(response, before, goal, "status");
        assert Status(goal) == Status(after) && Status(response) == Status(before);
      }
    }
    SameFields(stored, once);
    DiffRoundTrip(before, after);
  }

  /**
   Disturbed by other writers before each of the two patches, a value the mutation did not
   touch is, after each patch, the one those writers left. The status patch is computed against
   a response that may hold their changes to the main part, so it takes the status endpoint to
   keep them from being written back.
   */
  lemma TwoPatchesKeepOtherWrites(
      atMain: Json, atStatus: Json, response: Json, before: Json, after: Json, path: seq<string>)
    requires atMain.Obj? && atStatus.Obj? && response.Obj? && before.Obj? && after.Obj?
    requires path != [] && Untouched(before, after, path)
    ensures At(AfterMainPatch(atMain, before, after), path) == At(atMain, path)
    ensures At(AfterStatusPatch(atStatus, response, before, after), path) == At(atStatus, path)
  {
    var goal := StatusGoal(response, before, after);
    UntouchedSurvives(atMain, before, after, path);
    if path[0] == "status" {
      assert Field(before, "status") == Field(before, "status");
      assert Status(goal) == Status(after);
      assert Untouched(before, goal, path);
      UntouchedSurvives(atStatus, before, goal, path);
    }
  }

  /** A value the mutation assigned ends up stored, whatever other writers did to it in between. */
  lemma TwoPatchesWriteTheirOwn(
      atMain: Json, atStatus: Json, response: Json, before: Json, after: Json, path: seq<string>)
    requires atMain.Obj? && atStatus.Obj? && response.Obj? && before.Obj? && after.Obj?
    requires Assigned(before, after, path)
    ensures path[0] != "status" ==> At(AfterMainPatch(atMain, before, after), path) == At(after, path)
    ensures path[0] == "status" ==> At(AfterStatusPatch(atStatus, response, before, after), path) == At(after, path)
  {
    hide Diff, Apply, NullFree, Expressible;
    if path[0] == "status" {
      var goal := StatusGoal(response, before, after);
      assert Status(goal) == Status(after);
      assert Assigned(before, goal, path);
      AssignedIsWritten(atStatus, before, goal, path);
    } else {
      assert Field(Main(before), path[0]) != Field(Main(after), path[0]);
      AssignedIsWritten(atMain, before, after, path);
    }
  }
}
