/** Setting, marking and deleting the conditions of a Tenant object in place. */
module ConditionSetter {
  import opened Wrappers
  import opened TenantObjects
  import C = Conditions

  /** Sorts in place by the order of condition types. Nothing is promised about equal types. */
  method SortConditions(a: array<C.Condition>)
    modifies a
    ensures C.Ordered(a[..]) && multiset(a[..]) == multiset(old(a[..]))
  {
    var i := 0;
    while i < a.Length
      invariant 0 <= i <= a.Length
      invariant C.Ordered(a[..i]) && multiset(a[..]) == multiset(old(a[..]))
    {
      var j := i;
      while j > 0 && C.Less(a[j].kind, a[j - 1].kind)
        invariant 0 <= j <= i
        invariant OrderedBut(a[..i + 1], j)
        invariant multiset(a[..]) == multiset(old(a[..]))
      {
        ghost var before := a[..i + 1];
        a[j - 1], a[j] := a[j], a[j - 1];
        assert a[..i + 1] == before[j - 1 := before[j]][j := before[j - 1]];
        SinkOne(before, j);
        j := j - 1;
      }
      InsertedIsOrdered(a[..i + 1], j);
      i := i + 1;
    }
    assert a[..i] == a[..];
  }

  /** Ordered, were it not for the j-th condition, which may still have to sink. */
  ghost predicate OrderedBut(cs: C.Conditions, j: int) {
    && (forall x, y | 0 <= x < y < |cs| && x != j && y != j :: !C.Less(cs[y].kind, cs[x].kind))
    && (forall y | 0 <= j < y < |cs| :: !C.Less(cs[y].kind, cs[j].kind))
  }

  lemma SinkOne(cs: C.Conditions, j: int)
    requires 0 < j < |cs| && OrderedBut(cs, j) && C.Less(cs[j].kind, cs[j - 1].kind)
    ensures OrderedBut(cs[j - 1 := cs[j]][j := cs[j - 1]], j - 1)
  {
    C.LessIsStrictTotalOrder(cs[j].kind, cs[j - 1].kind, cs[j].kind);
  }

  lemma InsertedIsOrdered(cs: C.Conditions, j: int)
    requires 0 <= j < |cs| && OrderedBut(cs, j) && (j > 0 ==> !C.Less(cs[j].kind, cs[j - 1].kind))
    ensures C.Ordered(cs)
  {
    forall x | 0 <= x < j ensures !C.Less(cs[j].kind, cs[x].kind) {
      var p, q, r := cs[x].kind, cs[j - 1].kind, cs[j].kind;
      assert x < j - 1 ==> !C.Less(q, p);
      C.LessIsStrictTotalOrder(p, q, r);
      C.LessIsStrictTotalOrder(q, r, p);
      C.LessIsStrictTotalOrder(r, p, q);
    }
  }

  /** Sets a condition on the object, whatever list it has, and changes nothing else about it. */
  method Set(to: TenantObject?, condition: Option<C.Condition>, now: int)
    modifies to
    ensures to != null && condition.Some? ==>
              C.SetResult(old(to.conditions), condition.value, now, to.conditions) &&
              to.View() == old(to.View()).(conditions := to.conditions)
    ensures to != null && condition.None? ==> to.View() == old(to.View())
  {
    if to == null || condition.None? { return; }
    var cs, c := to.GetConditions(), condition.value;
    ghost var was := cs;
    var found := false;
    var i := 0;
    while i < |cs|
      invariant 0 <= i <= |cs| && cs == was && !found && c == condition.value
      invariant forall j | 0 <= j < i :: cs[j].kind != c.kind
    {
      var existing := cs[i];
      if existing.kind == c.kind {
        found := true;
        C.GetIsFirst(was, c.kind, i);
        C.ReplaceFirstAt(was, C.Merged(Some(existing), c, now), i);
        if !C.SameState(existing, c) {
          c := c.(since := C.Second(now));
          cs := cs[i := c];
          break;
        }
        c := c.(since := existing.since);
        assert cs == cs[i := existing];
        break;
      }
      i := i + 1;
    }
    if !found {
      C.GetIsFirst(was, c.kind, |was|);
      if c.since.Zero? {
        c := c.(since := C.Second(now));
      }
      cs := cs + [c];
    }
    assert cs == C.Updated(was, condition.value, now);
    var a := new C.Condition[|cs|](i requires 0 <= i < |cs| => cs[i]);
    assert a[..] == cs;
    SortConditions(a);
    to.SetConditions(a[..]);
    if C.UniqueTypes(was) {
      C.UpdatedKeepsUnique(was, condition.value, now);
      C.SortIsUnique(cs, to.conditions);
    }
  }

  method MarkTrue(to: TenantObject?, kind: string, reason: string, message: string, now: int)
    modifies to
    ensures to != null ==>
              C.SetResult(old(to.conditions), C.Fresh(kind, C.True, reason, message), now, to.conditions) &&
              to.View() == old(to.View()).(conditions := to.conditions)
  {
    Set(to, Some(C.Fresh(kind, C.True, reason, message)), now);
  }

  method MarkFalse(to: TenantObject?, kind: string, reason: string, message: string, now: int)
    modifies to
    ensures to != null ==>
              C.SetResult(old(to.conditions), C.Fresh(kind, C.False, reason, message), now, to.conditions) &&
              to.View() == old(to.View()).(conditions := to.conditions)
  {
    Set(to, Some(C.Fresh(kind, C.False, reason, message)), now);
  }

  method MarkUnknown(to: TenantObject?, kind: string, reason: string, message: string, now: int)
    modifies to
    ensures to != null ==>
              C.SetResult(old(to.conditions), C.Fresh(kind, C.Unknown, reason, message), now, to.conditions) &&
              to.View() == old(to.View()).(conditions := to.conditions)
  {
    Set(to, Some(C.Fresh(kind, C.Unknown, reason, message)), now);
  }

  /** Deletes every condition of a type, on any list. */
  method Delete(to: TenantObject?, kind: string)
    modifies to
    ensures to != null ==> to.View() == old(to.View()).(conditions := C.Delete(old(to.conditions), kind))
  {
    if to == null { return; }
    var cs := to.GetConditions();
    var kept: C.Conditions := [];
    var i := 0;
    while i < |cs|
      invariant 0 <= i <= |cs| && kept + C.Delete(cs[i..], kind) == C.Delete(cs, kind)
    {
      assert cs[i..][1..] == cs[i + 1..];
      if cs[i].kind != kind {
        kept := kept + [cs[i]];
      }
      i := i + 1;
    }
    to.SetConditions(kept);
  }
}
