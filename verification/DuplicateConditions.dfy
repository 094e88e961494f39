/** When a list has several conditions of one type: which of them a reader sees after a call of Set. */
module DuplicateConditions {
  import opened Wrappers
  import opened Conditions

  /** Puts a condition before all others of its type. */
  function PutFirst(c: Condition, cs: Conditions): Conditions {
    if cs == [] || !Less(cs[0].kind, c.kind) then [c] + cs else [cs[0]] + PutFirst(c, cs[1..])
  }

  function SortFirst(cs: Conditions): Conditions {
    if cs == [] then [] else PutFirst(cs[0], SortFirst(cs[1..]))
  }

  lemma {:induction false} PutFirstPermutes(c: Condition, cs: Conditions)
    ensures multiset(PutFirst(c, cs)) == multiset(cs) + multiset{c}
  {
    if cs != [] {
      PutFirstPermutes(c, cs[1..]);
      assert cs == [cs[0]] + cs[1..];
    }
  }

  /** Not being less carries over. */
  lemma NotLessTransitive(a: string, b: string, c: string)
    requires !Less(b, a) && !Less(c, b)
    ensures !Less(c, a)
  {
    LessIsStrictTotalOrder(a, b, a);
    LessIsStrictTotalOrder(c, a, b);
  }

  lemma OrderedCons(c: Condition, cs: Conditions)
    requires Ordered(cs) && forall d | d in cs :: !Less(d.kind, c.kind)
    ensures Ordered([c] + cs)
  {
  }

  lemma {:induction false} PutFirstIsOrdered(c: Condition, cs: Conditions)
    requires Ordered(cs)
    ensures Ordered(PutFirst(c, cs))
  {
    if cs == [] {
    } else if Less(cs[0].kind, c.kind) {
      var r := PutFirst(c, cs[1..]);
      PutFirstIsOrdered(c, cs[1..]);
      PutFirstPermutes(c, cs[1..]);
      LessIsStrictTotalOrder(cs[0].kind, c.kind, cs[0].kind);
      forall d | d in r ensures !Less(d.kind, cs[0].kind) {
        assert d in multiset(r);
      }
      OrderedCons(cs[0], r);
    } else {
      forall j | 0 <= j < |cs| ensures !Less(cs[j].kind, c.kind) {
        LessIsStrictTotalOrder(cs[0].kind, cs[0].kind, cs[0].kind);
        NotLessTransitive(c.kind, cs[0].kind, cs[j].kind);
      }
      OrderedCons(c, cs);
    }
  }

  lemma {:induction false} SortFirstIsOrdered(cs: Conditions)
    ensures Ordered(SortFirst(cs)) && multiset(SortFirst(cs)) == multiset(cs)
  {
    if cs != [] {
      SortFirstIsOrdered(cs[1..]);
      PutFirstIsOrdered(cs[0], SortFirst(cs[1..]));
      PutFirstPermutes(cs[0], SortFirst(cs[1..]));
      assert cs == [cs[0]] + cs[1..];
    }
  }

  lemma {:induction false} PutFirstIsSeen(c: Condition, cs: Conditions)
    ensures Get(PutFirst(c, cs), c.kind) == Some(c)
  {
    if cs != [] && Less(cs[0].kind, c.kind) {
      PutFirstIsSeen(c, cs[1..]);
      LessIsStrictTotalOrder(c.kind, c.kind, c.kind);
    }
  }

  /** Any condition of the updated list may come to stand first among those of its type. */
  lemma AnyMayComeFirst(cs: Conditions, c: Condition, now: int, d: Condition) returns (r: Conditions)
    requires d in Updated(cs, c, now) && d.kind == c.kind && d != Merged(Get(cs, c.kind), c, now)
    ensures SetResult(cs, c, now, r) && Get(r, c.kind) == Some(d)
  {
    var list, merged := Updated(cs, c, now), Merged(Get(cs, c.kind), c, now);
    var i :| 0 <= i < |list| && list[i] == d;
    var rest := list[..i] + list[i + 1..];
    assert list == list[..i] + [d] + list[i + 1..];
    r := PutFirst(d, SortFirst(rest));
    SortFirstIsOrdered(rest);
    PutFirstIsOrdered(d, SortFirst(rest));
    PutFirstPermutes(d, SortFirst(rest));
    PutFirstIsSeen(d, SortFirst(rest));
    if UniqueTypes(cs) {
      UpdatedKeepsUnique(cs, c, now);
      UpdatedHolds(cs, c, now);
    }
  }

  lemma UpdatedHolds(cs: Conditions, c: Condition, now: int)
    ensures var merged := Merged(Get(cs, c.kind), c, now); merged in Updated(cs, c, now) && merged.kind == c.kind
  {
  }

  /** The place of the first condition of a type, or the length of the list. */
  function First(cs: Conditions, kind: string): (i: nat)
    ensures i <= |cs| && (forall j | 0 <= j < i :: cs[j].kind != kind) && (i < |cs| ==> cs[i].kind == kind)
  {
    if cs == [] || cs[0].kind == kind then 0 else 1 + First(cs[1..], kind)
  }

  /** What an update leaves of a type: the condition set, and those that came after the first. */
  lemma UpdatedOfType(cs: Conditions, c: Condition, now: int, d: Condition)
    requires d.kind == c.kind
    ensures d in Updated(cs, c, now) <==>
            d == Merged(Get(cs, c.kind), c, now) || exists k :: First(cs, c.kind) < k < |cs| && cs[k] == d
  {
    var merged, i := Merged(Get(cs, c.kind), c, now), First(cs, c.kind);
    GetIsFirst(cs, c.kind, i);
    if i < |cs| {
      ReplaceFirstAt(cs, merged, i);
      var list := cs[i := merged];
      assert list[i] == merged;
      if k :| i < k < |cs| && cs[k] == d { assert list[k] == d; }
    } else {
      assert (cs + [merged])[|cs|] == merged;
    }
  }

  /**
   Whatever order the sort gives to conditions of one type, a reader sees the one that was set
   exactly if every later condition of its type is what the first one becomes: Set updates only
   the first.
   */
  lemma SetIsSeenIffAlone(cs: Conditions, c: Condition, now: int)
    ensures (forall r | SetResult(cs, c, now, r) :: Get(r, c.kind) == Some(Merged(Get(cs, c.kind), c, now)))
       <==> (forall k | First(cs, c.kind) < k < |cs| && cs[k].kind == c.kind ::
               cs[k] == Merged(Get(cs, c.kind), c, now))
  {
    hide SetResult, Updated, Merged;
    var merged := Merged(Get(cs, c.kind), c, now);
    if k :| First(cs, c.kind) < k < |cs| && cs[k].kind == c.kind && cs[k] != merged {
      UpdatedOfType(cs, c, now, cs[k]);
      var r := AnyMayComeFirst(cs, c, now, cs[k]);
      assert SetResult(cs, c, now, r) && Get(r, c.kind) != Some(merged);
    } else {
      forall r | SetResult(cs, c, now, r) ensures Get(r, c.kind) == Some(merged) {
        SeenIsUpdated(cs, c, now, r);
        UpdatedOfType(cs, c, now, Get(r, c.kind).value);
      }
    }
  }

  lemma SeenIsUpdated(cs: Conditions, c: Condition, now: int, r: Conditions)
    requires SetResult(cs, c, now, r)
    ensures Get(r, c.kind).Some? && Get(r, c.kind).value in Updated(cs, c, now) && Get(r, c.kind).value.kind == c.kind
  {
    UpdatedHolds(cs, c, now);
    GetFinds(r, c.kind);
    assert forall d :: d in r <==> d in multiset(r);
    assert forall d :: d in Updated(cs, c, now) <==> d in multiset(Updated(cs, c, now));
  }
}
