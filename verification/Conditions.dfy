/**
 Status conditions: how one is looked up, and what setting or deleting one does to the list.
 The methods in ConditionSetter change a Tenant object in place and are proved against the
 functions here.
 */
module Conditions {
  import opened Wrappers

  datatype Truth = True | False | Unknown

  /** A time read from the clock in whole seconds, or the zero time. */
  datatype Time = Zero | Second(s: int)

  datatype Condition = Condition(kind: string, status: Truth, reason: string, message: string, since: Time)

  type Conditions = seq<Condition>

  // ---------- Reading ----------

  function Get(cs: Conditions, kind: string): Option<Condition> {
    if cs == [] then None else if cs[0].kind == kind then Some(cs[0]) else Get(cs[1..], kind)
  }

  predicate Has(cs: Conditions, kind: string) { Get(cs, kind).Some? }

  predicate IsTrue(cs: Conditions, kind: string) {
    var c := Get(cs, kind);
    c.Some? && c.value.status.True?
  }

  predicate IsFalse(cs: Conditions, kind: string) {
    var c := Get(cs, kind);
    c.Some? && c.value.status.False?
  }

  /** A condition is found exactly when the list holds one of its type, and then it is the first of them. */
  lemma {:induction false} GetIsFirst(cs: Conditions, kind: string, i: nat)
    requires i <= |cs| && forall j | 0 <= j < i :: cs[j].kind != kind
    ensures i < |cs| && cs[i].kind == kind ==> Get(cs, kind) == Some(cs[i])
    ensures i == |cs| ==> Get(cs, kind) == None
  {
    if cs != [] && i > 0 {
      GetIsFirst(cs[1..], kind, i - 1);
    }
  }

  // ---------- The order of the list ----------

  /** Go's order on strings; Dafny's < on sequences means prefix. */
  predicate StringLess(a: string, b: string) {
    b != [] && (a == [] || a[0] < b[0] || (a[0] == b[0] && StringLess(a[1..], b[1..])))
  }

  /** The order of condition types: Ready first, the others by name. */
  predicate Less(a: string, b: string) {
    (a == "Ready" || StringLess(a, b)) && b != "Ready"
  }

  lemma {:induction false} StringLessTotal(a: string, b: string)
    ensures !(StringLess(a, b) && StringLess(b, a))
    ensures a == b || StringLess(a, b) || StringLess(b, a)
    ensures a == b ==> !StringLess(a, b)
  {
    if a != [] && b != [] && a[0] == b[0] {
      StringLessTotal(a[1..], b[1..]);
      assert a == [a[0]] + a[1..] && b == [b[0]] + b[1..];
    }
  }

  lemma {:induction false} StringLessTransitive(a: string, b: string, c: string)
    requires StringLess(a, b) && StringLess(b, c)
    ensures StringLess(a, c)
  {
    if a != [] && a[0] == b[0] == c[0] {
      StringLessTransitive(a[1..], b[1..], c[1..]);
    }
  }

  /** The order of condition types is a strict total order whose least element is Ready. */
  lemma LessIsStrictTotalOrder(a: string, b: string, c: string)
    ensures !Less(a, a)
    ensures Less(a, b) && Less(b, c) ==> Less(a, c)
    ensures a == b || Less(a, b) || Less(b, a)
    ensures !(Less(a, b) && Less(b, a))
    ensures a != "Ready" ==> Less("Ready", a)
  {
    StringLessTotal(a, b);
    StringLessTotal(a, a);
    if StringLess(a, b) && StringLess(b, c) {
      StringLessTransitive(a, b, c);
    }
  }

  ghost predicate UniqueTypes(cs: Conditions) {
    forall i, j | 0 <= i < j < |cs| :: cs[i].kind != cs[j].kind
  }

  /** What a sort by the order guarantees, on any list. */
  ghost predicate Ordered(cs: Conditions) {
    forall i, j | 0 <= i < j < |cs| :: !Less(cs[j].kind, cs[i].kind)
  }

  /** The form every list kept by Set has: strictly ordered, hence without duplicate types. */
  ghost predicate Canonical(cs: Conditions) {
    forall i, j | 0 <= i < j < |cs| :: Less(cs[i].kind, cs[j].kind)
  }

  lemma OrderedUniqueIsCanonical(cs: Conditions)
    ensures Canonical(cs) <==> Ordered(cs) && UniqueTypes(cs)
  {
    forall i, j | 0 <= i < j < |cs| {
      LessIsStrictTotalOrder(cs[i].kind, cs[j].kind, cs[i].kind);
    }
  }

  lemma {:induction false} GetIffMember(cs: Conditions, c: Condition)
    requires UniqueTypes(cs)
    ensures Get(cs, c.kind) == Some(c) <==> c in cs
  {
    if cs != [] {
      GetIffMember(cs[1..], c);
      if c in cs[1..] {
        assert cs[0].kind != c.kind;
      }
    }
  }

  lemma {:induction false} GetFinds(cs: Conditions, kind: string)
    ensures Get(cs, kind).Some? ==> Get(cs, kind).value in cs && Get(cs, kind).value.kind == kind
    ensures Get(cs, kind).None? <==> forall c | c in cs :: c.kind != kind
  {
    if cs != [] {
      GetFinds(cs[1..], kind);
      assert cs == [cs[0]] + cs[1..];
    }
  }

  /** A canonical list is determined by what Get sees. */
  lemma {:induction false} CanonicalExtensional(a: Conditions, b: Conditions)
    requires Canonical(a) && Canonical(b)
    requires forall kind :: Get(a, kind) == Get(b, kind)
    ensures a == b
  {
    if a == [] || b == [] {
      var x := if a != [] then a[0].kind else if b != [] then b[0].kind else "";
      assert Get(a, x) == Get(b, x);
    } else {
      var x, y := a[0].kind, b[0].kind;
      GetFinds(a, y);
      GetFinds(b, x);
      LessIsStrictTotalOrder(x, y, x);
      assert Get(a, x) == Get(b, x) && Get(a, y) == Get(b, y);
      assert x == y;
      forall kind ensures Get(a[1..], kind) == Get(b[1..], kind) {
        assert Get(a, kind) == Get(b, kind);
        if kind == x {
          GetFinds(a[1..], x);
          GetFinds(b[1..], x);
          LessIsStrictTotalOrder(x, x, x);
        }
      }
      CanonicalExtensional(a[1..], b[1..]);
      assert a == [a[0]] + a[1..] && b == [b[0]] + b[1..];
    }
  }

  // ---------- Sorting ----------

  function Insert(c: Condition, cs: Conditions): Conditions {
    if cs == [] || Less(c.kind, cs[0].kind) then [c] + cs else [cs[0]] + Insert(c, cs[1..])
  }

  function Sort(cs: Conditions): Conditions {
    if cs == [] then [] else Insert(cs[0], Sort(cs[1..]))
  }

  lemma {:induction false} InsertIsOrdered(c: Condition, cs: Conditions)
    requires Canonical(cs) && forall d | d in cs :: d.kind != c.kind
    ensures Canonical(Insert(c, cs))
    ensures multiset(Insert(c, cs)) == multiset(cs) + multiset{c}
  {
    if cs != [] {
      assert cs == [cs[0]] + cs[1..];
      LessIsStrictTotalOrder(c.kind, cs[0].kind, cs[0].kind);
      if Less(c.kind, cs[0].kind) {
        forall j | 0 <= j < |cs| ensures Less(c.kind, cs[j].kind) {
          LessIsStrictTotalOrder(c.kind, cs[0].kind, cs[j].kind);
        }
      } else {
        InsertIsOrdered(c, cs[1..]);
        var r := Insert(c, cs[1..]);
        forall j | 0 <= j < |r| ensures Less(cs[0].kind, r[j].kind) {
          assert r[j] in multiset(r);
          assert r[j] == c || r[j] in cs[1..];
        }
      }
    }
  }

  /** Sorting a list of distinct types permutes it into canonical form. */
  lemma {:induction false} SortIsOrdered(cs: Conditions)
    requires UniqueTypes(cs)
    ensures Canonical(Sort(cs)) && multiset(Sort(cs)) == multiset(cs)
  {
    if cs != [] {
      SortIsOrdered(cs[1..]);
      assert cs == [cs[0]] + cs[1..];
      forall d | d in Sort(cs[1..]) ensures d.kind != cs[0].kind {
        assert d in multiset(cs[1..]);
      }
      InsertIsOrdered(cs[0], Sort(cs[1..]));
    }
  }

  lemma PermutationKeepsGet(a: Conditions, b: Conditions, kind: string)
    requires UniqueTypes(a) && UniqueTypes(b) && multiset(a) == multiset(b)
    ensures Get(a, kind) == Get(b, kind)
  {
    forall c: Condition ensures c in a <==> c in b {
      assert c in a <==> c in multiset(a);
      assert c in b <==> c in multiset(b);
    }
    GetFinds(a, kind);
    GetFinds(b, kind);
    if Get(a, kind).Some? { GetIffMember(b, Get(a, kind).value); }
    if Get(b, kind).Some? { GetIffMember(a, Get(b, kind).value); }
  }

  /** Any sort, stable or not, gives the same result on distinct types. */
  lemma SortIsUnique(cs: Conditions, sorted: Conditions)
    requires UniqueTypes(cs) && Ordered(sorted) && multiset(sorted) == multiset(cs)
    ensures sorted == Sort(cs)
  {
    SortIsOrdered(cs);
    OrderedUniqueIsCanonical(Sort(cs));
    PermutationKeepsUnique(cs, sorted);
    OrderedUniqueIsCanonical(sorted);
    forall kind ensures Get(sorted, kind) == Get(Sort(cs), kind) {
      PermutationKeepsGet(sorted, Sort(cs), kind);
    }
    CanonicalExtensional(sorted, Sort(cs));
  }

  lemma PermutationKeepsUnique(a: Conditions, b: Conditions)
    requires UniqueTypes(a) && multiset(a) == multiset(b)
    ensures UniqueTypes(b)
  {
    forall i, j | 0 <= i < j < |b| ensures b[i].kind != b[j].kind {
      assert b[i] in multiset(b) && b[j] in multiset(b);
      Twice(b, i, j);
      UniqueMeansOnce(a, b[i]);
    }
  }

  lemma Twice(b: Conditions, i: nat, j: nat)
    requires i < j < |b|
    ensures b[i] == b[j] ==> multiset(b)[b[i]] >= 2
  {
    assert b == b[..j] + [b[j]] + b[j + 1..];
    assert b[i] in b[..j];
  }

  lemma {:induction false} UniqueMeansOnce(a: Conditions, c: Condition)
    requires UniqueTypes(a)
    ensures multiset(a)[c] <= 1
  {
    if a != [] {
      UniqueMeansOnce(a[1..], c);
      assert a == [a[0]] + a[1..];
      assert c == a[0] ==> c !in a[1..];
    }
  }

  // ---------- Setting and deleting ----------

  predicate SameState(a: Condition, b: Condition) {
    a.kind == b.kind && a.status == b.status && a.reason == b.reason && a.message == b.message
  }

  /** What becomes of the one condition being set, given the one the list already holds. */
  function Merged(was: Option<Condition>, c: Condition, now: int): Condition {
    match was
    case None => if c.since.Zero? then c.(since := Second(now)) else c
    case Some(o) => if SameState(o, c) then o else c.(since := Second(now))
  }

  function ReplaceFirst(cs: Conditions, c: Condition): Conditions {
    if cs == [] then [] else if cs[0].kind == c.kind then [c] + cs[1..] else [cs[0]] + ReplaceFirst(cs[1..], c)
  }

  /** The list before it is sorted: the first condition of the type replaced, or a new one appended. */
  function Updated(cs: Conditions, c: Condition, now: int): Conditions {
    var merged := Merged(Get(cs, c.kind), c, now);
    if Has(cs, c.kind) then ReplaceFirst(cs, merged) else cs + [merged]
  }

  function Set(cs: Conditions, c: Condition, now: int): Conditions { Sort(Updated(cs, c, now)) }

  function Delete(cs: Conditions, kind: string): Conditions {
    if cs == [] then []
    else if cs[0].kind != kind then [cs[0]] + Delete(cs[1..], kind)
    else Delete(cs[1..], kind)
  }

  /**
   What setting a condition may leave: the updated list, sorted. Distinct types fix the result;
   the order of duplicates is left to the sort.
   */
  ghost predicate SetResult(was: Conditions, c: Condition, now: int, result: Conditions) {
    && Ordered(result) && multiset(result) == multiset(Updated(was, c, now))
    && (UniqueTypes(was) ==> result == Set(was, c, now))
  }

  lemma {:induction false} ReplaceFirstGet(cs: Conditions, c: Condition, kind: string)
    requires Has(cs, c.kind)
    ensures Get(ReplaceFirst(cs, c), kind) == if kind == c.kind then Some(c) else Get(cs, kind)
    ensures |ReplaceFirst(cs, c)| == |cs|
    ensures forall i | 0 <= i < |cs| :: ReplaceFirst(cs, c)[i].kind == cs[i].kind
  {
    if cs[0].kind != c.kind {
      ReplaceFirstGet(cs[1..], c, kind);
    }
  }

  lemma {:induction false} ReplaceFirstAt(cs: Conditions, c: Condition, i: nat)
    requires i < |cs| && cs[i].kind == c.kind && forall j | 0 <= j < i :: cs[j].kind != c.kind
    ensures ReplaceFirst(cs, c) == cs[i := c]
  {
    if i > 0 {
      ReplaceFirstAt(cs[1..], c, i - 1);
      assert cs[i := c] == [cs[0]] + cs[1..][i - 1 := c];
    }
  }

  lemma UpdatedKeepsUnique(cs: Conditions, c: Condition, now: int)
    requires UniqueTypes(cs)
    ensures UniqueTypes(Updated(cs, c, now))
  {
    var merged := Merged(Get(cs, c.kind), c, now);
    GetFinds(cs, c.kind);
    if Has(cs, c.kind) { ReplaceFirstGet(cs, merged, c.kind); }
  }

  lemma {:induction false} AppendGet(cs: Conditions, c: Condition, kind: string)
    ensures Get(cs + [c], kind) == if Has(cs, kind) then Get(cs, kind) else if c.kind == kind then Some(c) else None
  {
    if cs != [] {
      AppendGet(cs[1..], c, kind);
      assert (cs + [c])[1..] == cs[1..] + [c];
    }
  }

  /** Set keeps types distinct, leaves the list canonical, and is a map update as Get sees it. */
  lemma SetRefinesMapUpdate(cs: Conditions, c: Condition, now: int)
    requires UniqueTypes(cs)
    ensures Canonical(Set(cs, c, now)) && UniqueTypes(Set(cs, c, now))
    ensures forall kind :: Get(Set(cs, c, now), kind) ==
                           if kind == c.kind then Some(Merged(Get(cs, c.kind), c, now)) else Get(cs, kind)
  {
    var merged := Merged(Get(cs, c.kind), c, now);
    GetFinds(cs, c.kind);
    assert merged.kind == c.kind;
    var list := Updated(cs, c, now);
    UpdatedKeepsUnique(cs, c, now);
    SortIsOrdered(list);
    OrderedUniqueIsCanonical(Sort(list));
    forall kind
      ensures Get(Sort(list), kind) == if kind == c.kind then Some(merged) else Get(cs, kind)
    {
      PermutationKeepsGet(Sort(list), list, kind);
      if Has(cs, c.kind) { ReplaceFirstGet(cs, merged, kind); } else { AppendGet(cs, merged, kind); }
    }
  }

  lemma {:induction false} DeleteGet(cs: Conditions, kind: string, k: string)
    ensures Get(Delete(cs, kind), k) == if k == kind then None else Get(cs, k)
  {
    if cs != [] {
      DeleteGet(cs[1..], kind, k);
      assert cs[0].kind != kind ==> Delete(cs, kind)[1..] == Delete(cs[1..], kind);
    }
  }

  lemma {:induction false} DeleteMembers(cs: Conditions, kind: string, c: Condition)
    ensures c in Delete(cs, kind) <==> c in cs && c.kind != kind
  {
    if cs != [] {
      DeleteMembers(cs[1..], kind, c);
      assert cs == [cs[0]] + cs[1..];
    }
  }

  lemma {:induction false} DeleteKeepsOrder(cs: Conditions, kind: string)
    ensures UniqueTypes(cs) ==> UniqueTypes(Delete(cs, kind))
    ensures Canonical(cs) ==> Canonical(Delete(cs, kind))
  {
    if cs != [] {
      DeleteKeepsOrder(cs[1..], kind);
      var rest := Delete(cs[1..], kind);
      forall i | 0 <= i < |rest| ensures rest[i] in cs[1..] { DeleteMembers(cs[1..], kind, rest[i]); }
    }
  }

  /** Delete keeps the order of what remains and is a map removal as Get sees it, on any list. */
  lemma DeleteRefinesMapRemoval(cs: Conditions, kind: string)
    ensures forall k :: Get(Delete(cs, kind), k) == if k == kind then None else Get(cs, k)
    ensures UniqueTypes(cs) ==> UniqueTypes(Delete(cs, kind))
    ensures Canonical(cs) ==> Canonical(Delete(cs, kind))
  {
    forall k ensures Get(Delete(cs, kind), k) == if k == kind then None else Get(cs, k) {
      DeleteGet(cs, kind, k);
    }
    DeleteKeepsOrder(cs, kind);
  }

  /** Calls on different types at one clock reading commute, down to the identical list. */
  lemma SetsCommute(cs: Conditions, a: Condition, b: Condition, now: int)
    requires UniqueTypes(cs) && a.kind != b.kind
    ensures Set(Set(cs, a, now), b, now) == Set(Set(cs, b, now), a, now)
  {
    SetRefinesMapUpdate(cs, a, now);
    SetRefinesMapUpdate(cs, b, now);
    SetRefinesMapUpdate(Set(cs, a, now), b, now);
    SetRefinesMapUpdate(Set(cs, b, now), a, now);
    CanonicalExtensional(Set(Set(cs, a, now), b, now), Set(Set(cs, b, now), a, now));
  }

  lemma SetAndDeleteCommute(cs: Conditions, c: Condition, kind: string, now: int)
    requires UniqueTypes(cs) && c.kind != kind
    ensures Set(Delete(cs, kind), c, now) == Delete(Set(cs, c, now), kind)
  {
    DeleteRefinesMapRemoval(cs, kind);
    SetRefinesMapUpdate(cs, c, now);
    SetRefinesMapUpdate(Delete(cs, kind), c, now);
    DeleteRefinesMapRemoval(Set(cs, c, now), kind);
    CanonicalExtensional(Set(Delete(cs, kind), c, now), Delete(Set(cs, c, now), kind));
  }

  /** Setting a state the list already holds changes nothing at all, at any clock reading. */
  lemma SetSameStateIsIdentity(cs: Conditions, c: Condition, now: int)
    requires Canonical(cs) && Has(cs, c.kind) && SameState(Get(cs, c.kind).value, c)
    ensures Set(cs, c, now) == cs
  {
    OrderedUniqueIsCanonical(cs);
    SetRefinesMapUpdate(cs, c, now);
    CanonicalExtensional(Set(cs, c, now), cs);
  }

  // ---------- Marking ----------

  function Fresh(kind: string, status: Truth, reason: string, message: string): Condition {
    Condition(kind, status, reason, message, Zero)
  }

  function MarkTrue(cs: Conditions, kind: string, reason: string, message: string, now: int): Conditions {
    Set(cs, Fresh(kind, True, reason, message), now)
  }

  function MarkFalse(cs: Conditions, kind: string, reason: string, message: string, now: int): Conditions {
    Set(cs, Fresh(kind, False, reason, message), now)
  }

  // ---------- The history behind a transition time ----------

  datatype Op = Mark(kind: string, status: Truth, reason: string, message: string, now: int) | Remove(kind: string)

  /** The list left by a sequence of marks and deletes on an empty one. */
  function Perform(ops: seq<Op>): Conditions {
    if ops == [] then []
    else
      var cs := Perform(ops[..|ops| - 1]);
      match ops[|ops| - 1]
      case Mark(kind, status, reason, message, now) => Set(cs, Fresh(kind, status, reason, message), now)
      case Remove(kind) => Delete(cs, kind)
  }

  predicate SameMark(a: Op, b: Op) {
    a.Mark? && b.Mark? && a.kind == b.kind && a.status == b.status && a.reason == b.reason && a.message == b.message
  }

  predicate LastBefore(ops: seq<Op>, kind: string, j: int, i: int) {
    0 <= j < i <= |ops| && ops[j].kind == kind && forall m | j < m < i :: ops[m].kind != kind
  }

  /** The i-th call began the run of equal marks of its type that is still unbroken at the end. */
  ghost predicate BeganRun(ops: seq<Op>, kind: string, i: int) {
    && 0 <= i < |ops| && ops[i].Mark? && ops[i].kind == kind
    && (forall j | i <= j < |ops| && ops[j].kind == kind :: SameMark(ops[j], ops[i]))
    && (forall j | LastBefore(ops, kind, j, i) :: !SameMark(ops[j], ops[i]))
  }

  /** The call of the type that came last, if any, deleted it. */
  ghost predicate EndsDeleted(ops: seq<Op>, kind: string) {
    forall j | LastBefore(ops, kind, j, |ops|) :: ops[j].Remove?
  }

  /** The condition has the state and the time of the call that began the current run. */
  ghost predicate ShowsRun(ops: seq<Op>, kind: string, c: Condition, i: int) {
    BeganRun(ops, kind, i) &&
    c == Condition(kind, ops[i].status, ops[i].reason, ops[i].message, Second(ops[i].now))
  }

  /** The same, computed from the back. */
  function RunStart(ops: seq<Op>, kind: string): (r: Option<nat>)
    ensures r.Some? ==> r.value < |ops| && ops[r.value].Mark?
  {
    if ops == [] then None
    else
      var n := |ops| - 1;
      var prior := RunStart(ops[..n], kind);
      if ops[n].kind != kind then prior
      else if ops[n].Remove? then None
      else if prior.Some? && SameMark(ops[prior.value], ops[n]) then prior
      else Some(n)
  }

  lemma {:induction false} RunStartBeganRun(ops: seq<Op>, kind: string)
    ensures match RunStart(ops, kind)
            case None => EndsDeleted(ops, kind)
            case Some(i) => BeganRun(ops, kind, i)
  {
    if ops != [] {
      var n := |ops| - 1;
      var prior := RunStart(ops[..n], kind);
      RunStartBeganRun(ops[..n], kind);
      if ops[n].kind != kind {
        if prior.None? { StaysDeleted(ops, kind); } else { RunContinues(ops, kind, prior.value); }
      } else if ops[n].Mark? {
        if prior.Some? && SameMark(ops[prior.value], ops[n]) {
          RunContinues(ops, kind, prior.value);
        } else {
          RunBegins(ops, kind, prior);
        }
      }
    }
  }

  lemma StaysDeleted(ops: seq<Op>, kind: string)
    requires ops != [] && EndsDeleted(ops[..|ops| - 1], kind) && ops[|ops| - 1].kind != kind
    ensures EndsDeleted(ops, kind)
  {
  }

  lemma RunContinues(ops: seq<Op>, kind: string, i: nat)
    requires ops != [] && BeganRun(ops[..|ops| - 1], kind, i)
    requires var op := ops[|ops| - 1]; op.kind != kind || SameMark(ops[i], op)
    ensures BeganRun(ops, kind, i)
  {
  }

  lemma RunBegins(ops: seq<Op>, kind: string, prior: Option<nat>)
    requires ops != [] && ops[|ops| - 1].Mark? && ops[|ops| - 1].kind == kind
    requires match prior
             case None => EndsDeleted(ops[..|ops| - 1], kind)
             case Some(i) => BeganRun(ops[..|ops| - 1], kind, i) && !SameMark(ops[i], ops[|ops| - 1])
    ensures BeganRun(ops, kind, |ops| - 1)
  {
  }

  /** The list shows, of each type, the state and the time of the call that began its current run. */
  lemma {:induction false} PerformShowsRunStart(ops: seq<Op>, kind: string)
    ensures Canonical(Perform(ops))
    ensures Get(Perform(ops), kind) ==
            match RunStart(ops, kind)
            case None => None
            case Some(i) => Some(Condition(kind, ops[i].status, ops[i].reason, ops[i].message, Second(ops[i].now)))
    ensures RunStart(ops, kind).Some? ==> ops[RunStart(ops, kind).value].kind == kind
  {
    if ops != [] {
      var n := |ops| - 1;
      PerformShowsRunStart(ops[..n], kind);
      var cs, op := Perform(ops[..n]), ops[n];
      OrderedUniqueIsCanonical(cs);
      match op
      case Mark(k, status, reason, message, now) => SetRefinesMapUpdate(cs, Fresh(k, status, reason, message), now);
      case Remove(k) => DeleteRefinesMapRemoval(cs, k);
    }
  }

  /** A stored transition time is the time its current unbroken run of equal states began. */
  lemma TransitionTimeHistory(ops: seq<Op>, kind: string)
    ensures match Get(Perform(ops), kind)
            case None => EndsDeleted(ops, kind)
            case Some(c) => exists i :: ShowsRun(ops, kind, c, i)
  {
    RunStartBeganRun(ops, kind);
    PerformShowsRunStart(ops, kind);
    if RunStart(ops, kind).Some? {
      assert ShowsRun(ops, kind, Get(Perform(ops), kind).value, RunStart(ops, kind).value);
    }
  }

  /** There is only one call that can have begun the current run. */
  lemma RunStartIsUnique(ops: seq<Op>, kind: string, i: int, k: int)
    requires BeganRun(ops, kind, i) && BeganRun(ops, kind, k)
    ensures i == k
  {
    NoLaterStart(ops, kind, i, k);
    NoLaterStart(ops, kind, k, i);
  }

  lemma NoLaterStart(ops: seq<Op>, kind: string, i: int, k: int)
    requires BeganRun(ops, kind, i) && 0 <= k < |ops|
    ensures i < k ==> !BeganRun(ops, kind, k)
  {
    if i < k && ops[k].kind == kind {
      var j := LastIndexOn(ops, kind, i, k);
      assert LastBefore(ops, kind, j, k) && SameMark(ops[j], ops[k]);
    }
  }

  ghost function LastIndexOn(ops: seq<Op>, kind: string, first: int, end: int): (j: int)
    requires 0 <= first < end <= |ops| && ops[first].kind == kind
    ensures first <= j && LastBefore(ops, kind, j, end)
    decreases end
  {
    if ops[end - 1].kind == kind then end - 1 else LastIndexOn(ops, kind, first, end - 1)
  }
}
