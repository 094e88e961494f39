/**
 What the two write helpers do against the API server, seen as steps of the machine: each way a
 helper can end leads to one state of the machine, and touches nothing of any other tenant.
 */
module StoreSteps {
  import opened Wrappers
  import opened Tenants
  import opened TenantPatches
  import opened HostObjects
  import opened Protocol
  import opened Invariants
  import opened ApiServers
  import opened ControllerUtil
  import C = Conditions
  import W = Worlds

  /**
   The calls take the machine from one point of the reconcile to another, and the store along with
   it; the rest of the store goes where the moves of other tenants in between take it.
   */
  ghost predicate Leads(setup: Setup, s: Store, p: Proc, used: seq<Turn>, t: Store, q: Proc) {
    && RunCalls(setup, At(s, setup.name, p), used) == At(t, setup.name, q)
    && Elsewhere(t, setup.name) == Elsewhere(W.RunWorld(SiteOf(setup), s, OthersOf(used, setup.name)), setup.name)
  }

  lemma LeadsOn(setup: Setup, s: Store, p: Proc, used: seq<Turn>, t: Store, q: Proc, more: seq<Turn>, u: Store, r: Proc)
    requires Leads(setup, s, p, used, t, q) && Leads(setup, t, q, more, u, r)
    ensures Leads(setup, s, p, used + more, u, r)
  {
    hide At, Elsewhere, RunCalls, W.RunWorld, OthersOf;
    var n, site := setup.name, SiteOf(setup);
    RunCallsConcat(setup, At(s, n, p), used, more);
    OthersOfConcat(used, more, n);
    W.RunWorldConcat(site, s, OthersOf(used, n), OthersOf(more, n));
    OthersDependOnElsewhere(site, t, W.RunWorld(site, s, OthersOf(used, n)), n, OthersOf(more, n));
  }

  lemma LeadsNowhere(setup: Setup, s: Store, p: Proc)
    ensures Leads(setup, s, p, [], s, p)
  {
    hide At, Elsewhere;
  }

  lemma LeadsKeepsInv(setup: Setup, s: Store, p: Proc, used: seq<Turn>, t: Store, q: Proc)
    requires Inv(setup, At(s, setup.name, p)) && Leads(setup, s, p, used, t, q)
    ensures Inv(setup, At(t, setup.name, q))
  {
    RunCallsIsRun(setup, At(s, setup.name, p), used);
    RunKeepsInv(setup, At(s, setup.name, p), Performed(used));
  }

  /** One call that leaves a settled store alone, or changes only what belongs to this tenant. */
  lemma OneCall(setup: Setup, s: Store, p: Proc, turn: Turn, t: Store, q: Proc)
    requires !p.AtRest()
    requires var met := Settle(setup, s, turn);
             AfterCall(setup, At(met, setup.name, p), turn.call) == At(t, setup.name, q) &&
             Elsewhere(t, setup.name) == Elsewhere(met, setup.name)
    ensures Leads(setup, s, p, [turn], t, q)
  {
    hide AfterCall, AfterEnvs, Settle, At, Elsewhere, W.RunWorld, W.Except;
    SettleMatches(setup, s, p, turn);
    SettleElsewhere(setup, s, turn);
    var d := Step(setup, At(s, setup.name, p), Perform(turn.call));
    assert RunCalls(setup, d, [turn][1..]) == d;
    assert OthersOf([turn], setup.name) == W.Except(turn.others, setup.name) by {
      assert OthersOf([turn][1..], setup.name) == [];
    }
  }

  // ---------- CreateIfNotExists ----------

  function Filled(key: Key, o: Result<HostObject>): Result<Keyed> {
    match o case Err => Err case Ok(v) => Ok(Keyed(key, v))
  }

  /** The callback fills in the object that the machine drafts for the part. */
  ghost predicate Fills(setup: Setup, owner: OwnerReference, part: Part, obj: Keyed, f: Callback) {
    && obj.key == KeyOf(part, setup.name)
    && if IsKubeconfig(part)
       then f.FillFrom? && f.source == KeyOf(ServerCert, setup.name) &&
            forall o, e :: f.fillFrom(o, e, obj) == Filled(obj.key, DraftKubeconfig(setup, part, owner, o, e))
       else f.Fill? && forall e :: f.fill(e, obj) == Filled(obj.key, Draft(setup, part, owner, e))
  }

  function AfterPart(seen: Tenant, part: Part, result: OperationResult, now: int): Proc {
    if result.Error? then PartFailed(seen, part, now) else PartExists(seen, part, now)
  }

  /** What a helper used up of the script took the machine to q, which is in mid-reconcile if the process died. */
  ghost predicate Ends<O>(setup: Setup, s: Store, p: Proc, script: seq<Turn>, d: Done<O>, q: Proc) {
    && |d.rest| <= |script| && d.rest == script[|script| - |d.rest|..]
    && Leads(setup, s, p, script[..|script| - |d.rest|], d.store, q)
    && (d.result.Died? ==> d.rest == [] && !q.AtRest())
  }

  lemma EndsHere<O>(setup: Setup, s: Store, p: Proc, script: seq<Turn>, d: Done<O>)
    requires d.store == s && d.rest == script && (d.result.Died? ==> script == [] && !p.AtRest())
    ensures Ends(setup, s, p, script, d, p)
  {
    assert script[..0] == [] && script[0..] == script;
  }

  lemma EndsAtOnce<O>(setup: Setup, s: Store, p: Proc, script: seq<Turn>, d: Done<O>, q: Proc)
    requires script != [] && d.rest == script[1..] && !d.result.Died? && Leads(setup, s, p, [script[0]], d.store, q)
    ensures Ends(setup, s, p, script, d, q)
  {
    assert script[..|script| - |d.rest|] == [script[0]];
  }

  /** A helper that goes on after its first call. */
  lemma EndsLater<O>(setup: Setup, s: Store, p: Proc, script: seq<Turn>, t: Store, q: Proc, d: Done<O>, r: Proc)
    requires script != [] && Leads(setup, s, p, [script[0]], t, q) && Ends(setup, t, q, script[1..], d, r)
    ensures Ends(setup, s, p, script, d, r)
  {
    hide Leads;
    var more := script[1..][..|script| - 1 - |d.rest|];
    LeadsOn(setup, s, p, [script[0]], t, q, more, d.store, r);
    assert script[..|script| - |d.rest|] == [script[0]] + more;
    assert script[1..][|more|..] == script[|script| - |d.rest|..];
  }

  /** A helper that has not died is done with the part by its last call. */
  ghost predicate PartDone(
      setup: Setup, seen: Tenant, part: Part, s: Store, p: Proc, script: seq<Turn>, d: Done<Keyed>, q: Proc)
  {
    && Ends(setup, s, p, script, d, q)
    && (!d.result.Died? ==>
          |d.rest| < |script| && q == AfterPart(seen, part, d.result, script[|script| - |d.rest| - 1].call.now))
  }

  lemma ProbeStep(setup: Setup, s: Store, seen: Tenant, part: Part, turn: Turn)
    ensures var met := Settle(setup, s, turn);
            Leads(setup, s, Probing(seen, part), [turn], met,
                  match ObjectReply(met, turn.call, KeyOf(part, setup.name))
                  case Found(_) => PartExists(seen, part, turn.call.now)
                  case Missing => PartMissing(setup, seen, part, turn.call)
                  case _ => PartFailed(seen, part, turn.call.now))
  {
    hide AfterEnvs, Settle, Elsewhere, Leads, Draft, DraftKubeconfig, Defer, MarkNotProvisioned, KeyOf;
    var met := Settle(setup, s, turn);
    PartIsHere(met, setup.name, part);
    OneCall(setup, s, Probing(seen, part), turn, met,
            AfterCall(setup, At(met, setup.name, Probing(seen, part)), turn.call).proc);
  }

  lemma ReadCAStep(setup: Setup, s: Store, seen: Tenant, part: Part, turn: Turn)
    ensures var met := Settle(setup, s, turn);
            Leads(setup, s, ReadingCA(seen, part), [turn], met,
                  match ObjectReply(met, turn.call, KeyOf(ServerCert, setup.name))
                  case Found(o) =>
                    (match DraftKubeconfig(setup, part, seen.AsOwner(), o, turn.call.entropy)
                     case Ok(draft) => Creating(seen, part, draft)
                     case Err => PartFailed(seen, part, turn.call.now))
                  case _ => PartFailed(seen, part, turn.call.now))
  {
    hide AfterEnvs, Settle, Elsewhere, Leads, Draft, DraftKubeconfig, Defer, MarkNotProvisioned, KeyOf;
    var met := Settle(setup, s, turn);
    PartIsHere(met, setup.name, ServerCert);
    OneCall(setup, s, ReadingCA(seen, part), turn, met,
            AfterCall(setup, At(met, setup.name, ReadingCA(seen, part)), turn.call).proc);
  }

  lemma CreateStep(setup: Setup, s: Store, seen: Tenant, part: Part, draft: HostObject, turn: Turn)
    ensures var (t, r) := CreateIn(Settle(setup, s, turn), turn.call, KeyOf(part, setup.name), draft);
            Leads(setup, s, Creating(seen, part, draft), [turn], t,
                  if r.Found? then PartExists(seen, part, turn.call.now) else PartFailed(seen, part, turn.call.now))
  {
    hide AfterEnvs, Settle, Elsewhere, Leads, Draft, DraftKubeconfig, Defer, MarkNotProvisioned, KeyOf;
    var met := Settle(setup, s, turn);
    PartIsHere(met, setup.name, part);
    StoreObject(met, setup.name, part, draft);
    OneCall(setup, s, Creating(seen, part, draft), turn, CreateIn(met, turn.call, KeyOf(part, setup.name), draft).0,
            AfterCall(setup, At(met, setup.name, Creating(seen, part, draft)), turn.call).proc);
  }

  /** The end of the helper is the Creating step of the machine. */
  lemma CreateFilledMatches(
      setup: Setup, s: Store, seen: Tenant, part: Part, obj: Keyed, draft: HostObject, script: seq<Turn>)
    returns (q: Proc)
    requires obj.key == KeyOf(part, setup.name)
    ensures var d := CreateFilled(s, script, RulesFor(setup), obj, Ok(Keyed(obj.key, draft)));
            PartDone(setup, seen, part, s, Creating(seen, part, draft), script, d, q)
  {
    hide Settle, Leads, Draft, DraftKubeconfig, PartFailed, PartExists, KeyOf;
    if script == [] {
      q := Creating(seen, part, draft);
      EndsHere(setup, s, q, script, Done(s, [], Died, Keyed(obj.key, draft)));
    } else {
      CreateStep(setup, s, seen, part, draft, script[0]);
      var (t, r) := CreateIn(Settle(setup, s, script[0]), script[0].call, KeyOf(part, setup.name), draft);
      q := if r.Found? then PartExists(seen, part, script[0].call.now) else PartFailed(seen, part, script[0].call.now);
      EndsAtOnce(setup, s, Creating(seen, part, draft), script,
                 Done(t, script[1..], if r.Found? then Created else Error, Keyed(obj.key, draft)), q);
    }
  }

  /** The last call found out that the object cannot be made. */
  lemma PartDoneEmptyHanded(
      setup: Setup, seen: Tenant, part: Part, s: Store, p: Proc, script: seq<Turn>, t: Store, now: int, obj: Keyed)
    requires script != [] && now == script[0].call.now &&
             Leads(setup, s, p, [script[0]], t, PartFailed(seen, part, now))
    ensures PartDone(setup, seen, part, s, p, script, Done(t, script[1..], Error, obj), PartFailed(seen, part, now))
  {
    hide Leads, PartFailed;
    EndsAtOnce(setup, s, p, script, Done(t, script[1..], Error, obj), PartFailed(seen, part, now));
  }

  lemma CreateReadingMatches(
      setup: Setup, s: Store, seen: Tenant, part: Part, obj: Keyed, f: Callback, script: seq<Turn>)
    returns (q: Proc)
    requires IsKubeconfig(part) && Fills(setup, seen.AsOwner(), part, obj, f)
    ensures var d := CreateReading(s, script, RulesFor(setup), obj, f.source, f.fillFrom);
            PartDone(setup, seen, part, s, ReadingCA(seen, part), script, d, q)
  {
    hide Settle, Leads, Draft, DraftKubeconfig, PartFailed, PartExists, KeyOf;
    var p := ReadingCA(seen, part);
    if script == [] {
      q := p;
      EndsHere(setup, s, q, script, Done(s, [], Died, obj));
    } else {
      var turn := script[0];
      var met := Settle(setup, s, turn);
      ReadCAStep(setup, s, seen, part, turn);
      match ObjectReply(met, turn.call, KeyOf(ServerCert, setup.name)) {
        case Found(o) =>
          match DraftKubeconfig(setup, part, seen.AsOwner(), o, turn.call.entropy) {
            case Ok(draft) =>
              q := CreateFilledMatches(setup, met, seen, part, obj, draft, script[1..]);
              var d := CreateFilled(met, script[1..], RulesFor(setup), obj, Ok(Keyed(obj.key, draft)));
              EndsLater(setup, s, p, script, met, Creating(seen, part, draft), d, q);
            case Err =>
              q := PartFailed(seen, part, turn.call.now);
              PartDoneEmptyHanded(setup, seen, part, s, p, script, met, turn.call.now, obj);
          }
        case _ =>
          q := PartFailed(seen, part, turn.call.now);
          PartDoneEmptyHanded(setup, seen, part, s, p, script, met, turn.call.now, obj);
      }
    }
  }

  lemma CreateMatches(
      setup: Setup, s: Store, seen: Tenant, part: Part, obj: Keyed, f: Callback, script: seq<Turn>)
    returns (q: Proc)
    requires Fills(setup, seen.AsOwner(), part, obj, f)
    ensures var d := CreateIfNotExistsDone(s, script, RulesFor(setup), obj, f);
            PartDone(setup, seen, part, s, Probing(seen, part), script, d, q)
  {
    hide Settle, Leads, Draft, DraftKubeconfig, PartFailed, PartExists, KeyOf;
    var p := Probing(seen, part);
    if script == [] {
      q := p;
      EndsHere(setup, s, q, script, Done(s, [], Died, obj));
    } else {
      var turn := script[0];
      var met := Settle(setup, s, turn);
      var key := KeyOf(part, setup.name);
      ProbeStep(setup, s, seen, part, turn);
      match ObjectReply(met, turn.call, key) {
        case Found(_) =>
          q := PartExists(seen, part, turn.call.now);
          EndsAtOnce(setup, s, p, script, CreateIfNotExistsDone(s, script, RulesFor(setup), obj, f), q);
        case Missing =>
          if IsKubeconfig(part) {
            q := CreateReadingMatches(setup, met, seen, part, obj, f, script[1..]);
            var d := CreateReading(met, script[1..], RulesFor(setup), obj, f.source, f.fillFrom);
            EndsLater(setup, s, p, script, met, ReadingCA(seen, part), d, q);
          } else {
            match Draft(setup, part, seen.AsOwner(), turn.call.entropy) {
              case Ok(draft) =>
                q := CreateFilledMatches(setup, met, seen, part, obj, draft, script[1..]);
                var d := CreateFilled(met, script[1..], RulesFor(setup), obj, Ok(Keyed(obj.key, draft)));
                EndsLater(setup, s, p, script, met, Creating(seen, part, draft), d, q);
              case Err =>
                q := PartFailed(seen, part, turn.call.now);
                PartDoneEmptyHanded(setup, seen, part, s, p, script, met, turn.call.now, obj);
            }
          }
        case _ =>
          q := PartFailed(seen, part, turn.call.now);
          PartDoneEmptyHanded(setup, seen, part, s, p, script, met, turn.call.now, obj);
      }
    }
  }

  // ---------- Calls of the reconcile itself ----------

  lemma ReadStep(setup: Setup, s: Store, turn: Turn)
    ensures var met := Settle(setup, s, turn);
            Leads(setup, s, Reading, [turn], met,
                  match TenantReply(met, turn.call, setup.name)
                  case Found(t) => Dispatch(t)
                  case Missing => Returned(Verdict.Finished, None, false)
                  case _ => Returned(Verdict.Failed, None, false))
  {
    hide AfterEnvs, Settle, Elsewhere, Leads, Dispatch;
    var met := Settle(setup, s, turn);
    OneCall(setup, s, Reading, turn, met, AfterCall(setup, At(met, setup.name, Reading), turn.call).proc);
  }

  lemma CheckStep(setup: Setup, s: Store, seen: Tenant, mem: Tenant, part: Part, turn: Turn)
    ensures var met := Settle(setup, s, turn);
            Leads(setup, s, Checking(seen, mem, part), [turn], met,
                  match ObjectReply(met, turn.call, KeyOf(part, setup.name))
                  case Found(o) => Checked(map[part := o], seen, mem, part, turn.call.now)
                  case _ => Defer(seen, mem, Verdict.Failed))
  {
    hide AfterEnvs, Settle, Elsewhere, Leads, KeyOf, Defer, MarkReady;
    var met := Settle(setup, s, turn);
    PartIsHere(met, setup.name, part);
    OneCall(setup, s, Checking(seen, mem, part), turn, met,
            AfterCall(setup, At(met, setup.name, Checking(seen, mem, part)), turn.call).proc);
  }

  // ---------- PatchIfExists ----------

  /** The callback of the deferred patch, for the Tenant as the reconcile left it in memory. */
  ghost predicate Overwrites(mem: Tenant, f: Tenant -> Result<Tenant>) {
    forall base :: f(base) == Ok(Overwrite(base, mem))
  }

  /** The verdict stands unless the patch failed. */
  ghost predicate PatchDone(
      setup: Setup, s: Store, p: Proc, verdict: Verdict, script: seq<Turn>, d: Done<Tenant>, q: Proc)
  {
    && Ends(setup, s, p, script, d, q)
    && (!d.result.Died? ==> q.Returned? && q.verdict == if d.result.Error? then Verdict.Failed else verdict)
  }

  lemma RereadStep(setup: Setup, s: Store, seen: Tenant, mem: Tenant, verdict: Verdict, turn: Turn)
    ensures var met := Settle(setup, s, turn);
            Leads(setup, s, Rereading(seen, mem, verdict), [turn], met,
                  match TenantReply(met, turn.call, setup.name)
                  case Found(base) => Reread(seen, mem, verdict, base)
                  case Missing => Returned(verdict, Some(seen), false)
                  case _ => Returned(Verdict.Failed, Some(seen), false))
  {
    hide AfterEnvs, Settle, Elsewhere, Leads, Reread;
    var met := Settle(setup, s, turn);
    OneCall(setup, s, Rereading(seen, mem, verdict), turn, met,
            AfterCall(setup, At(met, setup.name, Rereading(seen, mem, verdict)), turn.call).proc);
  }

  lemma MainStep(setup: Setup, s: Store, seen: Tenant, base: Tenant, goal: Tenant, verdict: Verdict, turn: Turn)
    returns (wrote: bool)
    ensures var (t, response) := PatchMainIn(Settle(setup, s, turn), turn.call, setup.name, PatchBetween(base, goal));
            Leads(setup, s, PatchingMain(seen, base, goal, verdict), [turn], t,
                  match response
                  case None => Returned(Verdict.Failed, Some(seen), wrote)
                  case Some(r) => MainPatched(seen, base, goal, verdict, r, wrote))
  {
    hide AfterEnvs, Settle, Elsewhere, Leads, MainPatched, PatchBetween, MainEndpoint;
    var met := Settle(setup, s, turn);
    var c := At(met, setup.name, PatchingMain(seen, base, goal, verdict));
    var (stored, response) := MainEndpoint(c.tenant, PatchBetween(base, goal), turn.call.outcome);
    StoreTenant(met, setup.name, stored);
    wrote := stored != c.tenant;
    OneCall(setup, s, c.proc, turn, PatchMainIn(met, turn.call, setup.name, PatchBetween(base, goal)).0,
            AfterCall(setup, c, turn.call).proc);
  }

  lemma StatusStep(
      setup: Setup, s: Store, seen: Tenant, base: Tenant, goal: Tenant, verdict: Verdict, wrote: bool, turn: Turn)
    returns (q: Proc)
    ensures var (t, response) := PatchStatusIn(Settle(setup, s, turn), turn.call, setup.name, PatchBetween(base, goal));
            Leads(setup, s, PatchingStatus(seen, base, goal, verdict, wrote), [turn], t, q) &&
            q.Returned? && q.verdict == if response.None? then Verdict.Failed else verdict
  {
    hide AfterEnvs, Settle, Elsewhere, Leads, PatchBetween, StatusEndpoint;
    var met := Settle(setup, s, turn);
    var c := At(met, setup.name, PatchingStatus(seen, base, goal, verdict, wrote));
    var (stored, response) := StatusEndpoint(c.tenant, PatchBetween(base, goal), turn.call.outcome);
    StoreTenant(met, setup.name, stored);
    q := AfterCall(setup, c, turn.call).proc;
    OneCall(setup, s, c.proc, turn, PatchStatusIn(met, turn.call, setup.name, PatchBetween(base, goal)).0, q);
  }

  /** The second half of the helper. */
  lemma StatusPartMatches(
      setup: Setup, s: Store, seen: Tenant, base: Tenant, goal: Tenant, cur: Tenant, verdict: Verdict,
      wrote: bool, updated: bool, script: seq<Turn>)
    returns (q: Proc)
    ensures var d := StatusPart(s, script, RulesFor(setup), setup.name, base, goal, cur, updated);
            PatchDone(setup, s,
                      if StatusDiffers(base, goal)
                      then PatchingStatus(seen, base, Restored(goal, cur, updated), verdict, wrote)
                      else Returned(verdict, Some(seen), wrote), verdict, script, d, q)
  {
    hide Settle, Leads, StatusDiffers, PatchBetween, PatchStatusIn, Restored;
    var d := StatusPart(s, script, RulesFor(setup), setup.name, base, goal, cur, updated);
    var obj := Restored(goal, cur, updated);
    if !StatusDiffers(base, goal) {
      q := Returned(verdict, Some(seen), wrote);
      EndsHere(setup, s, q, script, d);
    } else if script == [] {
      q := PatchingStatus(seen, base, obj, verdict, wrote);
      EndsHere(setup, s, q, script, d);
    } else {
      q := StatusStep(setup, s, seen, base, obj, verdict, wrote, script[0]);
      EndsAtOnce(setup, s, PatchingStatus(seen, base, obj, verdict, wrote), script, d, q);
    }
  }

  lemma PatchPartsMatches(
      setup: Setup, s: Store, seen: Tenant, mem: Tenant, base: Tenant, verdict: Verdict, script: seq<Turn>)
    returns (q: Proc)
    ensures var d := PatchParts(s, script, RulesFor(setup), setup.name, base, Overwrite(base, mem));
            PatchDone(setup, s, Reread(seen, mem, verdict, base), verdict, script, d, q)
  {
    hide Settle, Leads, MainDiffers, StatusDiffers, PatchBetween, PatchMainIn, StatusPart;
    var goal := Overwrite(base, mem);
    var rules := RulesFor(setup);
    var d := PatchParts(s, script, rules, setup.name, base, goal);
    var p := PatchingMain(seen, base, goal, verdict);
    if !MainDiffers(base, goal) {
      q := StatusPartMatches(setup, s, seen, base, goal, goal, verdict, false, false, script);
    } else if script == [] {
      q := p;
      EndsHere(setup, s, q, script, d);
    } else {
      var turn := script[0];
      var wrote := MainStep(setup, s, seen, base, goal, verdict, turn);
      var (t, response) := PatchMainIn(Settle(setup, s, turn), turn.call, setup.name, PatchBetween(base, goal));
      match response {
        case None =>
          q := Returned(Verdict.Failed, Some(seen), wrote);
          EndsAtOnce(setup, s, p, script, d, q);
        case Some(r) =>
          q := StatusPartMatches(setup, t, seen, base, goal, r, verdict, wrote, true, script[1..]);
          EndsLater(setup, s, p, script, t, MainPatched(seen, base, goal, verdict, r, wrote), d, q);
      }
    }
  }

  /** A Tenant is stored under its own name, whatever its user does. */
  lemma StoredUnderItsName(setup: Setup, s: Store, p: Proc, turn: Turn)
    requires Inv(setup, At(s, setup.name, p)) && !p.AtRest()
    ensures var stored := TenantAt(Settle(setup, s, turn), setup.name);
            stored.Some? ==> stored.value.name == setup.name && C.UniqueTypes(stored.value.conditions)
  {
    hide AfterEnvs, Settle;
    AfterEnvsKeepInv(setup, At(s, setup.name, p), turn.call.before);
    SettleMatches(setup, s, p, turn);
    var stored := TenantAt(Settle(setup, s, turn), setup.name);
    if stored.Some? {
      C.OrderedUniqueIsCanonical(stored.value.conditions);
    }
  }

  lemma PatchMatches(
      setup: Setup, s: Store, seen: Tenant, mem: Tenant, verdict: Verdict, obj: Tenant,
      f: Tenant -> Result<Tenant>, script: seq<Turn>)
    returns (q: Proc)
    requires obj.name == setup.name
    requires Inv(setup, At(s, setup.name, Rereading(seen, mem, verdict))) && Overwrites(mem, f)
    ensures var d := PatchIfExistsDone(s, script, RulesFor(setup), obj, Some(f));
            PatchDone(setup, s, Rereading(seen, mem, verdict), verdict, script, d, q)
  {
    hide Settle, Leads, PatchParts, Reread, Inv, At;
    var rules := RulesFor(setup);
    var d := PatchIfExistsDone(s, script, rules, obj, Some(f));
    var p := Rereading(seen, mem, verdict);
    if script == [] {
      q := p;
      EndsHere(setup, s, q, script, d);
    } else {
      var turn := script[0];
      var met := Settle(setup, s, turn);
      RereadStep(setup, s, seen, mem, verdict, turn);
      StoredUnderItsName(setup, s, p, turn);
      match TenantReply(met, turn.call, setup.name) {
        case Missing =>
          q := Returned(verdict, Some(seen), false);
          EndsAtOnce(setup, s, p, script, d, q);
        case Found(base) =>
          q := PatchPartsMatches(setup, met, seen, mem, base, verdict, script[1..]);
          EndsLater(setup, s, p, script, met, Reread(seen, mem, verdict, base), d, q);
        case _ =>
          q := Returned(Verdict.Failed, Some(seen), false);
          EndsAtOnce(setup, s, p, script, d, q);
      }
    }
  }
}
