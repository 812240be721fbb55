/** Who wrote what: in every reachable world each entry is a setup entry, an issued caller's
    own write, a vetted promotion of a stored source, or a reflection its evidence carries. */
module Authorship {
  import opened Text
  import opened Records
  import opened Security
  import opened Growth
  import opened Promotion
  import opened PromotionLaws
  import opened World
  import O = Outcomes
  import L = OutcomeLaws
  import M = SecurityMemories
  import S = Scanners

  /** The caller may have written the entry: declarations come from the human whom setup gave
      that target, observations from an agent at its own context. */
  predicate Authored(m: Mem, caller: Caller, e: Entry) {
    && caller in m.callers && caller.callerId == e.createdBy
    && match e.provenance
       case UserDeclaration =>
         && caller.callerClass == Human && e.epistemic == Declared
         && Lookup(m.cfg.declarationTargets, caller.callerId) == Some(e.contextId)
       case AgentObservation =>
         && (caller.callerClass == Cognition || caller.callerClass == Worker) && e.epistemic == Unverified
         && m.callers[caller].contextId == e.contextId
       case VerifiedOutcome => false
  }

  ghost predicate HasAuthor(m: Mem, e: Entry) {
    exists caller :: Authored(m, caller, e)
  }

  /** Every entry written after setup without gate or desk has such an author. */
  ghost predicate Attributed(m: Mem) {
    forall id | id in m.raw && Qualified(id) && m.raw[id].admission == None :: HasAuthor(m, m.raw[id])
  }

  ghost predicate SameCallers(a: Mem, b: Mem) {
    a.cfg == b.cfg && forall k | k in a.callers :: k in b.callers && b.callers[k] == a.callers[k]
  }

  /** At most one entry is new: one of gate or desk, or one with an author. */
  ghost predicate AttributedAddition(a: Mem, b: Mem) {
    && SameCallers(a, b)
    && (a.raw == b.raw || exists e: Entry :: b.raw == a.raw[e.id := e] && (e.admission.Some? || HasAuthor(a, e)))
  }

  lemma AuthorStays(a: Mem, b: Mem, e: Entry)
    requires SameCallers(a, b) && HasAuthor(a, e)
    ensures HasAuthor(b, e)
  {
    var caller :| Authored(a, caller, e);
    assert Authored(b, caller, e);
  }

  lemma AdditionKeepsAttributed(a: Mem, b: Mem)
    requires Attributed(a) && AttributedAddition(a, b)
    ensures Attributed(b)
  {
    hide HasAuthor, SameCallers, Qualified;
    forall id | id in b.raw && Qualified(id) && b.raw[id].admission == None ensures HasAuthor(b, b.raw[id]) {
      AuthorStays(a, b, b.raw[id]);
    }
  }

  lemma WrittenHasAuthor(m: Mem, ec: ExecutionContext, caller: Caller, request: Request)
    requires IsWrite(request) && Refusal(m, ec, caller, request) == None && Written(m, ec, caller, request).Some?
    ensures HasAuthor(m, Written(m, ec, caller, request).value)
  {
    hide PolicyState, WellFormed;
    assert Authored(m, caller, Written(m, ec, caller, request).value);
  }

  lemma MemoryAddsAttributed(m: Mem, ev: Event)
    requires Inv(m)
    ensures AttributedAddition(m, Step(m, ev))
  {
    InvHasIdentities(m);
    hide *;
    if ev.Calls? { CallAddsAttributed(m, ev); } else { OtherEventsAddNothing(m, ev); }
  }

  lemma CallAddsAttributed(m: Mem, ev: Event)
    requires ev.Calls?
    ensures AttributedAddition(m, Step(m, ev))
  {
    hide Refusal, Written, Read, HasAuthor, Step;
    CallEffect(m, ev);
    if Refusal(m, ev.ec, ev.caller, ev.request) == None && IsWrite(ev.request)
       && Written(m, ev.ec, ev.caller, ev.request).Some? {
      WrittenHasAuthor(m, ev.ec, ev.caller, ev.request);
    }
  }

  lemma OtherEventsAddNothing(m: Mem, ev: Event)
    requires Identities(m) && !ev.Calls?
    ensures AttributedAddition(m, Step(m, ev))
  {
    hide AfterCall, HasAuthor, ExecutionsIssued;
  }

  lemma GateAddsAttributed(m: Mem, g: Gate, token: nat, r: PromotionRequest)
    ensures AttributedAddition(m, Promote(m, g, token, r).0)
  {
    hide Decide;
    var binding := Lookup(g.bindings, token);
    if Decide(m, g, binding, r).stored.Some? { StoredIsNew(m, g, binding, r); }
  }

  lemma DeskAddsAttributed(m: Mem, d: O.Desk, token: nat, r: O.ReflectionRequest)
    requires O.DeskReady(d)
    ensures AttributedAddition(m, O.Admit(m, d, token, r).0)
  {
    hide O.Rule, O.Examine, O.WellFormedConfig;
    var ec := Lookup(d.bindings, token);
    if O.Rule(m, d, ec, r).stored.Some? { L.StoredRuling(m, d, ec, r); }
  }

  lemma OthersAddNothing(w: World, act: Act)
    requires O.DeskReady(w.desk) && !(act.Memory? || act.Requests? || act.Reflects?)
    ensures AttributedAddition(w.mem, Perform(w, act).mem)
  {
  }

  lemma PerformAddsAttributed(w: World, act: Act)
    requires WorldInv(w) && O.DeskReady(w.desk)
    ensures AttributedAddition(w.mem, Perform(w, act).mem)
  {
    WorldHasInv(w);
    hide *;
    match act
    case Memory(ev) =>
      PerformsMemory(w, ev);
      MemoryAddsAttributed(w.mem, ev);
    case Requests(k, token, r) =>
      if k < |w.gates| {
        PerformsRequest(w, k, token, r);
        GateAddsAttributed(w.mem, w.gates[k], token, r);
      } else {
        PerformsNothing(w, act);
        NothingAdded(w.mem);
      }
    case Reflects(token, r) =>
      PerformsReflection(w, token, r);
      DeskAddsAttributed(w.mem, w.desk, token, r);
    case _ => OthersAddNothing(w, act);
  }

  lemma NothingAdded(m: Mem)
    ensures AttributedAddition(m, m)
  {
  }

  lemma {:induction false} TraceKeepsAttributed(worlds: seq<World>, acts: seq<Act>, i: nat)
    requires Trace(worlds, acts) && WorldInv(worlds[0]) && Attributed(worlds[0].mem) && i < |worlds|
    ensures Attributed(worlds[i].mem)
  {
    if i > 0 {
      assert Follows(worlds, acts, i - 1);
      assert O.DeskReady(worlds[i - 1].desk) && worlds[i] == Perform(worlds[i - 1], acts[i - 1]);
      hide *;
      TraceKeepsAttributed(worlds, acts, i - 1);
      TraceKeepsWorldInv(worlds, acts, i - 1, i - 1);
      PerformAddsAttributed(worlds[i - 1], acts[i - 1]);
      AdditionKeepsAttributed(worlds[i - 1].mem, worlds[i].mem);
    }
  }

  lemma SetupIsAttributed(f: M.Fixture)
    requires M.FixtureOk(f)
    ensures Attributed(M.Initial(f))
  {
    hide Qualified, HasAuthor;
    forall id | id in M.Initial(f).raw ensures !Qualified(id) { assert M.Initial(f).raw[id] in f.entries; }
  }

  // ----- in every reachable world --------------------------------------------------------

  /** Nobody forges provenance: an entry is as setup left it, or has an issued caller of the
      fitting role as its author, or came through a gate or the desk. */
  lemma {:induction false} EveryEntryHasAuthor(worlds: seq<World>, acts: seq<Act>, i: nat, id: string)
    requires Trace(worlds, acts) && WorldInv(worlds[0]) && Attributed(worlds[0].mem)
    requires i < |worlds| && id in worlds[i].mem.raw
    ensures var w, e := worlds[i], worlds[i].mem.raw[id];
            || (id in worlds[0].mem.raw && worlds[0].mem.raw[id] == e)
            || (e.admission == None && exists caller :: Authored(w.mem, caller, e))
            || IsPromotion(e) || e.admission == Some(Reflected)
  {
    TraceKeepsAttributed(worlds, acts, i);
    TraceKeepsWorldInv(worlds, acts, 0, i);
    hide WorldInv, Trace, Authored, Qualified, LaterGates;
  }

  /** Every stored promotion represents a stored source, and none of the scanners required for
      it, within a domain or across, has anything to find in it. */
  lemma {:induction false} PromotionsAreVetted(worlds: seq<World>, acts: seq<Act>, i: nat, id: string)
    returns (k: nat, sourceId: string)
    requires Trace(worlds, acts) && WorldInv(worlds[0]) && i < |worlds| && id in worlds[i].mem.raw
    requires IsPromotion(worlds[i].mem.raw[id])
    ensures k < |worlds[i].gates| && sourceId in worlds[i].mem.raw
    ensures var cfg, e, source := worlds[i].gates[k].cfg, worlds[i].mem.raw[id], worlds[i].mem.raw[sourceId];
            && Represents(worlds[i].mem, cfg.policy, source, e)
            && forall name | name in (if source.domain == e.domain then ["secret"] else cfg.scannerNames) ::
                 S.NothingFound(cfg.ops, name, e.content, source.content, cfg.manifest)
  {
    TraceKeepsWorldInv(worlds, acts, i, i);
    WorldHasInv(worlds[i]);
    var w := worlds[i];
    hide WorldInv, Trace, Inv, GateInv, Represents, S.NothingFound;
    sourceId := PromotionHasSource(w.mem, w.gates, id);
    k :| k < |w.gates| && PromotedBy(w.mem, w.gates[k].cfg, w.mem.raw[sourceId], w.mem.raw[id]);
  }

  /** Every admission in an audit was scanned for secrets, unless it crossed domains under a
      configuration that does not ask for it, and no secret pattern has a match in it. */
  lemma {:induction false} AdmissionsHoldNoSecret(worlds: seq<World>, acts: seq<Act>, i: nat, k: nat, a: Audit)
    requires Trace(worlds, acts) && WorldInv(worlds[0]) && i < |worlds| && k < |worlds[i].gates|
    requires a in worlds[i].gates[k].audit && a.status == Admitted
    requires !a.trail.crossing || "secret" in worlds[i].gates[k].cfg.scannerNames
    ensures ("secret", S.Report("secret", S.Clean, [])) in a.trail.reports
    ensures var cfg := worlds[i].gates[k].cfg;
            && "secret" in cfg.manifest
            && forall p | p in cfg.manifest["secret"] :: cfg.ops.findAll(p, a.request.content) == Some([])
  {
    TraceKeepsWorldInv(worlds, acts, i, i);
    hide *;
    WorldHasInv(worlds[i]);
    AuditIsCleared(worlds[i].mem, worlds[i].gates, k, a);
    ClearedHoldsNoSecret(worlds[i].gates[k], a);
  }

  lemma AuditIsCleared(m: Mem, gates: seq<Gate>, k: nat, a: Audit)
    requires GatesInv(m, gates) && k < |gates| && a in gates[k].audit
    ensures Cleared(gates[k], a)
  {
    assert GateInv(m, gates[k]);
    hide AllBacked, OneToOne, ReceiptsStand, TokensIssued, Cleared;
  }

  lemma ClearedHoldsNoSecret(g: Gate, a: Audit)
    requires Cleared(g, a) && a.status == Admitted && (!a.trail.crossing || "secret" in g.cfg.scannerNames)
    ensures ("secret", S.Report("secret", S.Clean, [])) in a.trail.reports
    ensures "secret" in g.cfg.manifest
    ensures forall p | p in g.cfg.manifest["secret"] :: g.cfg.ops.findAll(p, a.request.content) == Some([])
  {
    hide S.ShareWindow, S.NoClippedWindow, S.Tokens;
    SecretIsReported(g, a.trail);
    assert "secret" in Required(g.cfg, a.trail.crossing);
    assert S.NothingFound(g.cfg.ops, "secret", a.request.content, a.trail.source.value.content, g.cfg.manifest);
  }

  lemma SecretIsReported(g: Gate, t: Trail)
    requires AllReported(g.cfg, t.crossing, t.reports) && (!t.crossing || "secret" in g.cfg.scannerNames)
    ensures ("secret", S.Report("secret", S.Clean, [])) in t.reports
  {
    var names := Required(g.cfg, t.crossing);
    var i :| 0 <= i < |names| && names[i] == "secret";
    assert t.reports[i] in t.reports;
  }

  /** Every stored derivation is for a stored entry, names a catalog row for just its content,
      and the evidence in its own snapshot carries every fact of that row. */
  lemma {:induction false} DerivationsAreCarried(worlds: seq<World>, acts: seq<Act>, i: nat, id: string)
    requires Trace(worlds, acts) && WorldInv(worlds[0]) && i < |worlds| && id in worlds[i].desk.provenance
    ensures var w, x := worlds[i], worlds[i].desk.provenance[id];
            && id in w.mem.raw && w.mem.raw[id].content == x.support.candidate.content
            && w.mem.raw[id].admission == Some(Reflected)
            && x.bundle.executionId in w.desk.cfg.catalog && x.support in w.desk.cfg.catalog[x.bundle.executionId]
            && forall f | f in x.support.facts ::
                 exists row | row in x.bundle.evidence :: row.Some? && f in row.value.facts
  {
    TraceKeepsWorldInv(worlds, acts, i, i);
    WorldHasInv(worlds[i]);
    hide WorldInv, Trace, Inv, GatesInv, L.VerifiedAreEarned, L.ReplaysStored, L.DeskTokens, O.DeskReady;
  }

  /** Every receipt the desk remembers is for an entry with such a derivation. */
  lemma {:induction false} ReceiptsAreCarried(worlds: seq<World>, acts: seq<Act>, i: nat, key: O.ReflectionKey)
    requires Trace(worlds, acts) && WorldInv(worlds[0]) && i < |worlds| && key in worlds[i].desk.replays
    ensures var w, rp := worlds[i], worlds[i].desk.replays[key];
            && rp.receipt.entryId in w.desk.provenance && rp.receipt.entryId in w.mem.raw
            && rp.receipt.epistemic == w.mem.raw[rp.receipt.entryId].epistemic
            && forall f | f in w.desk.provenance[rp.receipt.entryId].support.facts ::
                 exists row | row in rp.fingerprint.bundle.evidence :: row.Some? && f in row.value.facts
  {
    TraceKeepsWorldInv(worlds, acts, i, i);
    WorldHasInv(worlds[i]);
    assert L.ReplayStored(worlds[i].mem.raw, worlds[i].desk.provenance, worlds[i].desk.replays[key]) by {
      hide WorldInv, Trace, Inv, GatesInv, L.VerifiedAreEarned, L.DerivationsStored, L.DeskTokens, O.DeskReady;
    }
    hide WorldInv, Trace, Inv, GatesInv, L.DeskInv;
    DerivationsAreCarried(worlds, acts, i, worlds[i].desk.replays[key].receipt.entryId);
  }
}
