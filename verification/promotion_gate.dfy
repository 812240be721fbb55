/** The promotion gate object over a security memory. */
module PromotionGates {
  import opened Text
  import opened Records
  import opened Security
  import opened Promotion
  import opened PromotionLaws
  import M = SecurityMemories
  import T = ContextTrees
  import S = Scanners

  lemma EmptyBooks(m: Mem, g: Gate)
    requires g.audit == [] && g.receipts == map[] && g.replays == map[] && g.bindings == map[]
    ensures GateInv(m, g)
  {
  }

  /** `PromotionGate`. */
  class PromotionGate {
    const memory: M.SecurityMemory
    const cfg: GateConfig
    var policy: Option<PromotionPolicy>
    var approvals: seq<Approval>
    var modes: map<string, S.Mode>
    var available: bool
    var bindings: map<nat, GateBinding>
    var issued: nat
    var audit: seq<Audit>
    var receipts: map<string, GateReceipt>
    var replays: map<ReplayKey, Replay>

    ghost function State(): Gate
      reads this
    {
      Gate(cfg, policy, approvals, modes, available, bindings, issued, audit, receipts, replays)
    }

    ghost predicate Valid()
      reads this, memory, memory.base, memory.base.tree
    {
      memory.Valid() && GateInv(memory.State(), State())
    }

    constructor (memory: M.SecurityMemory, cfg: GateConfig, approvals: seq<Approval>)
      requires memory.Valid()
      ensures Valid() && this.memory == memory && this.cfg == cfg
      ensures State() == Gate(cfg, Some(cfg.policy), approvals, map[], true, map[], 0, [], map[], map[])
    {
      this.memory, this.cfg, this.approvals := memory, cfg, approvals;
      policy, modes, available := Some(cfg.policy), map[], true;
      bindings, issued, audit, receipts, replays := map[], 0, [], map[], map[];
      new;
      EmptyBooks(memory.State(), State());
    }

    /** Trusted harness only. */
    method IssueToken(contextId: string, role: string, name: string) returns (r: Result<nat, T.Rejection>)
      requires Valid()
      modifies this`bindings, this`issued, memory`security, memory.base, memory.base.tree
      ensures Valid()
      ensures memory.State() == Issue(old(memory.State()), old(State()), contextId, role, name).0
      ensures State() == Issue(old(memory.State()), old(State()), contextId, role, name).1
      ensures r.Ok? <==> Issue(old(memory.State()), old(State()), contextId, role, name).2.Some?
      ensures r.Ok? ==> Issue(old(memory.State()), old(State()), contextId, role, name).2 == Some(r.value)
    {
      hide GateInv, Inv;
      IssueKeepsGateInv(memory.State(), State(), contextId, role, name);
      var ec := memory.BeginExecution(name, contextId);
      if ec.Err? { return Err(ec.error); }
      bindings := bindings[issued := GateBinding(ec.value, role, name)];
      issued := issued + 1;
      return Ok(issued - 1);
    }

    /** The scanner loop. */
    method ScanLoop(names: seq<string>, content: string, source: string) returns (reports: seq<(string, S.Report)>)
      ensures reports == ScanAll(State(), names, content, source)
    {
      reports := [];
      for i := 0 to |names|
        invariant reports + ScanAll(State(), names[i..], content, source) == ScanAll(State(), names, content, source)
      {
        assert names[i..][0] == names[i] && names[i..][1..] == names[i + 1..];
        var mode := if names[i] in modes then modes[names[i]] else S.Normal;
        var report := S.Scan(cfg.ops, names[i], content, source, cfg.manifest, mode);
        reports := reports + [(names[i], report)];
      }
    }

    method JudgeLoop(binding: Option<GateBinding>, r: PromotionRequest) returns (v: Verdict)
      ensures v == Judge(memory.State(), State(), binding, r)
    {
      hide Allowed, OnRoute, PolicyState, S.Scan, AllClean;
      if binding == None || binding.value.role != SERVICE { return Stop(RejectedAuthority, NOTHING); }
      if !WellFormedPromotion(r) { return Stop(RejectedPolicy, NOTHING); }
      if !available || policy == None { return Stop(GateUnavailable, NOTHING); }
      if policy.value != cfg.policy { return Stop(RejectedPolicy, NOTHING); }
      var m, ec := memory.State(), binding.value.execution;
      var state := PolicyState(m, ec);
      if state.Some? || !m.available {
        return Stop(if state == Some(Unavailable) || !m.available then GateUnavailable else RejectedPolicy, NOTHING);
      }
      if r.sourceId !in m.raw || m.raw[r.sourceId].contextId != ec.contextId || !Allowed(m, ec, r.sourceId) {
        return Stop(RejectedPolicy, NOTHING);
      }
      v := JudgeSourceLoop(m, m.raw[r.sourceId], r);
    }

    method JudgeSourceLoop(m: Mem, source: Entry, r: PromotionRequest) returns (v: Verdict)
      requires policy.Some?
      ensures v == JudgeSource(m, State(), policy.value, source, r)
    {
      hide OnRoute, AllClean, SomeUnavailable, OnlyMatches, StatusFits, Needed;
      var trail := NOTHING.(source := Some(source));
      if !OnRoute(m, policy.value, source.contextId, r.destination) { return Stop(RejectedPolicy, trail); }
      if !StatusFits(cfg.edition, source) || source.epistemic !in policy.value.admissible {
        return Stop(RejectedPolicy, trail);
      }
      var crossing := source.domain != DomainAt(m.cfg, r.destination);
      trail := trail.(crossing := crossing);
      if crossing && Needed(source, r) !in approvals { return Stop(RejectedSecurity, trail); }
      var reports := ScanLoop(if crossing then cfg.scannerNames else [S.SECRET], r.content, source.content);
      trail := trail.(approval := if crossing then Some(Needed(source, r)) else None, reports := reports);
      if !AllClean(reports) {
        if SomeUnavailable(reports) { return Stop(GateUnavailable, trail); }
        if !OnlyMatches(reports) { return Stop(RejectedScanner, trail); }
        return Stop(RejectedSecurity, trail);
      }
      return Pass(source, trail);
    }

    /** `request_promotion`. */
    method RequestPromotion(token: nat, r: PromotionRequest)
      returns (status: GateStatus, receipt: Option<GateReceipt>)
      requires Valid()
      modifies this, memory`raw, memory.base.tree
      ensures Valid()
      ensures (memory.State(), State(), status, receipt) == Promote(old(memory.State()), old(State()), token, r)
    {
      hide GateInv, Inv, Decide, Commit;
      ghost var m, g := memory.State(), State();
      PromoteKeepsGateInv(m, g, token, r);
      PromotionGrows(m, g, token, r);
      var binding := Lookup(bindings, token);
      var o := DecideLoop(binding, r);
      audit := audit + [Audit(r, binding, o.trail, o.status, o.receipt)];
      if o.stored.Some? {
        StoredIsCommittable(m, g, binding, r);
        StoredMeans(m, g, binding, r);
        PassMeans(m, g, binding, r);
        Register(o, KeyOf(binding.value, r), Fingerprint(r, o.trail.source.value, policy.value));
      }
      status, receipt := o.status, o.receipt;
    }

    method DecideLoop(binding: Option<GateBinding>, r: PromotionRequest) returns (o: Outcome)
      ensures o == Decide(memory.State(), State(), binding, r)
    {
      hide Judge, DomainAt;
      var v := JudgeLoop(binding, r);
      if v.Stop? { return Outcome(v.status, None, None, v.trail); }
      PassMeans(memory.State(), State(), binding, r);
      var key := KeyOf(binding.value, r);
      if key in replays {
        var previous := replays[key];
        if previous.fingerprint != Fingerprint(r, v.source, policy.value) {
          return Outcome(RejectedPolicy, None, None, v.trail);
        }
        return Outcome(Admitted, Some(previous.receipt), None, v.trail);
      }
      var n := SearchFree(memory.raw.Keys, Prefix(r.destination));
      var domain := DomainAt(memory.State().cfg, r.destination);
      var e := Entry(Numbered(Prefix(r.destination), n), r.destination, domain,
                     if domain == PUBLIC then "PUBLIC" else "PRIVATE", r.content, "promotion-gate",
                     v.source.provenance, v.source.epistemic, Some(Promoted(cfg.edition.Text(), policy.value.version)));
      return Outcome(Admitted, Some(ReceiptFor(e, cfg.edition, policy.value)), Some(e), v.trail);
    }

    /** Store, receipt and replay record. */
    method Register(o: Outcome, key: ReplayKey, fingerprint: Fingerprint)
      requires memory.Valid() && o.stored.Some? && o.receipt.Some? && Committable(memory.State(), o.stored.value)
      modifies this`receipts, this`replays, memory`raw, memory.base.tree
      ensures memory.Valid() && memory.State() == Commit(old(memory.State()), o.stored.value, true)
      ensures State() == old(State()).(receipts := old(receipts)[o.stored.value.id := o.receipt.value],
                                       replays := old(replays)[key := Replay(fingerprint, o.receipt.value)])
    {
      hide Committable, Commit, Inv;
      memory.Put(o.stored.value, None);
      receipts := receipts[o.stored.value.id := o.receipt.value];
      replays := replays[key := Replay(fingerprint, o.receipt.value)];
    }
  }
}
