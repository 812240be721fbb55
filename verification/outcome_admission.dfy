/** The outcome admission object over a security memory. */
module OutcomeAdmissions {
  import opened Text
  import opened Records
  import opened Security
  import opened Outcomes
  import opened OutcomeLaws
  import M = SecurityMemories
  import T = ContextTrees
  import G = Growth

  lemma EmptyDesk(m: Mem, d: Desk)
    requires WellFormedConfig(d.cfg) && d.bindings == map[] && d.provenance == map[] && d.replays == map[]
    requires forall id | id in m.raw :: m.raw[id].provenance != VerifiedOutcome
    ensures DeskInv(m, d)
  {
  }

  lemma GatherStep(cfg: OutcomeConfig, requirements: seq<Requirement>, i: nat, x: string, c: string, domain: string)
    requires i < |requirements|
    ensures var here := Gather(cfg, requirements[i..], x, c, domain);
            var next := Gather(cfg, requirements[i + 1..], x, c, domain);
            var row := Lookup(cfg.evidence, requirements[i].id);
            if row.Some? && !ValidEvidence(row.value, requirements[i], x, c, domain)
            then here.0 == false && here.1 == [row]
            else here.0 == next.0 && here.1 == [row] + next.1
  {
    hide ValidEvidence;
    assert requirements[i..][0] == requirements[i] && requirements[i..][1..] == requirements[i + 1..];
  }

  lemma GatherDone(cfg: OutcomeConfig, requirements: seq<Requirement>, x: string, c: string, domain: string)
    ensures var left := Gather(cfg, requirements[|requirements|..], x, c, domain); left.0 && left.1 == []
  {
    assert requirements[|requirements|..] == [];
  }

  /** `OutcomeAdmission`. */
  class OutcomeAdmission {
    const memory: M.SecurityMemory
    var cfg: OutcomeConfig
    var available: bool
    var bindings: map<nat, ExecutionContext>
    var issued: nat
    var audit: seq<OutcomeAudit>
    var provenance: map<string, Derivation>
    var replays: map<ReflectionKey, ReflectionReplay>

    function State(): Desk
      reads this
    {
      Desk(cfg, available, bindings, issued, audit, provenance, replays)
    }

    ghost predicate Valid()
      reads this, memory, memory.base, memory.base.tree
    {
      memory.Valid() && DeskInv(memory.State(), State())
    }

    constructor (memory: M.SecurityMemory, cfg: OutcomeConfig)
      requires memory.Valid() && WellFormedConfig(cfg)
      requires forall id | id in memory.raw :: memory.raw[id].provenance != VerifiedOutcome
      ensures Valid() && this.memory == memory && State() == Desk(cfg, true, map[], 0, [], map[], map[])
    {
      this.memory, this.cfg := memory, cfg;
      available, bindings, issued, audit, provenance, replays := true, map[], 0, [], map[], map[];
      new;
      EmptyDesk(memory.State(), State());
    }

    /** Trusted harness only. */
    method IssueToken(executionId: string) returns (r: Option<nat>)
      requires Valid()
      modifies this`bindings, this`issued, memory`security, memory.base, memory.base.tree
      ensures Valid()
      ensures (memory.State(), State(), r) == IssueExecution(old(memory.State()), old(State()), executionId)
    {
      hide DeskInv, Inv, T.StoreValid;
      IssueKeepsDeskInv(memory.State(), State(), executionId);
      if executionId !in cfg.executions { return None; }
      var ec := memory.BeginExecution(executionId, cfg.executions[executionId].contextId);
      if ec.Err? { return None; }
      bindings := bindings[issued := ec.value];
      issued := issued + 1;
      return Some(issued - 1);
    }

    /** Trusted records arrive; what was admitted before keeps its snapshot. */
    method Supply(envelopes: map<string, Envelope>, evidence: map<string, Evidence>)
      requires Valid()
      modifies this`cfg
      ensures Valid()
      ensures State() == old(State()).(cfg := old(cfg).(envelopes := envelopes, evidence := evidence))
    {
      hide Inv, VerifiedAreEarned, DerivationsStored, ReplaysStored;
      cfg := cfg.(envelopes := envelopes, evidence := evidence);
    }

    /** The evidence loop of `resolve`. */
    method GatherLoop(requirements: seq<Requirement>, x: string, c: string, domain: string)
      returns (ok: bool, rows: seq<Option<Evidence>>)
      ensures ok == Gather(cfg, requirements, x, c, domain).0 && rows == Gather(cfg, requirements, x, c, domain).1
    {
      hide ValidEvidence, Gather;
      rows := [];
      assert requirements[0..] == requirements;
      for i := 0 to |requirements|
        invariant |rows| == i
        invariant Gather(cfg, requirements, x, c, domain).0 == Gather(cfg, requirements[i..], x, c, domain).0
        invariant Gather(cfg, requirements, x, c, domain).1 == rows + Gather(cfg, requirements[i..], x, c, domain).1
      {
        GatherStep(cfg, requirements, i, x, c, domain);
        var q := requirements[i];
        var row := Lookup(cfg.evidence, q.id);
        rows := rows + [row];
        if row.Some? && !ValidEvidence(row.value, q, x, c, domain) { return false, rows; }
      }
      GatherDone(cfg, requirements, x, c, domain);
      return true, rows;
    }

    method ResolveLoop(bound: Option<string>, ec: ExecutionContext)
      returns (classification: Classification, bundle: Bundle)
      requires WellFormedConfig(cfg) && ec.executionId in cfg.executions
      ensures (classification, bundle) == Resolve(cfg, bound, ec)
    {
      hide MatchesContract, Classify;
      var x, contract := ec.executionId, cfg.executions[ec.executionId];
      var envelope := Lookup(cfg.envelopes, x);
      bundle := Bundle(x, ec.contextId, contract.domain, contract.requirements, contract.contractRef, envelope, []);
      if envelope == None { return Incomplete, bundle; }
      if !MatchesContract(envelope.value, x, ec.contextId, contract) || bound != Some(contract.domain) {
        return Contradictory, bundle;
      }
      var ok, rows := GatherLoop(contract.requirements, x, ec.contextId, contract.domain);
      bundle := bundle.(evidence := rows);
      if !ok { return Contradictory, bundle; }
      classification := Classify(envelope.value.status, contract.requirements, contract.contractRef, Values(rows));
    }

    method ExamineLoop(ec: Option<ExecutionContext>, r: ReflectionRequest) returns (f: Finding)
      requires WellFormedConfig(cfg) && KnownExecution(State(), ec)
      ensures f == Examine(memory.State(), State(), ec, r)
    {
      hide PolicyState, Resolve, Supported;
      if ec == None || !WellFormedReflection(r) { return Refuse(RejectedUnsupported, None, None); }
      var m := memory.State();
      if !available || !m.available { return Refuse(AdmitUnavailable, None, None); }
      var policy := PolicyState(m, ec.value);
      if policy.Some? {
        return Refuse(if policy.value == Unavailable then AdmitUnavailable else RejectedUnsupported, None, None);
      }
      var classification, bundle := ResolveLoop(DomainOf(m, ec.value), ec.value);
      if classification == Contradictory { return Refuse(RejectedContradictory, Some(bundle), Some(classification)); }
      if classification == Unreachable { return Refuse(AdmitUnavailable, Some(bundle), Some(classification)); }
      var support := FindSupport(cfg.catalog[ec.value.executionId], r.candidate);
      if support == None || !Supported(support.value, bundle) {
        return Refuse(RejectedUnsupported, Some(bundle), Some(classification));
      }
      var demanded := Demanded(r.candidate.intent);
      if demanded.Some? && demanded.value != classification {
        return Refuse(RejectedUnsupported, Some(bundle), Some(classification));
      }
      return Grounded(bundle, classification, support.value);
    }

    method RuleLoop(ec: Option<ExecutionContext>, r: ReflectionRequest, f: Finding) returns (ruling: Ruling)
      requires WellFormedConfig(cfg) && KnownExecution(State(), ec) && f == Examine(memory.State(), State(), ec, r)
      ensures ruling == Rule(memory.State(), State(), ec, r)
    {
      hide Examine;
      if f.Refuse? { return Ruling(f.status, None, None); }
      GroundedMeans(memory.State(), State(), ec, r);
      var key := ReflectionKey(ec.value.executionId, r.requestId);
      if key in replays {
        if replays[key].fingerprint != SupportPrint(r.candidate, f.bundle) {
          return Ruling(RejectedUnsupported, None, None);
        }
        return Ruling(Decision(r.candidate.intent), Some(replays[key].receipt), None);
      }
      var m, c := memory.State(), ec.value.contextId;
      var n := SearchFree(memory.raw.Keys, ReflectionPrefix(c));
      var domain := if DomainOf(m, ec.value).Some? then DomainOf(m, ec.value).value else "";
      var epistemic := Desired(r.candidate.intent);
      var e := Entry(Numbered(ReflectionPrefix(c), n), c, domain, "PRIVATE", r.candidate.content, "outcome-admission",
                     if epistemic == Unverified then AgentObservation else VerifiedOutcome, epistemic, Some(Reflected));
      return Ruling(Decision(r.candidate.intent), Some(ReflectionReceiptFor(e)), Some(e));
    }

    /** `admit`. */
    method AdmitReflection(token: nat, r: ReflectionRequest)
      returns (status: AdmitStatus, receipt: Option<ReflectionReceipt>)
      requires Valid()
      modifies this, memory`raw, memory.base.tree
      ensures Valid()
      ensures (memory.State(), State(), status, receipt) == Admit(old(memory.State()), old(State()), token, r)
    {
      hide VerifiedAreEarned, DerivationsStored, ReplaysStored, Inv, Rule, Examine, Commit, WellFormedConfig,
           Committable;
      ghost var m, d := memory.State(), State();
      AdmitKeepsDeskInv(m, d, token, r);
      var ec := Lookup(bindings, token);
      var f := ExamineLoop(ec, r);
      var ruling := RuleLoop(ec, r, f);
      audit := audit + [AuditOf(ec, r, f, ruling.status)];
      if ruling.stored.Some? {
        StoredRuling(m, d, ec, r);
        ReflectionIsCommittable(m, ec.value, r.candidate);
        Deposit(ec.value, ruling.stored.value, ReflectionKey(ec.value.executionId, r.requestId),
                Derivation(f.bundle, f.support),
                ReflectionReplay(SupportPrint(r.candidate, f.bundle), ruling.receipt.value));
      }
      status, receipt := ruling.status, ruling.receipt;
    }

    /** Store, provenance and replay record, through the execution's own binding. */
    method Deposit(ec: ExecutionContext, e: Entry, key: ReflectionKey, x: Derivation, replay: ReflectionReplay)
      requires memory.Valid() && Committable(memory.State(), e) && ec in memory.base.executions
      requires e.contextId == ec.contextId
      modifies this`provenance, this`replays, memory`raw, memory.base.tree
      ensures memory.Valid() && memory.State() == Commit(old(memory.State()), e, false)
      ensures State() == old(State()).(provenance := old(provenance)[e.id := x], replays := old(replays)[key := replay])
    {
      hide Committable, Commit, Inv, Identities, T.StoreValid;
      OwnBinding(memory.State(), ec);
      memory.Put(e, Some(memory.base.executions[ec]));
      provenance := provenance[e.id := x];
      replays := replays[key := replay];
    }
  }

  /** An issued execution's own binding leads to its context. */
  lemma OwnBinding(m: Mem, ec: ExecutionContext)
    requires Inv(m) && ec in m.executions
    ensures m.executions[ec] in m.bindings && m.bindings[m.executions[ec]] == ec.contextId
  {
    hide Inv;
    G.InvHasIdentities(m);
  }
}
