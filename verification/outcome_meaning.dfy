/** What the desk decides, said over the trusted records themselves: how they classify an
    execution, when a candidate is grounded, and what an admission leaves behind. */
module OutcomeMeaning {
  import opened Text
  import opened Records
  import opened Security
  import opened Outcomes
  import opened OutcomeLaws
  import opened Growth
  import opened SecurityLaws
  import T = ContextTrees

  // ----- classification ---------------------------------------------------------------

  /** The envelope is this execution's, names the contract's requirements in order, and has a
      known status. */
  predicate EnvelopeFits(e: Envelope, x: string, c: string, contract: Contract) {
    && |e.id| > 0
    && (e.executionId, e.contextId, e.domain, e.contractRef) == (x, c, contract.domain, contract.contractRef)
    && |e.requiredEvidence| == |contract.requirements|
    && (forall i | 0 <= i < |e.requiredEvidence| :: e.requiredEvidence[i] == contract.requirements[i].id)
    && (e.status == "SUCCEEDED" || e.status == "FAILED" || e.status == "UNKNOWN" || e.status == "INCOMPLETE"
        || e.status == "CANCELLED")
  }

  /** The row is about this requirement of this execution, has a verifier, and says something
      its kind allows. */
  predicate RowFits(row: Evidence, q: Requirement, x: string, c: string, domain: string) {
    && (row.id, row.kind, row.executionId, row.contextId, row.domain) == (q.id, q.kind, x, c, domain)
    && |row.verifierId| > 0
    && (row.result in ["MISSING", "UNKNOWN", "UNAVAILABLE", "NOT_RUN"]
        || row.result in (if q.kind == "ARTIFACT" then ["PRESENT", "ABSENT"] else ["PASS", "FAIL"]))
  }

  /** What the evidence kept under an id says. */
  function Says(cfg: OutcomeConfig, id: string): string {
    if id in cfg.evidence then cfg.evidence[id].result else "MISSING"
  }

  ghost predicate SomeMalformed(cfg: OutcomeConfig, contract: Contract, x: string, c: string) {
    exists q | q in contract.requirements ::
      q.id in cfg.evidence && !RowFits(cfg.evidence[q.id], q, x, c, contract.domain)
  }

  ghost predicate SomeUnavailable(cfg: OutcomeConfig, contract: Contract) {
    exists q | q in contract.requirements :: Says(cfg, q.id) == "UNAVAILABLE"
  }

  ghost predicate SomeFailed(cfg: OutcomeConfig, contract: Contract) {
    exists q | q in contract.requirements :: Says(cfg, q.id) in ["FAIL", "ABSENT"]
  }

  ghost predicate OtherFailed(cfg: OutcomeConfig, contract: Contract) {
    exists q | q in contract.requirements :: q.id != contract.contractRef && Says(cfg, q.id) in ["FAIL", "ABSENT"]
  }

  ghost predicate AllMet(cfg: OutcomeConfig, contract: Contract) {
    forall q | q in contract.requirements :: Says(cfg, q.id) == q.success
  }

  /** The decision over the trusted records of one execution. */
  ghost function Verdict(cfg: OutcomeConfig, bound: Option<string>, x: string, c: string): Classification
    requires x in cfg.executions
  {
    var contract := cfg.executions[x];
    var said := Says(cfg, contract.contractRef);
    if x !in cfg.envelopes then Incomplete
    else if !EnvelopeFits(cfg.envelopes[x], x, c, contract) || bound != Some(contract.domain)
            || SomeMalformed(cfg, contract, x, c) then Contradictory
    else if SomeUnavailable(cfg, contract) then Unreachable
    else
      match cfg.envelopes[x].status
      case "SUCCEEDED" =>
        if SomeFailed(cfg, contract) then Contradictory else if AllMet(cfg, contract) then Proven else Incomplete
      case "FAILED" =>
        if said == "PASS" then Contradictory
        else if said == "FAIL" && OtherFailed(cfg, contract) then Disproven else Incomplete
      case _ => if said == "PASS" && SomeFailed(cfg, contract) then Contradictory else Incomplete
  }

  lemma EnvelopeFitsIff(e: Envelope, x: string, c: string, contract: Contract)
    ensures MatchesContract(e, x, c, contract) <==> EnvelopeFits(e, x, c, contract)
  {
    var ids := RequirementIds(contract.requirements);
    assert e.requiredEvidence == ids <==>
           && |e.requiredEvidence| == |ids|
           && forall i | 0 <= i < |ids| :: e.requiredEvidence[i] == contract.requirements[i].id;
  }

  lemma RowFitsIff(row: Evidence, q: Requirement, x: string, c: string, domain: string)
    ensures ValidEvidence(row, q, x, c, domain) <==> RowFits(row, q, x, c, domain)
  {
  }

  /** The rows are those kept for the requirements, up to the first malformed one. */
  lemma {:induction false} GatherRows(cfg: OutcomeConfig, requirements: seq<Requirement>, x: string, c: string,
                                      domain: string)
    ensures var (ok, rows) := Gather(cfg, requirements, x, c, domain);
            && |rows| <= |requirements| && (ok ==> |rows| == |requirements|)
            && (forall i | 0 <= i < |rows| :: rows[i] == Lookup(cfg.evidence, requirements[i].id))
            && (!ok <==> exists q | q in requirements ::
                           q.id in cfg.evidence && !RowFits(cfg.evidence[q.id], q, x, c, domain))
  {
    hide ValidEvidence, RowFits;
    if requirements != [] {
      GatherRows(cfg, requirements[1..], x, c, domain);
      assert forall q :: q in requirements <==> q == requirements[0] || q in requirements[1..];
      var q := requirements[0];
      if q.id in cfg.evidence { RowFitsIff(cfg.evidence[q.id], q, x, c, domain); }
      var (ok, rows) := Gather(cfg, requirements, x, c, domain);
      forall i | 0 <= i < |rows| ensures rows[i] == Lookup(cfg.evidence, requirements[i].id) {
        if i > 0 { assert rows[i] == rows[1..][i - 1] && requirements[i] == requirements[1..][i - 1]; }
      }
    }
  }

  lemma ValuesSay(cfg: OutcomeConfig, contract: Contract, rows: seq<Option<Evidence>>)
    requires |rows| == |contract.requirements|
    requires forall i | 0 <= i < |rows| :: rows[i] == Lookup(cfg.evidence, contract.requirements[i].id)
    ensures |Values(rows)| == |rows|
    ensures forall i | 0 <= i < |rows| :: Values(rows)[i] == Says(cfg, contract.requirements[i].id)
  {
  }

  lemma ContractValue(cfg: OutcomeConfig, contract: Contract, values: seq<string>)
    requires |values| == |contract.requirements| && contract.contractRef in RequirementIds(contract.requirements)
    requires forall i | 0 <= i < |values| :: values[i] == Says(cfg, contract.requirements[i].id)
    ensures values[IndexOf(RequirementIds(contract.requirements), contract.contractRef)]
            == Says(cfg, contract.contractRef)
  {
    var i := IndexOf(RequirementIds(contract.requirements), contract.contractRef);
    assert contract.requirements[i].id == contract.contractRef;
  }

  /** The decision table, requirement by requirement. */
  lemma ClassifyTable(cfg: OutcomeConfig, contract: Contract, values: seq<string>, status: string)
    requires |values| == |contract.requirements| && contract.contractRef in RequirementIds(contract.requirements)
    requires forall i | 0 <= i < |values| :: values[i] == Says(cfg, contract.requirements[i].id)
    ensures Classify(status, contract.requirements, contract.contractRef, values) ==
            var said := Says(cfg, contract.contractRef);
            if SomeUnavailable(cfg, contract) then Unreachable
            else
              match status
              case "SUCCEEDED" =>
                if SomeFailed(cfg, contract) then Contradictory
                else if AllMet(cfg, contract) then Proven else Incomplete
              case "FAILED" =>
                if said == "PASS" then Contradictory
                else if said == "FAIL" && OtherFailed(cfg, contract) then Disproven else Incomplete
              case _ => if said == "PASS" && SomeFailed(cfg, contract) then Contradictory else Incomplete
  {
    ContractValue(cfg, contract, values);
    ValuesTell(cfg, contract, values);
    hide SomeUnavailable, SomeFailed, AllMet, OtherFailed, Says, Negative;
    FailureWords();
  }

  lemma FailureWords()
    ensures Negative("FAIL") && !Negative("PASS")
  {
  }

  /** What the listed values say, requirement by requirement. */
  lemma ValuesTell(cfg: OutcomeConfig, contract: Contract, values: seq<string>)
    requires |values| == |contract.requirements|
    requires forall i | 0 <= i < |values| :: values[i] == Says(cfg, contract.requirements[i].id)
    ensures SomeUnavailable(cfg, contract) <==> "UNAVAILABLE" in values
    ensures SomeFailed(cfg, contract) <==> exists v | v in values :: Negative(v)
    ensures AllMet(cfg, contract) <==> forall i | 0 <= i < |values| :: values[i] == contract.requirements[i].success
    ensures OtherFailed(cfg, contract) <==>
            exists i | 0 <= i < |values| :: Negative(values[i]) && contract.requirements[i].id != contract.contractRef
  {
    hide Says;
    var qs := contract.requirements;
    forall v | v in values ensures exists q | q in qs :: Says(cfg, q.id) == v {
      var i :| 0 <= i < |values| && values[i] == v;
      assert qs[i] in qs;
    }
    forall q | q in qs ensures Says(cfg, q.id) in values {
      var i :| 0 <= i < |qs| && qs[i] == q;
      assert values[i] == Says(cfg, q.id);
    }
    FailedAnywhere(cfg, contract, values);
    if AllMet(cfg, contract) {
      forall i | 0 <= i < |values| ensures values[i] == qs[i].success { assert qs[i] in qs; }
    }
  }

  lemma FailedAnywhere(cfg: OutcomeConfig, contract: Contract, values: seq<string>)
    requires |values| == |contract.requirements|
    requires forall i | 0 <= i < |values| :: values[i] == Says(cfg, contract.requirements[i].id)
    ensures SomeFailed(cfg, contract) <==> exists v | v in values :: Negative(v)
    ensures OtherFailed(cfg, contract) <==>
            exists i | 0 <= i < |values| :: Negative(values[i]) && contract.requirements[i].id != contract.contractRef
  {
    hide Says;
    var qs := contract.requirements;
    if q :| q in qs && Says(cfg, q.id) in ["FAIL", "ABSENT"] {
      var i :| 0 <= i < |qs| && qs[i] == q;
      assert values[i] in values && Negative(values[i]);
    }
    if v :| v in values && Negative(v) {
      var i :| 0 <= i < |values| && values[i] == v;
      assert qs[i] in qs && Says(cfg, qs[i].id) in ["FAIL", "ABSENT"];
    }
    if OtherFailed(cfg, contract) {
      var q :| q in qs && q.id != contract.contractRef && Says(cfg, q.id) in ["FAIL", "ABSENT"];
      var i :| 0 <= i < |qs| && qs[i] == q;
      assert Negative(values[i]) && qs[i].id != contract.contractRef;
    }
    if i :| 0 <= i < |values| && Negative(values[i]) && qs[i].id != contract.contractRef {
      assert qs[i] in qs && Says(cfg, qs[i].id) in ["FAIL", "ABSENT"];
    }
  }

  /** An execution is classified by its envelope and the evidence kept for its requirements,
      and by nothing else. */
  lemma {:induction false} ResolutionTable(cfg: OutcomeConfig, bound: Option<string>, ec: ExecutionContext)
    requires WellFormedConfig(cfg) && ec.executionId in cfg.executions
    ensures var contract := cfg.executions[ec.executionId];
            var (classification, b) := Resolve(cfg, bound, ec);
            && classification == Verdict(cfg, bound, ec.executionId, ec.contextId)
            && b == Bundle(ec.executionId, ec.contextId, contract.domain, contract.requirements, contract.contractRef,
                           Lookup(cfg.envelopes, ec.executionId), b.evidence)
            && |b.evidence| <= |contract.requirements|
            && (forall i | 0 <= i < |b.evidence| :: b.evidence[i] == Lookup(cfg.evidence, contract.requirements[i].id))
            && (classification !in {Incomplete, Contradictory} ==> |b.evidence| == |contract.requirements|)
  {
    var x, c, contract := ec.executionId, ec.contextId, cfg.executions[ec.executionId];
    if x in cfg.envelopes { EnvelopeFitsIff(cfg.envelopes[x], x, c, contract); }
    GatherRows(cfg, contract.requirements, x, c, contract.domain);
    var (ok, rows) := Gather(cfg, contract.requirements, x, c, contract.domain);
    if ok && x in cfg.envelopes {
      ValuesSay(cfg, contract, rows);
      ClassifyTable(cfg, contract, Values(rows), cfg.envelopes[x].status);
    }
    hide MatchesContract, EnvelopeFits, RowFits, Gather, Classify, SomeUnavailable, SomeFailed, AllMet, OtherFailed,
         Says, Values;
  }

  // ----- grounding -------------------------------------------------------------------------

  /** The first catalog row for the candidate. */
  ghost predicate FirstRowFor(catalog: seq<Support>, candidate: Candidate, k: nat) {
    && k < |catalog| && catalog[k].candidate == candidate
    && forall j | 0 <= j < k :: catalog[j].candidate != candidate
  }

  lemma {:induction false} FindsFirstRow(catalog: seq<Support>, candidate: Candidate)
    ensures match FindSupport(catalog, candidate)
            case None => forall j | 0 <= j < |catalog| :: catalog[j].candidate != candidate
            case Some(row) => exists k: nat :: FirstRowFor(catalog, candidate, k) && catalog[k] == row
  {
    if catalog != [] {
      FindsFirstRow(catalog[1..], candidate);
      if catalog[0].candidate == candidate {
        assert FirstRowFor(catalog, candidate, 0);
      } else if FindSupport(catalog[1..], candidate).Some? {
        var row := FindSupport(catalog, candidate).value;
        var k: nat :| FirstRowFor(catalog[1..], candidate, k) && catalog[1..][k] == row;
        assert FirstRowFor(catalog, candidate, k + 1);
      }
    }
  }

  /** A request id of one to 80 characters, content of one to 1024 bytes, a claim of at most
      1024 characters. */
  predicate ReflectionInBounds(r: ReflectionRequest) {
    1 <= |r.requestId| <= 80 && 1 <= Utf8(r.candidate.content) <= 1024 && |r.claim.text| <= 1024
  }

  /** Switches on and the policy valid for the execution. */
  ghost predicate Open(m: Mem, d: Desk, ec: ExecutionContext) {
    d.available && m.available && m.cfg.policy.Some? && Governed(m, m.cfg.policy.value, ec)
  }

  /** The classification bears the intent out. */
  predicate Bears(c: Classification, intent: Intent) {
    match intent
    case SuccessIntent => c == Proven
    case FailureIntent => c == Disproven
    case ObservationIntent => c != Contradictory && c != Unreachable
  }

  /** The fact is on trusted evidence kept for a requirement of an execution that ended. */
  ghost predicate Carried(cfg: OutcomeConfig, x: string, fact: string)
    requires x in cfg.executions
  {
    && x in cfg.envelopes
    && exists q | q in cfg.executions[x].requirements :: q.id in cfg.evidence && fact in cfg.evidence[q.id].facts
  }

  /** The first catalog row for the candidate names carried facts only. */
  ghost predicate RowCarried(cfg: OutcomeConfig, x: string, candidate: Candidate)
    requires x in cfg.executions && x in cfg.catalog
  {
    exists k: nat ::
      FirstRowFor(cfg.catalog[x], candidate, k) && forall f | f in cfg.catalog[x][k].facts :: Carried(cfg, x, f)
  }

  lemma EvidenceCarries(cfg: OutcomeConfig, contract: Contract, rows: seq<Option<Evidence>>, fact: string)
    requires |rows| == |contract.requirements|
    requires forall i | 0 <= i < |rows| :: rows[i] == Lookup(cfg.evidence, contract.requirements[i].id)
    ensures (exists row | row in rows :: row.Some? && fact in row.value.facts) <==>
            exists q | q in contract.requirements :: q.id in cfg.evidence && fact in cfg.evidence[q.id].facts
  {
    var qs := contract.requirements;
    if row :| row in rows && row.Some? && fact in row.value.facts {
      var i :| 0 <= i < |rows| && rows[i] == row;
      assert qs[i] in qs && fact in cfg.evidence[qs[i].id].facts;
    }
    if q :| q in qs && q.id in cfg.evidence && fact in cfg.evidence[q.id].facts {
      var i :| 0 <= i < |qs| && qs[i] == q;
      assert rows[i] in rows && fact in rows[i].value.facts;
    }
  }

  /** A resolution that is not contradictory keeps the evidence of an execution that ended. */
  lemma BundleCarries(cfg: OutcomeConfig, bound: Option<string>, ec: ExecutionContext, fact: string)
    requires WellFormedConfig(cfg) && ec.executionId in cfg.executions
    requires Resolve(cfg, bound, ec).0 != Contradictory
    ensures (exists row | row in Resolve(cfg, bound, ec).1.evidence :: row.Some? && fact in row.value.facts) <==>
            Carried(cfg, ec.executionId, fact)
  {
    var x, contract := ec.executionId, cfg.executions[ec.executionId];
    var b := Resolve(cfg, bound, ec).1;
    ResolutionTable(cfg, bound, ec);
    KeepsEvidence(cfg, bound, ec);
    hide Resolve, Verdict;
    if x in cfg.envelopes { EvidenceCarries(cfg, contract, b.evidence, fact); }
  }

  lemma KeepsEvidence(cfg: OutcomeConfig, bound: Option<string>, ec: ExecutionContext)
    requires WellFormedConfig(cfg) && ec.executionId in cfg.executions
    requires Resolve(cfg, bound, ec).0 != Contradictory
    ensures var b := Resolve(cfg, bound, ec).1;
            if ec.executionId in cfg.envelopes then |b.evidence| == |cfg.executions[ec.executionId].requirements|
            else b.evidence == []
  {
    hide MatchesContract, Classify, ValidEvidence;
  }

  /** A request is grounded exactly when it is bounded, the desk is open to the execution, the
      records bear the intent out, and the first catalog row for the candidate names facts
      that trusted evidence carries. */
  lemma {:induction false} GroundedIff(m: Mem, d: Desk, ec: ExecutionContext, r: ReflectionRequest)
    requires WellFormedConfig(d.cfg) && ec.executionId in d.cfg.executions
    ensures var c := Verdict(d.cfg, DomainOf(m, ec), ec.executionId, ec.contextId);
            Examine(m, d, Some(ec), r).Grounded? <==>
            && ReflectionInBounds(r) && Open(m, d, ec) && Bears(c, r.candidate.intent)
            && RowCarried(d.cfg, ec.executionId, r.candidate)
  {
    ExamineGrounds(m, d, ec, r);
    PolicyStateTable(m, ec);
    ResolutionTable(d.cfg, DomainOf(m, ec), ec);
    SupportedIff(m, d, ec, r);
    hide PolicyState, Governed, Resolve, Verdict, FindSupport, Supported, RowCarried, DomainOf, Examine;
  }

  lemma ExamineGrounds(m: Mem, d: Desk, ec: ExecutionContext, r: ReflectionRequest)
    requires WellFormedConfig(d.cfg) && ec.executionId in d.cfg.executions
    ensures var (c, b) := Resolve(d.cfg, DomainOf(m, ec), ec);
            var support := FindSupport(d.cfg.catalog[ec.executionId], r.candidate);
            var f := Examine(m, d, Some(ec), r);
            && (f.Grounded? <==>
                  && WellFormedReflection(r) && d.available && m.available && PolicyState(m, ec) == None
                  && Bears(c, r.candidate.intent) && support.Some? && Supported(support.value, b))
            && (f.Grounded? ==> f.bundle == b && f.classification == c && f.support == support.value)
  {
    hide PolicyState, Resolve, FindSupport, Supported, DomainOf;
  }

  lemma SupportedIff(m: Mem, d: Desk, ec: ExecutionContext, r: ReflectionRequest)
    requires WellFormedConfig(d.cfg) && ec.executionId in d.cfg.executions
    ensures var (c, b) := Resolve(d.cfg, DomainOf(m, ec), ec);
            var support := FindSupport(d.cfg.catalog[ec.executionId], r.candidate);
            c != Contradictory ==>
              (support.Some? && Supported(support.value, b) <==> RowCarried(d.cfg, ec.executionId, r.candidate))
  {
    var x, catalog := ec.executionId, d.cfg.catalog[ec.executionId];
    var (c, b) := Resolve(d.cfg, DomainOf(m, ec), ec);
    FindsFirstRow(catalog, r.candidate);
    hide Resolve, FindSupport, Carried, WellFormedConfig;
    if c != Contradictory {
      forall f ensures Witnessed(b.evidence, f) <==> Carried(d.cfg, x, f) {
        BundleCarries(d.cfg, DomainOf(m, ec), ec, f);
      }
    }
  }

  /** How a request that is not grounded ends. */
  ghost function RefusalStatus(m: Mem, d: Desk, ec: ExecutionContext, r: ReflectionRequest): AdmitStatus
    requires ec.executionId in d.cfg.executions
  {
    if !ReflectionInBounds(r) then RejectedUnsupported
    else if !d.available || !m.available || m.cfg.policy == None then AdmitUnavailable
    else if !Governed(m, m.cfg.policy.value, ec) then RejectedUnsupported
    else
      match Verdict(d.cfg, DomainOf(m, ec), ec.executionId, ec.contextId)
      case Contradictory => RejectedContradictory
      case Unreachable => AdmitUnavailable
      case _ => RejectedUnsupported
  }

  lemma RefusedAs(m: Mem, d: Desk, ec: ExecutionContext, r: ReflectionRequest)
    requires WellFormedConfig(d.cfg) && ec.executionId in d.cfg.executions
    requires Examine(m, d, Some(ec), r).Refuse?
    ensures Examine(m, d, Some(ec), r).status == RefusalStatus(m, d, ec, r)
  {
    PolicyStateTable(m, ec);
    ResolutionTable(d.cfg, DomainOf(m, ec), ec);
    hide PolicyState, Governed, Resolve, Verdict, FindSupport, Supported, DomainOf;
  }

  // ----- one request -----------------------------------------------------------------------

  /** The entry of an admission: the candidate's content at the bound context, private, by the
      desk, verified exactly for the intents that claim an outcome. */
  ghost predicate IsReflection(m: Mem, ec: ExecutionContext, candidate: Candidate, e: Entry) {
    && e.contextId == ec.contextId && DomainOf(m, ec) == Some(e.domain) && e.classification == "PRIVATE"
    && e.content == candidate.content && e.createdBy == "outcome-admission" && e.admission == Some(Reflected)
    && (match candidate.intent
        case SuccessIntent => e.provenance == VerifiedOutcome && e.epistemic == VerifiedSuccess
        case FailureIntent => e.provenance == VerifiedOutcome && e.epistemic == VerifiedFailure
        case ObservationIntent => e.provenance == AgentObservation && e.epistemic == Unverified)
    && var prefix := ec.contextId + "::reflection-";
       exists n: nat :: LeastFree(m.raw.Keys, prefix, n) && e.id == prefix + Decimal(n)
  }

  function GoodStatus(intent: Intent): AdmitStatus {
    match intent
    case SuccessIntent => AdmittedSuccess
    case FailureIntent => AdmittedFailure
    case ObservationIntent => RetainedUnverified
  }

  /** All that grounds a request, over the trusted records. */
  ghost predicate Grounds(m: Mem, d: Desk, ec: ExecutionContext, r: ReflectionRequest)
    requires WellFormedConfig(d.cfg) && ec.executionId in d.cfg.executions
  {
    && ReflectionInBounds(r) && Open(m, d, ec)
    && Bears(Verdict(d.cfg, DomainOf(m, ec), ec.executionId, ec.contextId), r.candidate.intent)
    && RowCarried(d.cfg, ec.executionId, r.candidate)
  }

  lemma ReflectionEntryIs(m: Mem, ec: ExecutionContext, candidate: Candidate)
    requires DomainOf(m, ec).Some?
    ensures IsReflection(m, ec, candidate, ReflectionEntry(m, ec, candidate))
  {
    var prefix := ec.contextId + "::reflection-";
    assert ReflectionPrefix(ec.contextId) == prefix;
    var n := FirstFree(m.raw.Keys, prefix);
    assert LeastFree(m.raw.Keys, prefix, n) && Numbered(prefix, n) == prefix + Decimal(n);
  }

  /** A new answer stores one reflection and remembers what it rests on; a repeated one
      returns the first receipt if it rests on the same snapshot and is refused otherwise;
      anything not grounded is refused. Nothing else changes, and each request is audited. */
  lemma {:induction false} ReflectLaw(m: Mem, d: Desk, token: nat, r: ReflectionRequest)
    requires Inv(m) && DeskReady(d) && DeskTokens(m, d)
    ensures var (m', d', status, receipt) := Admit(m, d, token, r);
            && |d'.audit| == |d.audit| + 1 && d'.audit[..|d.audit|] == d.audit
            && (var a := d'.audit[|d.audit|];
                a.request == r && a.execution == Lookup(d.bindings, token) && a.status == status)
            && (token !in d.bindings ==>
                  status == RejectedUnsupported && receipt == None && m' == m && d' == d.(audit := d'.audit))
            && (token in d.bindings ==> Leaves(m, d, d.bindings[token], r, m', d', status, receipt))
  {
    var ec := Lookup(d.bindings, token);
    AuditGrows(m, d, token, r);
    StoringAdmission(m, d, token, r);
    if token in d.bindings {
      GroundedIff(m, d, ec.value, r);
      hide Examine, Rule, Admit, Leaves, Grounds, IsReflection;
      ReflectedCases(m, d, token, r);
    }
  }

  lemma AuditGrows(m: Mem, d: Desk, token: nat, r: ReflectionRequest)
    requires DeskReady(d)
    ensures var (m', d', status, receipt) := Admit(m, d, token, r);
            && |d'.audit| == |d.audit| + 1 && d'.audit[..|d.audit|] == d.audit
            && (var a := d'.audit[|d.audit|];
                a.request == r && a.execution == Lookup(d.bindings, token) && a.status == status)
            && (token !in d.bindings ==>
                  status == RejectedUnsupported && receipt == None && m' == m && d' == d.(audit := d'.audit))
  {
    hide ReflectionEntry, PolicyState, Resolve, FindSupport, Supported, Commit, WellFormedConfig;
  }

  /** What a request of a bound execution leaves behind. */
  ghost predicate Leaves(m: Mem, d: Desk, ec: ExecutionContext, r: ReflectionRequest, m': Mem, d': Desk,
                            status: AdmitStatus, receipt: Option<ReflectionReceipt>)
    requires WellFormedConfig(d.cfg) && ec.executionId in d.cfg.executions
  {
    var key := ReflectionKey(ec.executionId, r.requestId);
    var b := Resolve(d.cfg, DomainOf(m, ec), ec).1;
    if !Grounds(m, d, ec, r) then
      status == RefusalStatus(m, d, ec, r) && receipt == None && m' == m && d' == d.(audit := d'.audit)
    else if key in d.replays then
      && m' == m && d' == d.(audit := d'.audit)
      && if d.replays[key].fingerprint == SupportPrint(r.candidate, b)
         then status == GoodStatus(r.candidate.intent) && receipt == Some(d.replays[key].receipt)
         else status == RejectedUnsupported && receipt == None
    else
      && status == GoodStatus(r.candidate.intent) && receipt.Some?
      && StoresReflection(m, d, ec, r, b, m', d', receipt.value)
  }

  ghost predicate StoresReflection(m: Mem, d: Desk, ec: ExecutionContext, r: ReflectionRequest, b: Bundle, m': Mem,
                                   d': Desk, receipt: ReflectionReceipt)
    requires ec.executionId in d.cfg.catalog
  {
    var id := receipt.entryId;
    && id !in m.raw && id in m'.raw && id in d'.provenance
    && (var e, x := m'.raw[id], d'.provenance[id];
        && e.id == id && IsReflection(m, ec, r.candidate, e)
        && receipt == ReflectionReceipt(id, e.provenance, e.epistemic)
        && m' == m.(raw := m.raw[id := e], entries := m.entries[id := T.ScopedEntry(id, ec.contextId, OfEntry(e))])
        && x.bundle == b && x.support.candidate == r.candidate && x.support in d.cfg.catalog[ec.executionId]
        && d' == d.(audit := d'.audit, provenance := d.provenance[id := x],
                    replays := d.replays[ReflectionKey(ec.executionId, r.requestId) :=
                                           ReflectionReplay(SupportPrint(r.candidate, b), receipt)]))
  }

  lemma ReflectedCases(m: Mem, d: Desk, token: nat, r: ReflectionRequest)
    requires Inv(m) && DeskReady(d) && DeskTokens(m, d) && token in d.bindings
    ensures var (m', d', status, receipt) := Admit(m, d, token, r);
            Leaves(m, d, d.bindings[token], r, m', d', status, receipt)
  {
    var ec := d.bindings[token];
    GroundedIff(m, d, ec, r);
    if Examine(m, d, Some(ec), r).Refuse? {
      RefusedCase(m, d, token, r);
    } else if ReflectionKey(ec.executionId, r.requestId) in d.replays {
      RepeatedCase(m, d, token, r);
    } else {
      StoresCase(m, d, token, r);
    }
    hide Examine, Grounds, StoresReflection, Admit, Inv, Resolve, RefusalStatus, WellFormedConfig;
  }

  lemma RefusedCase(m: Mem, d: Desk, token: nat, r: ReflectionRequest)
    requires DeskReady(d) && token in d.bindings && Examine(m, d, Some(d.bindings[token]), r).Refuse?
    ensures var (m', d', status, receipt) := Admit(m, d, token, r);
            status == RefusalStatus(m, d, d.bindings[token], r) && receipt == None && m' == m
            && d' == d.(audit := d'.audit)
  {
    assert Lookup(d.bindings, token) == Some(d.bindings[token]);
    RefusedAs(m, d, d.bindings[token], r);
    hide Examine, RefusalStatus, WellFormedConfig;
  }

  lemma RepeatedCase(m: Mem, d: Desk, token: nat, r: ReflectionRequest)
    requires DeskReady(d) && token in d.bindings && Examine(m, d, Some(d.bindings[token]), r).Grounded?
    requires ReflectionKey(d.bindings[token].executionId, r.requestId) in d.replays
    ensures var (m', d', status, receipt) := Admit(m, d, token, r);
            var ec := d.bindings[token];
            var first := d.replays[ReflectionKey(ec.executionId, r.requestId)];
            && m' == m && d' == d.(audit := d'.audit)
            && if first.fingerprint == SupportPrint(r.candidate, Resolve(d.cfg, DomainOf(m, ec), ec).1)
               then status == GoodStatus(r.candidate.intent) && receipt == Some(first.receipt)
               else status == RejectedUnsupported && receipt == None
  {
    assert Lookup(d.bindings, token) == Some(d.bindings[token]);
    GroundedMeans(m, d, Some(d.bindings[token]), r);
    hide Examine, Resolve, WellFormedConfig, PolicyState, ReflectionEntry;
  }

  lemma AdmitStores(m: Mem, d: Desk, token: nat, r: ReflectionRequest)
    requires DeskReady(d) && token in d.bindings && Examine(m, d, Some(d.bindings[token]), r).Grounded?
    requires ReflectionKey(d.bindings[token].executionId, r.requestId) !in d.replays
    ensures var ec, (m', d', status, receipt) := d.bindings[token], Admit(m, d, token, r);
            var f, e := Examine(m, d, Some(ec), r), ReflectionEntry(m, ec, r.candidate);
            && m' == Commit(m, e, false) && status == GoodStatus(r.candidate.intent)
            && receipt == Some(ReflectionReceipt(e.id, e.provenance, e.epistemic))
            && d' == d.(audit := d'.audit, provenance := d.provenance[e.id := Derivation(f.bundle, f.support)],
                        replays := d.replays[ReflectionKey(ec.executionId, r.requestId) :=
                                               ReflectionReplay(SupportPrint(r.candidate, f.bundle), receipt.value)])
  {
    assert Lookup(d.bindings, token) == Some(d.bindings[token]);
    hide Examine, WellFormedConfig, ReflectionEntry, Commit;
  }

  lemma StoresCase(m: Mem, d: Desk, token: nat, r: ReflectionRequest)
    requires Inv(m) && DeskReady(d) && DeskTokens(m, d) && token in d.bindings
    requires Examine(m, d, Some(d.bindings[token]), r).Grounded?
    requires ReflectionKey(d.bindings[token].executionId, r.requestId) !in d.replays
    ensures var (m', d', status, receipt) := Admit(m, d, token, r);
            var ec := d.bindings[token];
            && status == GoodStatus(r.candidate.intent) && receipt.Some?
            && StoresReflection(m, d, ec, r, Resolve(d.cfg, DomainOf(m, ec), ec).1, m', d', receipt.value)
  {
    var ec := d.bindings[token];
    AdmitStores(m, d, token, r);
    GroundedMeans(m, d, Some(ec), r);
    InvHasIdentities(m);
    IssuedDomain(m, ec);
    hide *;
    ReflectionIsNew(m, ec, r.candidate);
    ReflectionEntryIs(m, ec, r.candidate);
    SameContext(m, ec, r.candidate);
    var f, e := Examine(m, d, Some(ec), r), ReflectionEntry(m, ec, r.candidate);
    var (m', d', _, receipt) := Admit(m, d, token, r);
    StoresFrom(m, d, ec, r, Derivation(f.bundle, f.support), e, m', d', receipt.value);
  }

  lemma StoresFrom(m: Mem, d: Desk, ec: ExecutionContext, r: ReflectionRequest, x: Derivation, e: Entry, m': Mem,
                   d': Desk, receipt: ReflectionReceipt)
    requires ec.executionId in d.cfg.catalog && x.support in d.cfg.catalog[ec.executionId]
    requires x.support.candidate == r.candidate
    requires e.id !in m.raw && e.contextId == ec.contextId && IsReflection(m, ec, r.candidate, e)
    requires m' == Commit(m, e, false) && receipt == ReflectionReceipt(e.id, e.provenance, e.epistemic)
    requires d' == d.(audit := d'.audit, provenance := d.provenance[e.id := x],
                      replays := d.replays[ReflectionKey(ec.executionId, r.requestId) :=
                                             ReflectionReplay(SupportPrint(r.candidate, x.bundle), receipt)])
    ensures StoresReflection(m, d, ec, r, x.bundle, m', d', receipt)
  {
    hide IsReflection;
  }

  lemma SameContext(m: Mem, ec: ExecutionContext, candidate: Candidate)
    ensures ReflectionEntry(m, ec, candidate).contextId == ec.contextId
  {
  }

  /** The audit names the records a bounded request of an open desk was decided on, and how
      they classify the execution. */
  lemma AuditTells(m: Mem, d: Desk, token: nat, r: ReflectionRequest)
    requires DeskReady(d) && token in d.bindings
    ensures var ec, audit := d.bindings[token], Admit(m, d, token, r).1.audit;
            && |audit| == |d.audit| + 1
            && (var a := audit[|d.audit|];
                if ReflectionInBounds(r) && Open(m, d, ec) then
                  && a.authoritative == Some(Resolve(d.cfg, DomainOf(m, ec), ec).1)
                  && a.classification == Some(Verdict(d.cfg, DomainOf(m, ec), ec.executionId, ec.contextId))
                else a.authoritative == None && a.classification == None)
  {
    var ec := d.bindings[token];
    assert Lookup(d.bindings, token) == Some(ec);
    PolicyStateTable(m, ec);
    ResolutionTable(d.cfg, DomainOf(m, ec), ec);
    ExaminesRecords(m, d, ec, r);
    hide Examine, Resolve, PolicyState, Governed, Verdict, ReflectionEntry, Commit, WellFormedConfig, DomainOf;
  }

  lemma ExaminesRecords(m: Mem, d: Desk, ec: ExecutionContext, r: ReflectionRequest)
    requires WellFormedConfig(d.cfg) && ec.executionId in d.cfg.executions
    ensures var f, (c, b) := Examine(m, d, Some(ec), r), Resolve(d.cfg, DomainOf(m, ec), ec);
            var reached := WellFormedReflection(r) && d.available && m.available && PolicyState(m, ec) == None;
            && (f.Grounded? ==> reached && f.bundle == b && f.classification == c)
            && (f.Refuse? ==> f.seen == (if reached then Some(b) else None)
                              && f.reached == (if reached then Some(c) else None))
  {
    hide Resolve, PolicyState, FindSupport, Supported, DomainOf;
  }

  /** `issue` registers a fresh token for a known execution, at the context that setup names. */
  lemma IssueLaw(m: Mem, d: Desk, executionId: string)
    requires DeskTokens(m, d)
    ensures var (m', d', token) := IssueExecution(m, d, executionId);
            && (token.Some? <==>
                  && executionId in d.cfg.executions && 1 <= |executionId| <= 80
                  && d.cfg.executions[executionId].contextId in m.cfg.nodes)
            && (token == None ==> m' == m && d' == d)
            && (token.Some? ==>
                  && token.value !in d.bindings && token.value in d'.bindings
                  && (var ec := d'.bindings[token.value];
                      && ec.executionId == executionId && ec.contextId == d.cfg.executions[executionId].contextId
                      && ec in m'.executions && ec.token == m.issued
                      && d' == d.(bindings := d.bindings[token.value := ec], issued := d'.issued)))
  {
  }
}
