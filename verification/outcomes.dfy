/** Outcome admission: trusted evidence is classified, and only what it supports is
    written back as a reflection. */
module Outcomes {
  import opened Text
  import opened Records
  import opened Security

  datatype Requirement = Requirement(id: string, kind: string, success: string)

  datatype Contract = Contract(contextId: string, domain: string, requirements: seq<Requirement>, contractRef: string)

  datatype Envelope = Envelope(id: string, executionId: string, contextId: string, domain: string, status: string,
                               requiredEvidence: seq<string>, contractRef: string)

  datatype Evidence = Evidence(id: string, executionId: string, contextId: string, domain: string, kind: string,
                               result: string, verifierId: string, facts: seq<string>, raw: string)

  /** The trusted records one classification was made from. */
  datatype Bundle = Bundle(executionId: string, contextId: string, domain: string,
                           requirements: seq<Requirement>, contractRef: string,
                           envelope: Option<Envelope>, evidence: seq<Option<Evidence>>)

  datatype Classification = Proven | Disproven | Incomplete | Contradictory | Unreachable

  datatype Intent = SuccessIntent | FailureIntent | ObservationIntent

  datatype Candidate = Candidate(content: string, intent: Intent)

  datatype ClaimStatus = ClaimsSuccess | ClaimsFailure | ClaimsUnknown

  datatype Claim = Claim(status: ClaimStatus, text: string)

  datatype Support = Support(candidate: Candidate, facts: seq<string>)

  datatype OutcomeConfig = OutcomeConfig(executions: map<string, Contract>, envelopes: map<string, Envelope>,
                                         evidence: map<string, Evidence>, catalog: map<string, seq<Support>>)

  datatype ReflectionRequest = ReflectionRequest(requestId: string, claim: Claim, candidate: Candidate)

  datatype AdmitStatus = AdmittedSuccess | AdmittedFailure | RetainedUnverified | RejectedUnsupported
                       | RejectedContradictory | AdmitUnavailable

  datatype ReflectionReceipt = ReflectionReceipt(entryId: string, provenance: Provenance, epistemic: Epistemic)

  datatype SupportPrint = SupportPrint(candidate: Candidate, bundle: Bundle)

  datatype ReflectionReplay = ReflectionReplay(fingerprint: SupportPrint, receipt: ReflectionReceipt)

  datatype ReflectionKey = ReflectionKey(executionId: string, requestId: string)

  datatype Derivation = Derivation(bundle: Bundle, support: Support)

  datatype OutcomeAudit = OutcomeAudit(request: ReflectionRequest, execution: Option<ExecutionContext>,
                                       authoritative: Option<Bundle>, classification: Option<Classification>,
                                       status: AdmitStatus)

  datatype Desk = Desk(cfg: OutcomeConfig, available: bool, bindings: map<nat, ExecutionContext>, issued: nat,
                       audit: seq<OutcomeAudit>, provenance: map<string, Derivation>,
                       replays: map<ReflectionKey, ReflectionReplay>)

  // ----- trusted setup ----------------------------------------------------------

  function RequirementIds(requirements: seq<Requirement>): seq<string> {
    seq(|requirements|, i requires 0 <= i < |requirements| => requirements[i].id)
  }

  /** Setup names the contract among the requirements and gives every execution a
      support catalog; the source raises otherwise. */
  predicate WellFormedConfig(cfg: OutcomeConfig) {
    forall x | x in cfg.executions ::
      x in cfg.catalog && cfg.executions[x].contractRef in RequirementIds(cfg.executions[x].requirements)
  }

  // ----- classification -----------------------------------------------------------

  predicate MatchesContract(e: Envelope, x: string, c: string, contract: Contract) {
    && e.id != "" && e.executionId == x && e.contextId == c && e.domain == contract.domain
    && e.requiredEvidence == RequirementIds(contract.requirements) && e.contractRef == contract.contractRef
    && e.status in {"SUCCEEDED", "FAILED", "UNKNOWN", "INCOMPLETE", "CANCELLED"}
  }

  function ValidResults(kind: string): set<string> {
    (if kind == "ARTIFACT" then {"PRESENT", "ABSENT"} else {"PASS", "FAIL"})
    + {"MISSING", "UNKNOWN", "UNAVAILABLE", "NOT_RUN"}
  }

  predicate ValidEvidence(row: Evidence, q: Requirement, x: string, c: string, domain: string) {
    && row.id == q.id && row.executionId == x && row.contextId == c && row.domain == domain && row.kind == q.kind
    && row.result in ValidResults(q.kind) && row.verifierId != ""
  }

  /** `evidence_value`: an absent row counts as missing. */
  function ValueOf(row: Option<Evidence>): string {
    if row.Some? then row.value.result else "MISSING"
  }

  function Values(rows: seq<Option<Evidence>>): seq<string> {
    seq(|rows|, i requires 0 <= i < |rows| => ValueOf(rows[i]))
  }

  /** Rows for the requirements in order, up to and including the first malformed one. */
  function Gather(cfg: OutcomeConfig, requirements: seq<Requirement>, x: string, c: string, domain: string):
    (r: (bool, seq<Option<Evidence>>))
    ensures r.0 ==> |r.1| == |requirements|
  {
    if requirements == [] then (true, [])
    else
      var q := requirements[0];
      var row := Lookup(cfg.evidence, q.id);
      if row.Some? && !ValidEvidence(row.value, q, x, c, domain) then (false, [row])
      else
        var (ok, rest) := Gather(cfg, requirements[1..], x, c, domain);
        (ok, [row] + rest)
  }

  predicate Negative(v: string) {
    v == "FAIL" || v == "ABSENT"
  }

  function IndexOf(ids: seq<string>, id: string): (i: nat)
    requires id in ids
    ensures i < |ids| && ids[i] == id && forall k | 0 <= k < i :: ids[k] != id
  {
    if ids[0] == id then 0 else 1 + IndexOf(ids[1..], id)
  }

  /** The decision table over complete, well-formed evidence. */
  function Classify(status: string, requirements: seq<Requirement>, contractRef: string,
                    values: seq<string>): Classification
    requires |values| == |requirements| && contractRef in RequirementIds(requirements)
  {
    if "UNAVAILABLE" in values then Unreachable
    else
      var contract := values[IndexOf(RequirementIds(requirements), contractRef)];
      var failures := exists v | v in values :: Negative(v);
      if (contract == "PASS" && failures) || (status == "SUCCEEDED" && failures)
         || (status == "FAILED" && contract == "PASS") then Contradictory
      else if status == "SUCCEEDED" && forall i | 0 <= i < |values| :: values[i] == requirements[i].success then Proven
      else if status == "FAILED" && contract == "FAIL"
              && exists i | 0 <= i < |values| :: Negative(values[i]) && requirements[i].id != contractRef then Disproven
      else Incomplete
  }

  /** `resolve`: the classification and the bundle it was made from. */
  function Resolve(cfg: OutcomeConfig, bound: Option<string>, ec: ExecutionContext): (Classification, Bundle)
    requires WellFormedConfig(cfg) && ec.executionId in cfg.executions
  {
    var x, contract := ec.executionId, cfg.executions[ec.executionId];
    var envelope := Lookup(cfg.envelopes, x);
    var bundle := Bundle(x, ec.contextId, contract.domain, contract.requirements, contract.contractRef, envelope, []);
    if envelope == None then (Incomplete, bundle)
    else if !MatchesContract(envelope.value, x, ec.contextId, contract) || bound != Some(contract.domain)
    then (Contradictory, bundle)
    else
      var (ok, rows) := Gather(cfg, contract.requirements, x, ec.contextId, contract.domain);
      var bundle := bundle.(evidence := rows);
      if !ok then (Contradictory, bundle)
      else (Classify(envelope.value.status, contract.requirements, contract.contractRef, Values(rows)), bundle)
  }

  // ----- admission --------------------------------------------------------------------

  function FindSupport(catalog: seq<Support>, candidate: Candidate): Option<Support> {
    if catalog == [] then None
    else if catalog[0].candidate == candidate then Some(catalog[0])
    else FindSupport(catalog[1..], candidate)
  }

  predicate Witnessed(rows: seq<Option<Evidence>>, fact: string) {
    exists row | row in rows :: row.Some? && fact in row.value.facts
  }

  predicate Supported(support: Support, bundle: Bundle) {
    forall fact | fact in support.facts :: Witnessed(bundle.evidence, fact)
  }

  function Desired(intent: Intent): Epistemic {
    match intent
    case SuccessIntent => VerifiedSuccess
    case FailureIntent => VerifiedFailure
    case ObservationIntent => Unverified
  }

  function Demanded(intent: Intent): Option<Classification> {
    match intent
    case SuccessIntent => Some(Proven)
    case FailureIntent => Some(Disproven)
    case ObservationIntent => None
  }

  function Decision(intent: Intent): AdmitStatus {
    match intent
    case SuccessIntent => AdmittedSuccess
    case FailureIntent => AdmittedFailure
    case ObservationIntent => RetainedUnverified
  }

  predicate WellFormedReflection(r: ReflectionRequest) {
    0 < |r.requestId| <= 80 && 0 < Utf8(r.candidate.content) <= 1024 && |r.claim.text| <= 1024
  }

  /** What the checks conclude: a refusal, or the bundle and the supporting catalog row. */
  datatype Finding = Refuse(status: AdmitStatus, seen: Option<Bundle>, reached: Option<Classification>)
                   | Grounded(bundle: Bundle, classification: Classification, support: Support)

  predicate KnownExecution(d: Desk, ec: Option<ExecutionContext>) {
    ec.Some? ==> ec.value.executionId in d.cfg.executions
  }

  function Examine(m: Mem, d: Desk, ec: Option<ExecutionContext>, r: ReflectionRequest): Finding
    requires WellFormedConfig(d.cfg) && KnownExecution(d, ec)
  {
    if ec == None || !WellFormedReflection(r) then Refuse(RejectedUnsupported, None, None)
    else if !d.available || !m.available then Refuse(AdmitUnavailable, None, None)
    else
      var policy := PolicyState(m, ec.value);
      if policy.Some? then
        Refuse(if policy.value == Unavailable then AdmitUnavailable else RejectedUnsupported, None, None)
      else
        var (classification, bundle) := Resolve(d.cfg, DomainOf(m, ec.value), ec.value);
        var refused := (status: AdmitStatus) => Refuse(status, Some(bundle), Some(classification));
        if classification == Contradictory then refused(RejectedContradictory)
        else if classification == Unreachable then refused(AdmitUnavailable)
        else
          var support := FindSupport(d.cfg.catalog[ec.value.executionId], r.candidate);
          if support == None || !Supported(support.value, bundle) then refused(RejectedUnsupported)
          else if Demanded(r.candidate.intent).Some? && Demanded(r.candidate.intent).value != classification
          then refused(RejectedUnsupported)
          else Grounded(bundle, classification, support.value)
  }

  function ReflectionPrefix(c: string): string {
    Key(c, "reflection-")
  }

  function ReflectionEntry(m: Mem, ec: ExecutionContext, candidate: Candidate): Entry {
    var domain := if DomainOf(m, ec).Some? then DomainOf(m, ec).value else "";
    var epistemic := Desired(candidate.intent);
    Entry(Numbered(ReflectionPrefix(ec.contextId), FirstFree(m.raw.Keys, ReflectionPrefix(ec.contextId))),
          ec.contextId, domain, "PRIVATE", candidate.content, "outcome-admission",
          if epistemic == Unverified then AgentObservation else VerifiedOutcome, epistemic, Some(Reflected))
  }

  function ReflectionReceiptFor(e: Entry): ReflectionReceipt {
    ReflectionReceipt(e.id, e.provenance, e.epistemic)
  }

  /** The answer, and the entry to store when there is one. */
  datatype Ruling = Ruling(status: AdmitStatus, receipt: Option<ReflectionReceipt>, stored: Option<Entry>)

  function Rule(m: Mem, d: Desk, ec: Option<ExecutionContext>, r: ReflectionRequest): Ruling
    requires WellFormedConfig(d.cfg) && KnownExecution(d, ec)
  {
    var finding := Examine(m, d, ec, r);
    if finding.Refuse? then Ruling(finding.status, None, None)
    else
      var key := ReflectionKey(ec.value.executionId, r.requestId);
      if key in d.replays then
        if d.replays[key].fingerprint == SupportPrint(r.candidate, finding.bundle)
        then Ruling(Decision(r.candidate.intent), Some(d.replays[key].receipt), None)
        else Ruling(RejectedUnsupported, None, None)
      else
        var e := ReflectionEntry(m, ec.value, r.candidate);
        Ruling(Decision(r.candidate.intent), Some(ReflectionReceiptFor(e)), Some(e))
  }

  function AuditOf(ec: Option<ExecutionContext>, r: ReflectionRequest, f: Finding, status: AdmitStatus): OutcomeAudit {
    match f
    case Refuse(_, bundle, classification) => OutcomeAudit(r, ec, bundle, classification, status)
    case Grounded(bundle, classification, _) => OutcomeAudit(r, ec, Some(bundle), Some(classification), status)
  }

  ghost predicate DeskReady(d: Desk) {
    WellFormedConfig(d.cfg) && forall t | t in d.bindings :: d.bindings[t].executionId in d.cfg.executions
  }

  /** `admit`: both states afterwards, and the answer. */
  function Admit(m: Mem, d: Desk, token: nat, r: ReflectionRequest): (Mem, Desk, AdmitStatus, Option<ReflectionReceipt>)
    requires WellFormedConfig(d.cfg) && KnownExecution(d, Lookup(d.bindings, token))
  {
    var ec := Lookup(d.bindings, token);
    var f, ruling := Examine(m, d, ec, r), Rule(m, d, ec, r);
    var d' := d.(audit := d.audit + [AuditOf(ec, r, f, ruling.status)]);
    if ruling.stored == None then (m, d', ruling.status, ruling.receipt)
    else
      var e := ruling.stored.value;
      (Commit(m, e, false),
       d'.(provenance := d.provenance[e.id := Derivation(f.bundle, f.support)],
           replays := d.replays[ReflectionKey(ec.value.executionId, r.requestId) :=
                                  ReflectionReplay(SupportPrint(r.candidate, f.bundle), ruling.receipt.value)]),
       ruling.status, ruling.receipt)
  }

  /** `issue`: the context comes from trusted setup. */
  function IssueExecution(m: Mem, d: Desk, executionId: string): (Mem, Desk, Option<nat>) {
    if executionId !in d.cfg.executions then (m, d, None)
    else
      var (m', ec) := Begin(m, executionId, d.cfg.executions[executionId].contextId);
      if ec == None then (m, d, None)
      else (m', d.(bindings := d.bindings[d.issued := ec.value], issued := d.issued + 1), Some(d.issued))
  }
}
