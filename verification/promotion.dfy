/** The promotion gate: what it checks, in order, and what an admission changes. */
module Promotion {
  import opened Text
  import opened Records
  import opened Security
  import S = Scanners

  const SERVICE := "SYSTEM_PROMOTION_SERVICE"
  const REVIEWER := "synthetic-reviewer"

  datatype PromotionPolicy = PromotionPolicy(version: string, routes: seq<(string, string)>,
                                             admissible: seq<Epistemic>)

  /** The gate of the fifth experiment, and its copy in the seventh, which joins a desk's
      memory and also promotes verified outcomes. */
  datatype Edition = First | Second {
    function Text(): string {
      match this
      case First => "gate-v1"
      case Second => "gate-v2"
    }
  }

  /** Digests are injective, so an approval carries the digested values. */
  datatype Approval = Approval(sourceId: string, source: Entry, destination: string, candidate: string,
                               decision: string, reviewer: string)

  datatype GateBinding = GateBinding(execution: ExecutionContext, role: string, principal: string)

  datatype PromotionRequest = PromotionRequest(requestId: string, sourceId: string, destination: string,
                                               content: string)

  datatype GateStatus = Admitted | RejectedAuthority | RejectedPolicy | RejectedSecurity | RejectedScanner
                      | GateUnavailable

  datatype GateReceipt = GateReceipt(entryId: string, provenance: Provenance, epistemic: Epistemic,
                                     gateVersion: string, policyVersion: string)

  /** The digest of request, source and policy. */
  datatype Fingerprint = Fingerprint(request: PromotionRequest, source: Entry, policy: PromotionPolicy)

  datatype Replay = Replay(fingerprint: Fingerprint, receipt: GateReceipt)

  datatype ReplayKey = ReplayKey(contextId: string, principal: string, requestId: string)

  /** What a decision recorded on the way. */
  datatype Trail = Trail(source: Option<Entry>, crossing: bool, approval: Option<Approval>,
                         reports: seq<(string, S.Report)>)

  datatype Audit = Audit(request: PromotionRequest, binding: Option<GateBinding>, trail: Trail,
                         status: GateStatus, receipt: Option<GateReceipt>)

  /** What trusted setup fixes for the gate. */
  datatype GateConfig = GateConfig(edition: Edition, policy: PromotionPolicy, scannerNames: seq<string>,
                                   manifest: map<string, seq<string>>, ops: S.TextOps)

  datatype Gate = Gate(cfg: GateConfig, policy: Option<PromotionPolicy>, approvals: seq<Approval>,
                       modes: map<string, S.Mode>, available: bool,
                       bindings: map<nat, GateBinding>, issued: nat,
                       audit: seq<Audit>, receipts: map<string, GateReceipt>, replays: map<ReplayKey, Replay>)

  // ----- the checks ---------------------------------------------------------------

  datatype Verdict = Stop(status: GateStatus, trail: Trail) | Pass(source: Entry, trail: Trail)

  const NOTHING := Trail(None, false, None, [])

  predicate BoundedField(s: string) {
    0 < |s| <= 80
  }

  predicate WellFormedPromotion(r: PromotionRequest) {
    0 < Utf8(r.content) <= 1024 && BoundedField(r.requestId) && BoundedField(r.sourceId) && BoundedField(r.destination)
  }

  function DomainAt(cfg: Config, c: string): string {
    if c in cfg.contextDomains then cfg.contextDomains[c] else ""
  }

  /** The status an entry must have for its provenance; only the second edition knows
      verified outcomes. */
  predicate StatusFits(edition: Edition, e: Entry) {
    match e.provenance
    case UserDeclaration => e.epistemic == Declared
    case AgentObservation => e.epistemic == Unverified
    case VerifiedOutcome => edition == Second && e.epistemic in {VerifiedSuccess, VerifiedFailure}
  }

  predicate OnRoute(m: Mem, policy: PromotionPolicy, c: string, dest: string) {
    c in m.cfg.nodes && m.cfg.nodes[c].parent == Some(dest) && (c, dest) in policy.routes
  }

  function Needed(source: Entry, r: PromotionRequest): Approval {
    Approval(source.id, source, r.destination, r.content, "APPROVED", REVIEWER)
  }

  function ScanAll(g: Gate, names: seq<string>, content: string, source: string): seq<(string, S.Report)> {
    if names == [] then []
    else
      var mode := if names[0] in g.modes then g.modes[names[0]] else S.Normal;
      [(names[0], S.Scan(g.cfg.ops, names[0], content, source, g.cfg.manifest, mode))]
      + ScanAll(g, names[1..], content, source)
  }

  predicate AllClean(reports: seq<(string, S.Report)>) {
    forall r | r in reports :: S.Admissible(r.1, r.0)
  }

  predicate SomeUnavailable(reports: seq<(string, S.Report)>) {
    exists r | r in reports :: r.1.Report? && r.1.status == S.ScannerUnavailable
  }

  predicate OnlyMatches(reports: seq<(string, S.Report)>) {
    forall r | r in reports && !S.Admissible(r.1, r.0) :: r.1.Report? && r.1.status == S.Match
  }

  /** After the source is known: route, status, approval, scanners. */
  function JudgeSource(m: Mem, g: Gate, policy: PromotionPolicy, source: Entry, r: PromotionRequest): Verdict {
    var trail := NOTHING.(source := Some(source));
    if !OnRoute(m, policy, source.contextId, r.destination) then Stop(RejectedPolicy, trail)
    else if !StatusFits(g.cfg.edition, source) || source.epistemic !in policy.admissible
    then Stop(RejectedPolicy, trail)
    else
      var crossing := source.domain != DomainAt(m.cfg, r.destination);
      var trail := trail.(crossing := crossing);
      if crossing && Needed(source, r) !in g.approvals then Stop(RejectedSecurity, trail)
      else
        var reports := ScanAll(g, if crossing then g.cfg.scannerNames else [S.SECRET], r.content, source.content);
        var trail := trail.(approval := if crossing then Some(Needed(source, r)) else None, reports := reports);
        if AllClean(reports) then Pass(source, trail)
        else if SomeUnavailable(reports) then Stop(GateUnavailable, trail)
        else if !OnlyMatches(reports) then Stop(RejectedScanner, trail)
        else Stop(RejectedSecurity, trail)
  }

  /** Everything before the replay lookup. */
  function Judge(m: Mem, g: Gate, binding: Option<GateBinding>, r: PromotionRequest): Verdict {
    if binding == None || binding.value.role != SERVICE then Stop(RejectedAuthority, NOTHING)
    else if !WellFormedPromotion(r) then Stop(RejectedPolicy, NOTHING)
    else if !g.available || g.policy == None then Stop(GateUnavailable, NOTHING)
    else if g.policy.value != g.cfg.policy then Stop(RejectedPolicy, NOTHING)
    else
      var ec := binding.value.execution;
      var state := PolicyState(m, ec);
      if state == Some(Unavailable) || !m.available then Stop(GateUnavailable, NOTHING)
      else if state.Some? then Stop(RejectedPolicy, NOTHING)
      else if r.sourceId !in m.raw || m.raw[r.sourceId].contextId != ec.contextId || !Allowed(m, ec, r.sourceId)
      then Stop(RejectedPolicy, NOTHING)
      else JudgeSource(m, g, g.policy.value, m.raw[r.sourceId], r)
  }

  // ----- the admission --------------------------------------------------------------

  function Prefix(dest: string): string {
    Key(dest, "admission-")
  }

  function FreshId(m: Mem, dest: string): string {
    Numbered(Prefix(dest), FirstFree(m.raw.Keys, Prefix(dest)))
  }

  function PromotedEntry(m: Mem, edition: Edition, policy: PromotionPolicy, source: Entry, r: PromotionRequest): Entry {
    var domain := DomainAt(m.cfg, r.destination);
    Entry(FreshId(m, r.destination), r.destination, domain, if domain == PUBLIC then "PUBLIC" else "PRIVATE",
          r.content, "promotion-gate", source.provenance, source.epistemic,
          Some(Promoted(edition.Text(), policy.version)))
  }

  function ReceiptFor(e: Entry, edition: Edition, policy: PromotionPolicy): GateReceipt {
    GateReceipt(e.id, e.provenance, e.epistemic, edition.Text(), policy.version)
  }

  function KeyOf(binding: GateBinding, r: PromotionRequest): ReplayKey {
    ReplayKey(binding.execution.contextId, binding.principal, r.requestId)
  }

  /** How a request ends: the status, the receipt, and the entry it stores, if any. */
  datatype Outcome = Outcome(status: GateStatus, receipt: Option<GateReceipt>, stored: Option<Entry>, trail: Trail)

  function Decide(m: Mem, g: Gate, binding: Option<GateBinding>, r: PromotionRequest): Outcome {
    var verdict := Judge(m, g, binding, r);
    if verdict.Stop? then Outcome(verdict.status, None, None, verdict.trail)
    else
      var key, policy := KeyOf(binding.value, r), g.policy.value;
      if key in g.replays then
        if g.replays[key].fingerprint == Fingerprint(r, verdict.source, policy)
        then Outcome(Admitted, Some(g.replays[key].receipt), None, verdict.trail)
        else Outcome(RejectedPolicy, None, None, verdict.trail)
      else
        var e := PromotedEntry(m, g.cfg.edition, policy, verdict.source, r);
        Outcome(Admitted, Some(ReceiptFor(e, g.cfg.edition, policy)), Some(e), verdict.trail)
  }

  function Logged(g: Gate, binding: Option<GateBinding>, r: PromotionRequest, o: Outcome): Gate {
    g.(audit := g.audit + [Audit(r, binding, o.trail, o.status, o.receipt)])
  }

  /** `request_promotion`: both states afterwards, and the answer. */
  function Promote(m: Mem, g: Gate, token: nat, r: PromotionRequest): (Mem, Gate, GateStatus, Option<GateReceipt>) {
    var binding := Lookup(g.bindings, token);
    var o := Decide(m, g, binding, r);
    var g' := Logged(g, binding, r, o);
    if o.stored == None then (m, g', o.status, o.receipt)
    else
      var e := o.stored.value;
      (Commit(m, e, true),
       g'.(receipts := g.receipts[e.id := o.receipt.value],
           replays := g.replays[KeyOf(binding.value, r) :=
                                  Replay(Fingerprint(r, o.trail.source.value, g.policy.value), o.receipt.value)]),
       o.status, o.receipt)
  }

  /** `issue`: a token for a role, over a fresh execution. */
  function Issue(m: Mem, g: Gate, contextId: string, role: string, name: string): (Mem, Gate, Option<nat>) {
    var (m', ec) := Begin(m, name, contextId);
    if ec == None then (m, g, None)
    else (m', g.(bindings := g.bindings[g.issued := GateBinding(ec.value, role, name)], issued := g.issued + 1),
          Some(g.issued))
  }
}
