/** When a promotion passes, how every other one ends, and what an admission leaves behind,
    said from the stored records and the scanners' subject matter. */
module PromotionMeaning {
  import opened Text
  import opened Records
  import opened Security
  import opened SecurityLaws
  import opened Promotion
  import opened PromotionLaws
  import T = ContextTrees
  import S = Scanners

  // ----- when a promotion passes ------------------------------------------------------

  /** Content of one to 1024 bytes, and names of one to 80 characters. */
  predicate PromotionInBounds(r: PromotionRequest) {
    && 1 <= Utf8(r.content) <= 1024
    && 1 <= |r.requestId| <= 80 && 1 <= |r.sourceId| <= 80 && 1 <= |r.destination| <= 80
  }

  /** The bound context's own entry, visible to it. */
  ghost predicate OwnSource(m: Mem, ec: ExecutionContext, id: string) {
    MayRead(m, ec, id) && m.raw[id].contextId == ec.contextId
  }

  /** A status the entry's provenance can have; the first edition knows no outcomes. */
  predicate OriginalStatus(edition: Edition, e: Entry) {
    || (e.provenance, e.epistemic) == (UserDeclaration, Declared)
    || (e.provenance, e.epistemic) == (AgentObservation, Unverified)
    || (edition == Second && (e.provenance, e.epistemic) == (VerifiedOutcome, VerifiedSuccess))
    || (edition == Second && (e.provenance, e.epistemic) == (VerifiedOutcome, VerifiedFailure))
  }

  /** One level up, on a route of the policy, with a status it admits. */
  predicate MayClimb(m: Mem, cfg: GateConfig, source: Entry, dest: string) {
    && source.contextId in m.cfg.nodes && m.cfg.nodes[source.contextId].parent == Some(dest)
    && (source.contextId, dest) in cfg.policy.routes
    && OriginalStatus(cfg.edition, source) && source.epistemic in cfg.policy.admissible
  }

  /** The destination belongs to another domain. */
  predicate Crosses(m: Mem, source: Entry, dest: string) {
    dest !in m.cfg.contextDomains || m.cfg.contextDomains[dest] != source.domain
  }

  /** Someone approved just this content of just this entry for just this destination. */
  predicate Approved(g: Gate, source: Entry, r: PromotionRequest) {
    exists a | a in g.approvals ::
      && a.sourceId == source.id && a.source == source && a.destination == r.destination && a.candidate == r.content
      && a.decision == "APPROVED" && a.reviewer == "synthetic-reviewer"
  }

  /** The required scanners run undisturbed. */
  ghost predicate Undisturbed(g: Gate, crossing: bool) {
    forall name | name in Required(g.cfg, crossing) && name in g.modes :: g.modes[name] == S.Normal
  }

  /** Gate and memory are on, with the expected policies. */
  ghost predicate GateOpen(m: Mem, g: Gate, ec: ExecutionContext) {
    && g.available && g.policy == Some(g.cfg.policy)
    && m.available && m.cfg.policy.Some? && Governed(m, m.cfg.policy.value, ec)
  }

  ghost predicate Passes(m: Mem, g: Gate, b: GateBinding, r: PromotionRequest) {
    && b.role == "SYSTEM_PROMOTION_SERVICE" && PromotionInBounds(r) && GateOpen(m, g, b.execution)
    && OwnSource(m, b.execution, r.sourceId)
    && var source := m.raw[r.sourceId];
       var crossing := Crosses(m, source, r.destination);
       && MayClimb(m, g.cfg, source, r.destination)
       && (crossing ==> Approved(g, source, r))
       && Undisturbed(g, crossing) && Vetted(g.cfg, crossing, source, r.content)
  }

  lemma OwnSourceIff(m: Mem, ec: ExecutionContext, id: string)
    requires Inv(m) && ec in m.executions
    ensures OwnSource(m, ec, id) <==> id in m.raw && m.raw[id].contextId == ec.contextId && Allowed(m, ec, id)
  {
    hide Inv, AllowedRaw, MayRead;
    ReadableIff(m, ec, id);
    NotInRaw(m, ec, id);
  }

  lemma ApprovedIff(g: Gate, source: Entry, r: PromotionRequest)
    ensures Approved(g, source, r) <==> Needed(source, r) in g.approvals
  {
  }

  lemma MayClimbIff(m: Mem, cfg: GateConfig, source: Entry, dest: string)
    ensures MayClimb(m, cfg, source, dest) <==>
            OnRoute(m, cfg.policy, source.contextId, dest) && StatusFits(cfg.edition, source)
            && source.epistemic in cfg.policy.admissible
  {
  }

  /** A stored entry never has the empty domain that stands for an unknown one. */
  lemma CrossesIff(m: Mem, ec: ExecutionContext, id: string, dest: string)
    requires PolicyState(m, ec) == None && id in m.raw
    ensures Crosses(m, m.raw[id], dest) <==> m.raw[id].domain != DomainAt(m.cfg, dest)
  {
    assert Classified(m.raw[id]);
  }

  lemma ScansIff(g: Gate, crossing: bool, content: string, source: Entry)
    ensures AllClean(ScanAll(g, Required(g.cfg, crossing), content, source.content)) <==>
            Undisturbed(g, crossing) && Vetted(g.cfg, crossing, source, content)
  {
    hide ScanAll, AllClean, S.NothingFound;
    CleanReportsIff(g, Required(g.cfg, crossing), content, source.content);
  }

  lemma JudgeSourcePasses(m: Mem, g: Gate, policy: PromotionPolicy, source: Entry, r: PromotionRequest)
    ensures JudgeSource(m, g, policy, source, r).Pass? <==>
            var crossing := source.domain != DomainAt(m.cfg, r.destination);
            && OnRoute(m, policy, source.contextId, r.destination) && StatusFits(g.cfg.edition, source)
            && source.epistemic in policy.admissible
            && (crossing ==> Needed(source, r) in g.approvals)
            && AllClean(ScanAll(g, Required(g.cfg, crossing), r.content, source.content))
  {
    hide OnRoute, StatusFits, Needed, ScanAll, AllClean, SomeUnavailable, OnlyMatches, DomainAt;
  }

  /** A promotion passes exactly when all of it is in order: the service's authority, bounds,
      switches and policies, the own visible source of original status, the route, the
      approval when domains differ, and in either case every required scanner. */
  lemma {:induction false} PassIff(m: Mem, g: Gate, b: GateBinding, r: PromotionRequest)
    requires Inv(m) && b.execution in m.executions
    ensures Judge(m, g, Some(b), r).Pass? <==> Passes(m, g, b, r)
  {
    hide *;
    var ec := b.execution;
    PolicyStateTable(m, ec);
    OwnSourceIff(m, ec, r.sourceId);
    JudgePasses(m, g, b, r);
    OwnIsStored(m, ec, r.sourceId);
    PassesParts(m, g, b, r);
    if r.sourceId in m.raw && PolicyState(m, ec) == None { SourcePasses(m, g, ec, r.sourceId, r); }
  }

  lemma PassesParts(m: Mem, g: Gate, b: GateBinding, r: PromotionRequest)
    ensures Passes(m, g, b, r) <==>
            && b.role == SERVICE && WellFormedPromotion(r) && g.available && g.policy == Some(g.cfg.policy)
            && m.available && m.cfg.policy.Some? && Governed(m, m.cfg.policy.value, b.execution)
            && OwnSource(m, b.execution, r.sourceId) && r.sourceId in m.raw
            && var source := m.raw[r.sourceId];
               var crossing := Crosses(m, source, r.destination);
               && MayClimb(m, g.cfg, source, r.destination) && (crossing ==> Approved(g, source, r))
               && Undisturbed(g, crossing) && Vetted(g.cfg, crossing, source, r.content)
  {
    OwnIsStored(m, b.execution, r.sourceId);
    hide Governed, OwnSource, Crosses, MayClimb, Approved, Undisturbed, Vetted;
  }

  lemma JudgePasses(m: Mem, g: Gate, b: GateBinding, r: PromotionRequest)
    ensures Judge(m, g, Some(b), r).Pass? <==>
            && b.role == SERVICE && WellFormedPromotion(r) && g.available && g.policy == Some(g.cfg.policy)
            && PolicyState(m, b.execution) == None && m.available
            && r.sourceId in m.raw && m.raw[r.sourceId].contextId == b.execution.contextId
            && Allowed(m, b.execution, r.sourceId)
            && JudgeSource(m, g, g.cfg.policy, m.raw[r.sourceId], r).Pass?
  {
    hide PolicyState, Allowed, JudgeSource;
  }

  lemma OwnIsStored(m: Mem, ec: ExecutionContext, id: string)
    ensures OwnSource(m, ec, id) ==> id in m.raw
  {
  }

  lemma SourcePasses(m: Mem, g: Gate, ec: ExecutionContext, id: string, r: PromotionRequest)
    requires PolicyState(m, ec) == None && id in m.raw
    ensures var source := m.raw[id];
            var crossing := Crosses(m, source, r.destination);
            JudgeSource(m, g, g.cfg.policy, source, r).Pass? <==>
            && MayClimb(m, g.cfg, source, r.destination) && (crossing ==> Approved(g, source, r))
            && Undisturbed(g, crossing) && Vetted(g.cfg, crossing, source, r.content)
  {
    var source := m.raw[id];
    JudgeSourcePasses(m, g, g.cfg.policy, source, r);
    MayClimbIff(m, g.cfg, source, r.destination);
    CrossesIff(m, ec, id, r.destination);
    ApprovedIff(g, source, r);
    ScansIff(g, Crosses(m, source, r.destination), r.content, source);
    hide JudgeSource, OnRoute, StatusFits, MayClimb, Approved, Vetted, Undisturbed, AllClean, ScanAll, Crosses,
         PolicyState, DomainAt, Needed, Required;
  }

  /** The gate with other secret patterns in force. */
  function WithFinder(g: Gate, find: (string, string) -> Option<seq<string>>): Gate {
    g.(cfg := g.cfg.(ops := S.TextOps(g.cfg.ops.lower, find)))
  }

  /** Across domains the configuration decides what is scanned: where it does not list the
      scanner for secrets, a promotion that passes does so whatever the patterns match. */
  lemma {:induction false} UnlistedSecretsPass(m: Mem, g: Gate, b: GateBinding, r: PromotionRequest,
                                               find: (string, string) -> Option<seq<string>>)
    requires Inv(m) && b.execution in m.executions && Judge(m, g, Some(b), r).Pass?
    requires Judge(m, g, Some(b), r).trail.crossing && "secret" !in g.cfg.scannerNames
    ensures Judge(m, WithFinder(g, find), Some(b), r).Pass?
  {
    hide *;
    var h := WithFinder(g, find);
    PassMeans(m, g, Some(b), r);
    CrossesIff(m, b.execution, r.sourceId, r.destination);
    PassIff(m, g, b, r);
    PassIff(m, h, b, r);
    PassesParts(m, g, b, r);
    PassesParts(m, h, b, r);
    FinderMattersNot(m, g, find, m.raw[r.sourceId], r);
  }

  lemma FinderMattersNot(m: Mem, g: Gate, find: (string, string) -> Option<seq<string>>, source: Entry,
                         r: PromotionRequest)
    requires "secret" !in g.cfg.scannerNames && Vetted(g.cfg, true, source, r.content)
    ensures var h := WithFinder(g, find);
            && h.available == g.available && h.policy == g.policy && h.cfg.policy == g.cfg.policy
            && Vetted(h.cfg, true, source, r.content)
            && MayClimb(m, h.cfg, source, r.destination) == MayClimb(m, g.cfg, source, r.destination)
            && Approved(h, source, r) == Approved(g, source, r) && Undisturbed(h, true) == Undisturbed(g, true)
  {
    hide S.NoClippedWindow, S.Tokens, Contains;
    var h := WithFinder(g, find);
    ApprovedIff(g, source, r);
    ApprovedIff(h, source, r);
    hide Approved;
    forall name | name in h.cfg.scannerNames
      ensures S.NothingFound(h.cfg.ops, name, r.content, source.content, h.cfg.manifest)
    {
      assert name in Required(g.cfg, true);
      assert S.NothingFound(g.cfg.ops, name, r.content, source.content, g.cfg.manifest);
    }
  }

  // ----- how every other one ends ------------------------------------------------------

  function ModeOf(g: Gate, name: string): S.Mode {
    if name in g.modes then g.modes[name] else S.Normal
  }

  ghost predicate SomeDown(g: Gate, names: seq<string>) {
    exists name | name in names :: ModeOf(g, name) == S.Unavailable
  }

  /** Some scanner neither is down nor can be relied on. */
  ghost predicate SomeBroken(g: Gate, names: seq<string>, content: string) {
    exists name | name in names :: Broken(g, name, content)
  }

  ghost predicate Broken(g: Gate, name: string, content: string) {
    || ModeOf(g, name) !in {S.Normal, S.Unavailable}
    || (ModeOf(g, name) == S.Normal && S.Raises(g.cfg.ops, name, content, g.cfg.manifest))
  }

  /** How a promotion ends that does not pass. */
  ghost function StopStatus(m: Mem, g: Gate, b: GateBinding, r: PromotionRequest): GateStatus {
    if b.role != "SYSTEM_PROMOTION_SERVICE" then RejectedAuthority
    else if !PromotionInBounds(r) then RejectedPolicy
    else if !g.available || g.policy == None then GateUnavailable
    else if g.policy != Some(g.cfg.policy) then RejectedPolicy
    else if !m.available || m.cfg.policy == None then GateUnavailable
    else if !Governed(m, m.cfg.policy.value, b.execution) || !OwnSource(m, b.execution, r.sourceId) then RejectedPolicy
    else SourceStop(m, g, m.raw[r.sourceId], r)
  }

  ghost function SourceStop(m: Mem, g: Gate, source: Entry, r: PromotionRequest): GateStatus {
    var crossing := Crosses(m, source, r.destination);
    if !MayClimb(m, g.cfg, source, r.destination) then RejectedPolicy
    else if crossing && !Approved(g, source, r) then RejectedSecurity
    else if SomeDown(g, Required(g.cfg, crossing)) then GateUnavailable
    else if SomeBroken(g, Required(g.cfg, crossing), r.content) then RejectedScanner
    else RejectedSecurity
  }

  lemma NothingFoundDoesNotRaise(g: Gate, name: string, content: string, source: string)
    requires S.NothingFound(g.cfg.ops, name, content, source, g.cfg.manifest)
    ensures !S.Raises(g.cfg.ops, name, content, g.cfg.manifest)
  {
    hide S.NoClippedWindow, S.Tokens;
  }

  lemma ReportAt(g: Gate, names: seq<string>, content: string, source: string, i: nat)
    requires i < |names|
    ensures var reports := ScanAll(g, names, content, source);
            && |reports| == |names|
            && (reports[i].1.Report? && reports[i].1.status == S.ScannerUnavailable <==>
                ModeOf(g, names[i]) == S.Unavailable)
            && (S.Admissible(reports[i].1, reports[i].0)
                || (reports[i].1.Report? && reports[i].1.status == S.Match) <==>
                ModeOf(g, names[i]) == S.Normal && !S.Raises(g.cfg.ops, names[i], content, g.cfg.manifest))
  {
    hide S.Scan, S.NothingFound, S.Raises, ScanAll;
    ScanAllAt(g, names, content, source);
    S.ReportMeans(g.cfg.ops, names[i], content, source, g.cfg.manifest, ModeOf(g, names[i]));
    S.CleanIff(g.cfg.ops, names[i], content, source, g.cfg.manifest, ModeOf(g, names[i]));
    if S.NothingFound(g.cfg.ops, names[i], content, source, g.cfg.manifest) {
      NothingFoundDoesNotRaise(g, names[i], content, source);
    }
  }

  lemma ScansEnd(g: Gate, names: seq<string>, content: string, source: string)
    ensures var reports := ScanAll(g, names, content, source);
            && (Promotion.SomeUnavailable(reports) <==> SomeDown(g, names))
            && (!SomeDown(g, names) ==> (OnlyMatches(reports) <==> !SomeBroken(g, names, content)))
  {
    hide S.Admissible, S.Raises, ScanAll, ModeOf;
    var reports := ScanAll(g, names, content, source);
    ScanAllAt(g, names, content, source);
    forall i | 0 <= i < |names|
      ensures reports[i] in reports && names[i] in names
      ensures reports[i].1.Report? && reports[i].1.status == S.ScannerUnavailable <==>
              ModeOf(g, names[i]) == S.Unavailable
      ensures S.Admissible(reports[i].1, reports[i].0) || (reports[i].1.Report? && reports[i].1.status == S.Match) <==>
              ModeOf(g, names[i]) == S.Normal && !S.Raises(g.cfg.ops, names[i], content, g.cfg.manifest)
    {
      ReportAt(g, names, content, source, i);
    }
    if name :| name in names && ModeOf(g, name) == S.Unavailable {
      var i :| 0 <= i < |names| && names[i] == name;
      assert reports[i] in reports;
    }
    if r :| r in reports && r.1.Report? && r.1.status == S.ScannerUnavailable {
      var i :| 0 <= i < |reports| && reports[i] == r;
      assert names[i] in names;
    }
    if !SomeDown(g, names) { BrokenIff(g, names, content, source); }
  }

  lemma BrokenIff(g: Gate, names: seq<string>, content: string, source: string)
    requires !SomeDown(g, names)
    ensures OnlyMatches(ScanAll(g, names, content, source)) <==> !SomeBroken(g, names, content)
  {
    hide S.Admissible, S.Raises, ScanAll, ModeOf;
    var reports := ScanAll(g, names, content, source);
    ScanAllAt(g, names, content, source);
    if SomeBroken(g, names, content) {
      var name :| name in names && Broken(g, name, content);
      var i :| 0 <= i < |names| && names[i] == name;
      ReportAt(g, names, content, source, i);
      assert reports[i] in reports;
    }
    if !OnlyMatches(reports) {
      var r :| r in reports && !S.Admissible(r.1, r.0) && !(r.1.Report? && r.1.status == S.Match);
      var i :| 0 <= i < |reports| && reports[i] == r;
      ReportAt(g, names, content, source, i);
      assert names[i] in names && Broken(g, names[i], content);
    }
  }

  lemma JudgeSourceStops(m: Mem, g: Gate, ec: ExecutionContext, id: string, r: PromotionRequest)
    requires PolicyState(m, ec) == None && id in m.raw && JudgeSource(m, g, g.cfg.policy, m.raw[id], r).Stop?
    ensures JudgeSource(m, g, g.cfg.policy, m.raw[id], r).status == SourceStop(m, g, m.raw[id], r)
  {
    var source := m.raw[id];
    MayClimbIff(m, g.cfg, source, r.destination);
    CrossesIff(m, ec, id, r.destination);
    ApprovedIff(g, source, r);
    ScansEnd(g, Required(g.cfg, Crosses(m, source, r.destination)), r.content, source.content);
    hide OnRoute, StatusFits, MayClimb, Approved, AllClean, ScanAll, Crosses, PolicyState, DomainAt, Needed,
         OnlyMatches, Promotion.SomeUnavailable, SomeDown, SomeBroken;
  }

  /** A refusal names its reason, the first in this order. */
  lemma {:induction false} StopsAs(m: Mem, g: Gate, b: GateBinding, r: PromotionRequest)
    requires Inv(m) && b.execution in m.executions && Judge(m, g, Some(b), r).Stop?
    ensures Judge(m, g, Some(b), r).status == StopStatus(m, g, b, r)
  {
    JudgeStops(m, g, b, r);
    hide *;
    PolicyStateTable(m, b.execution);
    OwnSourceIff(m, b.execution, r.sourceId);
    OwnIsStored(m, b.execution, r.sourceId);
    if r.sourceId in m.raw && PolicyState(m, b.execution) == None
       && JudgeSource(m, g, g.cfg.policy, m.raw[r.sourceId], r).Stop? {
      JudgeSourceStops(m, g, b.execution, r.sourceId, r);
    }
    StopStatusParts(m, g, b, r);
  }

  lemma JudgeStops(m: Mem, g: Gate, b: GateBinding, r: PromotionRequest)
    requires Judge(m, g, Some(b), r).Stop?
    ensures var state := PolicyState(m, b.execution);
            Judge(m, g, Some(b), r).status ==
            if b.role != SERVICE then RejectedAuthority
            else if !WellFormedPromotion(r) then RejectedPolicy
            else if !g.available || g.policy == None then GateUnavailable
            else if g.policy != Some(g.cfg.policy) then RejectedPolicy
            else if !m.available || state == Some(Unavailable) then GateUnavailable
            else if state.Some? || r.sourceId !in m.raw || m.raw[r.sourceId].contextId != b.execution.contextId
                    || !Allowed(m, b.execution, r.sourceId) then RejectedPolicy
            else JudgeSource(m, g, g.cfg.policy, m.raw[r.sourceId], r).status
    ensures b.role == SERVICE && WellFormedPromotion(r) && g.available && g.policy == Some(g.cfg.policy)
            && m.available && PolicyState(m, b.execution) == None && r.sourceId in m.raw
            && m.raw[r.sourceId].contextId == b.execution.contextId && Allowed(m, b.execution, r.sourceId)
            ==> JudgeSource(m, g, g.cfg.policy, m.raw[r.sourceId], r).Stop?
  {
    hide PolicyState, Allowed, JudgeSource, WellFormedPromotion;
  }

  lemma StopStatusParts(m: Mem, g: Gate, b: GateBinding, r: PromotionRequest)
    ensures StopStatus(m, g, b, r) ==
            if b.role != SERVICE then RejectedAuthority
            else if !WellFormedPromotion(r) then RejectedPolicy
            else if !g.available || g.policy == None then GateUnavailable
            else if g.policy != Some(g.cfg.policy) then RejectedPolicy
            else if !m.available || m.cfg.policy == None then GateUnavailable
            else if !Governed(m, m.cfg.policy.value, b.execution) || !OwnSource(m, b.execution, r.sourceId)
                    || r.sourceId !in m.raw then RejectedPolicy
            else SourceStop(m, g, m.raw[r.sourceId], r)
  {
    OwnIsStored(m, b.execution, r.sourceId);
    hide Governed, OwnSource, SourceStop;
  }

  // ----- one request ---------------------------------------------------------------------

  /** The entry of an admission: the candidate one level up, labelled as its own domain
      demands, with the source's provenance and status, marked by gate and policy. */
  ghost predicate IsPromoted(m: Mem, cfg: GateConfig, r: PromotionRequest, e: Entry)
    requires r.sourceId in m.raw
  {
    var source, prefix := m.raw[r.sourceId], r.destination + "::admission-";
    && e.contextId == r.destination && Lookup(m.cfg.contextDomains, r.destination) == Some(e.domain)
    && e.classification == (if e.domain == "public" then "PUBLIC" else "PRIVATE")
    && e.content == r.content && e.createdBy == "promotion-gate"
    && e.provenance == source.provenance && e.epistemic == source.epistemic
    && e.admission == Some(Promoted(if cfg.edition == First then "gate-v1" else "gate-v2", cfg.policy.version))
    && exists n: nat :: LeastFree(m.raw.Keys, prefix, n) && e.id == prefix + Decimal(n)
  }

  ghost predicate StoresPromotion(m: Mem, g: Gate, b: GateBinding, r: PromotionRequest, m': Mem, g': Gate,
                                  receipt: GateReceipt)
    requires r.sourceId in m.raw
  {
    var id, source := receipt.entryId, m.raw[r.sourceId];
    && id !in m.raw && id in m'.raw && m'.raw[id].id == id && IsPromoted(m, g.cfg, r, m'.raw[id])
    && m' == m.(raw := m.raw[id := m'.raw[id]],
                entries := m.entries[id := T.ScopedEntry(id, r.destination, OfEntry(m'.raw[id]))],
                bindings := m.bindings[m.bound := r.destination], bound := m.bound + 1)
    && receipt == GateReceipt(id, source.provenance, source.epistemic,
                              if g.cfg.edition == First then "gate-v1" else "gate-v2", g.cfg.policy.version)
    && g' == g.(audit := g'.audit, receipts := g.receipts[id := receipt],
                replays := g.replays[ReplayKey(b.execution.contextId, b.principal, r.requestId) :=
                                       Replay(Fingerprint(r, source, g.cfg.policy), receipt)])
  }

  /** What a request of a bound service token leaves behind. */
  ghost predicate Leaves(m: Mem, g: Gate, b: GateBinding, r: PromotionRequest, m': Mem, g': Gate, status: GateStatus,
                         receipt: Option<GateReceipt>) {
    var key := ReplayKey(b.execution.contextId, b.principal, r.requestId);
    if !Passes(m, g, b, r) then
      status == StopStatus(m, g, b, r) && receipt == None && m' == m && g' == g.(audit := g'.audit)
    else
      && r.sourceId in m.raw
      && if key in g.replays then
           && m' == m && g' == g.(audit := g'.audit)
           && if g.replays[key].fingerprint == Fingerprint(r, m.raw[r.sourceId], g.cfg.policy)
              then status == Admitted && receipt == Some(g.replays[key].receipt)
              else status == RejectedPolicy && receipt == None
         else status == Admitted && receipt.Some? && StoresPromotion(m, g, b, r, m', g', receipt.value)
  }

  /** A first passed request stores one promotion and remembers it; a repeated one returns
      that receipt, a different one under its key is refused; what does not pass is refused
      for its first reason. Nothing else changes, and each request is audited. */
  lemma {:induction false} PromoteLaw(m: Mem, g: Gate, token: nat, r: PromotionRequest)
    requires Inv(m) && TokensIssued(m, g)
    ensures var (m', g', status, receipt) := Promote(m, g, token, r);
            && |g'.audit| == |g.audit| + 1 && g'.audit[..|g.audit|] == g.audit
            && (var a := g'.audit[|g.audit|];
                a.request == r && a.binding == Lookup(g.bindings, token) && a.status == status && a.receipt == receipt)
            && (token !in g.bindings ==>
                  status == RejectedAuthority && receipt == None && m' == m && g' == g.(audit := g'.audit))
            && (token in g.bindings ==> Leaves(m, g, g.bindings[token], r, m', g', status, receipt))
  {
    AuditGrows(m, g, token, r);
    if token in g.bindings { LeavesCases(m, g, token, r); }
    hide Promote, Leaves, Inv;
  }

  lemma AuditGrows(m: Mem, g: Gate, token: nat, r: PromotionRequest)
    ensures var (m', g', status, receipt) := Promote(m, g, token, r);
            && |g'.audit| == |g.audit| + 1 && g'.audit[..|g.audit|] == g.audit
            && (var a := g'.audit[|g.audit|];
                a.request == r && a.binding == Lookup(g.bindings, token) && a.status == status && a.receipt == receipt)
            && (token !in g.bindings ==>
                  status == RejectedAuthority && receipt == None && m' == m && g' == g.(audit := g'.audit))
  {
    hide JudgeSource, PromotedEntry, PolicyState, Allowed, Commit;
  }

  lemma LeavesCases(m: Mem, g: Gate, token: nat, r: PromotionRequest)
    requires Inv(m) && TokensIssued(m, g) && token in g.bindings
    ensures var (m', g', status, receipt) := Promote(m, g, token, r);
            Leaves(m, g, g.bindings[token], r, m', g', status, receipt)
  {
    var b := g.bindings[token];
    assert b.execution in m.executions;
    hide Inv, Judge, StoresPromotion, Promote, StopStatus, Passes;
    PassIff(m, g, b, r);
    if Judge(m, g, Some(b), r).Stop? {
      StopsAs(m, g, b, r);
      StopCase(m, g, token, r);
    } else {
      PassMeans(m, g, Some(b), r);
      if KeyOf(b, r) in g.replays { RepeatedCase(m, g, token, r); } else { StoresCase(m, g, token, r); }
    }
  }

  lemma StopCase(m: Mem, g: Gate, token: nat, r: PromotionRequest)
    requires token in g.bindings && Judge(m, g, Some(g.bindings[token]), r).Stop?
    ensures var (m', g', status, receipt) := Promote(m, g, token, r);
            && status == Judge(m, g, Some(g.bindings[token]), r).status && receipt == None && m' == m
            && g' == g.(audit := g'.audit)
  {
    assert Lookup(g.bindings, token) == Some(g.bindings[token]);
    hide Judge, PromotedEntry;
  }

  lemma RepeatedCase(m: Mem, g: Gate, token: nat, r: PromotionRequest)
    requires token in g.bindings && Judge(m, g, Some(g.bindings[token]), r).Pass?
    requires KeyOf(g.bindings[token], r) in g.replays
    ensures var (m', g', status, receipt) := Promote(m, g, token, r);
            var first := g.replays[KeyOf(g.bindings[token], r)];
            && r.sourceId in m.raw && m' == m && g' == g.(audit := g'.audit)
            && if first.fingerprint == Fingerprint(r, m.raw[r.sourceId], g.cfg.policy)
               then status == Admitted && receipt == Some(first.receipt)
               else status == RejectedPolicy && receipt == None
  {
    assert Lookup(g.bindings, token) == Some(g.bindings[token]);
    PassMeans(m, g, Some(g.bindings[token]), r);
    hide Judge, PromotedEntry;
  }

  lemma PromoteStores(m: Mem, g: Gate, token: nat, r: PromotionRequest)
    requires token in g.bindings && Judge(m, g, Some(g.bindings[token]), r).Pass?
    requires KeyOf(g.bindings[token], r) !in g.replays
    ensures r.sourceId in m.raw
    ensures var (m', g', status, receipt) := Promote(m, g, token, r);
            var source := m.raw[r.sourceId];
            var e := PromotedEntry(m, g.cfg.edition, g.cfg.policy, source, r);
            && m' == Commit(m, e, true) && status == Admitted
            && receipt == Some(ReceiptFor(e, g.cfg.edition, g.cfg.policy))
            && g' == g.(audit := g'.audit, receipts := g.receipts[e.id := receipt.value],
                        replays := g.replays[KeyOf(g.bindings[token], r) :=
                                               Replay(Fingerprint(r, source, g.cfg.policy), receipt.value)])
  {
    assert Lookup(g.bindings, token) == Some(g.bindings[token]);
    PassMeans(m, g, Some(g.bindings[token]), r);
    hide Judge, PromotedEntry, Commit;
  }

  lemma PromotedEntryIs(m: Mem, g: Gate, r: PromotionRequest)
    requires r.sourceId in m.raw && r.destination in m.cfg.contextDomains
    ensures var e := PromotedEntry(m, g.cfg.edition, g.cfg.policy, m.raw[r.sourceId], r);
            && IsPromoted(m, g.cfg, r, e) && e.id !in m.raw && e.contextId == r.destination
            && e.provenance == m.raw[r.sourceId].provenance && e.epistemic == m.raw[r.sourceId].epistemic
  {
    var prefix := r.destination + "::admission-";
    assert Prefix(r.destination) == prefix;
    var n := FirstFree(m.raw.Keys, prefix);
    assert LeastFree(m.raw.Keys, prefix, n) && Numbered(prefix, n) == prefix + Decimal(n);
  }

  lemma StoresCase(m: Mem, g: Gate, token: nat, r: PromotionRequest)
    requires Inv(m) && token in g.bindings && Judge(m, g, Some(g.bindings[token]), r).Pass?
    requires KeyOf(g.bindings[token], r) !in g.replays
    ensures r.sourceId in m.raw
    ensures var (m', g', status, receipt) := Promote(m, g, token, r);
            && status == Admitted && receipt.Some?
            && StoresPromotion(m, g, g.bindings[token], r, m', g', receipt.value)
  {
    var b := g.bindings[token];
    PassMeans(m, g, Some(b), r);
    PromoteStores(m, g, token, r);
    DestinationIsKnown(m, b.execution, m.raw[r.sourceId].contextId, g.cfg.policy, r.destination);
    PromotedEntryIs(m, g, r);
    hide *;
    var (m', g', _, receipt) := Promote(m, g, token, r);
    StoresFrom(m, g, b, r, PromotedEntry(m, g.cfg.edition, g.cfg.policy, m.raw[r.sourceId], r), m', g', receipt.value);
  }

  lemma StoresFrom(m: Mem, g: Gate, b: GateBinding, r: PromotionRequest, e: Entry, m': Mem, g': Gate,
                   receipt: GateReceipt)
    requires r.sourceId in m.raw && e.id !in m.raw && e.contextId == r.destination && IsPromoted(m, g.cfg, r, e)
    requires e.provenance == m.raw[r.sourceId].provenance && e.epistemic == m.raw[r.sourceId].epistemic
    requires m' == Commit(m, e, true) && receipt == ReceiptFor(e, g.cfg.edition, g.cfg.policy)
    requires g' == g.(audit := g'.audit, receipts := g.receipts[e.id := receipt],
                      replays := g.replays[KeyOf(b, r) := Replay(Fingerprint(r, m.raw[r.sourceId], g.cfg.policy),
                      receipt)])
    ensures StoresPromotion(m, g, b, r, m', g', receipt)
  {
    hide IsPromoted;
  }

  lemma DestinationIsKnown(m: Mem, ec: ExecutionContext, c: string, policy: PromotionPolicy, dest: string)
    requires Inv(m) && PolicyState(m, ec) == None && OnRoute(m, policy, c, dest)
    ensures dest in m.cfg.contextDomains
  {
    hide PolicyState, Inv;
    InvHasTree(m);
    ParentInTree(m.cfg.nodes, c, dest);
    ValidDomains(m, ec);
  }

  /** `issue` registers a fresh token: its role and principal as asked, over a new execution
      of that name at that context. It fails exactly for an unknown context or an unbounded
      name, and then changes nothing. */
  lemma IssueLaw(m: Mem, g: Gate, contextId: string, role: string, name: string)
    requires TokensIssued(m, g)
    ensures var (m', g', token) := Issue(m, g, contextId, role, name);
            && (token.Some? <==> 1 <= |name| <= 80 && contextId in m.cfg.nodes)
            && (token == None ==> m' == m && g' == g)
            && (token.Some? ==>
                  && token.value !in g.bindings && token.value in g'.bindings
                  && (var b := g'.bindings[token.value];
                      && b.role == role && b.principal == name && b.execution in m'.executions
                      && b.execution.executionId == name && b.execution.contextId == contextId
                      && b.execution.token == m.issued
                      && g' == g.(bindings := g.bindings[token.value := b], issued := g'.issued)))
  {
  }
}
