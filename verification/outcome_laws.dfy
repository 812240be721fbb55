/** What admitted outcomes rest on: verified reflections are earned by evidence, each
    is stored once, and what workers claim plays no part. */
module OutcomeLaws {
  import opened Text
  import opened Records
  import opened Security
  import opened Growth
  import opened Outcomes

  // ----- earned status -------------------------------------------------------------

  /** The envelope and every present row of the snapshot belong to this execution and
      its requirements. */
  ghost predicate Sound(b: Bundle) {
    && b.envelope.Some?
    && MatchesContract(b.envelope.value, b.executionId, b.contextId,
                       Contract(b.contextId, b.domain, b.requirements, b.contractRef))
    && |b.evidence| == |b.requirements|
    && (forall i | 0 <= i < |b.evidence| && b.evidence[i].Some? ::
          ValidEvidence(b.evidence[i].value, b.requirements[i], b.executionId, b.contextId, b.domain))
    && b.contractRef in RequirementIds(b.requirements)
  }

  ghost predicate NoneUnavailable(b: Bundle) {
    forall row | row in b.evidence :: ValueOf(row) != "UNAVAILABLE"
  }

  /** Success: claimed by the envelope, and every requirement met by its own evidence. */
  ghost predicate EarnedSuccess(b: Bundle) {
    && Sound(b) && NoneUnavailable(b) && b.envelope.value.status == "SUCCEEDED"
    && (forall i | 0 <= i < |b.evidence| ::
          ValueOf(b.evidence[i]) == b.requirements[i].success && !Negative(ValueOf(b.evidence[i])))
  }

  ghost predicate FailedAt(b: Bundle, i: nat)
    requires |b.evidence| == |b.requirements|
  {
    i < |b.evidence| && Negative(ValueOf(b.evidence[i])) && b.requirements[i].id != b.contractRef
  }

  /** Failure: claimed by the envelope, contract failed, and some other requirement too. */
  ghost predicate EarnedFailure(b: Bundle) {
    && Sound(b) && NoneUnavailable(b) && b.envelope.value.status == "FAILED"
    && ValueOf(b.evidence[IndexOf(RequirementIds(b.requirements), b.contractRef)]) == "FAIL"
    && exists i: nat :: FailedAt(b, i)
  }

  /** The snapshot justifies the status without anything else. */
  ghost predicate Justifies(b: Bundle, status: Epistemic) {
    match status
    case VerifiedSuccess => EarnedSuccess(b)
    case VerifiedFailure => EarnedFailure(b)
    case _ => false
  }

  lemma {:induction false} GatheredAreValid(cfg: OutcomeConfig, requirements: seq<Requirement>, x: string, c: string,
                                            domain: string)
    requires Gather(cfg, requirements, x, c, domain).0
    ensures var rows := Gather(cfg, requirements, x, c, domain).1;
            |rows| == |requirements| &&
            forall i | 0 <= i < |rows| && rows[i].Some? :: ValidEvidence(rows[i].value, requirements[i], x, c, domain)
  {
    if requirements != [] {
      GatheredAreValid(cfg, requirements[1..], x, c, domain);
      var rows := Gather(cfg, requirements, x, c, domain).1;
      forall i | 0 <= i < |rows| && rows[i].Some?
        ensures ValidEvidence(rows[i].value, requirements[i], x, c, domain)
      {
        if i > 0 { assert rows[i] == rows[1..][i - 1] && requirements[i] == requirements[1..][i - 1]; }
      }
    }
  }

  lemma ValuesHold(rows: seq<Option<Evidence>>, p: string)
    ensures p in Values(rows) <==> exists row | row in rows :: ValueOf(row) == p
  {
    if p in Values(rows) {
      var i :| 0 <= i < |rows| && Values(rows)[i] == p;
      assert rows[i] in rows && ValueOf(rows[i]) == p;
    }
    if row :| row in rows && ValueOf(row) == p {
      var i :| 0 <= i < |rows| && rows[i] == row;
      assert Values(rows)[i] == p;
    }
  }

  lemma ClassifySuccess(b: Bundle)
    requires Sound(b)
    ensures Classify(b.envelope.value.status, b.requirements, b.contractRef, Values(b.evidence)) == Proven <==>
            EarnedSuccess(b)
  {
    hide MatchesContract, ValidEvidence;
    var values := Values(b.evidence);
    ValuesHold(b.evidence, "UNAVAILABLE");
    if EarnedSuccess(b) {
      forall v | v in values ensures !Negative(v) {
        var i :| 0 <= i < |values| && values[i] == v;
      }
    }
    if Classify(b.envelope.value.status, b.requirements, b.contractRef, values) == Proven {
      forall i | 0 <= i < |b.evidence|
        ensures ValueOf(b.evidence[i]) == b.requirements[i].success && !Negative(ValueOf(b.evidence[i]))
      {
        assert values[i] in values;
      }
    }
  }

  lemma NegativeResults()
    ensures Negative("FAIL") && !Negative("PASS")
  {
  }

  lemma ClassifyFailure(b: Bundle)
    requires Sound(b)
    ensures Classify(b.envelope.value.status, b.requirements, b.contractRef, Values(b.evidence)) == Disproven <==>
            EarnedFailure(b)
  {
    hide MatchesContract, ValidEvidence, Negative;
    var values := Values(b.evidence);
    ValuesHold(b.evidence, "UNAVAILABLE");
    assert Negative("FAIL") && !Negative("PASS") by { NegativeResults(); }
    if EarnedFailure(b) {
      var i: nat :| FailedAt(b, i);
      assert Negative(values[i]) && b.requirements[i].id != b.contractRef;
    }
    if Classify(b.envelope.value.status, b.requirements, b.contractRef, values) == Disproven {
      var i :| 0 <= i < |values| && Negative(values[i]) && b.requirements[i].id != b.contractRef;
      assert FailedAt(b, i);
    }
  }

  /** A resolution is verified exactly when its own bundle earns it. */
  lemma ResolutionIsEarned(cfg: OutcomeConfig, bound: Option<string>, ec: ExecutionContext)
    requires WellFormedConfig(cfg) && ec.executionId in cfg.executions
    ensures var (classification, b) := Resolve(cfg, bound, ec);
            && b.executionId == ec.executionId && b.contextId == ec.contextId
            && (classification == Proven <==> EarnedSuccess(b) && bound == Some(b.domain))
            && (classification == Disproven <==> EarnedFailure(b) && bound == Some(b.domain))
  {
    hide MatchesContract, ValidEvidence, Classify, EarnedSuccess, EarnedFailure;
    var (classification, b) := Resolve(cfg, bound, ec);
    var x, contract := ec.executionId, cfg.executions[ec.executionId];
    EarnedIsSound(b);
    SameEnvelopeCheck(b, contract);
    if b.envelope.Some? && MatchesContract(b.envelope.value, x, ec.contextId, contract)
       && bound == Some(contract.domain) {
      var (ok, rows) := Gather(cfg, contract.requirements, x, ec.contextId, contract.domain);
      if ok {
        GatheredAreValid(cfg, contract.requirements, x, ec.contextId, contract.domain);
        ClassifySuccess(b);
        ClassifyFailure(b);
      } else {
        MalformedIsUnsound(cfg, contract.requirements, x, ec.contextId, contract.domain);
      }
    }
  }

  lemma SameEnvelopeCheck(b: Bundle, contract: Contract)
    requires b.domain == contract.domain && b.requirements == contract.requirements
             && b.contractRef == contract.contractRef
    ensures b.envelope.Some? ==>
              MatchesContract(b.envelope.value, b.executionId, b.contextId,
                              Contract(b.contextId, b.domain, b.requirements, b.contractRef)) ==
              MatchesContract(b.envelope.value, b.executionId, b.contextId, contract)
  {
  }

  lemma EarnedIsSound(b: Bundle)
    ensures EarnedSuccess(b) || EarnedFailure(b) ==> Sound(b)
  {
  }

  /** A snapshot cut off at a malformed row is recognisably unsound. */
  lemma {:induction false} MalformedIsUnsound(cfg: OutcomeConfig, requirements: seq<Requirement>, x: string, c: string,
                                              domain: string)
    requires !Gather(cfg, requirements, x, c, domain).0
    ensures var rows := Gather(cfg, requirements, x, c, domain).1;
            && 0 < |rows| <= |requirements| && rows[|rows| - 1].Some?
            && !ValidEvidence(rows[|rows| - 1].value, requirements[|rows| - 1], x, c, domain)
  {
    hide ValidEvidence;
    var row := Lookup(cfg.evidence, requirements[0].id);
    if !(row.Some? && !ValidEvidence(row.value, requirements[0], x, c, domain)) {
      MalformedIsUnsound(cfg, requirements[1..], x, c, domain);
    }
  }

  // ----- the desk's invariant ------------------------------------------------------------

  type Raw = map<string, Entry>
  type Derivations = map<string, Derivation>
  type Replays = map<ReflectionKey, ReflectionReplay>

  /** A verified entry that is no promotion has a stored snapshot that justifies its
      status. */
  ghost predicate VerifiedAreEarned(raw: Raw, provenance: Derivations) {
    forall id | id in raw && raw[id].provenance == VerifiedOutcome && !IsPromotion(raw[id]) ::
      id in provenance && Justifies(provenance[id].bundle, raw[id].epistemic)
  }

  /** Every fact the support names is carried by a row of the snapshot. */
  ghost predicate FactsCarried(support: Support, b: Bundle) {
    forall f | f in support.facts :: exists row | row in b.evidence :: row.Some? && f in row.value.facts
  }

  /** The stored entry is the supported candidate, and the snapshot carries its facts. */
  ghost predicate DerivedFrom(e: Entry, x: Derivation) {
    && e.admission == Some(Reflected) && e.content == x.support.candidate.content
    && e.epistemic == Desired(x.support.candidate.intent) && FactsCarried(x.support, x.bundle)
  }

  /** The support of every stored derivation is a row of the execution's own catalog. */
  ghost predicate FromCatalog(catalog: map<string, seq<Support>>, provenance: Derivations) {
    forall id | id in provenance ::
      var x := provenance[id];
      x.bundle.executionId in catalog && x.support in catalog[x.bundle.executionId]
  }

  ghost predicate DerivationsStored(raw: Raw, provenance: Derivations) {
    forall id | id in provenance :: id in raw && DerivedFrom(raw[id], provenance[id])
  }

  ghost predicate ReplayStored(raw: Raw, provenance: Derivations, rp: ReflectionReplay) {
    var id := rp.receipt.entryId;
    && id in provenance && id in raw && rp.receipt == ReflectionReceiptFor(raw[id])
    && provenance[id].bundle == rp.fingerprint.bundle
    && provenance[id].support.candidate == rp.fingerprint.candidate
  }

  /** Every replay record points at the one entry it stored, no two at the same. */
  ghost predicate ReplaysStored(raw: Raw, provenance: Derivations, replays: Replays) {
    && (forall k | k in replays :: ReplayStored(raw, provenance, replays[k]))
    && (forall k, l | k in replays && l in replays
       && replays[k].receipt.entryId == replays[l].receipt.entryId :: k == l)
  }

  /** Every token is for an execution that trusted setup names, at the context it names. */
  ghost predicate DeskTokens(m: Mem, d: Desk) {
    forall t | t in d.bindings ::
      && t < d.issued && d.bindings[t] in m.executions
      && d.bindings[t].executionId in d.cfg.executions
      && d.bindings[t].contextId == d.cfg.executions[d.bindings[t].executionId].contextId
  }

  ghost predicate DeskInv(m: Mem, d: Desk) {
    && DeskReady(d) && DeskTokens(m, d)
    && VerifiedAreEarned(m.raw, d.provenance) && DerivationsStored(m.raw, d.provenance)
    && FromCatalog(d.cfg.catalog, d.provenance)
    && ReplaysStored(m.raw, d.provenance, d.replays)
  }

  /** The memory grew without verified outcomes other than promoted ones. */
  ghost predicate Modest(a: Mem, b: Mem) {
    && Grows(a, b)
    && (forall ec | ec in a.executions :: ec in b.executions)
    && (forall id | id in b.raw && id !in a.raw && !IsPromotion(b.raw[id]) :: b.raw[id].provenance != VerifiedOutcome)
  }

  lemma ModestKeepsDeskInv(a: Mem, b: Mem, d: Desk)
    requires Modest(a, b) && DeskInv(a, d)
    ensures DeskInv(b, d)
  {
    hide Justifies, DerivedFrom;
  }

  // ----- one admission ----------------------------------------------------------------------

  lemma GroundedMeans(m: Mem, d: Desk, ec: Option<ExecutionContext>, r: ReflectionRequest)
    requires WellFormedConfig(d.cfg) && KnownExecution(d, ec) && Examine(m, d, ec, r).Grounded?
    ensures var f := Examine(m, d, ec, r);
            && ec.Some? && PolicyState(m, ec.value) == None && WellFormedReflection(r)
            && f.support.candidate == r.candidate && FactsCarried(f.support, f.bundle)
            && f.bundle.executionId == ec.value.executionId
            && f.support in d.cfg.catalog[ec.value.executionId]
            && Resolve(d.cfg, DomainOf(m, ec.value), ec.value) == (f.classification, f.bundle)
            && (Demanded(r.candidate.intent).Some? ==> f.classification == Demanded(r.candidate.intent).value)
  {
    hide PolicyState, Resolve;
    FoundSupport(d.cfg.catalog[ec.value.executionId], r.candidate);
    ResolvedNames(d.cfg, DomainOf(m, ec.value), ec.value);
  }

  lemma ResolvedNames(cfg: OutcomeConfig, bound: Option<string>, ec: ExecutionContext)
    requires WellFormedConfig(cfg) && ec.executionId in cfg.executions
    ensures Resolve(cfg, bound, ec).1.executionId == ec.executionId
  {
    hide MatchesContract, Gather, Classify;
  }

  lemma {:induction false} FoundSupport(catalog: seq<Support>, candidate: Candidate)
    ensures FindSupport(catalog, candidate).Some? ==>
              FindSupport(catalog, candidate).value in catalog
              && FindSupport(catalog, candidate).value.candidate == candidate
  {
    if catalog != [] { FoundSupport(catalog[1..], candidate); }
  }

  /** A verified intent is admitted only on a bundle that justifies it. */
  lemma GroundedJustifies(m: Mem, d: Desk, ec: Option<ExecutionContext>, r: ReflectionRequest)
    requires WellFormedConfig(d.cfg) && KnownExecution(d, ec) && Examine(m, d, ec, r).Grounded?
    requires r.candidate.intent != ObservationIntent
    ensures Justifies(Examine(m, d, ec, r).bundle, Desired(r.candidate.intent))
  {
    hide Examine, Resolve, EarnedSuccess, EarnedFailure;
    GroundedMeans(m, d, ec, r);
    ResolutionIsEarned(d.cfg, DomainOf(m, ec.value), ec.value);
  }

  lemma StoredRuling(m: Mem, d: Desk, ec: Option<ExecutionContext>, r: ReflectionRequest)
    requires WellFormedConfig(d.cfg) && KnownExecution(d, ec) && Rule(m, d, ec, r).stored.Some?
    ensures var f, ruling := Examine(m, d, ec, r), Rule(m, d, ec, r);
            && f.Grounded? && ec.Some? && PolicyState(m, ec.value) == None
            && ReflectionKey(ec.value.executionId, r.requestId) !in d.replays
            && ruling.stored == Some(ReflectionEntry(m, ec.value, r.candidate))
            && ruling.receipt == Some(ReflectionReceiptFor(ruling.stored.value))
            && ruling.status == Decision(r.candidate.intent)
  {
    hide Examine, PolicyState, ReflectionEntry;
    GroundedMeans(m, d, ec, r);
  }

  lemma ReflectionIsNew(m: Mem, ec: ExecutionContext, candidate: Candidate)
    ensures ReflectionEntry(m, ec, candidate).id !in m.raw
    ensures exists local :: OwnedKey(ReflectionEntry(m, ec, candidate), local)
  {
    var n := FirstFree(m.raw.Keys, ReflectionPrefix(ec.contextId));
    assert OwnedKey(ReflectionEntry(m, ec, candidate), "reflection-" + Decimal(n));
  }

  lemma IssuedDomain(m: Mem, ec: ExecutionContext)
    requires Identities(m) && ec in m.executions && PolicyState(m, ec) == None
    ensures DomainOf(m, ec).Some? && DomainOf(m, ec).value in DOMAINS
    ensures DomainOf(m, ec) == Lookup(m.cfg.contextDomains, ec.contextId) && ec.contextId in m.cfg.nodes
  {
  }

  lemma ReflectionIsCommittable(m: Mem, ec: ExecutionContext, candidate: Candidate)
    requires Inv(m) && ec in m.executions && PolicyState(m, ec) == None
    ensures Committable(m, ReflectionEntry(m, ec, candidate))
  {
    hide Inv, PolicyState;
    InvHasIdentities(m);
    IssuedDomain(m, ec);
    ReflectionIsNew(m, ec, candidate);
  }

  lemma CommittableGrows(m: Mem, e: Entry, bind: bool)
    requires Committable(m, e)
    ensures Grows(m, Commit(m, e, bind))
  {
    hide PolicyState;
    OwnedIsQualified(e);
    CommitGrows(m, e, bind);
  }

  lemma AdmissionGrows(m: Mem, d: Desk, token: nat, r: ReflectionRequest)
    requires Inv(m) && DeskReady(d) && DeskTokens(m, d)
    ensures Inv(Admit(m, d, token, r).0) && Grows(m, Admit(m, d, token, r).0)
  {
    hide Inv, Rule, Examine, Grows, Commit, Committable;
    GrowsItself(m);
    var ec := Lookup(d.bindings, token);
    if Rule(m, d, ec, r).stored.Some? {
      StoredRuling(m, d, ec, r);
      ReflectionIsCommittable(m, ec.value, r.candidate);
      CommitKeepsInv(m, Rule(m, d, ec, r).stored.value, false);
      CommittableGrows(m, Rule(m, d, ec, r).stored.value, false);
    }
  }

  lemma StoreKeepsVerified(raw: Raw, provenance: Derivations, e: Entry, x: Derivation)
    requires VerifiedAreEarned(raw, provenance) && e.id !in raw
    requires e.provenance == VerifiedOutcome ==> Justifies(x.bundle, e.epistemic)
    ensures VerifiedAreEarned(raw[e.id := e], provenance[e.id := x])
  {
    hide Justifies;
  }

  lemma StoreKeepsDerivations(raw: Raw, provenance: Derivations, e: Entry, x: Derivation)
    requires DerivationsStored(raw, provenance) && e.id !in raw && DerivedFrom(e, x)
    ensures DerivationsStored(raw[e.id := e], provenance[e.id := x])
  {
    hide DerivedFrom;
  }

  lemma StoreKeepsReplays(raw: Raw, provenance: Derivations, replays: Replays, e: Entry, x: Derivation,
                          k: ReflectionKey)
    requires ReplaysStored(raw, provenance, replays) && e.id !in raw && k !in replays
    ensures ReplaysStored(raw[e.id := e], provenance[e.id := x],
                          replays[k := ReflectionReplay(SupportPrint(x.support.candidate, x.bundle),
                          ReflectionReceiptFor(e))])
  {
  }

  lemma GroundedDerives(m: Mem, d: Desk, ec: Option<ExecutionContext>, r: ReflectionRequest)
    requires WellFormedConfig(d.cfg) && KnownExecution(d, ec) && Rule(m, d, ec, r).stored.Some?
    ensures var f, e := Examine(m, d, ec, r), Rule(m, d, ec, r).stored.value;
            && f.Grounded? && e.id !in m.raw && f.support.candidate == r.candidate
            && DerivedFrom(e, Derivation(f.bundle, f.support))
            && f.bundle.executionId in d.cfg.catalog && f.support in d.cfg.catalog[f.bundle.executionId]
            && (e.provenance == VerifiedOutcome ==> Justifies(f.bundle, e.epistemic))
  {
    hide Rule, Examine, Justifies, FactsCarried;
    StoredRuling(m, d, ec, r);
    GroundedMeans(m, d, ec, r);
    ReflectionIsNew(m, ec.value, r.candidate);
    if r.candidate.intent != ObservationIntent { GroundedJustifies(m, d, ec, r); }
  }

  /** What an admission that stores does to the books. */
  lemma StoringAdmission(m: Mem, d: Desk, token: nat, r: ReflectionRequest)
    requires DeskReady(d)
    ensures var ec := Lookup(d.bindings, token);
            var f, ruling, (m', d', _, _) := Examine(m, d, ec, r), Rule(m, d, ec, r), Admit(m, d, token, r);
            && d'.cfg == d.cfg && d'.bindings == d.bindings && d'.issued == d.issued && m'.executions == m.executions
            && (ruling.stored == None ==> m' == m && d'.provenance == d.provenance && d'.replays == d.replays)
            && (ruling.stored.Some? ==>
                  && f.Grounded? && ec.Some? && ReflectionKey(ec.value.executionId, r.requestId) !in d.replays
                  && m'.raw == m.raw[ruling.stored.value.id := ruling.stored.value]
                  && d'.provenance == d.provenance[ruling.stored.value.id := Derivation(f.bundle, f.support)]
                  && d'.replays == d.replays[ReflectionKey(ec.value.executionId, r.requestId) :=
                                               ReflectionReplay(SupportPrint(r.candidate, f.bundle),
                                                                ReflectionReceiptFor(ruling.stored.value))])
  {
    hide Rule, Examine;
    if Rule(m, d, Lookup(d.bindings, token), r).stored.Some? { StoredRuling(m, d, Lookup(d.bindings, token), r); }
  }

  /** The desk's invariant survives every admission. */
  lemma {:induction false} AdmitKeepsDeskInv(m: Mem, d: Desk, token: nat, r: ReflectionRequest)
    requires DeskInv(m, d)
    ensures DeskInv(Admit(m, d, token, r).0, Admit(m, d, token, r).1)
  {
    hide Rule, Examine, Admit, VerifiedAreEarned, DerivationsStored, ReplaysStored, DerivedFrom, Justifies,
         WellFormedConfig;
    var ec := Lookup(d.bindings, token);
    StoringAdmission(m, d, token, r);
    if Rule(m, d, ec, r).stored.Some? {
      var f, e := Examine(m, d, ec, r), Rule(m, d, ec, r).stored.value;
      var x := Derivation(f.bundle, f.support);
      GroundedDerives(m, d, ec, r);
      StoreKeepsVerified(m.raw, d.provenance, e, x);
      StoreKeepsDerivations(m.raw, d.provenance, e, x);
      StoreKeepsReplays(m.raw, d.provenance, d.replays, e, x, ReflectionKey(ec.value.executionId, r.requestId));
    }
  }

  lemma BeginIsModest(m: Mem, executionId: string, contextId: string)
    requires Identities(m)
    ensures Modest(m, Begin(m, executionId, contextId).0)
    ensures var (m', ec) := Begin(m, executionId, contextId);
            ec.Some? ==> && ec.value in m'.executions && ec.value.executionId == executionId
                         && ec.value.contextId == contextId
  {
    BeginGrows(m, executionId, contextId);
  }

  lemma IssueKeepsDeskInv(m: Mem, d: Desk, executionId: string)
    requires Inv(m) && DeskInv(m, d)
    ensures var (m', d', _) := IssueExecution(m, d, executionId); DeskInv(m', d')
  {
    hide VerifiedAreEarned, DerivationsStored, ReplaysStored, Inv, Begin, Modest, WellFormedConfig;
    if executionId in d.cfg.executions {
      var c := d.cfg.executions[executionId].contextId;
      InvHasIdentities(m);
      BeginIsModest(m, executionId, c);
      ModestKeepsDeskInv(m, Begin(m, executionId, c).0, d);
    }
  }

  /** `b` is the desk `a` at a later time: trusted records and switches may have changed. */
  ghost predicate DeskLater(a: Desk, b: Desk) {
    && b.cfg.executions == a.cfg.executions && b.cfg.catalog == a.cfg.catalog
    && (forall t | t in a.bindings :: t in b.bindings && b.bindings[t] == a.bindings[t])
    && (forall k | k in a.replays :: k in b.replays && b.replays[k] == a.replays[k])
    && (forall id | id in a.provenance :: id in b.provenance && b.provenance[id] == a.provenance[id])
  }

  lemma AdmissionIsLater(m: Mem, d: Desk, token: nat, r: ReflectionRequest)
    requires DeskInv(m, d)
    ensures DeskLater(d, Admit(m, d, token, r).1)
  {
    hide Rule, Examine, Admit, ReflectionEntry, Justifies, DerivedFrom, VerifiedAreEarned, FromCatalog, DeskTokens,
         WellFormedConfig, ReplayStored;
    StoringAdmission(m, d, token, r);
    if Rule(m, d, Lookup(d.bindings, token), r).stored.Some? {
      GroundedDerives(m, d, Lookup(d.bindings, token), r);
    }
  }

  /** An answered request is on record, with what it was decided on. */
  lemma AnsweredIsRecorded(m: Mem, d: Desk, token: nat, r: ReflectionRequest)
    requires DeskReady(d) && Admit(m, d, token, r).3.Some?
    ensures var (_, d', status, receipt) := Admit(m, d, token, r);
            && token in d.bindings && Examine(m, d, Some(d.bindings[token]), r).Grounded?
            && status == Decision(r.candidate.intent)
            && var key := ReflectionKey(d.bindings[token].executionId, r.requestId);
               key in d'.replays && d'.replays[key] ==
                 ReflectionReplay(SupportPrint(r.candidate, Examine(m, d, Some(d.bindings[token]), r).bundle),
                 receipt.value)
  {
    hide Examine, ReflectionEntry, WellFormedConfig;
    var ec := Lookup(d.bindings, token);
    if Examine(m, d, ec, r).Grounded? { GroundedMeans(m, d, ec, r); }
  }

  /** Exactly once: at any time after an answered request an identical one stores nothing.
      It gets the same receipt exactly when the checks pass and the trusted records give
      the bundle they gave then, and is refused otherwise. */
  lemma {:induction false} RepeatedReflection(m: Mem, d: Desk, token: nat, r: ReflectionRequest, m2: Mem, d2: Desk)
    requires DeskReady(d) && DeskReady(d2) && Admit(m, d, token, r).3.Some?
    requires DeskLater(Admit(m, d, token, r).1, d2)
    ensures token in d.bindings
    ensures var (m', d', status, receipt) := Admit(m2, d2, token, r);
            var first, again := Examine(m, d, Some(d.bindings[token]), r), Examine(m2, d2, Some(d.bindings[token]), r);
            && m' == m2 && d' == d2.(audit := d'.audit)
            && (receipt.Some? <==> again.Grounded? && again.bundle == first.bundle)
            && (receipt.Some? ==> receipt == Admit(m, d, token, r).3 && status == Admit(m, d, token, r).2)
  {
    hide Examine, ReflectionEntry, WellFormedConfig;
    AnsweredIsRecorded(m, d, token, r);
    assert Lookup(d2.bindings, token) == Some(d.bindings[token]);
  }

  /** While the switches are on, the policy is valid and the records are as they were, the
      checks pass again on the same bundle. */
  lemma {:induction false} ExamineAgain(m: Mem, d: Desk, ec: ExecutionContext, r: ReflectionRequest, m2: Mem, d2: Desk)
    requires WellFormedConfig(d.cfg) && d2.cfg == d.cfg && ec.executionId in d.cfg.executions
    requires Grows(m, m2) && ec in m.security && Examine(m, d, Some(ec), r).Grounded?
    requires m2.available && d2.available && PolicyState(m2, ec) == None
    ensures Examine(m2, d2, Some(ec), r) == Examine(m, d, Some(ec), r)
  {
    hide PolicyState, Resolve, Supported, FindSupport, GrowsRaw;
  }

  // ----- policy, exactly ---------------------------------------------------------------------

  /** Admission always writes a private entry. A valid policy survives that exactly when
      the bound domain is not the public one. */
  lemma {:induction false} AdmissionKeepsPolicyIff(m: Mem, d: Desk, token: nat, r: ReflectionRequest,
                                                   other: ExecutionContext)
    requires Inv(m) && DeskReady(d) && DeskTokens(m, d)
    requires Rule(m, d, Lookup(d.bindings, token), r).stored.Some? && PolicyState(m, other) == None
    ensures PolicyState(Admit(m, d, token, r).0, other) == None <==>
            DomainOf(m, d.bindings[token]) != Some(PUBLIC)
  {
    hide Rule, Examine, PolicyState, Inv;
    var ec := Lookup(d.bindings, token);
    StoredRuling(m, d, ec, r);
    var e := ReflectionEntry(m, ec.value, r.candidate);
    ReflectionIsNew(m, ec.value, r.candidate);
    CommitKeepsPolicyIff(m, other, e, false);
    InvHasIdentities(m);
    IssuedDomain(m, ec.value);
  }

  /** Once a public reflection is stored, the memory refuses every request for good. */
  lemma PublicReflectionLocksMemory(m: Mem, id: string, ec: ExecutionContext, caller: Caller, request: Request)
    requires id in m.raw && m.raw[id].domain == PUBLIC && m.raw[id].classification == "PRIVATE"
    ensures Handle(m, ec, caller, request).1.status in {Denied, Unavailable}
    ensures Handle(m, ec, caller, request).0 == m
  {
    assert !Classified(m.raw[id]);
  }

  // ----- claims ------------------------------------------------------------------------------

  predicate SameButClaim(a: ReflectionRequest, b: ReflectionRequest) {
    a.(claim := b.claim) == b && |a.claim.text| <= 1024 && |b.claim.text| <= 1024
  }

  predicate SameEntry(x: OutcomeAudit, y: OutcomeAudit) {
    x == y || (x.(request := y.request) == y && SameButClaim(x.request, y.request))
  }

  /** Equal up to the claims quoted in the audit. */
  ghost predicate SameDecisions(a: Desk, b: Desk) {
    && a.(audit := []) == b.(audit := [])
    && |a.audit| == |b.audit|
    && forall i | 0 <= i < |a.audit| :: SameEntry(a.audit[i], b.audit[i])
  }

  lemma ClaimsDoNotMatter(m: Mem, a: Desk, b: Desk, ec: Option<ExecutionContext>, r: ReflectionRequest,
                          s: ReflectionRequest)
    requires SameDecisions(a, b) && WellFormedConfig(a.cfg) && KnownExecution(a, ec) && SameButClaim(r, s)
    ensures WellFormedConfig(b.cfg) && KnownExecution(b, ec)
    ensures Examine(m, a, ec, r) == Examine(m, b, ec, s)
    ensures Rule(m, a, ec, r) == Rule(m, b, ec, s)
  {
    hide PolicyState, Resolve, Supported, FindSupport, ReflectionEntry;
    assert a.cfg == b.cfg && a.available == b.available && a.replays == b.replays by {
      assert a.(audit := []).cfg == b.(audit := []).cfg;
      assert a.(audit := []).available == b.(audit := []).available;
      assert a.(audit := []).replays == b.(audit := []).replays;
    }
  }

  /** Replacing a worker's claim by another changes no status, no receipt and nothing
      that is stored. */
  lemma {:induction false} AdmitIgnoresClaim(m: Mem, a: Desk, b: Desk, token: nat, r: ReflectionRequest,
                                             s: ReflectionRequest)
    requires SameDecisions(a, b) && DeskReady(a) && SameButClaim(r, s)
    ensures DeskReady(b)
    ensures Admit(m, a, token, r).0 == Admit(m, b, token, s).0
    ensures Admit(m, a, token, r).2 == Admit(m, b, token, s).2
    ensures Admit(m, a, token, r).3 == Admit(m, b, token, s).3
    ensures SameDecisions(Admit(m, a, token, r).1, Admit(m, b, token, s).1)
  {
    hide Rule, Examine, Commit, WellFormedConfig;
    assert a.(audit := []).bindings == b.(audit := []).bindings && a.(audit := []).cfg == b.(audit := []).cfg;
    ClaimsDoNotMatter(m, a, b, Lookup(a.bindings, token), r, s);
  }

  lemma AdmitSameRequest(m: Mem, a: Desk, b: Desk, token: nat, r: ReflectionRequest)
    requires SameDecisions(a, b) && DeskReady(a) && DeskReady(b)
    ensures Admit(m, a, token, r).0 == Admit(m, b, token, r).0
    ensures Admit(m, a, token, r).2 == Admit(m, b, token, r).2
    ensures Admit(m, a, token, r).3 == Admit(m, b, token, r).3
    ensures SameDecisions(Admit(m, a, token, r).1, Admit(m, b, token, r).1)
  {
    hide Rule, Examine, Commit, WellFormedConfig;
    assert a.(audit := []).bindings == b.(audit := []).bindings && a.(audit := []).cfg == b.(audit := []).cfg;
    SameDeskSameRuling(m, a, b, Lookup(a.bindings, token), r);
  }

  lemma SameDeskSameRuling(m: Mem, a: Desk, b: Desk, ec: Option<ExecutionContext>, r: ReflectionRequest)
    requires SameDecisions(a, b) && WellFormedConfig(a.cfg) && KnownExecution(a, ec)
    ensures WellFormedConfig(b.cfg) && KnownExecution(b, ec)
    ensures Examine(m, a, ec, r) == Examine(m, b, ec, r) && Rule(m, a, ec, r) == Rule(m, b, ec, r)
  {
    hide PolicyState, Resolve, Supported, FindSupport, ReflectionEntry;
    assert a.cfg == b.cfg && a.available == b.available && a.replays == b.replays by {
      assert a.(audit := []).cfg == b.(audit := []).cfg;
      assert a.(audit := []).available == b.(audit := []).available;
      assert a.(audit := []).replays == b.(audit := []).replays;
    }
  }
}
