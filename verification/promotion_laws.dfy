/** What holds of every gate, whatever requests and writes are interleaved: each
    admission happens once, keeps its origin, and passed the scanners. */
module PromotionLaws {
  import opened Text
  import opened Records
  import opened Security
  import opened Growth
  import opened Promotion
  import T = ContextTrees
  import S = Scanners

  // ----- what a stored promotion is -------------------------------------------------

  function PromotedIds(m: Mem): set<string> {
    set id | id in m.raw && IsPromotion(m.raw[id])
  }

  /** `e` represents `source` one level up: direct parent, allowed route, same
      provenance and epistemic status. */
  predicate Represents(m: Mem, policy: PromotionPolicy, source: Entry, e: Entry) {
    && OnRoute(m, policy, source.contextId, e.contextId)
    && e.provenance == source.provenance && e.epistemic == source.epistemic
    && IsPromotion(e)
  }

  /** The scanners a promotion must pass: at least the one for secrets, even within a domain. */
  function Required(cfg: GateConfig, crossing: bool): seq<string> {
    if crossing then cfg.scannerNames else ["secret"]
  }

  /** None of the required scanners has anything to find in the content. */
  ghost predicate Vetted(cfg: GateConfig, crossing: bool, source: Entry, content: string) {
    forall name | name in Required(cfg, crossing) ::
      S.NothingFound(cfg.ops, name, content, source.content, cfg.manifest)
  }

  /** One clean report of each required scanner, in order. */
  ghost predicate AllReported(cfg: GateConfig, crossing: bool, reports: seq<(string, S.Report)>) {
    var names := Required(cfg, crossing);
    && |reports| == |names|
    && forall i | 0 <= i < |names| :: reports[i] == (names[i], S.Report(names[i], S.Clean, []))
  }

  /** A replay record's receipt is registered and describes a stored promotion of the
      stored source it was fingerprinted with. */
  ghost predicate Backed(m: Mem, g: Gate, key: ReplayKey)
    requires key in g.replays
  {
    var rp := g.replays[key];
    var id, source := rp.receipt.entryId, rp.fingerprint.source;
    && id in g.receipts && g.receipts[id] == rp.receipt
    && id in m.raw && rp.receipt == ReceiptFor(m.raw[id], g.cfg.edition, g.cfg.policy)
    && source.id in m.raw && m.raw[source.id] == source
    && source.contextId == key.contextId && rp.fingerprint.request.requestId == key.requestId
    && rp.fingerprint.request.sourceId == source.id
    && m.raw[id].content == rp.fingerprint.request.content
    && m.raw[id].contextId == rp.fingerprint.request.destination
    && Represents(m, g.cfg.policy, source, m.raw[id])
    && Vetted(g.cfg, source.domain != m.raw[id].domain, source, m.raw[id].content)
  }

  ghost predicate AllBacked(m: Mem, g: Gate) {
    forall key | key in g.replays :: Backed(m, g, key)
  }

  /** Different keys were answered with different entries. */
  ghost predicate OneToOne(g: Gate) {
    forall k, l | k in g.replays && l in g.replays
                  && g.replays[k].receipt.entryId == g.replays[l].receipt.entryId :: k == l
  }

  ghost predicate Answered(g: Gate, id: string) {
    exists key :: key in g.replays && g.replays[key].receipt.entryId == id
  }

  /** Receipts are for stored promotions, and each came from a replay record. */
  ghost predicate ReceiptsStand(m: Mem, g: Gate) {
    && g.receipts.Keys <= PromotedIds(m)
    && forall id | id in g.receipts :: Answered(g, id)
  }

  /** An admission in the audit has a registered receipt, and every required scanner reported
      on it and had nothing to find. */
  ghost predicate Cleared(g: Gate, a: Audit) {
    && (a.status == Admitted <==> a.receipt.Some?)
    && (a.status == Admitted ==>
          && a.receipt.value.entryId in g.receipts && g.receipts[a.receipt.value.entryId] == a.receipt.value
          && a.trail.source.Some? && AllReported(g.cfg, a.trail.crossing, a.trail.reports)
          && Vetted(g.cfg, a.trail.crossing, a.trail.source.value, a.request.content)
          && (a.trail.crossing ==>
                && a.trail.approval == Some(Needed(a.trail.source.value, a.request))
                && (S.SOURCE_FRAGMENT in g.cfg.scannerNames ==>
                      !S.ShareWindow(S.Tokens(g.cfg.ops.lower(a.trail.source.value.content)),
                                     S.Tokens(g.cfg.ops.lower(a.request.content))))))
  }

  ghost predicate AllCleared(g: Gate) {
    forall a | a in g.audit :: Cleared(g, a)
  }

  ghost predicate TokensIssued(m: Mem, g: Gate) {
    forall t | t in g.bindings :: t < g.issued && g.bindings[t].execution in m.executions
  }

  ghost predicate GateInv(m: Mem, g: Gate) {
    AllBacked(m, g) && OneToOne(g) && ReceiptsStand(m, g) && AllCleared(g) && TokensIssued(m, g)
  }

  // ----- growth that the gate does not see ---------------------------------------------

  /** The memory grew, whoever wrote. */
  ghost predicate GrowsOn(a: Mem, b: Mem) {
    Grows(a, b) && forall ec | ec in a.executions :: ec in b.executions
  }

  /** The memory grew without a promotion. */
  ghost predicate Quiet(a: Mem, b: Mem) {
    GrowsOn(a, b) && forall id | id in b.raw && id !in a.raw :: !IsPromotion(b.raw[id])
  }

  lemma GrowthKeepsBacked(a: Mem, b: Mem, g: Gate)
    requires Grows(a, b) && AllBacked(a, g)
    ensures AllBacked(b, g)
  {
    forall key | key in g.replays ensures Backed(b, g, key) {
      assert Backed(a, g, key);
    }
  }

  /** A gate's own books stand, whatever others write or promote. */
  lemma GrowthKeepsGateInv(a: Mem, b: Mem, g: Gate)
    requires GrowsOn(a, b) && GateInv(a, g)
    ensures GateInv(b, g)
  {
    hide AllBacked, AllCleared, OneToOne;
    GrowthKeepsBacked(a, b, g);
  }

  /** Nothing a caller of the memory does is a promotion. */
  lemma StepIsQuiet(m: Mem, ev: Event)
    requires Inv(m)
    ensures Quiet(m, Step(m, ev))
  {
    hide Inv, Grows, Refusal, Written, Read, Step;
    StepGrows(m, ev);
    forall ec | ec in m.executions ensures ec in Step(m, ev).executions { IssuedStays(m, ev, ec); }
    if !ev.Calls? {
      OnlyCallsStore(m, ev);
    } else {
      CallEffect(m, ev);
      if Refusal(m, ev.ec, ev.caller, ev.request) == None && IsWrite(ev.request)
         && Written(m, ev.ec, ev.caller, ev.request).Some? {
        WrittenIsPlain(m, ev.ec, ev.caller, ev.request);
      }
    }
  }

  lemma OnlyCallsStore(m: Mem, ev: Event)
    requires !ev.Calls?
    ensures Step(m, ev).raw == m.raw
  {
  }

  lemma WrittenIsPlain(m: Mem, ec: ExecutionContext, caller: Caller, request: Request)
    requires IsWrite(request) && Written(m, ec, caller, request).Some?
    ensures Written(m, ec, caller, request).value.admission == None
  {
  }

  // ----- what a decision rests on --------------------------------------------------------

  lemma {:induction false} ScanReports(g: Gate, names: seq<string>, content: string, source: string, name: string)
    requires name in names
    ensures exists mode :: (name, S.Scan(g.cfg.ops, name, content, source, g.cfg.manifest, mode))
                           in ScanAll(g, names, content, source)
  {
    if names[0] == name {
      var mode := if name in g.modes then g.modes[name] else S.Normal;
      assert ScanAll(g, names, content, source)[0]
             == (name, S.Scan(g.cfg.ops, name, content, source, g.cfg.manifest, mode));
    } else {
      ScanReports(g, names[1..], content, source, name);
    }
  }

  /** Passing means: trusted service, valid policy, own visible source of original
      status, direct parent on a route, approval and clean scans when domains differ. */
  lemma PassMeans(m: Mem, g: Gate, binding: Option<GateBinding>, r: PromotionRequest)
    requires Judge(m, g, binding, r).Pass?
    ensures binding.Some? && binding.value.role == SERVICE && WellFormedPromotion(r)
    ensures g.policy == Some(g.cfg.policy) && PolicyState(m, binding.value.execution) == None
    ensures var v := Judge(m, g, binding, r);
            && r.sourceId in m.raw && v.source == m.raw[r.sourceId] && v.trail.source == Some(v.source)
            && v.source.contextId == binding.value.execution.contextId
            && Allowed(m, binding.value.execution, r.sourceId)
            && StatusFits(g.cfg.edition, v.source) && v.source.epistemic in g.cfg.policy.admissible
            && OnRoute(m, g.cfg.policy, v.source.contextId, r.destination)
            && AllClean(v.trail.reports)
            && v.trail.crossing == (v.source.domain != DomainAt(m.cfg, r.destination))
  {
    hide PolicyState, Allowed, ScanAll, AllClean, Needed;
  }

  lemma StopIsRefusal(m: Mem, g: Gate, binding: Option<GateBinding>, r: PromotionRequest)
    requires Judge(m, g, binding, r).Stop?
    ensures Judge(m, g, binding, r).status != Admitted
  {
    hide PolicyState, Allowed, ScanAll, AllClean, Needed, OnRoute;
  }

  lemma CrossingPass(m: Mem, g: Gate, binding: Option<GateBinding>, r: PromotionRequest)
    requires Judge(m, g, binding, r).Pass? && Judge(m, g, binding, r).trail.crossing
    ensures var v := Judge(m, g, binding, r);
            && v.trail.approval == Some(Needed(v.source, r)) && Needed(v.source, r) in g.approvals
            && v.trail.reports == ScanAll(g, g.cfg.scannerNames, r.content, v.source.content)
  {
    hide PolicyState, Allowed, ScanAll, AllClean, Needed, OnRoute;
  }

  /** No eight consecutive tokens cross a domain boundary. */
  lemma CrossingSharesNoWindow(m: Mem, g: Gate, binding: Option<GateBinding>, r: PromotionRequest)
    requires Judge(m, g, binding, r).Pass? && Judge(m, g, binding, r).trail.crossing
    requires S.SOURCE_FRAGMENT in g.cfg.scannerNames
    ensures !S.ShareWindow(S.Tokens(g.cfg.ops.lower(Judge(m, g, binding, r).source.content)),
                           S.Tokens(g.cfg.ops.lower(r.content)))
  {
    hide Judge, S.ShareWindow, S.Tokens, S.Scan, ScanAll;
    var v := Judge(m, g, binding, r);
    PassMeans(m, g, binding, r);
    CrossingPass(m, g, binding, r);
    ScanReports(g, g.cfg.scannerNames, r.content, v.source.content, S.SOURCE_FRAGMENT);
    var mode :| (S.SOURCE_FRAGMENT,
                 S.Scan(g.cfg.ops, S.SOURCE_FRAGMENT, r.content, v.source.content, g.cfg.manifest, mode))
                in v.trail.reports;
    S.CleanSharesNoWindow(g.cfg.ops, r.content, v.source.content, g.cfg.manifest, mode);
  }

  lemma {:induction false} ScanAllAt(g: Gate, names: seq<string>, content: string, source: string)
    ensures var reports := ScanAll(g, names, content, source);
            && |reports| == |names|
            && forall i | 0 <= i < |names| ::
                 reports[i] == (names[i], S.Scan(g.cfg.ops, names[i], content, source, g.cfg.manifest,
                                                 if names[i] in g.modes then g.modes[names[i]] else S.Normal))
  {
    hide S.Scan;
    if names != [] { ScanAllAt(g, names[1..], content, source); }
  }

  /** Clean reports of all names, exactly when every scanner runs undisturbed and none has
      anything to find. */
  lemma CleanReportsIff(g: Gate, names: seq<string>, content: string, source: string)
    ensures var reports := ScanAll(g, names, content, source);
            && |reports| == |names|
            && (AllClean(reports) <==>
                  forall i | 0 <= i < |names| :: reports[i] == (names[i], S.Report(names[i], S.Clean, [])))
            && (AllClean(reports) <==>
                  forall name | name in names ::
                    && S.NothingFound(g.cfg.ops, name, content, source, g.cfg.manifest)
                    && (name in g.modes ==> g.modes[name] == S.Normal))
  {
    hide S.Scan, S.NothingFound, ScanAll;
    var reports := ScanAll(g, names, content, source);
    ScanAllAt(g, names, content, source);
    forall i | 0 <= i < |names|
      ensures reports[i] == (names[i], S.Report(names[i], S.Clean, [])) <==>
              && S.NothingFound(g.cfg.ops, names[i], content, source, g.cfg.manifest)
              && (names[i] in g.modes ==> g.modes[names[i]] == S.Normal)
      ensures S.Admissible(reports[i].1, reports[i].0) <==> reports[i] == (names[i], S.Report(names[i], S.Clean, []))
    {
      S.CleanIff(g.cfg.ops, names[i], content, source, g.cfg.manifest,
                 if names[i] in g.modes then g.modes[names[i]] else S.Normal);
    }
    if AllClean(reports) {
      forall i | 0 <= i < |names| ensures S.Admissible(reports[i].1, reports[i].0) { assert reports[i] in reports; }
    }
  }

  /** Every passed promotion, within a domain or across, was reported clean by every required
      scanner in its normal mode, and holds nothing that one of them looks for. */
  lemma PassIsVetted(m: Mem, g: Gate, binding: Option<GateBinding>, r: PromotionRequest)
    requires Judge(m, g, binding, r).Pass?
    ensures var v := Judge(m, g, binding, r);
            && AllReported(g.cfg, v.trail.crossing, v.trail.reports)
            && Vetted(g.cfg, v.trail.crossing, v.source, r.content)
            && forall name | name in Required(g.cfg, v.trail.crossing) :: name in g.modes ==> g.modes[name] == S.Normal
  {
    var v := Judge(m, g, binding, r);
    PassScans(m, g, binding, r);
    hide Judge, ScanAll, S.NothingFound, AllClean;
    CleanReportsIff(g, Required(g.cfg, v.trail.crossing), r.content, v.source.content);
    ScanAllAt(g, Required(g.cfg, v.trail.crossing), r.content, v.source.content);
  }

  lemma PassScans(m: Mem, g: Gate, binding: Option<GateBinding>, r: PromotionRequest)
    requires Judge(m, g, binding, r).Pass?
    ensures var v := Judge(m, g, binding, r);
            && AllClean(v.trail.reports)
            && v.trail.reports == ScanAll(g, Required(g.cfg, v.trail.crossing), r.content, v.source.content)
  {
    hide PolicyState, Allowed, ScanAll, AllClean, Needed, OnRoute;
  }

  lemma FreshIdIsOwned(m: Mem, dest: string)
    ensures FreshId(m, dest) !in m.raw
    ensures exists local :: FreshId(m, dest) == Key(dest, local) && LocalId(local)
  {
    var n := FirstFree(m.raw.Keys, Prefix(dest));
    assert FreshId(m, dest) == Key(dest, "admission-" + Decimal(n));
  }

  lemma ParentInTree(nodes: Nodes, c: string, dest: string)
    requires T.RootedTree(nodes) && c in nodes && nodes[c].parent == Some(dest)
    ensures dest in nodes
  {
    T.TreeClimbs(nodes);
    T.ClimbsNeedParents(nodes);
  }

  /** The stored entry is one the memory may commit, correctly classified. */
  lemma {:induction false} StoredIsCommittable(m: Mem, g: Gate, binding: Option<GateBinding>, r: PromotionRequest)
    requires Inv(m) && Decide(m, g, binding, r).stored.Some?
    ensures Committable(m, Decide(m, g, binding, r).stored.value)
    ensures Classified(Decide(m, g, binding, r).stored.value)
  {
    hide Inv, Judge, FreshId, PolicyState, DomainsShape, T.RootedTree, Allowed;
    var e := Decide(m, g, binding, r).stored.value;
    PassMeans(m, g, binding, r);
    FreshIdIsOwned(m, r.destination);
    InvHasTree(m);
    ParentInTree(m.cfg.nodes, Judge(m, g, binding, r).source.contextId, r.destination);
    var local :| FreshId(m, r.destination) == Key(r.destination, local) && LocalId(local);
    assert OwnedKey(e, local);
    ValidDomains(m, binding.value.execution);
  }

  lemma InvHasTree(m: Mem)
    requires Inv(m)
    ensures T.RootedTree(m.cfg.nodes)
  {
  }

  lemma ValidDomains(m: Mem, ec: ExecutionContext)
    requires PolicyState(m, ec) == None
    ensures DomainsShape(m.cfg)
  {
  }

  // ----- one request --------------------------------------------------------------------

  /** Every request adds one audit record, and only an admission changes anything else;
      a repeated admission does not either. */
  lemma RequestFootprint(m: Mem, g: Gate, token: nat, r: PromotionRequest)
    ensures var (m', g', status, receipt) := Promote(m, g, token, r);
            && |g'.audit| == |g.audit| + 1 && g.audit <= g'.audit
            && g'.audit[|g.audit|].status == status && g'.audit[|g.audit|].receipt == receipt
            && g'.audit[|g.audit|].request == r
            && (status != Admitted ==> m' == m && g' == g.(audit := g'.audit) && receipt == None)
            && (status == Admitted ==> receipt.Some?)
            && (m' == m || m'.raw.Keys == m.raw.Keys + {receipt.value.entryId})
  {
    hide Judge, PromotedEntry;
    var binding := Lookup(g.bindings, token);
    if Judge(m, g, binding, r).Stop? { StopIsRefusal(m, g, binding, r); }
  }

  lemma PromotionGrows(m: Mem, g: Gate, token: nat, r: PromotionRequest)
    requires Inv(m)
    ensures Inv(Promote(m, g, token, r).0) && Grows(m, Promote(m, g, token, r).0)
  {
    hide Inv, Decide, Grows, Commit, Committable;
    GrowsItself(m);
    var binding := Lookup(g.bindings, token);
    var o := Decide(m, g, binding, r);
    if o.stored.Some? {
      StoredIsCommittable(m, g, binding, r);
      CommitKeepsInv(m, o.stored.value, true);
      CommittableIsNew(m, o.stored.value);
      CommitGrows(m, o.stored.value, true);
    }
  }

  lemma CommittableIsNew(m: Mem, e: Entry)
    requires Committable(m, e)
    ensures e.id !in m.raw && Qualified(e.id)
  {
    OwnedIsQualified(e);
  }

  /** A stored outcome: what it is made of. */
  lemma StoredMeans(m: Mem, g: Gate, binding: Option<GateBinding>, r: PromotionRequest)
    requires Decide(m, g, binding, r).stored.Some?
    ensures var o, v := Decide(m, g, binding, r), Judge(m, g, binding, r);
            && v.Pass? && o.status == Admitted && binding.Some? && g.policy.Some?
            && KeyOf(binding.value, r) !in g.replays
            && o.stored.value == PromotedEntry(m, g.cfg.edition, g.policy.value, v.source, r)
            && o.receipt == Some(ReceiptFor(o.stored.value, g.cfg.edition, g.policy.value))
            && o.trail == v.trail
  {
    hide Judge, PromotedEntry;
    PassMeans(m, g, binding, r);
  }

  lemma NewPromotionBacked(m: Mem, g: Gate, token: nat, r: PromotionRequest)
    requires Inv(m) && Decide(m, g, Lookup(g.bindings, token), r).stored.Some?
    ensures var (m', g', _, _) := Promote(m, g, token, r);
            var key := KeyOf(g.bindings[token], r);
            token in g.bindings && key in g'.replays && Backed(m', g', key)
  {
    hide Inv, Judge, Decide, FreshId, PolicyState, Allowed, AllClean, Vetted;
    var binding := Lookup(g.bindings, token);
    StoredMeans(m, g, binding, r);
    PassMeans(m, g, binding, r);
    PassIsVetted(m, g, binding, r);
    FreshIdIsOwned(m, r.destination);
    InvNames(m, r.sourceId);
  }

  lemma InvNames(m: Mem, id: string)
    requires Inv(m) && id in m.raw
    ensures m.raw[id].id == id
  {
  }

  lemma OldReplaysBacked(m: Mem, g: Gate, token: nat, r: PromotionRequest, key: ReplayKey)
    requires Inv(m) && AllBacked(m, g) && key in g.replays
    requires Decide(m, g, Lookup(g.bindings, token), r).stored.Some?
    ensures var (m', g', _, _) := Promote(m, g, token, r);
            key in g'.replays && g'.replays[key] == g.replays[key] && Backed(m', g', key)
  {
    hide Inv, Judge, Decide, PromotedEntry, Represents, Vetted;
    StoredMeans(m, g, Lookup(g.bindings, token), r);
    StoredIsNew(m, g, Lookup(g.bindings, token), r);
    assert Backed(m, g, key);
    StillRepresents(m, g.cfg.policy, Promote(m, g, token, r).0, g.replays[key].fingerprint.source,
                    m.raw[g.replays[key].receipt.entryId]);
  }

  lemma StillRepresents(m: Mem, policy: PromotionPolicy, m': Mem, source: Entry, e: Entry)
    requires m.cfg == m'.cfg
    ensures Represents(m, policy, source, e) == Represents(m', policy, source, e)
  {
  }

  lemma StoredIsNew(m: Mem, g: Gate, binding: Option<GateBinding>, r: PromotionRequest)
    requires Decide(m, g, binding, r).stored.Some?
    ensures Decide(m, g, binding, r).stored.value.id !in m.raw && IsPromotion(Decide(m, g, binding, r).stored.value)
  {
    hide Judge;
    FreshIdIsOwned(m, r.destination);
  }

  lemma PromoteKeepsBacked(m: Mem, g: Gate, token: nat, r: PromotionRequest)
    requires Inv(m) && AllBacked(m, g)
    ensures AllBacked(Promote(m, g, token, r).0, Promote(m, g, token, r).1)
  {
    hide Inv, Decide, Backed;
    var binding := Lookup(g.bindings, token);
    var (m', g', _, _) := Promote(m, g, token, r);
    if Decide(m, g, binding, r).stored.Some? {
      NewPromotionBacked(m, g, token, r);
      forall key | key in g'.replays ensures Backed(m', g', key) {
        if key in g.replays { OldReplaysBacked(m, g, token, r, key); }
      }
    } else {
      forall key | key in g'.replays ensures Backed(m', g', key) {
        assert Backed(m, g, key);
        SameBacking(m, g, g', key);
      }
    }
  }

  lemma SameBacking(m: Mem, g: Gate, g': Gate, key: ReplayKey)
    requires key in g.replays && g'.replays == g.replays && g'.receipts == g.receipts && g'.cfg == g.cfg
    requires Backed(m, g, key)
    ensures Backed(m, g', key)
  {
  }

  lemma PromoteKeepsOneToOne(m: Mem, g: Gate, token: nat, r: PromotionRequest)
    requires AllBacked(m, g) && OneToOne(g)
    ensures OneToOne(Promote(m, g, token, r).1)
  {
    hide Decide, Judge, PromotedEntry;
    var binding := Lookup(g.bindings, token);
    if Decide(m, g, binding, r).stored.Some? {
      StoredMeans(m, g, binding, r);
      StoredIsNew(m, g, binding, r);
      forall k | k in g.replays ensures g.replays[k].receipt.entryId in m.raw {
        assert Backed(m, g, k);
      }
    }
  }

  lemma PromoteKeepsReceipts(m: Mem, g: Gate, token: nat, r: PromotionRequest)
    requires ReceiptsStand(m, g)
    ensures ReceiptsStand(Promote(m, g, token, r).0, Promote(m, g, token, r).1)
    ensures PromotedIds(Promote(m, g, token, r).0) - PromotedIds(m)
            == Promote(m, g, token, r).1.receipts.Keys - g.receipts.Keys
    ensures g.receipts.Keys <= Promote(m, g, token, r).1.receipts.Keys
    ensures PromotedIds(m) <= PromotedIds(Promote(m, g, token, r).0)
  {
    hide Decide, Judge, PromotedEntry;
    var binding := Lookup(g.bindings, token);
    var (m', g', _, _) := Promote(m, g, token, r);
    if Decide(m, g, binding, r).stored.Some? {
      StoredMeans(m, g, binding, r);
      StoredIsNew(m, g, binding, r);
      var id := Decide(m, g, binding, r).stored.value.id;
      assert PromotedIds(m') == PromotedIds(m) + {id};
      forall i | i in g'.receipts ensures Answered(g', i) {
        if i == id {
          assert KeyOf(binding.value, r) in g'.replays;
        } else {
          assert Answered(g, i);
          var key :| key in g.replays && g.replays[key].receipt.entryId == i;
          assert key in g'.replays && g'.replays[key].receipt.entryId == i;
        }
      }
    } else {
      forall i | i in g'.receipts ensures Answered(g', i) { assert Answered(g, i); }
    }
  }

  lemma AdmittedTrail(m: Mem, g: Gate, binding: Option<GateBinding>, r: PromotionRequest)
    requires Decide(m, g, binding, r).status == Admitted
    ensures var t := Decide(m, g, binding, r).trail;
            && t.source.Some? && AllReported(g.cfg, t.crossing, t.reports)
            && Vetted(g.cfg, t.crossing, t.source.value, r.content)
            && (t.crossing ==>
                  && t.approval == Some(Needed(t.source.value, r))
                  && (S.SOURCE_FRAGMENT in g.cfg.scannerNames ==>
                        !S.ShareWindow(S.Tokens(g.cfg.ops.lower(t.source.value.content)),
                                       S.Tokens(g.cfg.ops.lower(r.content)))))
  {
    hide Judge, PromotedEntry, AllReported, Vetted, S.ShareWindow, S.Tokens;
    if Judge(m, g, binding, r).Stop? {
      StopIsRefusal(m, g, binding, r);
    } else {
      PassMeans(m, g, binding, r);
      PassIsVetted(m, g, binding, r);
      if Judge(m, g, binding, r).trail.crossing {
        CrossingPass(m, g, binding, r);
        if S.SOURCE_FRAGMENT in g.cfg.scannerNames { CrossingSharesNoWindow(m, g, binding, r); }
      }
    }
  }

  lemma LastAudit(m: Mem, g: Gate, token: nat, r: PromotionRequest)
    ensures var g', o := Promote(m, g, token, r).1, Decide(m, g, Lookup(g.bindings, token), r);
            && |g'.audit| == |g.audit| + 1 && g'.cfg == g.cfg
            && g'.audit[|g.audit|] == Audit(r, Lookup(g.bindings, token), o.trail, o.status, o.receipt)
  {
    hide Decide;
  }

  lemma AdmittedReceipt(m: Mem, g: Gate, token: nat, r: PromotionRequest)
    requires AllBacked(m, g)
    ensures var o, receipts := Decide(m, g, Lookup(g.bindings, token), r), Promote(m, g, token, r).1.receipts;
            && (o.status == Admitted <==> o.receipt.Some?)
            && (o.status == Admitted ==>
                  o.receipt.value.entryId in receipts && receipts[o.receipt.value.entryId] == o.receipt.value)
  {
    hide Judge, PromotedEntry;
    var binding := Lookup(g.bindings, token);
    if Judge(m, g, binding, r).Stop? {
      StopIsRefusal(m, g, binding, r);
    } else {
      PassMeans(m, g, binding, r);
      if KeyOf(binding.value, r) in g.replays { assert Backed(m, g, KeyOf(binding.value, r)); }
    }
  }

  lemma AdmittedIsCleared(m: Mem, g: Gate, token: nat, r: PromotionRequest)
    requires AllBacked(m, g)
    ensures var g' := Promote(m, g, token, r).1;
            |g'.audit| == |g.audit| + 1 && Cleared(g', g'.audit[|g.audit|])
  {
    hide Decide, Promote, AllBacked, AllReported, Vetted, S.ShareWindow, S.Tokens;
    LastAudit(m, g, token, r);
    AdmittedReceipt(m, g, token, r);
    if Decide(m, g, Lookup(g.bindings, token), r).status == Admitted {
      AdmittedTrail(m, g, Lookup(g.bindings, token), r);
    }
  }

  lemma ReceiptsStay(m: Mem, g: Gate, token: nat, r: PromotionRequest, id: string)
    requires ReceiptsStand(m, g) && id in g.receipts
    ensures id in Promote(m, g, token, r).1.receipts && Promote(m, g, token, r).1.receipts[id] == g.receipts[id]
  {
    hide Decide;
    var binding := Lookup(g.bindings, token);
    if Decide(m, g, binding, r).stored.Some? { StoredIsNew(m, g, binding, r); }
  }

  lemma StillCleared(g: Gate, g': Gate, a: Audit)
    requires Cleared(g, a) && g'.cfg == g.cfg
    requires forall id | id in g.receipts :: id in g'.receipts && g'.receipts[id] == g.receipts[id]
    ensures Cleared(g', a)
  {
  }

  lemma PromoteKeepsCleared(m: Mem, g: Gate, token: nat, r: PromotionRequest)
    requires AllBacked(m, g) && ReceiptsStand(m, g) && AllCleared(g)
    ensures AllCleared(Promote(m, g, token, r).1)
  {
    hide Cleared, Decide, AllBacked, ReceiptsStand;
    var g' := Promote(m, g, token, r).1;
    assert g'.cfg == g.cfg;
    RequestFootprint(m, g, token, r);
    hide Promote;
    AdmittedIsCleared(m, g, token, r);
    forall id | id in g.receipts ensures id in g'.receipts && g'.receipts[id] == g.receipts[id] {
      ReceiptsStay(m, g, token, r, id);
    }
    forall a | a in g'.audit ensures Cleared(g', a) {
      var i :| 0 <= i < |g'.audit| && g'.audit[i] == a;
      if i < |g.audit| {
        assert g.audit[i] == a && a in g.audit;
        StillCleared(g, g', a);
      }
    }
  }

  lemma PromoteKeepsTokens(m: Mem, g: Gate, token: nat, r: PromotionRequest)
    requires TokensIssued(m, g)
    ensures TokensIssued(Promote(m, g, token, r).0, Promote(m, g, token, r).1)
  {
    hide Decide;
  }

  /** The gate's invariant survives every request. */
  lemma {:induction false} PromoteKeepsGateInv(m: Mem, g: Gate, token: nat, r: PromotionRequest)
    requires Inv(m) && GateInv(m, g)
    ensures GateInv(Promote(m, g, token, r).0, Promote(m, g, token, r).1)
  {
    hide Inv, Promote, AllBacked, OneToOne, ReceiptsStand, AllCleared, TokensIssued;
    PromoteKeepsBacked(m, g, token, r);
    PromoteKeepsOneToOne(m, g, token, r);
    PromoteKeepsReceipts(m, g, token, r);
    PromoteKeepsCleared(m, g, token, r);
    PromoteKeepsTokens(m, g, token, r);
  }

  lemma IssueKeepsGateInv(m: Mem, g: Gate, contextId: string, role: string, name: string)
    requires Inv(m) && GateInv(m, g)
    ensures GateInv(Issue(m, g, contextId, role, name).0, Issue(m, g, contextId, role, name).1)
  {
    hide Inv, GrowsOn, AllBacked, AllCleared, ReceiptsStand, OneToOne;
    var (m', g', _) := Issue(m, g, contextId, role, name);
    StepIsQuiet(m, Begins(name, contextId));
    GrowthKeepsGateInv(m, m', g);
    SameBooks(m', g, g');
    BeginIssues(m, name, contextId);
  }

  lemma BeginIssues(m: Mem, name: string, contextId: string)
    ensures var (m', ec) := Begin(m, name, contextId); ec.Some? ==> ec.value in m'.executions
  {
  }

  /** Only the books matter to what they promise. */
  lemma SameBooks(m: Mem, g: Gate, g': Gate)
    requires g'.cfg == g.cfg && g'.audit == g.audit && g'.receipts == g.receipts && g'.replays == g.replays
    requires AllBacked(m, g) && OneToOne(g) && ReceiptsStand(m, g) && AllCleared(g)
    ensures AllBacked(m, g') && OneToOne(g') && ReceiptsStand(m, g') && AllCleared(g')
  {
    hide Backed, Cleared;
    forall key | key in g'.replays ensures Backed(m, g', key) {
      assert Backed(m, g, key);
      SameBacking(m, g, g', key);
    }
    forall a | a in g'.audit ensures Cleared(g', a) {
      StillCleared(g, g', a);
    }
    forall id | id in g'.receipts ensures Answered(g', id) {
      assert Answered(g, id);
    }
  }

  // ----- exactly once ------------------------------------------------------------------------

  /** Later states of memory and gate: both only add. */
  ghost predicate Later(m: Mem, g: Gate, m': Mem, g': Gate) {
    Grows(m, m') && LaterBooks(g, g')
  }

  ghost predicate LaterBooks(g: Gate, g': Gate) {
    && g'.cfg == g.cfg
    && (forall t | t in g.bindings :: t in g'.bindings && g'.bindings[t] == g.bindings[t])
    && (forall k | k in g.replays :: k in g'.replays && g'.replays[k] == g.replays[k])
  }

  /** After an admission, an identical request that passes the checks again - then or
      at any later time - is answered with the same receipt, and the store stays as it
      is; only the audit grows. */
  lemma {:induction false} RetryReturnsSameReceipt(m: Mem, g: Gate, token: nat, r: PromotionRequest, m2: Mem, g2: Gate)
    requires Inv(m) && Promote(m, g, token, r).2 == Admitted
    requires Later(Promote(m, g, token, r).0, Promote(m, g, token, r).1, m2, g2)
    requires Judge(m2, g2, Lookup(g2.bindings, token), r).Pass?
    ensures Promote(m2, g2, token, r).2 == Admitted
    ensures Promote(m2, g2, token, r).3 == Promote(m, g, token, r).3
    ensures Promote(m2, g2, token, r).0 == m2
    ensures Promote(m2, g2, token, r).1 == g2.(audit := Promote(m2, g2, token, r).1.audit)
  {
    hide Judge, PromotedEntry, Inv, Grows;
    AdmittedIsRecorded(m, g, token, r);
    PassMeans(m2, g2, Lookup(g2.bindings, token), r);
    var (m1, g1, _, _) := Promote(m, g, token, r);
    SourceUnchanged(m1, m2, r.sourceId);
    PromotionGrows(m, g, token, r);
    SourceUnchanged(m, m1, r.sourceId);
  }

  lemma SourceUnchanged(a: Mem, b: Mem, id: string)
    requires Grows(a, b)
    ensures id in a.raw ==> id in b.raw && b.raw[id] == a.raw[id]
  {
  }

  /** An admission, first or repeated, leaves the matching replay record behind. */
  lemma AdmittedIsRecorded(m: Mem, g: Gate, token: nat, r: PromotionRequest)
    requires Promote(m, g, token, r).2 == Admitted
    ensures token in g.bindings && token in Promote(m, g, token, r).1.bindings
    ensures r.sourceId in m.raw
    ensures var (_, g', _, receipt) := Promote(m, g, token, r);
            var key := KeyOf(g.bindings[token], r);
            && g'.bindings[token] == g.bindings[token] && g'.cfg == g.cfg
            && receipt.Some? && key in g'.replays
            && g'.replays[key] == Replay(Fingerprint(r, m.raw[r.sourceId], g.cfg.policy), receipt.value)
  {
    hide Judge, PromotedEntry;
    var binding := Lookup(g.bindings, token);
    if Judge(m, g, binding, r).Stop? {
      StopIsRefusal(m, g, binding, r);
    } else {
      PassMeans(m, g, binding, r);
    }
  }

  /** The checks look at the source, the approvals, the modes and the switches only, so
      a retry passes again while those stand. */
  lemma {:induction false} PassAgain(m: Mem, g: Gate, binding: Option<GateBinding>, r: PromotionRequest, m2: Mem,
                                     g2: Gate)
    requires Judge(m, g, binding, r).Pass? && Grows(m, m2) && binding.Some? && binding.value.execution in m.security
    requires g2.cfg == g.cfg && g2.policy == g.policy && g2.approvals == g.approvals && g2.modes == g.modes
    requires g2.available && m2.available && PolicyState(m2, binding.value.execution) == None
    ensures Judge(m2, g2, binding, r) == Judge(m, g, binding, r)
  {
    hide PolicyState, AllowedRaw, ScanAll, OnRoute;
    PassMeans(m, g, binding, r);
    StillAllowed(m, m2, binding.value.execution, r.sourceId);
    ScansAgain(g, g2, g.cfg.scannerNames, r.content, m.raw[r.sourceId].content);
    ScansAgain(g, g2, [S.SECRET], r.content, m.raw[r.sourceId].content);
    SameRoutes(m, m2, g.policy.value, m.raw[r.sourceId].contextId, r.destination);
  }

  lemma SameRoutes(m: Mem, m2: Mem, policy: PromotionPolicy, c: string, dest: string)
    requires m.cfg == m2.cfg
    ensures OnRoute(m, policy, c, dest) == OnRoute(m2, policy, c, dest)
  {
  }

  lemma {:induction false} ScansAgain(g: Gate, g2: Gate, names: seq<string>, content: string, source: string)
    requires g2.cfg == g.cfg && g2.modes == g.modes
    ensures ScanAll(g2, names, content, source) == ScanAll(g, names, content, source)
  {
    if names != [] { ScansAgain(g, g2, names[1..], content, source); }
  }

  /** Every stored promotion has its receipt at one of the gates. */
  ghost predicate Accounted(m: Mem, gates: seq<Gate>) {
    forall id | id in PromotedIds(m) :: HasReceipt(gates, id)
  }

  ghost predicate HasReceipt(gates: seq<Gate>, id: string) {
    exists k | 0 <= k < |gates| :: id in gates[k].receipts
  }

  /** Replay records and receipts are equally many, and so are the stored promotions when no
      other gate promotes. */
  lemma BooksBalance(m: Mem, g: Gate)
    requires GateInv(m, g)
    ensures |g.replays| == |g.receipts|
    ensures Accounted(m, [g]) ==> |g.receipts| == |PromotedIds(m)|
  {
    hide AllBacked, AllCleared, TokensIssued;
    if Accounted(m, [g]) {
      forall id | id in PromotedIds(m) ensures id in g.receipts { assert HasReceipt([g], id); }
      assert g.receipts.Keys == PromotedIds(m);
    }
    assert |g.receipts| == |g.receipts.Keys| && |g.replays| == |g.replays.Keys|;
    forall k | k in g.replays.Keys ensures g.replays[k].receipt.entryId in g.receipts.Keys { BackedReceipt(m, g, k); }
    forall id | id in g.receipts.Keys ensures exists k | k in g.replays.Keys :: g.replays[k].receipt.entryId == id {
      assert Answered(g, id);
    }
    BijectionSize(g, g.replays.Keys, g.receipts.Keys);
  }

  lemma BackedReceipt(m: Mem, g: Gate, key: ReplayKey)
    requires AllBacked(m, g) && key in g.replays
    ensures g.replays[key].receipt.entryId in g.receipts
  {
    assert Backed(m, g, key);
  }

  lemma {:induction false} BijectionSize(g: Gate, keys: set<ReplayKey>, ids: set<string>)
    requires OneToOne(g) && keys <= g.replays.Keys
    requires forall k | k in keys :: g.replays[k].receipt.entryId in ids
    requires forall id | id in ids :: exists k | k in keys :: g.replays[k].receipt.entryId == id
    ensures |keys| == |ids|
    decreases keys
  {
    if keys == {} {
      assert ids == {};
    } else {
      var k :| k in keys;
      var id := g.replays[k].receipt.entryId;
      forall i | i in ids - {id} ensures exists l | l in keys - {k} :: g.replays[l].receipt.entryId == i {
        var l :| l in keys && g.replays[l].receipt.entryId == i;
        assert l in keys - {k};
      }
      BijectionSize(g, keys - {k}, ids - {id});
    }
  }

  // ----- origins -----------------------------------------------------------------------------

  /** `e` represents `source` by the policy of one of the gates, and passed its scanners. */
  ghost predicate Descends(m: Mem, gates: seq<Gate>, source: Entry, e: Entry) {
    exists k | 0 <= k < |gates| :: PromotedBy(m, gates[k].cfg, source, e)
  }

  ghost predicate PromotedBy(m: Mem, cfg: GateConfig, source: Entry, e: Entry) {
    Represents(m, cfg.policy, source, e) && Vetted(cfg, source.domain != e.domain, source, e.content)
  }

  /** `ids[i]` represents `ids[i + 1]`; the last one is no promotion. */
  ghost predicate Chain(m: Mem, gates: seq<Gate>, ids: seq<string>) {
    && ids != []
    && (forall i | 0 <= i < |ids| :: ids[i] in m.raw)
    && (forall i | 0 <= i < |ids| - 1 :: Descends(m, gates, m.raw[ids[i + 1]], m.raw[ids[i]]))
    && !IsPromotion(m.raw[ids[|ids| - 1]])
  }

  /** Gates over one memory that between them account for its promotions. */
  ghost predicate GatesInv(m: Mem, gates: seq<Gate>) {
    (forall k | 0 <= k < |gates| :: GateInv(m, gates[k])) && Accounted(m, gates)
  }

  /** No two gates hold a receipt for the same promotion. */
  ghost predicate ReceiptsApart(gates: seq<Gate>) {
    forall j, k | 0 <= j < k < |gates| :: gates[j].receipts.Keys !! gates[k].receipts.Keys
  }

  /** Gate `k` takes a receipt for each promotion that is new. */
  lemma NewReceiptsAccount(before: set<string>, after: set<string>, gates: seq<Gate>, k: nat, g: Gate)
    requires k < |gates| && ReceiptsApart(gates) && before <= after && gates[k].receipts.Keys <= g.receipts.Keys
    requires forall j | 0 <= j < |gates| :: gates[j].receipts.Keys <= before
    requires forall id | id in before :: HasReceipt(gates, id)
    requires forall id :: id in after && id !in before <==> id in g.receipts && id !in gates[k].receipts
    ensures ReceiptsApart(gates[k := g]) && forall id | id in after :: HasReceipt(gates[k := g], id)
  {
    var moved := gates[k := g];
    forall id | id in after ensures HasReceipt(moved, id) {
      if id in before {
        var j :| 0 <= j < |gates| && id in gates[j].receipts;
        assert id in moved[j].receipts;
      } else {
        assert id in moved[k].receipts;
      }
    }
    forall i, j | 0 <= i < j < |moved| ensures moved[i].receipts.Keys !! moved[j].receipts.Keys {
      assert gates[i].receipts.Keys !! gates[j].receipts.Keys;
      assert gates[i].receipts.Keys <= before && gates[j].receipts.Keys <= before;
    }
  }

  lemma PromoteKeepsAccounted(m: Mem, gates: seq<Gate>, k: nat, token: nat, r: PromotionRequest)
    requires k < |gates| && GatesInv(m, gates) && ReceiptsApart(gates)
    ensures var (m', g, _, _) := Promote(m, gates[k], token, r);
            Accounted(m', gates[k := g]) && ReceiptsApart(gates[k := g])
  {
    forall j | 0 <= j < |gates| ensures ReceiptsStand(m, gates[j]) { assert GateInv(m, gates[j]); }
    hide Promote, GateInv, PromotedIds, ReceiptsApart, HasReceipt;
    PromoteKeepsReceipts(m, gates[k], token, r);
    var (m', g, _, _) := Promote(m, gates[k], token, r);
    forall id ensures id in PromotedIds(m') && id !in PromotedIds(m) <==> id in g.receipts && id !in gates[k].receipts {
      assert id in PromotedIds(m') - PromotedIds(m) <==> id in g.receipts.Keys - gates[k].receipts.Keys;
    }
    NewReceiptsAccount(PromotedIds(m), PromotedIds(m'), gates, k, g);
  }

  /** Growth without promotions, other gates' books included. */
  lemma QuietKeepsAccounted(a: Mem, b: Mem, gates: seq<Gate>)
    requires Quiet(a, b) && Accounted(a, gates)
    ensures Accounted(b, gates)
  {
    forall id | id in PromotedIds(b) ensures HasReceipt(gates, id) {
      assert id in PromotedIds(a);
    }
  }

  /** A change of one gate that leaves its receipts. */
  lemma SameReceiptsAccounted(m: Mem, gates: seq<Gate>, k: nat, g: Gate)
    requires k < |gates| && g.receipts == gates[k].receipts && Accounted(m, gates) && ReceiptsApart(gates)
    ensures Accounted(m, gates[k := g]) && ReceiptsApart(gates[k := g])
  {
    forall id | id in PromotedIds(m) ensures HasReceipt(gates[k := g], id) {
      assert HasReceipt(gates, id);
      var j :| 0 <= j < |gates| && id in gates[j].receipts;
      assert id in gates[k := g][j].receipts;
    }
  }

  /** A gate with empty books may join at any time. */
  lemma JoiningKeepsAccounted(m: Mem, gates: seq<Gate>, g: Gate)
    requires g.receipts == map[] && Accounted(m, gates) && ReceiptsApart(gates)
    ensures Accounted(m, gates + [g]) && ReceiptsApart(gates + [g])
  {
    forall id | id in PromotedIds(m) ensures HasReceipt(gates + [g], id) {
      assert HasReceipt(gates, id);
      var j :| 0 <= j < |gates| && id in gates[j].receipts;
      assert id in (gates + [g])[j].receipts;
    }
  }

  /** Each stored promotion was answered by exactly one replay record of exactly one gate. */
  lemma PromotionHasOneAnswer(m: Mem, gates: seq<Gate>, id: string) returns (k: nat, key: ReplayKey)
    requires GatesInv(m, gates) && ReceiptsApart(gates) && id in PromotedIds(m)
    ensures k < |gates| && key in gates[k].replays && gates[k].replays[key].receipt.entryId == id
    ensures forall j, other | 0 <= j < |gates| && other in gates[j].replays
                              && gates[j].replays[other].receipt.entryId == id :: j == k && other == key
  {
    hide AllCleared, TokensIssued;
    assert HasReceipt(gates, id);
    k :| k < |gates| && id in gates[k].receipts;
    assert GateInv(m, gates[k]) && Answered(gates[k], id);
    key :| key in gates[k].replays && gates[k].replays[key].receipt.entryId == id;
    forall j, other | 0 <= j < |gates| && other in gates[j].replays && gates[j].replays[other].receipt.entryId == id
      ensures j == k && other == key
    {
      assert GateInv(m, gates[j]);
      BackedReceipt(m, gates[j], other);
    }
  }

  lemma ReceiptHasSource(m: Mem, g: Gate, id: string) returns (sourceId: string)
    requires GateInv(m, g) && id in g.receipts
    ensures sourceId in m.raw && id in m.raw && PromotedBy(m, g.cfg, m.raw[sourceId], m.raw[id])
  {
    hide Represents, Vetted, AllCleared, TokensIssued, OneToOne;
    assert Answered(g, id);
    var key :| key in g.replays && g.replays[key].receipt.entryId == id;
    assert Backed(m, g, key);
    sourceId := g.replays[key].fingerprint.source.id;
  }

  lemma PromotionHasSource(m: Mem, gates: seq<Gate>, id: string) returns (sourceId: string)
    requires GatesInv(m, gates) && id in PromotedIds(m)
    ensures sourceId in m.raw && Descends(m, gates, m.raw[sourceId], m.raw[id])
  {
    hide PromotedBy, GateInv;
    assert HasReceipt(gates, id);
    var k :| 0 <= k < |gates| && id in gates[k].receipts;
    sourceId := ReceiptHasSource(m, gates[k], id);
  }

  /** Each promotion descends one level, so the chain below an entry at distance `d`
      from the root is no longer than the nodes left below it. */
  lemma {:induction false} OriginFrom(m: Mem, gates: seq<Gate>, id: string,
                                      path: seq<string>) returns (ids: seq<string>)
    requires Inv(m) && GatesInv(m, gates) && id in m.raw
    requires T.RootPath(m.cfg.nodes, m.raw[id].contextId, path)
    ensures Chain(m, gates, ids) && ids[0] == id
    ensures |ids| + |path| <= |m.cfg.nodes| + 1
    decreases |m.cfg.nodes| - |path|
  {
    hide Inv, GatesInv, Descends;
    T.RootPathLength(m.cfg.nodes, m.raw[id].contextId, path);
    if !IsPromotion(m.raw[id]) {
      ids := [id];
    } else {
      var sourceId := PromotionHasSource(m, gates, id);
      var c := m.raw[sourceId].contextId;
      LinkDescends(m, gates, m.raw[sourceId], m.raw[id], path);
      T.RootPathLength(m.cfg.nodes, c, [c] + path);
      var rest := OriginFrom(m, gates, sourceId, [c] + path);
      ids := [id] + rest;
      LongerChain(m, gates, id, rest);
    }
  }

  lemma LinkDescends(m: Mem, gates: seq<Gate>, source: Entry, e: Entry, path: seq<string>)
    requires Descends(m, gates, source, e) && T.RootPath(m.cfg.nodes, e.contextId, path)
    ensures T.RootPath(m.cfg.nodes, source.contextId, [source.contextId] + path)
  {
    hide Represents, Vetted, T.RootPath;
    var k :| 0 <= k < |gates| && PromotedBy(m, gates[k].cfg, source, e);
    RepresentsDescends(m, gates[k].cfg.policy, source, e, path);
  }

  lemma RepresentsDescends(m: Mem, policy: PromotionPolicy, source: Entry, e: Entry, path: seq<string>)
    requires Represents(m, policy, source, e) && T.RootPath(m.cfg.nodes, e.contextId, path)
    ensures T.RootPath(m.cfg.nodes, source.contextId, [source.contextId] + path)
  {
    var longer := [source.contextId] + path;
    assert forall i | 0 < i < |longer| :: longer[i] == path[i - 1];
    assert m.cfg.nodes[longer[0]].parent == Some(longer[0 + 1]);
    forall i | 0 <= i < |longer| - 1 ensures m.cfg.nodes[longer[i]].parent == Some(longer[i + 1]) {
      if i > 0 { assert m.cfg.nodes[path[i - 1]].parent == Some(path[i - 1 + 1]); }
    }
  }

  lemma LongerChain(m: Mem, gates: seq<Gate>, id: string, rest: seq<string>)
    requires Chain(m, gates, rest) && id in m.raw && Descends(m, gates, m.raw[rest[0]], m.raw[id])
    ensures Chain(m, gates, [id] + rest)
  {
    hide Descends;
    var ids := [id] + rest;
    assert forall i | 0 < i < |ids| :: ids[i] == rest[i - 1];
    forall i | 0 <= i < |ids| - 1 ensures Descends(m, gates, m.raw[ids[i + 1]], m.raw[ids[i]]) {
      if i > 0 { assert Descends(m, gates, m.raw[rest[i - 1 + 1]], m.raw[rest[i - 1]]); }
    }
  }

  lemma {:induction false} ChainKeepsStatus(m: Mem, gates: seq<Gate>, ids: seq<string>)
    requires Chain(m, gates, ids)
    ensures var first, last := m.raw[ids[0]], m.raw[ids[|ids| - 1]];
            first.provenance == last.provenance && first.epistemic == last.epistemic
    decreases |ids|
  {
    if |ids| > 1 {
      assert Descends(m, gates, m.raw[ids[0 + 1]], m.raw[ids[0]]);
      var rest := ids[1..];
      assert Chain(m, gates, rest) by {
        forall i | 0 <= i < |rest| - 1 ensures Descends(m, gates, m.raw[rest[i + 1]], m.raw[rest[i]]) {
          assert Descends(m, gates, m.raw[ids[i + 1 + 1]], m.raw[ids[i + 1]]);
        }
      }
      ChainKeepsStatus(m, gates, rest);
    }
  }

  /** Every stored entry traces back through promotions, each one level up on an allowed
      route, to an entry that is no promotion and has its provenance and status; the
      chain is no longer than the tree has nodes. */
  lemma EveryEntryHasOrigin(m: Mem, gates: seq<Gate>, id: string) returns (ids: seq<string>)
    requires Inv(m) && GatesInv(m, gates) && id in m.raw
    ensures Chain(m, gates, ids) && ids[0] == id && |ids| <= |m.cfg.nodes|
    ensures m.raw[ids[|ids| - 1]].provenance == m.raw[id].provenance
    ensures m.raw[ids[|ids| - 1]].epistemic == m.raw[id].epistemic
  {
    hide GatesInv, Descends;
    InvHasTree(m);
    T.TreeNodeClimbs(m.cfg.nodes, m.raw[id].contextId);
    var path :| T.RootPath(m.cfg.nodes, m.raw[id].contextId, path);
    ids := OriginFrom(m, gates, id, path);
    ChainKeepsStatus(m, gates, ids);
  }
}
