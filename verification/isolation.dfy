/** Promotions and reflections towards contexts one may not read leave no trace there, next
    to any others that one may see. */
module Isolation {
  import opened Text
  import opened Records
  import opened Security
  import opened Growth
  import opened Noninterference
  import opened Promotion
  import opened PromotionLaws
  import opened World
  import O = Outcomes
  import L = OutcomeLaws
  import T = ContextTrees
  import S = Scanners

  // ----- hidden acts --------------------------------------------------------------------

  /** A token whose reflections are stored where `c` may not read, and not in public. */
  predicate Aside(w: World, c: string, token: nat) {
    token in w.desk.bindings &&
      var ec := w.desk.bindings[token];
      !Readable(w.mem.cfg, c, ec.contextId) && DomainOf(w.mem, ec) != Some(PUBLIC)
  }

  /** Acts that could only store what executions at `c` may not see. */
  predicate HiddenAct(w: World, c: string, act: Act) {
    match act
    case Memory(ev) => Hidden(w.mem.cfg, c, ev)
    case Requests(_, _, r) => !Readable(w.mem.cfg, c, r.destination)
    case Reflects(token, _) => Aside(w, c, token)
    case _ => false
  }

  lemma UnseenCommit(m: Mem, c: string, e: Entry, bind: bool)
    requires Inv(m) && Committable(m, e) && Classified(e) && !Readable(m.cfg, c, e.contextId)
    ensures ViewOf(Commit(m, e, bind), c) == ViewOf(m, c)
  {
    hide ViewOf, Commit, Inv;
    CommittableIsNew(m, e);
    CommittableKnows(m, e);
    InvParts(m);
    assert !SeesEntry(m.cfg, c, e);
    ViewAfterCommit(m, c, e, bind);
    ClassifiedInView(m, c);
  }

  lemma CommittableKnows(m: Mem, e: Entry)
    requires Committable(m, e)
    ensures DenyListKnown(m.cfg, m.raw) && AllClassified(m.raw)
  {
    var ec :| PolicyState(m, ec) == None;
  }

  lemma PromotedAtDestination(m: Mem, g: Gate, binding: Option<GateBinding>, r: PromotionRequest)
    requires Decide(m, g, binding, r).stored.Some?
    ensures Decide(m, g, binding, r).stored.value.contextId == r.destination
  {
    hide Judge, FreshId;
  }

  lemma PromotionStores(m: Mem, g: Gate, token: nat, r: PromotionRequest)
    ensures var stored := Decide(m, g, Lookup(g.bindings, token), r).stored;
            Promote(m, g, token, r).0 == if stored.Some? then Commit(m, stored.value, true) else m
  {
    hide Decide;
  }

  /** Local respect of the gate: a promotion to an unreadable parent is not noticed. */
  lemma {:induction false} HiddenPromotionKeepsView(m: Mem, g: Gate, token: nat, r: PromotionRequest, c: string)
    requires Inv(m) && !Readable(m.cfg, c, r.destination)
    ensures ViewOf(Promote(m, g, token, r).0, c) == ViewOf(m, c)
  {
    hide *;
    PromotionStores(m, g, token, r);
    if Decide(m, g, Lookup(g.bindings, token), r).stored.Some? {
      StoredIsCommittable(m, g, Lookup(g.bindings, token), r);
      PromotedAtDestination(m, g, Lookup(g.bindings, token), r);
      UnseenCommit(m, c, Decide(m, g, Lookup(g.bindings, token), r).stored.value, true);
    }
  }

  lemma ReflectionStores(m: Mem, d: O.Desk, token: nat, r: O.ReflectionRequest)
    requires O.DeskReady(d) && L.DeskTokens(m, d)
    ensures var ruling := O.Rule(m, d, Lookup(d.bindings, token), r);
            && O.Admit(m, d, token, r).0 == (if ruling.stored.Some? then Commit(m, ruling.stored.value, false) else m)
            && (ruling.stored.Some? ==>
                  && token in d.bindings && PolicyState(m, d.bindings[token]) == None
                  && d.bindings[token] in m.executions
                  && ruling.stored.value == O.ReflectionEntry(m, d.bindings[token], r.candidate))
  {
    hide O.Rule, O.Examine, O.ReflectionEntry, PolicyState, O.WellFormedConfig;
    if O.Rule(m, d, Lookup(d.bindings, token), r).stored.Some? {
      L.StoredRuling(m, d, Lookup(d.bindings, token), r);
    }
  }

  lemma ReflectionIsPrivate(m: Mem, ec: ExecutionContext, candidate: O.Candidate)
    requires Identities(m) && ec in m.executions && PolicyState(m, ec) == None
    ensures var e := O.ReflectionEntry(m, ec, candidate);
            e.contextId == ec.contextId && (Classified(e) <==> DomainOf(m, ec) != Some(PUBLIC))
  {
    hide PolicyState;
    L.IssuedDomain(m, ec);
  }

  /** Local respect of the desk: a reflection in an unreadable context is not noticed, unless
      that is a public one. */
  lemma {:induction false} HiddenReflectionKeepsView(m: Mem, d: O.Desk, token: nat, r: O.ReflectionRequest, c: string)
    requires Inv(m) && O.DeskReady(d) && L.DeskTokens(m, d) && token in d.bindings
    requires !Readable(m.cfg, c, d.bindings[token].contextId) && DomainOf(m, d.bindings[token]) != Some(PUBLIC)
    ensures ViewOf(O.Admit(m, d, token, r).0, c) == ViewOf(m, c)
  {
    hide Inv, ViewOf, Readable, PolicyState, O.Admit, O.Rule, O.WellFormedConfig, O.ReflectionEntry, Committable,
         Commit,
         Classified;
    ReflectionStores(m, d, token, r);
    if O.Rule(m, d, Lookup(d.bindings, token), r).stored.Some? {
      var ec := d.bindings[token];
      InvHasIdentities(m);
      ReflectionIsPrivate(m, ec, r.candidate);
      L.ReflectionIsCommittable(m, ec, r.candidate);
      UnseenCommit(m, c, O.ReflectionEntry(m, ec, r.candidate), false);
    }
  }

  // ----- what the gate decides on is in the view ----------------------------------------

  lemma ViewDecidesPolicy(a: Mem, b: Mem, c: string, ec: ExecutionContext)
    requires ViewOf(a, c) == ViewOf(b, c)
    ensures PolicyState(a, ec) == PolicyState(b, ec) && DomainOf(a, ec) == DomainOf(b, ec)
    ensures Granted(a, ec) == Granted(b, ec) && a.available == b.available
    ensures ec in a.executions <==> ec in b.executions
  {
    hide SeenPart, ObjectsPart, DenyKnown;
    assert ec in a.executions <==> ec in ViewOf(a, c).executions;
    assert ec in b.executions <==> ec in ViewOf(b, c).executions;
  }

  /** A valid policy grants an execution at a readable context nothing that the reader is not
      granted. */
  lemma ReadersAreGrantedMore(m: Mem, ec: ExecutionContext, c: string, domain: string)
    requires Identities(m) && ec in m.executions && PolicyState(m, ec) == None && Readable(m.cfg, c, ec.contextId)
    requires domain in Granted(m, ec)
    ensures domain in GrantsAt(m.cfg, c)
  {
    var p := m.cfg.policy.value;
    var own, reader := m.cfg.contextDomains[ec.contextId], m.cfg.contextDomains[c];
    assert DomainOf(m, ec) == Some(own);
    assert GrantsOk(own, p.grants[own]) && GrantsOk(reader, p.grants[reader]);
  }

  /** What a readable context owns and is allowed, its reader sees. */
  lemma SourceIsSeen(m: Mem, ec: ExecutionContext, c: string, id: string)
    requires Identities(m) && ec in m.executions && PolicyState(m, ec) == None && Readable(m.cfg, c, ec.contextId)
    ensures var seen := ViewOf(m, c).seen;
            && (id in m.raw && m.raw[id].contextId == ec.contextId && Allowed(m, ec, id) <==>
                id in seen && seen[id].contextId == ec.contextId && seen[id].domain in Granted(m, ec))
            && (id in seen ==> id in m.raw && seen[id] == m.raw[id])
  {
    T.OwnLineage(m.cfg.nodes, ec.contextId);
    hide PolicyState, T.Lineage;
    if id in m.raw && m.raw[id].domain in Granted(m, ec) { ReadersAreGrantedMore(m, ec, c, m.raw[id].domain); }
  }

  /** Replay keys for promotions to a parent that `c` may read. */
  predicate OpenKey(cfg: Config, c: string, key: ReplayKey) {
    && key.contextId in cfg.nodes && cfg.nodes[key.contextId].parent.Some?
    && Readable(cfg, c, cfg.nodes[key.contextId].parent.value)
  }

  ghost predicate SameSettings(g: Gate, h: Gate) {
    && g.cfg == h.cfg && g.policy == h.policy && g.approvals == h.approvals && g.modes == h.modes
    && g.available == h.available && g.bindings == h.bindings && g.issued == h.issued
  }

  /** Gates that decide alike on what `c` sees: the same settings and tokens, and the same
      replay records for promotions to where `c` may read. */
  ghost predicate GatesAlike(cfg: Config, c: string, g: Gate, h: Gate) {
    && SameSettings(g, h)
    && forall key | OpenKey(cfg, c, key) :: Lookup(g.replays, key) == Lookup(h.replays, key)
  }

  /** A request whose token, if it has one, is for a readable context. */
  predicate FromReadable(cfg: Config, c: string, g: Gate, token: nat) {
    token in g.bindings ==> Readable(cfg, c, g.bindings[token].execution.contextId)
  }

  lemma SameScans(g: Gate, h: Gate, names: seq<string>, content: string, source: string)
    requires g.cfg == h.cfg && g.modes == h.modes
    ensures ScanAll(g, names, content, source) == ScanAll(h, names, content, source)
  {
    ScansAgain(g, h, names, content, source);
  }

  lemma SameSourceJudgement(a: Mem, b: Mem, g: Gate, h: Gate, policy: PromotionPolicy, source: Entry,
                            r: PromotionRequest)
    requires SameSettings(g, h) && a.cfg.nodes == b.cfg.nodes && a.cfg.contextDomains == b.cfg.contextDomains
    ensures JudgeSource(a, g, policy, source, r) == JudgeSource(b, h, policy, source, r)
  {
    SameScans(g, h, g.cfg.scannerNames, r.content, source.content);
    SameScans(g, h, [S.SECRET], r.content, source.content);
    hide ScanAll, AllClean, SomeUnavailable, OnlyMatches, StatusFits, Needed;
  }

  /** An entry that a promotion from `ec` may start from. */
  predicate SourceOf(m: Mem, ec: ExecutionContext, id: string) {
    id in m.raw && m.raw[id].contextId == ec.contextId && Allowed(m, ec, id)
  }

  lemma SameJudgement(a: Mem, b: Mem, g: Gate, h: Gate, binding: GateBinding, r: PromotionRequest)
    requires SameSettings(g, h) && a.cfg.nodes == b.cfg.nodes && a.cfg.contextDomains == b.cfg.contextDomains
    requires a.available == b.available && PolicyState(a, binding.execution) == PolicyState(b, binding.execution)
    requires PolicyState(a, binding.execution) == None ==>
               && (SourceOf(a, binding.execution, r.sourceId) <==> SourceOf(b, binding.execution, r.sourceId))
               && (SourceOf(a, binding.execution, r.sourceId) ==> a.raw[r.sourceId] == b.raw[r.sourceId])
    ensures Judge(a, g, Some(binding), r) == Judge(b, h, Some(binding), r)
  {
    hide JudgeSource, PolicyState, Allowed, WellFormedPromotion;
    if r.sourceId in a.raw && g.policy.Some? {
      SameSourceJudgement(a, b, g, h, g.policy.value, a.raw[r.sourceId], r);
    }
  }

  lemma SameSource(a: Mem, b: Mem, ec: ExecutionContext, c: string, id: string)
    requires ViewOf(a, c) == ViewOf(b, c) && Identities(a) && Identities(b)
    requires ec in a.executions && ec in b.executions && Granted(a, ec) == Granted(b, ec)
    requires PolicyState(a, ec) == None && PolicyState(b, ec) == None
    requires Readable(a.cfg, c, ec.contextId) && Readable(b.cfg, c, ec.contextId)
    ensures SourceOf(a, ec, id) <==> SourceOf(b, ec, id)
    ensures SourceOf(a, ec, id) ==> a.raw[id] == b.raw[id]
  {
    hide ViewOf, Identities, PolicyState, Readable, Allowed, Granted;
    SourceIsSeen(a, ec, c, id);
    SourceIsSeen(b, ec, c, id);
  }

  lemma {:induction false} ViewDecidesJudgement(a: Mem, b: Mem, c: string, g: Gate, h: Gate, token: nat,
                                                r: PromotionRequest)
    requires Inv(a) && Inv(b) && ViewOf(a, c) == ViewOf(b, c) && SameSettings(g, h)
    requires FromReadable(a.cfg, c, g, token) && TokensIssued(a, g) && TokensIssued(b, h)
    ensures Judge(a, g, Lookup(g.bindings, token), r) == Judge(b, h, Lookup(h.bindings, token), r)
  {
    hide Inv, ViewOf, Judge, PolicyState, Granted, Readable, Identities, SourceOf;
    if token in g.bindings {
      var ec := g.bindings[token].execution;
      ViewDecidesPolicy(a, b, c, ec);
      ViewHoldsRules(a, b, c);
      RulesDecideHidden(a.cfg, b.cfg, c);
      SameDomains(a, b, c);
      InvHasIdentities(a);
      InvHasIdentities(b);
      if PolicyState(a, ec) == None { SameSource(a, b, ec, c, r.sourceId); }
      SameJudgement(a, b, g, h, g.bindings[token], r);
    } else {
      UnknownTokenStops(a, b, g, h, r);
    }
  }

  lemma UnknownTokenStops(a: Mem, b: Mem, g: Gate, h: Gate, r: PromotionRequest)
    ensures Judge(a, g, None, r) == Judge(b, h, None, r)
  {
  }

  lemma {:induction false} SameFreeNumber(a: Mem, b: Mem, c: string, owner: string, stem: string)
    requires Inv(a) && Inv(b) && ViewOf(a, c) == ViewOf(b, c) && Separable(a.cfg.nodes.Keys)
    requires owner in a.cfg.nodes && Readable(a.cfg, c, owner) && stem != "" && ':' !in stem
    ensures FirstFree(a.raw.Keys, Key(owner, stem)) == FirstFree(b.raw.Keys, Key(owner, stem))
  {
    var prefix := Key(owner, stem);
    var m, n := FirstFree(a.raw.Keys, prefix), FirstFree(b.raw.Keys, prefix);
    hide Inv, ViewOf, Separable, Readable;
    forall k: nat ensures Numbered(prefix, k) in a.raw <==> Numbered(prefix, k) in b.raw {
      NumberedIsTaken(a, b, c, owner, stem, k);
    }
    LeastFreeUnique(a.raw.Keys, prefix, m, n);
  }

  lemma NumberedIsTaken(a: Mem, b: Mem, c: string, owner: string, stem: string, k: nat)
    requires Inv(a) && Inv(b) && ViewOf(a, c) == ViewOf(b, c) && Separable(a.cfg.nodes.Keys)
    requires owner in a.cfg.nodes && Readable(a.cfg, c, owner) && stem != "" && ':' !in stem
    ensures Numbered(Key(owner, stem), k) in a.raw <==> Numbered(Key(owner, stem), k) in b.raw
  {
    hide *;
    NumberedIsLocal(owner, stem, k);
    ViewDecidesKey(a, b, c, owner, stem + Decimal(k));
    KnownInRaw(a, owner, stem + Decimal(k));
    KnownInRaw(b, owner, stem + Decimal(k));
  }

  lemma NumberedIsLocal(owner: string, stem: string, k: nat)
    requires stem != "" && ':' !in stem
    ensures Numbered(Key(owner, stem), k) == Key(owner, stem + Decimal(k)) && LocalId(stem + Decimal(k))
  {
  }

  lemma KnownInRaw(m: Mem, owner: string, local: string)
    requires Inv(m)
    ensures Known(m, Key(owner, local)) <==> Key(owner, local) in m.raw
  {
    hide T.RootedTree;
    KeyQualified(owner, local);
  }

  lemma SameEntry(a: Mem, b: Mem, c: string, edition: Edition, policy: PromotionPolicy, source: Entry,
                  r: PromotionRequest)
    requires Inv(a) && Inv(b) && ViewOf(a, c) == ViewOf(b, c) && Separable(a.cfg.nodes.Keys)
    requires Readable(a.cfg, c, r.destination)
    ensures PromotedEntry(a, edition, policy, source, r) == PromotedEntry(b, edition, policy, source, r)
  {
    hide Inv, ViewOf, Separable, Readable;
    SameDomains(a, b, c);
    InReadableTree(a, c, r.destination);
    SameFreeNumber(a, b, c, r.destination, "admission-");
  }

  /** A request from a readable context to a readable parent is decided alike. */
  lemma {:induction false} ViewDecidesPromotion(a: Mem, b: Mem, c: string, g: Gate, h: Gate, token: nat,
                                                r: PromotionRequest)
    requires Inv(a) && Inv(b) && ViewOf(a, c) == ViewOf(b, c) && GatesAlike(a.cfg, c, g, h)
    requires Separable(a.cfg.nodes.Keys) && Readable(a.cfg, c, r.destination)
    requires FromReadable(a.cfg, c, g, token) && TokensIssued(a, g) && TokensIssued(b, h)
    ensures Decide(a, g, Lookup(g.bindings, token), r) == Decide(b, h, Lookup(h.bindings, token), r)
  {
    hide Judge, PromotedEntry, Inv, ViewOf, Separable, Readable, TokensIssued, FromReadable, OpenKey;
    ViewDecidesJudgement(a, b, c, g, h, token, r);
    var binding := Lookup(g.bindings, token);
    if Judge(a, g, binding, r).Pass? {
      PassMeans(a, g, binding, r);
      SameEntry(a, b, c, g.cfg.edition, g.policy.value, Judge(a, g, binding, r).source, r);
      PassedKeyIsOpen(a, g, c, binding.value, r);
      assert Lookup(g.replays, KeyOf(binding.value, r)) == Lookup(h.replays, KeyOf(binding.value, r));
    }
  }

  lemma PassedKeyIsOpen(m: Mem, g: Gate, c: string, binding: GateBinding, r: PromotionRequest)
    requires Judge(m, g, Some(binding), r).Pass? && Readable(m.cfg, c, r.destination)
    ensures OpenKey(m.cfg, c, KeyOf(binding, r))
  {
    hide Judge, Readable;
    PassMeans(m, g, Some(binding), r);
  }

  lemma SameDomains(a: Mem, b: Mem, c: string)
    requires ViewOf(a, c) == ViewOf(b, c)
    ensures a.cfg.contextDomains == b.cfg.contextDomains && a.cfg.nodes == b.cfg.nodes
  {
  }

  // ----- what the desk decides on -----------------------------------------------------------

  predicate OpenCase(cfg: Config, x: O.OutcomeConfig, c: string, key: O.ReflectionKey) {
    key.executionId in x.executions && Readable(cfg, c, x.executions[key.executionId].contextId)
  }

  /** Desks that decide alike on what `c` sees. */
  ghost predicate DesksAlike(cfg: Config, c: string, d: O.Desk, e: O.Desk) {
    && d.cfg == e.cfg && d.available == e.available && d.bindings == e.bindings && d.issued == e.issued
    && forall key | OpenCase(cfg, d.cfg, c, key) :: Lookup(d.replays, key) == Lookup(e.replays, key)
  }

  predicate AtReadable(cfg: Config, c: string, d: O.Desk, token: nat) {
    token in d.bindings ==> Readable(cfg, c, d.bindings[token].contextId)
  }

  lemma SameFinding(a: Mem, b: Mem, c: string, d: O.Desk, e: O.Desk, ec: Option<ExecutionContext>,
                    r: O.ReflectionRequest)
    requires ViewOf(a, c) == ViewOf(b, c) && d.cfg == e.cfg && d.available == e.available
    requires O.WellFormedConfig(d.cfg) && O.KnownExecution(d, ec)
    ensures O.KnownExecution(e, ec) && O.Examine(a, d, ec, r) == O.Examine(b, e, ec, r)
  {
    if ec.Some? { ViewDecidesPolicy(a, b, c, ec.value); }
    hide PolicyState, O.Resolve, O.Supported, O.FindSupport, ViewOf;
  }

  lemma SameReflection(a: Mem, b: Mem, c: string, ec: ExecutionContext, candidate: O.Candidate)
    requires Inv(a) && Inv(b) && ViewOf(a, c) == ViewOf(b, c) && Separable(a.cfg.nodes.Keys)
    requires Readable(a.cfg, c, ec.contextId)
    ensures O.ReflectionEntry(a, ec, candidate) == O.ReflectionEntry(b, ec, candidate)
  {
    hide Inv, ViewOf, Separable, Readable;
    ViewDecidesPolicy(a, b, c, ec);
    InReadableTree(a, c, ec.contextId);
    SameFreeNumber(a, b, c, ec.contextId, "reflection-");
  }

  /** A reflection at a readable context is decided alike. */
  lemma {:induction false} ViewDecidesReflection(a: Mem, b: Mem, c: string, d: O.Desk, e: O.Desk, token: nat,
                                                 r: O.ReflectionRequest)
    requires Inv(a) && Inv(b) && ViewOf(a, c) == ViewOf(b, c) && DesksAlike(a.cfg, c, d, e)
    requires Separable(a.cfg.nodes.Keys) && AtReadable(a.cfg, c, d, token)
    requires O.DeskReady(d) && O.DeskReady(e) && L.DeskTokens(a, d)
    ensures var ec := Lookup(d.bindings, token);
            && O.Examine(a, d, ec, r) == O.Examine(b, e, ec, r) && O.Rule(a, d, ec, r) == O.Rule(b, e, ec, r)
  {
    hide O.Examine, O.ReflectionEntry, O.WellFormedConfig, Inv, ViewOf, Separable, Readable;
    var ec := Lookup(d.bindings, token);
    SameFinding(a, b, c, d, e, ec, r);
    if O.Examine(a, d, ec, r).Grounded? {
      L.GroundedMeans(a, d, ec, r);
      SameReflection(a, b, c, ec.value, r.candidate);
      var key := O.ReflectionKey(ec.value.executionId, r.requestId);
      assert OpenCase(a.cfg, d.cfg, c, key);
      assert Lookup(d.replays, key) == Lookup(e.replays, key);
    }
  }

  // ----- both worlds move alike ---------------------------------------------------------------

  lemma SameCommitKeepsViews(a: Mem, b: Mem, c: string, e: Entry, bind: bool)
    requires Inv(a) && Inv(b) && ViewOf(a, c) == ViewOf(b, c) && Committable(a, e) && Committable(b, e)
    ensures ViewOf(Commit(a, e, bind), c) == ViewOf(Commit(b, e, bind), c)
  {
    hide ViewOf, Commit, Inv, Committable;
    CommittableIsNew(a, e);
    CommittableIsNew(b, e);
    CommittableKnows(a, e);
    CommittableKnows(b, e);
    InvParts(a);
    InvParts(b);
    ViewHoldsRules(a, b, c);
    RulesDecideSeeing(a.cfg, b.cfg, c, e);
    ViewAfterCommit(a, c, e, bind);
    ViewAfterCommit(b, c, e, bind);
  }

  /** What a request does to the books that decide later requests. */
  lemma BooksAfter(m: Mem, g: Gate, token: nat, r: PromotionRequest)
    ensures var o, g' := Decide(m, g, Lookup(g.bindings, token), r), Promote(m, g, token, r).1;
            && SameSettings(g, g')
            && (o.stored == None ==> g'.replays == g.replays)
            && (o.stored.Some? ==>
                  && token in g.bindings && o.receipt.Some? && o.trail.source.Some? && g.policy.Some?
                  && g'.replays == g.replays[KeyOf(g.bindings[token], r) :=
                       Replay(Fingerprint(r, o.trail.source.value, g.policy.value), o.receipt.value)])
  {
    hide Decide;
    if Decide(m, g, Lookup(g.bindings, token), r).stored.Some? {
      StoredMeans(m, g, Lookup(g.bindings, token), r);
      PassMeans(m, g, Lookup(g.bindings, token), r);
    }
  }

  lemma {:induction false} OpenPromotionKeepsAlike(a: Mem, b: Mem, c: string, g: Gate, h: Gate, token: nat,
                                                   r: PromotionRequest)
    requires Inv(a) && Inv(b) && ViewOf(a, c) == ViewOf(b, c) && GatesAlike(a.cfg, c, g, h)
    requires Separable(a.cfg.nodes.Keys) && Readable(a.cfg, c, r.destination)
    requires FromReadable(a.cfg, c, g, token) && TokensIssued(a, g) && TokensIssued(b, h)
    ensures ViewOf(Promote(a, g, token, r).0, c) == ViewOf(Promote(b, h, token, r).0, c)
    ensures GatesAlike(a.cfg, c, Promote(a, g, token, r).1, Promote(b, h, token, r).1)
  {
    hide Decide, Promote, Inv, ViewOf, Separable, Readable, TokensIssued, FromReadable, OpenKey, Committable;
    ViewDecidesPromotion(a, b, c, g, h, token, r);
    PromotionStores(a, g, token, r);
    PromotionStores(b, h, token, r);
    BooksAfter(a, g, token, r);
    BooksAfter(b, h, token, r);
    var o := Decide(a, g, Lookup(g.bindings, token), r);
    if o.stored.Some? {
      StoredIsCommittable(a, g, Lookup(g.bindings, token), r);
      StoredIsCommittable(b, h, Lookup(h.bindings, token), r);
      SameCommitKeepsViews(a, b, c, o.stored.value, true);
    }
  }

  /** A hidden promotion leaves no replay record that matters to `c`. */
  lemma HiddenPromotionKeepsAlike(m: Mem, cfg: Config, c: string, g: Gate, h: Gate, token: nat, r: PromotionRequest)
    requires GatesAlike(cfg, c, g, h) && m.cfg == cfg && !Readable(cfg, c, r.destination)
    ensures GatesAlike(cfg, c, Promote(m, g, token, r).1, h)
  {
    hide Decide, Promote, Readable;
    BooksAfter(m, g, token, r);
    if Decide(m, g, Lookup(g.bindings, token), r).stored.Some? {
      var key := KeyOf(g.bindings[token], r);
      StoredMeans(m, g, Lookup(g.bindings, token), r);
      PassMeans(m, g, Lookup(g.bindings, token), r);
      assert !OpenKey(cfg, c, key);
    }
  }

  lemma DeskBooksAfter(m: Mem, d: O.Desk, token: nat, r: O.ReflectionRequest)
    requires O.DeskReady(d) && L.DeskTokens(m, d)
    ensures var ec := Lookup(d.bindings, token);
            var f, ruling, d' := O.Examine(m, d, ec, r), O.Rule(m, d, ec, r), O.Admit(m, d, token, r).1;
            && d'.cfg == d.cfg && d'.available == d.available && d'.bindings == d.bindings && d'.issued == d.issued
            && (ruling.stored == None ==> d'.replays == d.replays)
            && (ruling.stored.Some? ==>
                  && ec.Some? && f.Grounded?
                  && d'.replays == d.replays[O.ReflectionKey(ec.value.executionId, r.requestId) :=
                       O.ReflectionReplay(O.SupportPrint(r.candidate, f.bundle),
                                          O.ReflectionReceiptFor(ruling.stored.value))])
  {
    hide O.Rule, O.Examine;
    L.StoringAdmission(m, d, token, r);
  }

  lemma {:induction false} OpenReflectionKeepsAlike(a: Mem, b: Mem, c: string, d: O.Desk, e: O.Desk, token: nat,
                                                    r: O.ReflectionRequest)
    requires Inv(a) && Inv(b) && ViewOf(a, c) == ViewOf(b, c) && DesksAlike(a.cfg, c, d, e)
    requires Separable(a.cfg.nodes.Keys) && AtReadable(a.cfg, c, d, token)
    requires O.DeskReady(d) && O.DeskReady(e) && L.DeskTokens(a, d) && L.DeskTokens(b, e)
    ensures ViewOf(O.Admit(a, d, token, r).0, c) == ViewOf(O.Admit(b, e, token, r).0, c)
    ensures DesksAlike(a.cfg, c, O.Admit(a, d, token, r).1, O.Admit(b, e, token, r).1)
  {
    hide O.Rule, O.Examine, O.WellFormedConfig, Inv, ViewOf, Separable, Readable, AtReadable, OpenCase, Committable,
         Commit, O.ReflectionEntry, O.Admit, PolicyState;
    DeskBooksAfter(a, d, token, r);
    DeskBooksAfter(b, e, token, r);
    ViewDecidesReflection(a, b, c, d, e, token, r);
    ReflectionStores(a, d, token, r);
    ReflectionStores(b, e, token, r);
    var ruling := O.Rule(a, d, Lookup(d.bindings, token), r);
    if ruling.stored.Some? {
      L.ReflectionIsCommittable(a, d.bindings[token], r.candidate);
      L.ReflectionIsCommittable(b, d.bindings[token], r.candidate);
      SameCommitKeepsViews(a, b, c, ruling.stored.value, false);
    }
  }

  /** A hidden reflection leaves no replay record that matters to `c`. */
  lemma HiddenReflectionKeepsAlike(m: Mem, c: string, d: O.Desk, e: O.Desk, token: nat, r: O.ReflectionRequest)
    requires DesksAlike(m.cfg, c, d, e) && O.DeskReady(d) && L.DeskTokens(m, d)
    requires token in d.bindings && !Readable(m.cfg, c, d.bindings[token].contextId)
    ensures DesksAlike(m.cfg, c, O.Admit(m, d, token, r).1, e)
  {
    hide O.Rule, O.Examine, O.WellFormedConfig, Readable, O.Admit;
    DeskBooksAfter(m, d, token, r);
    var key := O.ReflectionKey(d.bindings[token].executionId, r.requestId);
    assert !OpenCase(m.cfg, d.cfg, c, key);
  }

  // ----- whole runs ------------------------------------------------------------------------------

  /** Acts that are not hidden and whose sources, too, `c` may read. */
  predicate OpenAct(w: World, c: string, act: Act) {
    && !HiddenAct(w, c, act)
    && (act.Requests? && act.gate < |w.gates| ==> FromReadable(w.mem.cfg, c, w.gates[act.gate], act.token))
    && (act.Reflects? ==> AtReadable(w.mem.cfg, c, w.desk, act.token))
  }

  /** The acts left when those hidden from `c` are taken out. */
  ghost function PurgeActs(w: World, c: string, acts: seq<Act>): seq<Act>
    requires WorldInv(w)
    decreases |acts|
  {
    if acts == [] then []
    else
      PerformKeepsWorldInv(w, acts[0]);
      (if HiddenAct(w, c, acts[0]) then [] else [acts[0]]) + PurgeActs(Perform(w, acts[0]), c, acts[1..])
  }

  ghost predicate Asks(w: World, c: string, act: Act) {
    act.Memory? && AsksAt(c, act.ev) && !Hidden(w.mem.cfg, c, act.ev)
  }

  /** The answers executions bound to `c` get in the run. */
  ghost function AnswersAt(w: World, c: string, acts: seq<Act>): seq<Response>
    requires WorldInv(w)
    decreases |acts|
  {
    if acts == [] then []
    else
      PerformKeepsWorldInv(w, acts[0]);
      (if Asks(w, c, acts[0]) then [Reply(w.mem, acts[0].ev.ec, acts[0].ev.caller, acts[0].ev.request)] else [])
      + AnswersAt(Perform(w, acts[0]), c, acts[1..])
  }

  /** No act of the run carries something from where `c` may not read to where it may, and
      none breaks the policy out of its sight. */
  ghost predicate NoLeaks(w: World, c: string, acts: seq<Act>)
    requires WorldInv(w)
    decreases |acts|
  {
    acts == [] ||
      (PerformKeepsWorldInv(w, acts[0]);
       && (HiddenAct(w, c, acts[0]) || OpenAct(w, c, acts[0]))
       && NoLeaks(Perform(w, acts[0]), c, acts[1..]))
  }

  ghost predicate AllGatesAlike(cfg: Config, c: string, gs: seq<Gate>, hs: seq<Gate>) {
    |gs| == |hs| && forall k | 0 <= k < |gs| :: GatesAlike(cfg, c, gs[k], hs[k])
  }

  /** Equal for `c`: all that decides what it is answered. */
  ghost predicate EqualFor(w: World, v: World, c: string) {
    && WorldInv(w) && WorldInv(v) && ViewOf(w.mem, c) == ViewOf(v.mem, c)
    && AllGatesAlike(w.mem.cfg, c, w.gates, v.gates) && DesksAlike(w.mem.cfg, c, w.desk, v.desk)
  }

  lemma OneGateAlike(cfg: Config, c: string, gs: seq<Gate>, hs: seq<Gate>, k: nat, g: Gate, h: Gate)
    requires AllGatesAlike(cfg, c, gs, hs) && k < |gs| && GatesAlike(cfg, c, g, h)
    ensures AllGatesAlike(cfg, c, gs[k := g], hs[k := h])
  {
    hide GatesAlike;
  }

  lemma IssueAlike(a: Mem, b: Mem, c: string, g: Gate, h: Gate, contextId: string, role: string, name: string)
    requires ViewOf(a, c) == ViewOf(b, c) && GatesAlike(a.cfg, c, g, h)
    ensures ViewOf(Issue(a, g, contextId, role, name).0, c) == ViewOf(Issue(b, h, contextId, role, name).0, c)
    ensures GatesAlike(a.cfg, c, Issue(a, g, contextId, role, name).1, Issue(b, h, contextId, role, name).1)
  {
    hide ViewOf, OpenKey;
    SameDomains(a, b, c);
    SameCounter(a, b, c);
    OtherStepKeepsViews(a, b, c, Begins(name, contextId));
  }

  lemma SameCounter(a: Mem, b: Mem, c: string)
    requires ViewOf(a, c) == ViewOf(b, c)
    ensures a.issued == b.issued
  {
  }

  lemma DeskIssueAlike(a: Mem, b: Mem, c: string, d: O.Desk, e: O.Desk, x: string)
    requires ViewOf(a, c) == ViewOf(b, c) && DesksAlike(a.cfg, c, d, e)
    ensures ViewOf(O.IssueExecution(a, d, x).0, c) == ViewOf(O.IssueExecution(b, e, x).0, c)
    ensures DesksAlike(a.cfg, c, O.IssueExecution(a, d, x).1, O.IssueExecution(b, e, x).1)
  {
    hide ViewOf, OpenCase;
    SameDomains(a, b, c);
    SameCounter(a, b, c);
    if x in d.cfg.executions { OtherStepKeepsViews(a, b, c, Begins(x, d.cfg.executions[x].contextId)); }
  }

  lemma EqualForHas(w: World, v: World, c: string)
    requires EqualFor(w, v, c)
    ensures Inv(w.mem) && Inv(v.mem) && O.DeskReady(w.desk) && O.DeskReady(v.desk)
    ensures L.DeskTokens(w.mem, w.desk) && L.DeskTokens(v.mem, v.desk)
    ensures |w.gates| == |v.gates|
    ensures forall k | 0 <= k < |w.gates| ::
              && GatesAlike(w.mem.cfg, c, w.gates[k], v.gates[k])
              && TokensIssued(w.mem, w.gates[k]) && TokensIssued(v.mem, v.gates[k])
  {
    hide Inv, GatesAlike, DesksAlike, ViewOf, AllBacked, OneToOne, ReceiptsStand, AllCleared, TokensIssued, Accounted,
         ReceiptsApart, L.VerifiedAreEarned, L.DerivationsStored, L.ReplaysStored, O.WellFormedConfig;
    forall k | 0 <= k < |w.gates|
      ensures TokensIssued(w.mem, w.gates[k]) && TokensIssued(v.mem, v.gates[k])
    {
      assert GateInv(w.mem, w.gates[k]) && GateInv(v.mem, v.gates[k]);
    }
  }

  lemma OpenCallKeepsParts(w: World, v: World, c: string, ev: Event)
    requires EqualFor(w, v, c) && Separable(w.mem.cfg.nodes.Keys) && !Hidden(w.mem.cfg, c, ev)
    ensures O.DeskReady(w.desk) && O.DeskReady(v.desk)
    ensures AlikeAfter(w, Perform(w, Memory(ev)), Perform(v, Memory(ev)), c)
  {
    EqualForHas(w, v, c);
    hide WorldInv, Inv, ViewOf, Step, Hidden, Separable, AllGatesAlike, DesksAlike, O.DeskReady;
    if ev.Calls? { CallKeepsViews(w.mem, v.mem, c, ev); } else { OtherStepKeepsViews(w.mem, v.mem, c, ev); }
  }

  /** What remains to be shown of two worlds after an act, by the configuration before it. */
  ghost predicate AlikeAfter(was: World, w: World, v: World, c: string) {
    && ViewOf(w.mem, c) == ViewOf(v.mem, c)
    && AllGatesAlike(was.mem.cfg, c, w.gates, v.gates) && DesksAlike(was.mem.cfg, c, w.desk, v.desk)
  }

  lemma OpenServiceKeepsParts(w: World, v: World, c: string, k: nat, contextId: string, role: string, name: string)
    requires EqualFor(w, v, c)
    ensures O.DeskReady(w.desk) && O.DeskReady(v.desk)
    ensures var act := IssuesService(k, contextId, role, name); AlikeAfter(w, Perform(w, act), Perform(v, act), c)
  {
    EqualForHas(w, v, c);
    hide WorldInv, Inv, ViewOf, GatesAlike, Issue, AllGatesAlike, DesksAlike, O.DeskReady, TokensIssued, Perform;
    EqualParts(w, v, c);
    if k >= |w.gates| {
      PerformsNothing(w, IssuesService(k, contextId, role, name));
      PerformsNothing(v, IssuesService(k, contextId, role, name));
    } else {
      PerformsService(w, k, contextId, role, name);
      PerformsService(v, k, contextId, role, name);
      IssueAlike(w.mem, v.mem, c, w.gates[k], v.gates[k], contextId, role, name);
      OneGateAlike(w.mem.cfg, c, w.gates, v.gates, k, Issue(w.mem, w.gates[k], contextId, role, name).1,
                   Issue(v.mem, v.gates[k], contextId, role, name).1);
    }
  }

  lemma OpenRequestKeepsParts(w: World, v: World, c: string, k: nat, token: nat, r: PromotionRequest)
    requires EqualFor(w, v, c) && Separable(w.mem.cfg.nodes.Keys) && Readable(w.mem.cfg, c, r.destination)
    requires k < |w.gates| ==> FromReadable(w.mem.cfg, c, w.gates[k], token)
    ensures O.DeskReady(w.desk) && O.DeskReady(v.desk)
    ensures var act := Requests(k, token, r); AlikeAfter(w, Perform(w, act), Perform(v, act), c)
  {
    EqualForHas(w, v, c);
    hide WorldInv, Inv, ViewOf, GatesAlike, Promote, AllGatesAlike, DesksAlike, O.DeskReady, TokensIssued, Readable,
         FromReadable, Separable, Perform;
    EqualParts(w, v, c);
    if k >= |w.gates| {
      PerformsNothing(w, Requests(k, token, r));
      PerformsNothing(v, Requests(k, token, r));
    } else {
      PerformsRequest(w, k, token, r);
      PerformsRequest(v, k, token, r);
      OpenPromotionKeepsAlike(w.mem, v.mem, c, w.gates[k], v.gates[k], token, r);
      OneGateAlike(w.mem.cfg, c, w.gates, v.gates, k, Promote(w.mem, w.gates[k], token, r).1,
                   Promote(v.mem, v.gates[k], token, r).1);
    }
  }

  lemma OpenGateSwitchKeepsParts(w: World, v: World, c: string, act: Act)
    requires EqualFor(w, v, c) && (act.SetsGate? || act.JoinsGate?)
    ensures O.DeskReady(w.desk) && O.DeskReady(v.desk)
    ensures AlikeAfter(w, Perform(w, act), Perform(v, act), c)
  {
    EqualForHas(w, v, c);
    hide WorldInv, Inv, ViewOf, GatesAlike, AllGatesAlike, DesksAlike, O.DeskReady, TokensIssued, NewGate;
    assert |w.gates| == |v.gates|;
    match act
    case JoinsGate(cfg, approvals) => JoinAlike(w.mem.cfg, c, w.gates, v.gates, NewGate(cfg, approvals));
    case SetsGate(k, policy, approvals, modes, on) =>
      if k < |w.gates| {
        SettingsAlike(w.mem.cfg, c, w.gates[k], v.gates[k], policy, approvals, modes, on);
        OneGateAlike(w.mem.cfg, c, w.gates, v.gates, k,
                     w.gates[k].(policy := policy, approvals := approvals, modes := modes, available := on),
                     v.gates[k].(policy := policy, approvals := approvals, modes := modes, available := on));
      }
  }

  lemma OpenReflectionKeepsParts(w: World, v: World, c: string, token: nat, r: O.ReflectionRequest)
    requires EqualFor(w, v, c) && Separable(w.mem.cfg.nodes.Keys) && AtReadable(w.mem.cfg, c, w.desk, token)
    ensures O.DeskReady(w.desk) && O.DeskReady(v.desk)
    ensures AlikeAfter(w, Perform(w, Reflects(token, r)), Perform(v, Reflects(token, r)), c)
  {
    EqualForHas(w, v, c);
    hide WorldInv, Inv, TokensIssued, ViewOf, GatesAlike, DesksAlike, Readable, Separable, AllGatesAlike,
         AtReadable, O.DeskReady, L.DeskTokens, O.Admit, Perform, EqualFor;
    EqualParts(w, v, c);
    PerformsReflection(w, token, r);
    PerformsReflection(v, token, r);
    OpenReflectionKeepsAlike(w.mem, v.mem, c, w.desk, v.desk, token, r);
  }

  lemma OpenDeskActKeepsParts(w: World, v: World, c: string, act: Act)
    requires EqualFor(w, v, c) && (act.IssuesDesk? || act.SetsDesk?)
    ensures O.DeskReady(w.desk) && O.DeskReady(v.desk)
    ensures AlikeAfter(w, Perform(w, act), Perform(v, act), c)
  {
    EqualForHas(w, v, c);
    hide WorldInv, Inv, TokensIssued, ViewOf, GatesAlike, DesksAlike, Readable, Separable, AllGatesAlike,
         AtReadable, O.DeskReady, L.DeskTokens, O.Admit, O.IssueExecution;
    match act
    case IssuesDesk(x) => DeskIssueAlike(w.mem, v.mem, c, w.desk, v.desk, x);
    case SetsDesk(envelopes, evidence, on) => RecordsAlike(w.mem.cfg, c, w.desk, v.desk, envelopes, evidence, on);
  }

  /** An act both worlds see is performed alike. */
  lemma {:induction false} OpenActKeepsEqual(w: World, v: World, c: string, act: Act)
    requires EqualFor(w, v, c) && Separable(w.mem.cfg.nodes.Keys) && OpenAct(w, c, act)
    ensures O.DeskReady(w.desk) && O.DeskReady(v.desk) && EqualFor(Perform(w, act), Perform(v, act), c)
  {
    hide WorldInv, ViewOf, DesksAlike, AllGatesAlike, Hidden, Readable, Aside, Perform, EqualFor, AtReadable,
         FromReadable,
         Separable;
    EqualParts(w, v, c);
    PerformKeepsConfig(w, act);
    PerformKeepsConfig(v, act);
    match act {
      case Memory(ev) => OpenCallKeepsParts(w, v, c, ev);
      case IssuesService(k, contextId, role, name) => OpenServiceKeepsParts(w, v, c, k, contextId, role, name);
      case Requests(k, token, r) => OpenRequestKeepsParts(w, v, c, k, token, r);
      case JoinsGate(_, _) => OpenGateSwitchKeepsParts(w, v, c, act);
      case SetsGate(_, _, _, _, _) => OpenGateSwitchKeepsParts(w, v, c, act);
      case IssuesDesk(_) => OpenDeskActKeepsParts(w, v, c, act);
      case Reflects(token, r) => OpenReflectionKeepsParts(w, v, c, token, r);
      case SetsDesk(_, _, _) => OpenDeskActKeepsParts(w, v, c, act);
    }
    PartsAreEqual(Perform(w, act), Perform(v, act), c, w.mem.cfg);
  }

  lemma JoinAlike(cfg: Config, c: string, gs: seq<Gate>, hs: seq<Gate>, g: Gate)
    requires AllGatesAlike(cfg, c, gs, hs)
    ensures AllGatesAlike(cfg, c, gs + [g], hs + [g])
  {
    assert GatesAlike(cfg, c, g, g);
    hide GatesAlike;
  }

  lemma SettingsAlike(cfg: Config, c: string, g: Gate, h: Gate, policy: Option<PromotionPolicy>,
                      approvals: seq<Approval>, modes: map<string, S.Mode>, on: bool)
    requires GatesAlike(cfg, c, g, h)
    ensures GatesAlike(cfg, c, g.(policy := policy, approvals := approvals, modes := modes, available := on),
                       h.(policy := policy, approvals := approvals, modes := modes, available := on))
  {
  }

  lemma RecordsAlike(cfg: Config, c: string, d: O.Desk, e: O.Desk, envelopes: map<string, O.Envelope>,
                     evidence: map<string, O.Evidence>, on: bool)
    requires DesksAlike(cfg, c, d, e)
    ensures DesksAlike(cfg, c, d.(cfg := d.cfg.(envelopes := envelopes, evidence := evidence), available := on),
                       e.(cfg := e.cfg.(envelopes := envelopes, evidence := evidence), available := on))
  {
    forall key ensures OpenCase(cfg, d.cfg.(envelopes := envelopes, evidence := evidence), c, key)
                       <==> OpenCase(cfg, d.cfg, c, key) {
    }
  }

  lemma OnwardKeepsConfig(w: World, v: World)
    requires Onward(w, v)
    ensures v.mem.cfg == w.mem.cfg
  {
    hide L.DeskLater;
  }

  lemma HiddenCallKeepsParts(w: World, v: World, c: string, ev: Event)
    requires EqualFor(w, v, c) && Hidden(w.mem.cfg, c, ev)
    ensures O.DeskReady(w.desk) && ViewOf(Perform(w, Memory(ev)).mem, c) == ViewOf(v.mem, c)
    ensures Perform(w, Memory(ev)).gates == w.gates && Perform(w, Memory(ev)).desk == w.desk
  {
    EqualForHas(w, v, c);
    hide WorldInv, Inv, ViewOf, Hidden, Step;
    HiddenStepKeepsView(w.mem, c, ev);
  }

  lemma HiddenRequestKeepsParts(w: World, v: World, c: string, k: nat, token: nat, r: PromotionRequest)
    requires EqualFor(w, v, c) && !Readable(w.mem.cfg, c, r.destination)
    ensures O.DeskReady(w.desk)
    ensures var w' := Perform(w, Requests(k, token, r));
            && ViewOf(w'.mem, c) == ViewOf(v.mem, c) && AllGatesAlike(w.mem.cfg, c, w'.gates, v.gates)
            && w'.desk == w.desk
  {
    EqualForHas(w, v, c);
    hide WorldInv, Inv, TokensIssued, ViewOf, GatesAlike, DesksAlike, Promote, Readable, AllGatesAlike, O.DeskReady,
         Perform;
    EqualParts(w, v, c);
    if k >= |w.gates| {
      PerformsNothing(w, Requests(k, token, r));
    } else {
      PerformsRequest(w, k, token, r);
      HiddenPromotionKeepsView(w.mem, w.gates[k], token, r, c);
      HiddenPromotionKeepsAlike(w.mem, w.mem.cfg, c, w.gates[k], v.gates[k], token, r);
      OneGateAlike(w.mem.cfg, c, w.gates, v.gates, k, Promote(w.mem, w.gates[k], token, r).1, v.gates[k]);
      assert v.gates[k := v.gates[k]] == v.gates;
    }
  }

  lemma HiddenReflectionKeepsParts(w: World, v: World, c: string, token: nat, r: O.ReflectionRequest)
    requires EqualFor(w, v, c) && Aside(w, c, token)
    ensures O.DeskReady(w.desk)
    ensures var w' := Perform(w, Reflects(token, r));
            && ViewOf(w'.mem, c) == ViewOf(v.mem, c) && DesksAlike(w.mem.cfg, c, w'.desk, v.desk)
            && w'.gates == w.gates
  {
    EqualForHas(w, v, c);
    hide WorldInv, Inv, ViewOf, DesksAlike, AllGatesAlike, Readable, O.Admit, L.DeskTokens, O.DeskReady, Perform,
         EqualFor;
    EqualParts(w, v, c);
    PerformsReflection(w, token, r);
    HiddenReflectionKeepsView(w.mem, w.desk, token, r, c);
    HiddenReflectionKeepsAlike(w.mem, c, w.desk, v.desk, token, r);
  }

  lemma EqualParts(w: World, v: World, c: string)
    requires EqualFor(w, v, c)
    ensures AllGatesAlike(w.mem.cfg, c, w.gates, v.gates) && DesksAlike(w.mem.cfg, c, w.desk, v.desk)
    ensures WorldInv(w) && WorldInv(v) && ViewOf(w.mem, c) == ViewOf(v.mem, c)
  {
  }

  /** Equality from its parts. */
  lemma PartsAreEqual(w: World, v: World, c: string, cfg: Config)
    requires WorldInv(w) && WorldInv(v) && w.mem.cfg == cfg && ViewOf(w.mem, c) == ViewOf(v.mem, c)
    requires AllGatesAlike(cfg, c, w.gates, v.gates) && DesksAlike(cfg, c, w.desk, v.desk)
    ensures EqualFor(w, v, c)
  {
  }

  lemma PerformKeepsConfig(w: World, act: Act)
    requires WorldInv(w)
    ensures O.DeskReady(w.desk) && WorldInv(Perform(w, act)) && Perform(w, act).mem.cfg == w.mem.cfg
  {
    hide WorldInv, Perform, Onward;
    PerformKeepsWorldInv(w, act);
    OnwardKeepsConfig(w, Perform(w, act));
  }

  /** Of an act that is hidden, the other world need not know. */
  lemma {:induction false} HiddenActKeepsEqual(w: World, v: World, c: string, act: Act)
    requires EqualFor(w, v, c) && HiddenAct(w, c, act)
    ensures O.DeskReady(w.desk) && EqualFor(Perform(w, act), v, c)
  {
    hide WorldInv, ViewOf, DesksAlike, AllGatesAlike, Hidden, Readable, Aside, Perform, EqualFor;
    EqualParts(w, v, c);
    PerformKeepsConfig(w, act);
    match act {
      case Memory(ev) => HiddenCallKeepsParts(w, v, c, ev);
      case Requests(k, token, r) => HiddenRequestKeepsParts(w, v, c, k, token, r);
      case Reflects(token, r) => HiddenReflectionKeepsParts(w, v, c, token, r);
    }
    PartsAreEqual(Perform(w, act), v, c, w.mem.cfg);
  }

  /** Nothing changes for `c` when all hidden writes, promotions and reflections are taken
      out of a run of callers, gates and desk. What may stay in besides are promotions from
      one readable context to another and reflections at readable contexts: excluded are only
      promotions that carry something from where `c` may not read to where it may, and
      reflections in a public context that `c` may not read, which break the policy. */
  lemma {:induction false} HiddenActsAreNotNoticed(w: World, v: World, c: string, acts: seq<Act>)
    requires EqualFor(w, v, c) && Separable(w.mem.cfg.nodes.Keys) && NoLeaks(w, c, acts)
    ensures AnswersAt(w, c, acts) == AnswersAt(v, c, PurgeActs(w, c, acts))
    decreases |acts|
  {
    if acts != [] {
      hide *;
      var act, rest := acts[0], acts[1..];
      assert acts == [act] + rest;
      EqualParts(w, v, c);
      PerformKeepsConfig(w, act);
      FirstAct(w, c, act, rest);
      if HiddenAct(w, c, act) {
        HiddenActKeepsEqual(w, v, c, act);
        HiddenActsAreNotNoticed(Perform(w, act), v, c, rest);
        HiddenDoesNotAsk(w, c, act);
        assert PurgeActs(w, c, acts) == PurgeActs(Perform(w, act), c, rest);
        assert AnswersAt(w, c, acts) == AnswersAt(Perform(w, act), c, rest);
      } else {
        OpenActKeepsEqual(w, v, c, act);
        HiddenActsAreNotNoticed(Perform(w, act), Perform(v, act), c, rest);
        OpenActIsAnswered(w, v, c, act, rest);
      }
    }
  }

  lemma OpenActIsAnswered(w: World, v: World, c: string, act: Act, rest: seq<Act>)
    requires EqualFor(w, v, c) && Separable(w.mem.cfg.nodes.Keys) && !HiddenAct(w, c, act)
    requires O.DeskReady(w.desk) && O.DeskReady(v.desk) && EqualFor(Perform(w, act), Perform(v, act), c)
    requires AnswersAt(Perform(w, act), c, rest) == AnswersAt(Perform(v, act), c, PurgeActs(Perform(w, act), c, rest))
    ensures AnswersAt(w, c, [act] + rest) == AnswersAt(v, c, PurgeActs(w, c, [act] + rest))
  {
    hide *;
    EqualParts(w, v, c);
    FirstAct(w, c, act, rest);
    FirstAct(v, c, act, PurgeActs(Perform(w, act), c, rest));
    SameAnswer(w, v, c, act);
  }

  /** Runs by their first act. */
  lemma FirstAct(w: World, c: string, act: Act, rest: seq<Act>)
    requires WorldInv(w)
    ensures O.DeskReady(w.desk) && WorldInv(Perform(w, act))
    ensures AnswersAt(w, c, [act] + rest) ==
            (if Asks(w, c, act) then [Reply(w.mem, act.ev.ec, act.ev.caller, act.ev.request)] else [])
            + AnswersAt(Perform(w, act), c, rest)
    ensures PurgeActs(w, c, [act] + rest) ==
            (if HiddenAct(w, c, act) then [] else [act]) + PurgeActs(Perform(w, act), c, rest)
    ensures NoLeaks(w, c, [act] + rest) ==>
              (HiddenAct(w, c, act) || OpenAct(w, c, act)) && NoLeaks(Perform(w, act), c, rest)
  {
    hide WorldInv, Perform, HiddenAct, OpenAct, Reply, Onward, Asks;
    assert ([act] + rest)[0] == act && ([act] + rest)[1..] == rest;
    PerformKeepsWorldInv(w, act);
  }

  lemma HiddenDoesNotAsk(w: World, c: string, act: Act)
    requires HiddenAct(w, c, act)
    ensures !Asks(w, c, act)
  {
  }

  lemma SameAnswer(w: World, v: World, c: string, act: Act)
    requires EqualFor(w, v, c) && Separable(w.mem.cfg.nodes.Keys)
    ensures WorldInv(v) && (Asks(w, c, act) <==> Asks(v, c, act))
    ensures Asks(w, c, act) ==> Reply(w.mem, act.ev.ec, act.ev.caller, act.ev.request)
                                == Reply(v.mem, act.ev.ec, act.ev.caller, act.ev.request)
  {
    EqualForHas(w, v, c);
    hide WorldInv, Inv, Handle, Separable, Hidden, AllGatesAlike, DesksAlike;
    ViewHoldsRules(w.mem, v.mem, c);
    RulesDecideHidden(w.mem.cfg, v.mem.cfg, c);
    hide ViewOf;
    if Asks(w, c, act) { ViewDecidesAnswer(w.mem, v.mem, c, act.ev); }
  }

  lemma {:induction false} EqualForItself(w: World, c: string)
    requires WorldInv(w)
    ensures EqualFor(w, w, c)
  {
    hide WorldInv, OpenKey, OpenCase, ViewOf;
  }

  /** In particular for one world and the run with its hidden acts taken out. */
  lemma {:induction false} WholeWorldNoninterference(w: World, c: string, acts: seq<Act>)
    requires WorldInv(w) && Separable(w.mem.cfg.nodes.Keys) && NoLeaks(w, c, acts)
    ensures AnswersAt(w, c, acts) == AnswersAt(w, c, PurgeActs(w, c, acts))
  {
    hide WorldInv, EqualFor, AnswersAt, PurgeActs, NoLeaks, Separable;
    EqualForItself(w, c);
    HiddenActsAreNotNoticed(w, w, c, acts);
  }
}
