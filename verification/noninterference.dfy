/** What a context learns: reads depend only on what it may see, and over whole runs
    writes it may not see leave no trace in any answer it gets. */
module Noninterference {
  import opened Text
  import opened Records
  import opened Packing
  import opened Security
  import T = ContextTrees
  import C = Capability

  // ----- the graph ------------------------------------------------------------

  /** An edge is visible exactly when both of its end points are. */
  lemma EdgeVisibleIffEnds(m: Mem, ec: ExecutionContext, id: string)
    requires DerivedOk(m) && id in m.cfg.derived && m.cfg.derived[id].kind.GraphEdge?
    ensures var k := m.cfg.derived[id].kind;
            Allowed(m, ec, id) <==> Allowed(m, ec, k.start) && Allowed(m, ec, k.end)
  {
    var d := m.cfg.derived[id];
    assert EdgeSources(m.cfg.derived, d);
    var a, b := m.cfg.derived[d.kind.start], m.cfg.derived[d.kind.end];
    assert AllSourcesAllowed(m, ec, d.sourceIds) <==>
           AllSourcesAllowed(m, ec, a.sourceIds) && AllSourcesAllowed(m, ec, b.sourceIds);
  }

  lemma NeighborsAreVisible(m: Mem, ec: ExecutionContext, start: string, id: string)
    requires DerivedOk(m) && id in NeighborIds(m, ec, start)
    ensures Allowed(m, ec, id)
  {
    if !VisibleEdgeFrom(m, ec, start, id) {
      var e :| e in m.cfg.derived && VisibleEdgeFrom(m, ec, start, e) && m.cfg.derived[e].kind.end == id;
      EdgeVisibleIffEnds(m, ec, e);
    }
  }

  lemma PackedRecord(m: Mem, ids: seq<string>, x: Item) returns (id: string)
    requires (forall i | i in ids :: Known(m, i)) && x in Pack(RecordsOf(m, ids), Wire).entries
    ensures id in ids && x == Record(m, id)
  {
    hide Pack, Record;
    PackedComeFromEntries(RecordsOf(m, ids), x, Wire);
    var i :| 0 <= i < |ids| && RecordsOf(m, ids)[i] == x;
    id := ids[i];
  }

  lemma ListedRecord(m: Mem, ids: set<string>, x: Item) returns (id: string)
    requires (forall i | i in ids :: Known(m, i)) && x in PackIds(m, ids).entries
    ensures id in ids && x == Record(m, id)
  {
    id := PackedRecord(m, Ordered(ids), x);
  }

  /** Only visible records come back from `neighbors`. */
  lemma {:induction false} NeighborsReturnVisible(m: Mem, ec: ExecutionContext, start: string, x: Item)
    requires DerivedOk(m) && x in Read(m, ec, Neighbors(start)).entries
    ensures exists id :: Allowed(m, ec, id) && x == Record(m, id)
  {
    hide Pack, Record, Allowed, PackIds;
    var id := ListedRecord(m, NeighborIds(m, ec, start), x);
    NeighborsAreVisible(m, ec, start, id);
  }

  // ----- reads depend on the view ---------------------------------------------

  /** The same records are visible, under the same grants and cache. Hidden records,
      raw or derived, may differ in any way. */
  ghost predicate SameView(a: Mem, b: Mem, ec: ExecutionContext) {
    && DomainOf(a, ec) == DomainOf(b, ec) && a.cache == b.cache
    && a.cfg.policy.Some? && b.cfg.policy.Some? && a.cfg.policy.value.version == b.cfg.policy.value.version
    && (forall id :: Allowed(a, ec, id) <==> Allowed(b, ec, id))
    && (forall id :: Allowed(a, ec, id) ==> Record(a, id) == Record(b, id))
  }

  lemma SameListing(a: Mem, b: Mem, ec: ExecutionContext, ids: seq<string>)
    requires SameView(a, b, ec) && forall id | id in ids :: Allowed(a, ec, id)
    ensures RecordsOf(a, ids) == RecordsOf(b, ids)
  {
    forall i | 0 <= i < |ids| ensures RecordsOf(a, ids)[i] == RecordsOf(b, ids)[i] {
      assert Allowed(a, ec, ids[i]);
    }
  }

  lemma SamePool(a: Mem, b: Mem, ec: ExecutionContext, id: string)
    requires SameView(a, b, ec) && Allowed(a, ec, id)
    ensures id in a.raw <==> id in b.raw
    ensures id in a.raw || (id in a.cfg.derived && id in b.cfg.derived)
  {
    assert Record(a, id) == Record(b, id);
  }

  lemma SameMatches(a: Mem, b: Mem, ec: ExecutionContext, query: string, kind: KindName)
    requires SameView(a, b, ec)
    ensures MatchIds(a, ec, query, kind) == MatchIds(b, ec, query, kind)
  {
    forall id ensures id in MatchIds(a, ec, query, kind) <==> id in MatchIds(b, ec, query, kind) {
      if Allowed(a, ec, id) { SamePool(a, b, ec, id); }
    }
  }

  lemma SameEdges(a: Mem, b: Mem, ec: ExecutionContext, start: string, e: string)
    requires SameView(a, b, ec) && DerivedOk(a) && DerivedOk(b)
    requires VisibleEdgeFrom(a, ec, start, e)
    ensures VisibleEdgeFrom(b, ec, start, e) && a.cfg.derived[e] == b.cfg.derived[e]
  {
    SamePool(a, b, ec, e);
    assert Record(a, e) == Record(b, e);
  }

  lemma NeighborsCarry(a: Mem, b: Mem, ec: ExecutionContext, start: string, id: string)
    requires SameView(a, b, ec) && DerivedOk(a) && DerivedOk(b)
    requires id in NeighborIds(a, ec, start)
    ensures id in NeighborIds(b, ec, start)
  {
    NeighborsAreVisible(a, ec, start, id);
    SamePool(a, b, ec, id);
    if VisibleEdgeFrom(a, ec, start, id) {
      SameEdges(a, b, ec, start, id);
    } else {
      var e :| e in a.cfg.derived && VisibleEdgeFrom(a, ec, start, e) && a.cfg.derived[e].kind.end == id;
      SameEdges(a, b, ec, start, e);
    }
  }

  lemma SameNeighbors(a: Mem, b: Mem, ec: ExecutionContext, start: string)
    requires SameView(a, b, ec) && DerivedOk(a) && DerivedOk(b)
    ensures NeighborIds(a, ec, start) == NeighborIds(b, ec, start)
  {
    forall id ensures id in NeighborIds(a, ec, start) <==> id in NeighborIds(b, ec, start) {
      if id in NeighborIds(a, ec, start) { NeighborsCarry(a, b, ec, start, id); }
      if id in NeighborIds(b, ec, start) { NeighborsCarry(b, a, ec, start, id); }
    }
  }

  lemma SameRevision(a: Mem, b: Mem, ec: ExecutionContext)
    requires SameView(a, b, ec)
    ensures VisibleWrites(a, ec) == VisibleWrites(b, ec)
    ensures AllowedRawIds(a, ec) == AllowedRawIds(b, ec)
    ensures DerivedOk(a) && DerivedOk(b) ==> AllowedDerivedIds(a, ec) == AllowedDerivedIds(b, ec)
  {
    forall id ensures id in VisibleWrites(a, ec) <==> id in VisibleWrites(b, ec)
      ensures id in AllowedRawIds(a, ec) <==> id in AllowedRawIds(b, ec)
      ensures DerivedOk(a) && DerivedOk(b) ==> (id in AllowedDerivedIds(a, ec) <==> id in AllowedDerivedIds(b, ec))
    {
      if Allowed(a, ec, id) { SamePool(a, b, ec, id); }
    }
  }

  lemma {:induction false} SameCached(a: Mem, b: Mem, ec: ExecutionContext, query: string, rows: seq<CacheRow>)
    requires SameView(a, b, ec)
    ensures CachedFrom(a, ec, query, rows) == CachedFrom(b, ec, query, rows)
  {
    if rows != [] {
      SameCached(a, b, ec, query, rows[1..]);
      SameRevision(a, b, ec);
      var ids := rows[0].ids;
      assert (exists id | id in ids :: !Allowed(a, ec, id)) <==> exists id | id in ids :: !Allowed(b, ec, id);
      if forall id | id in ids :: Allowed(a, ec, id) { SameListing(a, b, ec, ids); }
    }
  }

  /** Equal views answer every read alike: a hidden record and a missing one cannot be
      told apart. */
  lemma {:induction false} ReadsDependOnView(a: Mem, b: Mem, ec: ExecutionContext, request: Request)
    requires SameView(a, b, ec) && DerivedOk(a) && DerivedOk(b) && !IsWrite(request)
    ensures Read(a, ec, request) == Read(b, ec, request)
  {
    match request
    case Search(query, kind) =>
      SameMatches(a, b, ec, query, kind);
      SameListing(a, b, ec, Ordered(MatchIds(a, ec, query, kind)));
    case Get(id) =>
      if Allowed(a, ec, id) { assert Record(a, id) == Record(b, id); }
    case Neighbors(id) =>
      if Allowed(a, ec, id) {
        SamePool(a, b, ec, id);
        assert Record(a, id) == Record(b, id);
      }
      SameNeighbors(a, b, ec, id);
      forall n | n in Ordered(NeighborIds(a, ec, id)) ensures Allowed(a, ec, n) { NeighborsAreVisible(a, ec, id, n); }
      SameListing(a, b, ec, Ordered(NeighborIds(a, ec, id)));
    case Cached(query) => SameCached(a, b, ec, query, a.cache);
    case Debug => SameRevision(a, b, ec);
  }

  // ----- what a context sees ----------------------------------------------------

  function GrantsAt(cfg: Config, c: string): seq<string> {
    var d := Lookup(cfg.contextDomains, c);
    if cfg.policy.Some? && d.Some? && d.value in cfg.policy.value.grants
    then cfg.policy.value.grants[d.value] else []
  }

  predicate Seen(cfg: Config, raw: map<string, Entry>, c: string, id: string) {
    && id in raw && raw[id].contextId in T.Lineage(cfg.nodes, c)
    && raw[id].domain in GrantsAt(cfg, c) && NotDenied(cfg, id)
  }

  lemma IssuedSees(m: Mem, ec: ExecutionContext, id: string)
    requires Identities(m) && ec in m.executions
    ensures AllowedRaw(m, ec, id) <==> Seen(m.cfg, m.raw, ec.contextId, id)
  {
  }

  /** Where a write would go, by the event and the configuration alone. */
  function Destination(cfg: Config, ev: Event): Option<string>
    requires ev.Calls? && IsWrite(ev.request)
  {
    if ev.request.Observe? then Some(ev.ec.contextId) else Lookup(cfg.declarationTargets, ev.caller.callerId)
  }

  /** A context reads what its lineage holds in a domain it is granted. */
  predicate Readable(cfg: Config, c: string, dest: string) {
    && dest in T.Lineage(cfg.nodes, c)
    && dest in cfg.contextDomains && cfg.contextDomains[dest] in GrantsAt(cfg, c)
  }

  predicate Hidden(cfg: Config, c: string, ev: Event) {
    && ev.Calls? && IsWrite(ev.request)
    && !(ev.request.Observe? && ev.ec.contextId == c)
    && Destination(cfg, ev).Some? && !Readable(cfg, c, Destination(cfg, ev).value)
  }

  /** The run without the writes `c` may not see. */
  function Purge(cfg: Config, c: string, events: seq<Event>): seq<Event> {
    if events == [] then []
    else (if Hidden(cfg, c, events[0]) then [] else [events[0]]) + Purge(cfg, c, events[1..])
  }

  predicate AsksAt(c: string, ev: Event) {
    ev.Calls? && ev.ec.contextId == c
  }

  /** The answers executions bound to `c` get, leaving out their own hidden writes. */
  function Answers(m: Mem, c: string, events: seq<Event>): seq<Response>
    decreases |events|
  {
    if events == [] then []
    else
      var ev := events[0];
      (if AsksAt(c, ev) && !Hidden(m.cfg, c, ev) then [Reply(m, ev.ec, ev.caller, ev.request)] else [])
      + Answers(Step(m, ev), c, events[1..])
  }

  // ----- unwinding ---------------------------------------------------------------

  /** The policy without its deny list. */
  datatype Rules = Rules(version: string, grants: map<string, seq<string>>)

  function RulesOf(policy: Option<Policy>): Option<Rules> {
    if policy.Some? then Some(Rules(policy.value.version, policy.value.grants)) else None
  }

  /** All of a memory that can reach an answer given at `c`: of entries and derived objects
      only what is visible there, of the deny list only whether its ids exist. */
  datatype View = View(nodes: Nodes, contextDomains: map<string, string>, declarationTargets: map<string, string>,
                       rules: Option<Rules>, cache: seq<CacheRow>, executions: set<ExecutionContext>,
                       security: map<ExecutionContext, Option<string>>, callers: map<Caller, ExecutionContext>,
                       issued: nat, available: bool, classified: bool, denyKnown: bool,
                       seen: map<string, Entry>, objects: map<string, Derived>)

  function SeenPart(cfg: Config, raw: map<string, Entry>, c: string): map<string, Entry> {
    map id | id in raw && Seen(cfg, raw, c, id) :: raw[id]
  }

  predicate AllSeen(cfg: Config, raw: map<string, Entry>, c: string, ids: seq<string>) {
    forall s | s in ids :: Seen(cfg, raw, c, s)
  }

  function ObjectsPart(cfg: Config, raw: map<string, Entry>, c: string): map<string, Derived> {
    map id | id in cfg.derived && AllSeen(cfg, raw, c, cfg.derived[id].sourceIds) :: cfg.derived[id]
  }

  predicate DenyListKnown(cfg: Config, raw: map<string, Entry>) {
    cfg.policy.Some? ==> DenyKnown(cfg.policy.value, raw)
  }

  function ViewOf(m: Mem, c: string): View {
    View(m.cfg.nodes, m.cfg.contextDomains, m.cfg.declarationTargets, RulesOf(m.cfg.policy), m.cache,
         m.executions.Keys, m.security, m.callers, m.issued, m.available, AllClassified(m.raw),
         DenyListKnown(m.cfg, m.raw), SeenPart(m.cfg, m.raw, c), ObjectsPart(m.cfg, m.raw, c))
  }

  /** Configurations that decide alike who may read and write what. */
  predicate SameRules(a: Config, b: Config) {
    && a.nodes == b.nodes && a.contextDomains == b.contextDomains && a.declarationTargets == b.declarationTargets
    && RulesOf(a.policy) == RulesOf(b.policy)
  }

  lemma ViewHoldsRules(a: Mem, b: Mem, c: string)
    requires ViewOf(a, c) == ViewOf(b, c)
    ensures SameRules(a.cfg, b.cfg)
  {
  }

  lemma RulesDecideGrants(a: Config, b: Config, c: string)
    requires SameRules(a, b)
    ensures GrantsAt(a, c) == GrantsAt(b, c)
  {
  }

  lemma RulesDecideHidden(a: Config, b: Config, c: string)
    requires SameRules(a, b)
    ensures forall dest :: Readable(a, c, dest) <==> Readable(b, c, dest)
    ensures forall ev :: Hidden(a, c, ev) <==> Hidden(b, c, ev)
  {
    RulesDecideGrants(a, b, c);
  }

  lemma {:induction false} RulesDecidePurge(a: Config, b: Config, c: string, events: seq<Event>)
    requires SameRules(a, b)
    ensures Purge(a, c, events) == Purge(b, c, events)
  {
    hide Hidden;
    if events != [] {
      RulesDecideHidden(a, b, c);
      RulesDecidePurge(a, b, c, events[1..]);
    }
  }

  lemma ViewDecidesRefusal(a: Mem, b: Mem, c: string, ec: ExecutionContext, caller: Caller, request: Request)
    requires ViewOf(a, c) == ViewOf(b, c)
    ensures Refusal(a, ec, caller, request) == Refusal(b, ec, caller, request)
  {
    hide SeenPart, ObjectsPart, DenyKnown, WellFormed;
    assert ec in a.executions <==> ec in ViewOf(a, c).executions;
    assert ec in b.executions <==> ec in ViewOf(b, c).executions;
  }

  /** What an execution is allowed is what its context sees. */
  lemma AllowedIsSeen(m: Mem, ec: ExecutionContext, id: string)
    requires Identities(m) && DerivedOk(m) && ec in m.executions
    ensures var v := ViewOf(m, ec.contextId);
            && (Allowed(m, ec, id) <==> id in v.seen || id in v.objects)
            && (id in v.seen ==> id !in v.objects && Known(m, id) && Record(m, id) == RawItem(v.seen[id]))
            && (id in v.objects ==> Known(m, id) && Record(m, id) == DerivedItem(v.objects[id]))
  {
    IssuedSees(m, ec, id);
    if id in m.cfg.derived {
      assert id !in m.raw;
      var sources := m.cfg.derived[id].sourceIds;
      forall s ensures AllowedRaw(m, ec, s) <==> Seen(m.cfg, m.raw, ec.contextId, s) { IssuedSees(m, ec, s); }
      assert AllSourcesAllowed(m, ec, sources) <==> AllSeen(m.cfg, m.raw, ec.contextId, sources);
    }
  }

  lemma ViewDecidesObject(a: Mem, b: Mem, ec: ExecutionContext, id: string)
    requires ViewOf(a, ec.contextId) == ViewOf(b, ec.contextId) && Identities(a) && Identities(b) && ec in a.executions
    requires DerivedOk(a) && DerivedOk(b)
    ensures Allowed(a, ec, id) <==> Allowed(b, ec, id)
    ensures Allowed(a, ec, id) ==> Record(a, id) == Record(b, id)
  {
    assert ec in b.executions by { assert ec in ViewOf(b, ec.contextId).executions; }
    hide ViewOf, Identities, DerivedOk, Allowed, Record;
    AllowedIsSeen(a, ec, id);
    AllowedIsSeen(b, ec, id);
  }

  lemma ViewDecidesSameView(a: Mem, b: Mem, ec: ExecutionContext)
    requires ViewOf(a, ec.contextId) == ViewOf(b, ec.contextId) && Identities(a) && Identities(b) && ec in a.executions
    requires DerivedOk(a) && DerivedOk(b) && a.cfg.policy.Some?
    ensures SameView(a, b, ec)
  {
    hide SeenPart, ObjectsPart, DenyListKnown, AllClassified, Record, AllowedRaw, AllSourcesAllowed, Identities,
         DerivedOk;
    forall id ensures Allowed(a, ec, id) <==> Allowed(b, ec, id)
      ensures Allowed(a, ec, id) ==> Record(a, id) == Record(b, id)
    {
      ViewDecidesObject(a, b, ec, id);
    }
  }

  /** In a readable context every stored write is seen, so its ids are no secret. */
  lemma StoredKeyIsSeen(m: Mem, c: string, target: string, local: string)
    requires Lockstep(m) && Namespaced(m) && DenyOnlySetup(m) && Separable(m.cfg.nodes.Keys)
    requires target in m.cfg.nodes && Readable(m.cfg, c, target)
    requires Key(target, local) in m.raw && LocalId(local)
    ensures Seen(m.cfg, m.raw, c, Key(target, local))
  {
    var k := Key(target, local);
    KeyQualified(target, local);
    assert HasWrites(m.raw);
    var l :| OwnedKey(m.raw[k], l);
    KeyOwner(m.cfg.nodes.Keys, target, local, m.raw[k].contextId, l);
  }

  lemma ViewDecidesKey(a: Mem, b: Mem, c: string, target: string, local: string)
    requires Inv(a) && Inv(b) && ViewOf(a, c) == ViewOf(b, c) && Separable(a.cfg.nodes.Keys)
    requires target in a.cfg.nodes && Readable(a.cfg, c, target) && LocalId(local)
    ensures Known(a, Key(target, local)) <==> Known(b, Key(target, local))
  {
    ViewHoldsRules(a, b, c);
    RulesDecideHidden(a.cfg, b.cfg, c);
    KnownKeyIsSeen(a, c, target, local);
    KnownKeyIsSeen(b, c, target, local);
  }

  lemma KnownKeyIsSeen(m: Mem, c: string, target: string, local: string)
    requires Inv(m) && Separable(m.cfg.nodes.Keys)
    requires target in m.cfg.nodes && Readable(m.cfg, c, target) && LocalId(local)
    ensures Known(m, Key(target, local)) <==> Key(target, local) in ViewOf(m, c).seen
  {
    KeyQualified(target, local);
    hide Readable, Seen, LocalId, T.RootedTree;
    if Key(target, local) in m.raw { StoredKeyIsSeen(m, c, target, local); }
  }

  lemma LineageStaysInTree(nodes: Nodes, c: string, a: string)
    requires T.RootedTree(nodes) && a in T.Lineage(nodes, c)
    ensures a in nodes
  {
    if c in nodes {
      T.TreeNodeClimbs(nodes, c);
      T.LineageIsInherited(nodes, c, a);
    }
  }

  /** An own observation in a domain that does not grant itself is refused. */
  lemma UnreadableOwnContext(m: Mem, ec: ExecutionContext, request: Request)
    requires Identities(m) && ec in m.executions && request.Observe? && !Readable(m.cfg, ec.contextId, ec.contextId)
    ensures !Writable(m, ec, ec.contextId, request)
  {
    T.OwnLineage(m.cfg.nodes, ec.contextId);
  }

  lemma ViewDecidesTarget(a: Mem, b: Mem, c: string, ec: ExecutionContext, caller: Caller, request: Request)
    requires ViewOf(a, c) == ViewOf(b, c) && IsWrite(request)
    ensures Target(a, ec, caller, request) == Target(b, ec, caller, request)
    ensures DomainOf(a, ec) == DomainOf(b, ec) && Granted(a, ec) == Granted(b, ec)
  {
  }

  lemma TargetIsDestination(m: Mem, ev: Event)
    requires ev.Calls? && IsWrite(ev.request) && Target(m, ev.ec, ev.caller, ev.request).Some?
    ensures Target(m, ev.ec, ev.caller, ev.request) == Destination(m.cfg, ev)
  {
  }

  /** A write `c` may see, or its own observation, is accepted by both or by neither. */
  lemma ViewDecidesWrite(a: Mem, b: Mem, c: string, ev: Event)
    requires Inv(a) && Inv(b) && ViewOf(a, c) == ViewOf(b, c) && Separable(a.cfg.nodes.Keys)
    requires ev.Calls? && IsWrite(ev.request) && !Hidden(a.cfg, c, ev)
    requires ev.ec in a.executions && ev.ec in b.executions && WellFormed(ev.request)
    ensures Written(a, ev.ec, ev.caller, ev.request) == Written(b, ev.ec, ev.caller, ev.request)
  {
    assert ev.request.Observe? || ev.request.Declare?;
    hide *;
    WrittenByParts(a, ev.ec, ev.caller, ev.request);
    WrittenByParts(b, ev.ec, ev.caller, ev.request);
    InvParts(a);
    InvParts(b);
    ViewHoldsRules(a, b, c);
    RulesDecideHidden(a.cfg, b.cfg, c);
    SameNodes(a.cfg, b.cfg);
    var target := Target(a, ev.ec, ev.caller, ev.request);
    ViewDecidesTarget(a, b, c, ev.ec, ev.caller, ev.request);
    if target.Some? {
      TargetIsDestination(a, ev);
      if Readable(a.cfg, c, target.value) {
        InReadableTree(a, c, target.value);
        AcceptedIsLocal(ev.request);
        ViewDecidesKey(a, b, c, target.value, ev.request.local);
      } else {
        UnreadableTargetIsOwn(a.cfg, c, ev, target.value);
        UnreadableOwnContext(a, ev.ec, ev.request);
        UnreadableOwnContext(b, ev.ec, ev.request);
      }
    }
  }

  lemma SameNodes(a: Config, b: Config)
    requires SameRules(a, b)
    ensures a.nodes == b.nodes
  {
  }

  lemma AcceptedIsLocal(request: Request)
    requires IsWrite(request) && WellFormed(request)
    ensures LocalId(request.local)
  {
  }

  lemma UnreadableTargetIsOwn(cfg: Config, c: string, ev: Event, target: string)
    requires ev.Calls? && IsWrite(ev.request) && !Hidden(cfg, c, ev)
    requires Destination(cfg, ev) == Some(target) && !Readable(cfg, c, target)
    ensures ev.request.Observe? && ev.ec.contextId == c == target
  {
  }

  /** What the outcome of a write is decided by. */
  lemma WrittenByParts(m: Mem, ec: ExecutionContext, caller: Caller, request: Request)
    requires IsWrite(request)
    ensures Written(m, ec, caller, request) ==
            var target, d := Target(m, ec, caller, request), DomainOf(m, ec);
            if target.Some? && Admissible(d, Granted(m, ec), request) && !Known(m, Key(target.value, request.local))
            then Some(NewEntry(target.value, d.value, caller.callerId, request)) else None
    ensures !Writable(m, ec, ec.contextId, request) && Target(m, ec, caller, request) == Some(ec.contextId) ==>
            Written(m, ec, caller, request) == None
  {
  }

  predicate Admissible(d: Option<string>, granted: seq<string>, request: Request)
    requires IsWrite(request)
  {
    d.Some? && d.value != PUBLIC && d.value in granted && request.content != ""
  }

  lemma InReadableTree(m: Mem, c: string, target: string)
    requires Inv(m) && Readable(m.cfg, c, target)
    ensures target in m.cfg.nodes
  {
    LineageStaysInTree(m.cfg.nodes, c, target);
  }

  predicate SeesEntry(cfg: Config, c: string, e: Entry) {
    e.contextId in T.Lineage(cfg.nodes, c) && e.domain in GrantsAt(cfg, c)
  }

  lemma RulesDecideSeeing(a: Config, b: Config, c: string, e: Entry)
    requires SameRules(a, b)
    ensures SeesEntry(a, c, e) <==> SeesEntry(b, c, e)
  {
    RulesDecideGrants(a, b, c);
  }

  /** A new id is not on a deny list whose ids all exist. */
  lemma SeenAfter(cfg: Config, raw: map<string, Entry>, c: string, e: Entry)
    requires e.id !in raw && DenyListKnown(cfg, raw)
    ensures SeenPart(cfg, raw[e.id := e], c) ==
            if SeesEntry(cfg, c, e) then SeenPart(cfg, raw, c)[e.id := e] else SeenPart(cfg, raw, c)
  {
    var after := raw[e.id := e];
    forall id ensures id != e.id ==> (Seen(cfg, after, c, id) <==> Seen(cfg, raw, c, id)) {
    }
  }

  lemma ClassifiedAfter(raw: map<string, Entry>, e: Entry)
    requires e.id !in raw
    ensures AllClassified(raw[e.id := e]) <==> AllClassified(raw) && Classified(e)
  {
    var after := raw[e.id := e];
    if AllClassified(after) {
      forall id | id in raw ensures Classified(raw[id]) { assert after[id] == raw[id]; }
      assert after[e.id] == e;
    }
  }

  lemma ObjectsAfter(m: Mem, c: string, e: Entry)
    requires DerivedOk(m) && Qualified(e.id)
    ensures ObjectsPart(m.cfg, m.raw[e.id := e], c) == ObjectsPart(m.cfg, m.raw, c)
  {
    var after := m.raw[e.id := e];
    forall id | id in m.cfg.derived
      ensures AllSeen(m.cfg, after, c, m.cfg.derived[id].sourceIds) <==>
              AllSeen(m.cfg, m.raw, c, m.cfg.derived[id].sourceIds)
    {
      forall s | s in m.cfg.derived[id].sourceIds ensures Seen(m.cfg, after, c, s) <==> Seen(m.cfg, m.raw, c, s) {
        assert s != e.id;
      }
    }
  }

  /** What a commit does to a view. */
  lemma ViewAfterCommit(m: Mem, c: string, e: Entry, bind: bool)
    requires Qualified(e.id) && e.id !in m.raw && DerivedOk(m) && DenyListKnown(m.cfg, m.raw)
    ensures ViewOf(Commit(m, e, bind), c) ==
            var v := ViewOf(m, c);
            v.(classified := v.classified && Classified(e),
               seen := if SeesEntry(m.cfg, c, e) then v.seen[e.id := e] else v.seen)
  {
    hide SeenPart, ObjectsPart, SeesEntry, Qualified;
    SeenAfter(m.cfg, m.raw, c, e);
    ObjectsAfter(m, c, e);
    ClassifiedAfter(m.raw, e);
    assert DenyListKnown(m.cfg, m.raw[e.id := e]);
  }

  /** Local respect: a hidden write leaves the view as it was. */
  lemma {:induction false} HiddenStepKeepsView(m: Mem, c: string, ev: Event)
    requires Inv(m) && Hidden(m.cfg, c, ev)
    ensures ViewOf(Step(m, ev), c) == ViewOf(m, c)
  {
    if Refusal(m, ev.ec, ev.caller, ev.request) == None && Written(m, ev.ec, ev.caller, ev.request).Some? {
      HiddenCommitKeepsView(m, c, ev);
    }
  }

  lemma HiddenCommitKeepsView(m: Mem, c: string, ev: Event)
    requires Inv(m) && Hidden(m.cfg, c, ev)
    requires Refusal(m, ev.ec, ev.caller, ev.request) == None && Written(m, ev.ec, ev.caller, ev.request).Some?
    ensures ViewOf(Commit(m, Written(m, ev.ec, ev.caller, ev.request).value, ev.request.Declare?), c) == ViewOf(m, c)
  {
    hide Inv, ViewOf, Commit, Committable;
    var e := Written(m, ev.ec, ev.caller, ev.request).value;
    WrittenIsFresh(m, ev.ec, ev.caller, ev.request);
    InvParts(m);
    ViewAfterCommit(m, c, e, ev.request.Declare?);
    assert ViewOf(m, c).classified by { ClassifiedInView(m, c); }
  }

  lemma ClassifiedInView(m: Mem, c: string)
    ensures ViewOf(m, c).classified == AllClassified(m.raw)
  {
  }

  lemma CallAnswer(m: Mem, ev: Event)
    requires ev.Calls?
    ensures Reply(m, ev.ec, ev.caller, ev.request) ==
            match Refusal(m, ev.ec, ev.caller, ev.request)
            case Some(refused) => refused
            case None =>
              if IsWrite(ev.request) then Acknowledge(Written(m, ev.ec, ev.caller, ev.request))
              else Read(m, ev.ec, ev.request)
  {
    CallEffect(m, ev);
  }

  /** Output consistency: equal views give executions at `c` the same answers. */
  lemma {:induction false} ViewDecidesAnswer(a: Mem, b: Mem, c: string, ev: Event)
    requires Inv(a) && Inv(b) && ViewOf(a, c) == ViewOf(b, c) && Separable(a.cfg.nodes.Keys)
    requires ev.Calls? && ev.ec.contextId == c && !Hidden(a.cfg, c, ev)
    ensures Reply(a, ev.ec, ev.caller, ev.request) == Reply(b, ev.ec, ev.caller, ev.request)
  {
    hide *;
    InvParts(a);
    InvParts(b);
    CallAnswer(a, ev);
    CallAnswer(b, ev);
    ViewDecidesRefusal(a, b, c, ev.ec, ev.caller, ev.request);
    if Refusal(a, ev.ec, ev.caller, ev.request) == None {
      RefusalPassed(a, ev.ec, ev.caller, ev.request);
      RefusalPassed(b, ev.ec, ev.caller, ev.request);
      if IsWrite(ev.request) {
        ViewDecidesWrite(a, b, c, ev);
      } else {
        ViewDecidesRead(a, b, ev.ec, ev.caller, ev.request);
      }
    }
  }

  lemma ViewDecidesRead(a: Mem, b: Mem, ec: ExecutionContext, caller: Caller, request: Request)
    requires Inv(a) && Inv(b) && ViewOf(a, ec.contextId) == ViewOf(b, ec.contextId)
    requires !IsWrite(request) && Refusal(a, ec, caller, request) == None && Refusal(b, ec, caller, request) == None
    ensures Read(a, ec, request) == Read(b, ec, request)
  {
    hide *;
    InvParts(a);
    InvParts(b);
    RefusalPassed(a, ec, caller, request);
    RefusalPassed(b, ec, caller, request);
    ViewDecidesSameView(a, b, ec);
    ReadsDependOnView(a, b, ec, request);
  }

  /** Step consistency: equal views stay equal under a step that is not hidden. */
  lemma {:induction false} CallKeepsViews(a: Mem, b: Mem, c: string, ev: Event)
    requires Inv(a) && Inv(b) && ViewOf(a, c) == ViewOf(b, c) && Separable(a.cfg.nodes.Keys)
    requires ev.Calls? && !Hidden(a.cfg, c, ev)
    ensures ViewOf(Step(a, ev), c) == ViewOf(Step(b, ev), c)
  {
    hide *;
    InvParts(a);
    InvParts(b);
    CallEffect(a, ev);
    CallEffect(b, ev);
    ViewDecidesRefusal(a, b, c, ev.ec, ev.caller, ev.request);
    if Refusal(a, ev.ec, ev.caller, ev.request) == None && IsWrite(ev.request) {
      RefusalPassed(a, ev.ec, ev.caller, ev.request);
      RefusalPassed(b, ev.ec, ev.caller, ev.request);
      ViewDecidesWrite(a, b, c, ev);
      var e := Written(a, ev.ec, ev.caller, ev.request);
      if e.Some? {
        WrittenIsFresh(a, ev.ec, ev.caller, ev.request);
        WrittenIsFresh(b, ev.ec, ev.caller, ev.request);
        ViewHoldsRules(a, b, c);
        RulesDecideSeeing(a.cfg, b.cfg, c, e.value);
        PolicyKnowsDenyList(a, ev.ec);
        PolicyKnowsDenyList(b, ev.ec);
        ViewAfterCommit(a, c, e.value, ev.request.Declare?);
        ViewAfterCommit(b, c, e.value, ev.request.Declare?);
      }
    }
  }

  lemma PolicyKnowsDenyList(m: Mem, ec: ExecutionContext)
    requires PolicyState(m, ec) == None
    ensures DenyListKnown(m.cfg, m.raw)
  {
  }

  // ----- observations between two memories that look the same ----------------------

  lemma OwnContextReadable(m: Mem, ec: ExecutionContext)
    requires Identities(m) && ec in m.executions && DomainOf(m, ec).Some? && DomainOf(m, ec).value in Granted(m, ec)
    ensures Readable(m.cfg, ec.contextId, ec.contextId)
  {
    T.OwnLineage(m.cfg.nodes, ec.contextId);
  }

  /** Where an execution may write at all, an id is taken exactly when it sees the entry. */
  lemma OwnKeyIsAllowed(m: Mem, ec: ExecutionContext, local: string)
    requires Inv(m) && ec in m.executions && Separable(m.cfg.nodes.Keys) && LocalId(local)
    requires DomainOf(m, ec).Some? && DomainOf(m, ec).value in Granted(m, ec)
    ensures Known(m, Key(ec.contextId, local)) <==> Allowed(m, ec, Key(ec.contextId, local))
  {
    hide Readable, LocalId, Separable, T.RootedTree, Granted;
    KeyQualified(ec.contextId, local);
    OwnContextReadable(m, ec);
    if Key(ec.contextId, local) in m.raw {
      StoredKeyIsSeen(m, ec.contextId, ec.contextId, local);
      IssuedSees(m, ec, Key(ec.contextId, local));
    }
  }

  lemma SameObservation(a: Mem, b: Mem, ec: ExecutionContext, caller: Caller, request: Request)
    requires Inv(a) && Inv(b) && SameView(a, b, ec) && Granted(a, ec) == Granted(b, ec) && request.Observe?
    requires ec in a.executions && ec in b.executions && WellFormed(request)
    requires Separable(a.cfg.nodes.Keys) && Separable(b.cfg.nodes.Keys)
    ensures Written(a, ec, caller, request) == Written(b, ec, caller, request)
  {
    hide Inv, WellFormed, LocalId, Separable, Granted, Allowed, Known;
    AcceptedIsLocal(request);
    if DomainOf(a, ec).Some? && DomainOf(a, ec).value in Granted(a, ec) {
      OwnKeyIsAllowed(a, ec, request.local);
      OwnKeyIsAllowed(b, ec, request.local);
    }
  }

  /** An execution's own new entry becomes visible to it, and nothing else changes. */
  lemma AllowedAfterOwn(m: Mem, ec: ExecutionContext, e: Entry, id: string)
    requires Identities(m) && DerivedOk(m) && ec in m.executions && PolicyState(m, ec) == None
    requires Qualified(e.id) && e.id !in m.raw && e.contextId == ec.contextId && e.domain in Granted(m, ec)
    ensures var n := Commit(m, e, false);
            && (Allowed(n, ec, id) <==> id == e.id || Allowed(m, ec, id))
            && (id == e.id ==> Known(n, id) && Record(n, id) == RawItem(e))
            && (id != e.id && Allowed(m, ec, id) ==> Record(n, id) == Record(m, id))
  {
    T.OwnLineage(m.cfg.nodes, ec.contextId);
    PolicyKnowsDenyList(m, ec);
    hide PolicyState, T.Lineage, Identities;
    var n := Commit(m, e, false);
    if id in m.cfg.derived && id !in n.raw {
      var sources := m.cfg.derived[id].sourceIds;
      forall s | s in sources ensures AllowedRaw(n, ec, s) <==> AllowedRaw(m, ec, s) { assert s != e.id; }
      assert AllSourcesAllowed(n, ec, sources) <==> AllSourcesAllowed(m, ec, sources);
    }
  }

  lemma ObservedIsOwn(m: Mem, ec: ExecutionContext, caller: Caller, request: Request)
    requires request.Observe? && Written(m, ec, caller, request).Some?
    ensures var e := Written(m, ec, caller, request).value;
            e.contextId == ec.contextId && e.domain in Granted(m, ec)
  {
  }

  /** An observation is answered alike by two memories that look the same to its execution,
      whatever else they hold, and they look the same to it afterwards. */
  lemma {:induction false} ObservationKeepsSameView(a: Mem, b: Mem, ec: ExecutionContext, caller: Caller,
                                                    request: Request)
    requires Inv(a) && Inv(b) && SameView(a, b, ec) && Granted(a, ec) == Granted(b, ec) && request.Observe?
    requires Refusal(a, ec, caller, request) == None && Refusal(b, ec, caller, request) == None
    requires Separable(a.cfg.nodes.Keys) && Separable(b.cfg.nodes.Keys)
    ensures Handle(a, ec, caller, request).1 == Handle(b, ec, caller, request).1
    ensures SameView(Handle(a, ec, caller, request).0, Handle(b, ec, caller, request).0, ec)
  {
    InvParts(a);
    InvParts(b);
    hide *;
    RefusalPassed(a, ec, caller, request);
    RefusalPassed(b, ec, caller, request);
    SameObservation(a, b, ec, caller, request);
    ObservationEffect(a, ec, caller, request);
    ObservationEffect(b, ec, caller, request);
    if Written(a, ec, caller, request).Some? {
      WrittenIsFresh(a, ec, caller, request);
      WrittenIsFresh(b, ec, caller, request);
      ObservedIsOwn(a, ec, caller, request);
      OwnEntryKeepsSameView(a, b, ec, Written(a, ec, caller, request).value);
    }
  }

  lemma ObservationEffect(m: Mem, ec: ExecutionContext, caller: Caller, request: Request)
    requires request.Observe? && Refusal(m, ec, caller, request) == None
    ensures IsWrite(request)
    ensures var e := Written(m, ec, caller, request);
            Handle(m, ec, caller, request) == (if e.Some? then Commit(m, e.value, false) else m, Acknowledge(e))
  {
    hide Written, Commit, Refusal, Read;
  }

  lemma OwnEntryKeepsSameView(a: Mem, b: Mem, ec: ExecutionContext, e: Entry)
    requires SameView(a, b, ec) && Identities(a) && Identities(b) && DerivedOk(a) && DerivedOk(b)
    requires ec in a.executions && ec in b.executions && PolicyState(a, ec) == None && PolicyState(b, ec) == None
    requires Qualified(e.id) && e.id !in a.raw && e.id !in b.raw && e.contextId == ec.contextId
    requires e.domain in Granted(a, ec) && e.domain in Granted(b, ec)
    ensures SameView(Commit(a, e, false), Commit(b, e, false), ec)
  {
    hide Granted, Record, PolicyState, AllowedRaw, AllSourcesAllowed, Identities, DerivedOk, Qualified;
    var m, n := Commit(a, e, false), Commit(b, e, false);
    forall id
      ensures Allowed(m, ec, id) <==> Allowed(n, ec, id)
      ensures Allowed(m, ec, id) ==> Record(m, id) == Record(n, id)
    {
      AllowedAfterOwn(a, ec, e, id);
      AllowedAfterOwn(b, ec, e, id);
    }
  }

  lemma OtherStepKeepsViews(a: Mem, b: Mem, c: string, ev: Event)
    requires ViewOf(a, c) == ViewOf(b, c) && !ev.Calls?
    ensures ViewOf(Step(a, ev), c) == ViewOf(Step(b, ev), c)
  {
    hide SeenPart, ObjectsPart, DenyListKnown, AllClassified;
    assert a.executions.Keys == ViewOf(a, c).executions == b.executions.Keys;
    match ev
    case Begins(executionId, contextId) =>
      var ec := C.ExecutionContext(a.issued, executionId, contextId);
      assert a.executions[ec := a.bound].Keys == b.executions[ec := b.bound].Keys;
    case Joins(ec, _, _) =>
      assert ec in a.executions <==> ec in b.executions;
    case Switches(_) =>
    case Caches(_) =>
  }

  lemma {:induction false} EqualViewsRun(a: Mem, b: Mem, c: string, events: seq<Event>)
    requires Inv(a) && Inv(b) && ViewOf(a, c) == ViewOf(b, c) && Separable(a.cfg.nodes.Keys)
    ensures Answers(a, c, events) == Answers(b, c, Purge(a.cfg, c, events))
    decreases |events|
  {
    hide Inv, ViewOf, Handle, Step, Separable, Hidden, SameRules;
    ViewHoldsRules(a, b, c);
    RulesDecideHidden(a.cfg, b.cfg, c);
    SameNodes(a.cfg, b.cfg);
    if events != [] {
      var ev, rest := events[0], Purge(a.cfg, c, events[1..]);
      StepKeepsInv(a, ev);
      StepKeepsConfig(a, ev);
      if Hidden(a.cfg, c, ev) {
        HiddenStepKeepsView(a, c, ev);
        EqualViewsRun(Step(a, ev), b, c, events[1..]);
        assert Purge(a.cfg, c, events) == rest;
      } else {
        StepKeepsInv(b, ev);
        StepKeepsConfig(b, ev);
        if ev.Calls? { CallKeepsViews(a, b, c, ev); } else { OtherStepKeepsViews(a, b, c, ev); }
        EqualViewsRun(Step(a, ev), Step(b, ev), c, events[1..]);
        assert Purge(a.cfg, c, events) == [ev] + rest;
        assert ([ev] + rest)[1..] == rest;
        if AsksAt(c, ev) { ViewDecidesAnswer(a, b, c, ev); }
      }
    }
  }

  /** Two memories that look the same at `c` - hidden entries, hidden derived objects and
      deny lists may differ in any way - answer its executions alike over every run, whether
      or not the writes `c` may not see are removed. */
  lemma {:induction false} LookalikesAnswerAlike(a: Mem, b: Mem, c: string, events: seq<Event>)
    requires Inv(a) && Inv(b) && ViewOf(a, c) == ViewOf(b, c) && Separable(a.cfg.nodes.Keys)
    ensures Answers(a, c, events) == Answers(b, c, events)
    ensures Answers(a, c, events) == Answers(b, c, Purge(a.cfg, c, events))
  {
    hide Inv, ViewOf, Answers, Purge;
    ViewHoldsRules(a, b, c);
    SameNodes(a.cfg, b.cfg);
    EqualViewsRun(a, b, c, events);
    EqualViewsRun(b, b, c, events);
    RulesDecidePurge(a.cfg, b.cfg, c, events);
  }

  /** Whole-run noninterference: removing every write that a context may not see
      changes none of the answers its executions get, for any run, any interleaving
      of callers, and any state of the policy. */
  lemma {:induction false} WholeRunNoninterference(m: Mem, c: string, events: seq<Event>)
    requires Inv(m) && Separable(m.cfg.nodes.Keys)
    ensures Answers(m, c, events) == Answers(m, c, Purge(m.cfg, c, events))
  {
    EqualViewsRun(m, m, c, events);
  }
}
