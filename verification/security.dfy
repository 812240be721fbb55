/** Scoped memory under security domains: what an execution may see, what it is
    answered and what it may write. The state is one value; the class in
    security_memory.dfy updates it in place. */
module Security {
  import opened Text
  import opened Records
  import opened Packing
  import T = ContextTrees
  import C = Capability

  type Nodes = T.Nodes
  type ExecutionContext = C.ExecutionContext
  type Caller = C.Caller

  const DOMAINS: set<string> := {"public", "personal", "employer-x"}
  const PUBLIC := "public"
  const POLICY_VERSION := "fixture-v1"

  datatype Policy = Policy(version: string, grants: map<string, seq<string>>, denyIds: seq<string>)

  datatype CacheRow = CacheRow(query: string, contextId: string, domain: string, policyVersion: string,
                               revision: int, ids: seq<string>)

  /** What trusted setup fixes for a run. */
  datatype Config = Config(nodes: Nodes, policy: Option<Policy>, contextDomains: map<string, string>,
                           declarationTargets: map<string, string>, derived: map<string, Derived>)

  /** The whole memory: configuration, precomputed cache, both stores, issued identities,
      fault switch. */
  datatype Mem = Mem(cfg: Config, cache: seq<CacheRow>, raw: map<string, Entry>, entries: T.Entries,
                     bindings: map<nat, string>, bound: nat,
                     executions: map<ExecutionContext, nat>, security: map<ExecutionContext, Option<string>>,
                     callers: map<Caller, ExecutionContext>, issued: nat, available: bool)

  datatype Request = Search(query: string, kind: KindName)
                   | Get(id: string)
                   | Neighbors(id: string)
                   | Cached(query: string)
                   | Debug
                   | Observe(local: string, content: string)
                   | Declare(local: string, content: string, targetContext: string)

  predicate IsWrite(request: Request) {
    request.Observe? || request.Declare?
  }

  predicate Short(s: string) {
    Utf8(s) <= 1024
  }

  predicate WellFormed(request: Request) {
    match request
    case Search(query, _) => Short(query)
    case Get(id) => C.BoundedId(id)
    case Neighbors(id) => C.BoundedId(id)
    case Cached(query) => Short(query)
    case Debug => true
    case Observe(local, content) => C.BoundedId(local) && Short(content)
    case Declare(local, content, target) => C.BoundedId(local) && Short(content) && Short(target)
  }

  // ----- policy ---------------------------------------------------------------

  predicate GrantsOk(domain: string, grants: seq<string>) {
    && (forall i, j | 0 <= i < j < |grants| :: grants[i] != grants[j])
    && (forall g | g in grants :: g == domain || g == PUBLIC)
  }

  predicate PolicyShape(p: Policy) {
    && p.version == POLICY_VERSION
    && p.grants.Keys == DOMAINS
    && (forall d | d in p.grants :: GrantsOk(d, p.grants[d]))
  }

  predicate DenyKnown(p: Policy, raw: map<string, Entry>) {
    forall i | i in p.denyIds :: i in raw
  }

  predicate DomainsShape(cfg: Config) {
    && cfg.contextDomains.Keys == cfg.nodes.Keys
    && (forall c | c in cfg.contextDomains :: cfg.contextDomains[c] in DOMAINS)
  }

  predicate Classified(e: Entry) {
    e.domain in DOMAINS && e.classification == (if e.domain == PUBLIC then "PUBLIC" else "PRIVATE")
  }

  predicate AllClassified(raw: map<string, Entry>) {
    forall id | id in raw :: Classified(raw[id])
  }

  function DomainOf(m: Mem, ec: ExecutionContext): Option<string> {
    if ec in m.security then m.security[ec] else None
  }

  predicate BoundDomain(m: Mem, ec: ExecutionContext) {
    && DomainOf(m, ec).Some?
    && DomainOf(m, ec).value in DOMAINS
    && DomainOf(m, ec) == Lookup(m.cfg.contextDomains, ec.contextId)
  }

  /** `policy_state`: `None` when requests may go ahead. */
  function PolicyState(m: Mem, ec: ExecutionContext): Option<Status> {
    if m.cfg.policy == None then Some(Unavailable)
    else if PolicyShape(m.cfg.policy.value) && DenyKnown(m.cfg.policy.value, m.raw) && DomainsShape(m.cfg)
            && BoundDomain(m, ec) && AllClassified(m.raw) then None
    else Some(Denied)
  }

  // ----- visibility -------------------------------------------------------------

  function Granted(m: Mem, ec: ExecutionContext): seq<string> {
    var d := DomainOf(m, ec);
    if m.cfg.policy.Some? && d.Some? && d.value in m.cfg.policy.value.grants
    then m.cfg.policy.value.grants[d.value] else []
  }

  predicate NotDenied(cfg: Config, id: string) {
    cfg.policy.Some? ==> id !in cfg.policy.value.denyIds
  }

  predicate AllowedRaw(m: Mem, ec: ExecutionContext, id: string) {
    && id in m.raw
    && m.raw[id].contextId in T.Lineage(m.cfg.nodes, ec.contextId)
    && m.raw[id].domain in Granted(m, ec)
    && NotDenied(m.cfg, id)
  }

  predicate AllSourcesAllowed(m: Mem, ec: ExecutionContext, sourceIds: seq<string>) {
    forall s | s in sourceIds :: AllowedRaw(m, ec, s)
  }

  predicate Known(m: Mem, id: string) {
    id in m.raw || id in m.cfg.derived
  }

  predicate Allowed(m: Mem, ec: ExecutionContext, id: string) {
    if id in m.raw then AllowedRaw(m, ec, id)
    else id in m.cfg.derived && AllSourcesAllowed(m, ec, m.cfg.derived[id].sourceIds)
  }

  function Record(m: Mem, id: string): Item
    requires Known(m, id)
  {
    if id in m.raw then RawItem(m.raw[id]) else DerivedItem(m.cfg.derived[id])
  }

  function RecordsOf(m: Mem, ids: seq<string>): (r: seq<Item>)
    requires forall id | id in ids :: Known(m, id)
    ensures |r| == |ids| && forall i | 0 <= i < |ids| :: Known(m, ids[i]) && r[i] == Record(m, ids[i])
  {
    seq(|ids|, i requires 0 <= i < |ids| => Record(m, ids[i]))
  }

  /** The packed records of a set of ids; the listing order does not matter. */
  function PackIds(m: Mem, ids: set<string>): Response
    requires forall id | id in ids :: Known(m, id)
  {
    Pack(RecordsOf(m, Ordered(ids)), Wire)
  }

  // ----- reads --------------------------------------------------------------------

  function KindOf(x: Item): KindName {
    match x
    case RawItem(_) => RawName
    case DerivedItem(d) => NameOf(d.kind)
    case MemoryItem(_) => RawName
    case Diagnostics(_, _) => RawName
  }

  predicate Matches(x: Item, query: string, kind: KindName) {
    KindOf(x) == kind && Contains(x.Body(), query)
  }

  function AllowedRawIds(m: Mem, ec: ExecutionContext): set<string> {
    set id | id in m.raw && Allowed(m, ec, id)
  }

  function AllowedDerivedIds(m: Mem, ec: ExecutionContext): set<string> {
    set id | id in m.cfg.derived && Allowed(m, ec, id)
  }

  /** The pool is chosen by kind before visibility and the query narrow it. */
  function MatchIds(m: Mem, ec: ExecutionContext, query: string, kind: KindName): set<string> {
    set id | id in (if kind == RawName then m.raw.Keys else m.cfg.derived.Keys)
             && Allowed(m, ec, id) && Matches(Record(m, id), query, kind)
  }

  predicate VisibleEdgeFrom(m: Mem, ec: ExecutionContext, start: string, id: string) {
    && id in m.cfg.derived && m.cfg.derived[id].kind.GraphEdge?
    && m.cfg.derived[id].kind.start == start
    && Allowed(m, ec, id)
  }

  function NeighborIds(m: Mem, ec: ExecutionContext, start: string): set<string> {
    set id | id in m.cfg.derived &&
             (VisibleEdgeFrom(m, ec, start, id) ||
              exists e | e in m.cfg.derived :: VisibleEdgeFrom(m, ec, start, e) && m.cfg.derived[e].kind.end == id)
  }

  predicate VisibleNode(m: Mem, ec: ExecutionContext, id: string) {
    id in m.cfg.derived && m.cfg.derived[id].kind.GraphNode? && Allowed(m, ec, id)
  }

  /** The number of visible post-setup writes. */
  function VisibleWrites(m: Mem, ec: ExecutionContext): set<string> {
    set id | id in m.raw && Qualified(id) && AllowedRaw(m, ec, id)
  }

  function VisibleRevision(m: Mem, ec: ExecutionContext): nat {
    |VisibleWrites(m, ec)|
  }

  predicate RowFor(m: Mem, ec: ExecutionContext, query: string, row: CacheRow) {
    && row.query == query && row.contextId == ec.contextId
    && Some(row.domain) == DomainOf(m, ec)
    && m.cfg.policy.Some? && row.policyVersion == m.cfg.policy.value.version
  }

  function RowAnswer(m: Mem, ec: ExecutionContext, row: CacheRow): Response {
    if row.revision != VisibleRevision(m, ec) || exists id | id in row.ids :: !Allowed(m, ec, id) then Plain(Denied)
    else Pack(RecordsOf(m, row.ids), Wire)
  }

  /** `cached`: the first row with the caller's own key decides. */
  function CachedFrom(m: Mem, ec: ExecutionContext, query: string, rows: seq<CacheRow>): Response {
    if rows == [] then Plain(Empty)
    else if RowFor(m, ec, query, rows[0]) then RowAnswer(m, ec, rows[0])
    else CachedFrom(m, ec, query, rows[1..])
  }

  function Read(m: Mem, ec: ExecutionContext, request: Request): Response
    requires !IsWrite(request)
  {
    match request
    case Search(query, kind) => PackIds(m, MatchIds(m, ec, query, kind))
    case Get(id) => if Allowed(m, ec, id) then Pack([Record(m, id)], Wire) else Plain(Denied)
    case Neighbors(id) =>
      if VisibleNode(m, ec, id) then PackIds(m, NeighborIds(m, ec, id)) else Plain(Denied)
    case Cached(query) => CachedFrom(m, ec, query, m.cache)
    case Debug => Pack([Diagnostics(|AllowedRawIds(m, ec)|, |AllowedDerivedIds(m, ec)|)], Wire)
  }

  // ----- writes -------------------------------------------------------------------

  /** The context a write goes to, or `None` when the role does not allow it. */
  function Target(m: Mem, ec: ExecutionContext, caller: Caller, request: Request): Option<string>
    requires IsWrite(request)
  {
    if request.Observe? then
      if caller.callerClass in {Cognition, Worker} then Some(ec.contextId) else None
    else
      var target := Lookup(m.cfg.declarationTargets, caller.callerId);
      if caller.callerClass == Human && target == Some(request.targetContext)
         && Lookup(m.cfg.contextDomains, request.targetContext) == DomainOf(m, ec)
      then target else None
  }

  /** A private, self-granted domain and a fresh non-empty entry. */
  predicate Writable(m: Mem, ec: ExecutionContext, target: string, request: Request)
    requires IsWrite(request)
  {
    && DomainOf(m, ec).Some? && DomainOf(m, ec).value != PUBLIC
    && DomainOf(m, ec).value in Granted(m, ec)
    && request.content != ""
    && !Known(m, Key(target, request.local))
  }

  function NewEntry(target: string, domain: string, callerId: string, request: Request): Entry
    requires IsWrite(request)
  {
    Entry(Key(target, request.local), target, domain, "PRIVATE", request.content, callerId,
          if request.Declare? then UserDeclaration else AgentObservation,
          if request.Declare? then Declared else Unverified, None)
  }

  function ReceiptOf(e: Entry): Receipt {
    EntryReceipt(e.id, e.contextId, e.domain, e.classification, e.createdBy, e.provenance, e.epistemic)
  }

  /** Both stores take the entry; `bind` tells whether a fresh binding carried it. */
  function Commit(m: Mem, e: Entry, bind: bool): Mem {
    var n := m.(raw := m.raw[e.id := e],
                entries := m.entries[e.id := T.ScopedEntry(e.id, e.contextId, OfEntry(e))]);
    if bind then n.(bindings := m.bindings[m.bound := e.contextId], bound := m.bound + 1) else n
  }

  /** What a write stores, when it stores anything. */
  function Written(m: Mem, ec: ExecutionContext, caller: Caller, request: Request): Option<Entry>
    requires IsWrite(request)
  {
    var target := Target(m, ec, caller, request);
    if target.Some? && Writable(m, ec, target.value, request)
    then Some(NewEntry(target.value, DomainOf(m, ec).value, caller.callerId, request)) else None
  }

  predicate Bound(m: Mem, ec: ExecutionContext, caller: Caller) {
    ec in m.executions && caller in m.callers && m.callers[caller] == ec
  }

  /** The answer before any operation is looked at. */
  function Refusal(m: Mem, ec: ExecutionContext, caller: Caller, request: Request): Option<Response> {
    if !Bound(m, ec, caller) || !WellFormed(request) then Some(Plain(Denied))
    else
      var state := PolicyState(m, ec);
      if state.Some? then Some(Plain(state.value))
      else if !m.available then Some(Plain(Unavailable))
      else None
  }

  /** The memory after a call: only a write that goes through changes it. */
  function AfterCall(m: Mem, ec: ExecutionContext, caller: Caller, request: Request): Mem {
    if Refusal(m, ec, caller, request).Some? || !IsWrite(request) then m
    else
      var e := Written(m, ec, caller, request);
      if e.None? then m else Commit(m, e.value, request.Declare?)
  }

  /** The answer to a write: the stored entry's receipt, or a denial. */
  function Acknowledge(e: Option<Entry>): Response {
    if e == None then Plain(Denied) else Response(Recorded, [], false, None, Some(ReceiptOf(e.value)))
  }

  function Reply(m: Mem, ec: ExecutionContext, caller: Caller, request: Request): Response {
    var refused := Refusal(m, ec, caller, request);
    if refused.Some? then refused.value
    else if IsWrite(request) then Acknowledge(Written(m, ec, caller, request))
    else Read(m, ec, request)
  }

  /** `SecurityMemory.handle`: the memory afterwards and the answer. */
  function Handle(m: Mem, ec: ExecutionContext, caller: Caller, request: Request): (Mem, Response) {
    (AfterCall(m, ec, caller, request), Reply(m, ec, caller, request))
  }

  // ----- issuance and runs ------------------------------------------------------

  function Begin(m: Mem, executionId: string, contextId: string): (Mem, Option<ExecutionContext>) {
    if 0 < |executionId| <= 80 && contextId in m.cfg.nodes then
      var ec := C.ExecutionContext(m.issued, executionId, contextId);
      (m.(executions := m.executions[ec := m.bound],
          security := m.security[ec := Lookup(m.cfg.contextDomains, contextId)],
          bindings := m.bindings[m.bound := contextId], bound := m.bound + 1, issued := m.issued + 1),
       Some(ec))
    else (m, None)
  }

  function Enroll(m: Mem, ec: ExecutionContext, callerId: string, callerClass: CallerClass): (Mem, Option<Caller>) {
    if ec in m.executions && 0 < |callerId| <= 80 then
      var caller := C.Caller(m.issued, callerId, callerClass);
      (m.(callers := m.callers[caller := ec], issued := m.issued + 1), Some(caller))
    else (m, None)
  }

  /** One step of the trusted harness or of a caller. */
  datatype Event = Begins(executionId: string, contextId: string)
                 | Joins(ec: ExecutionContext, callerId: string, callerClass: CallerClass)
                 | Calls(ec: ExecutionContext, caller: Caller, request: Request)
                 | Switches(available: bool)
                 | Caches(rows: seq<CacheRow>)

  function Step(m: Mem, ev: Event): Mem {
    match ev
    case Begins(executionId, contextId) => Begin(m, executionId, contextId).0
    case Joins(ec, callerId, callerClass) => Enroll(m, ec, callerId, callerClass).0
    case Calls(ec, caller, request) => AfterCall(m, ec, caller, request)
    case Switches(on) => m.(available := on)
    case Caches(rows) => m.(cache := rows)
  }

  function Run(m: Mem, events: seq<Event>): Mem
    decreases |events|
  {
    if events == [] then m else Run(Step(m, events[0]), events[1..])
  }

  // ----- invariant ----------------------------------------------------------------

  /** The two stores hold the same ids under the same owners, and the tree holds the
      text of the raw entry. */
  ghost predicate Lockstep(m: Mem) {
    && m.raw.Keys == m.entries.Keys
    && (forall id | id in m.raw ::
          && m.raw[id].id == id && m.entries[id].id == id
          && m.entries[id].contextId == m.raw[id].contextId
          && m.raw[id].contextId in m.cfg.nodes
          && m.entries[id].content == if Qualified(id) then OfEntry(m.raw[id]) else OfMemory(Basic(m.raw[id])))
  }

  ghost predicate OwnedKey(e: Entry, local: string) {
    e.id == Key(e.contextId, local) && LocalId(local)
  }

  /** Everything written after setup sits in its owner's namespace and domain. */
  ghost predicate Namespaced(m: Mem) {
    forall id | id in m.raw && Qualified(id) ::
      && (exists local :: OwnedKey(m.raw[id], local))
      && Some(m.raw[id].domain) == Lookup(m.cfg.contextDomains, m.raw[id].contextId)
  }

  ghost predicate ExecutionsIssued(m: Mem) {
    && m.executions.Keys == m.security.Keys
    && (forall ec | ec in m.executions ::
          && ec.token < m.issued && ec.contextId in m.cfg.nodes
          && m.executions[ec] in m.bindings && m.bindings[m.executions[ec]] == ec.contextId
          && m.security[ec] == Lookup(m.cfg.contextDomains, ec.contextId))
  }

  ghost predicate Identities(m: Mem) {
    && ExecutionsIssued(m)
    && (forall k | k in m.callers :: k.token < m.issued && m.callers[k] in m.executions)
    && (forall b | b in m.bindings :: b < m.bound && m.bindings[b] in m.cfg.nodes)
  }

  ghost predicate EdgeSources(derived: map<string, Derived>, d: Derived)
    requires d.kind.GraphEdge?
  {
    var a, b := d.kind.start, d.kind.end;
    && a in derived && derived[a].kind.GraphNode?
    && b in derived && derived[b].kind.GraphNode?
    && (forall s :: s in d.sourceIds <==> s in derived[a].sourceIds || s in derived[b].sourceIds)
  }

  /** Derived objects name setup entries; an edge names its end points' sources. */
  ghost predicate DerivedOk(m: Mem) {
    forall id | id in m.cfg.derived ::
      var d := m.cfg.derived[id];
      && d.id == id && !Qualified(id) && id !in m.raw
      && d.sourceIds != []
      && (forall s | s in d.sourceIds :: s in m.raw && !Qualified(s))
      && (d.kind.GraphEdge? ==> EdgeSources(m.cfg.derived, d))
  }

  ghost predicate HasWrites(raw: map<string, Entry>) {
    exists id :: id in raw && Qualified(id)
  }

  /** A deny list that ever let a write through holds setup ids only. */
  ghost predicate DenyOnlySetup(m: Mem) {
    HasWrites(m.raw) && m.cfg.policy.Some? ==> forall i | i in m.cfg.policy.value.denyIds :: !Qualified(i)
  }

  ghost predicate Inv(m: Mem) {
    && T.RootedTree(m.cfg.nodes)
    && Lockstep(m) && Namespaced(m) && Identities(m) && DerivedOk(m) && DenyOnlySetup(m)
  }

  /** An entry that a trusted writer may commit. */
  ghost predicate Committable(m: Mem, e: Entry) {
    && (exists ec :: PolicyState(m, ec) == None)
    && e.id !in m.raw && e.contextId in m.cfg.nodes
    && (exists local :: OwnedKey(e, local))
    && Some(e.domain) == Lookup(m.cfg.contextDomains, e.contextId)
  }

  lemma OwnedIsQualified(e: Entry)
    requires exists local :: OwnedKey(e, local)
    ensures Qualified(e.id)
  {
    var local :| OwnedKey(e, local);
    KeyQualified(e.contextId, local);
  }

  /** Before the first write the deny list was checked against setup ids. */
  lemma CommitKeepsDenyOnlySetup(m: Mem, e: Entry, bind: bool)
    requires Inv(m) && Committable(m, e)
    ensures DenyOnlySetup(Commit(m, e, bind))
  {
    var ec :| PolicyState(m, ec) == None;
    assert DenyKnown(m.cfg.policy.value, m.raw);
    if !HasWrites(m.raw) {
      forall i | i in m.cfg.policy.value.denyIds ensures !Qualified(i) {
        assert i in m.raw;
      }
    }
  }

  lemma CommitKeepsLockstep(m: Mem, e: Entry, bind: bool)
    requires Lockstep(m) && Qualified(e.id) && e.contextId in m.cfg.nodes
    ensures Lockstep(Commit(m, e, bind))
  {
  }

  lemma CommitKeepsNamespaced(m: Mem, e: Entry, bind: bool)
    requires Namespaced(m) && Committable(m, e)
    ensures Namespaced(Commit(m, e, bind))
  {
  }

  lemma CommitKeepsIdentities(m: Mem, e: Entry, bind: bool)
    requires Identities(m) && e.contextId in m.cfg.nodes
    ensures Identities(Commit(m, e, bind))
  {
  }

  lemma CommitKeepsDerived(m: Mem, e: Entry, bind: bool)
    requires DerivedOk(m) && Qualified(e.id)
    ensures DerivedOk(Commit(m, e, bind))
  {
  }

  lemma CommitKeepsInv(m: Mem, e: Entry, bind: bool)
    requires Inv(m) && Committable(m, e)
    ensures Inv(Commit(m, e, bind))
  {
    OwnedIsQualified(e);
    CommitKeepsDenyOnlySetup(m, e, bind);
    CommitKeepsLockstep(m, e, bind);
    CommitKeepsNamespaced(m, e, bind);
    CommitKeepsIdentities(m, e, bind);
    CommitKeepsDerived(m, e, bind);
  }

  /** A write that goes through is one the invariant allows. */
  lemma {:induction false} WrittenIsCommittable(m: Mem, ec: ExecutionContext, caller: Caller, request: Request)
    requires Inv(m) && IsWrite(request) && PolicyState(m, ec) == None && ec in m.executions && WellFormed(request)
    requires Written(m, ec, caller, request).Some?
    ensures Committable(m, Written(m, ec, caller, request).value)
  {
    var e := Written(m, ec, caller, request).value;
    assert OwnedKey(e, request.local);
    assert e.contextId in m.cfg.contextDomains;
  }

  /** An observation travels on the execution's own binding. */
  lemma OwnBindingCarries(m: Mem, ec: ExecutionContext, caller: Caller, request: Request)
    requires Identities(m) && request.Observe? && ec in m.executions && Written(m, ec, caller, request).Some?
    ensures m.executions[ec] in m.bindings
    ensures m.bindings[m.executions[ec]] == Written(m, ec, caller, request).value.contextId
  {
  }

  lemma HandleKeepsInv(m: Mem, ec: ExecutionContext, caller: Caller, request: Request)
    requires Inv(m)
    ensures Inv(Handle(m, ec, caller, request).0)
  {
    hide Inv, Committable, Commit, Written, Refusal, Read, Acknowledge;
    if Refusal(m, ec, caller, request) == None && IsWrite(request) && Written(m, ec, caller, request).Some? {
      RefusalPassed(m, ec, caller, request);
      WrittenIsCommittable(m, ec, caller, request);
      CommitKeepsInv(m, Written(m, ec, caller, request).value, request.Declare?);
    }
  }

  lemma {:induction false} StepKeepsInv(m: Mem, ev: Event)
    requires Inv(m)
    ensures Inv(Step(m, ev))
  {
    match ev
    case Calls(ec, caller, request) => HandleKeepsInv(m, ec, caller, request);
    case Begins(executionId, contextId) => BeginKeepsInv(m, executionId, contextId);
    case Joins(ec, callerId, callerClass) => EnrollKeepsInv(m, ec, callerId, callerClass);
    case Switches(_) =>
    case Caches(rows) => CacheKeepsInv(m, rows);
  }

  lemma CacheKeepsInv(m: Mem, rows: seq<CacheRow>)
    requires Inv(m)
    ensures Inv(m.(cache := rows))
  {
    hide Qualified, OwnedKey, EdgeSources, T.RootedTree;
  }

  lemma BeginKeepsInv(m: Mem, executionId: string, contextId: string)
    requires Inv(m)
    ensures Inv(Begin(m, executionId, contextId).0)
  {
    hide Identities, Qualified, OwnedKey, EdgeSources, T.RootedTree;
    BeginKeepsIdentities(m, executionId, contextId);
  }

  lemma BeginKeepsIdentities(m: Mem, executionId: string, contextId: string)
    requires Identities(m)
    ensures Identities(Begin(m, executionId, contextId).0)
  {
    hide ExecutionsIssued;
    BeginKeepsExecutions(m, executionId, contextId);
  }

  lemma BeginKeepsExecutions(m: Mem, executionId: string, contextId: string)
    requires Identities(m)
    ensures ExecutionsIssued(Begin(m, executionId, contextId).0)
  {
    hide Lookup;
  }

  lemma EnrollKeepsInv(m: Mem, ec: ExecutionContext, callerId: string, callerClass: CallerClass)
    requires Inv(m)
    ensures Inv(Enroll(m, ec, callerId, callerClass).0)
  {
    assert Identities(Enroll(m, ec, callerId, callerClass).0);
  }

  lemma StepKeepsConfig(m: Mem, ev: Event)
    ensures Step(m, ev).cfg == m.cfg
  {
  }

  lemma {:induction false} RunKeepsInv(m: Mem, events: seq<Event>)
    requires Inv(m)
    ensures Inv(Run(m, events))
    decreases |events|
  {
    if events != [] {
      StepKeepsInv(m, events[0]);
      RunKeepsInv(Step(m, events[0]), events[1..]);
    }
  }

  // ----- what a call does, for later proofs -----------------------------------

  lemma CallEffect(m: Mem, ev: Event)
    requires ev.Calls?
    ensures (Refusal(m, ev.ec, ev.caller, ev.request) == None && IsWrite(ev.request)
             && Written(m, ev.ec, ev.caller, ev.request).Some?) ==>
              Step(m, ev) == Commit(m, Written(m, ev.ec, ev.caller, ev.request).value, ev.request.Declare?)
    ensures (Refusal(m, ev.ec, ev.caller, ev.request).Some? || !IsWrite(ev.request)
             || Written(m, ev.ec, ev.caller, ev.request) == None) ==> Step(m, ev) == m
    ensures match Refusal(m, ev.ec, ev.caller, ev.request)
            case Some(refused) => Handle(m, ev.ec, ev.caller, ev.request).1 == refused
            case None =>
              Handle(m, ev.ec, ev.caller, ev.request).1 ==
              if IsWrite(ev.request) then Acknowledge(Written(m, ev.ec, ev.caller, ev.request))
              else Read(m, ev.ec, ev.request)
  {
  }

  /** A written entry is new, in its target's namespace and in its target's domain. */
  lemma {:induction false} WrittenIsFresh(m: Mem, ec: ExecutionContext, caller: Caller, request: Request)
    requires IsWrite(request) && Inv(m) && Refusal(m, ec, caller, request) == None
    requires Written(m, ec, caller, request).Some?
    ensures var e := Written(m, ec, caller, request).value;
            && Qualified(e.id) && e.id !in m.raw && Classified(e)
            && Some(e.domain) == Lookup(m.cfg.contextDomains, e.contextId)
  {
    KeyQualified(Target(m, ec, caller, request).value, request.local);
  }

  lemma RefusalPassed(m: Mem, ec: ExecutionContext, caller: Caller, request: Request)
    requires Refusal(m, ec, caller, request) == None
    ensures ec in m.executions && m.cfg.policy.Some? && PolicyState(m, ec) == None && WellFormed(request)
  {
  }

  lemma InvParts(m: Mem)
    requires Inv(m)
    ensures DenyOnlySetup(m) && Identities(m) && DerivedOk(m)
  {
  }
}
