/** What requests are answered, said from the stored fields alone: who is served, what is
    visible, what each read returns and what each write stores. */
module SecurityLaws {
  import opened Text
  import opened Records
  import opened Packing
  import opened Security
  import opened Noninterference
  import T = ContextTrees
  import C = Capability

  // ----- who is served --------------------------------------------------------------

  /** The strings a caller sends along. */
  function SentTexts(request: Request): seq<string> {
    match request
    case Search(query, _) => [query]
    case Get(id) => [id]
    case Neighbors(id) => [id]
    case Cached(query) => [query]
    case Debug => []
    case Observe(local, content) => [local, content]
    case Declare(local, content, target) => [local, content, target]
  }

  /** Those of them that name something. */
  function SentNames(request: Request): seq<string> {
    match request
    case Get(id) => [id]
    case Neighbors(id) => [id]
    case Observe(local, _) => [local]
    case Declare(local, _, _) => [local]
    case _ => []
  }

  /** No string over 1024 bytes, and names of one to 80 bytes. */
  predicate InBounds(request: Request) {
    && (forall s | s in SentTexts(request) :: Utf8(s) <= 1024)
    && (forall s | s in SentNames(request) :: 1 <= Utf8(s) <= 80)
  }

  lemma BoundsAreChecked(request: Request)
    ensures WellFormed(request) <==> InBounds(request)
  {
    var texts, names := SentTexts(request), SentNames(request);
    assert forall i | 0 <= i < |texts| :: texts[i] in texts;
    assert forall i | 0 <= i < |names| :: names[i] in names;
  }

  /** The grants a domain may have: itself and the public domain, each once at most. */
  predicate GrantList(domain: string, grants: seq<string>) {
    || grants == [] || grants == [domain] || grants == ["public"]
    || (domain != "public" && (grants == [domain, "public"] || grants == ["public", domain]))
  }

  lemma GrantListsAre(domain: string, grants: seq<string>)
    ensures GrantsOk(domain, grants) <==> GrantList(domain, grants)
  {
    if GrantsOk(domain, grants) {
      forall i | 0 <= i < |grants| ensures grants[i] == domain || grants[i] == PUBLIC { assert grants[i] in grants; }
      if |grants| >= 2 { assert grants[0] != grants[1]; }
      T.DistinctWithin(grants, {domain, PUBLIC});
    }
  }

  /** Domain and classification of an entry that no policy objects to. */
  const LABELS: set<(string, string)> := {("public", "PUBLIC"), ("personal", "PRIVATE"), ("employer-x", "PRIVATE")}

  /** The policy is the accepted one, and contexts, execution and entries are labelled as
      it demands. */
  ghost predicate Governed(m: Mem, p: Policy, ec: ExecutionContext) {
    && p.version == "fixture-v1" && p.grants.Keys == {"public", "personal", "employer-x"}
    && (forall d | d in p.grants :: GrantList(d, p.grants[d]))
    && (forall id | id in p.denyIds :: id in m.raw)
    && m.cfg.contextDomains.Keys == m.cfg.nodes.Keys
    && (forall c | c in m.cfg.contextDomains :: m.cfg.contextDomains[c] in p.grants)
    && ec in m.security && ec.contextId in m.cfg.contextDomains
    && m.security[ec] == Some(m.cfg.contextDomains[ec.contextId])
    && (forall id | id in m.raw :: (m.raw[id].domain, m.raw[id].classification) in LABELS)
  }

  lemma LabelsAreClassified(e: Entry)
    ensures Classified(e) <==> (e.domain, e.classification) in LABELS
  {
  }

  /** A missing policy makes the memory unavailable, an invalid one denies everything. */
  lemma PolicyStateTable(m: Mem, ec: ExecutionContext)
    ensures PolicyState(m, ec) ==
            match m.cfg.policy
            case None => Some(Unavailable)
            case Some(p) => if Governed(m, p, ec) then None else Some(Denied)
  {
    if m.cfg.policy.Some? {
      var p := m.cfg.policy.value;
      assert PolicyShape(p) <==> && p.version == "fixture-v1" && p.grants.Keys == {"public", "personal", "employer-x"}
                                 && forall d | d in p.grants :: GrantList(d, p.grants[d]) by {
        forall d | d in p.grants ensures GrantsOk(d, p.grants[d]) <==> GrantList(d, p.grants[d]) {
          GrantListsAre(d, p.grants[d]);
        }
      }
      assert AllClassified(m.raw) <==>
             forall id | id in m.raw :: (m.raw[id].domain, m.raw[id].classification) in LABELS by {
        forall id | id in m.raw
          ensures Classified(m.raw[id]) <==> (m.raw[id].domain, m.raw[id].classification) in LABELS
        {
          LabelsAreClassified(m.raw[id]);
        }
      }
      hide PolicyShape, AllClassified, GrantList;
    }
  }

  /** An issued caller of an issued execution asks within bounds, under a valid policy, of
      an available memory. */
  ghost predicate Served(m: Mem, ec: ExecutionContext, caller: Caller, request: Request) {
    && ec in m.executions && Lookup(m.callers, caller) == Some(ec) && InBounds(request)
    && m.cfg.policy.Some? && Governed(m, m.cfg.policy.value, ec) && m.available
  }

  /** Anyone else is told a status and nothing more, and changes nothing. */
  lemma RefusalTable(m: Mem, ec: ExecutionContext, caller: Caller, request: Request)
    ensures Refusal(m, ec, caller, request) == None <==> Served(m, ec, caller, request)
    ensures !Served(m, ec, caller, request) ==>
              Handle(m, ec, caller, request) ==
              (m, Response(if ec !in m.executions || Lookup(m.callers, caller) != Some(ec) || !InBounds(request)
                           then Denied
                           else if m.cfg.policy == None then Unavailable
                           else if !Governed(m, m.cfg.policy.value, ec) then Denied
                           else Unavailable, [], false, None, None))
  {
    BoundsAreChecked(request);
    PolicyStateTable(m, ec);
    hide PolicyState, Governed, WellFormed, InBounds, Read, Written;
  }

  // ----- what is visible ------------------------------------------------------------

  /** The entry's context hands down to the reader's, its domain is granted to the
      reader's, and nobody denied it. */
  ghost predicate MayRead(m: Mem, ec: ExecutionContext, id: string) {
    && id in m.raw && T.Inherits(m.cfg.nodes, ec.contextId, m.raw[id].contextId)
    && m.cfg.policy.Some? && ec in m.security && m.security[ec].Some?
    && m.security[ec].value in m.cfg.policy.value.grants
    && m.raw[id].domain in m.cfg.policy.value.grants[m.security[ec].value]
    && id !in m.cfg.policy.value.denyIds
  }

  /** A derived object is seen through every one of its sources. */
  ghost predicate MaySee(m: Mem, ec: ExecutionContext, id: string) {
    || MayRead(m, ec, id)
    || (id !in m.raw && id in m.cfg.derived && forall s | s in m.cfg.derived[id].sourceIds :: MayRead(m, ec, s))
  }

  lemma ReadableIff(m: Mem, ec: ExecutionContext, id: string)
    requires Inv(m) && ec in m.executions
    ensures AllowedRaw(m, ec, id) <==> MayRead(m, ec, id)
  {
    if id in m.raw {
      hide T.Lineage, T.Inherits, Lockstep, Namespaced, DerivedOk, DenyOnlySetup;
      InvParts(m);
      T.TreeNodeClimbs(m.cfg.nodes, ec.contextId);
      T.LineageIsInherited(m.cfg.nodes, ec.contextId, m.raw[id].contextId);
    }
  }

  /** Visibility, from the tree, the policy and the sources. */
  lemma VisibleIff(m: Mem, ec: ExecutionContext, id: string)
    requires Inv(m) && ec in m.executions
    ensures Allowed(m, ec, id) <==> MaySee(m, ec, id)
  {
    hide Inv, AllowedRaw, MayRead;
    ReadableIff(m, ec, id);
    if id in m.cfg.derived {
      forall s | s in m.cfg.derived[id].sourceIds ensures AllowedRaw(m, ec, s) <==> MayRead(m, ec, s) {
        ReadableIff(m, ec, s);
      }
    }
    NotInRaw(m, ec, id);
  }

  lemma NotInRaw(m: Mem, ec: ExecutionContext, id: string)
    ensures id !in m.raw ==> !MayRead(m, ec, id)
  {
  }

  // ----- reads ------------------------------------------------------------------------

  predicate Stored(m: Mem, x: Item) {
    match x
    case RawItem(e) => e.id in m.raw && m.raw[e.id] == e
    case DerivedItem(d) => d.id !in m.raw && d.id in m.cfg.derived && m.cfg.derived[d.id] == d
    case _ => false
  }

  /** The record is stored, and `ec` may see it. */
  ghost predicate Shown(m: Mem, ec: ExecutionContext, x: Item) {
    Stored(m, x) && MaySee(m, ec, x.Id())
  }

  predicate IsOfKind(k: Kind, kind: KindName) {
    match kind
    case RawName => false
    case SummaryName => k.Summary?
    case EmbeddingName => k.EmbeddingStub?
    case IndexName => k.SemanticIndexStub?
    case NodeName => k.GraphNode?
    case EdgeName => k.GraphEdge?
    case ArtifactName => k.ArtifactStub?
    case ToolName => k.ToolOutputStub?
  }

  /** A visible record of the kind asked for whose text holds the query. */
  ghost predicate Hit(m: Mem, ec: ExecutionContext, query: string, kind: KindName, x: Item) {
    && Shown(m, ec, x)
    && match x
       case RawItem(e) => kind == RawName && Contains(e.content, query)
       case DerivedItem(d) => IsOfKind(d.kind, kind) && Contains(d.payload, query)
       case _ => false
  }

  ghost predicate Keyed(m: Mem) {
    && (forall id | id in m.raw :: m.raw[id].id == id)
    && (forall id | id in m.cfg.derived :: m.cfg.derived[id].id == id && id !in m.raw)
  }

  lemma RecordsAreKeyed(m: Mem)
    requires Inv(m)
    ensures Keyed(m)
  {
    hide Namespaced, Identities, DenyOnlySetup, EdgeSources;
  }

  /** A packed listing of ids: what may be missing is flagged. */
  lemma PackedListing(m: Mem, ids: seq<string>)
    requires Keyed(m) && forall id | id in ids :: Known(m, id)
    ensures var r := Pack(RecordsOf(m, ids), Wire);
            && (forall x | x in r.entries :: Stored(m, x) && x.Id() in ids)
            && (!r.partial ==> forall x | Stored(m, x) && x.Id() in ids :: x in r.entries)
            && r.status == (if ids == [] then Empty else Results) && r.reason == None && r.receipt == None
  {
    hide Pack, Record;
    var items := RecordsOf(m, ids);
    PackAnswers(items, Wire);
    forall x | x in Pack(items, Wire).entries ensures Stored(m, x) && x.Id() in ids {
      var id := PackedRecord(m, ids, x);
      RecordIsStored(m, id);
    }
    if !Pack(items, Wire).partial {
      forall x | Stored(m, x) && x.Id() in ids ensures x in Pack(items, Wire).entries {
        var i :| 0 <= i < |ids| && ids[i] == x.Id();
        StoredIsRecord(m, x);
        assert items[i] == x;
      }
    }
  }

  lemma PackedSet(m: Mem, ids: set<string>)
    requires Keyed(m) && forall id | id in ids :: Known(m, id)
    ensures var r := PackIds(m, ids);
            && (forall x | x in r.entries :: Stored(m, x) && x.Id() in ids)
            && (!r.partial ==> forall x | Stored(m, x) && x.Id() in ids :: x in r.entries)
            && r.status == (if ids == {} then Empty else Results) && r.reason == None && r.receipt == None
  {
    hide Keyed, Stored, Known, Pack, RecordsOf;
    PackedListing(m, Ordered(ids));
  }

  lemma RecordIsStored(m: Mem, id: string)
    requires Keyed(m) && Known(m, id)
    ensures Stored(m, Record(m, id)) && Record(m, id).Id() == id
  {
  }

  lemma StoredIsRecord(m: Mem, x: Item)
    requires Keyed(m) && Stored(m, x)
    ensures Known(m, x.Id()) && Record(m, x.Id()) == x
  {
  }

  lemma KindIsName(k: Kind, kind: KindName)
    ensures NameOf(k) == kind <==> IsOfKind(k, kind)
    ensures NameOf(k) != RawName
  {
  }

  lemma MatchIsHit(m: Mem, ec: ExecutionContext, query: string, kind: KindName, x: Item)
    requires Inv(m) && ec in m.executions && Stored(m, x)
    ensures x.Id() in MatchIds(m, ec, query, kind) <==> Hit(m, ec, query, kind, x)
  {
    hide Inv, Contains, MaySee, Allowed;
    RecordsAreKeyed(m);
    VisibleIff(m, ec, x.Id());
    StoredIsRecord(m, x);
    if x.DerivedItem? { KindIsName(x.derived.kind, kind); }
  }

  /** `search` returns visible records of the kind asked for that hold the query, all of
      them unless it says otherwise, and says whether there are any. */
  lemma {:induction false} SearchLaw(m: Mem, ec: ExecutionContext, caller: Caller, query: string, kind: KindName)
    requires Inv(m) && Served(m, ec, caller, Search(query, kind))
    ensures var (m', r) := Handle(m, ec, caller, Search(query, kind));
            && m' == m && r.reason == None && r.receipt == None
            && (forall x | x in r.entries :: Hit(m, ec, query, kind, x))
            && (!r.partial ==> forall x | Hit(m, ec, query, kind, x) :: x in r.entries)
            && (r.status == Results <==> exists x :: Hit(m, ec, query, kind, x))
            && (r.status == Empty <==> !exists x :: Hit(m, ec, query, kind, x))
  {
    RefusalTable(m, ec, caller, Search(query, kind));
    hide Inv, Hit, MatchIds, PackIds, Refusal, Keyed, Stored;
    var found := MatchIds(m, ec, query, kind);
    RecordsAreKeyed(m);
    MatchesAreKnown(m, ec, query, kind);
    PackedSet(m, found);
    forall x ensures Hit(m, ec, query, kind, x) <==> Stored(m, x) && x.Id() in found {
      if Stored(m, x) { MatchIsHit(m, ec, query, kind, x); }
      HitIsStored(m, ec, query, kind, x);
    }
    if id :| id in found {
      RecordIsStored(m, id);
      assert Hit(m, ec, query, kind, Record(m, id));
    }
  }

  lemma MatchesAreKnown(m: Mem, ec: ExecutionContext, query: string, kind: KindName)
    ensures forall id | id in MatchIds(m, ec, query, kind) :: Known(m, id)
  {
    hide Contains;
  }

  lemma HitIsStored(m: Mem, ec: ExecutionContext, query: string, kind: KindName, x: Item)
    ensures Hit(m, ec, query, kind, x) ==> Stored(m, x)
  {
  }

  /** `get` returns the record asked for when it is visible, and cannot be told from a
      missing one otherwise. */
  lemma GetLaw(m: Mem, ec: ExecutionContext, caller: Caller, id: string)
    requires Inv(m) && Served(m, ec, caller, Get(id))
    ensures var (m', r) := Handle(m, ec, caller, Get(id));
            && m' == m
            && (!MaySee(m, ec, id) ==> r == Response(Denied, [], false, None, None))
            && (MaySee(m, ec, id) ==>
                  && r.status == Results && r.reason == None && r.receipt == None
                  && (forall x | x in r.entries :: Stored(m, x) && x.Id() == id)
                  && (!r.partial ==> forall x | Stored(m, x) && x.Id() == id :: x in r.entries))
  {
    RefusalTable(m, ec, caller, Get(id));
    hide Inv, Pack, Refusal, Keyed, Stored, MaySee, Allowed;
    RecordsAreKeyed(m);
    VisibleIff(m, ec, id);
    if MaySee(m, ec, id) {
      VisibleIsKnown(m, ec, id);
      assert RecordsOf(m, [id]) == [Record(m, id)];
      PackedListing(m, [id]);
    }
  }

  lemma VisibleIsKnown(m: Mem, ec: ExecutionContext, id: string)
    ensures MaySee(m, ec, id) ==> Known(m, id)
  {
  }

  /** A visible edge from `start`. */
  ghost predicate EdgeFrom(m: Mem, ec: ExecutionContext, start: string, e: Derived) {
    Shown(m, ec, DerivedItem(e)) && e.kind.GraphEdge? && e.kind.start == start
  }

  /** Such an edge, or the visible end point of one. */
  ghost predicate Linked(m: Mem, ec: ExecutionContext, start: string, x: Item) {
    && x.DerivedItem? && Shown(m, ec, x)
    && (EdgeFrom(m, ec, start, x.derived)
        || exists e :: EdgeFrom(m, ec, start, e) && e.kind.end == x.derived.id)
  }

  lemma EdgeFromIff(m: Mem, ec: ExecutionContext, start: string, e: Derived)
    requires Inv(m) && ec in m.executions && Stored(m, DerivedItem(e))
    ensures VisibleEdgeFrom(m, ec, start, e.id) <==> EdgeFrom(m, ec, start, e)
  {
    hide Inv, MaySee, Allowed;
    VisibleIff(m, ec, e.id);
  }

  lemma NeighborIsLinked(m: Mem, ec: ExecutionContext, start: string, id: string)
    requires Inv(m) && ec in m.executions && id in NeighborIds(m, ec, start)
    ensures Known(m, id) && Linked(m, ec, start, Record(m, id))
  {
    hide Inv, MaySee, Allowed;
    InvParts(m);
    RecordsAreKeyed(m);
    NeighborsAreVisible(m, ec, start, id);
    VisibleIff(m, ec, id);
    if VisibleEdgeFrom(m, ec, start, id) {
      EdgeFromIff(m, ec, start, m.cfg.derived[id]);
    } else {
      var e :| e in m.cfg.derived && VisibleEdgeFrom(m, ec, start, e) && m.cfg.derived[e].kind.end == id;
      EdgeFromIff(m, ec, start, m.cfg.derived[e]);
      assert EdgeFrom(m, ec, start, m.cfg.derived[e]);
    }
  }

  lemma LinkedIsNeighbor(m: Mem, ec: ExecutionContext, start: string, x: Item)
    requires Inv(m) && ec in m.executions && Linked(m, ec, start, x)
    ensures Stored(m, x) && x.Id() in NeighborIds(m, ec, start)
  {
    hide Inv, MaySee, Allowed;
    if EdgeFrom(m, ec, start, x.derived) {
      EdgeFromIff(m, ec, start, x.derived);
    } else {
      var e :| EdgeFrom(m, ec, start, e) && e.kind.end == x.derived.id;
      EdgeFromIff(m, ec, start, e);
      assert VisibleEdgeFrom(m, ec, start, e.id);
    }
  }

  /** `neighbors` of a visible graph node are its visible outgoing edges and their end
      points, all of them unless it says otherwise; of anything else it is denied. */
  lemma {:induction false} NeighborsLaw(m: Mem, ec: ExecutionContext, caller: Caller, start: string)
    requires Inv(m) && Served(m, ec, caller, Neighbors(start))
    ensures var (m', r) := Handle(m, ec, caller, Neighbors(start));
            var node := start in m.cfg.derived && m.cfg.derived[start].kind.GraphNode? && MaySee(m, ec, start);
            && m' == m
            && (!node ==> r == Response(Denied, [], false, None, None))
            && (node ==>
                  && r.reason == None && r.receipt == None
                  && (forall x | x in r.entries :: Linked(m, ec, start, x))
                  && (!r.partial ==> forall x | Linked(m, ec, start, x) :: x in r.entries)
                  && (r.status == Results <==> exists x :: Linked(m, ec, start, x))
                  && (r.status == Empty <==> !exists x :: Linked(m, ec, start, x)))
  {
    RefusalTable(m, ec, caller, Neighbors(start));
    hide Inv, Refusal, MaySee, Allowed, Linked, NeighborIds, PackIds, Served;
    ServedIsIssued(m, ec, caller, Neighbors(start));
    NodeIff(m, ec, start);
    LinkedListing(m, ec, start);
  }

  lemma ServedIsIssued(m: Mem, ec: ExecutionContext, caller: Caller, request: Request)
    requires Served(m, ec, caller, request)
    ensures ec in m.executions
  {
  }

  lemma NodeIff(m: Mem, ec: ExecutionContext, start: string)
    requires Inv(m) && ec in m.executions
    ensures VisibleNode(m, ec, start) <==>
            start in m.cfg.derived && m.cfg.derived[start].kind.GraphNode? && MaySee(m, ec, start)
  {
    hide Inv, MaySee, Allowed;
    VisibleIff(m, ec, start);
  }

  lemma LinkedListing(m: Mem, ec: ExecutionContext, start: string)
    requires Inv(m) && ec in m.executions
    ensures forall id | id in NeighborIds(m, ec, start) :: Known(m, id)
    ensures var r := PackIds(m, NeighborIds(m, ec, start));
            && r.reason == None && r.receipt == None
            && (forall x | x in r.entries :: Linked(m, ec, start, x))
            && (!r.partial ==> forall x | Linked(m, ec, start, x) :: x in r.entries)
            && (r.status == Results <==> exists x :: Linked(m, ec, start, x))
            && (r.status == Empty <==> !exists x :: Linked(m, ec, start, x))
  {
    hide *;
    RecordsAreKeyed(m);
    var ids := NeighborIds(m, ec, start);
    forall x ensures Linked(m, ec, start, x) <==> Stored(m, x) && x.Id() in ids { LinkedIff(m, ec, start, x); }
    forall id | id in ids ensures Known(m, id) && Linked(m, ec, start, Record(m, id)) {
      NeighborIsLinked(m, ec, start, id);
    }
    PackedSet(m, ids);
    if id :| id in ids { assert Linked(m, ec, start, Record(m, id)); }
  }

  lemma LinkedIff(m: Mem, ec: ExecutionContext, start: string, x: Item)
    requires Inv(m) && ec in m.executions && Keyed(m)
    ensures Linked(m, ec, start, x) <==> Stored(m, x) && x.Id() in NeighborIds(m, ec, start)
  {
    hide *;
    if Linked(m, ec, start, x) { LinkedIsNeighbor(m, ec, start, x); }
    if Stored(m, x) && x.Id() in NeighborIds(m, ec, start) {
      NeighborIsLinked(m, ec, start, x.Id());
      StoredIsRecord(m, x);
    }
  }

  /** `debug` counts the visible raw entries and the visible derived objects. */
  lemma DebugLaw(m: Mem, ec: ExecutionContext, caller: Caller)
    requires Inv(m) && Served(m, ec, caller, Debug)
    ensures var (m', r) := Handle(m, ec, caller, Debug);
            var raw := set id | id in m.raw && MayRead(m, ec, id);
            var derived := set id | id in m.cfg.derived && MaySee(m, ec, id);
            && m' == m && r.status == Results && r.reason == None && r.receipt == None
            && (forall x | x in r.entries :: x == Diagnostics(|raw|, |derived|))
            && (!r.partial ==> Diagnostics(|raw|, |derived|) in r.entries)
  {
    RefusalTable(m, ec, caller, Debug);
    hide Inv, Pack, Refusal, MaySee, MayRead, AllowedRaw, AllSourcesAllowed;
    forall id ensures AllowedRaw(m, ec, id) <==> MayRead(m, ec, id)
      ensures Allowed(m, ec, id) <==> MaySee(m, ec, id)
    {
      ReadableIff(m, ec, id);
      VisibleIff(m, ec, id);
    }
    assert AllowedRawIds(m, ec) == set id | id in m.raw && MayRead(m, ec, id);
    assert AllowedDerivedIds(m, ec) == set id | id in m.cfg.derived && MaySee(m, ec, id);
    PackAnswers([Diagnostics(|AllowedRawIds(m, ec)|, |AllowedDerivedIds(m, ec)|)], Wire);
  }

  // ----- the cache ----------------------------------------------------------------------

  /** The row is for this query of this context, in its domain and under this policy. */
  ghost predicate OwnRow(m: Mem, ec: ExecutionContext, query: string, row: CacheRow) {
    && row.query == query && row.contextId == ec.contextId
    && ec in m.security && m.security[ec] == Some(row.domain)
    && m.cfg.policy.Some? && m.cfg.policy.value.version == row.policyVersion
  }

  /** `k` is the place of the first own row, or the end of the cache. */
  ghost predicate FirstOwnRow(m: Mem, ec: ExecutionContext, query: string, k: nat) {
    && k <= |m.cache| && (k < |m.cache| ==> OwnRow(m, ec, query, m.cache[k]))
    && forall j | 0 <= j < k :: !OwnRow(m, ec, query, m.cache[j])
  }

  /** As many visible later writes as when the row was made, and all it lists visible. */
  ghost predicate Current(m: Mem, ec: ExecutionContext, row: CacheRow) {
    && row.revision == |set id | id in m.raw && Contains(id, "::") && MayRead(m, ec, id)|
    && forall id | id in row.ids :: MaySee(m, ec, id)
  }

  lemma {:induction false} CachedFromRow(m: Mem, ec: ExecutionContext, query: string, k: nat, i: nat)
    requires FirstOwnRow(m, ec, query, k) && i <= k
    ensures CachedFrom(m, ec, query, m.cache[i..]) ==
            if k < |m.cache| then RowAnswer(m, ec, m.cache[k]) else Plain(Empty)
    decreases k - i
  {
    hide RowAnswer;
    if i < k {
      assert !OwnRow(m, ec, query, m.cache[i]) && m.cache[i..][1..] == m.cache[i + 1..];
      CachedFromRow(m, ec, query, k, i + 1);
    }
  }

  lemma CurrentIff(m: Mem, ec: ExecutionContext, row: CacheRow)
    requires Inv(m) && ec in m.executions
    ensures Current(m, ec, row) <==>
            row.revision == VisibleRevision(m, ec) && forall id | id in row.ids :: Allowed(m, ec, id)
  {
    hide Inv, MaySee, MayRead, AllowedRaw, Allowed, Contains;
    forall id ensures AllowedRaw(m, ec, id) <==> MayRead(m, ec, id)
      ensures Allowed(m, ec, id) <==> MaySee(m, ec, id)
    {
      ReadableIff(m, ec, id);
      VisibleIff(m, ec, id);
    }
    assert VisibleWrites(m, ec) == set id | id in m.raw && Contains(id, "::") && MayRead(m, ec, id);
  }

  /** Only the first row for this query, context, domain and policy version answers; it is
      refused unless current, and no other row ever matters. */
  lemma CachedLaw(m: Mem, ec: ExecutionContext, caller: Caller, query: string, k: nat)
    requires Inv(m) && Served(m, ec, caller, Cached(query)) && FirstOwnRow(m, ec, query, k)
    ensures var (m', r) := Handle(m, ec, caller, Cached(query));
            && m' == m
            && (k == |m.cache| ==> r == Response(Empty, [], false, None, None))
            && (k < |m.cache| ==>
                  var row := m.cache[k];
                  && (!Current(m, ec, row) ==> r == Response(Denied, [], false, None, None))
                  && (Current(m, ec, row) ==>
                        && r.status == (if row.ids == [] then Empty else Results)
                        && r.reason == None && r.receipt == None
                        && (forall x | x in r.entries :: Shown(m, ec, x) && x.Id() in row.ids)
                        && (!r.partial ==> forall x | Stored(m, x) && x.Id() in row.ids :: x in r.entries)))
  {
    RefusalTable(m, ec, caller, Cached(query));
    hide Inv, Pack, Refusal, Keyed, Stored, MaySee, Allowed, Current, VisibleRevision, FirstOwnRow, CachedFrom;
    CachedFromRow(m, ec, query, k, 0);
    assert m.cache[0..] == m.cache;
    RecordsAreKeyed(m);
    InRange(m, ec, query, k);
    if k < |m.cache| {
      var row := m.cache[k];
      CurrentIff(m, ec, row);
      if Current(m, ec, row) {
        forall id | id in row.ids ensures MaySee(m, ec, id) && Known(m, id) {
          VisibleIff(m, ec, id);
          VisibleIsKnown(m, ec, id);
        }
        PackedListing(m, row.ids);
      }
    }
  }

  lemma InRange(m: Mem, ec: ExecutionContext, query: string, k: nat)
    ensures FirstOwnRow(m, ec, query, k) ==> k <= |m.cache|
  {
  }

  // ----- writes --------------------------------------------------------------------------

  /** Where the caller asks to write. */
  function Aim(ec: ExecutionContext, request: Request): string
    requires IsWrite(request)
  {
    match request
    case Observe(_, _) => ec.contextId
    case Declare(_, _, target) => target
  }

  /** Observations are for agents, at their own context; declarations for the human whom
      setup gave this target, within the own domain. The domain is private and grants
      itself, the content is not empty, and the id is free. */
  ghost predicate MayWrite(m: Mem, ec: ExecutionContext, caller: Caller, request: Request)
    requires IsWrite(request)
  {
    var id := Aim(ec, request) + "::" + request.local;
    && ec in m.security && m.security[ec].Some? && m.cfg.policy.Some?
    && (match request
        case Observe(_, _) => caller.callerClass == Cognition || caller.callerClass == Worker
        case Declare(_, _, target) =>
          && caller.callerClass == Human
          && caller.callerId in m.cfg.declarationTargets && m.cfg.declarationTargets[caller.callerId] == target
          && target in m.cfg.contextDomains && Some(m.cfg.contextDomains[target]) == m.security[ec])
    && m.security[ec].value != "public"
    && m.security[ec].value in m.cfg.policy.value.grants
    && m.security[ec].value in m.cfg.policy.value.grants[m.security[ec].value]
    && request.content != "" && id !in m.raw && id !in m.cfg.derived
  }

  /** A write is recorded exactly when it is allowed: then one entry is added to both stores,
      with the trusted provenance, status, author and label whatever the request says, and
      the receipt is that entry without its content. Otherwise nothing changes. */
  lemma {:induction false} WriteLaw(m: Mem, ec: ExecutionContext, caller: Caller, request: Request)
    requires IsWrite(request) && Served(m, ec, caller, request)
    ensures var (m', r) := Handle(m, ec, caller, request);
            && (!MayWrite(m, ec, caller, request) ==> m' == m && r == Response(Denied, [], false, None, None))
            && (MayWrite(m, ec, caller, request) ==>
                  var target, domain := Aim(ec, request), m.security[ec].value;
                  var id := target + "::" + request.local;
                  var (provenance, epistemic) := if request.Declare? then (UserDeclaration, Declared)
                                                 else (AgentObservation, Unverified);
                  var e := Entry(id, target, domain, "PRIVATE", request.content, caller.callerId, provenance, epistemic,
                                 None);
                  && m'.raw == m.raw[id := e]
                  && m'.entries == m.entries[id := T.ScopedEntry(id, target, OfEntry(e))]
                  && m'.bindings == (if request.Declare? then m.bindings[m.bound := target] else m.bindings)
                  && m' == m.(raw := m'.raw, entries := m'.entries, bindings := m'.bindings, bound := m'.bound)
                  && m'.bound == m.bound + (if request.Declare? then 1 else 0)
                  && r == Response(Recorded, [], false, None,
                                   Some(EntryReceipt(id, target, domain, "PRIVATE", caller.callerId, provenance,
                                                     epistemic))))
  {
    RefusalTable(m, ec, caller, request);
    hide Refusal, Served;
    assert MayWrite(m, ec, caller, request) <==> Written(m, ec, caller, request).Some?;
  }
}
