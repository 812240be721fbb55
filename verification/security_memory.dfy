/** The security memory object: trusted setup from a fixture, then one caller-facing
    operation that updates both stores in place. */
module SecurityMemories {
  import opened Text
  import opened Records
  import opened Packing
  import opened Security
  import T = ContextTrees
  import C = Capability

  datatype Fixture = Fixture(nodes: seq<T.ContextNode>, entries: seq<Entry>, derived: seq<Derived>,
                             contextDomains: map<string, string>, policy: Option<Policy>,
                             declarationTargets: map<string, string>)

  predicate NoReservedIds(f: Fixture) {
    && (forall e | e in f.entries :: !Qualified(e.id))
    && (forall d | d in f.derived :: !Qualified(d.id))
  }

  /** A complete, unadmitted entry whose status follows from its provenance. */
  predicate FixtureEntry(e: Entry) {
    && e.admission == None
    && e.provenance in {UserDeclaration, AgentObservation}
    && e.epistemic == (if e.provenance == UserDeclaration then Declared else Unverified)
    && e.id != "" && e.contextId != "" && e.content != "" && e.createdBy != ""
  }

  function StoredRow(e: Entry): T.ScopedEntry {
    T.ScopedEntry(e.id, e.contextId, OfMemory(Basic(e)))
  }

  function StoredRows(entries: seq<Entry>): (r: seq<T.ScopedEntry>)
    ensures |r| == |entries| && forall i | 0 <= i < |r| :: r[i] == StoredRow(entries[i])
  {
    seq(|entries|, i requires 0 <= i < |entries| => StoredRow(entries[i]))
  }

  /** `{e['id']: e for e in entries}`. */
  function RawMap(entries: seq<Entry>): (m: map<string, Entry>)
    ensures forall id :: id in m <==> exists i :: 0 <= i < |entries| && entries[i].id == id
    ensures forall id | id in m :: m[id] in entries && m[id].id == id
  {
    if entries == [] then map[]
    else
      var last := entries[|entries| - 1];
      RawMap(entries[..|entries| - 1])[last.id := last]
  }

  lemma {:induction false} StoresAgree(entries: seq<Entry>)
    ensures RawMap(entries).Keys == T.EntryMap(StoredRows(entries)).Keys
    ensures forall id | id in RawMap(entries) :: T.EntryMap(StoredRows(entries))[id] == StoredRow(RawMap(entries)[id])
  {
    if entries != [] {
      var init := entries[..|entries| - 1];
      assert StoredRows(entries)[..|entries| - 1] == StoredRows(init);
      StoresAgree(init);
    }
  }

  function DerivedMap(rows: seq<Derived>): map<string, Derived> {
    if rows == [] then map[]
    else
      var last := rows[|rows| - 1];
      DerivedMap(rows[..|rows| - 1])[last.id := last]
  }

  lemma {:induction false} DerivedMapHolds(rows: seq<Derived>, id: string)
    ensures id in DerivedMap(rows) <==> exists i | 0 <= i < |rows| :: rows[i].id == id
    ensures id in DerivedMap(rows) ==> exists i | 0 <= i < |rows| :: rows[i].id == id && DerivedMap(rows)[id] == rows[i]
  {
    if rows != [] {
      var init, last := rows[..|rows| - 1], rows[|rows| - 1];
      DerivedMapHolds(init, id);
      assert rows == init + [last];
      if last.id != id && id in DerivedMap(init) {
        var i :| 0 <= i < |init| && init[i].id == id && DerivedMap(init)[id] == init[i];
        assert rows[i] == init[i];
      }
    }
  }

  predicate DerivedRow(raw: map<string, Entry>, d: Derived) {
    d.id !in raw && d.sourceIds != [] && forall s | s in d.sourceIds :: s in raw
  }

  ghost predicate DerivedRows(raw: map<string, Entry>, rows: seq<Derived>) {
    && RowsOk(raw, rows)
    && (forall i | 0 <= i < |rows| && rows[i].kind.GraphEdge? :: EdgeSources(DerivedMap(rows), rows[i]))
  }

  /** What setup accepts, stated without its loops. */
  ghost predicate FixtureOk(f: Fixture) {
    && NoReservedIds(f)
    && (forall e | e in f.entries :: FixtureEntry(e))
    && T.Acceptable(f.nodes)
    && (forall e | e in f.entries :: e.contextId in T.NodeMap(f.nodes))
    && (forall i, j | 0 <= i < j < |f.entries| :: f.entries[i].id != f.entries[j].id)
    && DerivedRows(RawMap(f.entries), f.derived)
  }

  predicate SameSources(sources: seq<string>, a: seq<string>, b: seq<string>) {
    && (forall s | s in sources :: s in a || s in b)
    && (forall s | s in a :: s in sources)
    && (forall s | s in b :: s in sources)
  }

  ghost predicate RowsOk(raw: map<string, Entry>, rows: seq<Derived>) {
    && (forall i | 0 <= i < |rows| :: DerivedRow(raw, rows[i]))
    && (forall i, j | 0 <= i < j < |rows| :: rows[i].id != rows[j].id)
  }

  lemma Repeated(rows: seq<Derived>, i: nat) returns (k: nat)
    requires i < |rows| && rows[i].id in DerivedMap(rows[..i])
    ensures k < i && rows[k].id == rows[i].id
  {
    DerivedMapHolds(rows[..i], rows[i].id);
    k :| 0 <= k < |rows[..i]| && rows[..i][k].id == rows[i].id;
  }

  lemma NotRepeated(rows: seq<Derived>, i: nat)
    requires i < |rows| && rows[i].id !in DerivedMap(rows[..i])
    ensures forall k | 0 <= k < i :: rows[k].id != rows[i].id
    ensures DerivedMap(rows[..i + 1]) == DerivedMap(rows[..i])[rows[i].id := rows[i]]
  {
    assert rows[..i + 1][..i] == rows[..i];
    DerivedMapHolds(rows[..i], rows[i].id);
    assert forall k | 0 <= k < i :: rows[..i][k].id == rows[k].id;
  }

  /** The first loop over the derived rows: duplicates and sources. */
  method LoadDerived(raw: map<string, Entry>, rows: seq<Derived>) returns (r: Option<map<string, Derived>>)
    ensures r.Some? <==> RowsOk(raw, rows)
    ensures r.Some? ==> r.value == DerivedMap(rows)
  {
    var derived: map<string, Derived> := map[];
    for i := 0 to |rows|
      invariant forall k | 0 <= k < i :: DerivedRow(raw, rows[k])
      invariant forall k, l | 0 <= k < l < i :: rows[k].id != rows[l].id
      invariant derived == DerivedMap(rows[..i])
    {
      if rows[i].id in derived {
        ghost var k := Repeated(rows, i);
        return None;
      }
      if !DerivedRow(raw, rows[i]) { return None; }
      NotRepeated(rows, i);
      derived := derived[rows[i].id := rows[i]];
    }
    assert rows[..|rows|] == rows;
    return Some(derived);
  }

  lemma SameSourcesMeaning(sources: seq<string>, a: seq<string>, b: seq<string>)
    ensures SameSources(sources, a, b) <==> forall s :: s in sources <==> s in a || s in b
  {
  }

  predicate EdgeRow(derived: map<string, Derived>, d: Derived)
    requires d.kind.GraphEdge?
  {
    var a, b := d.kind.start, d.kind.end;
    && a in derived && derived[a].kind.GraphNode?
    && b in derived && derived[b].kind.GraphNode?
    && SameSources(d.sourceIds, derived[a].sourceIds, derived[b].sourceIds)
  }

  lemma EdgeRowMeaning(derived: map<string, Derived>, d: Derived)
    requires d.kind.GraphEdge?
    ensures EdgeRow(derived, d) <==> EdgeSources(derived, d)
  {
    if d.kind.start in derived && d.kind.end in derived {
      SameSourcesMeaning(d.sourceIds, derived[d.kind.start].sourceIds, derived[d.kind.end].sourceIds);
    }
  }

  /** The second loop: every edge against its end points. */
  method CheckEdges(derived: map<string, Derived>, rows: seq<Derived>) returns (ok: bool)
    ensures ok <==> forall i | 0 <= i < |rows| && rows[i].kind.GraphEdge? :: EdgeSources(derived, rows[i])
  {
    for i := 0 to |rows|
      invariant forall k | 0 <= k < i && rows[k].kind.GraphEdge? :: EdgeSources(derived, rows[k])
    {
      if rows[i].kind.GraphEdge? {
        EdgeRowMeaning(derived, rows[i]);
        if !EdgeRow(derived, rows[i]) { return false; }
      }
    }
    return true;
  }

  method CheckDerived(raw: map<string, Entry>, rows: seq<Derived>) returns (ok: bool)
    ensures ok <==> DerivedRows(raw, rows)
  {
    var derived := LoadDerived(raw, rows);
    if derived == None { return false; }
    ok := CheckEdges(derived.value, rows);
  }

  function Initial(f: Fixture): Mem {
    Mem(Config(T.NodeMap(f.nodes), f.policy, f.contextDomains, f.declarationTargets, DerivedMap(f.derived)), [],
        RawMap(f.entries), T.EntryMap(StoredRows(f.entries)), map[], 0, map[], map[], map[], 0, true)
  }

  lemma InitialLockstep(f: Fixture)
    requires FixtureOk(f)
    ensures Lockstep(Initial(f)) && Namespaced(Initial(f)) && !HasWrites(Initial(f).raw)
  {
    StoresAgree(f.entries);
    var m := Initial(f);
    forall id | id in m.raw ensures !Qualified(id) && m.raw[id].contextId in m.cfg.nodes {
      assert m.raw[id] in f.entries;
    }
  }

  lemma InitialDerived(f: Fixture)
    requires FixtureOk(f)
    ensures DerivedOk(Initial(f))
  {
    var m := Initial(f);
    forall id | id in m.cfg.derived
      ensures var d := m.cfg.derived[id];
              && d.id == id && !Qualified(id) && id !in m.raw && d.sourceIds != []
              && (forall s | s in d.sourceIds :: s in m.raw && !Qualified(s))
              && (d.kind.GraphEdge? ==> EdgeSources(m.cfg.derived, d))
    {
      var d := m.cfg.derived[id];
      DerivedMapHolds(f.derived, id);
      var i :| 0 <= i < |f.derived| && f.derived[i].id == id && f.derived[i] == d;
      assert DerivedRow(m.raw, f.derived[i]);
      forall s | s in d.sourceIds ensures s in m.raw && !Qualified(s) {
        assert m.raw[s] in f.entries;
      }
    }
  }

  /** Setup establishes the invariant that every later step keeps. */
  lemma {:induction false} InitialInv(f: Fixture)
    requires FixtureOk(f)
    ensures Inv(Initial(f))
  {
    InitialLockstep(f);
    InitialDerived(f);
  }

  ghost predicate TreeOk(f: Fixture) {
    && T.Acceptable(f.nodes)
    && (forall i | 0 <= i < |f.entries| :: T.ValidEntryRow(T.NodeMap(f.nodes), StoredRows(f.entries)[i]))
    && T.UniqueEntryIds(StoredRows(f.entries))
  }

  /** The fixture conditions as the constructor meets them. */
  lemma FixtureByParts(f: Fixture)
    requires NoReservedIds(f) && forall e | e in f.entries :: FixtureEntry(e)
    ensures FixtureOk(f) <==> TreeOk(f) && DerivedRows(RawMap(f.entries), f.derived)
  {
    hide T.Acceptable, DerivedRows, Basic, T.NodeMap, RawMap;
    var rows, nodes := StoredRows(f.entries), T.NodeMap(f.nodes);
    forall i | 0 <= i < |f.entries|
      ensures rows[i].id == f.entries[i].id && f.entries[i] in f.entries
      ensures T.ValidEntryRow(nodes, rows[i]) <==> f.entries[i].contextId in nodes
    {
      assert rows[i] == StoredRow(f.entries[i]) && FixtureEntry(f.entries[i]);
    }
  }

  /** `SecurityMemory`. */
  class SecurityMemory {
    const base: C.Memory
    var raw: map<string, Entry>
    var security: map<ExecutionContext, Option<string>>
    var policy: Option<Policy>
    var contextDomains: map<string, string>
    var declarationTargets: map<string, string>
    var derived: map<string, Derived>
    var cache: seq<CacheRow>

    function State(): Mem
      reads this, base, base.tree
    {
      Mem(Config(base.tree.nodes, policy, contextDomains, declarationTargets, derived), cache,
          raw, base.tree.entries, base.tree.bindings, base.tree.issued,
          base.executions, security, base.callers, base.issued, base.available)
    }

    ghost predicate Valid()
      reads this, base, base.tree
    {
      base.Valid() && Inv(State())
    }

    constructor (base: C.Memory, f: Fixture)
      ensures this.base == base
      ensures raw == RawMap(f.entries) && security == map[] && policy == f.policy
      ensures contextDomains == f.contextDomains && declarationTargets == f.declarationTargets
      ensures derived == DerivedMap(f.derived) && cache == []
    {
      this.base := base;
      raw, security, policy, contextDomains := RawMap(f.entries), map[], f.policy, f.contextDomains;
      declarationTargets, derived, cache := f.declarationTargets, DerivedMap(f.derived), [];
    }

    /** The fixture checks, in the order the source makes them. */
    static method Build(f: Fixture) returns (r: Result<SecurityMemory, T.Rejection>)
      ensures r.Ok? <==> FixtureOk(f)
      ensures !NoReservedIds(f) ==> r == Err(T.ReservedFixtureId)
      ensures NoReservedIds(f) && (exists e | e in f.entries :: !FixtureEntry(e)) ==> r == Err(T.InvalidMemoryFixture)
      ensures (NoReservedIds(f) && (forall e | e in f.entries :: FixtureEntry(e)) && TreeOk(f)
               && !DerivedRows(RawMap(f.entries), f.derived)) ==> r == Err(T.InvalidDerivation)
      ensures r.Ok? ==> fresh(r.value) && fresh(r.value.base) && fresh(r.value.base.tree)
                        && r.value.Valid() && r.value.State() == Initial(f)
    {
      if !NoReservedIds(f) { return Err(T.ReservedFixtureId); }
      if exists e | e in f.entries :: !FixtureEntry(e) { return Err(T.InvalidMemoryFixture); }
      FixtureByParts(f);
      var built := BuildTree(f);
      if built.Err? { return Err(built.error); }
      var derivable := CheckDerived(RawMap(f.entries), f.derived);
      if !derivable { return Err(T.InvalidDerivation); }
      InitialInv(f);
      var memory := Assemble(built.value, f);
      return Ok(memory);
    }

    static method BuildTree(f: Fixture) returns (r: Result<T.ContextTree, T.Rejection>)
      ensures r.Ok? <==> TreeOk(f)
      ensures r.Ok? ==> fresh(r.value) && r.value.Valid() && r.value.nodes == T.NodeMap(f.nodes)
                        && r.value.entries == T.EntryMap(StoredRows(f.entries))
                        && r.value.bindings == map[] && r.value.issued == 0
    {
      r := T.ContextTree.Build(f.nodes, StoredRows(f.entries));
    }

    static method Assemble(tree: T.ContextTree, f: Fixture) returns (memory: SecurityMemory)
      requires tree.Valid() && tree.nodes == T.NodeMap(f.nodes)
      requires tree.entries == T.EntryMap(StoredRows(f.entries)) && tree.bindings == map[] && tree.issued == 0
      ensures fresh(memory) && fresh(memory.base) && memory.base.tree == tree
      ensures memory.base.Valid() && memory.State() == Initial(f)
    {
      var base := new C.Memory(tree);
      memory := new SecurityMemory(base, f);
    }

    /** Trusted harness only: the domain is a snapshot taken here. */
    method BeginExecution(executionId: string, contextId: string) returns (r: Result<ExecutionContext, T.Rejection>)
      requires Valid()
      modifies this`security, base, base.tree
      ensures Valid()
      ensures State() == Begin(old(State()), executionId, contextId).0
      ensures r.Ok? <==> Begin(old(State()), executionId, contextId).1.Some?
      ensures r.Ok? ==> Begin(old(State()), executionId, contextId).1 == Some(r.value)
    {
      StepKeepsInv(State(), Begins(executionId, contextId));
      r := IssueExecution(executionId, contextId);
    }

    method IssueExecution(executionId: string, contextId: string) returns (r: Result<ExecutionContext, T.Rejection>)
      requires base.Valid()
      modifies this`security, base, base.tree
      ensures base.Valid()
      ensures State() == Begin(old(State()), executionId, contextId).0
      ensures r.Ok? <==> Begin(old(State()), executionId, contextId).1.Some?
      ensures r.Ok? ==> Begin(old(State()), executionId, contextId).1 == Some(r.value)
    {
      r := base.Begin(executionId, contextId);
      if r.Ok? { security := security[r.value := Lookup(contextDomains, contextId)]; }
    }

    /** Trusted harness only. */
    method Participant(ec: ExecutionContext, callerId: string, callerClass: CallerClass)
      returns (r: Result<Caller, T.Rejection>)
      requires Valid()
      modifies base
      ensures Valid()
      ensures State() == Enroll(old(State()), ec, callerId, callerClass).0
      ensures r.Ok? <==> Enroll(old(State()), ec, callerId, callerClass).1.Some?
      ensures r.Ok? ==> Enroll(old(State()), ec, callerId, callerClass).1 == Some(r.value)
    {
      StepKeepsInv(State(), Joins(ec, callerId, callerClass));
      r := IssueCaller(ec, callerId, callerClass);
    }

    method IssueCaller(ec: ExecutionContext, callerId: string, callerClass: CallerClass)
      returns (r: Result<Caller, T.Rejection>)
      requires base.Valid()
      modifies base
      ensures base.Valid()
      ensures State() == Enroll(old(State()), ec, callerId, callerClass).0
      ensures r.Ok? <==> Enroll(old(State()), ec, callerId, callerClass).1.Some?
      ensures r.Ok? ==> Enroll(old(State()), ec, callerId, callerClass).1 == Some(r.value)
    {
      r := base.Participant(ec, callerId, callerClass);
    }

    /** Trusted fixtures only: the cache is precomputed. */
    method InstallCache(rows: seq<CacheRow>)
      requires Valid()
      modifies this`cache
      ensures Valid() && State() == old(State()).(cache := rows)
    {
      hide Inv, T.StoreValid;
      CacheKeepsInv(State(), rows);
      cache := rows;
    }

    /** The loop of `cached`. */
    method CachedLoop(ec: ExecutionContext, query: string) returns (r: Response)
      ensures r == Read(State(), ec, Cached(query))
    {
      var m := State();
      for i := 0 to |cache|
        invariant CachedFrom(m, ec, query, cache) == CachedFrom(m, ec, query, cache[i..])
      {
        assert cache[i..][1..] == cache[i + 1..];
        if RowFor(m, ec, query, cache[i]) {
          var row := cache[i];
          if row.revision != VisibleRevision(m, ec) || exists id | id in row.ids :: !Allowed(m, ec, id) {
            return Plain(Denied);
          }
          r := PackLoop(RecordsOf(m, row.ids), Wire);
          return;
        }
      }
      return Plain(Empty);
    }

    /** Puts a committed entry into the tree and the raw store. */
    method Put(e: Entry, binding: Option<nat>)
      requires Valid() && Committable(State(), e)
      requires binding.Some? ==> binding.value in base.tree.bindings && base.tree.bindings[binding.value] == e.contextId
      modifies this`raw, base.tree
      ensures Valid() && State() == Commit(old(State()), e, binding == None)
    {
      CommitKeepsInv(State(), e, binding == None);
      OwnedIsQualified(e);
      PutUnchecked(e, binding);
    }

    /** Neither the nested bind nor the nested write can be refused. */
    method PutUnchecked(e: Entry, binding: Option<nat>)
      requires base.Valid() && e.id != "" && e.contextId in base.tree.nodes
      requires e.id !in base.tree.entries
      requires binding.Some? ==> binding.value in base.tree.bindings && base.tree.bindings[binding.value] == e.contextId
      modifies this`raw, base.tree
      ensures base.Valid() && State() == Commit(old(State()), e, binding == None)
    {
      var bound;
      if binding.Some? {
        bound := binding.value;
      } else {
        var issued := base.tree.Bind(e.contextId);
        assert issued.Ok?;
        bound := issued.value;
      }
      var written := base.tree.Handle(bound, T.Write(e.id, OfEntry(e)));
      assert written.Ok?;
      raw := raw[e.id := e];
    }

    /** `SecurityMemory.handle`. */
    method Handle(ec: ExecutionContext, caller: Caller, request: Request) returns (r: Response)
      requires Valid()
      modifies this`raw, base.tree
      ensures Valid()
      ensures (State(), r) == Security.Handle(old(State()), ec, caller, request)
    {
      var m := State();
      var refused := Refusal(m, ec, caller, request);
      if refused.Some? { return refused.value; }
      if IsWrite(request) {
        r := Store(ec, caller, request);
      } else if request.Cached? {
        r := CachedLoop(ec, request.query);
      } else {
        r := Read(m, ec, request);
      }
    }

    method Store(ec: ExecutionContext, caller: Caller, request: Request) returns (r: Response)
      requires Valid() && IsWrite(request) && Refusal(State(), ec, caller, request) == None
      modifies this`raw, base.tree
      ensures Valid()
      ensures (State(), r) == Security.Handle(old(State()), ec, caller, request)
    {
      hide Read, Commit, Written, Refusal, Inv, Committable;
      var e := Written(State(), ec, caller, request);
      if e == None { return Plain(Denied); }
      RefusalPassed(State(), ec, caller, request);
      InvParts(State());
      WrittenIsCommittable(State(), ec, caller, request);
      if request.Observe? {
        OwnBindingCarries(State(), ec, caller, request);
        Put(e.value, Some(base.executions[ec]));
      } else {
        Put(e.value, None);
      }
      r := Response(Recorded, [], false, None, Some(ReceiptOf(e.value)));
    }
  }
}
