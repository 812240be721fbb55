/** What stays true as the store grows: nothing stored ever changes, visible derived
    objects are fixed at setup, policy validity survives, and a cached answer is the
    fresh one or a refusal. */
module Growth {
  import opened Text
  import opened Records
  import opened Packing
  import opened Security
  import C = Capability

  /** `b` comes after `a`: entries are only added, and only in owners' namespaces. */
  ghost predicate Grows(a: Mem, b: Mem) {
    && a.cfg == b.cfg
    && (forall ec | ec in a.security :: ec in b.security && b.security[ec] == a.security[ec])
    && GrowsRaw(a.raw, b.raw)
  }

  ghost predicate GrowsRaw(a: map<string, Entry>, b: map<string, Entry>) {
    && (forall id | id in a :: id in b && b[id] == a[id])
    && (forall id | id in b && id !in a :: Qualified(id))
  }

  lemma GrowsTransitive(a: Mem, b: Mem, c: Mem)
    requires Grows(a, b) && Grows(b, c)
    ensures Grows(a, c)
  {
  }

  lemma GrowsItself(m: Mem)
    ensures Grows(m, m)
  {
  }

  lemma CommitGrows(m: Mem, e: Entry, bind: bool)
    requires e.id !in m.raw && Qualified(e.id)
    ensures Grows(m, Commit(m, e, bind))
  {
  }

  lemma HandleGrows(m: Mem, ec: ExecutionContext, caller: Caller, request: Request)
    requires Inv(m)
    ensures Grows(m, Handle(m, ec, caller, request).0)
  {
    hide Inv, Refusal, Written, Commit, Grows, Read;
    GrowsItself(m);
    if Refusal(m, ec, caller, request) == None && IsWrite(request) && Written(m, ec, caller, request).Some? {
      WrittenIsFresh(m, ec, caller, request);
      CommitGrows(m, Written(m, ec, caller, request).value, request.Declare?);
    }
  }

  /** Fresh identities never replace an issued one. */
  lemma BeginGrows(m: Mem, executionId: string, contextId: string)
    requires Identities(m)
    ensures Grows(m, Begin(m, executionId, contextId).0)
  {
    forall ec | ec in m.security ensures ec.token < m.issued { assert ec in m.executions; }
  }

  lemma StepGrows(m: Mem, ev: Event)
    requires Inv(m)
    ensures Grows(m, Step(m, ev))
  {
    hide Inv, AfterCall, Begin, GrowsRaw;
    InvHasIdentities(m);
    match ev
    case Calls(ec, caller, request) => HandleGrows(m, ec, caller, request);
    case Begins(executionId, contextId) => BeginGrows(m, executionId, contextId);
    case Joins(ec, callerId, callerClass) => EnrollGrows(m, ec, callerId, callerClass);
    case Switches(on) => SwitchGrows(m, on);
    case Caches(rows) => CacheGrows(m, rows);
  }

  lemma EnrollGrows(m: Mem, ec: ExecutionContext, callerId: string, callerClass: CallerClass)
    ensures Grows(m, Enroll(m, ec, callerId, callerClass).0)
  {
  }

  lemma SwitchGrows(m: Mem, on: bool)
    ensures Grows(m, m.(available := on))
  {
  }

  lemma CacheGrows(m: Mem, rows: seq<CacheRow>)
    ensures Grows(m, m.(cache := rows))
  {
  }

  lemma InvHasIdentities(m: Mem)
    requires Inv(m)
    ensures Identities(m)
  {
  }

  // ----- visibility over time -----------------------------------------------------

  lemma StillAllowed(a: Mem, b: Mem, ec: ExecutionContext, id: string)
    requires Grows(a, b) && ec in a.security && id in a.raw
    ensures AllowedRaw(a, ec, id) <==> AllowedRaw(b, ec, id)
  {
  }

  /** Derived objects are visible later exactly when they were visible before. */
  lemma DerivedVisibilityFixed(a: Mem, b: Mem, ec: ExecutionContext, id: string)
    requires Grows(a, b) && DerivedOk(a) && DerivedOk(b) && ec in a.security && id in a.cfg.derived
    ensures Allowed(a, ec, id) <==> Allowed(b, ec, id)
  {
    var sources := a.cfg.derived[id].sourceIds;
    assert id !in a.raw && id !in b.raw;
    forall s | s in sources ensures AllowedRaw(a, ec, s) <==> AllowedRaw(b, ec, s) {
      StillAllowed(a, b, ec, s);
    }
    assert AllSourcesAllowed(a, ec, sources) <==> AllSourcesAllowed(b, ec, sources);
  }

  ghost predicate VisibleAddition(a: Mem, b: Mem, ec: ExecutionContext) {
    exists id :: id !in a.raw && AllowedRaw(b, ec, id)
  }

  lemma RevisionGrows(a: Mem, b: Mem, ec: ExecutionContext)
    requires Grows(a, b) && ec in a.security
    ensures VisibleWrites(a, ec) <= VisibleWrites(b, ec)
    ensures VisibleAddition(a, b, ec) <==> VisibleWrites(a, ec) != VisibleWrites(b, ec)
  {
    forall id | id in VisibleWrites(a, ec) ensures id in VisibleWrites(b, ec) {
      StillAllowed(a, b, ec, id);
    }
    if id :| id !in a.raw && AllowedRaw(b, ec, id) {
      assert id in VisibleWrites(b, ec) && id !in VisibleWrites(a, ec);
    }
    if id :| id in VisibleWrites(b, ec) && id !in VisibleWrites(a, ec) {
      if id in a.raw { StillAllowed(a, b, ec, id); }
      assert id !in a.raw;
    }
  }

  /** Equal counts over a growing set are equal sets: the revision tells precisely
      whether a visible entry was added. */
  lemma RevisionIsExact(a: Mem, b: Mem, ec: ExecutionContext)
    requires Grows(a, b) && ec in a.security
    ensures VisibleRevision(a, ec) == VisibleRevision(b, ec) <==> !VisibleAddition(a, b, ec)
  {
    RevisionGrows(a, b, ec);
    if |VisibleWrites(a, ec)| == |VisibleWrites(b, ec)| {
      SubsetOfSameSize(VisibleWrites(a, ec), VisibleWrites(b, ec));
    }
  }

  lemma SubsetOfSameSize(a: set<string>, b: set<string>)
    requires a <= b && |a| == |b|
    ensures a == b
  {
    assert b == a + (b - a);
    assert |b - a| == 0;
  }

  // ----- cached answers -------------------------------------------------------------

  ghost function FreshIds(m: Mem, ec: ExecutionContext, wanted: Item -> bool): set<string> {
    set id | id in m.raw.Keys + m.cfg.derived.Keys && Allowed(m, ec, id) && wanted(Record(m, id))
  }

  function FirstRow(m: Mem, ec: ExecutionContext, query: string, rows: seq<CacheRow>): Option<CacheRow> {
    if rows == [] then None
    else if RowFor(m, ec, query, rows[0]) then Some(rows[0])
    else FirstRow(m, ec, query, rows[1..])
  }

  lemma {:induction false} CachedUsesFirstRow(m: Mem, ec: ExecutionContext, query: string, rows: seq<CacheRow>)
    ensures CachedFrom(m, ec, query, rows) ==
            var row := FirstRow(m, ec, query, rows);
            if row == None then Plain(Empty) else RowAnswer(m, ec, row.value)
  {
    if rows != [] { CachedUsesFirstRow(m, ec, query, rows[1..]); }
  }

  /** The row holds the visible matches of `wanted`, each once, at revision time. */
  ghost predicate RowStandsFor(m: Mem, ec: ExecutionContext, row: CacheRow, wanted: Item -> bool) {
    && row.revision == VisibleRevision(m, ec)
    && (forall i, j | 0 <= i < j < |row.ids| :: row.ids[i] != row.ids[j])
    && (forall id :: id in row.ids <==> id in FreshIds(m, ec, wanted))
  }

  lemma FreshUnchanged(a: Mem, b: Mem, ec: ExecutionContext, wanted: Item -> bool)
    requires Grows(a, b) && DerivedOk(a) && DerivedOk(b) && ec in a.security && !VisibleAddition(a, b, ec)
    ensures FreshIds(a, ec, wanted) == FreshIds(b, ec, wanted)
  {
    forall id ensures id in FreshIds(a, ec, wanted) <==> id in FreshIds(b, ec, wanted) {
      if id in a.cfg.derived {
        DerivedVisibilityFixed(a, b, ec, id);
        assert id !in a.raw && id !in b.raw;
      } else if id in a.raw {
        StillAllowed(a, b, ec, id);
      }
    }
  }

  lemma {:induction false} SameIdsSameMultiset(a: seq<string>, b: seq<string>)
    requires forall i, j | 0 <= i < j < |a| :: a[i] != a[j]
    requires forall i, j | 0 <= i < j < |b| :: b[i] != b[j]
    requires forall x :: x in a <==> x in b
    ensures multiset(a) == multiset(b)
  {
    OncePerId(a);
    OncePerId(b);
    forall x ensures multiset(a)[x] == multiset(b)[x] {
      assert x in multiset(a) <==> x in a;
      assert x in multiset(b) <==> x in b;
    }
  }

  lemma {:induction false} OncePerId(a: seq<string>)
    requires forall i, j | 0 <= i < j < |a| :: a[i] != a[j]
    ensures forall x :: multiset(a)[x] <= 1
  {
    if a != [] {
      var init, last := a[..|a| - 1], a[|a| - 1];
      OncePerId(init);
      assert a == init + [last];
      assert last !in init;
      assert last !in multiset(init);
    }
  }

  function Without(ids: seq<string>, i: nat): seq<string>
    requires i < |ids|
  {
    ids[..i] + ids[i + 1..]
  }

  lemma WithoutCounts(ids: seq<string>, i: nat)
    requires i < |ids|
    ensures multiset(ids) == multiset(Without(ids, i)) + multiset{ids[i]}
    ensures forall id | id in Without(ids, i) :: id in ids
  {
    assert ids == ids[..i] + [ids[i]] + ids[i + 1..];
  }

  lemma {:induction false} RecordsOfSameIds(m: Mem, a: seq<string>, b: seq<string>)
    requires multiset(a) == multiset(b)
    requires (forall id | id in a :: Known(m, id)) && (forall id | id in b :: Known(m, id))
    ensures multiset(RecordsOf(m, a)) == multiset(RecordsOf(m, b))
    decreases |a|
  {
    hide Record, Known, Without;
    assert |multiset(a)| == |multiset(b)|;
    if a != [] {
      assert a[0] in multiset(b);
      var i :| 0 <= i < |b| && b[i] == a[0];
      WithoutCounts(a, 0);
      WithoutCounts(b, i);
      assert |multiset(a)| == |multiset(Without(a, 0))| + 1;
      assert multiset(Without(a, 0)) == multiset(a) - multiset{a[0]};
      assert multiset(Without(b, i)) == multiset(b) - multiset{b[i]};
      RecordsOfSameIds(m, Without(a, 0), Without(b, i));
      SplitRecords(m, a, 0);
      SplitRecords(m, b, i);
    }
  }

  lemma SplitRecords(m: Mem, ids: seq<string>, i: nat)
    requires i < |ids| && forall id | id in ids :: Known(m, id)
    ensures forall id | id in Without(ids, i) :: Known(m, id)
    ensures multiset(RecordsOf(m, ids)) ==
            multiset(RecordsOf(m, Without(ids, i))) + multiset{Record(m, ids[i])}
  {
    hide Record, Known;
    var rs := RecordsOf(m, ids);
    var rest := Without(ids, i);
    forall id | id in rest ensures Known(m, id) { assert id in ids; }
    assert RecordsOf(m, rest) == rs[..i] + rs[i + 1..];
    assert rs == rs[..i] + [rs[i]] + rs[i + 1..];
  }

  lemma RecordsConsistent(m: Mem, ids: seq<string>)
    requires Lockstep(m) && DerivedOk(m) && forall id | id in ids :: Known(m, id)
    ensures Consistent(RecordsOf(m, ids))
  {
    forall i | 0 <= i < |ids| ensures RecordsOf(m, ids)[i].Id() == ids[i] {
      assert Known(m, ids[i]);
    }
  }

  lemma ListingOrderIrrelevant(m: Mem, ids: seq<string>, wanted: set<string>)
    requires Lockstep(m) && DerivedOk(m)
    requires (forall id | id in ids :: Known(m, id)) && (forall i, j | 0 <= i < j < |ids| :: ids[i] != ids[j])
    requires forall id :: id in ids <==> id in wanted
    ensures Pack(RecordsOf(m, ids), Wire) == PackIds(m, wanted)
  {
    hide Pack, Record, Known, Wire;
    assert forall id | id in Ordered(wanted) :: id in ids;
    SameIdsSameMultiset(ids, Ordered(wanted));
    RecordsOfSameIds(m, ids, Ordered(wanted));
    RecordsConsistent(m, ids);
    PackOrderIndependent(RecordsOf(m, ids), RecordsOf(m, Ordered(wanted)), Wire);
  }

  /** A row that stood for a search answers, in every later state, exactly what the
      search would answer afresh - or refuses, and it refuses exactly when an entry
      visible to the execution was added since. */
  lemma CachedIsFreshOrRefused(a: Mem, b: Mem, ec: ExecutionContext, query: string, wanted: Item -> bool)
    requires Grows(a, b) && Lockstep(b) && DerivedOk(a) && DerivedOk(b) && ec in a.security
    requires FirstRow(b, ec, query, b.cache).Some?
    requires RowStandsFor(a, ec, FirstRow(b, ec, query, b.cache).value, wanted)
    ensures Read(b, ec, Cached(query)) ==
            if VisibleAddition(a, b, ec) then Plain(Denied) else PackIds(b, FreshIds(b, ec, wanted))
  {
    hide Pack, Record, PackIds, AllowedRaw, Lockstep, DerivedOk, Grows;
    var row := FirstRow(b, ec, query, b.cache).value;
    CachedUsesFirstRow(b, ec, query, b.cache);
    RevisionIsExact(a, b, ec);
    if !VisibleAddition(a, b, ec) {
      FreshUnchanged(a, b, ec, wanted);
      ListingOrderIrrelevant(b, row.ids, FreshIds(b, ec, wanted));
    }
  }

  /** A search is one of the predicates a row may stand for. */
  lemma {:induction false} SearchIsFresh(m: Mem, ec: ExecutionContext, query: string, kind: KindName)
    requires DerivedOk(m)
    ensures Read(m, ec, Search(query, kind)) == PackIds(m, FreshIds(m, ec, x => Matches(x, query, kind)))
  {
    hide Pack, Contains;
    var wanted := x => Matches(x, query, kind);
    forall id ensures id in MatchIds(m, ec, query, kind) <==> id in FreshIds(m, ec, wanted) {
      if id in m.cfg.derived { assert id !in m.raw; }
    }
    assert MatchIds(m, ec, query, kind) == FreshIds(m, ec, wanted);
  }

  // ----- policy validity --------------------------------------------------------------

  /** The verdict is the same for every issued execution. */
  lemma PolicyIsShared(m: Mem, a: ExecutionContext, b: ExecutionContext)
    requires Identities(m) && a in m.executions && b in m.executions
    ensures PolicyState(m, a) == PolicyState(m, b)
  {
    if DomainsShape(m.cfg) {
      assert a.contextId in m.cfg.contextDomains && b.contextId in m.cfg.contextDomains;
    }
  }

  /** Committing an entry keeps a valid policy valid exactly when the entry is
      classified as its domain demands. */
  lemma CommitKeepsPolicyIff(m: Mem, ec: ExecutionContext, e: Entry, bind: bool)
    requires PolicyState(m, ec) == None && e.id !in m.raw
    ensures PolicyState(Commit(m, e, bind), ec) == if Classified(e) then None else Some(Denied)
  {
    var n := Commit(m, e, bind);
    assert DenyKnown(m.cfg.policy.value, n.raw);
    if Classified(e) {
      forall id | id in n.raw ensures Classified(n.raw[id]) { if id != e.id { assert m.raw[id] == n.raw[id]; } }
    } else {
      assert n.raw[e.id] == e;
    }
  }

  lemma HandleKeepsPolicy(m: Mem, ec: ExecutionContext, caller: Caller, request: Request, other: ExecutionContext)
    requires PolicyState(m, other) == None
    ensures PolicyState(Handle(m, ec, caller, request).0, other) == None
  {
    if Refusal(m, ec, caller, request) == None && IsWrite(request) && Written(m, ec, caller, request).Some? {
      WrittenIsClassified(m, ec, caller, request);
      CommitKeepsPolicyIff(m, other, Written(m, ec, caller, request).value, request.Declare?);
    }
  }

  lemma WrittenIsClassified(m: Mem, ec: ExecutionContext, caller: Caller, request: Request)
    requires IsWrite(request) && PolicyState(m, ec) == None && Written(m, ec, caller, request).Some?
    ensures Classified(Written(m, ec, caller, request).value)
    ensures Written(m, ec, caller, request).value.id !in m.raw
  {
  }

  lemma BeginKeepsPolicy(m: Mem, executionId: string, contextId: string, ec: ExecutionContext)
    requires Identities(m) && ec in m.executions
    ensures PolicyState(Begin(m, executionId, contextId).0, ec) == PolicyState(m, ec)
  {
    assert C.ExecutionContext(m.issued, executionId, contextId) != ec;
  }

  lemma EnrollKeepsPolicy(m: Mem, ec: ExecutionContext, callerId: string, callerClass: CallerClass,
                          other: ExecutionContext)
    ensures PolicyState(Enroll(m, ec, callerId, callerClass).0, other) == PolicyState(m, other)
  {
  }

  lemma SwitchKeepsPolicy(m: Mem, on: bool, ec: ExecutionContext)
    ensures PolicyState(m.(available := on), ec) == PolicyState(m, ec)
  {
  }

  lemma CacheKeepsPolicy(m: Mem, rows: seq<CacheRow>, ec: ExecutionContext)
    ensures PolicyState(m.(cache := rows), ec) == PolicyState(m, ec)
  {
  }

  lemma StepKeepsOwnPolicy(m: Mem, ev: Event, ec: ExecutionContext)
    requires Inv(m) && ec in m.executions && PolicyState(m, ec) == None
    ensures PolicyState(Step(m, ev), ec) == None
  {
    hide Inv, AfterCall, Begin, Enroll, PolicyState;
    InvHasIdentities(m);
    match ev
    case Calls(actor, caller, request) => HandleKeepsPolicy(m, actor, caller, request, ec);
    case Begins(executionId, contextId) => BeginKeepsPolicy(m, executionId, contextId, ec);
    case Joins(actor, callerId, callerClass) => EnrollKeepsPolicy(m, actor, callerId, callerClass, ec);
    case Switches(on) => SwitchKeepsPolicy(m, on, ec);
    case Caches(rows) => CacheKeepsPolicy(m, rows, ec);
  }

  lemma IssuedStays(m: Mem, ev: Event, ec: ExecutionContext)
    requires ec in m.executions
    ensures ec in Step(m, ev).executions
  {
  }

  lemma {:induction false} RunKeepsOwnPolicy(m: Mem, events: seq<Event>, ec: ExecutionContext)
    requires Inv(m) && ec in m.executions && PolicyState(m, ec) == None
    ensures ec in Run(m, events).executions && PolicyState(Run(m, events), ec) == None
    decreases |events|
  {
    if events != [] {
      hide PolicyState, Inv, Step;
      StepKeepsInv(m, events[0]);
      IssuedStays(m, events[0], ec);
      StepKeepsOwnPolicy(m, events[0], ec);
      RunKeepsOwnPolicy(Step(m, events[0]), events[1..], ec);
    }
  }

  /** Once valid for an issued execution, the policy is valid after any run, for every
      execution issued by then. */
  lemma {:induction false} RunKeepsPolicy(m: Mem, events: seq<Event>, ec: ExecutionContext, later: ExecutionContext)
    requires Inv(m) && ec in m.executions && PolicyState(m, ec) == None
    requires later in Run(m, events).executions
    ensures PolicyState(Run(m, events), later) == None
  {
    hide PolicyState, Inv, Step, Run;
    RunKeepsOwnPolicy(m, events, ec);
    RunKeepsInv(m, events);
    InvHasIdentities(Run(m, events));
    PolicyIsShared(Run(m, events), ec, later);
  }

  /** What was stored once is there, unchanged, after any run. */
  lemma {:induction false} RunGrows(m: Mem, events: seq<Event>)
    requires Inv(m)
    ensures Grows(m, Run(m, events))
    decreases |events|
  {
    if events != [] {
      hide Inv, Step;
      StepKeepsInv(m, events[0]);
      StepGrows(m, events[0]);
      RunGrows(Step(m, events[0]), events[1..]);
      GrowsTransitive(m, Step(m, events[0]), Run(m, events));
    }
  }
}
