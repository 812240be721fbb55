/** What any answer may contain: records of the caller's own domain or the public one,
    from its own lineage, none of them denied - derived objects through every source. */
module Confinement {
  import opened Text
  import opened Records
  import opened Packing
  import opened Security
  import opened Noninterference
  import opened Promotion
  import T = ContextTrees

  /** A raw entry that `ec` may learn about, said without the grants table. */
  predicate Confined(m: Mem, ec: ExecutionContext, e: Entry) {
    && (Some(e.domain) == DomainOf(m, ec) || e.domain == PUBLIC)
    && e.contextId in T.Lineage(m.cfg.nodes, ec.contextId)
    && (m.cfg.policy.Some? ==> e.id !in m.cfg.policy.value.denyIds)
  }

  predicate ConfinedItem(m: Mem, ec: ExecutionContext, x: Item) {
    match x
    case RawItem(e) => Confined(m, ec, e)
    case DerivedItem(d) => d.sourceIds != [] && forall s | s in d.sourceIds :: s in m.raw && Confined(m, ec, m.raw[s])
    case Diagnostics(_, _) => true
    case MemoryItem(_) => false
  }

  /** A valid policy cannot grant a domain any private domain but itself. */
  lemma VisibleIsConfined(m: Mem, ec: ExecutionContext, id: string)
    requires PolicyState(m, ec) == None && Lockstep(m) && AllowedRaw(m, ec, id)
    ensures Confined(m, ec, m.raw[id])
  {
  }

  lemma AllowedIsConfined(m: Mem, ec: ExecutionContext, id: string)
    requires PolicyState(m, ec) == None && Lockstep(m) && DerivedOk(m) && Allowed(m, ec, id)
    ensures ConfinedItem(m, ec, Record(m, id))
  {
    hide PolicyState, Confined, AllowedRaw, T.Lineage;
    if id in m.raw {
      VisibleIsConfined(m, ec, id);
    } else {
      var d := m.cfg.derived[id];
      forall s | s in d.sourceIds ensures s in m.raw && Confined(m, ec, m.raw[s]) {
        assert AllowedRaw(m, ec, s);
        VisibleIsConfined(m, ec, s);
      }
    }
  }

  lemma {:induction false} CachedReturnsAllowed(m: Mem, ec: ExecutionContext, query: string, rows: seq<CacheRow>,
                                                x: Item)
    returns (id: string)
    requires x in CachedFrom(m, ec, query, rows).entries
    ensures Allowed(m, ec, id) && x == Record(m, id)
  {
    hide Pack, Record, Allowed, RowFor;
    if RowFor(m, ec, query, rows[0]) {
      id := PackedRecord(m, rows[0].ids, x);
    } else {
      id := CachedReturnsAllowed(m, ec, query, rows[1..], x);
    }
  }

  predicate Shows(m: Mem, ec: ExecutionContext, id: string, x: Item) {
    Allowed(m, ec, id) && x == Record(m, id)
  }

  /** Every read returns visible records or the caller's own counts. */
  lemma ReadReturnsAllowed(m: Mem, ec: ExecutionContext, request: Request, x: Item)
    requires DerivedOk(m) && !IsWrite(request) && x in Read(m, ec, request).entries
    ensures x.Diagnostics? || exists id :: Shows(m, ec, id, x)
  {
    hide Pack, Record, AllowedRaw, AllSourcesAllowed, PackIds, CachedFrom;
    match request
    case Search(query, kind) =>
      var id := ListedRecord(m, MatchIds(m, ec, query, kind), x);
      assert Shows(m, ec, id, x);
    case Get(id) =>
      PackedComeFromEntries([Record(m, id)], x, Wire);
      assert Shows(m, ec, id, x);
    case Neighbors(start) =>
      NeighborsReturnVisible(m, ec, start, x);
      var id :| Allowed(m, ec, id) && x == Record(m, id);
      assert Shows(m, ec, id, x);
    case Cached(query) =>
      var id := CachedReturnsAllowed(m, ec, query, m.cache, x);
      assert Shows(m, ec, id, x);
    case Debug =>
      PackedComeFromEntries([Diagnostics(|AllowedRawIds(m, ec)|, |AllowedDerivedIds(m, ec)|)], x, Wire);
  }

  /** No answer carries anything from another private domain, from outside the lineage,
      or denied. */
  lemma AnswersAreConfined(m: Mem, ec: ExecutionContext, caller: Caller, request: Request, x: Item)
    requires Inv(m) && x in Handle(m, ec, caller, request).1.entries
    ensures ConfinedItem(m, ec, x)
  {
    hide *;
    PartsForReads(m);
    AnswerIsRead(m, ec, caller, request, x);
    RefusalPassed(m, ec, caller, request);
    ReadReturnsAllowed(m, ec, request, x);
    if !x.Diagnostics? {
      var id :| Shows(m, ec, id, x);
      ShownIsConfined(m, ec, id, x);
    } else {
      CountsAreConfined(m, ec, x);
    }
  }

  lemma ShownIsConfined(m: Mem, ec: ExecutionContext, id: string, x: Item)
    requires PolicyState(m, ec) == None && Lockstep(m) && DerivedOk(m) && Shows(m, ec, id, x)
    ensures ConfinedItem(m, ec, x)
  {
    hide PolicyState, ConfinedItem, Lockstep, DerivedOk;
    AllowedIsConfined(m, ec, id);
  }

  lemma PartsForReads(m: Mem)
    requires Inv(m)
    ensures Lockstep(m) && DerivedOk(m)
  {
  }

  lemma CountsAreConfined(m: Mem, ec: ExecutionContext, x: Item)
    requires x.Diagnostics?
    ensures ConfinedItem(m, ec, x)
  {
  }

  lemma AnswerIsRead(m: Mem, ec: ExecutionContext, caller: Caller, request: Request, x: Item)
    requires x in Handle(m, ec, caller, request).1.entries
    ensures Refusal(m, ec, caller, request) == None && !IsWrite(request) && x in Read(m, ec, request).entries
  {
    hide PolicyState, Read, Written, WellFormed;
  }

  /** The same at every point of every run. */
  lemma RunAnswersAreConfined(m: Mem, events: seq<Event>, i: nat, x: Item)
    requires Inv(m) && i < |events| && events[i].Calls?
    requires x in Handle(Run(m, events[..i]), events[i].ec, events[i].caller, events[i].request).1.entries
    ensures ConfinedItem(Run(m, events[..i]), events[i].ec, x)
  {
    hide Inv, Handle, ConfinedItem;
    RunKeepsInv(m, events[..i]);
    AnswersAreConfined(Run(m, events[..i]), events[i].ec, events[i].caller, events[i].request, x);
  }

  /** Without the service role nothing about the memory is learned: the answer is the same
      over any two memories, and nothing but the audit changes. */
  lemma NoProbingWithoutRole(m: Mem, n: Mem, g: Gate, token: nat, r: PromotionRequest)
    requires token in g.bindings ==> g.bindings[token].role != SERVICE
    ensures Promote(m, g, token, r).2 == Promote(n, g, token, r).2 == RejectedAuthority
    ensures Promote(m, g, token, r).1 == Promote(n, g, token, r).1 == g.(audit := Promote(m, g, token, r).1.audit)
    ensures Promote(m, g, token, r).0 == m && Promote(m, g, token, r).3 == None
  {
  }
}
