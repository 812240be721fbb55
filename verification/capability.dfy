/** Memory as a capability of one execution: issued identities, caller roles, trusted
    provenance and bounded answers. */
module Capability {
  import opened Text
  import opened Records
  import opened Packing
  import opened ContextTrees

  /** Compared by identity in the source: the token is the identity. */
  datatype ExecutionContext = ExecutionContext(token: nat, executionId: string, contextId: string)

  datatype Caller = Caller(token: nat, callerId: string, callerClass: CallerClass)

  datatype MemoryRequest = Search(query: string)
                         | Fetch(entryId: string)
                         | RecordObservation(newId: string, content: string)
                         | Declare(newId: string, content: string, targetContext: string)

  const DECLARATION_TARGET := "project-a"

  predicate BoundedId(id: string) {
    0 < Utf8(id) <= 80
  }

  predicate IsWrite(request: MemoryRequest) {
    request.RecordObservation? || request.Declare?
  }

  predicate WellFormed(request: MemoryRequest) {
    match request
    case Search(query) => Utf8(query) <= 256
    case Fetch(id) => BoundedId(id)
    case RecordObservation(id, content) => BoundedId(id) && 0 < Utf8(content) <= 16384
    case Declare(id, content, _) => BoundedId(id) && 0 < Utf8(content) <= 16384
  }

  /** The answer when a bound caller may not even try. */
  function Refusal(callerClass: CallerClass, request: MemoryRequest, available: bool): Option<Response> {
    if !WellFormed(request) then Some(Because(Denied, "invalid_request"))
    else if request.RecordObservation? && callerClass !in {Cognition, Worker} then
      Some(Because(Denied, "caller_operation"))
    else if request.Declare? && (callerClass != Human || request.targetContext != DECLARATION_TARGET) then
      Some(Because(Denied, "declaration_authority"))
    else if !available then Some(Because(Unavailable, "capability_unavailable"))
    else None
  }

  /** The entry a write stores: the target, the provenance and the status come from
      the operation, never from the request. */
  function NewEntry(c: string, callerId: string, request: MemoryRequest): MemoryEntry
    requires IsWrite(request)
  {
    if request.RecordObservation?
    then MemoryEntry(request.newId, c, request.content, callerId, AgentObservation, Unverified)
    else MemoryEntry(request.newId, DECLARATION_TARGET, request.content, callerId, UserDeclaration, Declared)
  }

  function ReceiptOf(e: MemoryEntry): Receipt {
    MemoryReceipt(e.id, e.contextId, e.createdBy, e.provenance, e.epistemic)
  }

  /** Every stored text is a capability-layer entry under its own id. */
  predicate HoldsMemory(entries: Entries) {
    forall id | id in entries ::
      && entries[id].content.OfMemory?
      && entries[id].content.memory.id == id
      && entries[id].content.memory.contextId == entries[id].contextId
  }

  /** `[e for e in entries if query in e['content']]`. */
  function Matching(scoped: seq<ScopedEntry>, query: string): seq<Item>
    requires forall e | e in scoped :: e.content.OfMemory?
  {
    if scoped == [] then []
    else
      var m := scoped[0].content.memory;
      (if Contains(m.content, query) then [MemoryItem(m)] else []) + Matching(scoped[1..], query)
  }

  function Visible(nodes: Nodes, entries: Entries, c: string): (r: seq<ScopedEntry>)
    ensures forall e | e in r :: exists id | id in entries :: e == entries[id]
  {
    Listed(entries, Ordered(VisibleIds(nodes, entries, c)))
  }

  function Respond(nodes: Nodes, entries: Entries, c: string, callerId: string, request: MemoryRequest): Response
    requires HoldsMemory(entries)
  {
    match request
    case Search(query) => Pack(Matching(Visible(nodes, entries, c), query), Wire)
    case Fetch(id) =>
      if id in VisibleIds(nodes, entries, c) then Pack([MemoryItem(entries[id].content.memory)], Wire)
      else Because(Denied, "not_permitted")
    case _ => Acknowledge(nodes, entries, NewEntry(c, callerId, request))
  }

  predicate Accepts(nodes: Nodes, entries: Entries, e: MemoryEntry) {
    e.contextId in nodes && e.id !in entries
  }

  function Acknowledge(nodes: Nodes, entries: Entries, e: MemoryEntry): Response {
    if Accepts(nodes, entries, e) then Response(Recorded, [], false, None, Some(ReceiptOf(e)))
    else Because(Denied, "not_permitted")
  }

  function Add(nodes: Nodes, entries: Entries, e: MemoryEntry): Entries {
    if Accepts(nodes, entries, e) then entries[e.id := ScopedEntry(e.id, e.contextId, OfMemory(e))] else entries
  }

  function Stored(nodes: Nodes, entries: Entries, c: string, callerId: string, request: MemoryRequest): Entries {
    if IsWrite(request) then Add(nodes, entries, NewEntry(c, callerId, request)) else entries
  }

  // ----- laws ------------------------------------------------------------------

  lemma {:induction false} MatchingMembers(scoped: seq<ScopedEntry>, query: string, x: Item)
    requires forall e | e in scoped :: e.content.OfMemory?
    ensures x in Matching(scoped, query) <==>
            exists e | e in scoped :: x == MemoryItem(e.content.memory) && Contains(e.content.memory.content, query)
  {
    if scoped != [] {
      MatchingMembers(scoped[1..], query, x);
      assert scoped == [scoped[0]] + scoped[1..];
    }
  }

  /** Filtering happens inside the lineage: the packed candidates are exactly the
      visible entries that contain the query. */
  lemma SearchSeesVisibleMatches(nodes: Nodes, entries: Entries, c: string, query: string, id: string)
    requires HoldsMemory(entries) && id in entries
    ensures MemoryItem(entries[id].content.memory) in Matching(Visible(nodes, entries, c), query) <==>
            entries[id].contextId in Lineage(nodes, c) && Contains(entries[id].content.memory.content, query)
  {
    var scoped := Visible(nodes, entries, c);
    var ids := Ordered(VisibleIds(nodes, entries, c));
    MatchingMembers(scoped, query, MemoryItem(entries[id].content.memory));
    if id in ids {
      var i :| 0 <= i < |ids| && ids[i] == id;
      assert scoped[i] == entries[id];
    }
    forall e | e in scoped && e.content.memory == entries[id].content.memory ensures id in ids {
      var i :| 0 <= i < |scoped| && scoped[i] == e;
      assert ids[i] in entries && e == entries[ids[i]];
    }
  }

  /** A caller without a matching role, or an unavailable capability, changes nothing;
      observations stay at the bound context and declarations at the fixed target. */
  lemma WritesAreScoped(nodes: Nodes, entries: Entries, c: string, caller: Caller, request: MemoryRequest,
                        available: bool, id: string)
    requires HoldsMemory(entries)
    requires Refusal(caller.callerClass, request, available) == None
    requires id in Stored(nodes, entries, c, caller.callerId, request) && id !in entries
    ensures available && IsWrite(request) && id == request.newId
    ensures var e := Stored(nodes, entries, c, caller.callerId, request)[id];
            && e.contextId == (if request.RecordObservation? then c else DECLARATION_TARGET)
            && (e.content.memory.provenance == UserDeclaration <==> caller.callerClass == Human)
            && (e.content.memory.epistemic == Declared <==> e.content.memory.provenance == UserDeclaration)
            && e.content.memory.createdBy == caller.callerId
  {
  }

  /** The tree's own answer to a write is the acknowledgement of it. */
  lemma AcceptedWrites(nodes: Nodes, entries: Entries, e: MemoryEntry)
    requires e.id != "" && e.contextId in nodes
    ensures var write := Write(e.id, OfMemory(e));
            && (Answer(nodes, entries, e.contextId, write).Ok? <==> Accepts(nodes, entries, e))
            && After(entries, e.contextId, write) == Add(nodes, entries, e)
  {
  }

  // ----- what is answered, from the stored fields alone ------------------------------

  /** Who may ask what: the first reason for a refusal, in this order. */
  lemma RefusedFor(callerClass: CallerClass, request: MemoryRequest, available: bool)
    ensures var bounded := match request
                           case Search(query) => Utf8(query) <= 256
                           case Fetch(id) => 1 <= Utf8(id) <= 80
                           case RecordObservation(id, content) => 1 <= Utf8(id) <= 80 && 1 <= Utf8(content) <= 16384
                           case Declare(id, content, _) => 1 <= Utf8(id) <= 80 && 1 <= Utf8(content) <= 16384;
            Refusal(callerClass, request, available) ==
            if !bounded then Some(Because(Denied, "invalid_request"))
            else if request.RecordObservation? && (callerClass == Human || callerClass == Verifier)
            then Some(Because(Denied, "caller_operation"))
            else if request.Declare? && !(callerClass == Human && request.targetContext == "project-a")
            then Some(Because(Denied, "declaration_authority"))
            else if !available then Some(Because(Unavailable, "capability_unavailable"))
            else None
  {
    hide Utf8;
  }

  /** An inherited entry. */
  ghost predicate Inherited(nodes: Nodes, entries: Entries, c: string, m: MemoryEntry) {
    m.id in entries && entries[m.id].content == OfMemory(m) && Inherits(nodes, c, m.contextId)
  }

  lemma MatchesAreInherited(nodes: Nodes, entries: Entries, c: string, query: string, x: Item)
    requires HoldsMemory(entries) && RootedTree(nodes) && c in nodes
    requires forall id | id in entries :: entries[id].id == id
    ensures x in Matching(Visible(nodes, entries, c), query) <==>
            x.MemoryItem? && Inherited(nodes, entries, c, x.memory) && Contains(x.memory.content, query)
  {
    hide Contains, Inherits, Lineage, RootedTree;
    var scoped := Visible(nodes, entries, c);
    var ids := Ordered(VisibleIds(nodes, entries, c));
    MatchingMembers(scoped, query, x);
    TreeNodeClimbs(nodes, c);
    if x in Matching(scoped, query) {
      var e :| e in scoped && x == MemoryItem(e.content.memory) && Contains(e.content.memory.content, query);
      var i :| 0 <= i < |scoped| && scoped[i] == e;
      assert ids[i] in ids;
      LineageIsInherited(nodes, c, e.contextId);
    }
    if x.MemoryItem? && Inherited(nodes, entries, c, x.memory) && Contains(x.memory.content, query) {
      LineageIsInherited(nodes, c, x.memory.contextId);
      assert x.memory.id in ids;
      var i :| 0 <= i < |ids| && ids[i] == x.memory.id;
      assert scoped[i] in scoped && x == MemoryItem(scoped[i].content.memory);
    }
  }

  /** An inherited entry that holds the query. */
  ghost predicate Hit(nodes: Nodes, entries: Entries, c: string, query: string, m: MemoryEntry) {
    Inherited(nodes, entries, c, m) && Contains(m.content, query)
  }

  /** A search returns inherited entries that hold the query, all of them unless it says
      otherwise, and says whether there are any. */
  lemma {:induction false} SearchLaw(nodes: Nodes, entries: Entries, c: string, callerId: string, query: string)
    requires HoldsMemory(entries) && RootedTree(nodes) && c in nodes
    requires forall id | id in entries :: entries[id].id == id
    ensures var r := Respond(nodes, entries, c, callerId, Search(query));
            && r.reason == None && r.receipt == None
            && (forall x | x in r.entries :: x.MemoryItem? && Hit(nodes, entries, c, query, x.memory))
            && (!r.partial ==> forall m | Hit(nodes, entries, c, query, m) :: MemoryItem(m) in r.entries)
            && (r.status == Results <==> exists m :: Hit(nodes, entries, c, query, m))
            && (r.status == Empty <==> !exists m :: Hit(nodes, entries, c, query, m))
  {
    var found := Matching(Visible(nodes, entries, c), query);
    var r := Respond(nodes, entries, c, callerId, Search(query));
    assert r == Pack(found, Wire);
    hide *;
    PackAnswers(found, Wire);
    forall x | x in found ensures x.MemoryItem? && Hit(nodes, entries, c, query, x.memory) {
      HitIff(nodes, entries, c, query, x);
    }
    forall m | Hit(nodes, entries, c, query, m) ensures MemoryItem(m) in found {
      HitIff(nodes, entries, c, query, MemoryItem(m));
    }
    if found != [] { assert found[0] in found; }
  }

  lemma HitIff(nodes: Nodes, entries: Entries, c: string, query: string, x: Item)
    requires HoldsMemory(entries) && RootedTree(nodes) && c in nodes
    requires forall id | id in entries :: entries[id].id == id
    ensures x in Matching(Visible(nodes, entries, c), query) <==>
            x.MemoryItem? && Hit(nodes, entries, c, query, x.memory)
  {
    hide Contains, Inherited, Matching, Visible, RootedTree, HoldsMemory;
    MatchesAreInherited(nodes, entries, c, query, x);
  }

  /** An inherited entry is fetched by its id; any other id is refused alike. */
  lemma FetchLaw(nodes: Nodes, entries: Entries, c: string, callerId: string, id: string)
    requires HoldsMemory(entries) && RootedTree(nodes) && c in nodes
    ensures var r := Respond(nodes, entries, c, callerId, Fetch(id));
            if id in entries && Inherits(nodes, c, entries[id].contextId) then
              && r.status == Results && r.reason == None && r.receipt == None
              && (forall x | x in r.entries :: x == MemoryItem(entries[id].content.memory))
              && (!r.partial ==> MemoryItem(entries[id].content.memory) in r.entries)
            else r == Response(Denied, [], false, Some("not_permitted"), None)
  {
    hide Pack, Lineage, Inherits, RootedTree;
    if id in entries {
      TreeNodeClimbs(nodes, c);
      LineageIsInherited(nodes, c, entries[id].contextId);
      PackAnswers([MemoryItem(entries[id].content.memory)], Wire);
    }
  }

  /** A write is recorded exactly when its target exists and its id is free: one entry is then
      added, the requested one with the trusted provenance, and the receipt is that entry
      without its content. */
  lemma WriteLaw(nodes: Nodes, entries: Entries, c: string, callerId: string, request: MemoryRequest)
    requires HoldsMemory(entries) && IsWrite(request)
    ensures var target := if request.Declare? then "project-a" else c;
            var (provenance, epistemic) := if request.Declare? then (UserDeclaration, Declared)
                                           else (AgentObservation, Unverified);
            var (id, after) := (request.newId, Stored(nodes, entries, c, callerId, request));
            var r := Respond(nodes, entries, c, callerId, request);
            if target in nodes && id !in entries then
              && after == entries[id := ScopedEntry(id, target, OfMemory(MemoryEntry(id, target, request.content,
                                                                                     callerId, provenance, epistemic)))]
              && r == Response(Recorded, [], false, None,
                               Some(MemoryReceipt(id, target, callerId, provenance, epistemic)))
            else after == entries && r == Response(Denied, [], false, Some("not_permitted"), None)
  {
  }

  // ----- the class ----------------------------------------------------------------

  /** `Memory`. The security layer reuses its identities and its tree. */
  class Memory {
    const tree: ContextTree
    var executions: map<ExecutionContext, nat>
    var callers: map<Caller, ExecutionContext>
    var issued: nat
    var available: bool

    ghost predicate Valid()
      reads this, tree
    {
      && tree.Valid()
      && (forall ec | ec in executions ::
            && ec.token < issued && ec.contextId in tree.nodes
            && executions[ec] in tree.bindings && tree.bindings[executions[ec]] == ec.contextId)
      && (forall k | k in callers :: k.token < issued && callers[k] in executions)
    }

    constructor (tree: ContextTree)
      requires tree.Valid()
      ensures Valid() && this.tree == tree && executions == map[] && callers == map[] && issued == 0 && available
    {
      this.tree := tree;
      executions, callers, issued, available := map[], map[], 0, true;
    }

    /** Trusted harness only. */
    method Begin(executionId: string, contextId: string) returns (r: Result<ExecutionContext, Rejection>)
      requires Valid()
      modifies this`executions, this`issued, tree`bindings, tree`issued
      ensures Valid()
      ensures r.Ok? <==> 0 < |executionId| <= 80 && contextId in tree.nodes
      ensures r.Ok? ==> r.value == ExecutionContext(old(issued), executionId, contextId)
                        && executions == old(executions)[r.value := old(tree.issued)]
                        && issued == old(issued) + 1
                        && tree.bindings == old(tree.bindings)[old(tree.issued) := contextId]
                        && tree.issued == old(tree.issued) + 1
      ensures r.Err? ==> r.error == if 0 < |executionId| <= 80 then UnknownContext else InvalidExecution
      ensures r.Err? ==> executions == old(executions) && issued == old(issued)
                         && tree.bindings == old(tree.bindings) && tree.issued == old(tree.issued)
    {
      if !(0 < |executionId| <= 80) { return Err(InvalidExecution); }
      var bound := tree.Bind(contextId);
      if bound.Err? { return Err(bound.error); }
      var ec := ExecutionContext(issued, executionId, contextId);
      executions := executions[ec := bound.value];
      issued := issued + 1;
      return Ok(ec);
    }

    /** Trusted harness only. */
    method Participant(ec: ExecutionContext, callerId: string, callerClass: CallerClass)
      returns (r: Result<Caller, Rejection>)
      requires Valid()
      modifies this`callers, this`issued
      ensures Valid()
      ensures r.Ok? <==> ec in executions && 0 < |callerId| <= 80
      ensures r.Ok? ==> r.value == Caller(old(issued), callerId, callerClass)
                        && callers == old(callers)[r.value := ec] && issued == old(issued) + 1
      ensures r.Err? ==> r.error == InvalidCaller && callers == old(callers) && issued == old(issued)
    {
      if ec !in executions || !(0 < |callerId| <= 80) { return Err(InvalidCaller); }
      var caller := Caller(issued, callerId, callerClass);
      callers := callers[caller := ec];
      issued := issued + 1;
      return Ok(caller);
    }

    predicate Bound(ec: ExecutionContext, caller: Caller)
      reads this
    {
      ec in executions && caller in callers && callers[caller] == ec
    }

    /** `Memory.handle`. */
    method Handle(ec: ExecutionContext, caller: Caller, request: MemoryRequest) returns (r: Response)
      requires Valid() && HoldsMemory(tree.entries)
      modifies tree
      ensures Valid() && HoldsMemory(tree.entries)
      ensures !Bound(ec, caller) ==> r == Because(Denied, "untrusted_binding") && tree.entries == old(tree.entries)
      ensures Bound(ec, caller) ==>
                match Refusal(caller.callerClass, request, available)
                case Some(refused) => r == refused && tree.entries == old(tree.entries)
                case None =>
                  && r == Respond(tree.nodes, old(tree.entries), ec.contextId, caller.callerId, request)
                  && tree.entries == Stored(tree.nodes, old(tree.entries), ec.contextId, caller.callerId, request)
    {
      hide Pack, Matching, Visible, Acknowledge, Add, Contains, VisibleIds, ReceiptOf, Utf8;
      if !Bound(ec, caller) { return Because(Denied, "untrusted_binding"); }
      if !WellFormed(request) { return Because(Denied, "invalid_request"); }
      if request.RecordObservation? && caller.callerClass !in {Cognition, Worker} {
        return Because(Denied, "caller_operation");
      }
      if request.Declare? && (caller.callerClass != Human || request.targetContext != DECLARATION_TARGET) {
        return Because(Denied, "declaration_authority");
      }
      if !available { return Because(Unavailable, "capability_unavailable"); }
      if IsWrite(request) {
        r := Store(ec, NewEntry(ec.contextId, caller.callerId, request), request.Declare?);
      } else {
        r := Retrieve(ec, caller, request);
      }
    }

    method Retrieve(ec: ExecutionContext, caller: Caller, request: MemoryRequest) returns (r: Response)
      requires Valid() && HoldsMemory(tree.entries) && ec in executions
      requires !IsWrite(request) && WellFormed(request)
      modifies tree
      ensures tree.entries == old(tree.entries) && tree.bindings == old(tree.bindings)
              && tree.issued == old(tree.issued)
      ensures r == Respond(tree.nodes, tree.entries, ec.contextId, caller.callerId, request)
    {
      hide Pack, Contains, Lineage;
      var bound := executions[ec];
      match request
      case Search(query) =>
        var scoped := tree.Handle(bound, Read);
        r := PackLoop(Matching(scoped.value.entries, query), Wire);
      case Fetch(id) =>
        var found := tree.Handle(bound, Get(id));
        if found.Err? { return Because(Denied, "not_permitted"); }
        r := PackLoop([MemoryItem(found.value.entry.content.memory)], Wire);
    }

    method Store(ec: ExecutionContext, e: MemoryEntry, declared: bool) returns (r: Response)
      requires Valid() && HoldsMemory(tree.entries) && ec in executions && e.id != ""
      requires e.contextId == if declared then DECLARATION_TARGET else ec.contextId
      modifies tree
      ensures Valid() && HoldsMemory(tree.entries)
      ensures r == Acknowledge(tree.nodes, old(tree.entries), e)
      ensures tree.entries == Add(tree.nodes, old(tree.entries), e)
    {
      hide Lineage, Contains, Answer, RootedTree, VisibleIds;
      if e.contextId in tree.nodes { AcceptedWrites(tree.nodes, tree.entries, e); }
      var writeBinding := executions[ec];
      if declared {
        var target := tree.Bind(DECLARATION_TARGET);
        if target.Err? { return Because(Denied, "not_permitted"); }
        writeBinding := target.value;
      }
      var written := tree.Handle(writeBinding, Write(e.id, OfMemory(e)));
      if written.Err? { return Because(Denied, "not_permitted"); }
      r := Response(Recorded, [], false, None, Some(ReceiptOf(e)));
    }
  }
}
