/** What a destination may learn about promotions: receipts of the entries its own
    bounded search returned, and its own visible revision. */
module DestinationViews {
  import opened Text
  import opened Records
  import opened Packing
  import opened Security
  import opened Promotion
  import opened PromotionLaws
  import opened Noninterference
  import opened SecurityLaws

  datatype DestinationView = DestinationView(memory: Response, receipts: seq<GateReceipt>, revision: Option<nat>)

  const EVERYTHING := Search("", RawName)

  function ReturnedIds(r: Response): set<string> {
    set x | x in r.entries :: x.Id()
  }

  function ReceiptsOf(g: Gate, ids: seq<string>): (r: seq<GateReceipt>)
    requires forall id | id in ids :: id in g.receipts
    ensures |r| == |ids| && forall i | 0 <= i < |ids| :: ids[i] in g.receipts && r[i] == g.receipts[ids[i]]
  {
    seq(|ids|, i requires 0 <= i < |ids| => g.receipts[ids[i]])
  }

  /** The receipts with a returned entry, in id order. */
  function Shown(g: Gate, ids: set<string>): seq<GateReceipt> {
    ReceiptsOf(g, Ordered(g.receipts.Keys * ids))
  }

  /** `destination_view` */
  function ViewFrom(m: Mem, g: Gate, ec: ExecutionContext, caller: Caller): DestinationView {
    var answer := Handle(m, ec, caller, EVERYTHING).1;
    DestinationView(answer, Shown(g, ReturnedIds(answer)),
                    if answer.status in {Results, Empty} then Some(VisibleRevision(m, ec)) else None)
  }

  lemma AnswerIsStored(m: Mem, ec: ExecutionContext, caller: Caller, x: Item)
    requires Lockstep(m) && x in Handle(m, ec, caller, EVERYTHING).1.entries
    ensures x.RawItem? && x.entry.id in m.raw && m.raw[x.entry.id] == x.entry && AllowedRaw(m, ec, x.entry.id)
    ensures x.Id() == x.entry.id
  {
    hide Pack, PackIds, Contains, AllowedRaw, PolicyState, WellFormed;
    var id := ListedRecord(m, MatchIds(m, ec, "", RawName), x);
  }

  lemma ReceiptIsOfEntry(m: Mem, g: Gate, id: string)
    requires GateInv(m, g) && id in g.receipts
    ensures id in m.raw && IsPromotion(m.raw[id])
            && g.receipts[id] == ReceiptFor(m.raw[id], g.cfg.edition, g.cfg.policy)
  {
    hide OneToOne, AllCleared, TokensIssued;
    assert id in PromotedIds(m);
    assert Answered(g, id);
    var key :| key in g.replays && g.replays[key].receipt.entryId == id;
    assert Backed(m, g, key);
  }

  /** A receipt is shown exactly when the gate's own promoted entry was returned, and then
      it describes that visible entry. */
  lemma {:induction false} ShownIffReturned(m: Mem, g: Gate, ec: ExecutionContext, caller: Caller, r: GateReceipt)
    requires Lockstep(m) && GateInv(m, g)
    ensures r in ViewFrom(m, g, ec, caller).receipts <==>
            exists x | x in Handle(m, ec, caller, EVERYTHING).1.entries ::
              && x.RawItem? && x.entry.id in g.receipts && IsPromotion(x.entry)
              && r == ReceiptFor(x.entry, g.cfg.edition, g.cfg.policy)
    ensures r in ViewFrom(m, g, ec, caller).receipts ==> AllowedRaw(m, ec, r.entryId)
  {
    hide Handle, GateInv, AllowedRaw;
    var answer := Handle(m, ec, caller, EVERYTHING).1;
    var listed := Ordered(g.receipts.Keys * ReturnedIds(answer));
    if r in Shown(g, ReturnedIds(answer)) {
      var i :| 0 <= i < |listed| && g.receipts[listed[i]] == r;
      assert listed[i] in listed;
      var x :| x in answer.entries && x.Id() == listed[i];
      AnswerIsStored(m, ec, caller, x);
      ReceiptIsOfEntry(m, g, listed[i]);
    }
    if x :| && x in answer.entries && x.RawItem? && x.entry.id in g.receipts && IsPromotion(x.entry)
            && r == ReceiptFor(x.entry, g.cfg.edition, g.cfg.policy)
    {
      AnswerIsStored(m, ec, caller, x);
      ReceiptIsOfEntry(m, g, x.entry.id);
      assert x.entry.id in listed;
      var i :| 0 <= i < |listed| && listed[i] == x.entry.id;
      assert Shown(g, ReturnedIds(answer))[i] == r;
    }
  }

  lemma PromotedHasReceipt(m: Mem, g: Gate, id: string)
    requires Accounted(m, [g]) && id in m.raw && IsPromotion(m.raw[id])
    ensures id in g.receipts
  {
    assert id in PromotedIds(m) && HasReceipt([g], id);
  }

  /** The receipts add nothing to the answer: whatever the hidden entries, promotions and
      audits of two worlds with one gate each are, equal answers come with equal receipts. */
  lemma {:induction false} ReceiptsFollowAnswer(m: Mem, g: Gate, n: Mem, h: Gate, ec: ExecutionContext, caller: Caller)
    requires Lockstep(m) && GateInv(m, g) && Lockstep(n) && GateInv(n, h) && g.cfg.edition == h.cfg.edition
             && g.cfg.policy == h.cfg.policy
    requires Accounted(m, [g]) && Accounted(n, [h])
    requires Handle(m, ec, caller, EVERYTHING).1 == Handle(n, ec, caller, EVERYTHING).1
    ensures ViewFrom(m, g, ec, caller).receipts == ViewFrom(n, h, ec, caller).receipts
  {
    hide Handle, GateInv, AllowedRaw, Lockstep, IsPromotion, Accounted;
    var ids := ReturnedIds(Handle(m, ec, caller, EVERYTHING).1);
    forall id ensures id in g.receipts.Keys * ids <==> id in h.receipts.Keys * ids
      ensures id in g.receipts.Keys * ids ==> g.receipts[id] == h.receipts[id]
    {
      if id in ids {
        var x :| x in Handle(m, ec, caller, EVERYTHING).1.entries && x.Id() == id;
        AnswerIsStored(m, ec, caller, x);
        AnswerIsStored(n, ec, caller, x);
        if id in g.receipts { ReceiptIsOfEntry(m, g, id); PromotedHasReceipt(n, h, id); }
        if id in h.receipts { ReceiptIsOfEntry(n, h, id); PromotedHasReceipt(m, g, id); }
      }
    }
    assert g.receipts.Keys * ids == h.receipts.Keys * ids;
  }

  /** The revision is given exactly when the search is served, and is then the number of
      post-setup entries the execution may read. */
  lemma {:induction false} RevisionIffServed(m: Mem, g: Gate, ec: ExecutionContext, caller: Caller)
    requires Inv(m)
    ensures var view := ViewFrom(m, g, ec, caller);
            && view.memory == Handle(m, ec, caller, Search("", RawName)).1
            && view.revision == if Served(m, ec, caller, Search("", RawName))
                                then Some(|set id | id in m.raw && Contains(id, "::") && MayRead(m, ec, id)|) else None
  {
    RefusalTable(m, ec, caller, EVERYTHING);
    if Served(m, ec, caller, EVERYTHING) {
      SearchLaw(m, ec, caller, "", RawName);
      ServedIsIssued(m, ec, caller, EVERYTHING);
      RevisionCounts(m, ec);
    }
    hide Inv, Handle, Served, VisibleRevision, MayRead, Contains, Governed, InBounds;
  }

  lemma RevisionCounts(m: Mem, ec: ExecutionContext)
    requires Inv(m) && ec in m.executions
    ensures VisibleRevision(m, ec) == |set id | id in m.raw && Contains(id, "::") && MayRead(m, ec, id)|
  {
    hide Inv, MayRead, AllowedRaw, Contains;
    forall id ensures AllowedRaw(m, ec, id) <==> MayRead(m, ec, id) { ReadableIff(m, ec, id); }
    assert VisibleWrites(m, ec) == set id | id in m.raw && Contains(id, "::") && MayRead(m, ec, id);
  }

  /** The receipts come in the order of their entries' ids, each once. */
  lemma {:induction false} ShownInOrder(m: Mem, g: Gate, ec: ExecutionContext, caller: Caller, i: nat, j: nat)
    requires Lockstep(m) && GateInv(m, g) && i < j < |ViewFrom(m, g, ec, caller).receipts|
    ensures var receipts := ViewFrom(m, g, ec, caller).receipts;
            Le(receipts[i].entryId, receipts[j].entryId) && receipts[i].entryId != receipts[j].entryId
  {
    hide Handle, GateInv, Le, ReturnedIds;
    var ids := Ordered(g.receipts.Keys * ReturnedIds(Handle(m, ec, caller, EVERYTHING).1));
    assert ids[i] in ids && ids[j] in ids;
    ReceiptIsOfEntry(m, g, ids[i]);
    ReceiptIsOfEntry(m, g, ids[j]);
  }
}
