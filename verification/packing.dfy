/** Whole-entry selection under the 2048-byte response cap. */
module Packing {
  import opened Text
  import opened Records

  const BUDGET := 2048

  // ----- id order -----------------------------------------------------------

  ghost predicate Sorted(items: seq<Item>) {
    forall i, j | 0 <= i < j < |items| :: Le(items[i].Id(), items[j].Id())
  }

  /** Two entries with one id are one entry; every caller packs such lists. */
  ghost predicate Consistent(items: seq<Item>) {
    forall i, j | 0 <= i < |items| && 0 <= j < |items| && items[i].Id() == items[j].Id() :: items[i] == items[j]
  }

  /** Places `x` before the first entry with a larger id, as a stable sort does. */
  function Insert(x: Item, items: seq<Item>): (r: seq<Item>)
    ensures multiset(r) == multiset(items) + multiset{x}
  {
    if items == [] then [x]
    else if Le(x.Id(), items[0].Id()) then
      assert multiset([x] + items) == multiset{x} + multiset(items);
      [x] + items
    else
      assert items == [items[0]] + items[1..];
      [items[0]] + Insert(x, items[1..])
  }

  lemma {:induction false} InsertSorted(x: Item, items: seq<Item>)
    requires Sorted(items)
    ensures Sorted(Insert(x, items))
  {
    hide Le;
    if items != [] {
      LeTotal(x.Id(), items[0].Id());
      if Le(x.Id(), items[0].Id()) {
        forall j | 0 <= j < |items|
          ensures Le(x.Id(), items[j].Id())
        {
          if 0 < j { LeTransitive(x.Id(), items[0].Id(), items[j].Id()); }
        }
      } else {
        InsertSorted(x, items[1..]);
        var rest := Insert(x, items[1..]);
        forall j | 0 <= j < |rest|
          ensures Le(items[0].Id(), rest[j].Id())
        {
          assert rest[j] in multiset(rest);
          if rest[j] != x { var k :| 0 <= k < |items[1..]| && items[1..][k] == rest[j]; }
        }
      }
    }
  }

  /** `sorted(entries, key=lambda e: e['id'])`. */
  function SortById(items: seq<Item>): (r: seq<Item>)
    ensures multiset(r) == multiset(items)
    ensures |r| == |items|
  {
    if items == [] then []
    else
      assert items == [items[0]] + items[1..];
      var r := Insert(items[0], SortById(items[1..]));
      assert |multiset(r)| == |multiset(items)|;
      r
  }

  lemma {:induction false} SortByIdSorts(items: seq<Item>)
    ensures Sorted(SortById(items))
  {
    if items != [] {
      SortByIdSorts(items[1..]);
      InsertSorted(items[0], SortById(items[1..]));
    }
  }

  lemma SameItems(a: seq<Item>, b: seq<Item>)
    requires multiset(a) == multiset(b)
    ensures |a| == |b|
    ensures forall x :: x in a <==> x in b
  {
    assert |multiset(a)| == |multiset(b)|;
    forall x ensures x in a <==> x in b {
      assert x in a <==> x in multiset(a);
      assert x in b <==> x in multiset(b);
    }
  }

  lemma SortedHeadsAgree(a: seq<Item>, b: seq<Item>)
    requires a != [] && b != [] && a[0] in b && b[0] in a && Sorted(a) && Sorted(b)
    ensures a[0].Id() == b[0].Id()
  {
    var i :| 0 <= i < |b| && b[i] == a[0];
    var j :| 0 <= j < |a| && a[j] == b[0];
    LeReflexive(a[0].Id());
    LeAntisymmetric(a[0].Id(), b[0].Id());
  }

  lemma DropHead(a: seq<Item>)
    requires a != []
    ensures multiset(a) == multiset{a[0]} + multiset(a[1..])
  {
    assert a == [a[0]] + a[1..];
  }

  /** A consistent collection has one id-ordered listing. */
  lemma {:induction false} SortedUnique(a: seq<Item>, b: seq<Item>)
    requires multiset(a) == multiset(b) && Sorted(a) && Sorted(b) && Consistent(a)
    ensures a == b
  {
    SameItems(a, b);
    if a != [] {
      assert a[0] in b && b[0] in a;
      SortedHeadsAgree(a, b);
      var j :| 0 <= j < |a| && a[j] == b[0];
      assert a[0] == a[j];
      DropHead(a);
      DropHead(b);
      assert multiset(a[1..]) == multiset(a) - multiset{a[0]};
      assert multiset(b[1..]) == multiset(b) - multiset{b[0]};
      SortedUnique(a[1..], b[1..]);
    }
  }

  lemma SortOrderIndependent(a: seq<Item>, b: seq<Item>)
    requires multiset(a) == multiset(b) && Consistent(a)
    ensures SortById(a) == SortById(b)
  {
    SortByIdSorts(a);
    SortByIdSorts(b);
    SameItems(a, SortById(a));
    forall i, j | 0 <= i < |a| && 0 <= j < |a| && SortById(a)[i].Id() == SortById(a)[j].Id()
      ensures SortById(a)[i] == SortById(a)[j]
    {
      assert SortById(a)[i] in a && SortById(a)[j] in a;
    }
    SortedUnique(SortById(a), SortById(b));
  }

  // ----- sizes --------------------------------------------------------------

  /** `len(wire(response('SUCCESS_WITH_RESULTS', items)))`. */
  function Size(items: seq<Item>, partial: bool, w: Writer): nat {
    Utf8(WireResults(items, partial, w))
  }

  /** The entries' own bytes plus one comma between neighbours. */
  function Bulk(items: seq<Item>, w: Writer): nat {
    if items == [] then 0
    else Utf8(w(items[0])) + (if |items| == 1 then 0 else 1) + Bulk(items[1..], w)
  }

  const FRAME: nat := Utf8(HEAD) + Utf8(Closing(false))

  lemma {:induction false} JoinedBytes(items: seq<Item>, w: Writer)
    ensures Utf8(Join(WireAll(items, w), ",")) == Bulk(items, w)
  {
    if items != [] {
      var texts := WireAll(items, w);
      assert texts[1..] == WireAll(items[1..], w);
      JoinedBytes(items[1..], w);
      if |items| > 1 {
        Utf8Concat(texts[0], ",");
        Utf8Concat(texts[0] + ",", Join(texts[1..], ","));
        assert Utf8(",") == 1;
      } else {
        assert Join(texts, ",") == texts[0];
      }
    }
  }

  lemma SizeIsFramePlusBulk(items: seq<Item>, w: Writer)
    ensures Size(items, false, w) == FRAME + Bulk(items, w)
  {
    JoinedBytes(items, w);
    Utf8Concat(HEAD, Join(WireAll(items, w), ","));
    Utf8Concat(HEAD + Join(WireAll(items, w), ","), Closing(false));
  }

  lemma LongerMiddle(before: string, short: string, long: string, after: string)
    requires Utf8(short) < Utf8(long)
    ensures Utf8(before + short + after) < Utf8(before + long + after)
  {
    Utf8Concat(before + short, after);
    Utf8Concat(before + long, after);
    Utf8Concat(before, short);
    Utf8Concat(before, long);
  }

  lemma TrueIsShorter()
    ensures Utf8("true") < Utf8("false")
  {
    assert "true"[1..] == "rue" && "rue"[1..] == "ue" && "ue"[1..] == "e";
    assert "false"[1..] == "alse" && "alse"[1..] == "lse" && "lse"[1..] == "se" && "se"[1..] == "e";
  }

  lemma ClosingIsShorter()
    ensures Utf8(Closing(true)) < Utf8(Closing(false))
  {
    TrueIsShorter();
    LongerMiddle("],\"partial\":", "true", "false", TAIL);
  }

  /** Spelling the flag `true` only shortens the response. */
  lemma PartialIsShorter(items: seq<Item>, w: Writer)
    ensures Size(items, true, w) < Size(items, false, w)
  {
    var body := HEAD + Join(WireAll(items, w), ",");
    ClosingIsShorter();
    Utf8Concat(body, Closing(true));
    Utf8Concat(body, Closing(false));
  }

  lemma EmptyListingFits(w: Writer)
    ensures Size([], false, w) <= BUDGET
  {
    SizeIsFramePlusBulk([], w);
    assert |HEAD| < 20 && |TAIL| < 100;
  }

  function Weight(x: Item, w: Writer): (n: nat)
    ensures n > 0
  {
    Utf8(w(x)) + 1
  }

  function TotalWeight(items: seq<Item>, w: Writer): nat {
    if items == [] then 0 else Weight(items[0], w) + TotalWeight(items[1..], w)
  }

  lemma {:induction false} BulkIsWeight(items: seq<Item>, w: Writer)
    requires items != []
    ensures Bulk(items, w) == TotalWeight(items, w) - 1
  {
    if |items| > 1 {
      BulkIsWeight(items[1..], w);
    }
  }

  lemma {:induction false} WeightConcat(a: seq<Item>, b: seq<Item>, w: Writer)
    ensures TotalWeight(a + b, w) == TotalWeight(a, w) + TotalWeight(b, w)
  {
    if a == [] {
      assert a + b == b;
    } else {
      WeightConcat(a[1..], b, w);
      assert (a + b)[1..] == a[1..] + b;
    }
  }

  /** The size of a listing does not depend on its order. */
  lemma {:induction false} WeightOrderIndependent(a: seq<Item>, b: seq<Item>, w: Writer)
    requires multiset(a) == multiset(b)
    ensures TotalWeight(a, w) == TotalWeight(b, w)
  {
    hide Weight;
    SameItems(a, b);
    if a != [] {
      assert a[0] in b;
      var i :| 0 <= i < |b| && b[i] == a[0];
      RemoveAt(b, i, w);
      DropHead(a);
      var rest := b[..i] + b[i + 1..];
      assert multiset(a[1..]) == multiset(a) - multiset{a[0]} == multiset(rest);
      WeightOrderIndependent(a[1..], rest, w);
    }
  }

  lemma RemoveAt(b: seq<Item>, i: nat, w: Writer)
    requires i < |b|
    ensures multiset(b) == multiset(b[..i] + b[i + 1..]) + multiset{b[i]}
    ensures TotalWeight(b, w) == TotalWeight(b[..i] + b[i + 1..], w) + Weight(b[i], w)
  {
    hide Weight;
    assert b == b[..i] + b[i..];
    assert b[i..] == [b[i]] + b[i + 1..];
    WeightConcat(b[..i], b[i..], w);
    WeightConcat(b[..i], b[i + 1..], w);
  }

  lemma SizeByWeight(items: seq<Item>, w: Writer)
    requires items != []
    ensures Size(items, false, w) == FRAME + TotalWeight(items, w) - 1
  {
    SizeIsFramePlusBulk(items, w);
    BulkIsWeight(items, w);
  }

  // ----- the packer -----------------------------------------------------------

  predicate Fits(items: seq<Item>, w: Writer) {
    Size(items, false, w) <= BUDGET
  }

  /** First fit in the given order, on top of what is already selected. */
  function FirstFit(items: seq<Item>, selected: seq<Item>, w: Writer): seq<Item> {
    if items == [] then selected
    else FirstFit(items[1..], if Fits(selected + [items[0]], w) then selected + [items[0]] else selected, w)
  }

  /** `Memory._pack`. */
  function Pack(entries: seq<Item>, w: Writer): Response {
    if entries == [] then Plain(Empty)
    else
      var selected := FirstFit(SortById(entries), [], w);
      Response(Results, selected, |selected| != |entries|, None, None)
  }

  /** The loop of `_pack`. */
  method PackLoop(entries: seq<Item>, w: Writer) returns (r: Response)
    ensures r == Pack(entries, w)
  {
    if entries == [] {
      return Plain(Empty);
    }
    var selected: seq<Item> := [];
    var sorted := SortById(entries);
    for i := 0 to |sorted|
      invariant FirstFit(sorted[i..], selected, w) == FirstFit(sorted, [], w)
    {
      assert sorted[i..][1..] == sorted[i + 1..];
      if Fits(selected + [sorted[i]], w) {
        selected := selected + [sorted[i]];
      }
    }
    assert sorted[|sorted|..] == [];
    return Response(Results, selected, |selected| != |entries|, None, None);
  }

  // ----- what the packer guarantees ---------------------------------------------

  lemma {:induction false} FirstFitWithinBudget(items: seq<Item>, selected: seq<Item>, w: Writer)
    requires Fits(selected, w)
    ensures Fits(FirstFit(items, selected, w), w)
  {
    if items != [] {
      FirstFitWithinBudget(items[1..], if Fits(selected + [items[0]], w) then selected + [items[0]] else selected, w);
    }
  }

  /** Within the cap whichever way the flag is spelled. */
  lemma PackWithinBudget(entries: seq<Item>, partial: bool, w: Writer)
    ensures Size(Pack(entries, w).entries, partial, w) <= BUDGET
  {
    EmptyListingFits(w);
    FirstFitWithinBudget(SortById(entries), [], w);
    PartialIsShorter(Pack(entries, w).entries, w);
  }

  /** The selection extends what was selected by a sublist of the entries in order. */
  lemma {:induction false} FirstFitSelects(items: seq<Item>, selected: seq<Item>, w: Writer)
    requires Sorted(selected + items)
    ensures Sorted(FirstFit(items, selected, w))
    ensures selected <= FirstFit(items, selected, w)
    ensures multiset(FirstFit(items, selected, w)) <= multiset(selected) + multiset(items)
  {
    hide Fits, Le;
    if items != [] {
      assert items == [items[0]] + items[1..];
      if Fits(selected + [items[0]], w) {
        assert selected + [items[0]] + items[1..] == selected + items;
        FirstFitSelects(items[1..], selected + [items[0]], w);
      } else {
        SortedWithout(selected, items);
        FirstFitSelects(items[1..], selected, w);
      }
    } else {
      assert selected + items == selected;
    }
  }

  lemma SortedWithout(before: seq<Item>, items: seq<Item>)
    requires items != [] && Sorted(before + items)
    ensures Sorted(before + items[1..])
  {
    hide Le;
    var all, rest := before + items, before + items[1..];
    forall i, j | 0 <= i < j < |rest| ensures Le(rest[i].Id(), rest[j].Id()) {
      var i' := if i < |before| then i else i + 1;
      var j' := if j < |before| then j else j + 1;
      assert rest[i] == all[i'] && rest[j] == all[j'];
    }
  }

  lemma PackIsOrderedSelection(entries: seq<Item>, w: Writer)
    ensures Sorted(Pack(entries, w).entries)
    ensures multiset(Pack(entries, w).entries) <= multiset(entries)
  {
    SortByIdSorts(entries);
    assert [] + SortById(entries) == SortById(entries);
    FirstFitSelects(SortById(entries), [], w);
  }

  lemma PackedComeFromEntries(entries: seq<Item>, x: Item, w: Writer)
    requires x in Pack(entries, w).entries
    ensures x in entries
  {
    PackIsOrderedSelection(entries, w);
    assert x in multiset(Pack(entries, w).entries);
    assert x in multiset(entries);
  }

  /** The flag is set exactly when some entry was left out. */
  lemma {:induction false} PartialIffDropped(entries: seq<Item>, w: Writer)
    ensures Pack(entries, w).partial <==> multiset(Pack(entries, w).entries) != multiset(entries)
  {
    PackIsOrderedSelection(entries, w);
    var selected := Pack(entries, w).entries;
    if |selected| == |entries| {
      SubMultisetOfSameSize(multiset(selected), multiset(entries));
    } else {
      assert |multiset(selected)| != |multiset(entries)|;
    }
  }

  /** Results exactly for a non-empty listing, and all of it unless the flag is set. */
  lemma PackAnswers(entries: seq<Item>, w: Writer)
    ensures var r := Pack(entries, w);
            && r.status == (if entries == [] then Empty else Results) && r.reason == None && r.receipt == None
            && (forall x | x in r.entries :: x in entries)
            && (!r.partial ==> forall x | x in entries :: x in r.entries)
  {
    PackIsOrderedSelection(entries, w);
    PartialIffDropped(entries, w);
    var r := Pack(entries, w);
    forall x | x in r.entries ensures x in entries { PackedComeFromEntries(entries, x, w); }
    if !r.partial {
      forall x | x in entries ensures x in r.entries { assert x in multiset(entries); }
    }
  }

  lemma SubMultisetOfSameSize(a: multiset<Item>, b: multiset<Item>)
    requires a <= b && |a| == |b|
    ensures a == b
  {
    assert b == a + (b - a);
    assert |b - a| == 0;
  }

  /** An entry that the loop passed over does not fit on top of the final selection. */
  lemma {:induction false} FirstFitRejectsDropped(items: seq<Item>, selected: seq<Item>, x: Item, w: Writer)
    requires multiset(FirstFit(items, selected, w))[x] < (multiset(selected) + multiset(items))[x]
    ensures FRAME + TotalWeight(FirstFit(items, selected, w), w) + Weight(x, w) - 1 > BUDGET
    decreases |items|
  {
    hide Weight, Fits, TotalWeight;
    if items != [] {
      assert items == [items[0]] + items[1..];
      var grown := selected + [items[0]];
      if Fits(grown, w) {
        FirstFitRejectsDropped(items[1..], grown, x, w);
      } else if multiset(FirstFit(items, selected, w))[x] < (multiset(selected) + multiset(items[1..]))[x] {
        FirstFitRejectsDropped(items[1..], selected, x, w);
      } else {
        assert x == items[0];
        MisfitWeight(selected, x, w);
        FirstFitGrows(items[1..], selected, w);
      }
    }
  }

  lemma MisfitWeight(selected: seq<Item>, x: Item, w: Writer)
    requires !Fits(selected + [x], w)
    ensures FRAME + TotalWeight(selected, w) + Weight(x, w) - 1 > BUDGET
  {
    hide Weight;
    SizeByWeight(selected + [x], w);
    WeightConcat(selected, [x], w);
  }

  lemma {:induction false} FirstFitGrows(items: seq<Item>, selected: seq<Item>, w: Writer)
    ensures TotalWeight(selected, w) <= TotalWeight(FirstFit(items, selected, w), w)
  {
    if items != [] {
      WeightConcat(selected, [items[0]], w);
      FirstFitGrows(items[1..], if Fits(selected + [items[0]], w) then selected + [items[0]] else selected, w);
    }
  }

  /** Maximality: no left-out entry could be added, wherever it were placed, even
      though the shorter flag spelling is not used. */
  lemma {:induction false} PackMaximal(entries: seq<Item>, x: Item, larger: seq<Item>, w: Writer)
    requires multiset(Pack(entries, w).entries)[x] < multiset(entries)[x]
    requires multiset(larger) == multiset(Pack(entries, w).entries) + multiset{x}
    ensures Size(larger, false, w) > BUDGET
  {
    var selected := Pack(entries, w).entries;
    FirstFitRejectsDropped(SortById(entries), [], x, w);
    assert multiset(larger) == multiset(selected + [x]);
    WeightOrderIndependent(larger, selected + [x], w);
    WeightConcat(selected, [x], w);
    assert x in multiset(larger);
    SizeByWeight(larger, w);
  }

  /** The answer depends on the entries, not on the order they were listed in. */
  lemma {:induction false} PackOrderIndependent(a: seq<Item>, b: seq<Item>, w: Writer)
    requires multiset(a) == multiset(b) && Consistent(a)
    ensures Pack(a, w) == Pack(b, w)
  {
    SameItems(a, b);
    SortOrderIndependent(a, b);
  }

  lemma {:induction false} FirstFitSplit(a: seq<Item>, b: seq<Item>, selected: seq<Item>, w: Writer)
    ensures FirstFit(a + b, selected, w) == FirstFit(b, FirstFit(a, selected, w), w)
  {
    if a == [] {
      assert a + b == b;
    } else {
      assert (a + b)[1..] == a[1..] + b && (a + b)[0] == a[0];
      FirstFitSplit(a[1..], b, if Fits(selected + [a[0]], w) then selected + [a[0]] else selected, w);
    }
  }

  lemma {:induction false} FirstFitExtends(items: seq<Item>, selected: seq<Item>, w: Writer)
    ensures selected <= FirstFit(items, selected, w)
  {
    if items != [] {
      FirstFitExtends(items[1..], if Fits(selected + [items[0]], w) then selected + [items[0]] else selected, w);
    }
  }

  lemma SortConcat(a: seq<Item>, b: seq<Item>)
    requires Consistent(a + b)
    requires forall x, y | x in a && y in b :: Le(x.Id(), y.Id())
    ensures SortById(a + b) == SortById(a) + SortById(b)
  {
    SortByIdSorts(a);
    SortByIdSorts(b);
    SortByIdSorts(a + b);
    SameItems(a, SortById(a));
    SameItems(b, SortById(b));
    SameItems(a + b, SortById(a + b));
    var s, t := SortById(a), SortById(b);
    var both: seq<Item> := s + t;
    forall i, j | 0 <= i < j < |both|
      ensures Le(both[i].Id(), both[j].Id())
    {
      if i < |s| <= j { assert s[i] in a && t[j - |s|] in b; }
    }
    forall i, j | 0 <= i < |a + b| && 0 <= j < |a + b| && SortById(a + b)[i].Id() == SortById(a + b)[j].Id()
      ensures SortById(a + b)[i] == SortById(a + b)[j]
    {
      assert SortById(a + b)[i] in a + b && SortById(a + b)[j] in a + b;
    }
    SortedUnique(SortById(a + b), both);
  }

  /** Priority goes by id: entries with larger ids never change which of the
      smaller ones are returned. With maximality this fixes the selection. */
  lemma SmallerIdsHavePriority(a: seq<Item>, b: seq<Item>, w: Writer)
    requires Consistent(a + b)
    requires forall x, y | x in a && y in b :: Le(x.Id(), y.Id())
    ensures Pack(a, w).entries <= Pack(a + b, w).entries
  {
    SortConcat(a, b);
    FirstFitSplit(SortById(a), SortById(b), [], w);
    FirstFitExtends(SortById(b), FirstFit(SortById(a), [], w), w);
  }
}
