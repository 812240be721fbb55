/** Fixtures that look the same from one context stay the same for it over every run, however
    they differ out of its sight. */
module Lookalikes {
  import opened Text
  import opened Records
  import opened Security
  import opened SecurityMemories
  import opened Noninterference
  import T = ContextTrees

  /** The same rules, and the same visible entries and derived objects. Hidden entries, hidden
      objects and the deny lists may differ. */
  predicate LookAlike(f: Fixture, g: Fixture, c: string) {
    var x, y := Initial(f), Initial(g);
    && SameRules(x.cfg, y.cfg)
    && DenyListKnown(x.cfg, x.raw) == DenyListKnown(y.cfg, y.raw) && AllClassified(x.raw) == AllClassified(y.raw)
    && SeenPart(x.cfg, x.raw, c) == SeenPart(y.cfg, y.raw, c)
    && ObjectsPart(x.cfg, x.raw, c) == ObjectsPart(y.cfg, y.raw, c)
  }

  lemma LookalikesHaveOneView(f: Fixture, g: Fixture, c: string)
    requires LookAlike(f, g, c)
    ensures ViewOf(Initial(f), c) == ViewOf(Initial(g), c)
  {
    hide SeenPart, ObjectsPart, DenyListKnown, AllClassified, T.NodeMap, RawMap;
  }

  /** No run tells them apart at `c`, with or without the writes `c` may not see. */
  lemma {:induction false} NoRunTellsApart(f: Fixture, g: Fixture, c: string, events: seq<Event>)
    requires FixtureOk(f) && FixtureOk(g) && LookAlike(f, g, c) && Separable(T.NodeMap(f.nodes).Keys)
    ensures Answers(Initial(f), c, events) == Answers(Initial(g), c, events)
    ensures Answers(Initial(f), c, events) == Answers(Initial(g), c, Purge(Initial(f).cfg, c, events))
  {
    InitialInv(f);
    InitialInv(g);
    LookalikesHaveOneView(f, g, c);
    assert Initial(f).cfg.nodes == T.NodeMap(f.nodes);
    hide Initial, ViewOf, LookAlike, FixtureOk, Answers, Purge, Separable, Inv;
    LookalikesAnswerAlike(Initial(f), Initial(g), c, events);
  }

  lemma RawMapSnoc(entries: seq<Entry>, e: Entry)
    ensures RawMap(entries + [e]) == RawMap(entries)[e.id := e]
  {
    assert (entries + [e])[..|entries|] == entries;
  }

  lemma AddedIsNew(f: Fixture, e: Entry)
    requires FixtureOk(f.(entries := f.entries + [e]))
    ensures e.id !in RawMap(f.entries)
  {
    var all := f.entries + [e];
    forall i | 0 <= i < |f.entries| ensures f.entries[i].id != e.id {
      assert all[i].id != all[|f.entries|].id;
    }
  }

  lemma AddedEntryUnseen(f: Fixture, e: Entry, c: string)
    requires FixtureOk(f) && FixtureOk(f.(entries := f.entries + [e]))
    requires Classified(e) && DenyListKnown(Initial(f).cfg, Initial(f).raw) && !SeesEntry(Initial(f).cfg, c, e)
    ensures LookAlike(f, f.(entries := f.entries + [e]), c)
  {
    hide FixtureOk, Initial, SeenPart, ObjectsPart, DenyListKnown, AllClassified, SeesEntry, Classified, DerivedOk;
    var x := Initial(f);
    AddedIsNew(f, e);
    InitialAdds(f, e);
    InitialDerived(f);
    SeenAfter(x.cfg, x.raw, c, e);
    ClassifiedAfter(x.raw, e);
    StillKnown(x.cfg, x.raw, e);
    SourcesUnaffected(x, c, e);
  }

  lemma InitialAdds(f: Fixture, e: Entry)
    ensures var x, y := Initial(f), Initial(f.(entries := f.entries + [e]));
            y.cfg == x.cfg && y.raw == x.raw[e.id := e] && x.raw == RawMap(f.entries)
  {
    RawMapSnoc(f.entries, e);
  }

  lemma StillKnown(cfg: Config, raw: map<string, Entry>, e: Entry)
    requires DenyListKnown(cfg, raw)
    ensures DenyListKnown(cfg, raw[e.id := e])
  {
  }

  lemma SourcesUnaffected(m: Mem, c: string, e: Entry)
    requires DerivedOk(m) && e.id !in m.raw
    ensures ObjectsPart(m.cfg, m.raw[e.id := e], c) == ObjectsPart(m.cfg, m.raw, c)
  {
    var after := m.raw[e.id := e];
    forall id | id in m.cfg.derived
      ensures AllSeen(m.cfg, after, c, m.cfg.derived[id].sourceIds) <==>
              AllSeen(m.cfg, m.raw, c, m.cfg.derived[id].sourceIds)
    {
      forall s | s in m.cfg.derived[id].sourceIds ensures Seen(m.cfg, after, c, s) <==> Seen(m.cfg, m.raw, c, s) {
        assert s in m.raw;
      }
    }
  }

  /** Hidden or missing: a setup entry that `c` may not see - of a context outside its lineage,
      or of a domain it is not granted - might as well not exist. No run tells. */
  lemma {:induction false} HiddenMightBeMissing(f: Fixture, e: Entry, c: string, events: seq<Event>)
    requires FixtureOk(f) && FixtureOk(f.(entries := f.entries + [e])) && Separable(T.NodeMap(f.nodes).Keys)
    requires Classified(e) && DenyListKnown(Initial(f).cfg, Initial(f).raw) && !SeesEntry(Initial(f).cfg, c, e)
    ensures Answers(Initial(f), c, events) == Answers(Initial(f.(entries := f.entries + [e])), c, events)
  {
    hide FixtureOk, Initial, Answers, LookAlike, SeesEntry, DenyListKnown, Classified;
    AddedEntryUnseen(f, e, c);
    NoRunTellsApart(f, f.(entries := f.entries + [e]), c, events);
  }
}
