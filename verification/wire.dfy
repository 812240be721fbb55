/** The compact JSON text determines what it was written for: no two records, and no two
    packed answers, are written alike. */
module Wires {
  import opened Text
  import opened Records

  // ----- quoted strings -----------------------------------------------------------

  lemma HexInjective(a: nat, b: nat)
    requires a < 16 && b < 16 && Hex(a) == Hex(b)
    ensures a == b
  {
  }

  /** Where an escape ends is seen from its own text. */
  lemma EscapeCharPrefixFree(c: char, d: char, x: string, y: string)
    requires EscapeChar(c) + x == EscapeChar(d) + y
    ensures c == d && x == y
  {
    var s, e, f := EscapeChar(c) + x, EscapeChar(c), EscapeChar(d);
    assert s[0] == e[0] == f[0];
    if |e| >= 2 && |f| >= 2 {
      assert s[1] == e[1] == f[1];
      if |e| > 2 && |f| > 2 {
        assert s[4] == e[4] == f[4] && s[5] == e[5] == f[5];
        HexInjective(c as int / 16, d as int / 16);
        HexInjective(c as int % 16, d as int % 16);
      }
    }
    assert c == d;
    assert s[|e|..] == x && s[|f|..] == y;
  }

  lemma NoBareQuote(c: char)
    ensures EscapeChar(c) != "" && EscapeChar(c)[0] != '\"'
  {
  }

  lemma {:induction false} EscapePrefixFree(a: string, b: string, x: string, y: string)
    requires Escape(a) + "\"" + x == Escape(b) + "\"" + y
    ensures a == b && x == y
  {
    hide EscapeChar;
    var s := Escape(a) + "\"" + x;
    if a != [] { NoBareQuote(a[0]); assert s[0] == EscapeChar(a[0])[0]; }
    if b != [] { NoBareQuote(b[0]); assert s[0] == EscapeChar(b[0])[0]; }
    if a != [] && b != [] {
      var p, q := Escape(a[1..]) + "\"" + x, Escape(b[1..]) + "\"" + y;
      assert s == EscapeChar(a[0]) + p == EscapeChar(b[0]) + q;
      EscapeCharPrefixFree(a[0], b[0], p, q);
      EscapePrefixFree(a[1..], b[1..], x, y);
      assert a == [a[0]] + a[1..] && b == [b[0]] + b[1..];
    } else {
      assert s[1..] == x && s[1..] == y;
    }
  }

  lemma QuotePrefixFree(a: string, b: string, x: string, y: string)
    requires Quote(a) + x == Quote(b) + y
    ensures a == b && x == y
  {
    var p, q := Escape(a) + "\"" + x, Escape(b) + "\"" + y;
    assert (Quote(a) + x)[1..] == p && (Quote(b) + y)[1..] == q;
    EscapePrefixFree(a, b, x, y);
  }

  /** The same text before two strings can be taken away. */
  lemma CutPrefix(p: string, x: string, y: string)
    requires p + x == p + y
    ensures x == y
  {
    assert (p + x)[|p|..] == x && (p + y)[|p|..] == y;
  }

  // ----- lists of string fields -----------------------------------------------------

  type Pairs = seq<(string, string)>

  function Texts(fs: Pairs): seq<string> {
    seq(|fs|, i requires 0 <= i < |fs| => Field(fs[i].0, Quote(fs[i].1)))
  }

  ghost predicate SameKeys(fs: Pairs, gs: Pairs) {
    |fs| == |gs| && forall i | 0 <= i < |fs| :: fs[i].0 == gs[i].0
  }

  lemma FieldPrefixFree(key: string, a: string, b: string, x: string, y: string)
    requires Field(key, Quote(a)) + x == Field(key, Quote(b)) + y
    ensures a == b && x == y
  {
    hide Quote;
    var head := Quote(key) + ":";
    assert Field(key, Quote(a)) + x == head + (Quote(a) + x) && Field(key, Quote(b)) + y == head + (Quote(b) + y);
    CutPrefix(head, Quote(a) + x, Quote(b) + y);
    QuotePrefixFree(a, b, x, y);
  }

  lemma JoinFirst(parts: seq<string>, x: string)
    requires |parts| > 1
    ensures Join(parts, ",") + x == parts[0] + ("," + (Join(parts[1..], ",") + x))
  {
  }

  lemma {:induction false} FieldsPrefixFree(fs: Pairs, gs: Pairs, x: string, y: string)
    requires fs != [] && SameKeys(fs, gs) && Join(Texts(fs), ",") + x == Join(Texts(gs), ",") + y
    ensures fs == gs && x == y
  {
    hide Field, Quote;
    var s, t := Texts(fs), Texts(gs);
    if |fs| > 1 {
      JoinFirst(s, x);
      JoinFirst(t, y);
      assert s[1..] == Texts(fs[1..]) && t[1..] == Texts(gs[1..]);
      var p, q := Join(s[1..], ",") + x, Join(t[1..], ",") + y;
      FieldPrefixFree(fs[0].0, fs[0].1, gs[0].1, "," + p, "," + q);
      CutPrefix(",", p, q);
      FieldsPrefixFree(fs[1..], gs[1..], x, y);
      assert fs == [fs[0]] + fs[1..] && gs == [gs[0]] + gs[1..];
    } else {
      assert Join(s, ",") == s[0] && Join(t, ",") == t[0];
      FieldPrefixFree(fs[0].0, fs[0].1, gs[0].1, x, y);
      assert fs == [fs[0]] && gs == [gs[0]];
    }
  }

  // ----- numbers and lists ------------------------------------------------------------

  predicate DigitChar(c: char) {
    '0' <= c <= '9'
  }

  lemma DigitsEnd(a: string, x: string)
    requires (forall c | c in a :: DigitChar(c)) && x != "" && !DigitChar(x[0])
    ensures (forall i | 0 <= i < |a| :: DigitChar((a + x)[i])) && !DigitChar((a + x)[|a|])
  {
  }

  lemma DecimalPrefixFree(m: nat, n: nat, x: string, y: string)
    requires Decimal(m) + x == Decimal(n) + y && x != "" && y != "" && !DigitChar(x[0]) && !DigitChar(y[0])
    ensures m == n && x == y
  {
    var a, b := Decimal(m), Decimal(n);
    DigitsEnd(a, x);
    DigitsEnd(b, y);
    assert (a + x)[..|a|] == a && (b + y)[..|b|] == b;
    assert (a + x)[|a|..] == x && (b + y)[|b|..] == y;
    DecimalInjective(m, n);
  }

  lemma {:induction false} QuotesPrefixFree(xs: seq<string>, ys: seq<string>, x: string, y: string)
    requires xs != [] && ys != [] && Join(QuoteAll(xs), ",") + ("]" + x) == Join(QuoteAll(ys), ",") + ("]" + y)
    ensures xs == ys && x == y
  {
    hide Quote;
    var s, t := QuoteAll(xs), QuoteAll(ys);
    assert |xs| > 1 ==> s[1..] == QuoteAll(xs[1..]);
    assert |ys| > 1 ==> t[1..] == QuoteAll(ys[1..]);
    var p := if |xs| > 1 then "," + (Join(s[1..], ",") + ("]" + x)) else "]" + x;
    var q := if |ys| > 1 then "," + (Join(t[1..], ",") + ("]" + y)) else "]" + y;
    assert Join(s, ",") + ("]" + x) == Quote(xs[0]) + p by { if |xs| > 1 { JoinFirst(s, "]" + x); } }
    assert Join(t, ",") + ("]" + y) == Quote(ys[0]) + q by { if |ys| > 1 { JoinFirst(t, "]" + y); } }
    QuotePrefixFree(xs[0], ys[0], p, q);
    assert p[0] == q[0];
    if |xs| > 1 {
      CutPrefix(",", Join(s[1..], ",") + ("]" + x), Join(t[1..], ",") + ("]" + y));
      QuotesPrefixFree(xs[1..], ys[1..], x, y);
      assert xs == [xs[0]] + xs[1..] && ys == [ys[0]] + ys[1..];
    } else {
      CutPrefix("]", x, y);
      assert xs == [xs[0]] && ys == [ys[0]];
    }
  }

  lemma {:induction false} ListPrefixFree(xs: seq<string>, ys: seq<string>, x: string, y: string)
    requires Join(QuoteAll(xs), ",") + ("]" + x) == Join(QuoteAll(ys), ",") + ("]" + y)
    ensures xs == ys && x == y
  {
    if xs == [] || ys == [] {
      FirstOfList(xs, x);
      FirstOfList(ys, y);
      assert xs == [] && ys == [] && QuoteAll([]) == [] && Join([], ",") == "";
      assert "" + ("]" + x) == "]" + x && "" + ("]" + y) == "]" + y;
      CutPrefix("]", x, y);
    } else {
      QuotesPrefixFree(xs, ys, x, y);
    }
  }

  lemma FirstOfList(xs: seq<string>, x: string)
    ensures (Join(QuoteAll(xs), ",") + ("]" + x))[0] == (if xs == [] then ']' else '"')
  {
    var s := QuoteAll(xs);
    if xs != [] {
      assert s[0] == Quote(xs[0]) && Quote(xs[0])[0] == '"';
      if |xs| > 1 { JoinFirst(s, "]" + x); }
    }
  }

  // ----- records ------------------------------------------------------------------------

  lemma JoinTwo(a: seq<string>, b: seq<string>)
    requires a != [] && b != []
    ensures Join(a + b, ",") == Join(a, ",") + "," + Join(b, ",")
  {
    if |a| > 1 {
      JoinTwo(a[1..], b);
      assert (a + b)[1..] == a[1..] + b && (a + b)[0] == a[0];
    } else {
      assert (a + b)[1..] == b && (a + b)[0] == a[0];
    }
  }

  function RawPairs(e: Entry): Pairs {
    [("classification", e.classification), ("content", e.content), ("context_id", e.contextId),
     ("created_by", e.createdBy), ("domain", e.domain), ("epistemic_status", e.epistemic.Text()), ("id", e.id),
     ("kind", "RAW"), ("provenance", e.provenance.Text())]
  }

  function MemoryPairs(m: MemoryEntry): Pairs {
    [("content", m.content), ("context_id", m.contextId), ("created_by", m.createdBy),
     ("epistemic_status", m.epistemic.Text()), ("id", m.id), ("provenance", m.provenance.Text())]
  }

  function DerivedPairs(d: Derived): Pairs {
    (if d.kind.GraphEdge? then [("end", d.kind.end)] else [])
    + [("id", d.id), ("kind", NameOf(d.kind).Text()), ("payload", d.payload)]
  }

  function MarkPairs(m: AdmissionMark): Pairs {
    match m
    case Promoted(g, v) => [("gate_version", g), ("kind", "PROMOTED_REPRESENTATION"), ("policy_version", v)]
    case Reflected => [("kind", "REFLECTION_CANDIDATE"), ("version", "outcome-v1")]
  }

  lemma MarkText(m: AdmissionMark)
    ensures MarkJson(m) == "{" + Join(Texts(MarkPairs(m)), ",") + "}"
  {
    hide Quote, Field, Join;
    var fs := MarkPairs(m);
    match m
    case Promoted(g, v) =>
      assert Texts(fs) == [Field("gate_version", Quote(g)), Field("kind", Quote("PROMOTED_REPRESENTATION")),
                           Field("policy_version", Quote(v))];
    case Reflected =>
      assert Texts(fs) == [Field("kind", Quote("REFLECTION_CANDIDATE")), Field("version", Quote("outcome-v1"))];
  }

  /** The text of a raw entry: the mark first, if there is one. */
  lemma RawText(e: Entry)
    ensures Wire(RawItem(e)) ==
            "{" + (if e.admission.Some? then Field("admission", MarkJson(e.admission.value)) + "," else "")
            + Join(Texts(RawPairs(e)), ",") + "}"
  {
    hide Quote, Field, Join, MarkJson;
    var fs := [Field("classification", Quote(e.classification)), Field("content", Quote(e.content)),
               Field("context_id", Quote(e.contextId)), Field("created_by", Quote(e.createdBy)),
               Field("domain", Quote(e.domain)), Field("epistemic_status", Quote(e.epistemic.Text())),
               Field("id", Quote(e.id)), Field("kind", Quote("RAW")), Field("provenance", Quote(e.provenance.Text()))];
    assert Texts(RawPairs(e)) == fs;
    if e.admission.Some? {
      JoinTwo([Field("admission", MarkJson(e.admission.value))], fs);
      JoinOne(Field("admission", MarkJson(e.admission.value)));
    } else {
      assert [] + fs == fs;
    }
  }

  lemma JoinOne(s: string)
    ensures Join([s], ",") == s
  {
  }

  lemma MemoryText(m: MemoryEntry)
    ensures Wire(MemoryItem(m)) == "{" + Join(Texts(MemoryPairs(m)), ",") + "}"
  {
    hide Quote, Field, Join;
    assert Texts(MemoryPairs(m)) ==
           [Field("content", Quote(m.content)), Field("context_id", Quote(m.contextId)),
            Field("created_by", Quote(m.createdBy)), Field("epistemic_status", Quote(m.epistemic.Text())),
            Field("id", Quote(m.id)), Field("provenance", Quote(m.provenance.Text()))];
  }

  lemma DerivedText(d: Derived)
    ensures Wire(DerivedItem(d)) ==
            "{" + Join(Texts(DerivedPairs(d)), ",") + "," + (Quote("source_ids") + ":[")
            + (Join(QuoteAll(d.sourceIds), ",")
               + ("]" + ((if d.kind.GraphEdge? then "," + Field("start", Quote(d.kind.start)) else "") + "}")))
  {
    hide Quote, Join;
    DerivedFields(d);
    var first, sources := Texts(DerivedPairs(d)), SourcesField(d);
    JoinOne(sources);
    if d.kind.GraphEdge? {
      var start := Field("start", Quote(d.kind.start));
      assert first + [sources] + [start] == first + ([sources] + [start]);
      JoinTwo(first, [sources] + [start]);
      JoinTwo([sources], [start]);
      JoinOne(start);
    } else {
      assert first + [sources] + [] == first + [sources];
      JoinTwo(first, [sources]);
    }
  }

  function SourcesField(d: Derived): string {
    Field("source_ids", "[" + Join(QuoteAll(d.sourceIds), ",") + "]")
  }

  lemma DerivedFields(d: Derived)
    ensures Wire(DerivedItem(d)) ==
            Object(Texts(DerivedPairs(d)) + [SourcesField(d)]
                   + if d.kind.GraphEdge? then [Field("start", Quote(d.kind.start))] else [])
  {
    hide Quote, Join, Field;
    var plain := [Field("id", Quote(d.id)), Field("kind", Quote(NameOf(d.kind).Text())),
                  Field("payload", Quote(d.payload))];
    var before := if d.kind.GraphEdge? then [Field("end", Quote(d.kind.end))] else [];
    assert Texts(DerivedPairs(d)) == before + plain;
    assert [plain[0], plain[1], plain[2], SourcesField(d)] == plain + [SourcesField(d)];
    assert before + (plain + [SourcesField(d)]) == before + plain + [SourcesField(d)];
  }

  // ----- what the text determines -----------------------------------------------------

  lemma TextsStart(fs: Pairs, x: string) returns (rest: string)
    requires fs != []
    ensures Join(Texts(fs), ",") + x == Quote(fs[0].0) + rest
  {
    hide Quote;
    var s := Texts(fs);
    if |fs| > 1 {
      JoinFirst(s, x);
      rest := ":" + Quote(fs[0].1) + ("," + (Join(s[1..], ",") + x));
    } else {
      JoinOne(s[0]);
      assert s == [s[0]];
      rest := ":" + Quote(fs[0].1) + x;
    }
    assert s[0] == Quote(fs[0].0) + ":" + Quote(fs[0].1);
  }

  /** Lists with different first keys are written differently. */
  lemma FirstKeys(fs: Pairs, gs: Pairs, x: string, y: string)
    requires fs != [] && gs != [] && Join(Texts(fs), ",") + x == Join(Texts(gs), ",") + y
    ensures fs[0].0 == gs[0].0
  {
    hide Quote, Texts, Join;
    var p := TextsStart(fs, x);
    var q := TextsStart(gs, y);
    QuotePrefixFree(fs[0].0, gs[0].0, p, q);
  }

  lemma MarkPrefixFree(m: AdmissionMark, n: AdmissionMark, x: string, y: string)
    requires MarkJson(m) + x == MarkJson(n) + y
    ensures m == n && x == y
  {
    MarkText(m);
    MarkText(n);
    hide MarkJson, Texts, Join;
    var fs, gs := MarkPairs(m), MarkPairs(n);
    assert MarkJson(m) + x == "{" + (Join(Texts(fs), ",") + ("}" + x));
    assert MarkJson(n) + y == "{" + (Join(Texts(gs), ",") + ("}" + y));
    CutPrefix("{", Join(Texts(fs), ",") + ("}" + x), Join(Texts(gs), ",") + ("}" + y));
    FirstKeys(fs, gs, "}" + x, "}" + y);
    FieldsPrefixFree(fs, gs, "}" + x, "}" + y);
    assert fs[0] == gs[0] && fs[1] == gs[1] && (m.Promoted? ==> fs[2] == gs[2]);
    CutPrefix("}", x, y);
  }

  lemma TextsDetermine(e: Entry, f: Entry)
    requires RawPairs(e) == RawPairs(f) && e.admission == f.admission
    ensures e == f
  {
    var s, t := RawPairs(e), RawPairs(f);
    assert s[0] == t[0] && s[1] == t[1] && s[2] == t[2] && s[3] == t[3] && s[4] == t[4] && s[5] == t[5] && s[6] == t[6]
           && s[8] == t[8];
  }

  lemma RawPrefixFree(e: Entry, f: Entry, x: string, y: string)
    requires e.admission.Some? == f.admission.Some? && Wire(RawItem(e)) + x == Wire(RawItem(f)) + y
    ensures e == f && x == y
  {
    RawText(e);
    RawText(f);
    hide Wire, MarkJson, Quote, Texts, RawPairs, Join;
    var p, q := Join(Texts(RawPairs(e)), ",") + ("}" + x), Join(Texts(RawPairs(f)), ",") + ("}" + y);
    if e.admission.Some? {
      var m, n := MarkJson(e.admission.value), MarkJson(f.admission.value);
      var head := "{" + (Quote("admission") + ":");
      assert Wire(RawItem(e)) + x == head + (m + ("," + p));
      assert Wire(RawItem(f)) + y == head + (n + ("," + q));
      CutPrefix(head, m + ("," + p), n + ("," + q));
      MarkPrefixFree(e.admission.value, f.admission.value, "," + p, "," + q);
      CutPrefix(",", p, q);
    } else {
      assert Wire(RawItem(e)) + x == "{" + p && Wire(RawItem(f)) + y == "{" + q;
      CutPrefix("{", p, q);
    }
    SameRawKeys(e, f);
    FieldsPrefixFree(RawPairs(e), RawPairs(f), "}" + x, "}" + y);
    CutPrefix("}", x, y);
    TextsDetermine(e, f);
  }

  lemma SameRawKeys(e: Entry, f: Entry)
    ensures SameKeys(RawPairs(e), RawPairs(f)) && RawPairs(e) != []
  {
  }

  lemma MemoryPrefixFree(m: MemoryEntry, n: MemoryEntry, x: string, y: string)
    requires Wire(MemoryItem(m)) + x == Wire(MemoryItem(n)) + y
    ensures m == n && x == y
  {
    MemoryText(m);
    MemoryText(n);
    hide Wire, Texts, Join;
    var fs, gs := MemoryPairs(m), MemoryPairs(n);
    assert Wire(MemoryItem(m)) + x == "{" + (Join(Texts(fs), ",") + ("}" + x));
    assert Wire(MemoryItem(n)) + y == "{" + (Join(Texts(gs), ",") + ("}" + y));
    CutPrefix("{", Join(Texts(fs), ",") + ("}" + x), Join(Texts(gs), ",") + ("}" + y));
    FieldsPrefixFree(fs, gs, "}" + x, "}" + y);
    CutPrefix("}", x, y);
    assert fs[0] == gs[0] && fs[1] == gs[1] && fs[2] == gs[2] && fs[3] == gs[3] && fs[4] == gs[4] && fs[5] == gs[5];
  }

  function Trailer(d: Derived): string {
    (if d.kind.GraphEdge? then "," + Field("start", Quote(d.kind.start)) else "") + "}"
  }

  const SOURCES_HEAD := Quote("source_ids") + ":["

  /** The rest of a derived record behind its first string fields. */
  function DerivedRest(d: Derived, x: string): string {
    Join(QuoteAll(d.sourceIds), ",") + ("]" + (Trailer(d) + x))
  }

  lemma DerivedTail(d: Derived, x: string)
    ensures Wire(DerivedItem(d)) + x ==
            "{" + (Join(Texts(DerivedPairs(d)), ",") + ("," + (SOURCES_HEAD + DerivedRest(d, x))))
  {
    DerivedText(d);
    hide Wire, Texts, Join, Quote, Field, DerivedPairs, QuoteAll;
    var a, b, c := Join(Texts(DerivedPairs(d)), ","), SOURCES_HEAD, Join(QuoteAll(d.sourceIds), ",");
    assert Wire(DerivedItem(d)) == "{" + a + "," + b + (c + ("]" + Trailer(d)));
    assert "{" + a + "," + b + (c + ("]" + Trailer(d))) + x == "{" + (a + ("," + (b + (c + ("]" + (Trailer(d) + x))))));
  }

  lemma DerivedPrefixFree(d: Derived, e: Derived, x: string, y: string)
    requires d.kind.GraphEdge? == e.kind.GraphEdge? && Wire(DerivedItem(d)) + x == Wire(DerivedItem(e)) + y
    ensures d == e && x == y
  {
    DerivedTail(d, x);
    DerivedTail(e, y);
    var fs, gs := DerivedPairs(d), DerivedPairs(e);
    SameDerivedKeys(d, e);
    hide *;
    var p, q := SOURCES_HEAD + DerivedRest(d, x), SOURCES_HEAD + DerivedRest(e, y);
    CutPrefix("{", Join(Texts(fs), ",") + ("," + p), Join(Texts(gs), ",") + ("," + q));
    FieldsPrefixFree(fs, gs, "," + p, "," + q);
    CutPrefix(",", p, q);
    CutPrefix(SOURCES_HEAD, DerivedRest(d, x), DerivedRest(e, y));
    RestPrefixFree(d, e, x, y);
    DerivedDetermined(d, e);
  }

  lemma RestPrefixFree(d: Derived, e: Derived, x: string, y: string)
    requires d.kind.GraphEdge? == e.kind.GraphEdge? && DerivedRest(d, x) == DerivedRest(e, y)
    ensures d.sourceIds == e.sourceIds && x == y && (d.kind.GraphEdge? ==> d.kind.start == e.kind.start)
  {
    hide Join, QuoteAll, Trailer;
    ListPrefixFree(d.sourceIds, e.sourceIds, Trailer(d) + x, Trailer(e) + y);
    TrailerPrefixFree(d, e, x, y);
  }

  lemma SameDerivedKeys(d: Derived, e: Derived)
    requires d.kind.GraphEdge? == e.kind.GraphEdge?
    ensures SameKeys(DerivedPairs(d), DerivedPairs(e)) && DerivedPairs(d) != []
  {
  }

  lemma TrailerPrefixFree(d: Derived, e: Derived, x: string, y: string)
    requires d.kind.GraphEdge? == e.kind.GraphEdge? && Trailer(d) + x == Trailer(e) + y
    ensures x == y && (d.kind.GraphEdge? ==> d.kind.start == e.kind.start)
  {
    hide Field, Quote;
    if d.kind.GraphEdge? {
      var f, g := Field("start", Quote(d.kind.start)), Field("start", Quote(e.kind.start));
      assert Trailer(d) + x == "," + (f + ("}" + x)) && Trailer(e) + y == "," + (g + ("}" + y));
      CutPrefix(",", f + ("}" + x), g + ("}" + y));
      FieldPrefixFree("start", d.kind.start, e.kind.start, "}" + x, "}" + y);
    } else {
      assert Trailer(d) == "}" && Trailer(e) == "}";
    }
    CutPrefix("}", x, y);
  }

  lemma DerivedDetermined(d: Derived, e: Derived)
    requires d.kind.GraphEdge? == e.kind.GraphEdge? && DerivedPairs(d) == DerivedPairs(e) && d.sourceIds == e.sourceIds
    requires d.kind.GraphEdge? ==> d.kind.start == e.kind.start
    ensures d == e
  {
    var s, t := DerivedPairs(d), DerivedPairs(e);
    assert s[0] == t[0] && s[1] == t[1] && s[2] == t[2] && (d.kind.GraphEdge? ==> s[3] == t[3]);
  }

  lemma CountsText(r: nat, d: nat)
    ensures Wire(Diagnostics(r, d)) ==
            "{" + (Quote("derived_count") + ":")
            + (Decimal(d) + ("," + Field("id", Quote("diagnostics")) + "," + (Quote("raw_count") + ":")
                             + (Decimal(r) + "}")))
  {
    hide Quote, Decimal, Join, Field;
    var a, b := Field("derived_count", Decimal(d)), Field("id", Quote("diagnostics"));
    var c := Field("raw_count", Decimal(r));
    JoinThree(a, b, c);
    NumberField("derived_count", Decimal(d));
    NumberField("raw_count", Decimal(r));
    Regroup(Quote("derived_count") + ":", Decimal(d), b, Quote("raw_count") + ":", Decimal(r));
  }

  lemma Regroup(p: string, m: string, b: string, q: string, n: string)
    ensures "{" + (p + m + "," + b + "," + (q + n)) + "}" == "{" + p + (m + ("," + b + "," + q + (n + "}")))
  {
  }

  lemma JoinThree(a: string, b: string, c: string)
    ensures Join([a, b, c], ",") == a + "," + b + "," + c
  {
    assert [a, b, c] == [a] + ([b] + [c]);
    JoinTwo([a], [b] + [c]);
    JoinTwo([b], [c]);
    JoinOne(a);
    JoinOne(b);
    JoinOne(c);
  }

  lemma NumberField(key: string, value: string)
    ensures Field(key, value) == Quote(key) + ":" + value
  {
  }

  lemma CountsPrefixFree(r: nat, d: nat, s: nat, e: nat, x: string, y: string)
    requires Wire(Diagnostics(r, d)) + x == Wire(Diagnostics(s, e)) + y
    ensures r == s && d == e && x == y
  {
    CountsText(r, d);
    CountsText(s, e);
    hide Wire, Quote, Decimal, Field;
    var head := "{" + (Quote("derived_count") + ":");
    var middle := "," + Field("id", Quote("diagnostics")) + "," + (Quote("raw_count") + ":");
    var p, q := Decimal(r) + ("}" + x), Decimal(s) + ("}" + y);
    assert Wire(Diagnostics(r, d)) + x == head + (Decimal(d) + (middle + p));
    assert Wire(Diagnostics(s, e)) + y == head + (Decimal(e) + (middle + q));
    CutPrefix(head, Decimal(d) + (middle + p), Decimal(e) + (middle + q));
    DecimalPrefixFree(d, e, middle + p, middle + q);
    CutPrefix(middle, p, q);
    DecimalPrefixFree(r, s, "}" + x, "}" + y);
    CutPrefix("}", x, y);
  }

  /** The key a record is written with first; it tells the kinds of records apart. */
  function FirstKey(x: Item): string {
    match x
    case RawItem(e) => if e.admission.Some? then "admission" else "classification"
    case DerivedItem(d) => if d.kind.GraphEdge? then "end" else "id"
    case MemoryItem(_) => "content"
    case Diagnostics(_, _) => "derived_count"
  }

  lemma RawStarts(e: Entry, x: string) returns (rest: string)
    ensures Wire(RawItem(e)) + x == "{" + (Quote(FirstKey(RawItem(e))) + rest)
  {
    RawText(e);
    hide Wire, Quote, Join, RawPairs, Texts, MarkJson;
    var pairs := Join(Texts(RawPairs(e)), ",");
    if e.admission.Some? {
      var mark := MarkJson(e.admission.value);
      NumberField("admission", mark);
      rest := ":" + mark + "," + pairs + "}" + x;
    } else {
      SameRawKeys(e, e);
      rest := TextsStart(RawPairs(e), "}" + x);
      assert Wire(RawItem(e)) + x == "{" + (pairs + ("}" + x));
      FirstRawKey(e);
    }
  }

  lemma FirstRawKey(e: Entry)
    ensures RawPairs(e) != [] && RawPairs(e)[0].0 == "classification"
  {
  }

  lemma MemoryStarts(m: MemoryEntry, x: string) returns (rest: string)
    ensures Wire(MemoryItem(m)) + x == "{" + (Quote("content") + rest)
  {
    MemoryText(m);
    hide Wire, Quote, Join, Texts;
    rest := TextsStart(MemoryPairs(m), "}" + x);
    assert Wire(MemoryItem(m)) + x == "{" + (Join(Texts(MemoryPairs(m)), ",") + ("}" + x));
  }

  lemma DerivedStarts(d: Derived, x: string) returns (rest: string)
    ensures Wire(DerivedItem(d)) + x == "{" + (Quote(FirstKey(DerivedItem(d))) + rest)
  {
    DerivedTail(d, x);
    hide Wire, Quote, Join, Texts, DerivedRest, Field;
    rest := TextsStart(DerivedPairs(d), "," + (SOURCES_HEAD + DerivedRest(d, x)));
  }

  lemma CountsStart(r: nat, d: nat, x: string) returns (rest: string)
    ensures Wire(Diagnostics(r, d)) + x == "{" + (Quote("derived_count") + rest)
  {
    CountsText(r, d);
    hide *;
    var tail := Decimal(d) + ("," + Field("id", Quote("diagnostics")) + "," + (Quote("raw_count") + ":")
                              + (Decimal(r) + "}"));
    rest := ":" + tail + x;
    assert "{" + (Quote("derived_count") + ":") + tail + x == "{" + (Quote("derived_count") + rest);
  }

  lemma StartsWithKey(a: Item, x: string) returns (rest: string)
    ensures Wire(a) + x == "{" + (Quote(FirstKey(a)) + rest)
  {
    hide Wire, Quote;
    match a
    case RawItem(e) => rest := RawStarts(e, x);
    case MemoryItem(m) => rest := MemoryStarts(m, x);
    case DerivedItem(d) => rest := DerivedStarts(d, x);
    case Diagnostics(r, d) => rest := CountsStart(r, d, x);
  }

  /** Where a written record ends is seen from its text, and the text determines it. */
  lemma {:induction false} RecordPrefixFree(a: Item, b: Item, x: string, y: string)
    requires Wire(a) + x == Wire(b) + y
    ensures a == b && x == y
  {
    hide Wire, Quote;
    var p := StartsWithKey(a, x);
    var q := StartsWithKey(b, y);
    CutPrefix("{", Quote(FirstKey(a)) + p, Quote(FirstKey(b)) + q);
    QuotePrefixFree(FirstKey(a), FirstKey(b), p, q);
    match a
    case RawItem(e) => RawPrefixFree(e, b.entry, x, y);
    case MemoryItem(m) => MemoryPrefixFree(m, b.memory, x, y);
    case DerivedItem(d) => DerivedPrefixFree(d, b.derived, x, y);
    case Diagnostics(r, d) => CountsPrefixFree(r, d, b.rawCount, b.derivedCount, x, y);
  }

  /** Different records are written differently. */
  lemma WireInjective(a: Item, b: Item)
    requires Wire(a) == Wire(b)
    ensures a == b
  {
    hide Wire;
    assert Wire(a) + "" == Wire(b) + "";
    RecordPrefixFree(a, b, "", "");
  }

  lemma {:induction false} RecordsPrefixFree(a: seq<Item>, b: seq<Item>, x: string, y: string)
    requires a != [] && b != []
    requires Join(WireAll(a, Wire), ",") + ("]" + x) == Join(WireAll(b, Wire), ",") + ("]" + y)
    ensures a == b && x == y
  {
    hide Wire;
    var s, t := WireAll(a, Wire), WireAll(b, Wire);
    assert s[1..] == WireAll(a[1..], Wire) && t[1..] == WireAll(b[1..], Wire);
    var p := if |a| > 1 then "," + (Join(s[1..], ",") + ("]" + x)) else "]" + x;
    var q := if |b| > 1 then "," + (Join(t[1..], ",") + ("]" + y)) else "]" + y;
    assert Join(s, ",") + ("]" + x) == Wire(a[0]) + p by { if |a| > 1 { JoinFirst(s, "]" + x); } }
    assert Join(t, ",") + ("]" + y) == Wire(b[0]) + q by { if |b| > 1 { JoinFirst(t, "]" + y); } }
    RecordPrefixFree(a[0], b[0], p, q);
    assert p[0] == q[0];
    if |a| > 1 {
      CutPrefix(",", Join(s[1..], ",") + ("]" + x), Join(t[1..], ",") + ("]" + y));
      RecordsPrefixFree(a[1..], b[1..], x, y);
      assert a == [a[0]] + a[1..] && b == [b[0]] + b[1..];
    } else {
      CutPrefix("]", x, y);
      assert a == [a[0]] && b == [b[0]];
    }
  }

  lemma FirstOfRecords(a: seq<Item>, x: string)
    ensures (Join(WireAll(a, Wire), ",") + ("]" + x))[0] == (if a == [] then ']' else '{')
  {
    hide Wire, Quote;
    if a != [] {
      var s := WireAll(a, Wire);
      if |a| > 1 { JoinFirst(s, "]" + x); } else { JoinOne(s[0]); assert s == [s[0]]; }
      var rest := StartsWithKey(a[0], "");
      assert s[0] == Wire(a[0]) + "";
    }
  }

  lemma ListingPrefixFree(a: seq<Item>, b: seq<Item>, x: string, y: string)
    requires Join(WireAll(a, Wire), ",") + ("]" + x) == Join(WireAll(b, Wire), ",") + ("]" + y)
    ensures a == b && x == y
  {
    hide Wire;
    if a == [] || b == [] {
      FirstOfRecords(a, x);
      FirstOfRecords(b, y);
      assert a == [] && b == [] && WireAll([], Wire) == [] && Join([], ",") == "";
      assert "" + ("]" + x) == "]" + x && "" + ("]" + y) == "]" + y;
      CutPrefix("]", x, y);
    } else {
      RecordsPrefixFree(a, b, x, y);
    }
  }

  /** What follows the closing bracket of the entries. */
  function FlagText(partial: bool): string {
    ",\"partial\":" + (if partial then "true" else "false") + TAIL
  }

  lemma AnswerText(a: seq<Item>, partial: bool)
    ensures WireResults(a, partial, Wire) == HEAD + (Join(WireAll(a, Wire), ",") + ("]" + FlagText(partial)))
  {
    hide Wire, Join, WireAll;
    assert Closing(partial) == "]" + FlagText(partial);
    hide *;
    var s := Join(WireAll(a, Wire), ",");
    assert HEAD + s + ("]" + FlagText(partial)) == HEAD + (s + ("]" + FlagText(partial)));
  }

  /** The text of a packed answer determines its records, their order and its flag. */
  lemma {:induction false} AnswerInjective(a: seq<Item>, b: seq<Item>, partial: bool, other: bool)
    requires WireResults(a, partial, Wire) == WireResults(b, other, Wire)
    ensures a == b && partial == other
  {
    hide *;
    AnswerText(a, partial);
    AnswerText(b, other);
    var s := Join(WireAll(a, Wire), ",") + ("]" + FlagText(partial));
    var t := Join(WireAll(b, Wire), ",") + ("]" + FlagText(other));
    CutPrefix(HEAD, s, t);
    ListingPrefixFree(a, b, FlagText(partial), FlagText(other));
    FlagsDiffer(partial, other);
  }

  lemma FlagsDiffer(partial: bool, other: bool)
    requires FlagText(partial) == FlagText(other)
    ensures partial == other
  {
    assert FlagText(partial)[11] == if partial then 't' else 'f';
    assert FlagText(other)[11] == if other then 't' else 'f';
  }
}
