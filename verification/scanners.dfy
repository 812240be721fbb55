/** The deterministic scanners of the promotion gate. Case folding and regular
    expressions are parameters; everything else is spelled out. */
module Scanners {
  import opened Text

  /** `str.lower` and `re.finditer`; a pattern that does not compile gives `None`. */
  datatype TextOps = TextOps(lower: string -> string, findAll: (string, string) -> Option<seq<string>>)

  datatype Mode = Normal | Crash | Timeout | Malform | Unavailable | Unknown | CannotEvaluate

  datatype ScanStatus = Clean | Match | ScannerUnavailable | ScannerUnknown | Unevaluable

  datatype Report = Report(scanner: string, status: ScanStatus, matches: seq<string>)
                  | Malformed | TimedOut | Crashed

  const SECRET := "secret"
  const SOURCE_FRAGMENT := "source_fragment"
  const WINDOW := 8

  // ----- tokens -----------------------------------------------------------------

  predicate WordChar(c: char) {
    'a' <= c <= 'z' || '0' <= c <= '9'
  }

  function RunLength(s: string): (n: nat)
    ensures n <= |s|
    ensures forall i | 0 <= i < n :: WordChar(s[i])
    ensures n < |s| ==> !WordChar(s[n])
  {
    if s == [] || !WordChar(s[0]) then 0 else 1 + RunLength(s[1..])
  }

  predicate Token(t: string) {
    t != [] && forall c | c in t :: WordChar(c)
  }

  /** `re.findall(r'[a-z0-9]+', text)`. */
  function Tokens(s: string): (r: seq<string>)
    ensures forall t | t in r :: Token(t)
    decreases |s|
  {
    if s == [] then []
    else if !WordChar(s[0]) then Tokens(s[1..])
    else
      var n := RunLength(s);
      [s[..n]] + Tokens(s[n..])
  }

  lemma {:induction false} RunLengthOf(t: string, rest: string)
    requires (forall c | c in t :: WordChar(c)) && (rest == [] || !WordChar(rest[0]))
    ensures RunLength(t + rest) == |t|
  {
    if t == [] {
      assert t + rest == rest;
    } else {
      assert (t + rest)[1..] == t[1..] + rest;
      RunLengthOf(t[1..], rest);
    }
  }

  /** Tokens survive joining and splitting again. */
  lemma {:induction false} TokensOfJoined(words: seq<string>)
    requires forall t | t in words :: Token(t)
    ensures Tokens(JoinWords(words)) == words
  {
    if words != [] {
      var t, rest := words[0], if |words| == 1 then "" else " " + JoinWords(words[1..]);
      assert JoinWords(words) == t + rest;
      assert words[0] in words && Token(t);
      assert rest == [] || rest[0] == ' ';
      RunLengthOf(t, rest);
      assert WordChar(t[0]) && (t + rest)[0] == t[0];
      assert (t + rest)[..|t|] == t && (t + rest)[|t|..] == rest;
      TokensOfJoined(words[1..]);
      if |words| > 1 { assert rest[1..] == JoinWords(words[1..]); }
    }
  }

  function JoinWords(words: seq<string>): string {
    Join(words, " ")
  }

  /** The windows of `original` found in the joined candidate, from position `i` on. */
  function WindowsFrom(original: seq<string>, joined: string, i: nat): seq<string>
    decreases |original| - i
  {
    if i + WINDOW > |original| then []
    else
      var w := JoinWords(original[i..i + WINDOW]);
      (if Contains(joined, w) then [w] else []) + WindowsFrom(original, joined, i + 1)
  }

  function Literals(ops: TextOps, literals: seq<string>, content: string): seq<string> {
    if literals == [] then []
    else
      (if Contains(ops.lower(content), ops.lower(literals[0])) then [literals[0]] else [])
      + Literals(ops, literals[1..], content)
  }

  function Patterns(ops: TextOps, patterns: seq<string>, content: string): Option<seq<string>> {
    if patterns == [] then Some([])
    else
      var first, rest := ops.findAll(patterns[0], content), Patterns(ops, patterns[1..], content);
      if first.Some? && rest.Some? then Some(first.value + rest.value) else None
  }

  /** What a scanner finds, `None` when it raises. */
  function Findings(ops: TextOps, name: string, content: string, source: string,
                    manifest: map<string, seq<string>>): Option<seq<string>> {
    if name == SOURCE_FRAGMENT then
      Some(WindowsFrom(Tokens(ops.lower(source)), JoinWords(Tokens(ops.lower(content))), 0))
    else if name !in manifest then None
    else if name == SECRET then Patterns(ops, manifest[name], content)
    else Some(Literals(ops, manifest[name], content))
  }

  /** `scan`, with the caller's handling of what it raises. */
  function Scan(ops: TextOps, name: string, content: string, source: string,
                manifest: map<string, seq<string>>, mode: Mode): Report {
    match mode
    case Crash => Crashed
    case Timeout => TimedOut
    case Malform => Malformed
    case Unavailable => Report(name, ScannerUnavailable, [])
    case Unknown => Report(name, ScannerUnknown, [])
    case CannotEvaluate => Report(name, Unevaluable, [])
    case Normal =>
      var found := Findings(ops, name, content, source, manifest);
      if found == None then Crashed
      else Report(name, if found.value == [] then Clean else Match, found.value)
  }

  /** `scanner_admissible`. */
  predicate Admissible(report: Report, name: string) {
    report == Report(name, Clean, [])
  }

  // ----- what a clean source-fragment scan rules out ---------------------------------

  lemma {:induction false} JoinConcat(a: seq<string>, b: seq<string>)
    requires a != [] && b != []
    ensures JoinWords(a + b) == JoinWords(a) + " " + JoinWords(b)
  {
    assert (a + b)[0] == a[0] && (a + b)[1..] == a[1..] + b;
    if |a| > 1 {
      JoinConcat(a[1..], b);
    } else {
      assert a[1..] + b == b;
    }
  }

  lemma SubstringOfConcat(before: string, middle: string, after: string)
    ensures Contains(before + middle + after, middle)
  {
    assert OccursAt(before + middle + after, middle, |before|);
  }

  /** A contiguous run of words is a substring of the joined text. */
  lemma WindowIsSubstring(words: seq<string>, i: nat, n: nat)
    requires 0 < n && i + n <= |words|
    ensures Contains(JoinWords(words), JoinWords(words[i..i + n]))
  {
    var a, w, b := words[..i], words[i..i + n], words[i + n..];
    assert words == a + w + b;
    if a != [] { JoinConcat(a, w); }
    if b != [] { JoinConcat(a + w, b); }
    assert a == [] ==> a + w == w;
    assert b == [] ==> a + w + b == a + w;
    var before := if a == [] then "" else JoinWords(a) + " ";
    var after := if b == [] then "" else " " + JoinWords(b);
    assert JoinWords(words) == before + JoinWords(w) + after;
    SubstringOfConcat(before, JoinWords(w), after);
  }

  lemma {:induction false} NoWindowsFound(original: seq<string>, joined: string, i: nat, k: nat)
    requires i <= k && k + WINDOW <= |original| && WindowsFrom(original, joined, i) == []
    ensures !Contains(joined, JoinWords(original[k..k + WINDOW]))
    decreases k - i
  {
    if i < k { NoWindowsFound(original, joined, i + 1, k); }
  }

  function Window(words: seq<string>, i: nat): seq<string>
    requires i + WINDOW <= |words|
  {
    words[i..i + WINDOW]
  }

  ghost predicate ShareWindow(a: seq<string>, b: seq<string>) {
    exists i: nat, j: nat :: i + WINDOW <= |a| && j + WINDOW <= |b| && Window(a, i) == Window(b, j)
  }

  /** A clean report means no eight consecutive tokens are shared. */
  lemma CleanSharesNoWindow(ops: TextOps, content: string, source: string, manifest: map<string, seq<string>>,
                            mode: Mode)
    requires Admissible(Scan(ops, SOURCE_FRAGMENT, content, source, manifest, mode), SOURCE_FRAGMENT)
    ensures !ShareWindow(Tokens(ops.lower(source)), Tokens(ops.lower(content)))
  {
    var s, c := Tokens(ops.lower(source)), Tokens(ops.lower(content));
    if ShareWindow(s, c) {
      var i: nat, j: nat :| i + WINDOW <= |s| && j + WINDOW <= |c| && Window(s, i) == Window(c, j);
      WindowIsSubstring(c, j, WINDOW);
      NoWindowsFound(s, JoinWords(c), 0, i);
    }
  }

  // ----- exactly what it reports --------------------------------------------------------

  ghost predicate EndsWith(s: string, t: string) {
    |t| <= |s| && s[|s| - |t|..] == t
  }

  /** `w` lies in `words` at `j`, except that its outer words may be cut from longer
      ones: the left one at its start, the right one at its end. */
  ghost predicate ClippedAt(words: seq<string>, w: seq<string>, j: nat) {
    && |w| >= 2 && j + |w| <= |words|
    && EndsWith(words[j], w[0])
    && (forall k | 0 < k < |w| - 1 :: words[j + k] == w[k])
    && w[|w| - 1] <= words[j + |w| - 1]
  }

  /** Words from the start: all equal but the last, which may be cut short. */
  ghost predicate Opens(words: seq<string>, v: seq<string>) {
    && 0 < |v| <= |words|
    && (forall k | 0 <= k < |v| - 1 :: words[k] == v[k])
    && v[|v| - 1] <= words[|v| - 1]
  }

  ghost predicate AllTokens(words: seq<string>) {
    forall t | t in words :: Token(t)
  }

  lemma JoinSteps(words: seq<string>)
    requires |words| > 1
    ensures JoinWords(words) == words[0] + " " + JoinWords(words[1..])
  {
  }

  /** The first space of a joined text ends its first word. */
  lemma FirstWordEnds(words: seq<string>, i: nat)
    requires AllTokens(words) && words != [] && i <= |JoinWords(words)|
    ensures i < |words[0]| ==> i < |JoinWords(words)| && JoinWords(words)[i] == words[0][i] && WordChar(words[0][i])
    ensures i == |words[0]| && |words| > 1 ==> i < |JoinWords(words)| && JoinWords(words)[i] == ' '
  {
    assert words[0] in words;
    if i < |words[0]| { assert words[0][i] in words[0]; }
  }

  lemma OccursChar(joined: string, t: string, i: nat, k: nat)
    requires OccursAt(joined, t, i) && k < |t|
    ensures i + k < |joined| && joined[i + k] == t[k]
  {
    assert joined[i..i + |t|][k] == t[k];
  }

  lemma FirstWordNoLonger(words: seq<string>, v: seq<string>)
    requires AllTokens(words) && AllTokens(v) && words != [] && v != [] && JoinWords(v) <= JoinWords(words)
    ensures |v[0]| <= |words[0]| && (|v| > 1 ==> |v[0]| == |words[0]| && |words| > 1)
  {
    var t, joined := JoinWords(v), JoinWords(words);
    assert OccursAt(joined, t, 0);
    FirstWordEnds(v, 0);
    assert |v[0]| <= |t| && (|words| == 1 ==> |joined| == |words[0]|);
    if |words[0]| < |v[0]| {
      var k := |words[0]|;
      OccursChar(joined, t, 0, k);
      FirstWordEnds(words, k);
      FirstWordEnds(v, k);
    } else if |v| > 1 {
      SpaceAfterFirst(v);
      OccursChar(joined, t, 0, |v[0]|);
      FirstWordEnds(words, |v[0]|);
    }
  }

  lemma SpaceAfterFirst(w: seq<string>)
    requires AllTokens(w) && |w| >= 2
    ensures |JoinWords(w)| > |w[0]| && JoinWords(w)[|w[0]|] == ' '
  {
    JoinSteps(w);
  }

  lemma {:induction false} PrefixOpens(words: seq<string>, v: seq<string>)
    requires AllTokens(words) && AllTokens(v) && words != [] && v != [] && JoinWords(v) <= JoinWords(words)
    ensures Opens(words, v)
    decreases |v|
  {
    var t, joined := JoinWords(v), JoinWords(words);
    FirstWordNoLonger(words, v);
    assert v[0] <= words[0] by {
      assert t[..|v[0]|] == v[0] && joined[..|v[0]|] == words[0][..|v[0]|];
    }
    if |v| > 1 {
      assert v[0] == words[0];
      var n := |v[0]| + 1;
      JoinSteps(v);
      JoinSteps(words);
      assert t[n..] == JoinWords(v[1..]) && joined[n..] == JoinWords(words[1..]);
      assert t[n..] <= joined[n..];
      PrefixOpens(words[1..], v[1..]);
      assert forall k | 0 < k < |v| :: v[k] == v[1..][k - 1] && words[k] == words[1..][k - 1];
    }
  }

  lemma OpensIsClipped(words: seq<string>, w: seq<string>)
    requires |w| >= 2 && words != [] && EndsWith(words[0], w[0]) && Opens(words[1..], w[1..])
    ensures ClippedAt(words, w, 0)
  {
    assert forall k | 0 < k < |w| :: w[k] == w[1..][k - 1] && words[k] == words[1..][k - 1];
  }

  /** An occurrence that starts inside the first word ends that word with `w[0]`. */
  lemma OccurrenceInFirstWord(words: seq<string>, w: seq<string>, i: nat)
    requires AllTokens(words) && AllTokens(w) && |w| >= 2 && |words| > 1
    requires OccursAt(JoinWords(words), JoinWords(w), i) && i <= |words[0]|
    ensures i + |w[0]| == |words[0]| && EndsWith(words[0], w[0])
    ensures JoinWords(w[1..]) <= JoinWords(words[1..])
  {
    var t, joined := JoinWords(w), JoinWords(words);
    assert w[0] in w && words[0] in words;
    SpaceAfterFirst(w);
    JoinSteps(w);
    JoinSteps(words);
    assert joined[i..i + |t|] == t;
    assert joined[i + |w[0]|] == t[|w[0]|] == ' ';
    assert joined[|words[0]|] == ' ';
    assert i + |w[0]| >= |words[0]| by {
      if i + |w[0]| < |words[0]| {
        FirstWordEnds(words, i + |w[0]|);
      }
    }
    assert i + |w[0]| <= |words[0]| by {
      if i + |w[0]| > |words[0]| {
        OccursChar(joined, t, i, |words[0]| - i);
        FirstWordEnds(w, |words[0]| - i);
      }
    }
    assert words[0][i..] == w[0] by {
      assert joined[i..i + |w[0]|] == t[..|w[0]|] == w[0];
      assert joined[i..|words[0]|] == words[0][i..];
    }
    assert t[|w[0]| + 1..] == JoinWords(w[1..]);
    assert joined[|words[0]| + 1..] == JoinWords(words[1..]);
    assert joined[|words[0]| + 1..i + |t|] == t[|w[0]| + 1..];
    assert joined[|words[0]| + 1..i + |t|] == joined[|words[0]| + 1..][..|t| - |w[0]| - 1];
  }

  lemma SpaceNeedsTwoWords(words: seq<string>, w: seq<string>, i: nat)
    requires AllTokens(words) && AllTokens(w) && |w| >= 2
    requires OccursAt(JoinWords(words), JoinWords(w), i)
    ensures |words| > 1
  {
    var joined := JoinWords(words);
    SpaceAfterFirst(w);
    OccursChar(joined, JoinWords(w), i, |w[0]|);
    assert joined[i + |w[0]|] in joined && ' ' in joined;
    if |words| <= 1 { ShortTextHasNoSpace(words); }
  }

  lemma ShortTextHasNoSpace(words: seq<string>)
    requires AllTokens(words) && |words| <= 1
    ensures ' ' !in JoinWords(words)
  {
    if words != [] { assert words[0] in words; }
  }

  lemma {:induction false} OccurrenceIsClipped(words: seq<string>, w: seq<string>, i: nat) returns (j: nat)
    requires AllTokens(words) && AllTokens(w) && |w| >= 2
    requires OccursAt(JoinWords(words), JoinWords(w), i)
    ensures ClippedAt(words, w, j)
    decreases |words|
  {
    var t, joined := JoinWords(w), JoinWords(words);
    SpaceNeedsTwoWords(words, w, i);
    if i <= |words[0]| {
      OccurrenceInFirstWord(words, w, i);
      PrefixOpens(words[1..], w[1..]);
      OpensIsClipped(words, w);
      j := 0;
    } else {
      JoinSteps(words);
      var n := |words[0]| + 1;
      assert joined[n..] == JoinWords(words[1..]);
      assert joined[n..][i - n..i - n + |t|] == joined[i..i + |t|];
      j := OccurrenceIsClipped(words[1..], w, i - n);
      j := j + 1;
      assert forall k | 0 <= k < |words| - 1 :: words[1..][k] == words[k + 1];
    }
  }

  lemma {:induction false} OpensIsPrefix(words: seq<string>, v: seq<string>)
    requires Opens(words, v)
    ensures JoinWords(v) <= JoinWords(words)
    decreases |v|
  {
    if |v| > 1 {
      assert words[0] == v[0];
      assert forall k | 0 < k < |v| :: v[k] == v[1..][k - 1] && words[k] == words[1..][k - 1];
      OpensIsPrefix(words[1..], v[1..]);
      JoinSteps(v);
      JoinSteps(words);
    } else if |words| > 1 {
      JoinSteps(words);
    }
  }

  lemma {:induction false} ClippedOccurs(words: seq<string>, w: seq<string>, j: nat)
    requires ClippedAt(words, w, j)
    ensures Contains(JoinWords(words), JoinWords(w))
    decreases j
  {
    JoinSteps(words);
    if j > 0 {
      assert forall k | 0 <= k < |words| - 1 :: words[1..][k] == words[k + 1];
      ClippedOccurs(words[1..], w, j - 1);
      ContainsBehind(words[0] + " ", JoinWords(words[1..]), JoinWords(w));
    } else {
      assert forall k | 0 < k < |w| :: w[k] == w[1..][k - 1] && words[k] == words[1..][k - 1];
      OpensIsPrefix(words[1..], w[1..]);
      JoinSteps(w);
      assert OccursAt(JoinWords(words), JoinWords(w), |words[0]| - |w[0]|);
    }
  }

  ghost predicate Clipped(words: seq<string>, w: seq<string>) {
    exists j: nat :: ClippedAt(words, w, j)
  }

  /** The substring test is the token test with clipped outer words, both ways. */
  lemma SubstringIffClipped(words: seq<string>, w: seq<string>)
    requires AllTokens(words) && AllTokens(w) && |w| >= 2
    ensures Contains(JoinWords(words), JoinWords(w)) <==> Clipped(words, w)
  {
    if Contains(JoinWords(words), JoinWords(w)) {
      var i :| 0 <= i <= |JoinWords(words)| && OccursAt(JoinWords(words), JoinWords(w), i);
      var j := OccurrenceIsClipped(words, w, i);
    }
    if Clipped(words, w) {
      var j: nat :| ClippedAt(words, w, j);
      ClippedOccurs(words, w, j);
    }
  }

  lemma {:induction false} SomeWindowFound(original: seq<string>, joined: string, i: nat) returns (k: nat)
    requires WindowsFrom(original, joined, i) != []
    ensures k + WINDOW <= |original| && Contains(joined, JoinWords(Window(original, k)))
    decreases |original| - i
  {
    if Contains(joined, JoinWords(original[i..i + WINDOW])) {
      k := i;
    } else {
      k := SomeWindowFound(original, joined, i + 1);
    }
  }

  ghost predicate NoClippedWindow(s: seq<string>, c: seq<string>) {
    forall i: nat | i + WINDOW <= |s| :: !Clipped(c, Window(s, i))
  }

  lemma NothingFoundIffNoClippedWindow(s: seq<string>, c: seq<string>)
    requires AllTokens(s) && AllTokens(c)
    ensures WindowsFrom(s, JoinWords(c), 0) == [] <==> NoClippedWindow(s, c)
  {
    hide Clipped, Contains, Token, JoinWords;
    if WindowsFrom(s, JoinWords(c), 0) == [] {
      forall i: nat | i + WINDOW <= |s| ensures !Clipped(c, Window(s, i)) {
        NoWindowsFound(s, JoinWords(c), 0, i);
        SubstringIffClipped(c, Window(s, i));
      }
    } else {
      var k := SomeWindowFound(s, JoinWords(c), 0);
      SubstringIffClipped(c, Window(s, k));
      assert k + WINDOW <= |s| && Clipped(c, Window(s, k));
    }
  }

  /** The scanner in its normal mode passes a candidate exactly when no eight
      consecutive source tokens appear in it, the outer two possibly inside longer
      tokens: it may reject more than whole-token sharing, never less. */
  lemma PassIffNoClippedWindow(ops: TextOps, content: string, source: string, manifest: map<string, seq<string>>)
    ensures Admissible(Scan(ops, SOURCE_FRAGMENT, content, source, manifest, Normal), SOURCE_FRAGMENT) <==>
            NoClippedWindow(Tokens(ops.lower(source)), Tokens(ops.lower(content)))
  {
    hide NoClippedWindow, WindowsFrom, JoinWords, Tokens;
    NothingFoundIffNoClippedWindow(Tokens(ops.lower(source)), Tokens(ops.lower(content)));
  }

  const EIGHT := ["a", "b", "c", "d", "e", "f", "g", "h"]
  const CLOTHED := ["xa", "b", "c", "d", "e", "f", "g", "hy"]

  /** For example: no eight-token window is shared, and the candidate is rejected. */
  lemma RejectedWithoutSharing(find: (string, string) -> Option<seq<string>>, manifest: map<string, seq<string>>)
    ensures var ops := TextOps(text => text, find);
            && !ShareWindow(Tokens(JoinWords(EIGHT)), Tokens(JoinWords(CLOTHED)))
            && !Admissible(Scan(ops, SOURCE_FRAGMENT, JoinWords(CLOTHED), JoinWords(EIGHT), manifest, Normal),
               SOURCE_FRAGMENT)
  {
    hide Scan, JoinWords, Tokens, Admissible;
    TokensOfJoined(EIGHT);
    TokensOfJoined(CLOTHED);
    forall i: nat, j: nat | i + WINDOW <= |EIGHT| && j + WINDOW <= |CLOTHED|
      ensures Window(EIGHT, i) != Window(CLOTHED, j)
    {
      assert Window(EIGHT, i)[0] == "a" && Window(CLOTHED, j)[0] == "xa";
    }
    assert Window(EIGHT, 0) == EIGHT;
    assert ClippedAt(CLOTHED, EIGHT, 0);
    assert Clipped(CLOTHED, Window(EIGHT, 0));
    PassIffNoClippedWindow(TextOps(text => text, find), JoinWords(CLOTHED), JoinWords(EIGHT), manifest);
  }

  // ----- what any scanner passes ----------------------------------------------------------

  /** What the scanner of this name looks for is not there, and could be looked for. */
  ghost predicate NothingFound(ops: TextOps, name: string, content: string, source: string,
                               manifest: map<string, seq<string>>) {
    if name == "source_fragment" then NoClippedWindow(Tokens(ops.lower(source)), Tokens(ops.lower(content)))
    else
      && name in manifest
      && if name == "secret" then forall p | p in manifest[name] :: ops.findAll(p, content) == Some([])
         else forall l | l in manifest[name] :: !Contains(ops.lower(content), ops.lower(l))
  }

  /** The scanner cannot be evaluated at all. */
  ghost predicate Raises(ops: TextOps, name: string, content: string, manifest: map<string, seq<string>>) {
    && name != "source_fragment"
    && (name !in manifest || (name == "secret" && exists p | p in manifest[name] :: ops.findAll(p, content) == None))
  }

  lemma {:induction false} NoPatternIff(ops: TextOps, patterns: seq<string>, content: string)
    ensures Patterns(ops, patterns, content) == Some([]) <==>
            forall p | p in patterns :: ops.findAll(p, content) == Some([])
    ensures Patterns(ops, patterns, content) == None <==> exists p | p in patterns :: ops.findAll(p, content) == None
  {
    if patterns != [] {
      NoPatternIff(ops, patterns[1..], content);
      assert forall p :: p in patterns <==> p == patterns[0] || p in patterns[1..];
      var first, rest := ops.findAll(patterns[0], content), Patterns(ops, patterns[1..], content);
      if first.Some? && rest.Some? { assert first.value + rest.value == [] <==> first.value == [] && rest.value == []; }
    }
  }

  lemma {:induction false} NoLiteralIff(ops: TextOps, literals: seq<string>, content: string)
    ensures Literals(ops, literals, content) == [] <==>
            forall l | l in literals :: !Contains(ops.lower(content), ops.lower(l))
  {
    hide Contains;
    if literals != [] {
      NoLiteralIff(ops, literals[1..], content);
      assert forall l :: l in literals <==> l == literals[0] || l in literals[1..];
    }
  }

  /** A scanner passes a candidate exactly when it runs undisturbed and nothing it looks
      for is there. */
  lemma {:induction false} CleanIff(ops: TextOps, name: string, content: string, source: string,
                                    manifest: map<string, seq<string>>, mode: Mode)
    ensures Scan(ops, name, content, source, manifest, mode) == Report(name, Clean, []) <==>
            mode == Normal && NothingFound(ops, name, content, source, manifest)
  {
    hide NoClippedWindow, WindowsFrom, JoinWords, Tokens, Contains, Patterns, Literals;
    NothingFoundIffNoClippedWindow(Tokens(ops.lower(source)), Tokens(ops.lower(content)));
    if name in manifest {
      NoPatternIff(ops, manifest[name], content);
      NoLiteralIff(ops, manifest[name], content);
    }
  }

  /** What the other reports of a scanner stand for. */
  lemma {:induction false} ReportMeans(ops: TextOps, name: string, content: string, source: string,
                                       manifest: map<string, seq<string>>, mode: Mode)
    ensures var r := Scan(ops, name, content, source, manifest, mode);
            && (r.Report? ==> r.scanner == name && (r.status == Clean <==> r == Report(name, Clean, [])))
            && (r.Report? && r.status == ScannerUnavailable <==> mode == Unavailable)
            && (r.Report? && r.status == Match <==>
                  && mode == Normal && !Raises(ops, name, content, manifest)
                  && !NothingFound(ops, name, content, source, manifest))
  {
    hide NoClippedWindow, WindowsFrom, JoinWords, Tokens, Contains, Patterns, Literals;
    CleanIff(ops, name, content, source, manifest, mode);
    if name in manifest { NoPatternIff(ops, manifest[name], content); }
  }
}
