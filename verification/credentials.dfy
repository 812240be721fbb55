/** Consumer credentials: validated values are printed to an operator-only file, and read
    back for one bounded process. */
module Credentials {
  import opened Text

  type Values = map<string, string>
  /** `str.lower` */
  type Lower = string -> string

  datatype Secret = Secret(key: string, minimumLength: int)
  datatype Consumer = Consumer(destination: string, secrets: seq<Secret>, service: string)

  datatype Problem = UnknownConsumer | KeysDiffer | Empty | UnsupportedCharacters | TooShort | LooksLikePlaceholder
                   | LinkedPath | NotOwnedRegularFile | FailedVerification | NotMaterialized | Unsafe

  // ----- characters ------------------------------------------------------------------

  /** `\s` on text: what `str.isspace` accepts. */
  predicate Space(c: char) {
    var n := c as int;
    || 0x09 <= n <= 0x0D || 0x1C <= n <= 0x20 || n in {0x85, 0xA0, 0x1680}
    || 0x2000 <= n <= 0x200A || n in {0x2028, 0x2029, 0x202F, 0x205F, 0x3000}
  }

  /** The character class `FORBIDDEN` */
  predicate Forbidden(c: char) {
    Space(c) || c as int <= 0x1F || c as int == 0x7F || c in {'"', '\'', '`', '$', '\\'}
  }

  /** Where `str.splitlines` breaks a line. */
  predicate LineBreak(c: char) {
    var n := c as int;
    0x0A <= n <= 0x0D || 0x1C <= n <= 0x1E || n in {0x85, 0x2028, 0x2029}
  }

  predicate OneLine(s: string) {
    forall c | c in s :: !LineBreak(c)
  }

  /** The declared key pattern: a capital, then 2 to 63 capitals, digits or underscores. */
  predicate KeyShaped(key: string) {
    && 3 <= |key| <= 64 && 'A' <= key[0] <= 'Z'
    && forall c | c in key :: 'A' <= c <= 'Z' || '0' <= c <= '9' || c == '_'
  }

  function Declared(wanted: seq<Secret>): set<string> {
    set s | s in wanted :: s.key
  }

  /** What `load_declarations` demands of one consumer's secrets. */
  predicate WellDeclared(wanted: seq<Secret>) {
    && 1 <= |wanted| <= 16
    && (forall i | 0 <= i < |wanted| :: KeyShaped(wanted[i].key))
    && forall i, j | 0 <= i < j < |wanted| :: wanted[i].key != wanted[j].key
  }

  // ----- validation -------------------------------------------------------------------

  const PLACEHOLDERS: seq<string> := ["placeholder", "replace", "changeme", "example", "your-key"]

  predicate HasForbidden(value: string) {
    exists c | c in value :: Forbidden(c)
  }

  predicate MentionsPlaceholder(text: string) {
    exists i | 0 <= i < |PLACEHOLDERS| :: Contains(text, PLACEHOLDERS[i])
  }

  function Complaint(value: string, minimum: int, lower: Lower): Option<Problem> {
    if value == "" then Some(Empty)
    else if HasForbidden(value) then Some(UnsupportedCharacters)
    else if |value| < minimum then Some(TooShort)
    else if MentionsPlaceholder(lower(value)) then Some(LooksLikePlaceholder)
    else None
  }

  predicate NoComplaint(values: Values, wanted: seq<Secret>, lower: Lower) {
    forall s | s in wanted :: s.key in values && Complaint(values[s.key], s.minimumLength, lower) == None
  }

  /** What `validate` lets through. */
  predicate Accepted(values: Values, wanted: seq<Secret>, lower: Lower) {
    values.Keys == Declared(wanted) && NoComplaint(values, wanted, lower)
  }

  function Validate(values: Values, wanted: seq<Secret>, lower: Lower): (r: Result<Values, Problem>)
    ensures r.Ok? <==> Accepted(values, wanted, lower)
    ensures r.Ok? ==> r.value == values && forall s | s in wanted :: s.key in values
  {
    if values.Keys != Declared(wanted) then Err(KeysDiffer)
    else
      var problem := ComplaintFrom(values, wanted, lower);
      if problem.Some? then Err(problem.value) else Ok(values)
  }

  function ComplaintFrom(values: Values, wanted: seq<Secret>, lower: Lower): (r: Option<Problem>)
    requires forall s | s in wanted :: s.key in values
    ensures r == None <==> NoComplaint(values, wanted, lower)
  {
    if wanted == [] then None
    else
      var first := Complaint(values[wanted[0].key], wanted[0].minimumLength, lower);
      if first.Some? then assert wanted[0] in wanted; first
      else
        assert forall s | s in wanted :: s == wanted[0] || s in wanted[1..];
        ComplaintFrom(values, wanted[1..], lower)
  }

  lemma {:induction false} ComplaintFromAppend(values: Values, a: seq<Secret>, b: seq<Secret>, lower: Lower)
    requires forall s | s in a + b :: s.key in values
    requires NoComplaint(values, a, lower)
    ensures ComplaintFrom(values, a + b, lower) == ComplaintFrom(values, b, lower)
  {
    hide Complaint;
    if a == [] {
      assert a + b == b;
    } else {
      assert (a + b)[1..] == a[1..] + b;
      assert a[0] in a;
      ComplaintFromAppend(values, a[1..], b, lower);
    }
  }

  /** `validate`, entry by entry. */
  method ValidateValues(values: Values, wanted: seq<Secret>, lower: Lower) returns (r: Result<Values, Problem>)
    ensures r == Validate(values, wanted, lower)
    ensures r.Ok? <==> Accepted(values, wanted, lower)
  {
    hide Complaint;
    var declared := Declared(wanted);
    if values.Keys != declared { return Err(KeysDiffer); }
    var i := 0;
    while i < |wanted|
      invariant 0 <= i <= |wanted|
      invariant NoComplaint(values, wanted[..i], lower)
    {
      assert wanted[..i] + wanted[i..] == wanted;
      assert forall s | s in wanted :: s.key in declared;
      ComplaintFromAppend(values, wanted[..i], wanted[i..], lower);
      var problem := Complaint(values[wanted[i].key], wanted[i].minimumLength, lower);
      if problem.Some? { return Err(problem.value); }
      assert wanted[..i + 1] == wanted[..i] + [wanted[i]];
      i := i + 1;
    }
    assert wanted[..i] == wanted;
    r := Ok(values);
  }

  /** Quotes, the dollar sign, the backslash and the backtick; controls and blanks of every kind. */
  predicate Refused(c: char) {
    var n := c as int;
    || n <= 0x20 || n in {0x22, 0x24, 0x27, 0x5C, 0x60, 0x7F, 0x85, 0xA0, 0x1680}
    || 0x2000 <= n <= 0x200A || n in {0x2028, 0x2029, 0x202F, 0x205F, 0x3000}
  }

  /** Values are accepted exactly when they are for the declared keys and no others, and each is
      non-empty, as long as declared, free of refused characters, and names no placeholder
      in either case. */
  lemma {:induction false} AcceptedMeans(values: Values, wanted: seq<Secret>, lower: Lower)
    ensures Accepted(values, wanted, lower) <==>
            && (forall k :: k in values <==> exists s :: s in wanted && s.key == k)
            && forall s | s in wanted && s.key in values ::
                 var v := values[s.key];
                 && |v| >= 1 && |v| >= s.minimumLength && (forall c | c in v :: !Refused(c))
                 && !Contains(lower(v), "placeholder") && !Contains(lower(v), "replace")
                 && !Contains(lower(v), "changeme") && !Contains(lower(v), "example")
                 && !Contains(lower(v), "your-key")
  {
    hide Contains, Complaint;
    assert values.Keys == Declared(wanted) <==> forall k :: k in values <==> exists s :: s in wanted && s.key == k by {
      if forall k :: k in values <==> exists s :: s in wanted && s.key == k {
        assert forall k :: k in values.Keys <==> k in Declared(wanted);
      }
    }
    hide Declared;
    forall s | s in wanted && s.key in values
      ensures Complaint(values[s.key], s.minimumLength, lower) == None <==>
              var v := values[s.key];
              && |v| >= 1 && |v| >= s.minimumLength && (forall c | c in v :: !Refused(c))
              && !Contains(lower(v), "placeholder") && !Contains(lower(v), "replace")
              && !Contains(lower(v), "changeme") && !Contains(lower(v), "example")
              && !Contains(lower(v), "your-key")
    {
      ComplaintMeans(values[s.key], s.minimumLength, lower);
    }
  }

  /** The first thing wrong with a value, in this order. */
  lemma ComplaintMeans(v: string, minimum: int, lower: Lower)
    ensures var marked := Contains(lower(v), "placeholder") || Contains(lower(v), "replace")
                          || Contains(lower(v), "changeme") || Contains(lower(v), "example")
                          || Contains(lower(v), "your-key");
            Complaint(v, minimum, lower) ==
            if |v| == 0 then Some(Empty)
            else if exists c | c in v :: Refused(c) then Some(UnsupportedCharacters)
            else if |v| < minimum then Some(TooShort)
            else if marked then Some(LooksLikePlaceholder)
            else None
  {
    hide Contains;
    forall c ensures Forbidden(c) <==> Refused(c) { }
    hide Forbidden, Refused;
    assert MentionsPlaceholder(lower(v)) <==>
           || Contains(lower(v), PLACEHOLDERS[0]) || Contains(lower(v), PLACEHOLDERS[1])
           || Contains(lower(v), PLACEHOLDERS[2]) || Contains(lower(v), PLACEHOLDERS[3])
           || Contains(lower(v), PLACEHOLDERS[4]);
  }

  // ----- printing ----------------------------------------------------------------------

  function Line(values: Values, s: Secret): string
    requires s.key in values
  {
    s.key + "=" + values[s.key]
  }

  /** `render`: one line per declared secret, in declaration order. */
  function Render(values: Values, wanted: seq<Secret>): string
    requires forall s | s in wanted :: s.key in values
  {
    if wanted == [] then ""
    else
      assert wanted[0] in wanted;
      Line(values, wanted[0]) + "\n" + Render(values, wanted[1..])
  }

  // ----- reading -----------------------------------------------------------------------

  /** Reading in text mode: every `\r\n` and every other `\r` becomes `\n`. */
  function Universal(raw: string): string {
    if raw == "" then ""
    else if raw[0] != '\r' then [raw[0]] + Universal(raw[1..])
    else "\n" + Universal(if |raw| > 1 && raw[1] == '\n' then raw[2..] else raw[1..])
  }

  function LineEnd(text: string): (n: nat)
    ensures n <= |text| && OneLine(text[..n])
    ensures n < |text| ==> LineBreak(text[n])
  {
    if text == "" || LineBreak(text[0]) then 0
    else
      var n := 1 + LineEnd(text[1..]);
      assert text[..n] == [text[0]] + text[1..][..n - 1];
      n
  }

  /** `str.splitlines` */
  function SplitLines(text: string): seq<string>
    decreases |text|
  {
    if text == "" then []
    else
      var n := LineEnd(text);
      if n == |text| then [text]
      else
        var width := if text[n] == '\r' && n + 1 < |text| && text[n + 1] == '\n' then 2 else 1;
        [text[..n]] + SplitLines(text[n + width..])
  }

  function EqualsAt(line: string): (n: nat)
    ensures n <= |line| && '=' !in line[..n]
    ensures n < |line| ==> line[n] == '='
  {
    if line == "" || line[0] == '=' then 0
    else
      var n := 1 + EqualsAt(line[1..]);
      assert line[..n] == [line[0]] + line[1..][..n - 1];
      n
  }

  /** `line.partition('=')`, without the separator. */
  function Partition(line: string): (string, string) {
    var n := EqualsAt(line);
    (line[..n], if n == |line| then "" else line[n + 1..])
  }

  /** The values map `load` fills; a later line for a key replaces an earlier one. */
  function ReadValues(lines: seq<string>): Values {
    if lines == [] then map[]
    else
      var before, last := ReadValues(lines[..|lines| - 1]), lines[|lines| - 1];
      if last == "" then before else before[Partition(last).0 := Partition(last).1]
  }

  function ReadKeys(lines: seq<string>): set<string> {
    set line | line in lines && line != "" :: Partition(line).0
  }

  // ----- the round trip ---------------------------------------------------------------

  /** Every character that ends a line for the reader is refused in a value, and so is
      the carriage return that text mode would rewrite. */
  lemma SeparatorsAreForbidden(c: char)
    ensures LineBreak(c) ==> Forbidden(c)
    ensures !Forbidden('=')
    ensures KeyShaped([c, c, c]) ==> !Forbidden(c) && c != '='
  {
    assert KeyShaped([c, c, c]) ==> 'A' <= [c, c, c][0] <= 'Z';
  }

  lemma KeyIsPlain(key: string)
    requires KeyShaped(key)
    ensures OneLine(key) && '=' !in key
  {
  }

  lemma CleanIsOneLine(value: string)
    requires !HasForbidden(value)
    ensures OneLine(value)
  {
    forall c | c in value ensures !LineBreak(c) { SeparatorsAreForbidden(c); }
  }

  lemma {:induction false} LineEndOfLine(line: string, rest: string)
    requires OneLine(line)
    ensures LineEnd(line + "\n" + rest) == |line|
  {
    var text := line + "\n" + rest;
    if line != "" {
      assert line[0] in line;
      assert text[1..] == line[1..] + "\n" + rest;
      LineEndOfLine(line[1..], rest);
    }
  }

  lemma SplitFirstLine(line: string, rest: string)
    requires OneLine(line)
    ensures SplitLines(line + "\n" + rest) == [line] + SplitLines(rest)
  {
    var text := line + "\n" + rest;
    LineEndOfLine(line, rest);
    assert text[|line|] == '\n';
    assert text[..|line|] == line && text[|line| + 1..] == rest;
  }

  /** Lines end at these characters, one carriage return and line feed together, and hold
      none of them. */
  lemma {:induction false} LinesOf(line: string, c: char, rest: string)
    requires OneLine(line)
    ensures LineBreak(c) <==> c as int in {0x0A, 0x0B, 0x0C, 0x0D, 0x1C, 0x1D, 0x1E, 0x85, 0x2028, 0x2029}
    ensures SplitLines(line) == if line == "" then [] else [line]
    ensures LineBreak(c) && !(c == '\r' && rest != "" && rest[0] == '\n') ==>
              SplitLines(line + [c] + rest) == [line] + SplitLines(rest)
    ensures SplitLines(line + "\r\n" + rest) == [line] + SplitLines(rest)
  {
    LineEndAtBreak(line, "");
    assert line + "" == line;
    if LineBreak(c) {
      LineEndAtBreak(line, [c] + rest);
      var text := line + ([c] + rest);
      assert text == line + [c] + rest && text[|line|] == c && text[..|line|] == line && text[|line| + 1..] == rest;
    }
    LineEndAtBreak(line, "\r\n" + rest);
    var text := line + ("\r\n" + rest);
    assert text == line + "\r\n" + rest && text[..|line|] == line && text[|line| + 2..] == rest;
    assert text[|line|] == '\r' && text[|line| + 1] == '\n';
  }

  lemma {:induction false} LineEndAtBreak(line: string, rest: string)
    requires OneLine(line) && (rest == "" || LineBreak(rest[0]))
    ensures LineEnd(line + rest) == |line|
  {
    var text := line + rest;
    if line != "" {
      assert line[0] in line && text[1..] == line[1..] + rest;
      LineEndAtBreak(line[1..], rest);
    } else {
      assert text == rest;
    }
  }

  /** A line is a key up to its first equals sign, and the value behind it. */
  lemma {:induction false} PartitionMeans(line: string)
    ensures var (key, value) := Partition(line);
            && '=' !in key
            && if '=' in line then line == key + "=" + value else key == line && value == ""
  {
    var n := EqualsAt(line);
    if n < |line| {
      assert line[n] in line;
      assert line == line[..n] + [line[n]] + line[n + 1..];
    } else {
      assert line[..n] == line;
    }
  }

  /** The last line for a key gives its value. */
  lemma {:induction false} LastLineCounts(lines: seq<string>, i: nat)
    requires i < |lines| && lines[i] != ""
    requires forall j | i < j < |lines| :: lines[j] == "" || Partition(lines[j]).0 != Partition(lines[i]).0
    ensures Lookup(ReadValues(lines), Partition(lines[i]).0) == Some(Partition(lines[i]).1)
  {
    hide Partition;
    var n := |lines| - 1;
    if i < n {
      assert forall j | i < j < n :: lines[..n][j] == lines[j];
      LastLineCounts(lines[..n], i);
    }
  }

  lemma {:induction false} PartitionAtFirstEquals(key: string, value: string)
    requires '=' !in key
    ensures Partition(key + "=" + value) == (key, value)
  {
    var line := key + "=" + value;
    EqualsAfterKey(key, value);
    assert line[..|key|] == key && line[|key| + 1..] == value;
  }

  lemma {:induction false} EqualsAfterKey(key: string, value: string)
    requires '=' !in key
    ensures EqualsAt(key + "=" + value) == |key|
  {
    var line := key + "=" + value;
    if key != "" {
      assert key[0] in key;
      assert line[1..] == key[1..] + "=" + value;
      EqualsAfterKey(key[1..], value);
    }
  }

  lemma {:induction false} UniversalKeepsPlain(text: string)
    requires '\r' !in text
    ensures Universal(text) == text
  {
    if text != "" { UniversalKeepsPlain(text[1..]); }
  }

  /** Values and keys that can be printed on one line each. */
  predicate Printable(values: Values, wanted: seq<Secret>) {
    forall s | s in wanted :: KeyShaped(s.key) && s.key in values && !HasForbidden(values[s.key])
  }

  lemma AcceptedIsPrintable(values: Values, wanted: seq<Secret>, lower: Lower)
    requires WellDeclared(wanted) && Accepted(values, wanted, lower)
    ensures Printable(values, wanted)
  {
    hide HasForbidden, KeyShaped;
  }

  function Lines(values: Values, wanted: seq<Secret>): (r: seq<string>)
    requires forall s | s in wanted :: s.key in values
    ensures |r| == |wanted|
  {
    seq(|wanted|, i requires 0 <= i < |wanted| => assert wanted[i] in wanted; Line(values, wanted[i]))
  }

  lemma LineIsOneLine(values: Values, s: Secret)
    requires KeyShaped(s.key) && s.key in values && !HasForbidden(values[s.key])
    ensures OneLine(Line(values, s)) && Line(values, s) != ""
    ensures Partition(Line(values, s)) == (s.key, values[s.key])
  {
    KeyIsPlain(s.key);
    CleanIsOneLine(values[s.key]);
    PartitionAtFirstEquals(s.key, values[s.key]);
  }

  lemma {:induction false} RenderedLines(values: Values, wanted: seq<Secret>)
    requires Printable(values, wanted)
    ensures '\r' !in Render(values, wanted)
    ensures SplitLines(Render(values, wanted)) == Lines(values, wanted)
  {
    hide HasForbidden, KeyShaped, Line, OneLine, Lines, SplitLines, Partition;
    if wanted != [] {
      var line, rest := Line(values, wanted[0]), Render(values, wanted[1..]);
      LineIsOneLine(values, wanted[0]);
      OneLineHasNoReturn(line);
      RenderedLines(values, wanted[1..]);
      SplitFirstLine(line, rest);
      LinesByFirst(values, wanted);
    } else {
      NoLines(values);
    }
  }

  lemma NoLines(values: Values)
    ensures SplitLines("") == Lines(values, [])
  {
  }

  lemma LinesByFirst(values: Values, wanted: seq<Secret>)
    requires wanted != [] && forall s | s in wanted :: s.key in values
    ensures Lines(values, wanted) == [Line(values, wanted[0])] + Lines(values, wanted[1..])
  {
    hide Line;
  }

  lemma OneLineHasNoReturn(line: string)
    requires OneLine(line)
    ensures '\r' !in line
  {
    assert LineBreak('\r');
  }

  lemma {:induction false} ReadPrintedLines(values: Values, wanted: seq<Secret>)
    requires Printable(values, wanted)
    ensures ReadValues(Lines(values, wanted)) == map k | k in Declared(wanted) && k in values :: values[k]
  {
    hide HasForbidden, KeyShaped, Partition, Line;
    if wanted != [] {
      var init, last := wanted[..|wanted| - 1], wanted[|wanted| - 1];
      var lines := Lines(values, wanted);
      assert lines[..|lines| - 1] == Lines(values, init);
      assert lines[|lines| - 1] == Line(values, last);
      ReadPrintedLines(values, init);
      LineIsOneLine(values, last);
      DeclaredSnoc(init, last);
      assert init + [last] == wanted;
      hide Lines, Declared;
    }
  }

  lemma DeclaredSnoc(wanted: seq<Secret>, last: Secret)
    ensures Declared(wanted + [last]) == Declared(wanted) + {last.key}
  {
  }

  /** Loading the printed text gives back exactly the accepted values. */
  lemma {:induction false} RoundTrip(values: Values, wanted: seq<Secret>, lower: Lower)
    requires WellDeclared(wanted) && Accepted(values, wanted, lower)
    ensures ReadValues(SplitLines(Universal(Render(values, wanted)))) == values
  {
    AcceptedIsPrintable(values, wanted, lower);
    RenderedLines(values, wanted);
    UniversalKeepsPlain(Render(values, wanted));
    ReadPrintedLines(values, wanted);
  }

  /** Reading in text mode leaves the printed text as it is. */
  lemma {:induction false} PrintedIsPlain(values: Values, wanted: seq<Secret>, lower: Lower)
    requires WellDeclared(wanted) && Accepted(values, wanted, lower)
    ensures Universal(Render(values, wanted)) == Render(values, wanted)
  {
    AcceptedIsPrintable(values, wanted, lower);
    RenderedLines(values, wanted);
    UniversalKeepsPlain(Render(values, wanted));
  }

  /** Inspecting the printed text finds exactly the declared keys. */
  lemma {:induction false} PrintedKeysAreDeclared(values: Values, wanted: seq<Secret>, lower: Lower)
    requires WellDeclared(wanted) && Accepted(values, wanted, lower)
    ensures ReadKeys(SplitLines(Universal(Render(values, wanted)))) == Declared(wanted)
  {
    RoundTrip(values, wanted, lower);
    ReadKeysAreReadValues(SplitLines(Universal(Render(values, wanted))));
  }

  /** Reading a file finds the keys that loading it fills, whatever the file holds. */
  lemma {:induction false} ReadKeysAreReadValues(lines: seq<string>)
    ensures ReadValues(lines).Keys == ReadKeys(lines)
  {
    if lines != [] {
      var init, last := lines[..|lines| - 1], lines[|lines| - 1];
      ReadKeysAreReadValues(init);
      assert lines == init + [last];
      assert ReadKeys(lines) == ReadKeys(init) + (if last == "" then {} else {Partition(last).0});
    }
  }

  /** Different accepted values print differently. */
  lemma RenderInjective(v: Values, w: Values, wanted: seq<Secret>, lower: Lower)
    requires WellDeclared(wanted) && Accepted(v, wanted, lower) && Accepted(w, wanted, lower)
    requires Render(v, wanted) == Render(w, wanted)
    ensures v == w
  {
    RoundTrip(v, wanted, lower);
    RoundTrip(w, wanted, lower);
  }

  /** `load`'s loop over the lines. */
  method ReadValuesLoop(lines: seq<string>) returns (values: Values)
    ensures values == ReadValues(lines) && values.Keys == ReadKeys(lines)
  {
    values := map[];
    var i := 0;
    while i < |lines|
      invariant 0 <= i <= |lines| && values == ReadValues(lines[..i])
    {
      assert lines[..i + 1][..i] == lines[..i];
      if lines[i] != "" {
        var (key, value) := Partition(lines[i]);
        values := values[key := value];
      }
      i := i + 1;
    }
    assert lines[..i] == lines;
    ReadKeysAreReadValues(lines);
  }

  // ----- the credential directory -------------------------------------------------------

  /** Permission bits `0o600` */
  const OPERATOR_ONLY: nat := 384

  /** What a destination name leads to. */
  datatype Node = File(linked: bool, regular: bool, owned: bool, mode: nat, text: string) | Dangling

  datatype Directory = Directory(linked: bool, files: map<string, Node>)

  datatype Outcome = Unchanged | Written

  predicate Present(dir: Directory, destination: string) {
    destination in dir.files && dir.files[destination].File?
  }

  /** Whether `write_atomically` agrees to touch the destination. */
  predicate Writable(dir: Directory, destination: string) {
    !dir.linked && (destination in dir.files ==>
      var node := dir.files[destination]; node.File? && !node.linked && node.regular && node.owned)
  }

  function WriteAtomically(dir: Directory, destination: string, content: string):
    Result<(Directory, Outcome), Problem>
  {
    var node := Lookup(dir.files, destination);
    if dir.linked || (node.Some? && (node.value.Dangling? || node.value.linked)) then Err(LinkedPath)
    else if node.Some? && !(node.value.regular && node.value.owned) then Err(NotOwnedRegularFile)
    else if node.Some? && Universal(node.value.text) == content && node.value.mode == OPERATOR_ONLY
    then Ok((dir, Unchanged))
    else Ok((dir.(files := dir.files[destination := File(false, true, true, OPERATOR_ONLY, content)]), Written))
  }

  datatype Inspection = Inspection(present: bool, mode: nat, keys: set<string>, undeclared: set<string>,
                                   missing: set<string>, ownerOnly: bool, safe: bool)

  /** `inspect`; a sorted list of keys is the set it lists. */
  function Inspect(dir: Directory, destination: string, wanted: seq<Secret>): Inspection {
    if !Present(dir, destination) then Inspection(false, 0, {}, {}, Declared(wanted), false, false)
    else
      var node := dir.files[destination];
      var keys := ReadKeys(SplitLines(Universal(node.text)));
      var undeclared, missing := keys - Declared(wanted), Declared(wanted) - keys;
      Inspection(true, node.mode, keys, undeclared, missing, node.mode == OPERATOR_ONLY && node.owned,
                 node.mode == OPERATOR_ONLY && undeclared == {} && missing == {})
  }

  /** A credential is safe exactly when its file is operator-only and its keys are the
      declared ones; who owns the file is not asked. */
  lemma SafeIff(dir: Directory, destination: string, wanted: seq<Secret>)
    ensures Inspect(dir, destination, wanted).safe <==>
            && Present(dir, destination) && dir.files[destination].mode == OPERATOR_ONLY
            && ReadKeys(SplitLines(Universal(dir.files[destination].text))) == Declared(wanted)
  {
    hide ReadKeys, Declared;
    if Present(dir, destination) {
      var keys, declared := ReadKeys(SplitLines(Universal(dir.files[destination].text))), Declared(wanted);
      assert keys - declared == {} && declared - keys == {} <==> keys == declared;
    }
  }

  /** What an inspection reports, field by field. */
  lemma InspectMeans(dir: Directory, destination: string, wanted: seq<Secret>)
    ensures var r := Inspect(dir, destination, wanted);
            if destination in dir.files && dir.files[destination].File? then
              var node := dir.files[destination];
              && r.present && r.mode == node.mode
              && (forall k :: k in r.keys <==> k in ReadValues(SplitLines(Universal(node.text))))
              && (forall k :: k in r.undeclared <==> k in r.keys && !exists s :: s in wanted && s.key == k)
              && (forall k :: k in r.missing <==> k !in r.keys && exists s :: s in wanted && s.key == k)
              && (r.ownerOnly <==> node.mode == 384 && node.owned)
              && (r.safe <==> node.mode == 384 && r.undeclared == {} && r.missing == {})
            else
              && !r.present && !r.ownerOnly && !r.safe && r.keys == {} && r.undeclared == {}
              && (forall k :: k in r.missing <==> exists s :: s in wanted && s.key == k)
  {
    hide ReadKeys, ReadValues, SplitLines, Universal;
    if Present(dir, destination) { ReadKeysAreReadValues(SplitLines(Universal(dir.files[destination].text))); }
  }

  function Load(dir: Directory, consumers: map<string, Consumer>, name: string): Result<Values, Problem> {
    if name !in consumers then Err(UnknownConsumer)
    else
      var destination, wanted := consumers[name].destination, consumers[name].secrets;
      var report := Inspect(dir, destination, wanted);
      if !report.present then Err(NotMaterialized)
      else if !report.safe then Err(Unsafe)
      else Ok(ReadValues(SplitLines(Universal(dir.files[destination].text))))
  }

  /** Whatever the file holds, what is loaded has exactly the declared keys. */
  lemma {:induction false} LoadedKeysAreDeclared(dir: Directory, consumers: map<string, Consumer>, name: string)
    requires Load(dir, consumers, name).Ok?
    ensures Load(dir, consumers, name).value.Keys == Declared(consumers[name].secrets)
  {
    hide ReadKeys, ReadValues, Declared, SplitLines, Universal;
    var destination := consumers[name].destination;
    SafeIff(dir, destination, consumers[name].secrets);
    ReadKeysAreReadValues(SplitLines(Universal(dir.files[destination].text)));
  }

  /** Loading gives what the file holds when it is operator-only and has exactly the declared
      keys, and tells a missing credential from an unsafe one otherwise. */
  lemma {:induction false} LoadTells(dir: Directory, consumers: map<string, Consumer>, name: string)
    ensures Load(dir, consumers, name) ==
            if name !in consumers then Err(UnknownConsumer)
            else
              var target, wanted := consumers[name].destination, consumers[name].secrets;
              if target !in dir.files || dir.files[target].Dangling? then Err(NotMaterialized)
              else
                var values := ReadValues(SplitLines(Universal(dir.files[target].text)));
                if dir.files[target].mode != 384 || values.Keys != (set s | s in wanted :: s.key) then Err(Unsafe)
                else Ok(values)
  {
    hide ReadKeys, ReadValues, SplitLines, Universal;
    if name in consumers {
      var target, wanted := consumers[name].destination, consumers[name].secrets;
      SafeIff(dir, target, wanted);
      assert Declared(wanted) == set s | s in wanted :: s.key;
      if Present(dir, target) { ReadKeysAreReadValues(SplitLines(Universal(dir.files[target].text))); }
    }
  }

  datatype Materialized = Materialized(outcome: Outcome, valueChanged: bool, restartRequired: bool, report: Inspection)

  /** `materialize`, for the values the resolver fetched. */
  function Materialize(dir: Directory, consumers: map<string, Consumer>, name: string, fetched: Values, lower: Lower):
    (Directory, Result<Materialized, Problem>)
  {
    if name !in consumers then (dir, Err(UnknownConsumer))
    else
      var consumer := consumers[name];
      var checked := Validate(fetched, consumer.secrets, lower);
      if checked.Err? then (dir, Err(checked.error))
      else
        var written := WriteAtomically(dir, consumer.destination, Render(fetched, consumer.secrets));
        if written.Err? then (dir, Err(written.error))
        else
          var (dir', outcome) := written.value;
          var report := Inspect(dir', consumer.destination, consumer.secrets);
          if !report.safe then (dir', Err(FailedVerification))
          else
            var changed := outcome == Written;
            (dir', Ok(Materialized(outcome, changed, changed && consumer.service != "", report)))
  }

  predicate WellFormed(consumers: map<string, Consumer>) {
    forall name | name in consumers :: WellDeclared(consumers[name].secrets)
  }

  /** What a successful write leaves: a file that reads as the printed values. */
  lemma WrittenReadsBack(dir: Directory, consumer: Consumer, values: Values, lower: Lower)
    requires WellDeclared(consumer.secrets) && Accepted(values, consumer.secrets, lower)
    ensures var r := WriteAtomically(dir, consumer.destination, Render(values, consumer.secrets));
            && (r.Ok? <==> Writable(dir, consumer.destination))
            && (r.Ok? ==>
                  && Present(r.value.0, consumer.destination) && Writable(r.value.0, consumer.destination)
                  && r.value.0.files[consumer.destination].mode == OPERATOR_ONLY
                  && Universal(r.value.0.files[consumer.destination].text) == Render(values, consumer.secrets)
                  && (r.value.1 == Unchanged <==> r.value.0 == dir))
  {
    hide Render, Accepted, Universal;
    PrintedIsPlain(values, consumer.secrets, lower);
  }

  /** Materialization succeeds exactly when the consumer is known, the fetched values are
      acceptable and the destination may be written: its own verification then always
      passes, loading gives back the fetched values, and `unchanged` means that nothing
      in the directory changed. A failed one changes nothing. */
  lemma {:induction false} MaterializeMeaning(dir: Directory, consumers: map<string, Consumer>, name: string,
                                              fetched: Values, lower: Lower)
    requires WellFormed(consumers)
    ensures var (dir', r) := Materialize(dir, consumers, name, fetched, lower);
            && (r.Ok? <==> && name in consumers && Accepted(fetched, consumers[name].secrets, lower)
                           && Writable(dir, consumers[name].destination))
            && (r.Err? ==> dir' == dir)
            && (r.Ok? ==>
                  && Load(dir', consumers, name) == Ok(fetched)
                  && (r.value.outcome == Unchanged <==> dir' == dir)
                  && r.value.report.ownerOnly && r.value.report.missing == {} && r.value.report.undeclared == {})
  {
    hide Render, Accepted, Universal, SplitLines, ReadKeys, ReadValues, WriteAtomically, Declared;
    if name in consumers {
      var consumer := consumers[name];
      if Validate(fetched, consumer.secrets, lower).Ok? {
        WrittenReadsBack(dir, consumer, fetched, lower);
        RoundTrip(fetched, consumer.secrets, lower);
        PrintedIsPlain(fetched, consumer.secrets, lower);
        PrintedKeysAreDeclared(fetched, consumer.secrets, lower);
        var w := WriteAtomically(dir, consumer.destination, Render(fetched, consumer.secrets));
        if w.Ok? { SafeIff(w.value.0, consumer.destination, consumer.secrets); }
      }
    }
  }

  /** How a materialization ends that does not succeed, and what a successful one reports: a
      restart is called for exactly when the file changed and a service uses it. */
  lemma {:induction false} MaterializeTells(dir: Directory, consumers: map<string, Consumer>, name: string,
                                            fetched: Values, lower: Lower)
    requires WellFormed(consumers)
    ensures var r := Materialize(dir, consumers, name, fetched, lower).1;
            if name !in consumers then r == Err(UnknownConsumer)
            else
              var wanted, target := consumers[name].secrets, consumers[name].destination;
              if !Accepted(fetched, wanted, lower) then
                r.Err? && (r.error == KeysDiffer <==> fetched.Keys != set s | s in wanted :: s.key)
              else if dir.linked || (target in dir.files && (dir.files[target].Dangling? || dir.files[target].linked))
              then
                r == Err(LinkedPath)
              else if target in dir.files && !(dir.files[target].regular && dir.files[target].owned) then
                r == Err(NotOwnedRegularFile)
              else
                && r.Ok? && r.value.valueChanged == (r.value.outcome == Written)
                && (r.value.restartRequired <==> r.value.outcome == Written && |consumers[name].service| > 0)
                && r.value.report.present && r.value.report.mode == 384 && r.value.report.safe
                && r.value.report.keys == fetched.Keys
  {
    hide Render, Accepted, Universal, SplitLines, ReadKeys, ReadValues, Complaint;
    MaterializeMeaning(dir, consumers, name, fetched, lower);
    if name in consumers {
      var consumer := consumers[name];
      ComplaintKinds(fetched, consumer.secrets, lower);
      if Accepted(fetched, consumer.secrets, lower) {
        AcceptedKeys(fetched, consumer.secrets, lower);
        WrittenReadsBack(dir, consumer, fetched, lower);
        PrintedKeysAreDeclared(fetched, consumer.secrets, lower);
        PrintedIsPlain(fetched, consumer.secrets, lower);
      }
    }
  }

  lemma AcceptedKeys(values: Values, wanted: seq<Secret>, lower: Lower)
    requires Accepted(values, wanted, lower)
    ensures values.Keys == Declared(wanted)
  {
  }

  lemma ComplaintKinds(values: Values, wanted: seq<Secret>, lower: Lower)
    ensures var r := Validate(values, wanted, lower);
            r.Err? ==> (r.error == KeysDiffer <==> values.Keys != set s | s in wanted :: s.key)
  {
    assert Declared(wanted) == set s | s in wanted :: s.key;
    if values.Keys == Declared(wanted) { NoKeyComplaint(values, wanted, lower); }
  }

  lemma {:induction false} NoKeyComplaint(values: Values, wanted: seq<Secret>, lower: Lower)
    requires forall s | s in wanted :: s.key in values
    ensures ComplaintFrom(values, wanted, lower) != Some(KeysDiffer)
  {
    if wanted != [] {
      assert forall s | s in wanted[1..] :: s in wanted;
      NoKeyComplaint(values, wanted[1..], lower);
    }
  }

  lemma WriteTwice(dir: Directory, destination: string, content: string)
    requires Universal(content) == content && WriteAtomically(dir, destination, content).Ok?
    ensures var dir' := WriteAtomically(dir, destination, content).value.0;
            Writable(dir', destination) && WriteAtomically(dir', destination, content) == Ok((dir', Unchanged))
  {
    hide Universal;
  }

  lemma MaterializedIsWritten(dir: Directory, consumers: map<string, Consumer>, name: string, fetched: Values,
                              lower: Lower)
    requires Materialize(dir, consumers, name, fetched, lower).1.Ok?
    ensures Accepted(fetched, consumers[name].secrets, lower)
    ensures var w := WriteAtomically(dir, consumers[name].destination, Render(fetched, consumers[name].secrets));
            var (dir', r) := Materialize(dir, consumers, name, fetched, lower);
            w == Ok((dir', r.value.outcome)) && r.value.valueChanged == (r.value.outcome == Written)
  {
    hide Render, Universal, WriteAtomically, Inspect, Accepted;
    var consumer := consumers[name];
    assert Validate(fetched, consumer.secrets, lower).Ok?;
    var w := WriteAtomically(dir, consumer.destination, Render(fetched, consumer.secrets));
    assert w.Ok?;
    assert w.value == (w.value.0, w.value.1);
  }

  /** Materializing again over an intact credential is `unchanged` exactly when the values
      are the same. */
  lemma {:induction false} RematerializeUnchangedIff(dir: Directory, consumers: map<string, Consumer>, name: string,
                                  v: Values, w: Values, lower: Lower)
    requires WellFormed(consumers)
    requires Materialize(dir, consumers, name, v, lower).1.Ok?
    requires name in consumers && Accepted(w, consumers[name].secrets, lower)
    ensures var dir' := Materialize(dir, consumers, name, v, lower).0;
            var again := Materialize(dir', consumers, name, w, lower).1;
            again.Ok? && (again.value.outcome == Unchanged <==> v == w) && again.value.valueChanged == (v != w)
  {
    hide Accepted, Render, Universal, WriteAtomically, Load, Writable, Materialize, WellDeclared;
    var consumer, dir' := consumers[name], Materialize(dir, consumers, name, v, lower).0;
    MaterializeMeaning(dir, consumers, name, v, lower);
    MaterializedIsWritten(dir, consumers, name, v, lower);
    PrintedIsPlain(v, consumer.secrets, lower);
    assert Validate(v, consumer.secrets, lower).Ok?;
    WriteTwice(dir, consumer.destination, Render(v, consumer.secrets));
    MaterializeMeaning(dir', consumers, name, w, lower);
    MaterializedIsWritten(dir', consumers, name, w, lower);
  }

  lemma WriteTouchesOnly(dir: Directory, destination: string, content: string, other: string)
    requires WriteAtomically(dir, destination, content).Ok? && other != destination
    ensures var dir' := WriteAtomically(dir, destination, content).value.0;
            dir'.linked == dir.linked && Lookup(dir'.files, other) == Lookup(dir.files, other)
  {
    hide Universal;
  }

  /** Materializing one consumer leaves what another one loads, as long as they do not
      share a destination. */
  lemma {:induction false} OthersUntouched(dir: Directory, consumers: map<string, Consumer>, name: string,
                                           other: string,
                        fetched: Values, lower: Lower)
    requires name in consumers && other in consumers && consumers[name].destination != consumers[other].destination
    ensures Load(Materialize(dir, consumers, name, fetched, lower).0, consumers, other) == Load(dir, consumers, other)
    ensures Writable(Materialize(dir, consumers, name, fetched, lower).0, consumers[other].destination)
            == Writable(dir, consumers[other].destination)
  {
    hide Render, Accepted, Universal, WriteAtomically, Inspect, Load;
    var consumer := consumers[name];
    if Validate(fetched, consumer.secrets, lower).Ok? {
      var content := Render(fetched, consumer.secrets);
      if WriteAtomically(dir, consumer.destination, content).Ok? {
        WriteTouchesOnly(dir, consumer.destination, content, consumers[other].destination);
        SameFileSameLoad(dir, WriteAtomically(dir, consumer.destination, content).value.0, consumers, other);
      }
    }
  }

  /** What a consumer loads depends on its own file only. */
  lemma SameFileSameLoad(d: Directory, e: Directory, consumers: map<string, Consumer>, name: string)
    requires name in consumers && d.linked == e.linked
    requires Lookup(d.files, consumers[name].destination) == Lookup(e.files, consumers[name].destination)
    ensures Load(d, consumers, name) == Load(e, consumers, name)
    ensures Writable(d, consumers[name].destination) == Writable(e, consumers[name].destination)
  {
    hide ReadKeys, ReadValues, SplitLines, Universal, Declared;
    var destination := consumers[name].destination;
    assert destination in d.files <==> destination in e.files;
    assert destination in d.files ==> d.files[destination] == e.files[destination];
  }

  /** Nothing forbids two consumers the same destination; the other one then loads the
      new values when it declares the same keys, and is locked out otherwise. */
  lemma {:induction false} SharedDestination(dir: Directory, consumers: map<string, Consumer>, name: string,
                                             other: string,
                          fetched: Values, lower: Lower)
    requires WellFormed(consumers) && name in consumers && other in consumers
    requires consumers[name].destination == consumers[other].destination
    requires Materialize(dir, consumers, name, fetched, lower).1.Ok?
    ensures Load(Materialize(dir, consumers, name, fetched, lower).0, consumers, other)
            == if Declared(consumers[other].secrets) == Declared(consumers[name].secrets)
            then Ok(fetched) else Err(Unsafe)
  {
    var dir' := Materialize(dir, consumers, name, fetched, lower).0;
    MaterializeMeaning(dir, consumers, name, fetched, lower);
    LoadedKeysAreDeclared(dir', consumers, name);
    hide Materialize, ReadKeys, ReadValues, SplitLines, Universal, Declared, WellDeclared;
    SafeIff(dir', consumers[name].destination, consumers[name].secrets);
    SafeIff(dir', consumers[other].destination, consumers[other].secrets);
  }

  /** A 0600 file of another owner that holds accepted values is reported safe and is loaded,
      though not as owner-only, and materializing over it is refused. A process must be able
      to read it, so this is for root. */
  lemma {:induction false} UnownedCredentialLoads(dir: Directory, consumers: map<string, Consumer>, name: string,
                                                  values: Values, lower: Lower)
    requires WellFormed(consumers) && name in consumers && Accepted(values, consumers[name].secrets, lower)
    requires Lookup(dir.files, consumers[name].destination)
             == Some(File(false, true, false, OPERATOR_ONLY, Render(values, consumers[name].secrets)))
    ensures var consumer := consumers[name];
            var report := Inspect(dir, consumer.destination, consumer.secrets);
            && report.safe && !report.ownerOnly && Load(dir, consumers, name) == Ok(values)
            && Materialize(dir, consumers, name, values, lower).1.Err?
  {
    hide Render, Accepted, Universal, SplitLines, ReadKeys, ReadValues, Declared, Materialize;
    var consumer := consumers[name];
    assert WellDeclared(consumer.secrets);
    RoundTrip(values, consumer.secrets, lower);
    PrintedKeysAreDeclared(values, consumer.secrets, lower);
    SafeIff(dir, consumer.destination, consumer.secrets);
    MaterializeMeaning(dir, consumers, name, values, lower);
  }

  // ----- whole runs ----------------------------------------------------------------------

  datatype Rotation = Rotation(name: string, fetched: Values)

  function AfterRotations(dir: Directory, consumers: map<string, Consumer>, rotations: seq<Rotation>,
                          lower: Lower): Directory {
    if rotations == [] then dir
    else
      var last := rotations[|rotations| - 1];
      var before := AfterRotations(dir, consumers, rotations[..|rotations| - 1], lower);
      Materialize(before, consumers, last.name, last.fetched, lower).0
  }

  predicate OwnDestinations(consumers: map<string, Consumer>) {
    forall a, b | a in consumers && b in consumers && a != b :: consumers[a].destination != consumers[b].destination
  }

  /** The values last accepted for a consumer, if any. */
  function LastAccepted(consumers: map<string, Consumer>, rotations: seq<Rotation>, name: string,
                        lower: Lower): Option<Values>
    requires name in consumers
  {
    if rotations == [] then None
    else
      var last := rotations[|rotations| - 1];
      if last.name == name && Accepted(last.fetched, consumers[name].secrets, lower) then Some(last.fetched)
      else LastAccepted(consumers, rotations[..|rotations| - 1], name, lower)
  }

  /** Over every run of materializations and rotations, successful or not, a consumer with
      a writable destination of its own loads the values last accepted for it. */
  lemma {:induction false} LoadsLastAccepted(dir: Directory, consumers: map<string, Consumer>, rotations: seq<Rotation>,
                                             name: string, lower: Lower)
    requires WellFormed(consumers) && OwnDestinations(consumers)
    requires name in consumers && Writable(dir, consumers[name].destination)
    ensures var end := AfterRotations(dir, consumers, rotations, lower);
            var kept := LastAccepted(consumers, rotations, name, lower);
            && Writable(end, consumers[name].destination)
            && Load(end, consumers, name) == if kept.Some? then Ok(kept.value) else Load(dir, consumers, name)
  {
    hide Accepted, WellDeclared, Writable, Load, Materialize;
    if rotations != [] {
      var init, last := rotations[..|rotations| - 1], rotations[|rotations| - 1];
      var before := AfterRotations(dir, consumers, init, lower);
      LoadsLastAccepted(dir, consumers, init, name, lower);
      MaterializeMeaning(before, consumers, last.name, last.fetched, lower);
      if last.name == name {
        StaysWritable(before, consumers, name, last.fetched, lower);
      } else if last.name in consumers {
        OthersUntouched(before, consumers, last.name, name, last.fetched, lower);
      }
    }
  }

  lemma StaysWritable(dir: Directory, consumers: map<string, Consumer>, name: string, fetched: Values, lower: Lower)
    requires name in consumers && Writable(dir, consumers[name].destination)
    ensures Writable(Materialize(dir, consumers, name, fetched, lower).0, consumers[name].destination)
  {
    hide Validate, Render, Universal, Inspect;
  }

  // ----- the child's environment ------------------------------------------------------------

  const BOOTSTRAP_VARIABLES: set<string> := {"BWS_ACCESS_TOKEN", "BWS_SERVER_URL", "BWS_IDENTITY_URL",
                                             "BW_SESSION", "SECRETSPEC_PROVIDER"}

  function AllDeclared(consumers: map<string, Consumer>): (keys: set<string>)
    ensures forall k :: k in keys <==> exists name :: name in consumers && k in Declared(consumers[name].secrets)
  {
    set name, k | name in consumers && k in Declared(consumers[name].secrets) :: k
  }

  /** What `run` hands to the process it becomes. */
  function ChildEnvironment(dir: Directory, consumers: map<string, Consumer>, name: string, environ: Values):
    Result<Values, Problem>
  {
    var loaded := Load(dir, consumers, name);
    if loaded.Err? then loaded
    else
      var withheld := BOOTSTRAP_VARIABLES + AllDeclared(consumers);
      Ok((map k | k in environ && k !in withheld :: environ[k]) + loaded.value)
  }

  /** The process sees its own declared values from its credential file, none of any other
      consumer's keys, no manager variable of the operator's shell, and everything else
      as the operator has it. */
  lemma {:induction false} ChildSees(dir: Directory, consumers: map<string, Consumer>, name: string, environ: Values)
    requires name in consumers && ChildEnvironment(dir, consumers, name, environ).Ok?
    ensures var child, own := ChildEnvironment(dir, consumers, name, environ).value, Declared(consumers[name].secrets);
            && (forall k | k in own :: k in child && Lookup(child, k) == Lookup(Load(dir, consumers, name).value, k))
            && (forall k | k in BOOTSTRAP_VARIABLES + AllDeclared(consumers) && k !in own :: k !in child)
            && (forall k | k !in BOOTSTRAP_VARIABLES + AllDeclared(consumers) :: Lookup(child, k) == Lookup(environ, k))
  {
    hide Load, Declared, AllDeclared;
    LoadedKeysAreDeclared(dir, consumers, name);
    OwnAreDeclared(dir, consumers, name);
  }

  lemma OwnAreDeclared(dir: Directory, consumers: map<string, Consumer>, name: string)
    requires Load(dir, consumers, name).Ok?
    ensures name in consumers && Declared(consumers[name].secrets) <= AllDeclared(consumers)
  {
  }

  /** What the operator's shell exports under a declared or manager name never matters. */
  lemma {:induction false} ChildIgnoresExportedSecrets(dir: Directory, consumers: map<string, Consumer>,
                                                       name: string, e: Values, f: Values)
    requires forall k | k !in BOOTSTRAP_VARIABLES + AllDeclared(consumers) :: Lookup(e, k) == Lookup(f, k)
    ensures ChildEnvironment(dir, consumers, name, e) == ChildEnvironment(dir, consumers, name, f)
  {
    hide Load, AllDeclared;
    var withheld := BOOTSTRAP_VARIABLES + AllDeclared(consumers);
    forall k | k !in withheld ensures (k in e) == (k in f) && (k in e ==> e[k] == f[k]) {
      assert Lookup(e, k) == Lookup(f, k);
    }
    assert (map k | k in e && k !in withheld :: e[k]) == (map k | k in f && k !in withheld :: f[k]);
  }

  /** A manager variable reaches the process exactly when the consumer itself declares a
      secret of that name. */
  lemma {:induction false} ManagerVariableReachesIff(dir: Directory, consumers: map<string, Consumer>, name: string,
                                                     environ: Values, key: string)
    requires name in consumers && ChildEnvironment(dir, consumers, name, environ).Ok? && key in BOOTSTRAP_VARIABLES
    ensures key in ChildEnvironment(dir, consumers, name, environ).value <==> key in Declared(consumers[name].secrets)
  {
    hide Load, Declared, AllDeclared;
    ChildSees(dir, consumers, name, environ);
  }

  // ----- the directory in place -------------------------------------------------------------

  /** The operator's credential directory, which materializing changes in place. */
  class CredentialDirectory {
    const linked: bool
    const consumers: map<string, Consumer>
    var files: map<string, Node>

    function State(): Directory
      reads this
    {
      Directory(linked, files)
    }

    constructor (linked: bool, consumers: map<string, Consumer>, files: map<string, Node>)
      ensures State() == Directory(linked, files) && this.consumers == consumers
    {
      this.linked, this.consumers, this.files := linked, consumers, files;
    }

    /** `write_atomically` */
    method Write(destination: string, content: string) returns (r: Result<Outcome, Problem>)
      modifies this`files
      ensures var w := WriteAtomically(old(State()), destination, content);
              && (w.Err? ==> r == Err(w.error) && State() == old(State()))
              && (w.Ok? ==> r == Ok(w.value.1) && State() == w.value.0)
    {
      hide Universal;
      if linked { return Err(LinkedPath); }
      if destination in files {
        var node := files[destination];
        if node.Dangling? || node.linked { return Err(LinkedPath); }
        if !node.regular || !node.owned { return Err(NotOwnedRegularFile); }
        if Universal(node.text) == content && node.mode == OPERATOR_ONLY { return Ok(Unchanged); }
      }
      files := files[destination := File(false, true, true, OPERATOR_ONLY, content)];
      r := Ok(Written);
    }

    /** `materialize` */
    method MaterializeConsumer(name: string, fetched: Values, lower: Lower) returns (r: Result<Materialized, Problem>)
      modifies this`files
      ensures (State(), r) == Materialize(old(State()), consumers, name, fetched, lower)
    {
      hide Validate, Render, WriteAtomically, Inspect;
      if name !in consumers { return Err(UnknownConsumer); }
      var consumer := consumers[name];
      var checked := ValidateValues(fetched, consumer.secrets, lower);
      if checked.Err? { return Err(checked.error); }
      var written := Write(consumer.destination, Render(fetched, consumer.secrets));
      if written.Err? { return Err(written.error); }
      var report := Inspect(State(), consumer.destination, consumer.secrets);
      if !report.safe { return Err(FailedVerification); }
      var changed := written.value == Written;
      r := Ok(Materialized(written.value, changed, changed && consumer.service != "", report));
    }

    /** `load` */
    method LoadConsumer(name: string) returns (r: Result<Values, Problem>)
      ensures r == Load(State(), consumers, name)
      ensures r.Ok? ==> r.value.Keys == Declared(consumers[name].secrets)
    {
      hide Inspect, ReadValues, ReadKeys, SplitLines, Universal;
      if name !in consumers { return Err(UnknownConsumer); }
      var consumer := consumers[name];
      var report := Inspect(State(), consumer.destination, consumer.secrets);
      if !report.present { return Err(NotMaterialized); }
      if !report.safe { return Err(Unsafe); }
      SafeIff(State(), consumer.destination, consumer.secrets);
      var values := ReadValuesLoop(SplitLines(Universal(files[consumer.destination].text)));
      r := Ok(values);
    }
  }
}
