/** Strings as the experiments use them: Python's ordering and substring test,
    UTF-8 lengths, decimal numerals and the `owner::local` write namespace. */
module Text {

  datatype Option<+T> = None | Some(value: T)

  datatype Result<+T, +E> = Ok(value: T) | Err(error: E)

  function Lookup<K, V>(m: map<K, V>, k: K): (o: Option<V>)
    ensures o.Some? <==> k in m
    ensures o.Some? ==> o.value == m[k]
  {
    if k in m then Some(m[k]) else None
  }

  // ----- ordering ---------------------------------------------------------

  /** Lexicographic order by code point, the order `sorted` uses on `str`. */
  predicate Le(a: string, b: string) {
    a == [] || (b != [] && (a[0] < b[0] || (a[0] == b[0] && Le(a[1..], b[1..]))))
  }

  lemma LeTotal(a: string, b: string)
    ensures Le(a, b) || Le(b, a)
  {
  }

  lemma LeReflexive(a: string)
    ensures Le(a, a)
  {
  }

  lemma {:induction false} LeAntisymmetric(a: string, b: string)
    requires Le(a, b) && Le(b, a)
    ensures a == b
  {
    if a != [] {
      LeAntisymmetric(a[1..], b[1..]);
      assert a == [a[0]] + a[1..] && b == [b[0]] + b[1..];
    }
  }

  lemma {:induction false} LeTransitive(a: string, b: string, c: string)
    requires Le(a, b) && Le(b, c)
    ensures Le(a, c)
  {
    if a != [] && a[0] == b[0] && b[0] == c[0] {
      LeTransitive(a[1..], b[1..], c[1..]);
    }
  }

  lemma {:induction false} LeastExists(s: set<string>) returns (m: string)
    requires s != {}
    ensures m in s && forall x | x in s :: Le(m, x)
  {
    var y :| y in s;
    if s == {y} {
      m := y;
      LeReflexive(y);
    } else {
      var rest := LeastExists(s - {y});
      LeTotal(rest, y);
      LeReflexive(y);
      m := if Le(rest, y) then rest else y;
      forall x | x in s ensures Le(m, x) {
        if x != y && m == y { LeTransitive(y, rest, x); }
      }
    }
  }

  function Least(s: set<string>): (m: string)
    requires s != {}
    ensures m in s && forall x | x in s :: Le(m, x)
  {
    assert exists m :: m in s && forall x | x in s :: Le(m, x) by {
      var m := LeastExists(s);
    }
    assert forall a, b | && a in s && b in s && (forall x | x in s :: Le(a, x))
                         && (forall x | x in s :: Le(b, x)) :: a == b by {
      forall a, b | a in s && b in s && (forall x | x in s :: Le(a, x)) && (forall x | x in s :: Le(b, x))
        ensures a == b
      {
        LeAntisymmetric(a, b);
      }
    }
    var m :| m in s && forall x | x in s :: Le(m, x);
    m
  }

  /** The members in increasing order. */
  function Ordered(s: set<string>): (r: seq<string>)
    ensures |r| == |s|
    ensures forall x :: x in r <==> x in s
    ensures forall i, j {:trigger Le(r[i], r[j])} | 0 <= i < j < |r| :: Le(r[i], r[j])
    ensures forall i, j | 0 <= i < j < |r| :: r[i] != r[j]
  {
    if s == {} then []
    else
      var m := Least(s);
      [m] + Ordered(s - {m})
  }

  // ----- substrings -------------------------------------------------------

  predicate OccursAt(hay: string, needle: string, i: nat) {
    i + |needle| <= |hay| && hay[i..i + |needle|] == needle
  }

  /** Python's `needle in hay`. */
  predicate Contains(hay: string, needle: string) {
    exists i | 0 <= i <= |hay| :: OccursAt(hay, needle, i)
  }

  // ----- sizes and numerals -----------------------------------------------

  function CharBytes(c: char): (n: nat)
    ensures 1 <= n <= 4
  {
    if c as int < 0x80 then 1
    else if c as int < 0x800 then 2
    else if c as int < 0x10000 then 3
    else 4
  }

  /** `len(s.encode('utf-8'))`. */
  function Utf8(s: string): (n: nat)
    ensures |s| <= n <= 4 * |s|
  {
    if s == [] then 0 else CharBytes(s[0]) + Utf8(s[1..])
  }

  lemma {:induction false} Utf8Concat(a: string, b: string)
    ensures Utf8(a + b) == Utf8(a) + Utf8(b)
  {
    if a == [] {
      assert a + b == b;
    } else {
      Utf8Concat(a[1..], b);
      assert (a + b)[1..] == a[1..] + b;
    }
  }

  function Digit(d: nat): (c: char)
    requires d < 10
    ensures '0' <= c <= '9'
    ensures c as int == '0' as int + d
  {
    (d + '0' as int) as char
  }

  /** `str(n)` for a natural number. */
  function Decimal(n: nat): (s: string)
    ensures s != []
    ensures forall c :: c in s ==> '0' <= c <= '9'
  {
    if n < 10 then [Digit(n)] else Decimal(n / 10) + [Digit(n % 10)]
  }

  lemma {:induction false} DecimalInjective(m: nat, n: nat)
    requires Decimal(m) == Decimal(n)
    ensures m == n
  {
    var s, t := Decimal(m), Decimal(n);
    assert s[|s| - 1] == Digit(m % 10) && t[|t| - 1] == Digit(n % 10);
    assert m % 10 == n % 10;
    assert |s| == 1 <==> m < 10;
    assert |t| == 1 <==> n < 10;
    if 10 <= m {
      assert s[..|s| - 1] == Decimal(m / 10) && t[..|t| - 1] == Decimal(n / 10);
      DecimalInjective(m / 10, n / 10);
    }
  }

  /** `str(i)` for any integer. */
  function Numeral(i: int): string {
    if i < 0 then "-" + Decimal(-i) else Decimal(i)
  }

  function Join(parts: seq<string>, sep: string): string {
    if |parts| == 0 then ""
    else if |parts| == 1 then parts[0]
    else parts[0] + sep + Join(parts[1..], sep)
  }

  lemma {:induction false} JoinContains(parts: seq<string>, sep: string, i: nat)
    requires i < |parts|
    ensures Contains(Join(parts, sep), parts[i])
  {
    var all := Join(parts, sep);
    if i == 0 {
      assert all[0..0 + |parts[0]|] == parts[0];
      assert OccursAt(all, parts[0], 0);
    } else {
      JoinContains(parts[1..], sep, i - 1);
      var rest, before := Join(parts[1..], sep), parts[0] + sep;
      var at :| 0 <= at <= |rest| && OccursAt(rest, parts[i], at);
      assert all == before + rest;
      assert all[|before| + at..|before| + at + |parts[i]|] == rest[at..at + |parts[i]|];
      assert OccursAt(all, parts[i], |before| + at);
    }
  }

  lemma ContainsBehind(before: string, hay: string, needle: string)
    requires Contains(hay, needle)
    ensures Contains(before + hay, needle)
  {
    var i :| 0 <= i <= |hay| && OccursAt(hay, needle, i);
    assert (before + hay)[|before|..] == hay;
    assert OccursAt(before + hay, needle, |before| + i);
  }

  // ----- the destination-owned namespace ----------------------------------

  const SEPARATOR := "::"

  /** `target + '::' + local`, the id every post-setup write is stored under. */
  function Key(owner: string, local: string): string {
    owner + SEPARATOR + local
  }

  predicate Qualified(id: string) {
    Contains(id, SEPARATOR)
  }

  lemma KeyQualified(owner: string, local: string)
    ensures Qualified(Key(owner, local))
  {
    assert OccursAt(Key(owner, local), SEPARATOR, |owner|);
  }

  lemma KeyLocalInjective(owner: string, a: string, b: string)
    requires Key(owner, a) == Key(owner, b)
    ensures a == b
  {
    assert Key(owner, a)[|owner| + 2..] == a;
    assert Key(owner, b)[|owner| + 2..] == b;
  }

  /** The local ids that are ever written: at most 80 bytes from a caller, or a number
      given by the gate or the desk, which holds no colon. */
  predicate LocalId(local: string) {
    local != "" && (Utf8(local) <= 80 || ':' !in local)
  }

  /** What `b::` has left after `a::`. */
  function Overhang(a: string, b: string): string
    requires a + SEPARATOR <= b + SEPARATOR
  {
    (b + SEPARATOR)[|a| + 2..]
  }

  /** Where one owner followed by the separator starts another, too much is left over
      for a local id. */
  predicate Separable(owners: set<string>) {
    forall a, b | a in owners && b in owners && a != b && a + SEPARATOR <= b + SEPARATOR :: Utf8(Overhang(a, b)) >= 80
  }

  /** Stored ids name their owner uniquely. */
  ghost predicate ParsesUniquely(owners: set<string>) {
    forall a, b, x, y | a in owners && b in owners && LocalId(x) && LocalId(y) && Key(a, x) == Key(b, y) ::
      a == b && x == y
  }

  lemma SharedKeyNestsOwners(a: string, x: string, b: string, y: string)
    requires Key(a, x) == Key(b, y) && |a| <= |b|
    ensures a + SEPARATOR <= b + SEPARATOR
  {
    var k := Key(a, x);
    assert k[..|a| + 2] == a + SEPARATOR && k[..|b| + 2] == b + SEPARATOR;
    assert (b + SEPARATOR)[..|a| + 2] == a + SEPARATOR;
  }

  /** The longer local id takes up what the longer owner has left. */
  lemma LongerLocal(a: string, x: string, b: string, y: string)
    requires Key(a, x) == Key(b, y) && |a| <= |b|
    ensures a + SEPARATOR <= b + SEPARATOR && x == Overhang(a, b) + y
    ensures |a| == |b| ==> a == b
    ensures |a| < |b| ==> ':' in x && Utf8(x) == Utf8(Overhang(a, b)) + Utf8(y)
  {
    SharedKeyNestsOwners(a, x, b, y);
    var k, rest := Key(a, x), Overhang(a, b);
    assert k[|a| + 2..] == x && k[|b| + 2..] == y && k[|a| + 2..|b| + 2] == rest;
    assert k[..|a|] == a && k[..|b|] == b;
    Utf8Concat(rest, y);
    if |a| < |b| { assert rest[|rest| - 1] == ':' && x[|rest| - 1] == ':'; }
  }

  lemma KeyOwner(owners: set<string>, a: string, x: string, b: string, y: string)
    requires Separable(owners) && a in owners && b in owners && LocalId(x) && LocalId(y)
    requires Key(a, x) == Key(b, y)
    ensures a == b && x == y
  {
    if |a| <= |b| {
      LongerLocal(a, x, b, y);
    } else {
      LongerLocal(b, y, a, x);
    }
    assert a == b;
    KeyLocalInjective(a, x, y);
  }

  /** Two owners with little left between them share the key of accepted local ids. */
  lemma NestedOwnersShareKey(a: string, b: string)
    requires a + SEPARATOR <= b + SEPARATOR && a != b && Utf8(Overhang(a, b)) < 80
    ensures LocalId("x") && LocalId(Overhang(a, b) + "x") && Utf8(Overhang(a, b) + "x") <= 80
    ensures Key(a, Overhang(a, b) + "x") == Key(b, "x")
  {
    Utf8Concat(Overhang(a, b), "x");
    assert Utf8("x") == 1;
    assert a + SEPARATOR + Overhang(a, b) == b + SEPARATOR;
  }

  /** The namespace is unambiguous exactly when the owners are separable: the code
      itself only bans the separator in setup entry and derived ids. */
  lemma UniqueParseIffSeparable(owners: set<string>)
    ensures ParsesUniquely(owners) <==> Separable(owners)
  {
    if Separable(owners) {
      forall a, b, x, y | a in owners && b in owners && LocalId(x) && LocalId(y) && Key(a, x) == Key(b, y)
        ensures a == b && x == y
      {
        KeyOwner(owners, a, x, b, y);
      }
    } else {
      var a, b :| && a in owners && b in owners && a != b && a + SEPARATOR <= b + SEPARATOR
                  && Utf8(Overhang(a, b)) < 80;
      NestedOwnersShareKey(a, b);
    }
  }

  lemma NestedOwnerHasColon(a: string, b: string)
    requires a + SEPARATOR <= b + SEPARATOR
    ensures a == b || ':' in b
  {
    var c := b + SEPARATOR;
    assert c[|a|] == (a + SEPARATOR)[|a|] == ':';
    if |a| < |b| {
      assert c[|a|] == b[|a|];
    } else {
      assert a == c[..|a|] == b;
    }
  }

  lemma ColonFreeIsSeparable(owners: set<string>)
    requires forall o | o in owners :: ':' !in o
    ensures Separable(owners)
  {
    forall a, b | a in owners && b in owners && a + SEPARATOR <= b + SEPARATOR
      ensures a == b
    {
      NestedOwnerHasColon(a, b);
    }
  }

  /** A long name can nest without any ambiguity: no local id reaches across it. */
  lemma LongNamesAreSeparable(tail: string)
    requires |tail| >= 78
    ensures Separable({"a", "a::" + tail})
  {
    var long := "a::" + tail;
    if "a" + SEPARATOR <= long + SEPARATOR { assert Overhang("a", long) == tail + SEPARATOR; }
    assert !(long + SEPARATOR <= "a" + SEPARATOR);
  }

  /** Two legal context names for which the ids collide. */
  lemma ColonNamesCollide()
    ensures !Separable({"a", "a::b"})
    ensures Key("a", "b::x") == Key("a::b", "x") && LocalId("b::x") && LocalId("x")
  {
    assert "a" + SEPARATOR <= "a::b" + SEPARATOR;
    assert Overhang("a", "a::b") == "b::";
    assert "a" in {"a", "a::b"} && "a::b" in {"a", "a::b"};
  }

  // ----- least-free numbering ---------------------------------------------

  /** `prefix + str(n)`. */
  function Numbered(prefix: string, n: nat): string {
    prefix + Decimal(n)
  }

  lemma NumberedInjective(prefix: string, m: nat, n: nat)
    requires Numbered(prefix, m) == Numbered(prefix, n)
    ensures m == n
  {
    assert Numbered(prefix, m)[|prefix|..] == Decimal(m);
    assert Numbered(prefix, n)[|prefix|..] == Decimal(n);
    DecimalInjective(m, n);
  }

  /** The ids tried before `n`: all taken, all different. */
  ghost predicate TakenBelow(taken: set<string>, prefix: string, n: nat) {
    forall k | 1 <= k < n :: Numbered(prefix, k) in taken
  }

  /** Pigeonhole: the search has tried at most as many ids as are taken. */
  lemma {:induction false} TriedAtMostTaken(taken: set<string>, prefix: string, n: nat)
    requires 1 <= n && TakenBelow(taken, prefix, n)
    ensures n - 1 <= |taken|
  {
    if n > 1 {
      var last := Numbered(prefix, n - 1);
      forall k | 1 <= k < n - 1
        ensures Numbered(prefix, k) in taken - {last}
      {
        if Numbered(prefix, k) == last { NumberedInjective(prefix, k, n - 1); }
      }
      TriedAtMostTaken(taken - {last}, prefix, n - 1);
    }
  }

  ghost predicate LeastFree(taken: set<string>, prefix: string, n: nat) {
    1 <= n && Numbered(prefix, n) !in taken && TakenBelow(taken, prefix, n)
  }

  function FirstFreeFrom(taken: set<string>, prefix: string, n: nat): (r: nat)
    requires 1 <= n && TakenBelow(taken, prefix, n)
    ensures LeastFree(taken, prefix, r)
    decreases |taken| + 1 - n
  {
    TriedAtMostTaken(taken, prefix, n);
    if Numbered(prefix, n) !in taken then n
    else
      assert TakenBelow(taken, prefix, n + 1);
      TriedAtMostTaken(taken, prefix, n + 1);
      FirstFreeFrom(taken, prefix, n + 1)
  }

  function FirstFree(taken: set<string>, prefix: string): (r: nat)
    ensures LeastFree(taken, prefix, r)
  {
    FirstFreeFrom(taken, prefix, 1)
  }

  lemma LeastFreeUnique(taken: set<string>, prefix: string, m: nat, n: nat)
    requires LeastFree(taken, prefix, m) && LeastFree(taken, prefix, n)
    ensures m == n
  {
  }

  /** The counting loop `n = 1; while prefix + str(n) in taken: n += 1`. */
  method SearchFree(taken: set<string>, prefix: string) returns (n: nat)
    ensures LeastFree(taken, prefix, n)
    ensures n == FirstFree(taken, prefix)
  {
    n := 1;
    while Numbered(prefix, n) in taken
      invariant 1 <= n && TakenBelow(taken, prefix, n)
      decreases |taken| + 1 - n
    {
      TriedAtMostTaken(taken, prefix, n + 1);
      n := n + 1;
    }
    LeastFreeUnique(taken, prefix, n, FirstFree(taken, prefix));
  }
}
