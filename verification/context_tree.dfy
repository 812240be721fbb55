/** The context tree: structural validation, readable lineage, issued bindings and
    an append-only entry store. */
module ContextTrees {
  import opened Text
  import opened Records

  datatype ContextNode = ContextNode(id: string, parent: Option<string>, kind: string, inherit: bool)

  datatype ScopedEntry = ScopedEntry(id: string, contextId: string, content: Payload)

  type Nodes = map<string, ContextNode>

  datatype Rejection = InvalidNode | DuplicateContextId | SelfParent | MissingParent | Cycle | RootCount
                     | InvalidEntry | UnknownEntryContext | DuplicateEntryId
                     | UnknownContext | UntrustedBinding | InvalidRequest | NotVisible
                     | InvalidExecution | InvalidCaller | InvalidMemoryFixture
                     | ReservedFixtureId | InvalidDerivation

  // ----- rooted trees -------------------------------------------------------

  /** `path` climbs from `start` to a node without parent, one parent link a step. */
  ghost predicate RootPath(nodes: Nodes, start: string, path: seq<string>) {
    && path != [] && path[0] == start
    && (forall i | 0 <= i < |path| :: path[i] in nodes)
    && (forall i | 0 <= i < |path| - 1 :: nodes[path[i]].parent == Some(path[i + 1]))
    && nodes[path[|path| - 1]].parent == None
  }

  ghost predicate Reaches(nodes: Nodes, start: string, root: string) {
    exists path :: RootPath(nodes, start, path) && path[|path| - 1] == root
  }

  /** One node without parent, reached from every node. */
  ghost predicate RootedTree(nodes: Nodes) {
    exists root :: root in nodes && AllReach(nodes, root)
  }

  ghost predicate Climbs(nodes: Nodes, start: string) {
    exists path :: RootPath(nodes, start, path)
  }

  ghost predicate AllClimb(nodes: Nodes) {
    forall n {:trigger Climbs(nodes, n)} | n in nodes :: Climbs(nodes, n)
  }

  ghost predicate AllReach(nodes: Nodes, root: string) {
    forall n {:trigger Reaches(nodes, n, root)} | n in nodes :: Reaches(nodes, n, root)
  }

  predicate Root(nodes: Nodes, n: string) {
    n in nodes && nodes[n].parent == None
  }

  function Roots(nodes: Nodes): set<string> {
    set n | n in nodes && Root(nodes, n)
  }

  lemma {:induction false} RootPathUnique(nodes: Nodes, start: string, p: seq<string>, q: seq<string>)
    requires RootPath(nodes, start, p) && RootPath(nodes, start, q)
    ensures p == q
    decreases |p|
  {
    assert |p| > 1 ==> nodes[p[0]].parent == Some(p[0 + 1]);
    assert |q| > 1 ==> nodes[q[0]].parent == Some(q[0 + 1]);
    if |p| > 1 && |q| > 1 {
      RootPathUnique(nodes, p[1], p[1..], q[1..]);
      assert p == [p[0]] + p[1..] && q == [q[0]] + q[1..];
    }
  }

  lemma RootPathSuffix(nodes: Nodes, start: string, p: seq<string>, i: nat)
    requires RootPath(nodes, start, p) && i < |p|
    ensures RootPath(nodes, p[i], p[i..])
  {
  }

  /** A climb never visits a node twice. */
  lemma RootPathDistinct(nodes: Nodes, start: string, p: seq<string>, i: nat, j: nat)
    requires RootPath(nodes, start, p) && i < |p| && j < |p| && p[i] == p[j]
    ensures i == j
  {
    RootPathSuffix(nodes, start, p, i);
    RootPathSuffix(nodes, start, p, j);
    RootPathUnique(nodes, p[i], p[i..], p[j..]);
    assert |p[i..]| == |p[j..]|;
  }

  lemma RootPathLength(nodes: Nodes, start: string, p: seq<string>)
    requires RootPath(nodes, start, p)
    ensures |p| <= |nodes|
  {
    forall i, j | 0 <= i < j < |p| ensures p[i] != p[j] {
      if p[i] == p[j] { RootPathDistinct(nodes, start, p, i, j); }
    }
    DistinctWithin(p, nodes.Keys);
  }

  lemma {:induction false} DistinctWithin(p: seq<string>, s: set<string>)
    requires forall i, j | 0 <= i < j < |p| :: p[i] != p[j]
    requires forall i | 0 <= i < |p| :: p[i] in s
    ensures |p| <= |s|
  {
    if p != [] {
      DistinctWithin(p[1..], s - {p[0]});
    }
  }

  lemma RootIsUnique(nodes: Nodes, r: string)
    requires r in nodes && AllReach(nodes, r)
    ensures Roots(nodes) == {r}
  {
    assert Reaches(nodes, r, r);
    var p :| RootPath(nodes, r, p) && p[|p| - 1] == r;
    forall n | Root(nodes, n) ensures n == r {
      assert Reaches(nodes, n, r);
      var q :| RootPath(nodes, n, q) && q[|q| - 1] == r;
      RootPathUnique(nodes, n, q, [n]);
    }
  }

  /** Every climb ends and there is one root: the two checks of the constructor. */
  lemma {:induction false} TreeIffClimbsToOneRoot(nodes: Nodes)
    ensures RootedTree(nodes) <==> AllClimb(nodes) && |Roots(nodes)| == 1
  {
    if RootedTree(nodes) { TreeClimbs(nodes); }
    if AllClimb(nodes) && |Roots(nodes)| == 1 {
      var r :| r in Roots(nodes);
      OneRootIsReached(nodes, r);
    }
  }

  lemma OneRootIsReached(nodes: Nodes, r: string)
    requires AllClimb(nodes) && |Roots(nodes)| == 1 && r in Roots(nodes)
    ensures AllReach(nodes, r)
  {
    forall n | n in nodes ensures Reaches(nodes, n, r) {
      ClimbEndsAtOnlyRoot(nodes, n, r);
    }
  }

  lemma TreeClimbs(nodes: Nodes)
    requires RootedTree(nodes)
    ensures AllClimb(nodes) && |Roots(nodes)| == 1
  {
    var r :| r in nodes && AllReach(nodes, r);
    RootIsUnique(nodes, r);
    forall n | n in nodes ensures Climbs(nodes, n) {
      assert Reaches(nodes, n, r);
    }
  }

  lemma ClimbEndsAtOnlyRoot(nodes: Nodes, n: string, r: string)
    requires Climbs(nodes, n) && |Roots(nodes)| == 1 && r in Roots(nodes)
    ensures Reaches(nodes, n, r)
  {
    var p :| RootPath(nodes, n, p);
    assert Root(nodes, p[|p| - 1]);
    SingletonMember(Roots(nodes), r, p[|p| - 1]);
  }

  lemma SingletonMember(s: set<string>, a: string, b: string)
    requires |s| == 1 && a in s && b in s
    ensures a == b
  {
    if a != b {
      assert {a, b} <= s;
      SubsetSize({a, b}, s);
    }
  }

  lemma {:induction false} SubsetSize<T>(a: set<T>, b: set<T>)
    requires a <= b
    ensures |a| <= |b|
  {
    if a != {} {
      var x :| x in a;
      SubsetSize(a - {x}, b - {x});
    }
  }

  // ----- validation of the node rows ----------------------------------------

  predicate ValidRow(row: ContextNode) {
    row.id != "" && row.parent != Some("")
  }

  ghost predicate UniqueIds(rows: seq<ContextNode>) {
    forall i, j | 0 <= i < j < |rows| :: rows[i].id != rows[j].id
  }

  function NodeMap(rows: seq<ContextNode>): (nodes: Nodes)
    ensures forall id :: id in nodes <==> exists i :: 0 <= i < |rows| && rows[i].id == id
    ensures forall id | id in nodes :: nodes[id] in rows && nodes[id].id == id
  {
    if rows == [] then map[]
    else
      var last := rows[|rows| - 1];
      NodeMap(rows[..|rows| - 1])[last.id := last]
  }

  /** What the constructor accepts, stated without its loops. */
  ghost predicate Acceptable(rows: seq<ContextNode>) {
    && (forall i | 0 <= i < |rows| :: ValidRow(rows[i]))
    && UniqueIds(rows)
    && RootedTree(NodeMap(rows))
  }

  ghost predicate ParentsPresent(nodes: Nodes) {
    forall n | n in nodes && nodes[n].parent.Some? ::
      nodes[n].parent.value != n && nodes[n].parent.value in nodes
  }

  ghost predicate OwnParent(rows: seq<ContextNode>) {
    exists i | 0 <= i < |rows| :: rows[i].parent == Some(rows[i].id)
  }

  ghost predicate UnknownParent(rows: seq<ContextNode>) {
    exists i | 0 <= i < |rows| && rows[i].parent.Some? ::
      forall k | 0 <= k < |rows| :: rows[k].id != rows[i].parent.value
  }

  lemma ClimbsNeedParents(nodes: Nodes)
    requires AllClimb(nodes)
    ensures ParentsPresent(nodes)
  {
    forall n | n in nodes && nodes[n].parent.Some?
      ensures nodes[n].parent.value != n && nodes[n].parent.value in nodes
    {
      assert Climbs(nodes, n);
      var p :| RootPath(nodes, n, p);
      assert p[1] == nodes[n].parent.value;
      if p[1] == n { RootPathDistinct(nodes, n, p, 0, 1); }
    }
  }

  /** One row after the other: shape, then duplicates. */
  method ParseRows(rows: seq<ContextNode>) returns (r: Result<Nodes, Rejection>)
    ensures r.Ok? <==> (forall i | 0 <= i < |rows| :: ValidRow(rows[i])) && UniqueIds(rows)
    ensures r.Ok? ==> r.value == NodeMap(rows)
    ensures r.Err? ==> r.error in {InvalidNode, DuplicateContextId}
    ensures r == Err(InvalidNode) ==> exists i | 0 <= i < |rows| :: !ValidRow(rows[i])
    ensures r == Err(DuplicateContextId) ==> !UniqueIds(rows)
  {
    var parsed: Nodes := map[];
    for i := 0 to |rows|
      invariant forall k | 0 <= k < i :: ValidRow(rows[k])
      invariant UniqueIds(rows[..i])
      invariant parsed == NodeMap(rows[..i])
    {
      if !ValidRow(rows[i]) { return Err(InvalidNode); }
      assert rows[..i + 1][..i] == rows[..i];
      if rows[i].id in parsed {
        ghost var k :| 0 <= k < |rows[..i]| && rows[..i][k].id == rows[i].id;
        return Err(DuplicateContextId);
      }
      parsed := parsed[rows[i].id := rows[i]];
    }
    assert rows[..|rows|] == rows;
    return Ok(parsed);
  }

  /** Each node in row order: own parent, then missing parent. */
  method CheckParents(rows: seq<ContextNode>, nodes: Nodes) returns (r: Option<Rejection>)
    requires nodes == NodeMap(rows) && UniqueIds(rows)
    ensures r == None <==> ParentsPresent(nodes)
    ensures r.Some? ==> r.value in {SelfParent, MissingParent}
    ensures r == Some(SelfParent) ==> OwnParent(rows)
    ensures r == Some(MissingParent) ==> UnknownParent(rows)
  {
    hide NodeMap;
    for i := 0 to |rows|
      invariant forall k | 0 <= k < i && rows[k].parent.Some? ::
                  rows[k].parent.value != rows[k].id && rows[k].parent.value in nodes
    {
      assert nodes[rows[i].id] == rows[i] by {
        var k :| 0 <= k < |rows| && rows[k] == nodes[rows[i].id];
        assert k == i;
      }
      if rows[i].parent == Some(rows[i].id) { return Some(SelfParent); }
      if rows[i].parent.Some? && rows[i].parent.value !in nodes { return Some(MissingParent); }
    }
    return None;
  }

  /** A climb that came back to a node it had left has no root path. */
  lemma RepeatNeverClimbs(nodes: Nodes, start: string, walk: seq<string>, i: nat)
    requires |walk| > 0 && walk[0] == start && i < |walk| - 1 && walk[i] == walk[|walk| - 1]
    requires forall k | 0 <= k < |walk| :: walk[k] in nodes
    requires forall k | 0 <= k < |walk| - 1 :: nodes[walk[k]].parent == Some(walk[k + 1])
    ensures !Climbs(nodes, start)
  {
    if Climbs(nodes, start) {
      var p :| RootPath(nodes, start, p);
      WalkIsPrefix(nodes, start, walk, p);
      RootPathDistinct(nodes, start, p, i, |walk| - 1);
    }
  }

  lemma {:induction false} WalkIsPrefix(nodes: Nodes, start: string, walk: seq<string>, p: seq<string>)
    requires RootPath(nodes, start, p)
    requires |walk| > 0 && walk[0] == start
    requires forall k | 0 <= k < |walk| :: walk[k] in nodes
    requires forall k | 0 <= k < |walk| - 1 :: nodes[walk[k]].parent == Some(walk[k + 1])
    ensures walk <= p
    decreases |walk|
  {
    if |walk| > 1 {
      assert nodes[walk[0]].parent == Some(walk[0 + 1]);
      assert |p| > 1 ==> nodes[p[0]].parent == Some(p[0 + 1]);
      RootPathSuffix(nodes, start, p, 1);
      WalkIsPrefix(nodes, walk[1], walk[1..], p[1..]);
      assert walk == [walk[0]] + walk[1..] && p == [p[0]] + p[1..];
    }
  }

  /** The inner loop: climb with a growing `seen` set. */
  method ClimbFrom(nodes: Nodes, start: string) returns (reached: bool)
    requires start in nodes && ParentsPresent(nodes)
    ensures reached <==> Climbs(nodes, start)
  {
    var seen: set<string> := {};
    var current := Some(start);
    ghost var walk: seq<string> := [];
    while current.Some?
      invariant current.Some? ==> current.value in nodes
      invariant forall x :: x in seen <==> x in walk
      invariant seen <= nodes.Keys
      invariant forall k | 0 <= k < |walk| :: walk[k] in nodes
      invariant forall k | 0 <= k < |walk| - 1 :: nodes[walk[k]].parent == Some(walk[k + 1])
      invariant walk != [] ==> walk[0] == start && nodes[walk[|walk| - 1]].parent == current
      invariant walk == [] ==> current == Some(start)
      decreases nodes.Keys - seen, current.Some?
    {
      if current.value in seen {
        ghost var i :| 0 <= i < |walk| && walk[i] == current.value;
        RepeatNeverClimbs(nodes, start, walk + [current.value], i);
        return false;
      }
      walk := walk + [current.value];
      seen := seen + {current.value};
      current := nodes[current.value].parent;
    }
    assert RootPath(nodes, start, walk);
    return true;
  }

  /** The outer loop over every start; the order does not matter, one code covers all. */
  method CheckCycles(rows: seq<ContextNode>, nodes: Nodes) returns (ok: bool)
    requires nodes == NodeMap(rows) && ParentsPresent(nodes)
    ensures ok <==> AllClimb(nodes)
  {
    hide NodeMap, Climbs, ParentsPresent;
    for i := 0 to |rows|
      invariant forall k | 0 <= k < i :: Climbs(nodes, rows[k].id)
    {
      var reached := ClimbFrom(nodes, rows[i].id);
      if !reached { return false; }
    }
    return true;
  }

  /** The structural half of `ContextTree.__init__`. Accepts exactly the unique,
      rooted trees; the inherit switches play no part. */
  method ValidateNodes(rows: seq<ContextNode>) returns (r: Result<Nodes, Rejection>)
    ensures r.Ok? <==> Acceptable(rows)
    ensures r.Ok? ==> r.value == NodeMap(rows)
    ensures r == Err(InvalidNode) ==> exists i | 0 <= i < |rows| :: !ValidRow(rows[i])
    ensures r == Err(DuplicateContextId) ==> !UniqueIds(rows)
    ensures r == Err(SelfParent) ==> OwnParent(rows)
    ensures r == Err(MissingParent) ==> UnknownParent(rows)
    ensures r.Err? && r.error in {SelfParent, MissingParent} ==> !ParentsPresent(NodeMap(rows))
    ensures r.Err? ==> r.error in {InvalidNode, DuplicateContextId, SelfParent, MissingParent, Cycle, RootCount}
    ensures r == Err(Cycle) ==> ParentsPresent(NodeMap(rows)) && !AllClimb(NodeMap(rows))
    ensures r == Err(RootCount) ==> AllClimb(NodeMap(rows)) && |Roots(NodeMap(rows))| != 1
  {
    ghost var all := NodeMap(rows);
    TreeIffClimbsToOneRoot(all);
    var parsed := ParseRows(rows);
    if parsed.Err? { return Err(parsed.error); }
    var nodes := parsed.value;
    var parents := CheckParents(rows, nodes);
    if parents.Some? {
      RefusedWithoutParents(all);
      return Err(parents.value);
    }
    var climbs := CheckCycles(rows, nodes);
    if !climbs { return Err(Cycle); }
    if |Roots(nodes)| != 1 { return Err(RootCount); }
    return Ok(nodes);
  }

  lemma RefusedWithoutParents(nodes: Nodes)
    requires !ParentsPresent(nodes)
    ensures !AllClimb(nodes)
  {
    if AllClimb(nodes) { ClimbsNeedParents(nodes); }
  }

  // ----- what acceptance does not depend on ---------------------------------

  ghost predicate UniqueRows(rows: multiset<ContextNode>) {
    && (forall x | x in rows :: rows[x] == 1)
    && (forall x, y | x in rows && y in rows && x.id == y.id :: x == y)
  }

  lemma {:induction false} UniqueIdsGiveUniqueRows(rows: seq<ContextNode>)
    requires UniqueIds(rows)
    ensures UniqueRows(multiset(rows))
  {
    if rows != [] {
      var init, last := rows[..|rows| - 1], rows[|rows| - 1];
      UniqueIdsGiveUniqueRows(init);
      assert rows == init + [last];
      forall i | 0 <= i < |init| ensures init[i].id != last.id {
        assert rows[i] == init[i] && rows[|rows| - 1] == last;
      }
      UniqueRowsSnoc(init, last);
    }
  }

  lemma UniqueRowsSnoc(rows: seq<ContextNode>, last: ContextNode)
    requires UniqueRows(multiset(rows)) && forall i | 0 <= i < |rows| :: rows[i].id != last.id
    ensures UniqueRows(multiset(rows + [last]))
  {
    assert multiset(rows + [last]) == multiset(rows) + multiset{last};
    forall x | x in multiset(rows) ensures x.id != last.id {
      var i :| 0 <= i < |rows| && rows[i] == x;
    }
  }

  lemma {:induction false} UniqueRowsGiveUniqueIds(rows: seq<ContextNode>)
    requires UniqueRows(multiset(rows))
    ensures UniqueIds(rows)
  {
    if rows != [] {
      var init, last := rows[..|rows| - 1], rows[|rows| - 1];
      assert rows == init + [last];
      assert multiset(rows)[last] == 1;
      forall x: ContextNode | x in multiset(init) ensures multiset(init)[x] == 1 && x.id != last.id {
        assert multiset(rows)[x] == 1;
      }
      UniqueRowsGiveUniqueIds(init);
      forall i | 0 <= i < |init| ensures rows[i].id != last.id {
        assert init[i] in multiset(init);
      }
    }
  }

  lemma UniqueIdsByMultiset(rows: seq<ContextNode>)
    ensures UniqueIds(rows) <==> UniqueRows(multiset(rows))
  {
    if UniqueIds(rows) { UniqueIdsGiveUniqueRows(rows); }
    if UniqueRows(multiset(rows)) { UniqueRowsGiveUniqueIds(rows); }
  }

  lemma NodeMapByRows(rows: seq<ContextNode>, id: string)
    requires UniqueIds(rows)
    ensures id in NodeMap(rows) <==> exists x :: x in multiset(rows) && x.id == id
    ensures forall x | x in multiset(rows) && x.id == id :: id in NodeMap(rows) && NodeMap(rows)[id] == x
  {
    if id in NodeMap(rows) {
      assert NodeMap(rows)[id] in multiset(rows);
    }
    forall x | x in multiset(rows) && x.id == id
      ensures id in NodeMap(rows) && NodeMap(rows)[id] == x
    {
      var i :| 0 <= i < |rows| && rows[i] == x;
      var j :| 0 <= j < |rows| && rows[j] == NodeMap(rows)[id];
      assert i == j;
    }
  }

  lemma ValidRowsByMultiset(rows: seq<ContextNode>)
    ensures (forall i | 0 <= i < |rows| :: ValidRow(rows[i])) <==> forall x | x in multiset(rows) :: ValidRow(x)
  {
    hide ValidRow;
  }

  /** The verdict and the resulting tree do not depend on the order of the rows. */
  lemma {:induction false} AcceptanceIgnoresOrder(a: seq<ContextNode>, b: seq<ContextNode>)
    requires multiset(a) == multiset(b)
    ensures Acceptable(a) <==> Acceptable(b)
    ensures UniqueIds(a) ==> NodeMap(a) == NodeMap(b)
  {
    hide ValidRow, UniqueIds, UniqueRows, RootedTree, NodeMap;
    UniqueIdsByMultiset(a);
    UniqueIdsByMultiset(b);
    ValidRowsByMultiset(a);
    ValidRowsByMultiset(b);
    if UniqueIds(a) {
      forall id ensures id in NodeMap(a) <==> id in NodeMap(b)
        ensures id in NodeMap(a) ==> NodeMap(a)[id] == NodeMap(b)[id]
      {
        NodeMapByRows(a, id);
        NodeMapByRows(b, id);
      }
      assert NodeMap(a) == NodeMap(b);
    }
  }

  ghost predicate SameParents(a: Nodes, b: Nodes) {
    a.Keys == b.Keys && forall n | n in a :: a[n].parent == b[n].parent
  }

  /** Inherit switches and kinds cannot hide a malformed structure: only the parent
      map decides. */
  lemma {:induction false} OnlyParentsDecide(a: Nodes, b: Nodes)
    requires SameParents(a, b) && RootedTree(a)
    ensures RootedTree(b)
  {
    var r :| r in a && AllReach(a, r);
    forall n | n in b ensures Reaches(b, n, r) {
      assert Reaches(a, n, r);
      var p :| RootPath(a, n, p) && p[|p| - 1] == r;
      assert RootPath(b, n, p);
    }
    assert AllReach(b, r);
  }

  // ----- readable lineage -----------------------------------------------------

  /** `c` and the ancestors met before the first closed inherit switch, never
      visiting a node in `avoid`. */
  function LineageFrom(nodes: Nodes, c: string, avoid: set<string>): set<string>
    decreases nodes.Keys - avoid
  {
    if c !in nodes || c in avoid then {}
    else if nodes[c].inherit && nodes[c].parent.Some? then
      {c} + LineageFrom(nodes, nodes[c].parent.value, avoid + {c})
    else {c}
  }

  function Lineage(nodes: Nodes, c: string): set<string> {
    LineageFrom(nodes, c, {})
  }

  /** `a` is met from `c` when every switch below it on the climb is open. */
  ghost predicate Inherits(nodes: Nodes, c: string, a: string) {
    exists p, i :: RootPath(nodes, c, p) && Open(nodes, p, i) && p[i] == a
  }

  ghost predicate Open(nodes: Nodes, p: seq<string>, i: int) {
    0 <= i < |p| && forall k | 0 <= k < i :: p[k] in nodes && nodes[p[k]].inherit
  }

  lemma OpenPastStart(nodes: Nodes, p: seq<string>, i: int)
    requires Open(nodes, p, i) && i > 0
    ensures |p| > 1 && p[0] in nodes && nodes[p[0]].inherit
  {
  }

  lemma {:induction false} LineageAlongPath(nodes: Nodes, c: string, p: seq<string>, avoid: set<string>)
    requires RootPath(nodes, c, p)
    requires forall i | 0 <= i < |p| :: p[i] !in avoid
    ensures forall a :: a in LineageFrom(nodes, c, avoid) <==> exists i :: Open(nodes, p, i) && p[i] == a
    decreases |p|
  {
    assert |p| > 1 ==> nodes[p[0]].parent == Some(p[0 + 1]);
    assert Open(nodes, p, 0);
    if nodes[c].inherit && |p| > 1 {
      var q := p[1..];
      RootPathSuffix(nodes, c, p, 1);
      forall i | 0 <= i < |q| ensures q[i] !in avoid + {c} {
        if q[i] == c { RootPathDistinct(nodes, c, p, 0, i + 1); }
      }
      LineageAlongPath(nodes, p[1], q, avoid + {c});
      forall a ensures a in LineageFrom(nodes, c, avoid) <==> exists i :: Open(nodes, p, i) && p[i] == a {
        if i :| Open(nodes, q, i) && q[i] == a {
          assert Open(nodes, p, i + 1) && p[i + 1] == a;
        }
        if i :| Open(nodes, p, i) && p[i] == a && i > 0 {
          assert Open(nodes, q, i - 1) && q[i - 1] == a;
        }
      }
    } else {
      forall i | Open(nodes, p, i) ensures i == 0 {
        if i > 0 { OpenPastStart(nodes, p, i); }
      }
    }
  }

  /** The lineage is exactly what the open switches allow. */
  lemma LineageIsInherited(nodes: Nodes, c: string, a: string)
    requires Climbs(nodes, c)
    ensures a in Lineage(nodes, c) <==> Inherits(nodes, c, a)
  {
    var p :| RootPath(nodes, c, p);
    LineageAlongPath(nodes, c, p, {});
    if Inherits(nodes, c, a) {
      var q, i :| RootPath(nodes, c, q) && Open(nodes, q, i) && q[i] == a;
      RootPathUnique(nodes, c, p, q);
    }
  }

  lemma OwnLineage(nodes: Nodes, c: string)
    requires c in nodes
    ensures c in Lineage(nodes, c)
  {
  }

  lemma TreeNodeClimbs(nodes: Nodes, c: string)
    requires RootedTree(nodes) && c in nodes
    ensures Climbs(nodes, c)
  {
    TreeClimbs(nodes);
  }

  /** The loop of `_lineage`; it stops because the climb of a tree node does. */
  method LineageLoop(nodes: Nodes, c: string) returns (lineage: set<string>)
    requires RootedTree(nodes) && c in nodes
    ensures lineage == Lineage(nodes, c)
  {
    TreeNodeClimbs(nodes, c);
    ghost var p :| RootPath(nodes, c, p);
    LineageAlongPath(nodes, c, p, {});
    lineage := {};
    var current := Some(c);
    ghost var at := 0;
    while current.Some?
      invariant 0 <= at <= |p|
      invariant current.Some? ==> at < |p| && p[at] == current.value && Open(nodes, p, at)
      invariant current == None ==> !Open(nodes, p, at)
      invariant forall a :: a in lineage <==> exists i :: i < at && Open(nodes, p, i) && p[i] == a
      decreases |p| - at, current.Some?
    {
      assert current.value in nodes;
      lineage := lineage + {current.value};
      var node := nodes[current.value];
      assert at + 1 < |p| ==> node.parent == Some(p[at + 1]);
      current := if node.inherit then node.parent else None;
      at := at + 1;
    }
    forall a ensures a in lineage <==> exists i :: Open(nodes, p, i) && p[i] == a {
      forall i | Open(nodes, p, i) ensures i < at {
        assert i < at || Open(nodes, p, at);
      }
    }
  }

  // ----- the store --------------------------------------------------------------

  type Entries = map<string, ScopedEntry>

  predicate ValidEntryRow(nodes: Nodes, row: ScopedEntry) {
    row.id != "" && row.contextId in nodes
  }

  ghost predicate UniqueEntryIds(rows: seq<ScopedEntry>) {
    forall i, j | 0 <= i < j < |rows| :: rows[i].id != rows[j].id
  }

  function EntryMap(rows: seq<ScopedEntry>): (m: Entries)
    ensures forall id :: id in m <==> exists i :: 0 <= i < |rows| && rows[i].id == id
    ensures forall id | id in m :: m[id].id == id && m[id] in rows
  {
    if rows == [] then map[]
    else
      var last := rows[|rows| - 1];
      EntryMap(rows[..|rows| - 1])[last.id := last]
  }

  lemma EntryMapStep(rows: seq<ScopedEntry>, i: nat)
    requires i <= |rows|
    ensures i == 0 ==> EntryMap(rows[..i]) == map[]
    ensures i < |rows| ==> EntryMap(rows[..i + 1]) == EntryMap(rows[..i])[rows[i].id := rows[i]]
  {
    if i < |rows| { assert rows[..i + 1][..i] == rows[..i]; }
  }

  /** The entry half of `ContextTree.__init__`. */
  method ValidateEntries(nodes: Nodes, rows: seq<ScopedEntry>) returns (r: Result<Entries, Rejection>)
    requires "" !in nodes
    ensures r.Ok? <==> (forall i | 0 <= i < |rows| :: ValidEntryRow(nodes, rows[i])) && UniqueEntryIds(rows)
    ensures r.Ok? ==> r.value == EntryMap(rows)
    ensures r.Err? ==> r.error in {InvalidEntry, UnknownEntryContext, DuplicateEntryId}
  {
    hide EntryMap;
    assert EntryMap(rows[..0]) == map[] by { EntryMapStep(rows, 0); }
    var loaded: Entries := map[];
    for i := 0 to |rows|
      invariant forall k | 0 <= k < i :: ValidEntryRow(nodes, rows[k])
      invariant UniqueEntryIds(rows[..i])
      invariant loaded == EntryMap(rows[..i])
    {
      EntryMapStep(rows, i);
      assert rows[..i + 1][..i] == rows[..i];
      if rows[i].id == "" || rows[i].contextId == "" { return Err(InvalidEntry); }
      if rows[i].contextId !in nodes { return Err(UnknownEntryContext); }
      if rows[i].id in loaded {
        ghost var k :| 0 <= k < |rows[..i]| && rows[..i][k].id == rows[i].id;
        return Err(DuplicateEntryId);
      }
      loaded := loaded[rows[i].id := rows[i]];
    }
    assert rows[..|rows|] == rows;
    return Ok(loaded);
  }

  /** What a caller may ask through an issued binding. */
  datatype TreeRequest = Read | Get(entryId: string) | Write(newId: string, content: Payload)

  datatype TreeReply = One(entry: ScopedEntry) | Many(entries: seq<ScopedEntry>)

  function VisibleIds(nodes: Nodes, entries: Entries, c: string): set<string> {
    set id | id in entries && entries[id].contextId in Lineage(nodes, c)
  }

  function Listed(entries: Entries, ids: seq<string>): (r: seq<ScopedEntry>)
    requires forall id | id in ids :: id in entries
    ensures |r| == |ids| && forall i | 0 <= i < |ids| :: ids[i] in entries && r[i] == entries[ids[i]]
  {
    seq(|ids|, i requires 0 <= i < |ids| => entries[ids[i]])
  }

  /** The reply to a request bound to `c`. */
  function Answer(nodes: Nodes, entries: Entries, c: string, request: TreeRequest): Result<TreeReply, Rejection> {
    match request
    case Read => Ok(Many(Listed(entries, Ordered(VisibleIds(nodes, entries, c)))))
    case Get(id) =>
      if id == "" then Err(InvalidRequest)
      else if id in VisibleIds(nodes, entries, c) then Ok(One(entries[id]))
      else Err(NotVisible)
    case Write(id, content) =>
      if id == "" then Err(InvalidRequest)
      else if id in entries then Err(DuplicateEntryId)
      else Ok(One(ScopedEntry(id, c, content)))
  }

  /** The store after the request: a successful write adds its entry, owned by `c`. */
  function After(entries: Entries, c: string, request: TreeRequest): Entries {
    if request.Write? && request.newId != "" && request.newId !in entries
    then entries[request.newId := ScopedEntry(request.newId, c, request.content)]
    else entries
  }

  ghost predicate StoreValid(nodes: Nodes, entries: Entries, bindings: map<nat, string>, issued: nat) {
    && RootedTree(nodes)
    && (forall id | id in entries :: entries[id].id == id && entries[id].contextId in nodes)
    && (forall b | b in bindings :: b < issued && bindings[b] in nodes)
  }

  lemma ListedWithout(entries: Entries, id: string, ids: seq<string>)
    requires id !in ids && forall i | i in ids :: i in entries
    ensures Listed(entries - {id}, ids) == Listed(entries, ids)
  {
  }

  /** Hidden and missing ids get the same answer. */
  lemma {:induction false} HiddenLooksMissing(nodes: Nodes, entries: Entries, c: string, id: string)
    requires id in entries && entries[id].contextId !in Lineage(nodes, c)
    ensures Answer(nodes, entries, c, Get(id)) == Answer(nodes, entries - {id}, c, Get(id))
    ensures Answer(nodes, entries, c, Read) == Answer(nodes, entries - {id}, c, Read)
  {
    hide Lineage, Listed;
    var ids := VisibleIds(nodes, entries, c);
    assert ids == VisibleIds(nodes, entries - {id}, c);
    hide VisibleIds;
    ListedWithout(entries, id, Ordered(ids));
  }

  /** A write is read back by exactly the contexts that inherit from its owner. */
  lemma WriteReachesInheritors(nodes: Nodes, entries: Entries, c: string, id: string, content: Payload, reader: string)
    requires RootedTree(nodes) && reader in nodes && id != "" && id !in entries
    ensures var after := After(entries, c, Write(id, content));
            Answer(nodes, after, reader, Get(id)) ==
            if Inherits(nodes, reader, c) then Ok(One(ScopedEntry(id, c, content))) else Err(NotVisible)
  {
    TreeNodeClimbs(nodes, reader);
    LineageIsInherited(nodes, reader, c);
  }

  lemma ListsInherited(nodes: Nodes, entries: Entries, c: string)
    requires forall id | id in entries :: entries[id].id == id
    requires forall a :: a in Lineage(nodes, c) <==> Inherits(nodes, c, a)
    ensures var listed := Listed(entries, Ordered(VisibleIds(nodes, entries, c)));
            && (forall e :: e in listed <==> e.id in entries && entries[e.id] == e && Inherits(nodes, c, e.contextId))
            && (forall i, j | 0 <= i < j < |listed| :: Le(listed[i].id, listed[j].id) && listed[i] != listed[j])
  {
    hide Lineage, Inherits, Le;
    var ids := Ordered(VisibleIds(nodes, entries, c));
    var listed := Listed(entries, ids);
    forall e ensures e in listed <==> e.id in entries && entries[e.id] == e && Inherits(nodes, c, e.contextId) {
      if e in listed {
        var i :| 0 <= i < |listed| && listed[i] == e;
        assert ids[i] in ids;
      }
      if e.id in entries && entries[e.id] == e && Inherits(nodes, c, e.contextId) {
        assert e.id in ids;
        var i :| 0 <= i < |ids| && ids[i] == e.id;
        assert listed[i] == e;
      }
    }
    forall i, j | 0 <= i < j < |listed| ensures Le(listed[i].id, listed[j].id) && listed[i] != listed[j] {
      assert ids[i] in ids && ids[j] in ids && listed[i].id == ids[i] && listed[j].id == ids[j];
    }
  }

  /** A read lists exactly what is inherited, each entry once and in id order. */
  lemma {:induction false} ReadLaw(nodes: Nodes, entries: Entries, c: string)
    requires RootedTree(nodes) && c in nodes && forall id | id in entries :: entries[id].id == id
    ensures Answer(nodes, entries, c, Read).Ok? && Answer(nodes, entries, c, Read).value.Many?
    ensures var listed := Answer(nodes, entries, c, Read).value.entries;
            && (forall e :: e in listed <==> e.id in entries && entries[e.id] == e && Inherits(nodes, c, e.contextId))
            && (forall i, j | 0 <= i < j < |listed| :: Le(listed[i].id, listed[j].id) && listed[i] != listed[j])
    ensures After(entries, c, Read) == entries
  {
    hide *;
    TreeNodeClimbs(nodes, c);
    forall a ensures a in Lineage(nodes, c) <==> Inherits(nodes, c, a) { LineageIsInherited(nodes, c, a); }
    ListsInherited(nodes, entries, c);
    ReadAnswer(nodes, entries, c);
  }

  lemma ReadAnswer(nodes: Nodes, entries: Entries, c: string)
    ensures Answer(nodes, entries, c, Read) == Ok(Many(Listed(entries, Ordered(VisibleIds(nodes, entries, c)))))
    ensures After(entries, c, Read) == entries
  {
    hide VisibleIds, Listed;
  }

  /** A get returns the inherited entry of that id; a hidden id and a missing one are refused
      alike. */
  lemma GetLaw(nodes: Nodes, entries: Entries, c: string, id: string)
    requires RootedTree(nodes) && c in nodes
    ensures Answer(nodes, entries, c, Get(id)) ==
            if |id| == 0 then Err(InvalidRequest)
            else if id in entries && Inherits(nodes, c, entries[id].contextId) then Ok(One(entries[id]))
            else Err(NotVisible)
    ensures After(entries, c, Get(id)) == entries
  {
    hide Lineage, Inherits, RootedTree, Climbs;
    TreeNodeClimbs(nodes, c);
    if id in entries { LineageIsInherited(nodes, c, entries[id].contextId); }
  }

  /** A write takes any free id for the bound context, and is refused otherwise. */
  lemma WriteLaw(nodes: Nodes, entries: Entries, c: string, id: string, content: Payload)
    ensures var write := Write(id, content);
            var (answer, after) := (Answer(nodes, entries, c, write), After(entries, c, write));
            if |id| == 0 then answer == Err(InvalidRequest) && after == entries
            else if id in entries then answer == Err(DuplicateEntryId) && after == entries
            else answer == Ok(One(ScopedEntry(id, c, content))) && after == entries[id := ScopedEntry(id, c, content)]
  {
  }

  /** `ContextTree`. Identities of issued bindings are numbers never handed out twice. */
  class ContextTree {
    const nodes: Nodes
    var entries: Entries
    var bindings: map<nat, string>
    var issued: nat

    ghost predicate Valid()
      reads this
    {
      StoreValid(nodes, entries, bindings, issued)
    }

    constructor (nodes: Nodes, loaded: Entries)
      requires StoreValid(nodes, loaded, map[], 0)
      ensures Valid() && this.nodes == nodes && entries == loaded && bindings == map[] && issued == 0
    {
      this.nodes, entries, bindings, issued := nodes, loaded, map[], 0;
    }

    static method Build(rows: seq<ContextNode>, entryRows: seq<ScopedEntry>)
      returns (r: Result<ContextTree, Rejection>)
      ensures r.Ok? <==> Acceptable(rows) &&
                         (forall i | 0 <= i < |entryRows| :: ValidEntryRow(NodeMap(rows), entryRows[i])) &&
                         UniqueEntryIds(entryRows)
      ensures r.Ok? ==> fresh(r.value) && r.value.Valid() && r.value.nodes == NodeMap(rows)
                        && r.value.entries == EntryMap(entryRows) && r.value.bindings == map[] && r.value.issued == 0
    {
      var nodes := ValidateNodes(rows);
      if nodes.Err? { return Err(nodes.error); }
      assert "" !in nodes.value;
      var loaded := ValidateEntries(nodes.value, entryRows);
      if loaded.Err? { return Err(loaded.error); }
      var tree := new ContextTree(nodes.value, loaded.value);
      return Ok(tree);
    }

    /** Trusted harness only. */
    method Bind(contextId: string) returns (r: Result<nat, Rejection>)
      requires Valid()
      modifies this`bindings, this`issued
      ensures Valid()
      ensures contextId in nodes ==> r == Ok(old(issued)) && issued == old(issued) + 1
                                     && bindings == old(bindings)[old(issued) := contextId]
      ensures contextId !in nodes ==> r == Err(UnknownContext) && issued == old(issued) && bindings == old(bindings)
    {
      if contextId !in nodes { return Err(UnknownContext); }
      bindings := bindings[issued := contextId];
      issued := issued + 1;
      return Ok(issued - 1);
    }

    /** The only caller-facing operation; the binding alone fixes the context. */
    method Handle(binding: nat, request: TreeRequest) returns (r: Result<TreeReply, Rejection>)
      requires Valid()
      modifies this`entries
      ensures Valid()
      ensures binding !in bindings ==> r == Err(UntrustedBinding) && entries == old(entries)
      ensures binding in bindings ==> r == Answer(nodes, old(entries), bindings[binding], request)
                                      && entries == After(old(entries), bindings[binding], request)
    {
      if binding !in bindings { return Err(UntrustedBinding); }
      var c := bindings[binding];
      match request
      case Write(id, content) =>
        if id == "" { return Err(InvalidRequest); }
        if id in entries { return Err(DuplicateEntryId); }
        var entry := ScopedEntry(id, c, content);
        entries := entries[id := entry];
        return Ok(One(entry));
      case Get(id) =>
        if id == "" { return Err(InvalidRequest); }
        var allowed := LineageLoop(nodes, c);
        if id !in entries || entries[id].contextId !in allowed { return Err(NotVisible); }
        return Ok(One(entries[id]));
      case Read =>
        var allowed := LineageLoop(nodes, c);
        var ids := set id | id in entries && entries[id].contextId in allowed;
        assert ids == VisibleIds(nodes, entries, c);
        return Ok(Many(Listed(entries, Ordered(ids))));
    }
  }
}
