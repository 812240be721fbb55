/** When a write that a context may not see can still be felt there: exactly when names of
    contexts nest so closely that two of them share a key. */
module Interference {
  import opened Text
  import opened Records
  import opened Security
  import opened SecurityMemories
  import opened Growth
  import opened Noninterference
  import T = ContextTrees
  import C = Capability

  // ----- two runs ------------------------------------------------------------------

  /** A call that stores an entry now. */
  ghost predicate Stores(m: Mem, ev: Event) {
    && ev.Calls? && IsWrite(ev.request) && Refusal(m, ev.ec, ev.caller, ev.request) == None
    && Written(m, ev.ec, ev.caller, ev.request).Some?
  }

  /** Of two calls that would each store an entry, the second is answered differently after
      the first exactly when both would store under one id. */
  lemma {:induction false} FirstWriteShowsIff(m: Mem, first: Event, second: Event)
    requires Inv(m) && Stores(m, first) && Stores(m, second)
    ensures Handle(Step(m, first), second.ec, second.caller, second.request).1
            != Handle(m, second.ec, second.caller, second.request).1
            <==> Written(m, first.ec, first.caller, first.request).value.id
                 == Written(m, second.ec, second.caller, second.request).value.id
  {
    hide Inv, Refusal, Reply, AfterCall, Step, Written, Commit, Classified, PolicyState;
    var e := Written(m, first.ec, first.caller, first.request).value;
    RefusalPassed(m, first.ec, first.caller, first.request);
    WrittenIsClassified(m, first.ec, first.caller, first.request);
    CallEffect(m, first);
    var n := Commit(m, e, first.request.Declare?);
    StillNotRefused(m, e, first.request.Declare?, second);
    WrittenAfter(m, e, first.request.Declare?, second);
    CallAnswer(m, second);
    CallAnswer(n, second);
  }

  /** A stored entry takes its id, and nothing else, from later writes. */
  lemma WrittenAfter(m: Mem, e: Entry, bind: bool, ev: Event)
    requires ev.Calls? && IsWrite(ev.request) && e.id !in m.raw && Written(m, ev.ec, ev.caller, ev.request).Some?
    ensures Written(Commit(m, e, bind), ev.ec, ev.caller, ev.request) ==
            if e.id == Written(m, ev.ec, ev.caller, ev.request).value.id then None
            else Written(m, ev.ec, ev.caller, ev.request)
  {
  }

  lemma StillNotRefused(m: Mem, e: Entry, bind: bool, ev: Event)
    requires ev.Calls? && Refusal(m, ev.ec, ev.caller, ev.request) == None && Classified(e) && e.id !in m.raw
    ensures Refusal(Commit(m, e, bind), ev.ec, ev.caller, ev.request) == None
  {
    hide PolicyState, WellFormed, Classified;
    CommitKeepsPolicyIff(m, ev.ec, e, bind);
  }

  /** The first call may well be hidden from the context of the second: then purging it is
      noticed there, exactly when the owners share a key. */
  lemma {:induction false} HiddenWriteFeltIff(m: Mem, write: Event, own: Event)
    requires Inv(m) && Stores(m, write) && Stores(m, own) && own.request.Observe?
    requires own.Calls? && write.Calls? && Hidden(m.cfg, own.ec.contextId, write)
    ensures Answers(m, own.ec.contextId, [write, own])
            != Answers(m, own.ec.contextId, Purge(m.cfg, own.ec.contextId, [write, own]))
            <==> Written(m, write.ec, write.caller, write.request).value.id == Key(own.ec.contextId, own.request.local)
  {
    hide *;
    var c := own.ec.contextId;
    FirstWriteShowsIff(m, write, own);
    OwnKey(m, own);
    OnlyOwnAnswers(m, c, write, own);
    OneAnswer(m, c, own);
  }

  lemma OnlyOwnAnswers(m: Mem, c: string, write: Event, own: Event)
    requires Hidden(m.cfg, c, write) && own.Calls? && own.request.Observe? && own.ec.contextId == c
    ensures Purge(m.cfg, c, [write, own]) == [own]
    ensures Answers(m, c, [write, own]) == [Handle(Step(m, write), own.ec, own.caller, own.request).1]
  {
    hide Readable, Reply, AfterCall, Step, Destination;
    assert [write, own][1..] == [own] && [own][1..] == [];
    assert Purge(m.cfg, c, [own]) == [own];
    StepKeepsConfig(m, write);
    OneAnswer(Step(m, write), c, own);
  }

  lemma OneAnswer(m: Mem, c: string, own: Event)
    requires own.Calls? && own.request.Observe? && own.ec.contextId == c
    ensures Answers(m, c, [own]) == [Handle(m, own.ec, own.caller, own.request).1]
  {
    hide Readable, Reply, AfterCall, Step, Destination;
    assert [own][1..] == [];
    assert Answers(Step(m, own), c, []) == [];
  }

  lemma OwnKey(m: Mem, own: Event)
    requires Stores(m, own) && own.request.Observe?
    ensures Written(m, own.ec, own.caller, own.request).value.id == Key(own.ec.contextId, own.request.local)
  {
  }

  // ----- over a whole tree -------------------------------------------------------------

  /** No fixture over this tree and no run from it ever shows a context what it may not see. */
  ghost predicate NeverInterferes(rows: seq<T.ContextNode>) {
    forall f, c, events | FixtureOk(f) && f.nodes == rows :: Undisturbed(f, c, events)
  }

  ghost predicate Undisturbed(f: Fixture, c: string, events: seq<Event>) {
    Answers(Initial(f), c, events) == Answers(Initial(f), c, Purge(Initial(f).cfg, c, events))
  }

  const OWN := "personal"
  const OTHER := "employer-x"
  const SELF_ONLY := Policy(POLICY_VERSION, map["public" := ["public"], OWN := [OWN], OTHER := [OTHER]], [])

  /** An empty memory in which `b` is a domain of its own. */
  function Apart(rows: seq<T.ContextNode>, b: string): Fixture {
    Fixture(rows, [], [], map n | n in T.NodeMap(rows) :: if n == b then OTHER else OWN, Some(SELF_ONLY), map[])
  }

  function ExecutionOf(token: nat, c: string): ExecutionContext {
    C.ExecutionContext(token, "e", c)
  }

  const AT_B := C.Caller(2, "w", Worker)
  const AT_A := C.Caller(3, "w", Worker)

  /** A worker is issued at `b` and one at `a`. */
  function Issuing(a: string, b: string): seq<Event> {
    [Begins("e", b), Begins("e", a), Joins(ExecutionOf(0, b), "w", Worker), Joins(ExecutionOf(1, a), "w", Worker)]
  }

  /** The memory with exactly those two issued. */
  function Issued(m: Mem, a: string, b: string): Mem {
    m.(executions := map[ExecutionOf(0, b) := 0, ExecutionOf(1, a) := 1],
       security := map[ExecutionOf(0, b) := Lookup(m.cfg.contextDomains, b),
                       ExecutionOf(1, a) := Lookup(m.cfg.contextDomains, a)],
       callers := map[AT_B := ExecutionOf(0, b), AT_A := ExecutionOf(1, a)],
       bindings := map[0 := b, 1 := a], bound := 2, issued := 4)
  }

  /** Nothing was issued yet. */
  predicate Unissued(m: Mem) {
    && m.executions == map[] && m.security == map[] && m.callers == map[] && m.bindings == map[]
    && m.bound == 0 && m.issued == 0
  }

  /** `b` records `x`, then `a` records an id that spells the same key. */
  function Crossing(a: string, b: string): seq<Event>
    requires a + SEPARATOR <= b + SEPARATOR
  {
    [Calls(ExecutionOf(0, b), AT_B, Observe("x", "v")),
     Calls(ExecutionOf(1, a), AT_A, Observe(Overhang(a, b) + "x", "v"))]
  }

  lemma ApartIsOk(rows: seq<T.ContextNode>, b: string)
    requires T.Acceptable(rows)
    ensures FixtureOk(Apart(rows, b))
  {
    hide T.Acceptable;
  }

  lemma RunCons(m: Mem, ev: Event, rest: seq<Event>)
    ensures Run(m, [ev] + rest) == Run(Step(m, ev), rest)
  {
    hide Step;
    assert ([ev] + rest)[1..] == rest;
  }

  lemma IssuingRuns(m: Mem, a: string, b: string)
    requires Unissued(m) && a in m.cfg.nodes && b in m.cfg.nodes && a != b
    ensures Run(m, Issuing(a, b)) == Issued(m, a, b)
  {
    hide Run, Lookup;
    var s := Issuing(a, b);
    var m2 := Step(Step(m, s[0]), s[1]);
    assert m2 == Issued(m, a, b).(callers := map[], issued := 2);
    assert Step(Step(m2, s[2]), s[3]) == Issued(m, a, b);
    hide Step, Issued;
    assert s == [s[0]] + ([s[1]] + ([s[2]] + ([s[3]] + [])));
    RunCons(m, s[0], [s[1]] + ([s[2]] + ([s[3]] + [])));
    RunCons(Step(m, s[0]), s[1], [s[2]] + ([s[3]] + []));
    RunCons(m2, s[2], [s[3]] + []);
    RunCons(Step(m2, s[2]), s[3], []);
    assert Run(Step(Step(m2, s[2]), s[3]), []) == Issued(m, a, b) by { RunNone(Issued(m, a, b)); }
  }

  lemma RunNone(m: Mem)
    ensures Run(m, []) == m
  {
  }

  lemma ApartIsUnissued(rows: seq<T.ContextNode>, b: string)
    ensures var m := Initial(Apart(rows, b));
            && Unissued(m) && m.available && m.raw == map[] && m.cfg.derived == map[] && m.cfg.nodes == T.NodeMap(rows)
            && m.cfg.policy == Some(SELF_ONLY) && m.cfg.contextDomains.Keys == m.cfg.nodes.Keys
            && forall n | n in m.cfg.nodes :: m.cfg.contextDomains[n] == if n == b then OTHER else OWN
  {
  }

  lemma {:induction false} QuietPrefix(m: Mem, c: string, quiet: seq<Event>, rest: seq<Event>)
    requires forall ev | ev in quiet :: !ev.Calls?
    ensures Answers(m, c, quiet + rest) == Answers(Run(m, quiet), c, rest)
    ensures Purge(m.cfg, c, quiet + rest) == quiet + Purge(m.cfg, c, rest)
    ensures Run(m, quiet).cfg == m.cfg
    decreases |quiet|
  {
    hide Step, Reply, Hidden;
    if quiet == [] {
      assert quiet + rest == rest;
    } else {
      var all := quiet + rest;
      assert all[0] == quiet[0] && all[1..] == quiet[1..] + rest;
      assert quiet[0] in quiet;
      StepKeepsConfig(m, quiet[0]);
      QuietPrefix(Step(m, quiet[0]), c, quiet[1..], rest);
      assert !Hidden(m.cfg, c, quiet[0]) by { QuietIsNotHidden(m.cfg, c, quiet[0]); }
      assert quiet == [quiet[0]] + quiet[1..];
    }
  }

  lemma QuietIsNotHidden(cfg: Config, c: string, ev: Event)
    requires !ev.Calls?
    ensures !Hidden(cfg, c, ev)
  {
  }

  lemma PolicyIsValid(m: Mem, ec: ExecutionContext)
    requires m.raw == map[] && m.cfg.policy == Some(SELF_ONLY) && m.cfg.contextDomains.Keys == m.cfg.nodes.Keys
    requires forall n | n in m.cfg.nodes :: m.cfg.contextDomains[n] in {OWN, OTHER}
    requires ec.contextId in m.cfg.nodes && DomainOf(m, ec) == Some(m.cfg.contextDomains[ec.contextId])
    ensures PolicyState(m, ec) == None
    ensures Granted(m, ec) == [m.cfg.contextDomains[ec.contextId]]
  {
    assert SELF_ONLY.grants.Keys == DOMAINS;
  }

  lemma WorkerStores(m: Mem, ec: ExecutionContext, caller: Caller, local: string)
    requires PolicyState(m, ec) == None && m.available && Bound(m, ec, caller) && caller.callerClass == Worker
    requires DomainOf(m, ec).Some? && DomainOf(m, ec).value != PUBLIC && Granted(m, ec) == [DomainOf(m, ec).value]
    requires m.raw == map[] && m.cfg.derived == map[] && 0 < Utf8(local) <= 80
    ensures Stores(m, Calls(ec, caller, Observe(local, "v")))
    ensures Written(m, ec, caller, Observe(local, "v")).value.id == Key(ec.contextId, local)
  {
    hide PolicyState, WellFormed, Written;
    assert WellFormed(Observe(local, "v")) by { ShortIsWellFormed(local); }
    WorkerMayWrite(m, ec, caller, local);
  }

  lemma ShortIsWellFormed(local: string)
    requires 0 < Utf8(local) <= 80
    ensures WellFormed(Observe(local, "v"))
  {
    assert Utf8("v") == 1;
  }

  lemma WorkerMayWrite(m: Mem, ec: ExecutionContext, caller: Caller, local: string)
    requires caller.callerClass == Worker && m.raw == map[] && m.cfg.derived == map[]
    requires DomainOf(m, ec).Some? && DomainOf(m, ec).value != PUBLIC && Granted(m, ec) == [DomainOf(m, ec).value]
    ensures Written(m, ec, caller, Observe(local, "v")).Some?
    ensures Written(m, ec, caller, Observe(local, "v")).value.id == Key(ec.contextId, local)
  {
  }

  lemma BothWouldStore(rows: seq<T.ContextNode>, a: string, b: string)
    requires a in T.NodeMap(rows) && b in T.NodeMap(rows) && a != b
    requires a + SEPARATOR <= b + SEPARATOR && Utf8(Overhang(a, b)) < 80
    ensures var m := Issued(Initial(Apart(rows, b)), a, b);
            && Stores(m, Crossing(a, b)[0]) && Stores(m, Crossing(a, b)[1])
            && Hidden(m.cfg, a, Crossing(a, b)[0])
            && Written(m, ExecutionOf(0, b), AT_B, Observe("x", "v")).value.id == Key(b, "x")
  {
    hide Initial, Apart, PolicyState, T.Lineage, T.NodeMap, Stores, Written, WellFormed;
    NestedOwnersShareKey(a, b);
    ApartIsUnissued(rows, b);
    var m := Issued(Initial(Apart(rows, b)), a, b);
    assert Utf8("x") == 1;
    PolicyIsValid(m, ExecutionOf(0, b));
    PolicyIsValid(m, ExecutionOf(1, a));
    WorkerStores(m, ExecutionOf(0, b), AT_B, "x");
    WorkerStores(m, ExecutionOf(1, a), AT_A, Overhang(a, b) + "x");
  }

  /** Two nested owners are enough: there is a fixture and a run in which purging what `a`
      may not see changes an answer at `a`. */
  lemma {:induction false} NestedOwnersInterfere(rows: seq<T.ContextNode>, a: string, b: string)
    requires T.Acceptable(rows) && a in T.NodeMap(rows) && b in T.NodeMap(rows) && a != b
    requires a + SEPARATOR <= b + SEPARATOR && Utf8(Overhang(a, b)) < 80
    ensures FixtureOk(Apart(rows, b)) && !Undisturbed(Apart(rows, b), a, Issuing(a, b) + Crossing(a, b))
  {
    hide Initial, Apart, FixtureOk, Inv, Run, Answers, Purge, Issued, Stores, Hidden, Written, T.Acceptable, T.NodeMap;
    var m := Initial(Apart(rows, b));
    ApartIsOk(rows, b);
    ApartIsUnissued(rows, b);
    IssuingRuns(m, a, b);
    InitialInv(Apart(rows, b));
    RunKeepsInv(m, Issuing(a, b));
    QuietPrefix(m, a, Issuing(a, b), Crossing(a, b));
    QuietPrefix(m, a, Issuing(a, b), Purge(m.cfg, a, Crossing(a, b)));
    BothWouldStore(rows, a, b);
    NestedOwnersShareKey(a, b);
    assert Crossing(a, b) == [Crossing(a, b)[0], Crossing(a, b)[1]];
    HiddenWriteFeltIff(Issued(m, a, b), Crossing(a, b)[0], Crossing(a, b)[1]);
  }

  /** Over every fixture and every run on a tree, noninterference holds exactly when the
      context ids of the tree are separable. */
  lemma {:induction false} NoninterferenceIffSeparable(rows: seq<T.ContextNode>)
    requires T.Acceptable(rows)
    ensures NeverInterferes(rows) <==> Separable(T.NodeMap(rows).Keys)
  {
    hide T.Acceptable, FixtureOk, Inv, Initial, T.NodeMap, Answers, Purge;
    if Separable(T.NodeMap(rows).Keys) {
      forall f, c, events | FixtureOk(f) && f.nodes == rows ensures Undisturbed(f, c, events) {
        InitialInv(f);
        InitialNodes(f);
        WholeRunNoninterference(Initial(f), c, events);
      }
    } else {
      var owners := T.NodeMap(rows).Keys;
      var a, b :| && a in owners && b in owners && a != b && a + SEPARATOR <= b + SEPARATOR
                  && Utf8(Overhang(a, b)) < 80;
      NestedOwnersInterfere(rows, a, b);
    }
  }

  lemma InitialNodes(f: Fixture)
    ensures Initial(f).cfg.nodes == T.NodeMap(f.nodes)
  {
  }

  // ----- an example --------------------------------------------------------------------

  /** A root `a` and its child `a::b`. */
  const TWINS := [T.ContextNode("a", None, "root", false), T.ContextNode("a::b", Some("a"), "leaf", false)]

  lemma TwinsAreATree()
    ensures T.Acceptable(TWINS)
    ensures T.NodeMap(TWINS) == map["a" := TWINS[0], "a::b" := TWINS[1]]
  {
    assert TWINS[..1][..0] == [] && TWINS[..1] == [TWINS[0]];
    var nodes := T.NodeMap(TWINS);
    assert nodes == map["a" := TWINS[0], "a::b" := TWINS[1]];
    assert T.RootPath(nodes, "a", ["a"]) && T.RootPath(nodes, "a::b", ["a::b", "a"]);
    assert T.Reaches(nodes, "a", "a") && T.Reaches(nodes, "a::b", "a");
    assert T.AllReach(nodes, "a");
  }

  lemma TwinsNest()
    ensures "a" + SEPARATOR <= "a::b" + SEPARATOR && Utf8(Overhang("a", "a::b")) < 80
    ensures Overhang("a", "a::b") + "x" == "b::x"
  {
    assert Overhang("a", "a::b") == "b::";
    assert "b::"[1..] == "::" && "::"[1..] == ":";
  }

  /** The concrete run: `a::b` records `x`, which `a` may not see, and `a` can then no
      longer record `b::x`. */
  lemma TwinsInterfere()
    ensures FixtureOk(Apart(TWINS, "a::b")) && !NeverInterferes(TWINS)
    ensures !Undisturbed(Apart(TWINS, "a::b"), "a", Issuing("a", "a::b") + [
              Calls(ExecutionOf(0, "a::b"), AT_B, Observe("x", "v")),
              Calls(ExecutionOf(1, "a"), AT_A, Observe("b::x", "v"))])
  {
    TwinsAreATree();
    TwinsNest();
    hide T.Acceptable, FixtureOk, Undisturbed, Overhang, Utf8;
    NestedOwnersInterfere(TWINS, "a", "a::b");
  }
}
