/** A concrete memory that its own outcome admission locks for good. */
module Lockout {
  import opened Text
  import opened Records
  import opened Security
  import opened SecurityMemories
  import opened Outcomes
  import T = ContextTrees
  import C = Capability

  const GRANTS := map["public" := ["public"], "personal" := ["personal"], "employer-x" := ["employer-x"]]
  const POLICY := Policy(POLICY_VERSION, GRANTS, [])

  /** One public context without entries. */
  const ROOT := T.ContextNode("root", None, "root", false)
  const FIXTURE := Fixture([ROOT], [], [], map["root" := PUBLIC], Some(POLICY), map[])

  const NOTE := Candidate("note", ObservationIntent)

  /** One execution there, with one requirement, no evidence and one supported note. */
  const CONFIG := OutcomeConfig(
    map["run" := Contract("root", PUBLIC, [Requirement("contract", "TEST", "PASS")], "contract")],
    map[], map[], map["run" := [Support(NOTE, [])]])

  const DESK := Desk(CONFIG, true, map[], 0, [], map[], map[])
  const REQUEST := ReflectionRequest("r", Claim(ClaimsUnknown, ""), NOTE)
  const EC := C.ExecutionContext(0, "run", "root")

  lemma FixtureIsAccepted()
    ensures FixtureOk(FIXTURE) && T.NodeMap(FIXTURE.nodes) == map["root" := FIXTURE.nodes[0]]
    ensures WellFormedConfig(CONFIG)
  {
    var nodes := T.NodeMap(FIXTURE.nodes);
    assert FIXTURE.nodes[..0] == [];
    assert nodes == map["root" := FIXTURE.nodes[0]];
    assert T.RootPath(nodes, "root", ["root"]);
    assert T.Reaches(nodes, "root", "root");
    assert T.AllReach(nodes, "root");
    assert RequirementIds(CONFIG.executions["run"].requirements)[0] == "contract";
  }

  /** The memory and the desk once the execution is issued. */
  function Issued(): (Mem, Desk) {
    var (m, d, _) := IssueExecution(Initial(FIXTURE), DESK, "run");
    (m, d)
  }

  lemma IssuedMeans()
    ensures var (m, d) := Issued();
            && m.raw == map[] && m.available && m.cfg == Initial(FIXTURE).cfg && DomainOf(m, EC) == Some(PUBLIC)
            && EC in m.executions && d == DESK.(bindings := map[0 := EC], issued := 1)
  {
    FixtureIsAccepted();
  }

  lemma PolicyStartsValid()
    ensures PolicyState(Issued().0, EC) == None
  {
    IssuedMeans();
    FixtureIsAccepted();
    hide FixtureOk, Issued;
    assert POLICY.grants.Keys == DOMAINS;
  }

  lemma NoteIsGrounded()
    ensures var (m, d) := Issued();
            DeskReady(d) && Examine(m, d, Some(EC), REQUEST).Grounded? && d.replays == map[]
            && d.bindings == map[0 := EC]
  {
    IssuedMeans();
    PolicyStartsValid();
    FixtureIsAccepted();
    hide FixtureOk, Issued, PolicyState, Initial;
    assert Utf8("note") == 4 by { assert "note"[1..] == "ote" && "ote"[1..] == "te" && "te"[1..] == "e"; }
  }

  /** The note is retained, as the source intends; the policy was valid before and is
      denied afterwards, for every execution. */
  lemma NoteLocksMemory(ec: ExecutionContext)
    ensures var (m, d) := Issued();
            && FixtureOk(FIXTURE) && DeskReady(d) && PolicyState(m, EC) == None
            && Admit(m, d, 0, REQUEST).2 == RetainedUnverified
            && PolicyState(Admit(m, d, 0, REQUEST).0, ec) == Some(Denied)
  {
    FixtureIsAccepted();
    IssuedMeans();
    PolicyStartsValid();
    NoteIsGrounded();
    var (m, d) := Issued();
    hide FixtureOk, Issued, Initial, Examine, DeskReady;
    var e := ReflectionEntry(m, EC, NOTE);
    assert Rule(m, d, Some(EC), REQUEST).stored == Some(e);
    assert Admit(m, d, 0, REQUEST).0.raw[e.id] == e && !Classified(e);
  }
}
