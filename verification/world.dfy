/** One memory shared by its callers, the promotion gate and outcome admission: every
    interleaving of their steps. */
module World {
  import opened Text
  import opened Records
  import opened Security
  import opened Growth
  import opened Promotion
  import opened PromotionLaws
  import O = Outcomes
  import L = OutcomeLaws
  import M = SecurityMemories
  import PG = PromotionGates
  import OA = OutcomeAdmissions
  import S = Scanners

  /** Any number of gates may be joined to the memory, at any time. */
  datatype World = World(mem: Mem, gates: seq<Gate>, desk: O.Desk)

  /** Acts of a gate name it by its place; acts of a gate that never joined do nothing. */
  datatype Act = Memory(ev: Event)
               | JoinsGate(cfg: GateConfig, admitted: seq<Approval>)
               | IssuesService(gate: nat, contextId: string, role: string, name: string)
               | Requests(gate: nat, token: nat, promotion: PromotionRequest)
               | SetsGate(gate: nat, policy: Option<PromotionPolicy>, approvals: seq<Approval>,
                          modes: map<string, S.Mode>, gateOn: bool)
               | IssuesDesk(executionId: string)
               | Reflects(token: nat, reflection: O.ReflectionRequest)
               | SetsDesk(envelopes: map<string, O.Envelope>, evidence: map<string, O.Evidence>, deskOn: bool)

  ghost predicate WorldInv(w: World) {
    && Inv(w.mem) && GatesInv(w.mem, w.gates) && ReceiptsApart(w.gates) && L.DeskInv(w.mem, w.desk)
  }

  /** A gate as its constructor leaves it. */
  function NewGate(cfg: GateConfig, approvals: seq<Approval>): Gate {
    Gate(cfg, Some(cfg.policy), approvals, map[], true, map[], 0, [], map[], map[])
  }

  ghost function Perform(w: World, act: Act): World
    requires O.DeskReady(w.desk)
  {
    match act
    case Memory(ev) => w.(mem := Step(w.mem, ev))
    case JoinsGate(cfg, approvals) => w.(gates := w.gates + [NewGate(cfg, approvals)])
    case IssuesService(k, contextId, role, name) =>
      if k >= |w.gates| then w
      else
        var (m, g, _) := Issue(w.mem, w.gates[k], contextId, role, name);
        w.(mem := m, gates := w.gates[k := g])
    case Requests(k, token, r) =>
      if k >= |w.gates| then w
      else
        var (m, g, _, _) := Promote(w.mem, w.gates[k], token, r);
        w.(mem := m, gates := w.gates[k := g])
    case SetsGate(k, policy, approvals, modes, on) =>
      if k >= |w.gates| then w
      else
        var g := w.gates[k].(policy := policy, approvals := approvals, modes := modes, available := on);
        w.(gates := w.gates[k := g])
    case IssuesDesk(executionId) =>
      var (m, d, _) := O.IssueExecution(w.mem, w.desk, executionId);
      w.(mem := m, desk := d)
    case Reflects(token, r) =>
      var (m, d, _, _) := O.Admit(w.mem, w.desk, token, r);
      w.(mem := m, desk := d)
    case SetsDesk(envelopes, evidence, on) =>
      w.(desk := w.desk.(cfg := w.desk.cfg.(envelopes := envelopes, evidence := evidence), available := on))
  }

  lemma InvHasReadyDesk(w: World)
    requires WorldInv(w)
    ensures O.DeskReady(w.desk) && L.DeskTokens(w.mem, w.desk)
  {
  }

  /** What no step of anyone undoes. */
  ghost predicate Onward(a: World, b: World) {
    && GrowsOn(a.mem, b.mem) && LaterGates(a, b) && L.DeskLater(a.desk, b.desk)
  }

  ghost predicate LaterGates(a: World, b: World) {
    |a.gates| <= |b.gates| && forall k | 0 <= k < |a.gates| :: LaterBooks(a.gates[k], b.gates[k])
  }

  // ----- single acts -------------------------------------------------------------

  lemma PerformsMemory(w: World, ev: Event)
    requires O.DeskReady(w.desk)
    ensures Perform(w, Memory(ev)) == w.(mem := Step(w.mem, ev))
  {
    hide Step, O.DeskReady;
  }

  lemma PerformsService(w: World, k: nat, contextId: string, role: string, name: string)
    requires O.DeskReady(w.desk) && k < |w.gates|
    ensures var (m, g, _) := Issue(w.mem, w.gates[k], contextId, role, name);
            Perform(w, IssuesService(k, contextId, role, name)) == w.(mem := m, gates := w.gates[k := g])
  {
    hide Issue, O.DeskReady;
  }

  lemma PerformsRequest(w: World, k: nat, token: nat, r: PromotionRequest)
    requires O.DeskReady(w.desk) && k < |w.gates|
    ensures var (m, g, _, _) := Promote(w.mem, w.gates[k], token, r);
            Perform(w, Requests(k, token, r)) == w.(mem := m, gates := w.gates[k := g])
  {
    hide Promote, O.DeskReady;
  }

  lemma PerformsJoin(w: World, cfg: GateConfig, approvals: seq<Approval>)
    requires O.DeskReady(w.desk)
    ensures Perform(w, JoinsGate(cfg, approvals)) == w.(gates := w.gates + [NewGate(cfg, approvals)])
  {
    hide NewGate, O.DeskReady;
  }

  lemma PerformsSwitch(w: World, k: nat, policy: Option<PromotionPolicy>, approvals: seq<Approval>,
                       modes: map<string, S.Mode>, on: bool)
    requires O.DeskReady(w.desk)
    ensures Perform(w, SetsGate(k, policy, approvals, modes, on)) ==
            if k >= |w.gates| then w
            else
              var g := w.gates[k].(policy := policy, approvals := approvals, modes := modes, available := on);
              w.(gates := w.gates[k := g])
  {
    hide O.DeskReady;
  }

  lemma PerformsNothing(w: World, act: Act)
    requires O.DeskReady(w.desk) && (act.IssuesService? || act.Requests?) && act.gate >= |w.gates|
    ensures Perform(w, act) == w
  {
    hide O.DeskReady;
  }

  lemma PerformsReflection(w: World, token: nat, r: O.ReflectionRequest)
    requires O.DeskReady(w.desk)
    ensures var (m, d, _, _) := O.Admit(w.mem, w.desk, token, r);
            Perform(w, Reflects(token, r)) == w.(mem := m, desk := d)
  {
    hide O.Admit;
  }

  // ----- each kind of step ---------------------------------------------------------

  lemma BooksItself(w: World, m: Mem, d: O.Desk)
    ensures LaterGates(w, w.(mem := m, desk := d))
  {
  }

  /** All gates at once, when the memory grew and the gate at `k` looked after itself. */
  lemma OneGateMoves(w: World, m: Mem, k: nat, g: Gate)
    requires GatesInv(w.mem, w.gates) && GrowsOn(w.mem, m) && k < |w.gates|
    requires GateInv(m, g) && Accounted(m, w.gates[k := g])
    ensures GatesInv(m, w.gates[k := g])
  {
    hide GateInv, GrowsOn, Accounted;
    var after := w.gates[k := g];
    forall j | 0 <= j < |after| ensures GateInv(m, after[j]) {
      if j != k { GrowthKeepsGateInv(w.mem, m, w.gates[j]); }
    }
  }

  lemma QuietKeepsGates(a: Mem, b: Mem, gates: seq<Gate>)
    requires GatesInv(a, gates) && Quiet(a, b)
    ensures GatesInv(b, gates)
  {
    hide GateInv, GrowsOn, Accounted;
    QuietKeepsAccounted(a, b, gates);
    forall k | 0 <= k < |gates| ensures GateInv(b, gates[k]) { GrowthKeepsGateInv(a, b, gates[k]); }
  }

  lemma QuietStep(w: World, m: Mem)
    requires WorldInv(w) && Inv(m) && Quiet(w.mem, m) && L.Modest(w.mem, m)
    ensures WorldInv(w.(mem := m)) && Onward(w, w.(mem := m))
  {
    hide GatesInv, ReceiptsApart, L.DeskInv, Inv, L.Modest, GrowsOn;
    QuietKeepsGates(w.mem, m, w.gates);
    L.ModestKeepsDeskInv(w.mem, m, w.desk);
    BooksItself(w, m, w.desk);
  }

  lemma QuietMeans(a: Mem, b: Mem)
    requires Quiet(a, b)
    ensures GrowsOn(a, b)
  {
  }

  lemma MemoryStep(w: World, ev: Event)
    requires WorldInv(w)
    ensures WorldInv(w.(mem := Step(w.mem, ev))) && Onward(w, w.(mem := Step(w.mem, ev)))
  {
    hide WorldInv, Onward, Quiet, L.Modest;
    assert Inv(w.mem) by { WorldHasInv(w); }
    hide Inv;
    StepKeepsInv(w.mem, ev);
    StepIsQuiet(w.mem, ev);
    StepIsModest(w.mem, ev);
    QuietStep(w, Step(w.mem, ev));
  }

  lemma WorldHasInv(w: World)
    requires WorldInv(w)
    ensures Inv(w.mem) && GatesInv(w.mem, w.gates) && ReceiptsApart(w.gates) && L.DeskInv(w.mem, w.desk)
  {
  }

  lemma StepIsModest(m: Mem, ev: Event)
    requires Inv(m)
    ensures L.Modest(m, Step(m, ev))
  {
    hide Inv, Grows, Refusal, Written, Read, Step;
    StepIsQuiet(m, ev);
    if !ev.Calls? {
      OnlyCallsStore(m, ev);
    } else {
      CallEffect(m, ev);
      if Refusal(m, ev.ec, ev.caller, ev.request) == None && IsWrite(ev.request)
         && Written(m, ev.ec, ev.caller, ev.request).Some? {
        WrittenIsUnproven(m, ev.ec, ev.caller, ev.request);
      }
    }
  }

  lemma WrittenIsUnproven(m: Mem, ec: ExecutionContext, caller: Caller, request: Request)
    requires IsWrite(request) && Written(m, ec, caller, request).Some?
    ensures Written(m, ec, caller, request).value.provenance != VerifiedOutcome
  {
  }

  /** What a promotion stores is a promotion: the desk's snapshots are not concerned. */
  lemma PromotionIsModest(m: Mem, g: Gate, token: nat, r: PromotionRequest)
    requires Inv(m)
    ensures L.Modest(m, Promote(m, g, token, r).0)
  {
    hide Inv, Decide, Grows;
    PromotionGrows(m, g, token, r);
    var binding := Lookup(g.bindings, token);
    if Decide(m, g, binding, r).stored.Some? { StoredIsNew(m, g, binding, r); }
  }

  lemma PromotionIsLater(m: Mem, g: Gate, token: nat, r: PromotionRequest)
    ensures LaterBooks(g, Promote(m, g, token, r).1)
    ensures forall ec | ec in m.executions :: ec in Promote(m, g, token, r).0.executions
  {
    hide Decide, Judge, PromotedEntry, ReceiptFor, KeyOf;
    var binding := Lookup(g.bindings, token);
    if Decide(m, g, binding, r).stored.Some? { StoredMeans(m, g, binding, r); }
  }

  lemma RequestStep(w: World, k: nat, token: nat, r: PromotionRequest)
    requires WorldInv(w) && k < |w.gates|
    ensures var (m, g, _, _) := Promote(w.mem, w.gates[k], token, r);
            var v := w.(mem := m, gates := w.gates[k := g]);
            WorldInv(v) && Onward(w, v)
  {
    hide Inv, GateInv, L.DeskInv, Promote, Grows, LaterBooks, Accounted, ReceiptsApart;
    var (m, g, _, _) := Promote(w.mem, w.gates[k], token, r);
    PromotionGrows(w.mem, w.gates[k], token, r);
    PromotionIsLater(w.mem, w.gates[k], token, r);
    PromoteKeepsGateInv(w.mem, w.gates[k], token, r);
    PromoteKeepsAccounted(w.mem, w.gates, k, token, r);
    OneGateMoves(w, m, k, g);
    PromotionIsModest(w.mem, w.gates[k], token, r);
    L.ModestKeepsDeskInv(w.mem, m, w.desk);
    OthersLater(w, m, w.desk, k, g);
  }

  lemma OthersLater(w: World, m: Mem, d: O.Desk, k: nat, g: Gate)
    requires k < |w.gates| && LaterBooks(w.gates[k], g)
    ensures LaterGates(w, w.(mem := m, desk := d, gates := w.gates[k := g]))
  {
  }

  lemma ServiceStep(w: World, k: nat, contextId: string, role: string, name: string)
    requires WorldInv(w) && k < |w.gates|
    ensures var (m, g, _) := Issue(w.mem, w.gates[k], contextId, role, name);
            var v := w.(mem := m, gates := w.gates[k := g]);
            WorldInv(v) && Onward(w, v)
  {
    var (m, g, _) := Issue(w.mem, w.gates[k], contextId, role, name);
    WorldHasInv(w);
    assert GateInv(w.mem, w.gates[k]) && Accounted(w.mem, w.gates);
    hide *;
    IssueMeans(w.mem, w.gates[k], contextId, role, name);
    StepIsQuiet(w.mem, Begins(name, contextId));
    InvHasIdentities(w.mem);
    L.BeginIsModest(w.mem, name, contextId);
    BeginKeepsInv(w.mem, name, contextId);
    L.ModestKeepsDeskInv(w.mem, m, w.desk);
    IssueKeepsGateInv(w.mem, w.gates[k], contextId, role, name);
    QuietKeepsAccounted(w.mem, m, w.gates);
    QuietMeans(w.mem, m);
    SameReceiptsAccounted(m, w.gates, k, g);
    OneGateMoves(w, m, k, g);
    OthersLater(w, m, w.desk, k, g);
    WorldOfParts(w.(mem := m, gates := w.gates[k := g]));
    OnwardOfParts(w, w.(mem := m, gates := w.gates[k := g]));
  }

  lemma WorldOfParts(w: World)
    requires Inv(w.mem) && GatesInv(w.mem, w.gates) && ReceiptsApart(w.gates) && L.DeskInv(w.mem, w.desk)
    ensures WorldInv(w)
  {
  }

  lemma OnwardOfParts(a: World, b: World)
    requires GrowsOn(a.mem, b.mem) && LaterGates(a, b) && a.desk == b.desk
    ensures Onward(a, b)
  {
  }

  lemma IssueMeans(m: Mem, g: Gate, contextId: string, role: string, name: string)
    requires GateInv(m, g)
    ensures var (m', g', _) := Issue(m, g, contextId, role, name);
            && m' == Begin(m, name, contextId).0 == Step(m, Begins(name, contextId))
            && g'.receipts == g.receipts && LaterBooks(g, g')
  {
    hide AllBacked, AllCleared, ReceiptsStand, OneToOne;
    assert g.issued !in g.bindings;
  }

  /** A gate joins with empty books, whatever the memory already holds. */
  lemma JoinStep(w: World, cfg: GateConfig, approvals: seq<Approval>)
    requires WorldInv(w)
    ensures var v := w.(gates := w.gates + [NewGate(cfg, approvals)]);
            WorldInv(v) && Onward(w, v)
  {
    var g := NewGate(cfg, approvals);
    PG.EmptyBooks(w.mem, g);
    hide Inv, GateInv, L.DeskInv, Accounted, ReceiptsApart;
    GrowsItself(w.mem);
    JoiningKeepsAccounted(w.mem, w.gates, g);
  }

  lemma DeskIssueStep(w: World, executionId: string)
    requires WorldInv(w)
    ensures var (m, d, _) := O.IssueExecution(w.mem, w.desk, executionId);
            WorldInv(w.(mem := m, desk := d)) && Onward(w, w.(mem := m, desk := d))
  {
    hide Inv, GatesInv, ReceiptsApart, L.DeskInv, Begin, O.WellFormedConfig;
    assert w.desk.issued !in w.desk.bindings by { InvHasReadyDesk(w); }
    L.IssueKeepsDeskInv(w.mem, w.desk, executionId);
    InvHasIdentities(w.mem);
    GrowsItself(w.mem);
    BooksItself(w, O.IssueExecution(w.mem, w.desk, executionId).0, O.IssueExecution(w.mem, w.desk, executionId).1);
    if executionId in w.desk.cfg.executions {
      var c := w.desk.cfg.executions[executionId].contextId;
      L.BeginIsModest(w.mem, executionId, c);
      BeginKeepsInv(w.mem, executionId, c);
      StepIsQuiet(w.mem, Begins(executionId, c));
      QuietKeepsGates(w.mem, Begin(w.mem, executionId, c).0, w.gates);
    }
  }

  lemma AdmissionIsQuiet(m: Mem, d: O.Desk, token: nat, r: O.ReflectionRequest)
    requires Inv(m) && O.DeskReady(d) && L.DeskTokens(m, d)
    ensures Quiet(m, O.Admit(m, d, token, r).0)
  {
    hide Inv, O.Rule, O.Examine, Grows, O.ReflectionEntry, O.WellFormedConfig;
    L.AdmissionGrows(m, d, token, r);
    L.StoringAdmission(m, d, token, r);
    if O.Rule(m, d, Lookup(d.bindings, token), r).stored.Some? {
      L.StoredRuling(m, d, Lookup(d.bindings, token), r);
      ReflectionIsNoPromotion(m, d.bindings[token], r.candidate);
    }
  }

  lemma ReflectionIsNoPromotion(m: Mem, ec: ExecutionContext, candidate: O.Candidate)
    ensures !IsPromotion(O.ReflectionEntry(m, ec, candidate))
  {
  }

  lemma ReflectStep(w: World, token: nat, r: O.ReflectionRequest)
    requires WorldInv(w)
    ensures var (m, d, _, _) := O.Admit(w.mem, w.desk, token, r);
            WorldInv(w.(mem := m, desk := d)) && Onward(w, w.(mem := m, desk := d))
  {
    hide Inv, GatesInv, ReceiptsApart, L.DeskInv, O.Admit, GrowsOn, Quiet;
    InvHasReadyDesk(w);
    var (m, d, _, _) := O.Admit(w.mem, w.desk, token, r);
    L.AdmitKeepsDeskInv(w.mem, w.desk, token, r);
    L.AdmissionGrows(w.mem, w.desk, token, r);
    AdmissionIsQuiet(w.mem, w.desk, token, r);
    QuietMeans(w.mem, m);
    QuietKeepsGates(w.mem, m, w.gates);
    L.AdmissionIsLater(w.mem, w.desk, token, r);
    BooksItself(w, m, d);
  }

  lemma GateSwitchStep(w: World, k: nat, g: Gate)
    requires WorldInv(w) && k < |w.gates|
    requires var was := w.gates[k];
             g == was.(policy := g.policy, approvals := g.approvals, modes := g.modes, available := g.available)
    ensures WorldInv(w.(gates := w.gates[k := g])) && Onward(w, w.(gates := w.gates[k := g]))
  {
    assert GateInv(w.mem, g) by {
      hide AllBacked, AllCleared, ReceiptsStand, OneToOne;
      SameBooks(w.mem, w.gates[k], g);
    }
    hide Inv, GateInv, L.DeskInv, Accounted, ReceiptsApart, Grows;
    GrowsItself(w.mem);
    SameReceiptsAccounted(w.mem, w.gates, k, g);
    OneGateMoves(w, w.mem, k, g);
    OthersLater(w, w.mem, w.desk, k, g);
  }

  lemma DeskSwitchStep(w: World, envelopes: map<string, O.Envelope>, evidence: map<string, O.Evidence>, on: bool)
    requires WorldInv(w)
    ensures var d := w.desk.(cfg := w.desk.cfg.(envelopes := envelopes, evidence := evidence), available := on);
            WorldInv(w.(desk := d)) && Onward(w, w.(desk := d))
  {
    hide Inv, Grows, GatesInv, ReceiptsApart, L.VerifiedAreEarned, L.DerivationsStored, L.ReplaysStored;
    GrowsItself(w.mem);
  }

  lemma NothingStep(w: World)
    requires WorldInv(w)
    ensures Onward(w, w)
  {
    hide WorldInv, Grows;
    GrowsItself(w.mem);
  }

  lemma GateActKeepsWorldInv(w: World, act: Act)
    requires WorldInv(w) && (act.JoinsGate? || act.IssuesService? || act.SetsGate? || act.Requests?)
    ensures O.DeskReady(w.desk) && WorldInv(Perform(w, act)) && Onward(w, Perform(w, act))
  {
    InvHasReadyDesk(w);
    NothingStep(w);
    hide WorldInv, Onward, Issue, Promote, NewGate, O.DeskReady, Perform;
    match act
    case JoinsGate(cfg, approvals) =>
      PerformsJoin(w, cfg, approvals);
      JoinStep(w, cfg, approvals);
    case IssuesService(k, contextId, role, name) =>
      if k < |w.gates| {
        PerformsService(w, k, contextId, role, name);
        ServiceStep(w, k, contextId, role, name);
      } else {
        PerformsNothing(w, act);
      }
    case Requests(k, token, r) =>
      if k < |w.gates| {
        PerformsRequest(w, k, token, r);
        RequestStep(w, k, token, r);
      } else {
        PerformsNothing(w, act);
      }
    case SetsGate(k, policy, approvals, modes, on) =>
      PerformsSwitch(w, k, policy, approvals, modes, on);
      if k < |w.gates| {
        GateSwitchStep(w, k, w.gates[k].(policy := policy, approvals := approvals, modes := modes, available := on));
      }
  }

  /** Every step keeps the joint invariant and only adds. */
  lemma {:induction false} PerformKeepsWorldInv(w: World, act: Act)
    requires WorldInv(w)
    ensures O.DeskReady(w.desk) && WorldInv(Perform(w, act)) && Onward(w, Perform(w, act))
  {
    InvHasReadyDesk(w);
    if act.JoinsGate? || act.IssuesService? || act.SetsGate? || act.Requests? {
      hide WorldInv, Onward, Perform, O.DeskReady;
      GateActKeepsWorldInv(w, act);
    } else {
      hide WorldInv, Onward, Step, O.IssueExecution, O.Admit, O.DeskReady;
      match act
      case Memory(ev) => MemoryStep(w, ev);
      case IssuesDesk(executionId) => DeskIssueStep(w, executionId);
      case Reflects(token, r) => ReflectStep(w, token, r);
      case SetsDesk(envelopes, evidence, on) => DeskSwitchStep(w, envelopes, evidence, on);
    }
  }

  // ----- runs ----------------------------------------------------------------------

  /** The worlds a run passes through. */
  ghost predicate Trace(worlds: seq<World>, acts: seq<Act>) {
    && |worlds| == |acts| + 1
    && (forall i | 0 <= i < |acts| :: O.DeskReady(worlds[i].desk))
    && (forall i: nat | i < |acts| :: Follows(worlds, acts, i))
  }

  ghost predicate Follows(worlds: seq<World>, acts: seq<Act>, i: nat)
    requires |worlds| == |acts| + 1 && i < |acts|
  {
    O.DeskReady(worlds[i].desk) && worlds[i + 1] == Perform(worlds[i], acts[i])
  }

  lemma OnwardItself(w: World)
    ensures Onward(w, w)
  {
  }

  lemma OnwardTransitive(a: World, b: World, c: World)
    requires Onward(a, b) && Onward(b, c)
    ensures Onward(a, c)
  {
    GrowsTransitive(a.mem, b.mem, c.mem);
    hide Grows;
    forall k | 0 <= k < |a.gates| ensures LaterBooks(a.gates[k], c.gates[k]) {
      assert LaterBooks(a.gates[k], b.gates[k]) && LaterBooks(b.gates[k], c.gates[k]);
    }
  }

  /** In every run the invariant holds throughout and nothing is ever undone. */
  lemma {:induction false} TraceKeepsWorldInv(worlds: seq<World>, acts: seq<Act>, i: nat, j: nat)
    requires Trace(worlds, acts) && WorldInv(worlds[0]) && i <= j < |worlds|
    ensures WorldInv(worlds[i]) && Onward(worlds[i], worlds[j])
    decreases j
  {
    hide WorldInv, Onward, Perform;
    if j == 0 {
      OnwardItself(worlds[0]);
    } else {
      TraceKeepsWorldInv(worlds, acts, j - 1, j - 1);
      assert Follows(worlds, acts, j - 1);
      PerformKeepsWorldInv(worlds[j - 1], acts[j - 1]);
      if i == j {
        OnwardItself(worlds[j]);
      } else {
        TraceKeepsWorldInv(worlds, acts, i, j - 1);
        OnwardTransitive(worlds[i], worlds[j - 1], worlds[j]);
      }
    }
  }

  /** The two stores never drift, whoever writes, and a stored id names its owner. */
  lemma {:induction false} StoresNeverDrift(worlds: seq<World>, acts: seq<Act>, i: nat)
    requires Trace(worlds, acts) && WorldInv(worlds[0]) && i < |worlds|
    ensures Lockstep(worlds[i].mem)
    ensures Separable(worlds[i].mem.cfg.nodes.Keys) ==>
              forall id, owner, local | && id in worlds[i].mem.raw && owner in worlds[i].mem.cfg.nodes
                                        && LocalId(local) && id == Key(owner, local) ::
                worlds[i].mem.raw[id].contextId == owner
  {
    hide WorldInv, Onward, Perform;
    TraceKeepsWorldInv(worlds, acts, i, i);
    WorldHasInv(worlds[i]);
    var m := worlds[i].mem;
    if Separable(m.cfg.nodes.Keys) {
      forall id, owner, local | id in m.raw && owner in m.cfg.nodes && LocalId(local) && id == Key(owner, local)
        ensures m.raw[id].contextId == owner
      {
        KeyNamesOwner(m, id, owner, local);
      }
    }
  }

  lemma KeyNamesOwner(m: Mem, id: string, owner: string, local: string)
    requires Inv(m) && Separable(m.cfg.nodes.Keys)
    requires id in m.raw && owner in m.cfg.nodes && LocalId(local) && id == Key(owner, local)
    ensures m.raw[id].contextId == owner
  {
    KeyQualified(owner, local);
    var l :| OwnedKey(m.raw[id], l);
    KeyOwner(m.cfg.nodes.Keys, owner, local, m.raw[id].contextId, l);
  }

  /** Exactly once: whatever happens after an admitted request, an identical one to the same
      gate stores nothing; it gets the same receipt exactly when the checks pass again, and
      is refused otherwise. */
  lemma {:induction false} PromotionHappensOnce(worlds: seq<World>, acts: seq<Act>, i: nat, j: nat, k: nat, token: nat,
                                                r: PromotionRequest)
    requires Trace(worlds, acts) && WorldInv(worlds[0]) && i < j < |worlds|
    requires k < |worlds[i].gates| && k < |worlds[j].gates| && acts[i] == Requests(k, token, r)
    requires Promote(worlds[i].mem, worlds[i].gates[k], token, r).2 == Admitted
    ensures var (m, g, status, receipt) := Promote(worlds[j].mem, worlds[j].gates[k], token, r);
            && m == worlds[j].mem && g == worlds[j].gates[k].(audit := g.audit)
            && (status == Admitted <==>
                Judge(worlds[j].mem, worlds[j].gates[k], Lookup(worlds[j].gates[k].bindings, token), r).Pass?)
            && receipt == if status == Admitted then Promote(worlds[i].mem, worlds[i].gates[k], token, r).3 else None
  {
    var v, w, h := worlds[i], worlds[j], worlds[j].gates[k];
    GateLater(worlds, acts, i, j, k);
    hide WorldInv, Promote, Judge, Inv, Later, Trace;
    if Judge(w.mem, h, Lookup(h.bindings, token), r).Pass? {
      RetryReturnsSameReceipt(v.mem, v.gates[k], token, r, w.mem, h);
    } else {
      StoppedIsRefused(w.mem, h, token, r);
    }
  }

  /** A gate that joined stays in its place, and its books only grow. */
  lemma GateLater(worlds: seq<World>, acts: seq<Act>, i: nat, j: nat, k: nat)
    requires Trace(worlds, acts) && WorldInv(worlds[0]) && i < j < |worlds| && k < |worlds[i].gates|
    requires acts[i].Requests? && acts[i].gate == k
    ensures k < |worlds[j].gates| && Inv(worlds[i].mem)
    ensures var (m, g, _, _) := Promote(worlds[i].mem, worlds[i].gates[k], acts[i].token, acts[i].promotion);
            Later(m, g, worlds[j].mem, worlds[j].gates[k])
  {
    hide WorldInv, Promote, Inv, Grows;
    TraceKeepsWorldInv(worlds, acts, i, i);
    WorldHasInv(worlds[i]);
    TraceKeepsWorldInv(worlds, acts, i + 1, j);
    assert Follows(worlds, acts, i);
    assert LaterBooks(worlds[i + 1].gates[k], worlds[j].gates[k]);
  }

  lemma StoppedIsRefused(m: Mem, g: Gate, token: nat, r: PromotionRequest)
    requires Judge(m, g, Lookup(g.bindings, token), r).Stop?
    ensures var (m', g', status, receipt) := Promote(m, g, token, r);
            m' == m && g' == g.(audit := g'.audit) && status != Admitted && receipt == None
  {
    hide Judge;
    StopIsRefusal(m, g, Lookup(g.bindings, token), r);
  }

  /** The same for reflections: an identical request never stores again, whatever trusted
      records changed; it gets the first receipt exactly when the checks pass on the same
      bundle. */
  lemma {:induction false} ReflectionHappensOnce(worlds: seq<World>, acts: seq<Act>, i: nat, j: nat, token: nat,
                                                 r: O.ReflectionRequest)
    requires Trace(worlds, acts) && WorldInv(worlds[0]) && i < j < |worlds|
    requires acts[i] == Reflects(token, r) && O.DeskReady(worlds[i].desk) && O.DeskReady(worlds[j].desk)
    requires O.Admit(worlds[i].mem, worlds[i].desk, token, r).3.Some?
    ensures var first := O.Examine(worlds[i].mem, worlds[i].desk, Lookup(worlds[i].desk.bindings, token), r);
            var again := O.Examine(worlds[j].mem, worlds[j].desk, Lookup(worlds[j].desk.bindings, token), r);
            var (m, d, status, receipt) := O.Admit(worlds[j].mem, worlds[j].desk, token, r);
            && m == worlds[j].mem && d == worlds[j].desk.(audit := d.audit)
            && (receipt.Some? <==> again.Grounded? && again.bundle == first.bundle)
            && (receipt.Some? ==> receipt == O.Admit(worlds[i].mem, worlds[i].desk, token, r).3
                                  && status == O.Admit(worlds[i].mem, worlds[i].desk, token, r).2)
  {
    hide WorldInv, O.Admit, O.Examine, GrowsOn, LaterGates, L.DeskLater, O.WellFormedConfig;
    TraceKeepsWorldInv(worlds, acts, i + 1, j);
    assert Follows(worlds, acts, i);
    L.AnsweredIsRecorded(worlds[i].mem, worlds[i].desk, token, r);
    StaysKnown(worlds, acts, i, j, token);
    L.RepeatedReflection(worlds[i].mem, worlds[i].desk, token, r, worlds[j].mem, worlds[j].desk);
  }

  lemma StaysKnown(worlds: seq<World>, acts: seq<Act>, i: nat, j: nat, token: nat)
    requires Trace(worlds, acts) && WorldInv(worlds[0]) && i <= j < |worlds| && token in worlds[i].desk.bindings
    ensures token in worlds[j].desk.bindings && worlds[j].desk.bindings[token] == worlds[i].desk.bindings[token]
    ensures worlds[i].desk.cfg.executions == worlds[j].desk.cfg.executions
    ensures Grows(worlds[i].mem, worlds[j].mem)
  {
    hide WorldInv, Perform, Grows, LaterGates;
    TraceKeepsWorldInv(worlds, acts, i, j);
  }

  /** With the switches on, the policy valid and the trusted records as they were, the first
      receipt is what comes back. */
  lemma {:induction false} ReflectionComesBack(worlds: seq<World>, acts: seq<Act>, i: nat, j: nat, token: nat,
                                               r: O.ReflectionRequest)
    requires Trace(worlds, acts) && WorldInv(worlds[0]) && i < j < |worlds|
    requires acts[i] == Reflects(token, r) && O.DeskReady(worlds[i].desk) && O.DeskReady(worlds[j].desk)
    requires O.Admit(worlds[i].mem, worlds[i].desk, token, r).3.Some? && token in worlds[i].desk.bindings
    requires worlds[j].desk.cfg == worlds[i].desk.cfg && worlds[j].desk.available && worlds[j].mem.available
    requires PolicyState(worlds[j].mem, worlds[i].desk.bindings[token]) == None
    ensures O.Admit(worlds[j].mem, worlds[j].desk, token, r).3 == O.Admit(worlds[i].mem, worlds[i].desk, token, r).3
  {
    hide WorldInv, O.Admit, O.Examine, Grows, PolicyState, Perform, Inv, L.DeskInv, GatesInv;
    var ec := worlds[i].desk.bindings[token];
    L.AnsweredIsRecorded(worlds[i].mem, worlds[i].desk, token, r);
    StaysKnown(worlds, acts, i, j, token);
    TraceKeepsWorldInv(worlds, acts, i, i);
    InvHasReadyDesk(worlds[i]);
    MemoryParts(worlds[i]);
    L.ExamineAgain(worlds[i].mem, worlds[i].desk, ec, r, worlds[j].mem, worlds[j].desk);
    ReflectionHappensOnce(worlds, acts, i, j, token, r);
  }

  /** Sources are never altered, and every entry of every reachable state has a traced
      origin with its own provenance and status. */
  lemma {:induction false} OriginsInEveryState(worlds: seq<World>, acts: seq<Act>, i: nat, id: string)
    returns (ids: seq<string>)
    requires Trace(worlds, acts) && WorldInv(worlds[0]) && i < |worlds| && id in worlds[i].mem.raw
    ensures Chain(worlds[i].mem, worlds[i].gates, ids) && ids[0] == id
    ensures |ids| <= |worlds[i].mem.cfg.nodes|
    ensures worlds[i].mem.raw[ids[|ids| - 1]].provenance == worlds[i].mem.raw[id].provenance
    ensures worlds[i].mem.raw[ids[|ids| - 1]].epistemic == worlds[i].mem.raw[id].epistemic
  {
    hide WorldInv, Onward, Perform, Chain, Inv, GatesInv;
    TraceKeepsWorldInv(worlds, acts, i, i);
    WorldHasInv(worlds[i]);
    ids := EveryEntryHasOrigin(worlds[i].mem, worlds[i].gates, id);
  }

  /** Verified outcomes are earned: in every reachable state each one, promoted or not,
      traces back to a reflection whose stored snapshot justifies its status. */
  lemma {:induction false} VerifiedInEveryState(worlds: seq<World>, acts: seq<Act>, i: nat, id: string)
    returns (ids: seq<string>)
    requires Trace(worlds, acts) && WorldInv(worlds[0]) && i < |worlds|
    requires id in worlds[i].mem.raw && worlds[i].mem.raw[id].provenance == VerifiedOutcome
    ensures Chain(worlds[i].mem, worlds[i].gates, ids) && ids[0] == id
    ensures ids[|ids| - 1] in worlds[i].desk.provenance
    ensures L.Justifies(worlds[i].desk.provenance[ids[|ids| - 1]].bundle, worlds[i].mem.raw[id].epistemic)
    ensures !IsPromotion(worlds[i].mem.raw[id]) ==> ids == [id]
  {
    hide WorldInv, Onward, Perform, L.Justifies, Inv, GatesInv;
    ids := OriginsInEveryState(worlds, acts, i, id);
    TraceKeepsWorldInv(worlds, acts, i, i);
    WorldHasInv(worlds[i]);
    var w := worlds[i];
    if |ids| > 1 { assert Descends(w.mem, w.gates, w.mem.raw[ids[0 + 1]], w.mem.raw[ids[0]]); }
  }

  /** A cache row that stood for a search at some point of a run answers, at any later
      point, the fresh result, or refuses exactly when a visible entry was added. */
  lemma {:induction false} CacheAcrossRuns(worlds: seq<World>, acts: seq<Act>, i: nat, j: nat, ec: ExecutionContext,
                                           query: string,
                        row: CacheRow, wanted: Item -> bool)
    requires Trace(worlds, acts) && WorldInv(worlds[0]) && i <= j < |worlds| && ec in worlds[i].mem.executions
    requires FirstRow(worlds[j].mem, ec, query, worlds[j].mem.cache) == Some(row)
    requires RowStandsFor(worlds[i].mem, ec, row, wanted)
    ensures Read(worlds[j].mem, ec, Cached(query)) ==
            if VisibleAddition(worlds[i].mem, worlds[j].mem, ec) then Plain(Denied)
            else PackIds(worlds[j].mem, FreshIds(worlds[j].mem, ec, wanted))
  {
    hide WorldInv, Perform, Read, PackIds, RowStandsFor, FirstRow, Grows, LaterGates, VisibleAddition, FreshIds;
    TraceKeepsWorldInv(worlds, acts, i, j);
    TraceKeepsWorldInv(worlds, acts, j, j);
    MemoryParts(worlds[i]);
    MemoryParts(worlds[j]);
    CachedIsFreshOrRefused(worlds[i].mem, worlds[j].mem, ec, query, wanted);
  }

  lemma MemoryParts(w: World)
    requires WorldInv(w)
    ensures Lockstep(w.mem) && DerivedOk(w.mem) && w.mem.executions.Keys == w.mem.security.Keys
  {
  }

  /** The visible derived objects of an execution are the same at every later time. */
  lemma {:induction false} DerivedFixedAcrossRuns(worlds: seq<World>, acts: seq<Act>, i: nat, j: nat,
                                                  ec: ExecutionContext)
    requires Trace(worlds, acts) && WorldInv(worlds[0]) && i <= j < |worlds| && ec in worlds[i].mem.executions
    ensures AllowedDerivedIds(worlds[i].mem, ec) == AllowedDerivedIds(worlds[j].mem, ec)
  {
    hide WorldInv, Perform, Allowed, LaterGates;
    TraceKeepsWorldInv(worlds, acts, i, j);
    TraceKeepsWorldInv(worlds, acts, j, j);
    MemoryParts(worlds[i]);
    MemoryParts(worlds[j]);
    var a, b := worlds[i].mem, worlds[j].mem;
    forall id | id in a.cfg.derived ensures Allowed(a, ec, id) <==> Allowed(b, ec, id) {
      DerivedVisibilityFixed(a, b, ec, id);
    }
  }

  // ----- setup -----------------------------------------------------------------------

  lemma FixtureHasNoAdmissions(f: M.Fixture, id: string)
    requires M.FixtureOk(f) && id in M.Initial(f).raw
    ensures M.Initial(f).raw[id].admission == None && M.Initial(f).raw[id].provenance != VerifiedOutcome
  {
    assert M.Initial(f).raw[id] in f.entries && M.FixtureEntry(M.Initial(f).raw[id]);
  }

  /** A fixture gives a world the laws above apply to; gates join later. */
  lemma {:induction false} SetupGivesWorldInv(f: M.Fixture, d: O.Desk)
    requires M.FixtureOk(f) && O.WellFormedConfig(d.cfg)
    requires d.bindings == map[] && d.provenance == map[] && d.replays == map[]
    ensures WorldInv(World(M.Initial(f), [], d))
    ensures AllClassified(M.Initial(f).raw) ==> Marked(M.Initial(f).raw)
  {
    hide Inv, M.FixtureOk, O.WellFormedConfig, M.Initial, L.DeskInv, Classified;
    M.InitialInv(f);
    forall id | id in M.Initial(f).raw
      ensures M.Initial(f).raw[id].admission == None && M.Initial(f).raw[id].provenance != VerifiedOutcome
    {
      FixtureHasNoAdmissions(f, id);
    }
    OA.EmptyDesk(M.Initial(f), d);
  }

  // ----- claims ------------------------------------------------------------------------

  ghost predicate ActsAlike(a: Act, b: Act) {
    a == b || (a.Reflects? && b.Reflects? && a.token == b.token && L.SameButClaim(a.reflection, b.reflection))
  }

  ghost predicate WorldsAlike(a: World, b: World) {
    a.mem == b.mem && a.gates == b.gates && L.SameDecisions(a.desk, b.desk)
  }

  lemma AlikeDesksIssueAlike(m: Mem, a: O.Desk, b: O.Desk, executionId: string)
    requires L.SameDecisions(a, b)
    ensures O.IssueExecution(m, a, executionId).0 == O.IssueExecution(m, b, executionId).0
    ensures L.SameDecisions(O.IssueExecution(m, a, executionId).1, O.IssueExecution(m, b, executionId).1)
  {
    hide Begin;
    assert a.(audit := []).cfg == b.(audit := []).cfg && a.(audit := []).bindings == b.(audit := []).bindings
           && a.(audit := []).issued == b.(audit := []).issued && a.(audit := []).available == b.(audit := []).available
           && a.(audit := []).provenance == b.(audit := []).provenance
           && a.(audit := []).replays == b.(audit := []).replays;
  }

  lemma SameRequestAlike(w: World, v: World, token: nat, r: O.ReflectionRequest)
    requires WorldsAlike(w, v) && O.DeskReady(w.desk) && O.DeskReady(v.desk)
    ensures O.Admit(w.mem, w.desk, token, r).0 == O.Admit(v.mem, v.desk, token, r).0
    ensures O.Admit(w.mem, w.desk, token, r).2 == O.Admit(v.mem, v.desk, token, r).2
    ensures O.Admit(w.mem, w.desk, token, r).3 == O.Admit(v.mem, v.desk, token, r).3
    ensures L.SameDecisions(O.Admit(w.mem, w.desk, token, r).1, O.Admit(v.mem, v.desk, token, r).1)
  {
    L.AdmitSameRequest(w.mem, w.desk, v.desk, token, r);
  }

  lemma AlikeStep(w: World, v: World, a: Act, b: Act)
    requires WorldsAlike(w, v) && ActsAlike(a, b) && O.DeskReady(w.desk) && O.DeskReady(v.desk)
    ensures WorldsAlike(Perform(w, a), Perform(v, b))
    ensures a.Reflects? ==>
              && O.Admit(w.mem, w.desk, a.token, a.reflection).2 == O.Admit(v.mem, v.desk, b.token, b.reflection).2
              && O.Admit(w.mem, w.desk, a.token, a.reflection).3 == O.Admit(v.mem, v.desk, b.token, b.reflection).3
  {
    hide L.SameDecisions, O.Admit, O.IssueExecution, Promote, Issue, Step, O.DeskReady;
    match a
    case Reflects(token, r) =>
      if L.SameButClaim(a.reflection, b.reflection) {
        L.AdmitIgnoresClaim(w.mem, w.desk, v.desk, token, r, b.reflection);
      } else {
        SameRequestAlike(w, v, token, r);
      }
    case IssuesDesk(executionId) => AlikeDesksIssueAlike(w.mem, w.desk, v.desk, executionId);
    case SetsDesk(envelopes, evidence, on) => AlikeSwitch(w.desk, v.desk, envelopes, evidence, on);
    case _ =>
  }

  lemma AlikeSwitch(a: O.Desk, b: O.Desk, envelopes: map<string, O.Envelope>, evidence: map<string, O.Evidence>,
                    on: bool)
    requires L.SameDecisions(a, b)
    ensures L.SameDecisions(a.(cfg := a.cfg.(envelopes := envelopes, evidence := evidence), available := on),
                            b.(cfg := b.cfg.(envelopes := envelopes, evidence := evidence), available := on))
  {
    var cfg := a.cfg.(envelopes := envelopes, evidence := evidence);
    assert b.(audit := []).cfg == a.(audit := []).cfg;
    assert a.(audit := []).(cfg := cfg, available := on) == b.(audit := []).(cfg := cfg, available := on);
  }

  /** Replacing every worker claim of a run by other well-formed claims changes no
      entry, no status and no receipt anywhere in the run. */
  lemma {:induction false} ClaimsChangeNothing(worlds: seq<World>, others: seq<World>, acts: seq<Act>,
                                               changed: seq<Act>, i: nat)
    requires Trace(worlds, acts) && Trace(others, changed) && |acts| == |changed| && worlds[0] == others[0]
    requires forall k | 0 <= k < |acts| :: ActsAlike(acts[k], changed[k])
    requires i < |worlds|
    ensures WorldsAlike(worlds[i], others[i])
    ensures i < |acts| && acts[i].Reflects? ==>
              changed[i].Reflects? &&
              O.Admit(worlds[i].mem, worlds[i].desk, acts[i].token, acts[i].reflection).3 ==
              O.Admit(others[i].mem, others[i].desk, changed[i].token, changed[i].reflection).3 &&
              O.Admit(worlds[i].mem, worlds[i].desk, acts[i].token, acts[i].reflection).2 ==
              O.Admit(others[i].mem, others[i].desk, changed[i].token, changed[i].reflection).2
  {
    hide Perform, O.Admit, WorldsAlike, L.SameButClaim;
    if i == 0 {
      AlikeItself(worlds[0]);
    } else {
      ClaimsChangeNothing(worlds, others, acts, changed, i - 1);
      assert Follows(worlds, acts, i - 1) && Follows(others, changed, i - 1);
      AlikeStep(worlds[i - 1], others[i - 1], acts[i - 1], changed[i - 1]);
    }
    if i < |acts| {
      assert O.DeskReady(worlds[i].desk) && O.DeskReady(others[i].desk);
      AlikeStep(worlds[i], others[i], acts[i], changed[i]);
    }
  }

  lemma AlikeItself(w: World)
    ensures WorldsAlike(w, w)
  {
  }

  // ----- policy over runs ----------------------------------------------------------------

  /** Entries are classified as their domain demands; reflections are always private. */
  ghost predicate Marked(raw: map<string, Entry>) {
    forall id | id in raw ::
      if raw[id].admission == Some(Reflected) then raw[id].classification == "PRIVATE" && raw[id].domain in DOMAINS
      else Classified(raw[id])
  }

  ghost predicate PublicReflection(raw: map<string, Entry>) {
    exists id :: id in raw && raw[id].admission == Some(Reflected) && raw[id].domain == PUBLIC
  }

  lemma MarkedIsClassifiedIff(raw: map<string, Entry>)
    requires Marked(raw)
    ensures AllClassified(raw) <==> !PublicReflection(raw)
  {
    if id :| id in raw && raw[id].admission == Some(Reflected) && raw[id].domain == PUBLIC {
      assert !Classified(raw[id]);
    }
  }

  ghost predicate MarkedAddition(a: Mem, b: Mem) {
    a.raw == b.raw ||
    exists e: Entry :: b.raw == a.raw[e.id := e] && e.id !in a.raw &&
      (if e.admission == Some(Reflected) then e.classification == "PRIVATE" && e.domain in DOMAINS else Classified(e))
  }

  lemma AdditionKeepsMarked(a: Mem, b: Mem)
    requires Marked(a.raw) && MarkedAddition(a, b)
    ensures Marked(b.raw)
  {
  }

  lemma MemoryAddsMarked(m: Mem, ev: Event)
    ensures MarkedAddition(m, Step(m, ev))
  {
    hide Refusal, Written, Read, Step, Classified;
    if !ev.Calls? {
      OnlyCallsStore(m, ev);
    } else {
      CallEffect(m, ev);
      if Refusal(m, ev.ec, ev.caller, ev.request) == None && IsWrite(ev.request)
         && Written(m, ev.ec, ev.caller, ev.request).Some? {
        RefusalPassed(m, ev.ec, ev.caller, ev.request);
        WrittenIsClassified(m, ev.ec, ev.caller, ev.request);
        WrittenIsPlain(m, ev.ec, ev.caller, ev.request);
      }
    }
  }

  lemma GateAddsMarked(m: Mem, g: Gate, token: nat, r: PromotionRequest)
    requires Inv(m)
    ensures MarkedAddition(m, Promote(m, g, token, r).0)
  {
    hide Inv, Decide, Classified, Committable;
    var binding := Lookup(g.bindings, token);
    if Decide(m, g, binding, r).stored.Some? {
      StoredIsCommittable(m, g, binding, r);
      StoredIsNew(m, g, binding, r);
    }
  }

  lemma DeskAddsMarked(m: Mem, d: O.Desk, token: nat, r: O.ReflectionRequest)
    requires Inv(m) && O.DeskReady(d) && L.DeskTokens(m, d)
    ensures MarkedAddition(m, O.Admit(m, d, token, r).0)
  {
    hide Inv, O.Rule, O.Examine, PolicyState, O.WellFormedConfig;
    L.StoringAdmission(m, d, token, r);
    var ec := Lookup(d.bindings, token);
    if O.Rule(m, d, ec, r).stored.Some? {
      L.StoredRuling(m, d, ec, r);
      L.ReflectionIsNew(m, ec.value, r.candidate);
      InvHasIdentities(m);
      L.IssuedDomain(m, ec.value);
    }
  }

  lemma PerformAddsMarked(w: World, act: Act)
    requires WorldInv(w) && O.DeskReady(w.desk)
    ensures MarkedAddition(w.mem, Perform(w, act).mem)
  {
    WorldHasInv(w);
    InvHasReadyDesk(w);
    hide WorldInv, Inv, GatesInv, L.DeskInv, MarkedAddition, Step, Promote, O.Admit, O.DeskReady, L.DeskTokens, Perform;
    match act
    case Memory(ev) =>
      PerformsMemory(w, ev);
      MemoryAddsMarked(w.mem, ev);
    case Requests(k, token, r) =>
      if k < |w.gates| {
        PerformsRequest(w, k, token, r);
        GateAddsMarked(w.mem, w.gates[k], token, r);
      } else {
        PerformsNothing(w, act);
        StoresNothing(w.mem, w.mem);
      }
    case Reflects(token, r) =>
      PerformsReflection(w, token, r);
      DeskAddsMarked(w.mem, w.desk, token, r);
    case _ =>
      IssuesOnlyBegin(w, act);
      StoresNothing(w.mem, Perform(w, act).mem);
  }

  lemma IssuesOnlyBegin(w: World, act: Act)
    requires O.DeskReady(w.desk)
    ensures !(act.Memory? || act.Requests? || act.Reflects?) ==> Perform(w, act).mem.raw == w.mem.raw
  {
  }

  lemma StoresNothing(a: Mem, b: Mem)
    requires a.raw == b.raw
    ensures MarkedAddition(a, b)
  {
  }

  lemma {:induction false} TraceKeepsMarked(worlds: seq<World>, acts: seq<Act>, i: nat)
    requires Trace(worlds, acts) && WorldInv(worlds[0]) && Marked(worlds[0].mem.raw) && i < |worlds|
    ensures Marked(worlds[i].mem.raw)
  {
    hide WorldInv, Perform, Marked, MarkedAddition;
    if i > 0 {
      TraceKeepsMarked(worlds, acts, i - 1);
      TraceKeepsWorldInv(worlds, acts, i - 1, i - 1);
      assert Follows(worlds, acts, i - 1);
      PerformAddsMarked(worlds[i - 1], acts[i - 1]);
      AdditionKeepsMarked(worlds[i - 1].mem, worlds[i].mem);
    }
  }

  /** A policy that starts valid is valid in a later state exactly when no reflection
      was stored in the public domain; neither callers nor the gate can break it. */
  lemma {:induction false} PolicyValidIffNoPublicReflection(worlds: seq<World>, acts: seq<Act>, i: nat,
                                                            ec: ExecutionContext)
    requires Trace(worlds, acts) && WorldInv(worlds[0]) && Marked(worlds[0].mem.raw) && i < |worlds|
    requires ec in worlds[0].mem.executions && PolicyState(worlds[0].mem, ec) == None
    ensures PolicyState(worlds[i].mem, ec) == None <==> !PublicReflection(worlds[i].mem.raw)
  {
    hide WorldInv, Perform, Marked, PublicReflection, LaterGates, AllClassified;
    TraceKeepsMarked(worlds, acts, i);
    TraceKeepsWorldInv(worlds, acts, 0, i);
    MemoryParts(worlds[0]);
    MarkedIsClassifiedIff(worlds[i].mem.raw);
    PolicyByClassification(worlds[0].mem, worlds[i].mem, ec);
  }

  lemma PolicyByClassification(a: Mem, b: Mem, ec: ExecutionContext)
    requires Grows(a, b) && ec in a.security && PolicyState(a, ec) == None
    ensures PolicyState(b, ec) == None <==> AllClassified(b.raw)
  {
    assert DenyKnown(a.cfg.policy.value, b.raw);
  }
}
