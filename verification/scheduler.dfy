/** The in-process scheduler: strict FIFO, one active host run, terminal records. */
module Schedulers {
  import opened Text
  import opened Suites

  datatype RunState = Submitted | Queued | Preflight | Running | Collecting
                    | PassState | FailState | BlockedState | Interrupted

  predicate Terminal(s: RunState) {
    s in {PassState, FailState, BlockedState, Interrupted}
  }

  /** `RunState(result.value)` */
  function StateOf(r: Verdict): RunState {
    match r
    case Pass => PassState
    case Fail => FailState
    case Blocked => BlockedState
  }

  datatype QueueEntry = QueueEntry(runId: string, submission: nat, suiteName: string)

  datatype RunRecord = RunRecord(runId: string, suite: Suite, worktree: string, state: RunState,
                                 prerequisites: Prerequisites, steps: seq<StepReport>,
                                 result: Option<Verdict>, reason: string)

  /** `counter` is the next number; run ids are unique, so the active record is named
      by its id. */
  datatype Sched = Sched(queue: seq<QueueEntry>, active: Option<string>, runs: map<string, RunRecord>,
                         counter: nat, admissions: nat)

  const IDLE := Sched([], None, map[], 1, 0)

  type Probing = Suite -> Prerequisites
  type Executing = (Suite, string, Prerequisites) -> ExecOutcome

  function RunId(n: nat): string {
    Numbered("run-", n)
  }

  function FreshRecord(n: nat, suite: Suite, worktree: string): RunRecord {
    RunRecord(RunId(n), suite, worktree, Submitted, map[], [], None, "")
  }

  function BlockedRecord(r: RunRecord, p: Prerequisites): RunRecord {
    r.(prerequisites := p, result := Some(Blocked), state := BlockedState,
       reason := "missing prerequisites: " + BlockedText(p))
  }

  function FinishedRecord(r: RunRecord, o: ExecOutcome): RunRecord {
    match o
    case Returned(result, reports, reason) =>
      r.(steps := reports, result := Some(result), reason := reason, state := StateOf(result))
    case Raised(message) =>
      r.(result := Some(Fail), reason := "executor error: " + message, state := FailState)
  }

  /** `_advance`; an executor that raises leaves the record running and the caller
      without an id. */
  function Advanced(r: RunRecord, p: Prerequisites, execute: Executing): (RunRecord, bool) {
    if BlockedNames(p) != {} then (BlockedRecord(r, p), true)
    else
      var r' := r.(prerequisites := p, state := Running);
      var o := execute(r.suite, r.worktree, p);
      if o.Raised? then (r', false) else (FinishedRecord(r', o), true)
  }

  /** `submit`; `suite` is `None` for a refused submission. */
  function Submit(s: Sched, suite: Option<Suite>, worktree: string, probe: Probing, execute: Executing):
    (Sched, Option<string>)
  {
    if suite == None then (s, None)
    else
      var record := FreshRecord(s.counter, suite.value, worktree);
      if suite.value.verificationClass == Hermetic then
        var (done, returned) := Advanced(record, probe(suite.value), execute);
        (s.(runs := s.runs[record.runId := done], counter := s.counter + 1),
         if returned then Some(record.runId) else None)
      else
        (s.(runs := s.runs[record.runId := record.(state := Queued)],
            queue := s.queue + [QueueEntry(record.runId, s.counter + 1, suite.value.name)],
            counter := s.counter + 2),
         Some(record.runId))
  }

  /** `tick` */
  function Tick(s: Sched, probe: Probing): (Sched, Option<string>) {
    if s.active.Some? || s.queue == [] || s.queue[0].runId !in s.runs then (s, None)
    else
      var id := s.queue[0].runId;
      var record := s.runs[id];
      var p := probe(record.suite);
      var popped := s.(queue := s.queue[1..]);
      if BlockedNames(p) != {} then (popped.(runs := s.runs[id := BlockedRecord(record, p)], active := None), Some(id))
      else (popped.(runs := s.runs[id := record.(prerequisites := p, state := Running)],
                    active := Some(id), admissions := s.admissions + 1), Some(id))
  }

  /** `run`; refused (`false`) unless the run is the active one. */
  function RunActive(s: Sched, id: string, execute: Executing): (Sched, bool) {
    if id !in s.runs || s.active != Some(id) then (s, false)
    else
      var r := s.runs[id];
      (s.(runs := s.runs[id := FinishedRecord(r, execute(r.suite, r.worktree, r.prerequisites))], active := None), true)
  }

  /** `interrupt` */
  function Interrupt(s: Sched, id: string, reason: string): Sched {
    if id !in s.runs || s.active != Some(id) then s
    else
      s.(runs := s.runs[id := s.runs[id].(result := Some(Blocked), state := Interrupted,
                                          reason := if reason == "" then "interrupted" else "interrupted: " + reason)],
         active := None)
  }

  // ----- what each call does, field by field -------------------------------------

  /** The terminal state a verdict gives. */
  predicate Ends(state: RunState, result: Verdict) {
    match result
    case Pass => state == PassState
    case Fail => state == FailState
    case Blocked => state == BlockedState
  }

  /** `r` ended with just what its executor gave; one that raised is a truthful FAIL that
      quotes the error and reports no step. */
  predicate EndedBy(before: RunRecord, o: ExecOutcome, r: RunRecord) {
    && r.runId == before.runId && r.suite == before.suite && r.worktree == before.worktree
    && r.prerequisites == before.prerequisites
    && match o
       case Returned(result, reports, reason) =>
         r.result == Some(result) && Ends(r.state, result) && r.steps == reports && r.reason == reason
       case Raised(message) =>
         && r.result == Some(Fail) && r.state == FailState && r.steps == before.steps
         && r.reason == "executor error: " + message
  }

  /** `r` ended blocked by what `p` did not find, before anything was run. */
  predicate EndedBlocked(before: RunRecord, p: Prerequisites, r: RunRecord) {
    && r.runId == before.runId && r.suite == before.suite && r.worktree == before.worktree
    && r.prerequisites == p && r.steps == before.steps
    && r.result == Some(Blocked) && r.state == BlockedState && r.reason == "missing prerequisites: " + BlockedText(p)
  }

  /** Only the record under `id` changed, and the slot is free. */
  predicate FreesSlot(s: Sched, id: string, s': Sched) {
    && id in s'.runs && s' == s.(runs := s.runs[id := s'.runs[id]], active := None)
  }

  /** `run` ends exactly the active run, with what its own executor gave. */
  lemma RunLaw(s: Sched, id: string, execute: Executing)
    ensures var (s', accepted) := RunActive(s, id, execute);
            && (accepted <==> id in s.runs && s.active == Some(id))
            && (!accepted ==> s' == s)
            && (accepted ==>
                  var r := s.runs[id];
                  FreesSlot(s, id, s') && EndedBy(r, execute(r.suite, r.worktree, r.prerequisites), s'.runs[id]))
  {
  }

  /** `interrupt` ends exactly the active run as interrupted, with the reason if one is given,
      and keeps the rest of its record. */
  lemma InterruptLaw(s: Sched, id: string, reason: string)
    ensures var s' := Interrupt(s, id, reason);
            if id in s.runs && s.active == Some(id) then
              && FreesSlot(s, id, s')
              && (var r, r' := s.runs[id], s'.runs[id];
                  && r'.result == Some(Blocked) && r'.state == Interrupted
                  && r'.reason == (if |reason| > 0 then "interrupted: " + reason else "interrupted")
                  && (r'.runId, r'.suite, r'.worktree, r'.prerequisites, r'.steps)
                     == (r.runId, r.suite, r.worktree, r.prerequisites, r.steps))
            else s' == s
  {
  }

  /** `tick` takes the head of the queue when nothing is active: the run starts, or ends
      blocked when some prerequisite stops it. */
  lemma TickLaw(s: Sched, probe: Probing)
    requires SchedInv(s)
    ensures var (s', id) := Tick(s, probe);
            && (id == None <==> s.active.Some? || s.queue == [])
            && (id == None ==> s' == s)
            && (id.Some? ==>
                  && id.value == s.queue[0].runId && id.value in s.runs && id.value in s'.runs
                  && var r, r' := s.runs[id.value], s'.runs[id.value];
                     var p := probe(r.suite);
                     if exists n :: Stops(p, n) then
                       && EndedBlocked(r, p, r')
                       && s' == s.(queue := s.queue[1..], runs := s.runs[id.value := r'])
                     else
                       && r' == r.(prerequisites := p, state := Running)
                       && s' == s.(queue := s.queue[1..], runs := s.runs[id.value := r'], active := id,
                                   admissions := s.admissions + 1))
  {
    if s.queue != [] {
      HeadIsQueued(s);
      hide SchedInv, BlockedText;
      var names, texts := BlockedTextMeans(probe(s.runs[s.queue[0].runId].suite));
    }
  }

  /** `submit` gives a fresh numbered id. A host run is queued last; a hermetic one is driven
      at once, blocked or ended by its executor, and left running when that raises. */
  lemma SubmitLaw(s: Sched, suite: Suite, worktree: string, probe: Probing, execute: Executing)
    requires SchedInv(s)
    ensures var (s', returned) := Submit(s, Some(suite), worktree, probe, execute);
            var id, p := "run-" + Decimal(s.counter), probe(suite);
            var blank := RunRecord(id, suite, worktree, Submitted, map[], [], None, "");
            && id !in s.runs && id in s'.runs && s'.active == s.active && s'.admissions == s.admissions
            && s'.runs == s.runs[id := s'.runs[id]]
            && if suite.verificationClass != Hermetic then
                 && returned == Some(id) && s'.runs[id] == blank.(state := Queued) && s'.counter == s.counter + 2
                 && s'.queue == s.queue + [QueueEntry(id, s.counter + 1, suite.name)]
               else
                 && s'.counter == s.counter + 1 && s'.queue == s.queue
                 && if exists n :: Stops(p, n) then returned == Some(id) && EndedBlocked(blank, p, s'.runs[id])
                    else
                      var o := execute(suite, worktree, p);
                      if o.Raised? then returned == None && s'.runs[id] == blank.(prerequisites := p, state := Running)
                      else returned == Some(id) && EndedBy(blank.(prerequisites := p), o, s'.runs[id])
  {
    FreshIdIsNew(s);
    hide SchedInv, Advanced, EndedBlocked, EndedBy, Stops;
    AdvancedLaw(FreshRecord(s.counter, suite, worktree), probe(suite), execute);
  }

  lemma AdvancedLaw(r: RunRecord, p: Prerequisites, execute: Executing)
    ensures var (done, returned) := Advanced(r, p, execute);
            if exists n :: Stops(p, n) then returned && EndedBlocked(r, p, done)
            else
              var o := execute(r.suite, r.worktree, p);
              if o.Raised? then !returned && done == r.(prerequisites := p, state := Running)
              else returned && EndedBy(r.(prerequisites := p), o, done)
  {
    hide BlockedText;
    var names, texts := BlockedTextMeans(p);
  }

  // ----- invariant ---------------------------------------------------------------

  predicate IsHost(r: RunRecord) {
    r.suite.verificationClass != Hermetic
  }

  function Ids(queue: seq<QueueEntry>): (r: seq<string>)
    ensures |r| == |queue| && forall i | 0 <= i < |r| :: r[i] == queue[i].runId
  {
    seq(|queue|, i requires 0 <= i < |queue| => queue[i].runId)
  }

  ghost predicate NumberedBelow(id: string, counter: nat) {
    exists n: nat :: n < counter && id == RunId(n)
  }

  ghost predicate IdsKnown(s: Sched) {
    forall id | id in s.runs :: s.runs[id].runId == id && NumberedBelow(id, s.counter)
  }

  ghost predicate QueueDistinct(s: Sched) {
    forall i, j | 0 <= i < j < |s.queue| :: s.queue[i].runId != s.queue[j].runId
  }

  /** A host record is queued, active, or terminal - exactly one of them. */
  ghost predicate Placed(s: Sched, id: string)
    requires id in s.runs
  {
    var r, queued, active := s.runs[id], id in Ids(s.queue), s.active == Some(id);
    && (queued <==> r.state == Queued)
    && (active <==> r.state == Running)
    && (queued || active || Terminal(r.state))
  }

  ghost predicate HostPlaced(s: Sched) {
    forall id | id in s.runs && IsHost(s.runs[id]) :: Placed(s, id)
  }

  ghost predicate OnlyHostsWait(s: Sched) {
    && (forall i | 0 <= i < |s.queue| :: s.queue[i].runId in s.runs && IsHost(s.runs[s.queue[i].runId]))
    && (s.active.Some? ==> s.active.value in s.runs && IsHost(s.runs[s.active.value]))
  }

  ghost predicate SchedInv(s: Sched) {
    IdsKnown(s) && QueueDistinct(s) && HostPlaced(s) && OnlyHostsWait(s)
  }

  /** What any environment and any caller may do next. */
  datatype Event = Submits(suite: Option<Suite>, worktree: string, probe: Probing, execute: Executing)
                 | Ticks(probe: Probing)
                 | Runs(id: string, execute: Executing)
                 | Interrupts(id: string, reason: string)

  function Next(s: Sched, ev: Event): Sched {
    match ev
    case Submits(suite, worktree, probe, execute) => Submit(s, suite, worktree, probe, execute).0
    case Ticks(probe) => Tick(s, probe).0
    case Runs(id, execute) => RunActive(s, id, execute).0
    case Interrupts(id, reason) => Interrupt(s, id, reason)
  }

  function After(s: Sched, events: seq<Event>): Sched
    decreases |events|
  {
    if events == [] then s else After(Next(s, events[0]), events[1..])
  }

  // ----- each step keeps the invariant ----------------------------------------------

  lemma FreshIdIsNew(s: Sched)
    requires IdsKnown(s)
    ensures RunId(s.counter) !in s.runs
  {
    if RunId(s.counter) in s.runs {
      var n: nat :| n < s.counter && RunId(s.counter) == RunId(n);
      NumberedInjective("run-", s.counter, n);
    }
  }

  lemma IdsMembers(queue: seq<QueueEntry>, id: string)
    ensures id in Ids(queue) <==> exists i | 0 <= i < |queue| :: queue[i].runId == id
  {
    if id in Ids(queue) {
      var i :| 0 <= i < |queue| && Ids(queue)[i] == id;
      assert queue[i].runId == id;
    }
    if i :| 0 <= i < |queue| && queue[i].runId == id {
      assert Ids(queue)[i] == id;
    }
  }

  lemma KeepsIdsKnown(s: Sched, s': Sched, id: string)
    requires IdsKnown(s) && s.counter <= s'.counter && s'.runs.Keys == s.runs.Keys + {id}
    requires id in s.runs || (exists n: nat :: n < s'.counter && id == RunId(n))
    requires forall i | i in s'.runs :: s'.runs[i].runId == i
    ensures IdsKnown(s')
  {
    forall i | i in s'.runs ensures NumberedBelow(i, s'.counter) {
      if i in s.runs {
        var n: nat :| n < s.counter && i == RunId(n);
      }
    }
  }

  lemma SubmitKeepsInv(s: Sched, suite: Suite, worktree: string, probe: Probing, execute: Executing)
    requires SchedInv(s)
    ensures SchedInv(Submit(s, Some(suite), worktree, probe, execute).0)
  {
    hide BlockedText, RunId;
    var s', id := Submit(s, Some(suite), worktree, probe, execute).0, RunId(s.counter);
    FreshIdIsNew(s);
    KeepsIdsKnown(s, s', id);
    assert Ids(s'.queue) == if suite.verificationClass != Hermetic then Ids(s.queue) + [id] else Ids(s.queue);
    assert id !in Ids(s.queue) by { IdsMembers(s.queue, id); }
  }

  lemma HeadLeaves(s: Sched, i: string)
    requires QueueDistinct(s) && s.queue != []
    ensures i in Ids(s.queue[1..]) <==> i in Ids(s.queue) && i != s.queue[0].runId
  {
    IdsMembers(s.queue, i);
    IdsMembers(s.queue[1..], i);
    if i in Ids(s.queue[1..]) {
      var k :| 0 <= k < |s.queue[1..]| && s.queue[1..][k].runId == i;
      assert s.queue[k + 1].runId == i;
    }
    if i in Ids(s.queue) && i != s.queue[0].runId {
      var k :| 0 <= k < |s.queue| && s.queue[k].runId == i;
      assert s.queue[1..][k - 1].runId == i;
    }
  }

  lemma TickKeepsInv(s: Sched, probe: Probing)
    requires SchedInv(s)
    ensures SchedInv(Tick(s, probe).0)
  {
    hide BlockedText, Ids, BlockedNames, NumberedBelow;
    if s.active == None && s.queue != [] {
      var id, s' := s.queue[0].runId, Tick(s, probe).0;
      KeepsIdsKnown(s, s', id);
      forall i ensures i in Ids(s'.queue) <==> i in Ids(s.queue) && i != id { HeadLeaves(s, i); }
    }
  }

  lemma QueuedIsNotActive(s: Sched, id: string)
    requires SchedInv(s) && s.active == Some(id)
    ensures id !in Ids(s.queue)
  {
  }

  lemma LeaveActiveKeepsInv(s: Sched, id: string, r: RunRecord)
    requires SchedInv(s) && s.active == Some(id)
    requires r.runId == id && r.suite == s.runs[id].suite && Terminal(r.state)
    ensures SchedInv(s.(runs := s.runs[id := r], active := None))
  {
    hide Ids, NumberedBelow;
    QueuedIsNotActive(s, id);
    KeepsIdsKnown(s, s.(runs := s.runs[id := r], active := None), id);
  }

  lemma NextKeepsInv(s: Sched, ev: Event)
    requires SchedInv(s)
    ensures SchedInv(Next(s, ev))
  {
    hide SchedInv, BlockedText;
    match ev
    case Submits(suite, worktree, probe, execute) =>
      if suite.Some? { SubmitKeepsInv(s, suite.value, worktree, probe, execute); }
    case Ticks(probe) => TickKeepsInv(s, probe);
    case Runs(id, execute) =>
      if id in s.runs && s.active == Some(id) {
        ActiveHasOwnId(s, id);
        LeaveActiveKeepsInv(s, id, Next(s, ev).runs[id]);
      }
    case Interrupts(id, reason) =>
      if id in s.runs && s.active == Some(id) {
        ActiveHasOwnId(s, id);
        LeaveActiveKeepsInv(s, id, Next(s, ev).runs[id]);
      }
  }

  lemma ActiveHasOwnId(s: Sched, id: string)
    requires SchedInv(s) && id in s.runs
    ensures s.runs[id].runId == id
  {
  }

  lemma {:induction false} AfterKeepsInv(s: Sched, events: seq<Event>)
    requires SchedInv(s)
    ensures SchedInv(After(s, events))
    decreases |events|
  {
    if events != [] {
      hide SchedInv, Next;
      NextKeepsInv(s, events[0]);
      AfterKeepsInv(Next(s, events[0]), events[1..]);
    }
  }

  // ----- FIFO ------------------------------------------------------------------------

  /** The host id a step accepts, if any. */
  function AcceptedBy(s: Sched, ev: Event): seq<string> {
    if ev.Submits? && ev.suite.Some? && ev.suite.value.verificationClass != Hermetic then [RunId(s.counter)] else []
  }

  /** The id `tick` returns, if any. */
  function AdmittedBy(s: Sched, ev: Event): seq<string> {
    var id := if ev.Ticks? then Tick(s, ev.probe).1 else None;
    if id.Some? then [id.value] else []
  }

  /** Host run ids in the order their submissions were accepted. */
  function HostSubmissions(s: Sched, events: seq<Event>): seq<string>
    decreases |events|
  {
    if events == [] then []
    else AcceptedBy(s, events[0]) + HostSubmissions(Next(s, events[0]), events[1..])
  }

  /** What `tick` returned, in order. */
  function Admissions(s: Sched, events: seq<Event>): seq<string>
    decreases |events|
  {
    if events == [] then []
    else AdmittedBy(s, events[0]) + Admissions(Next(s, events[0]), events[1..])
  }

  lemma SubmitQueue(s: Sched, suite: Suite, worktree: string, probe: Probing, execute: Executing)
    ensures var ev := Submits(Some(suite), worktree, probe, execute);
            Ids(Next(s, ev).queue) == Ids(s.queue) + AcceptedBy(s, ev)
  {
    hide RunId, Advanced;
  }

  lemma TickQueue(s: Sched, probe: Probing)
    ensures Ids(s.queue) == AdmittedBy(s, Ticks(probe)) + Ids(Tick(s, probe).0.queue)
  {
    hide BlockedRecord, BlockedNames;
  }

  /** One step moves ids from the host submissions to the queue, or from its head out. */
  lemma QueueStep(s: Sched, ev: Event)
    ensures Ids(s.queue) + AcceptedBy(s, ev) == AdmittedBy(s, ev) + Ids(Next(s, ev).queue)
  {
    hide Ids, Tick, FinishedRecord, RunId, FreshRecord, Advanced;
    match ev
    case Submits(suite, worktree, probe, execute) =>
      if suite.Some? { SubmitQueue(s, suite.value, worktree, probe, execute); }
    case Ticks(probe) => TickQueue(s, probe);
    case Runs(id, execute) =>
    case Interrupts(id, reason) =>
  }

  /** Over every run: what waited before, then the host submissions in order, are the ids
      `tick` returned followed by the queue. Nothing overtakes, is lost or repeated. */
  lemma {:induction false} StrictFifo(s: Sched, events: seq<Event>)
    ensures Ids(s.queue) + HostSubmissions(s, events) == Admissions(s, events) + Ids(After(s, events).queue)
    decreases |events|
  {
    hide Next, Ids, AcceptedBy, AdmittedBy;
    if events == [] {
      assert Ids(s.queue) + [] == [] + Ids(s.queue);
    } else {
      var s' := Next(s, events[0]);
      var q, h, a, left := Ids(s.queue), HostSubmissions(s', events[1..]), Admissions(s', events[1..]),
                           Ids(After(s, events).queue);
      var x, y := AcceptedBy(s, events[0]), AdmittedBy(s, events[0]);
      QueueStep(s, events[0]);
      StrictFifo(s', events[1..]);
      assert q + (x + h) == (q + x) + h == (y + Ids(s'.queue)) + h == y + (Ids(s'.queue) + h);
      assert y + (a + left) == (y + a) + left;
    }
  }

  /** From the start: accepted host submissions are what was admitted plus what waits. */
  lemma FifoFromStart(events: seq<Event>)
    ensures SchedInv(After(IDLE, events))
    ensures HostSubmissions(IDLE, events) == Admissions(IDLE, events) + Ids(After(IDLE, events).queue)
  {
    AfterKeepsInv(IDLE, events);
    StrictFifo(IDLE, events);
    assert Ids([]) + HostSubmissions(IDLE, events) == HostSubmissions(IDLE, events);
  }

  // ----- terminal records ---------------------------------------------------------------

  /** A finished host record or any record not waiting is never written again. */
  lemma TerminalStays(s: Sched, ev: Event, id: string)
    requires SchedInv(s) && id in s.runs && Terminal(s.runs[id].state)
    ensures id in Next(s, ev).runs && Next(s, ev).runs[id] == s.runs[id]
  {
    hide BlockedText, RunId, Ids;
    FreshIdIsNew(s);
    if ev.Ticks? && s.active == None && s.queue != [] {
      HeadIsQueued(s);
    }
  }

  lemma HeadIsQueued(s: Sched)
    requires SchedInv(s) && s.queue != []
    ensures s.queue[0].runId in s.runs && s.runs[s.queue[0].runId].state == Queued
  {
    assert Ids(s.queue)[0] == s.queue[0].runId;
    assert Placed(s, s.queue[0].runId);
  }

  lemma {:induction false} TerminalForever(s: Sched, events: seq<Event>, id: string)
    requires SchedInv(s) && id in s.runs && Terminal(s.runs[id].state)
    ensures id in After(s, events).runs && After(s, events).runs[id] == s.runs[id]
    decreases |events|
  {
    if events != [] {
      hide SchedInv, Next;
      NextKeepsInv(s, events[0]);
      TerminalStays(s, events[0], id);
      TerminalForever(Next(s, events[0]), events[1..], id);
    }
  }

  // ----- results over whole runs -----------------------------------------------------

  /** State and result tell the same. */
  predicate Settled(r: RunRecord) {
    match r.state
    case PassState => r.result == Some(Pass)
    case FailState => r.result == Some(Fail)
    case BlockedState => r.result == Some(Blocked)
    case Interrupted => r.result == Some(Blocked)
    case _ => r.result == None
  }

  ghost predicate AllSettled(s: Sched) {
    forall id | id in s.runs :: Settled(s.runs[id])
  }

  lemma NextKeepsSettled(s: Sched, ev: Event)
    requires SchedInv(s) && AllSettled(s)
    ensures AllSettled(Next(s, ev))
  {
    hide BlockedText, RunId, Ids, SchedInv, Stops;
    match ev
    case Submits(suite, worktree, probe, execute) =>
      if suite.Some? {
        SubmitLaw(s, suite.value, worktree, probe, execute);
        hide Submit;
      }
    case Ticks(probe) =>
      TickLaw(s, probe);
      if s.queue != [] {
        HeadIsQueued(s);
        assert Settled(s.runs[s.queue[0].runId]);
      }
      hide Tick;
    case Runs(id, execute) => RunLaw(s, id, execute);
    case Interrupts(id, reason) => InterruptLaw(s, id, reason);
  }

  /** In every reachable state each record's state and result tell the same. */
  lemma {:induction false} AfterKeepsSettled(s: Sched, events: seq<Event>)
    requires SchedInv(s) && AllSettled(s)
    ensures AllSettled(After(s, events))
    decreases |events|
  {
    hide SchedInv, AllSettled, Next;
    if events != [] {
      NextKeepsInv(s, events[0]);
      NextKeepsSettled(s, events[0]);
      AfterKeepsSettled(Next(s, events[0]), events[1..]);
    }
  }

  lemma {:induction false} AfterSnoc(s: Sched, events: seq<Event>, ev: Event)
    ensures After(s, events + [ev]) == Next(After(s, events), ev)
    decreases |events|
  {
    hide Next;
    if events != [] {
      assert (events + [ev])[0] == events[0] && (events + [ev])[1..] == events[1..] + [ev];
      AfterSnoc(Next(s, events[0]), events[1..], ev);
    } else {
      assert ([ev])[1..] == [] && events + [ev] == [ev];
      assert After(Next(s, ev), []) == Next(s, ev);
    }
  }

  /** At its `k`-th call the run under `id` was executed, as the active host run or as a
      submitted hermetic one, and its own executor gave just what its record says. */
  ghost predicate ExecutedAt(s: Sched, events: seq<Event>, k: nat, id: string, r: RunRecord) {
    k < |events| &&
    match events[k]
    case Runs(i, execute) =>
      && i == id && After(s, events[..k]).active == Some(id)
      && execute(r.suite, r.worktree, r.prerequisites) == Returned(Pass, r.steps, r.reason)
    case Submits(suite, worktree, _, execute) =>
      && suite == Some(r.suite) && r.suite.verificationClass == Hermetic && worktree == r.worktree
      && id == "run-" + Decimal(After(s, events[..k]).counter)
      && execute(r.suite, r.worktree, r.prerequisites) == Returned(Pass, r.steps, r.reason)
    case _ => false
  }

  /** One call turns a record into a PASS only by executing it. */
  lemma PassStep(s: Sched, ev: Event, id: string)
    requires SchedInv(s) && id in Next(s, ev).runs && Next(s, ev).runs[id].state == PassState
    requires id !in s.runs || s.runs[id].state != PassState
    ensures ExecutedAt(s, [ev], 0, id, Next(s, ev).runs[id])
  {
    hide BlockedText, SchedInv, Stops;
    assert [ev][..0] == [] && After(s, []) == s;
    match ev
    case Submits(suite, worktree, probe, execute) =>
      if suite.Some? {
        hide Submit;
        SubmitLaw(s, suite.value, worktree, probe, execute);
      }
    case Ticks(probe) =>
      hide Tick;
      TickLaw(s, probe);
    case Runs(i, execute) =>
      hide RunActive;
      RunLaw(s, i, execute);
    case Interrupts(i, reason) =>
      hide Interrupt;
      InterruptLaw(s, i, reason);
  }

  lemma ExecutedEarlier(s: Sched, events: seq<Event>, k: nat, id: string, r: RunRecord, last: Event)
    requires ExecutedAt(s, events, k, id, r)
    ensures ExecutedAt(s, events + [last], k, id, r)
  {
    assert (events + [last])[k] == events[k] && (events + [last])[..k] == events[..k];
  }

  lemma ExecutedLast(s: Sched, events: seq<Event>, last: Event, id: string, r: RunRecord)
    requires ExecutedAt(After(s, events), [last], 0, id, r)
    ensures ExecutedAt(s, events + [last], |events|, id, r)
  {
    assert (events + [last])[|events|] == last && (events + [last])[..|events|] == events;
    assert [last][..0] == [] && After(After(s, events), []) == After(s, events);
  }

  /** PASS is earned: over every run of calls a record ends as PASS only when its own execute
      call returned PASS, with the steps and the reason that call gave. */
  lemma {:induction false} PassIsEarned(s: Sched, events: seq<Event>, id: string) returns (k: nat)
    requires SchedInv(s) && id !in s.runs
    requires id in After(s, events).runs && After(s, events).runs[id].state == PassState
    ensures ExecutedAt(s, events, k, id, After(s, events).runs[id])
    decreases |events|
  {
    hide SchedInv, Next, ExecutedAt;
    k := 0;
    if events != [] {
      var init, last := events[..|events| - 1], events[|events| - 1];
      var before := After(s, init);
      assert events == init + [last];
      AfterSnoc(s, init, last);
      AfterKeepsInv(s, init);
      if id in before.runs && before.runs[id].state == PassState {
        TerminalStays(before, last, id);
        k := PassIsEarned(s, init, id);
        ExecutedEarlier(s, init, k, id, before.runs[id], last);
      } else {
        PassStep(before, last, id);
        ExecutedLast(s, init, last, id, After(s, events).runs[id]);
        k := |init|;
      }
    }
  }

  /** At most one host run is running, and an interruption or a finished run always
      frees the slot for the next in line. */
  lemma OneActive(s: Sched, a: string, b: string)
    requires SchedInv(s) && a in s.runs && b in s.runs && IsHost(s.runs[a]) && IsHost(s.runs[b])
    requires s.runs[a].state == Running && s.runs[b].state == Running
    ensures a == b
  {
    assert Placed(s, a) && Placed(s, b);
  }

  lemma FreedSlotAdmitsNext(s: Sched, id: string, reason: string, execute: Executing, probe: Probing)
    requires SchedInv(s) && s.active == Some(id) && s.queue != []
    ensures Tick(Interrupt(s, id, reason), probe).1 == Some(s.queue[0].runId)
    ensures Tick(RunActive(s, id, execute).0, probe).1 == Some(s.queue[0].runId)
  {
    hide BlockedText, Ids;
  }

  // ----- the object ------------------------------------------------------------------------

  /** `Scheduler`. The executor and the probes are fixed at construction. */
  class Scheduler {
    const probe: Probing
    const execute: Executing
    var queue: seq<QueueEntry>
    var active: Option<string>
    var runs: map<string, RunRecord>
    var counter: nat
    var admissions: nat

    function State(): Sched
      reads this
    {
      Sched(queue, active, runs, counter, admissions)
    }

    ghost predicate Valid()
      reads this
    {
      SchedInv(State())
    }

    constructor (probe: Probing, execute: Executing)
      ensures Valid() && State() == IDLE && this.probe == probe && this.execute == execute
    {
      this.probe, this.execute := probe, execute;
      queue, active, runs, counter, admissions := [], None, map[], 1, 0;
    }

    method SubmitSuite(suite: Option<Suite>, worktree: string) returns (id: Option<string>)
      requires Valid()
      modifies this
      ensures Valid()
      ensures (State(), id) == Submit(old(State()), suite, worktree, probe, execute)
    {
      hide SchedInv, BlockedText, RunId;
      NextKeepsInv(State(), Submits(suite, worktree, probe, execute));
      if suite == None { return None; }
      var record := FreshRecord(counter, suite.value, worktree);
      counter := counter + 1;
      if suite.value.verificationClass == Hermetic {
        var done, returned := Advance(record);
        runs := runs[record.runId := done];
        return if returned then Some(record.runId) else None;
      }
      queue := queue + [QueueEntry(record.runId, counter, suite.value.name)];
      counter := counter + 1;
      runs := runs[record.runId := record.(state := Queued)];
      return Some(record.runId);
    }

    /** `_advance`, through its states. */
    method Advance(r: RunRecord) returns (done: RunRecord, returned: bool)
      ensures (done, returned) == Advanced(r, probe(r.suite), execute)
      ensures done.runId == r.runId && done.suite == r.suite && done.worktree == r.worktree
      ensures returned ==> Terminal(done.state) && done.result.Some? && done.state == StateOf(done.result.value)
      ensures !returned ==> done.state == Running && done.result == r.result && done.steps == r.steps
      ensures returned <==> BlockedNames(probe(r.suite)) != {} || execute(r.suite, r.worktree, probe(r.suite)).Returned?
      ensures BlockedNames(probe(r.suite)) != {} ==> done.result == Some(Blocked) && done.steps == r.steps
    {
      hide BlockedText;
      done := r.(state := Preflight);
      var p := probe(done.suite);
      done := done.(prerequisites := p);
      if BlockedNames(p) != {} {
        done := BlockedRecord(done, p);
        return done, true;
      }
      done := done.(state := Running);
      var o := execute(done.suite, done.worktree, p);
      if o.Raised? { return done, false; }
      done := done.(state := Collecting);
      done := FinishedRecord(done, o);
      return done, true;
    }

    method AdmitNext() returns (id: Option<string>)
      requires Valid()
      modifies this
      ensures Valid()
      ensures (State(), id) == Tick(old(State()), probe)
    {
      hide SchedInv, BlockedText;
      NextKeepsInv(State(), Ticks(probe));
      if active.Some? || queue == [] { return None; }
      HeadIsQueued(State());
      var entry := queue[0];
      queue := queue[1..];
      var record := runs[entry.runId].(state := Preflight);
      var p := probe(record.suite);
      record := record.(prerequisites := p);
      if BlockedNames(p) != {} {
        runs := runs[entry.runId := BlockedRecord(record, p)];
        active := None;
        return Some(entry.runId);
      }
      admissions := admissions + 1;
      active := Some(entry.runId);
      runs := runs[entry.runId := record.(state := Running)];
      return Some(entry.runId);
    }

    method RunAdmitted(id: string) returns (accepted: bool)
      requires Valid()
      modifies this
      ensures Valid()
      ensures (State(), accepted) == RunActive(old(State()), id, execute)
      ensures accepted <==> old(active) == Some(id)
      ensures accepted ==>
                var r := old(runs[id]);
                && FreesSlot(old(State()), id, State())
                && EndedBy(r, execute(r.suite, r.worktree, r.prerequisites), runs[id])
    {
      RunLaw(State(), id, execute);
      assert active.Some? ==> active.value in runs;
      hide SchedInv;
      NextKeepsInv(State(), Runs(id, execute));
      if id !in runs || active != Some(id) { return false; }
      var record := runs[id];
      var o := execute(record.suite, record.worktree, record.prerequisites);
      runs := runs[id := FinishedRecord(record, o)];
      active := None;
      return true;
    }

    method InterruptRun(id: string, reason: string)
      requires Valid()
      modifies this
      ensures Valid()
      ensures State() == Interrupt(old(State()), id, reason)
      ensures old(active) != Some(id) ==> State() == old(State())
      ensures old(active) == Some(id) ==>
                && FreesSlot(old(State()), id, State()) && runs[id].result == Some(Blocked)
                && runs[id].state == Interrupted && runs[id].steps == old(runs[id].steps)
                && runs[id].reason == (if |reason| > 0 then "interrupted: " + reason else "interrupted")
    {
      InterruptLaw(State(), id, reason);
      assert active.Some? ==> active.value in runs;
      hide SchedInv;
      NextKeepsInv(State(), Interrupts(id, reason));
      if id !in runs || active != Some(id) { return; }
      var text := if reason == "" then "interrupted" else "interrupted: " + reason;
      runs := runs[id := runs[id].(result := Some(Blocked), state := Interrupted, reason := text)];
      active := None;
    }
  }
}
