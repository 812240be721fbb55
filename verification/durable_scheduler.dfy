/** The durable scheduler: its dispatch drains the queue by recursion, one blocking run
    call after the other, and agrees with the in-process scheduler. */
module DurableSchedulers {
  import opened Text
  import opened Suites
  import opened Schedulers

  datatype Submission = Submission(runId: string, suiteName: string, worktree: string)

  datatype Report = Report(result: Verdict, reason: string, steps: seq<StepReport>, prerequisites: Prerequisites)

  /** The durable cells of the scheduler object, and the reports the runs journalled. */
  datatype Durable = Durable(queue: seq<Submission>, active: Option<string>, reports: map<string, Report>)

  /** The host: known suites, resolvable worktrees, probes, commands, toolchain values. */
  datatype HostEnv = HostEnv(suites: map<string, Suite>, worktrees: set<string>, probe: string -> ProbeResult,
                             run: Runner, values: Environment)

  /** `{p: probe(p) for p in suite.prereq_probes}` */
  function Probed(h: HostEnv, suite: Suite): Prerequisites {
    map p | p in suite.probes :: h.probe(p)
  }

  /** The run workflow's `main`: its report, or `None` when the call raises. */
  function MainReport(h: HostEnv, suiteName: string, worktree: string): Option<Report> {
    if suiteName !in h.suites || worktree !in h.worktrees then None
    else
      var suite := h.suites[suiteName];
      var p := Probed(h, suite);
      if BlockedNames(p) != {} then Some(Report(Blocked, "missing prerequisites: " + BlockedText(p), [], p))
      else
        var steps := RunSteps(h.run, suite.steps, worktree, h.values);
        if steps == None then None
        else Some(Report(Summary(steps.value).0, Summary(steps.value).1, steps.value, p))
  }

  /** What a run reports: blocked by the probes that did not find what they look for, or
      PASS exactly when every step is in order, and FAIL naming every other one. */
  ghost predicate MainMeans(h: HostEnv, suite: Suite, worktree: string, report: Report) {
    && report.prerequisites.Keys == (set p | p in suite.probes)
    && (forall p | p in suite.probes :: report.prerequisites[p] == h.probe(p))
    && if exists p | p in suite.probes :: h.probe(p).status != Available then
         && report.result == Blocked && report.steps == []
         && "missing prerequisites: " <= report.reason
         && forall p | p in suite.probes && h.probe(p).status != Available ::
              Contains(report.reason, NamedStop(report.prerequisites, p))
       else
         && ReportsOf(h.run, suite.steps, worktree, h.values, report.steps)
         && report.result == (if forall r | r in report.steps ::
                                   (r.exitCode == None || r.exitCode == Some(0)) && !r.timedOut then Pass else Fail)
         && (report.result == Pass ==> report.reason == "")
         && forall r | r in report.steps && !InOrder(r) :: Contains(report.reason, NamedFailure(r))
  }

  lemma BlockedMeans(h: HostEnv, suite: Suite, worktree: string)
    requires BlockedNames(Probed(h, suite)) != {}
    ensures var p := Probed(h, suite);
            MainMeans(h, suite, worktree, Report(Blocked, "missing prerequisites: " + BlockedText(p), [], p))
  {
    hide Contains, NamedStop, BlockedText;
    var p := Probed(h, suite);
    var names, texts := BlockedTextMeans(p);
    var n :| Stops(p, n);
    forall n | n in suite.probes && h.probe(n).status != Available
      ensures Contains("missing prerequisites: " + BlockedText(p), NamedStop(p, n))
    {
      assert Stops(p, n);
      ContainsBehind("missing prerequisites: ", BlockedText(p), NamedStop(p, n));
    }
  }

  lemma FinishedMeans(h: HostEnv, suite: Suite, worktree: string, steps: seq<StepReport>)
    requires BlockedNames(Probed(h, suite)) == {}
    requires RunSteps(h.run, suite.steps, worktree, h.values) == Some(steps)
    ensures MainMeans(h, suite, worktree, Report(Summary(steps).0, Summary(steps).1, steps, Probed(h, suite)))
  {
    hide Contains, NamedFailure, Summary, RunSteps, ReportOf;
    var p := Probed(h, suite);
    ReportsByStep(h.run, suite.steps, worktree, h.values);
    SummaryMeans(steps);
    forall n | n in suite.probes ensures h.probe(n).status == Available { assert n !in BlockedNames(p); }
  }

  /** The run's `main` reports just that, and raises exactly when the suite or the worktree is
      unknown or some step of an unblocked suite cannot be started. */
  lemma {:induction false} MainLaw(h: HostEnv, suiteName: string, worktree: string)
    ensures var report := MainReport(h, suiteName, worktree);
            && (report.Some? ==> && suiteName in h.suites && worktree in h.worktrees
                                 && MainMeans(h, h.suites[suiteName], worktree, report.value))
            && (report == None <==>
                || suiteName !in h.suites || worktree !in h.worktrees
                || ((forall p | p in h.suites[suiteName].probes :: h.probe(p).status == Available)
                    && exists s | s in h.suites[suiteName].steps :: h.run(Prepared(s, h.values), worktree) == None))
  {
    hide Summary, RunSteps, BlockedText, MainMeans, Prepared;
    if suiteName in h.suites && worktree in h.worktrees {
      var suite := h.suites[suiteName];
      var p := Probed(h, suite);
      assert BlockedNames(p) == {} <==> forall n | n in suite.probes :: h.probe(n).status == Available by {
        forall n | n in suite.probes ensures n in BlockedNames(p) <==> h.probe(n).status != Available { }
      }
      ReportsByStep(h.run, suite.steps, worktree, h.values);
      if BlockedNames(p) != {} {
        BlockedMeans(h, suite, worktree);
      } else if RunSteps(h.run, suite.steps, worktree, h.values).Some? {
        FinishedMeans(h, suite, worktree, RunSteps(h.run, suite.steps, worktree, h.values).value);
      }
    }
  }

  /** `_full_dispatch`: the cells afterwards, and the run calls that returned, in order.
      A call that raises ends the dispatch with its run still active. */
  function Dispatch(h: HostEnv, d: Durable): (Durable, seq<string>)
    decreases |d.queue|
  {
    if d.active.Some? || d.queue == [] then (d, [])
    else
      var entry := d.queue[0];
      var claimed := d.(queue := d.queue[1..], active := Some(entry.runId));
      var report := MainReport(h, entry.suiteName, entry.worktree);
      if report == None then (claimed, [])
      else
        var (after, called) := Dispatch(h, claimed.(active := None, reports := d.reports[entry.runId := report.value]));
        (after, [entry.runId] + called)
  }

  // ----- when it drains --------------------------------------------------------------

  predicate Returns(h: HostEnv, e: Submission) {
    MainReport(h, e.suiteName, e.worktree).Some?
  }

  function RunIds(queue: seq<Submission>): (r: seq<string>)
    ensures |r| == |queue| && forall i | 0 <= i < |r| :: r[i] == queue[i].runId
  {
    seq(|queue|, i requires 0 <= i < |queue| => queue[i].runId)
  }

  lemma RunIdsCons(queue: seq<Submission>)
    requires queue != []
    ensures RunIds(queue) == [queue[0].runId] + RunIds(queue[1..])
  {
  }

  /** From an idle state the dispatch ends idle and empty exactly when every queued run
      call returns; it then called each queued run once, in order. */
  lemma {:induction false} DispatchDrainsIffAllReturn(h: HostEnv, d: Durable)
    requires d.active == None
    ensures var (after, called) := Dispatch(h, d);
            && (after.active == None <==> forall e | e in d.queue :: Returns(h, e))
            && (after.active == None ==> after.queue == [] && called == RunIds(d.queue))
    decreases |d.queue|
  {
    hide MainReport, RunIds;
    if d.queue == [] {
      assert RunIds(d.queue) == [];
    } else {
      var entry := d.queue[0];
      assert d.queue == [entry] + d.queue[1..];
      RunIdsCons(d.queue);
      if Returns(h, entry) {
        var report := MainReport(h, entry.suiteName, entry.worktree).value;
        var next := Durable(d.queue[1..], None, d.reports[entry.runId := report]);
        DispatchDrainsIffAllReturn(h, next);
      }
    }
  }

  /** When some call raises, the first such run keeps the slot, the runs before it were
      called in order, and everything after it still waits. */
  lemma {:induction false} DispatchStopsAtRaise(h: HostEnv, d: Durable, k: nat)
    requires d.active == None && k < |d.queue| && !Returns(h, d.queue[k])
    requires forall i | 0 <= i < k :: Returns(h, d.queue[i])
    ensures var (after, called) := Dispatch(h, d);
            && after.active == Some(d.queue[k].runId) && after.queue == d.queue[k + 1..]
            && called == RunIds(d.queue)[..k]
    decreases k
  {
    hide MainReport;
    if k > 0 {
      var entry := d.queue[0];
      var report := MainReport(h, entry.suiteName, entry.worktree).value;
      var next := Durable(d.queue[1..], None, d.reports[entry.runId := report]);
      assert Returns(h, d.queue[0]);
      assert forall i | 0 <= i < k - 1 :: next.queue[i] == d.queue[i + 1];
      DispatchStopsAtRaise(h, next, k - 1);
      assert RunIds(d.queue)[..k] == [entry.runId] + RunIds(d.queue[1..])[..k - 1];
      assert d.queue[1..][k..] == d.queue[k + 1..];
    }
  }

  predicate Submittable(h: HostEnv, e: Submission) {
    e.suiteName in h.suites && e.worktree in h.worktrees
  }

  /** `submit`: an unknown suite or worktree is refused; the dispatch follows at once. */
  function AfterSubmit(h: HostEnv, d: Durable, e: Submission): Durable {
    if Submittable(h, e) then Dispatch(h, d.(queue := d.queue + [e])).0 else d
  }

  /** One submission after the other. */
  function SubmitEach(h: HostEnv, d: Durable, subs: seq<Submission>): Durable {
    if subs == [] then d else AfterSubmit(h, SubmitEach(h, d, subs[..|subs| - 1]), subs[|subs| - 1])
  }

  /** The submissions that are not refused, in order. */
  function Taken(h: HostEnv, subs: seq<Submission>): seq<Submission> {
    if subs == [] then []
    else Taken(h, subs[..|subs| - 1]) + (if Submittable(h, subs[|subs| - 1]) then [subs[|subs| - 1]] else [])
  }

  /** A slot left claimed is never released: however many submissions follow, they only pile
      up behind it, and no run is started or reported. */
  lemma {:induction false} ClaimedSlotBlocks(h: HostEnv, d: Durable, subs: seq<Submission>)
    requires d.active.Some?
    ensures SubmitEach(h, d, subs) == d.(queue := d.queue + Taken(h, subs))
  {
    if subs == [] {
      assert d.queue + [] == d.queue;
    } else {
      var init, last := subs[..|subs| - 1], subs[|subs| - 1];
      ClaimedSlotBlocks(h, d, init);
      assert d.queue + Taken(h, init) + [last] == d.queue + (Taken(h, init) + [last]);
    }
  }

  /** After the first run call that raises, nothing submitted later ever runs. */
  lemma {:induction false} RaiseStopsForGood(h: HostEnv, d: Durable, k: nat, subs: seq<Submission>)
    requires d.active == None && k < |d.queue| && !Returns(h, d.queue[k])
    requires forall i | 0 <= i < k :: Returns(h, d.queue[i])
    ensures var stuck := Dispatch(h, d).0;
            && SubmitEach(h, stuck, subs) == stuck.(queue := d.queue[k + 1..] + Taken(h, subs))
            && stuck.active == Some(d.queue[k].runId)
  {
    hide Returns, Taken, SubmitEach;
    DispatchStopsAtRaise(h, d, k);
    ClaimedSlotBlocks(h, Dispatch(h, d).0, subs);
  }

  // ----- refinement ---------------------------------------------------------------------

  /** The in-process drain: admit, run if admitted, until nothing waits. */
  function Drain(s: Sched, probe: Probing, execute: Executing): Sched
    decreases |s.queue|
  {
    var ticked := Tick(s, probe);
    if ticked.1 == None then s
    else if ticked.0.active.Some? then Drain(RunActive(ticked.0, ticked.0.active.value, execute).0, probe, execute)
    else Drain(ticked.0, probe, execute)
  }

  /** The same host seen by the in-process scheduler. */
  function ProbesOf(h: HostEnv): Probing {
    suite => Probed(h, suite)
  }

  function ExecutorOf(h: HostEnv): Executing {
    (suite, worktree, p) => Execution(h.run, suite, worktree, p, h.values)
  }

  /** A queued record stands for a durable submission. */
  predicate Pairs(h: HostEnv, s: Sched, q: QueueEntry, e: Submission) {
    && q.runId in s.runs && s.runs[q.runId].worktree == e.worktree && s.runs[q.runId].steps == []
    && e.suiteName in h.suites && s.runs[q.runId].suite == h.suites[e.suiteName]
  }

  ghost predicate PairedQueues(h: HostEnv, s: Sched, d: Durable) {
    |s.queue| == |d.queue| && forall i | 0 <= i < |s.queue| :: Pairs(h, s, s.queue[i], d.queue[i])
  }

  ghost predicate DistinctRuns(queue: seq<Submission>) {
    forall i, j | 0 <= i < j < |queue| :: queue[i].runId != queue[j].runId
  }

  /** The record carries the report's result, reason and steps. */
  predicate Agrees(r: RunRecord, report: Report) {
    && r.result == Some(report.result) && r.reason == report.reason && r.state == StateOf(report.result)
    && r.prerequisites == report.prerequisites && r.steps == report.steps
  }

  /** One turn of the in-process loop over the head of the queue. */
  function Turn(s: Sched, probe: Probing, execute: Executing): Sched {
    var ticked := Tick(s, probe);
    if ticked.1.Some? && ticked.0.active.Some? then RunActive(ticked.0, ticked.0.active.value, execute).0 else ticked.0
  }

  lemma TurnOnHead(h: HostEnv, s: Sched, e: Submission)
    requires s.active == None && s.queue != [] && Pairs(h, s, s.queue[0], e) && Returns(h, e)
    ensures var s' := Turn(s, ProbesOf(h), ExecutorOf(h));
            var id := s.queue[0].runId;
            && s'.active == None && s'.queue == s.queue[1..] && id in s'.runs
            && s'.runs == s.runs[id := s'.runs[id]]
            && Agrees(s'.runs[id], MainReport(h, e.suiteName, e.worktree).value)
            && Tick(s, ProbesOf(h)).1 == Some(id)
  {
    hide BlockedText, RunSteps, Summary, Probed, BlockedNames;
  }

  lemma DrainTurns(s: Sched, probe: Probing, execute: Executing)
    requires s.active == None && s.queue != [] && s.queue[0].runId in s.runs
    ensures Drain(s, probe, execute) == Drain(Turn(s, probe, execute), probe, execute)
  {
    hide BlockedText, BlockedNames;
  }

  lemma {:induction false} DrainKeepsOthers(h: HostEnv, s: Sched, d: Durable, id: string)
    requires s.active == None && d.active == None && PairedQueues(h, s, d) && QueueDistinct(s)
    requires forall e | e in d.queue :: Returns(h, e)
    requires id in s.runs && forall i | 0 <= i < |s.queue| :: s.queue[i].runId != id
    ensures var s' := Drain(s, ProbesOf(h), ExecutorOf(h)); id in s'.runs && s'.runs[id] == s.runs[id]
    decreases |s.queue|
  {
    hide Turn, MainReport, Agrees, Tick, ProbesOf, ExecutorOf;
    if s.queue != [] {
      HeadTurn(h, s, d);
      var next := Turn(s, ProbesOf(h), ExecutorOf(h));
      DrainKeepsOthers(h, next, d.(queue := d.queue[1..]), id);
    } else {
      EmptyDrain(s, ProbesOf(h), ExecutorOf(h));
    }
  }

  lemma EmptyDrain(s: Sched, probe: Probing, execute: Executing)
    requires s.queue == []
    ensures Drain(s, probe, execute) == s
  {
  }

  /** One turn leaves the remaining queues paired. */
  lemma HeadTurn(h: HostEnv, s: Sched, d: Durable)
    requires s.active == None && s.queue != [] && PairedQueues(h, s, d) && QueueDistinct(s)
    requires forall e | e in d.queue :: Returns(h, e)
    ensures var s' := Turn(s, ProbesOf(h), ExecutorOf(h));
            var id, e := s.queue[0].runId, d.queue[0];
            && Drain(s, ProbesOf(h), ExecutorOf(h)) == Drain(s', ProbesOf(h), ExecutorOf(h))
            && s'.active == None && s'.queue == s.queue[1..] && id in s'.runs
            && s'.runs == s.runs[id := s'.runs[id]]
            && e in d.queue && Returns(h, e) && Agrees(s'.runs[id], MainReport(h, e.suiteName, e.worktree).value)
            && PairedQueues(h, s', d.(queue := d.queue[1..])) && QueueDistinct(s')
            && (forall x | x in d.queue[1..] :: Returns(h, x))
  {
    hide MainReport, Turn, Tick, Drain, ProbesOf, ExecutorOf, Agrees;
    assert d.queue[0] in d.queue;
    assert Pairs(h, s, s.queue[0], d.queue[0]);
    TurnOnHead(h, s, d.queue[0]);
    DrainTurns(s, ProbesOf(h), ExecutorOf(h));
    var s', d' := Turn(s, ProbesOf(h), ExecutorOf(h)), d.(queue := d.queue[1..]);
    TurnKeepsSuites(h, s, d.queue[0]);
    forall i | 0 <= i < |s'.queue| ensures Pairs(h, s', s'.queue[i], d'.queue[i]) {
      assert Pairs(h, s, s.queue[i + 1], d.queue[i + 1]);
      assert s.queue[0].runId != s.queue[i + 1].runId;
    }
    assert forall i | 0 <= i < |s'.queue| :: s'.queue[i] == s.queue[i + 1];
  }

  lemma TurnKeepsSuites(h: HostEnv, s: Sched, e: Submission)
    requires s.active == None && s.queue != [] && Pairs(h, s, s.queue[0], e)
    ensures var s', id := Turn(s, ProbesOf(h), ExecutorOf(h)), s.queue[0].runId;
            id in s'.runs && s'.runs[id].suite == s.runs[id].suite && s'.runs[id].worktree == s.runs[id].worktree
  {
    hide BlockedText, RunSteps, Summary, Probed, BlockedNames;
  }

  /** Refinement: over paired queues whose run calls return, the dispatch and the
      in-process drain loop end idle and empty, and every run has the same result,
      reason and steps in both. */
  lemma {:induction false} DispatchRefinesDrain(h: HostEnv, s: Sched, d: Durable, k: nat)
    requires s.active == None && d.active == None && PairedQueues(h, s, d)
    requires QueueDistinct(s) && DistinctRuns(d.queue)
    requires (forall e | e in d.queue :: Returns(h, e)) && k < |d.queue|
    ensures var s', d' := Drain(s, ProbesOf(h), ExecutorOf(h)), Dispatch(h, d).0;
            && s'.active == None && s'.queue == [] && d'.active == None && d'.queue == []
            && s.queue[k].runId in s'.runs && d.queue[k].runId in d'.reports
            && Agrees(s'.runs[s.queue[k].runId], d'.reports[d.queue[k].runId])
    decreases |d.queue|
  {
    hide MainReport, Turn, Agrees, Tick, ProbesOf, ExecutorOf;
    HeadTurn(h, s, d);
    var s1 := Turn(s, ProbesOf(h), ExecutorOf(h));
    assert d.queue[0] in d.queue;
    var report := MainReport(h, d.queue[0].suiteName, d.queue[0].worktree).value;
    var d1 := Durable(d.queue[1..], None, d.reports[d.queue[0].runId := report]);
    assert Dispatch(h, d).0 == Dispatch(h, d1).0;
    assert PairedQueues(h, s1, d1);
    assert forall i | 0 <= i < |d1.queue| :: d1.queue[i] == d.queue[i + 1] && s1.queue[i] == s.queue[i + 1];
    if k > 0 {
      DispatchRefinesDrain(h, s1, d1, k - 1);
    } else {
      DrainKeepsOthers(h, s1, d1, s.queue[0].runId);
      DispatchKeepsReports(h, d1, d.queue[0].runId);
      if |d1.queue| > 0 {
        DispatchRefinesDrain(h, s1, d1, 0);
      } else {
        EmptyDrain(s1, ProbesOf(h), ExecutorOf(h));
      }
    }
  }

  lemma {:induction false} DispatchKeepsReports(h: HostEnv, d: Durable, id: string)
    requires id in d.reports && forall i | 0 <= i < |d.queue| :: d.queue[i].runId != id
    ensures id in Dispatch(h, d).0.reports && Dispatch(h, d).0.reports[id] == d.reports[id]
    decreases |d.queue|
  {
    hide MainReport;
    if d.active == None && d.queue != [] {
      var entry := d.queue[0];
      var report := MainReport(h, entry.suiteName, entry.worktree);
      if report.Some? {
        var next := Durable(d.queue[1..], None, d.reports[entry.runId := report.value]);
        assert forall i | 0 <= i < |next.queue| :: next.queue[i] == d.queue[i + 1];
        DispatchKeepsReports(h, next, id);
      }
    }
  }

  // ----- from submission to result ------------------------------------------------------

  /** A submission of a known host-bound suite for a resolvable worktree. */
  predicate HostBound(h: HostEnv, e: Submission) {
    e.suiteName in h.suites && e.worktree in h.worktrees && h.suites[e.suiteName].verificationClass != Hermetic
  }

  /** The same submissions made to the in-process scheduler, in order. */
  function SubmitAll(h: HostEnv, s: Sched, subs: seq<Submission>): Sched
    requires forall e | e in subs :: HostBound(h, e)
  {
    if subs == [] then s
    else
      var init, last := subs[..|subs| - 1], subs[|subs| - 1];
      assert (forall e | e in init :: e in subs) && last in subs && HostBound(h, last);
      Submit(SubmitAll(h, s, init), Some(h.suites[last.suiteName]), last.worktree, ProbesOf(h), ExecutorOf(h)).0
  }

  lemma SubmitExtendsPairs(h: HostEnv, s: Sched, d: Durable, e: Submission)
    requires SchedInv(s) && PairedQueues(h, s, d) && HostBound(h, e)
    ensures var s' := Submit(s, Some(h.suites[e.suiteName]), e.worktree, ProbesOf(h), ExecutorOf(h)).0;
            PairedQueues(h, s', d.(queue := d.queue + [e])) && s'.active == s.active
  {
    hide SchedInv, RunId, ProbesOf, ExecutorOf;
    assert RunId(s.counter) !in s.runs by { KnownIds(s); FreshIdIsNew(s); }
    var s' := Submit(s, Some(h.suites[e.suiteName]), e.worktree, ProbesOf(h), ExecutorOf(h)).0;
    forall i | 0 <= i < |s'.queue| ensures Pairs(h, s', s'.queue[i], (d.queue + [e])[i]) {
      if i < |s.queue| { assert Pairs(h, s, s.queue[i], d.queue[i]); }
    }
  }

  lemma KnownIds(s: Sched)
    requires SchedInv(s)
    ensures IdsKnown(s) && QueueDistinct(s)
  {
  }

  lemma {:induction false} SubmitAllPairs(h: HostEnv, subs: seq<Submission>)
    requires forall e | e in subs :: HostBound(h, e)
    ensures var s := SubmitAll(h, IDLE, subs);
            SchedInv(s) && s.active == None && PairedQueues(h, s, Durable(subs, None, map[]))
  {
    hide SchedInv, ProbesOf, ExecutorOf, Submit, Pairs;
    if subs == [] {
      assert SchedInv(IDLE) by { FifoFromStart([]); }
    } else {
      var init, last := subs[..|subs| - 1], subs[|subs| - 1];
      assert forall e | e in init :: e in subs;
      SubmitAllPairs(h, init);
      var s := SubmitAll(h, IDLE, init);
      assert HostBound(h, last);
      SubmitKeepsInv(s, h.suites[last.suiteName], last.worktree, ProbesOf(h), ExecutorOf(h));
      SubmitExtendsPairs(h, s, Durable(init, None, map[]), last);
      assert subs == init + [last];
    }
  }

  /** A report journalled by the dispatch is the one its run's `main` gave. */
  lemma {:induction false} DispatchReports(h: HostEnv, d: Durable, k: nat)
    requires d.active == None && DistinctRuns(d.queue) && (forall e | e in d.queue :: Returns(h, e)) && k < |d.queue|
    ensures var reports := Dispatch(h, d).0.reports;
            && d.queue[k].runId in reports
            && Some(reports[d.queue[k].runId]) == MainReport(h, d.queue[k].suiteName, d.queue[k].worktree)
    decreases |d.queue|
  {
    hide MainReport;
    var entry := d.queue[0];
    assert entry in d.queue && Returns(h, entry);
    var report := MainReport(h, entry.suiteName, entry.worktree).value;
    var next := Durable(d.queue[1..], None, d.reports[entry.runId := report]);
    assert forall i | 0 <= i < |next.queue| :: next.queue[i] == d.queue[i + 1];
    assert Dispatch(h, d).0 == Dispatch(h, next).0;
    if k > 0 {
      DispatchReports(h, next, k - 1);
    } else {
      DispatchKeepsReports(h, next, entry.runId);
    }
  }

  /** A submission that finds the scheduler idle and empty leaves it so, reported. */
  lemma SubmittedAlone(h: HostEnv, d: Durable, e: Submission)
    requires d.active == None && d.queue == [] && Returns(h, e)
    ensures AfterSubmit(h, d, e) ==
            Durable([], None, d.reports[e.runId := MainReport(h, e.suiteName, e.worktree).value])
  {
    var waiting := d.(queue := [e]);
    assert d.queue + [e] == [e] && [e][1..] == [];
    assert Submittable(h, e);
    hide MainReport;
    var done := Durable([], None, d.reports[e.runId := MainReport(h, e.suiteName, e.worktree).value]);
    assert Dispatch(h, waiting).0 == Dispatch(h, done).0;
  }

  /** From the start, while run calls return, every submission finds the scheduler idle
      and empty and is reported before the next one is made. */
  lemma {:induction false} SubmittedOneByOne(h: HostEnv, subs: seq<Submission>)
    requires (forall e | e in subs :: Returns(h, e)) && DistinctRuns(subs)
    ensures var d := SubmitEach(h, Durable([], None, map[]), subs);
            && d.active == None && d.queue == []
            && forall k | 0 <= k < |subs| ::
                 && subs[k].runId in d.reports
                 && Some(d.reports[subs[k].runId]) == MainReport(h, subs[k].suiteName, subs[k].worktree)
  {
    hide MainReport;
    if subs != [] {
      var init, last := subs[..|subs| - 1], subs[|subs| - 1];
      assert last in subs && forall e | e in init :: e in subs;
      SubmittedOneByOne(h, init);
      SubmittedAlone(h, SubmitEach(h, Durable([], None, map[]), init), last);
      hide AfterSubmit;
    }
  }

  /** End to end: the same host submissions, made one after the other to both schedulers
      from the start, end with the same result, reason and steps for each of them, and both
      idle and empty. */
  lemma {:induction false} SchedulersAgree(h: HostEnv, subs: seq<Submission>, k: nat)
    requires (forall e | e in subs :: HostBound(h, e) && Returns(h, e)) && DistinctRuns(subs) && k < |subs|
    ensures var s := SubmitAll(h, IDLE, subs);
            var s', d' := Drain(s, ProbesOf(h), ExecutorOf(h)), SubmitEach(h, Durable([], None, map[]), subs);
            && s'.active == None && s'.queue == [] && d'.active == None && d'.queue == []
            && |s.queue| == |subs| && s.queue[k].runId in s'.runs && subs[k].runId in d'.reports
            && Agrees(s'.runs[s.queue[k].runId], d'.reports[subs[k].runId])
  {
    hide SchedInv, ProbesOf, ExecutorOf, Pairs, Agrees, SubmitAll, Drain, Dispatch, MainReport, SubmitEach;
    var waiting := Durable(subs, None, map[]);
    SubmitAllPairs(h, subs);
    KnownIds(SubmitAll(h, IDLE, subs));
    DispatchRefinesDrain(h, SubmitAll(h, IDLE, subs), waiting, k);
    DispatchReports(h, waiting, k);
    SubmittedOneByOne(h, subs);
  }

  // ----- the object -------------------------------------------------------------------------

  /** The scheduler's durable object together with its run workflow. */
  class DurableScheduler {
    const host: HostEnv
    var queue: seq<Submission>
    var active: Option<string>
    var reports: map<string, Report>

    function State(): Durable
      reads this
    {
      Durable(queue, active, reports)
    }

    constructor (host: HostEnv)
      ensures State() == Durable([], None, map[]) && this.host == host
    {
      this.host := host;
      queue, active, reports := [], None, map[];
    }

    /** The run's `main`, through its probes and steps. */
    method RunMain(suiteName: string, worktree: string) returns (report: Option<Report>)
      ensures report == MainReport(host, suiteName, worktree)
      ensures report.Some? ==> suiteName in host.suites && worktree in host.worktrees
                               && MainMeans(host, host.suites[suiteName], worktree, report.value)
      ensures report == None <==>
              || suiteName !in host.suites || worktree !in host.worktrees
              || var suite := host.suites[suiteName];
                 && (forall p | p in suite.probes :: host.probe(p).status == Available)
                 && exists s | s in suite.steps :: host.run(Prepared(s, host.values), worktree) == None
    {
      MainLaw(host, suiteName, worktree);
      hide RunSteps, Summary, BlockedText;
      if suiteName !in host.suites || worktree !in host.worktrees { return None; }
      var suite := host.suites[suiteName];
      var p := Probed(host, suite);
      if BlockedNames(p) != {} {
        return Some(Report(Blocked, "missing prerequisites: " + BlockedText(p), [], p));
      }
      var steps := RunStepsLoop(host.run, suite.steps, worktree, host.values);
      if steps == None { return None; }
      return Some(Report(Summary(steps.value).0, Summary(steps.value).1, steps.value, p));
    }

    /** `_full_dispatch`, recursive as in the source. */
    method FullDispatch() returns (ghost called: seq<string>)
      modifies this
      ensures (State(), called) == Dispatch(host, old(State()))
      decreases |queue|
    {
      if active.Some? || queue == [] { return []; }
      var entry := queue[0];
      queue := queue[1..];
      active := Some(entry.runId);
      var report := RunMain(entry.suiteName, entry.worktree);
      if report == None { return []; }
      reports := reports[entry.runId := report.value];
      active := None;
      called := FullDispatch();
      called := [entry.runId] + called;
    }

    /** `submit`: refused for an unknown suite or worktree; otherwise queued and dispatched. */
    method SubmitSuite(runId: string, suiteName: string, worktree: string) returns (accepted: bool)
      modifies this
      ensures accepted <==> Submittable(host, Submission(runId, suiteName, worktree))
      ensures State() == AfterSubmit(host, old(State()), Submission(runId, suiteName, worktree))
    {
      if suiteName !in host.suites || worktree !in host.worktrees { return false; }
      queue := queue + [Submission(runId, suiteName, worktree)];
      ghost var called := FullDispatch();
      return true;
    }
  }
}
