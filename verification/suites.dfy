/** Verification suites: substituting toolchain values, running steps, and normalising
    the outcome. Commands and probes are parameters. */
module Suites {
  import opened Text

  datatype VerificationClass = Hermetic | Host | Fleet | CiOnly

  datatype Verdict = Pass | Fail | Blocked

  datatype ProbeStatus = Available | Missing | Malformed {
    function Text(): string {
      match this
      case Available => "AVAILABLE"
      case Missing => "UNAVAILABLE"
      case Malformed => "MALFORMED"
    }
  }

  datatype ProbeResult = ProbeResult(status: ProbeStatus, detail: string)

  type Environment = map<string, string>
  type Prerequisites = map<string, ProbeResult>

  datatype SuiteStep = SuiteStep(name: string, command: seq<string>, env: Environment)

  datatype Suite = Suite(name: string, verificationClass: VerificationClass, steps: seq<SuiteStep>,
                         probes: seq<string>)

  datatype StepReport = StepReport(name: string, command: seq<string>, exitCode: Option<int>, timedOut: bool,
                                   env: Environment)

  /** The exit code and whether the step ran out of time; `None` when starting it raises. */
  type Runner = (SuiteStep, string) -> Option<(Option<int>, bool)>

  // ----- placeholders -----------------------------------------------------------

  predicate Upper(c: char) {
    'A' <= c <= 'Z'
  }

  predicate NameChar(c: char) {
    Upper(c) || '0' <= c <= '9' || c == '_'
  }

  /** `[A-Z][A-Z0-9_]*` */
  predicate BareName(s: string) {
    s != [] && Upper(s[0]) && forall c | c in s :: NameChar(c)
  }

  predicate Filled(env: Environment, name: string) {
    name in env && env[name] != ""
  }

  function SubstituteOne(arg: string, env: Environment): string {
    if arg != [] && arg[0] == '$' && Filled(env, arg[1..]) then env[arg[1..]]
    else if BareName(arg) && Filled(env, arg) then env[arg]
    else arg
  }

  /** An argument refers to a name as `$NAME`, or as the bare name itself when that is a
      capital followed by capitals, digits and underscores. */
  predicate Refers(arg: string, name: string) {
    || arg == "$" + name
    || (arg == name && 0 < |name| && 'A' <= name[0] <= 'Z'
        && forall i | 0 <= i < |name| :: 'A' <= name[i] <= 'Z' || '0' <= name[i] <= '9' || name[i] == '_')
  }

  /** What may stand for an argument: the non-empty value it refers to, and the argument
      itself only when it refers to none. */
  ghost predicate Resolved(arg: string, env: Environment, out: string) {
    || (exists name :: Refers(arg, name) && Filled(env, name) && out == env[name])
    || (out == arg && forall name | Refers(arg, name) :: !Filled(env, name))
  }

  lemma ResolutionIsUnique(arg: string, env: Environment, a: string, b: string)
    requires Resolved(arg, env, a) && Resolved(arg, env, b)
    ensures a == b
  {
    forall n, m | Refers(arg, n) && Refers(arg, m) ensures n == m {
      if arg == "$" + n { assert n == arg[1..]; }
      if arg == "$" + m { assert m == arg[1..]; }
    }
  }

  lemma SubstituteOneResolves(arg: string, env: Environment)
    ensures Resolved(arg, env, SubstituteOne(arg, env))
  {
    if arg != [] && arg[0] == '$' {
      assert arg == "$" + arg[1..];
      assert Refers(arg, arg[1..]);
    }
    if BareName(arg) {
      forall i | 0 <= i < |arg| ensures NameChar(arg[i]) { assert arg[i] in arg; }
      assert Refers(arg, arg);
    }
    forall name | Refers(arg, name) && Filled(env, name) ensures SubstituteOne(arg, env) == env[name] {
      if arg == "$" + name { assert arg[1..] == name; }
    }
  }

  /** `_substitute`: whole arguments only, unresolved ones verbatim. */
  method Substitute(command: seq<string>, env: Environment) returns (r: seq<string>)
    ensures r == Substituted(command, env)
    ensures |r| == |command| && forall i | 0 <= i < |r| :: Resolved(command[i], env, r[i])
  {
    hide SubstituteOne, Resolved;
    r := [];
    for i := 0 to |command|
      invariant r == Substituted(command[..i], env)
      invariant forall k | 0 <= k < i :: Resolved(command[k], env, r[k])
    {
      SubstituteOneResolves(command[i], env);
      assert command[..i + 1] == command[..i] + [command[i]];
      r := r + [SubstituteOne(command[i], env)];
    }
    assert command[..|command|] == command;
  }

  function Substituted(command: seq<string>, env: Environment): (r: seq<string>)
    ensures |r| == |command|
  {
    seq(|command|, i requires 0 <= i < |command| => SubstituteOne(command[i], env))
  }

  function SubstitutedEnv(own: Environment, env: Environment): Environment {
    map k | k in own :: SubstituteOne(own[k], env)
  }

  function Prepared(step: SuiteStep, env: Environment): SuiteStep {
    SuiteStep(step.name, Substituted(step.command, env), SubstitutedEnv(step.env, env))
  }

  /** Command and environment of a step are resolved value by value; nothing is added, lost
      or renamed. */
  lemma PreparedMeans(step: SuiteStep, env: Environment)
    ensures var done := Prepared(step, env);
            && done.name == step.name && |done.command| == |step.command|
            && (forall i | 0 <= i < |step.command| :: Resolved(step.command[i], env, done.command[i]))
            && done.env.Keys == step.env.Keys
            && (forall k | k in step.env :: Resolved(step.env[k], env, done.env[k]))
  {
    hide SubstituteOne, Resolved;
    forall i | 0 <= i < |step.command| ensures Resolved(step.command[i], env, SubstituteOne(step.command[i], env)) {
      SubstituteOneResolves(step.command[i], env);
    }
    forall k | k in step.env ensures Resolved(step.env[k], env, SubstituteOne(step.env[k], env)) {
      SubstituteOneResolves(step.env[k], env);
    }
  }

  // ----- prerequisites ------------------------------------------------------------

  function BlockedNames(p: Prerequisites): set<string> {
    set n | n in p && p[n].status != Available
  }

  function Describe(n: string, r: ProbeResult): string {
    n + "=" + r.status.Text() + (if r.detail == "" then "" else " (" + r.detail + ")")
  }

  function DescribeAll(p: Prerequisites, names: seq<string>): seq<string>
    requires forall n | n in names :: n in p
  {
    seq(|names|, i requires 0 <= i < |names| => Describe(names[i], p[names[i]]))
  }

  function BlockedText(p: Prerequisites): string {
    Join(DescribeAll(p, Ordered(BlockedNames(p))), ", ")
  }

  /** A prerequisite stops a suite when its probe did not find it, and also when the probe's
      own answer is malformed. */
  predicate Stops(p: Prerequisites, n: string) {
    n in p && (p[n].status == Missing || p[n].status == Malformed)
  }

  /** How such a prerequisite is named. */
  function NamedStop(p: Prerequisites, n: string): string
    requires n in p
  {
    n + "=" + (if p[n].status == Missing then "UNAVAILABLE" else "MALFORMED")
    + if p[n].detail == "" then "" else " (" + p[n].detail + ")"
  }

  /** A suite is blocked exactly when some prerequisite stops it, and the reason names those
      and no others, in name order. */
  lemma {:induction false} BlockedTextMeans(p: Prerequisites) returns (names: seq<string>, texts: seq<string>)
    ensures BlockedNames(p) != {} <==> exists n :: Stops(p, n)
    ensures forall n :: n in names <==> Stops(p, n)
    ensures forall i, j | 0 <= i < j < |names| :: Le(names[i], names[j]) && names[i] != names[j]
    ensures |texts| == |names| && forall i | 0 <= i < |names| :: names[i] in p && texts[i] == NamedStop(p, names[i])
    ensures BlockedText(p) == Join(texts, ", ")
    ensures forall n | Stops(p, n) :: Contains(BlockedText(p), NamedStop(p, n))
  {
    hide Contains, Le, NamedStop, Join;
    forall n ensures n in BlockedNames(p) <==> Stops(p, n) { }
    names := Ordered(BlockedNames(p));
    texts := DescribeAll(p, names);
    hide Stops, BlockedNames;
    forall i | 0 <= i < |names| ensures names[i] in p && texts[i] == NamedStop(p, names[i]) {
      assert names[i] in names;
      StopIsDescribed(p, names[i]);
    }
    forall n | Stops(p, n) ensures Contains(BlockedText(p), NamedStop(p, n)) {
      var i :| 0 <= i < |names| && names[i] == n;
      JoinContains(texts, ", ", i);
    }
  }

  lemma StopIsDescribed(p: Prerequisites, n: string)
    requires Stops(p, n)
    ensures Describe(n, p[n]) == NamedStop(p, n)
  {
  }

  // ----- outcome -------------------------------------------------------------------

  /** `(exit_code not in (0, None)) or timed_out` */
  predicate Failed(r: StepReport) {
    (r.exitCode.Some? && r.exitCode.value != 0) || r.timedOut
  }

  function ExitText(code: Option<int>): string {
    if code.Some? then Numeral(code.value) else "None"
  }

  function FailureLine(r: StepReport): string {
    r.name + ": exit=" + ExitText(r.exitCode) + (if r.timedOut then " (timeout)" else "")
  }

  function FailureLines(reports: seq<StepReport>): seq<string> {
    if reports == [] then []
    else (if Failed(reports[0]) then [FailureLine(reports[0])] else []) + FailureLines(reports[1..])
  }

  /** The normalised result and its reason. */
  function Summary(reports: seq<StepReport>): (Verdict, string) {
    var lines := FailureLines(reports);
    if lines == [] then (Pass, "") else (Fail, Join(lines, "; "))
  }

  /** A step is in order when it did not run out of time and ended with zero or, having no
      exit code, with none at all. */
  predicate InOrder(r: StepReport) {
    (r.exitCode == None || r.exitCode == Some(0)) && !r.timedOut
  }

  /** How a step that is not in order is named: its exit code as a decimal numeral, and
      whether it ran out of time. */
  function NamedFailure(r: StepReport): string {
    var exit := match r.exitCode
                case None => "None"
                case Some(n) => if n < 0 then "-" + Decimal(-n) else Decimal(n);
    r.name + ": exit=" + exit + if r.timedOut then " (timeout)" else ""
  }

  /** PASS exactly when every step is in order, and FAIL otherwise, with every other step's
      name, exit code and timeout in the reason. */
  lemma {:induction false} SummaryMeans(reports: seq<StepReport>)
    ensures Summary(reports).0 == Pass <==>
            forall r | r in reports :: (r.exitCode == None || r.exitCode == Some(0)) && !r.timedOut
    ensures Summary(reports).0 != Pass ==> Summary(reports).0 == Fail
    ensures Summary(reports).0 == Pass ==> Summary(reports).1 == ""
    ensures forall r | r in reports && !InOrder(r) :: Contains(Summary(reports).1, NamedFailure(r))
  {
    hide Contains;
    var lines := FailureLines(reports);
    forall r | r in reports ensures Failed(r) <==> !InOrder(r) { }
    forall r | r in reports && !InOrder(r) ensures lines != [] && Contains(Summary(reports).1, NamedFailure(r)) {
      FailureIsListed(reports, r);
      var i :| 0 <= i < |lines| && lines[i] == FailureLine(r);
      JoinContains(lines, "; ", i);
    }
    if lines != [] { SomeFailure(reports); }
  }

  /** The places of the steps that are not in order, from first to last. */
  ghost predicate Places(reports: seq<StepReport>, places: seq<nat>) {
    && (forall i, j | 0 <= i < j < |places| :: places[i] < places[j])
    && (forall k | k in places :: k < |reports|)
    && (forall k: nat | k < |reports| :: k in places <==> !InOrder(reports[k]))
  }

  lemma PlacesSnoc(reports: seq<StepReport>, places: seq<nat>, r: StepReport)
    requires Places(reports, places)
    ensures Places(reports + [r], places + if InOrder(r) then [] else [|reports|])
  {
    hide InOrder;
    var n, all := |reports|, reports + [r];
    var more := places + if InOrder(r) then [] else [n];
    assert forall k | 0 <= k < n :: all[k] == reports[k];
    assert forall k :: k in more <==> k in places || (k == n && !InOrder(r));
    forall i, j | 0 <= i < j < |more| ensures more[i] < more[j] {
      assert more[i] in places;
    }
  }

  /** The reason lists the steps that are not in order, each once and in their order, and
      nothing else. */
  lemma {:induction false} ReasonListsFailures(reports: seq<StepReport>) returns (places: seq<nat>)
    ensures Places(reports, places) && |FailureLines(reports)| == |places|
    ensures forall i | 0 <= i < |places| ::
              places[i] < |reports| && FailureLines(reports)[i] == NamedFailure(reports[places[i]])
    ensures Summary(reports).1 == Join(FailureLines(reports), "; ")
  {
    if reports == [] {
      places := [];
    } else {
      var n := |reports| - 1;
      var init, last := reports[..n], reports[n];
      var before := ReasonListsFailures(init);
      assert reports == init + [last];
      FailureLinesSnoc(init, last);
      PlacesSnoc(init, before, last);
      hide FailureLines, NamedFailure, InOrder, Places;
      places := before + if InOrder(last) then [] else [n];
      assert forall i | 0 <= i < |before| :: reports[before[i]] == init[before[i]];
    }
  }

  lemma {:induction false} FailureLinesSnoc(reports: seq<StepReport>, r: StepReport)
    ensures FailureLines(reports + [r]) ==
            FailureLines(reports) + if InOrder(r) then [] else [NamedFailure(r)]
  {
    if reports != [] {
      FailureLinesSnoc(reports[1..], r);
      assert (reports + [r])[1..] == reports[1..] + [r] && (reports + [r])[0] == reports[0];
    }
  }

  lemma {:induction false} FailureIsListed(reports: seq<StepReport>, r: StepReport)
    requires r in reports && Failed(r)
    ensures FailureLine(r) in FailureLines(reports)
  {
    hide Failed, FailureLine;
    if r != reports[0] {
      assert r in reports[1..];
      FailureIsListed(reports[1..], r);
    }
  }

  lemma {:induction false} SomeFailure(reports: seq<StepReport>)
    requires FailureLines(reports) != []
    ensures exists r :: r in reports && Failed(r)
  {
    hide Failed, FailureLine;
    if Failed(reports[0]) {
      assert reports[0] in reports;
    } else {
      SomeFailure(reports[1..]);
      var r :| r in reports[1..] && Failed(r);
      assert r in reports;
    }
  }

  // ----- execution ------------------------------------------------------------------

  function RunStep(run: Runner, step: SuiteStep, worktree: string, env: Environment): Option<StepReport> {
    var prepared := Prepared(step, env);
    var done := run(prepared, worktree);
    if done == None then None
    else Some(StepReport(step.name, prepared.command, done.value.0, done.value.1, prepared.env))
  }

  /** The reports of the steps in order; `None` when one cannot be started. */
  function RunSteps(run: Runner, steps: seq<SuiteStep>, worktree: string, env: Environment):
    (r: Option<seq<StepReport>>)
    ensures r.Some? ==> |r.value| == |steps|
  {
    if steps == [] then Some([])
    else
      var first := RunStep(run, steps[0], worktree, env);
      if first == None then None
      else
        var rest := RunSteps(run, steps[1..], worktree, env);
        if rest == None then None else Some([first.value] + rest.value)
  }

  datatype ExecOutcome = Returned(result: Verdict, reports: seq<StepReport>, reason: string) | Raised(message: string)

  const CANNOT_START := "command could not be started"

  function Execution(run: Runner, suite: Suite, worktree: string, p: Prerequisites, env: Environment): ExecOutcome {
    if BlockedNames(p) != {} then Returned(Blocked, [], BlockedText(p))
    else
      var reports := RunSteps(run, suite.steps, worktree, env);
      if reports == None then Raised(CANNOT_START)
      else Returned(Summary(reports.value).0, reports.value, Summary(reports.value).1)
  }

  lemma RunStepsFrom(run: Runner, steps: seq<SuiteStep>, worktree: string, env: Environment, i: nat)
    requires i < |steps|
    ensures RunSteps(run, steps[i..], worktree, env) ==
            var first, rest := RunStep(run, steps[i], worktree, env), RunSteps(run, steps[i + 1..], worktree, env);
            if first == None || rest == None then None else Some([first.value] + rest.value)
  {
    hide RunStep;
    assert steps[i..][0] == steps[i] && steps[i..][1..] == steps[i + 1..];
  }

  /** `r` reports this step: its own name, and what running the prepared command gave. */
  predicate ReportOf(run: Runner, step: SuiteStep, worktree: string, env: Environment, r: StepReport) {
    && r.name == step.name
    && r.command == Prepared(step, env).command && r.env == Prepared(step, env).env
    && run(Prepared(step, env), worktree) == Some((r.exitCode, r.timedOut))
  }

  lemma ReportsItself(run: Runner, step: SuiteStep, worktree: string, env: Environment)
    requires RunStep(run, step, worktree, env).Some?
    ensures ReportOf(run, step, worktree, env, RunStep(run, step, worktree, env).value)
  {
  }

  /** Every step is run once and reported in its own place, unless one cannot be started. */
  lemma {:induction false} ReportsByStep(run: Runner, steps: seq<SuiteStep>, worktree: string, env: Environment)
    ensures var r := RunSteps(run, steps, worktree, env);
            && (r.Some? <==> forall s | s in steps :: RunStep(run, s, worktree, env).Some?)
            && (r.Some? ==> forall i | 0 <= i < |steps| :: ReportOf(run, steps[i], worktree, env, r.value[i]))
  {
    hide RunStep, ReportOf;
    if steps != [] {
      ReportsByStep(run, steps[1..], worktree, env);
      assert steps == [steps[0]] + steps[1..];
      var r := RunSteps(run, steps, worktree, env);
      if r.Some? {
        ReportsItself(run, steps[0], worktree, env);
        forall i | 0 <= i < |steps| ensures ReportOf(run, steps[i], worktree, env, r.value[i]) {
          if i > 0 { assert steps[i] == steps[1..][i - 1] && r.value[i] == r.value[1..][i - 1]; }
        }
      }
    }
  }

  /** The step loop shared by both executors. */
  method RunStepsLoop(run: Runner, steps: seq<SuiteStep>, worktree: string, env: Environment)
    returns (r: Option<seq<StepReport>>)
    ensures r == RunSteps(run, steps, worktree, env)
    ensures r.Some? <==> forall s | s in steps :: RunStep(run, s, worktree, env).Some?
    ensures r.Some? ==> forall i | 0 <= i < |steps| :: ReportOf(run, steps[i], worktree, env, r.value[i])
  {
    hide RunStep, ReportOf;
    var reports: seq<StepReport> := [];
    for i := 0 to |steps|
      invariant RunSteps(run, steps, worktree, env).Some? <==> RunSteps(run, steps[i..], worktree, env).Some?
      invariant RunSteps(run, steps, worktree, env).Some? ==>
                  RunSteps(run, steps, worktree, env).value == reports + RunSteps(run, steps[i..], worktree, env).value
    {
      RunStepsFrom(run, steps, worktree, env, i);
      var report := RunStepOnce(run, steps[i], worktree, env);
      if report == None {
        ReportsByStep(run, steps, worktree, env);
        return None;
      }
      reports := reports + [report.value];
    }
    assert steps[|steps|..] == [] && reports + [] == reports;
    ReportsByStep(run, steps, worktree, env);
    return Some(reports);
  }

  method RunStepOnce(run: Runner, step: SuiteStep, worktree: string, env: Environment) returns (r: Option<StepReport>)
    ensures r == RunStep(run, step, worktree, env)
  {
    var command := Substitute(step.command, env);
    var stepEnv := SubstitutedEnv(step.env, env);
    var done := run(SuiteStep(step.name, command, stepEnv), worktree);
    if done == None { return None; }
    return Some(StepReport(step.name, command, done.value.0, done.value.1, stepEnv));
  }

  /** Steps that can all be started, and what they report, in order. */
  ghost predicate ReportsOf(run: Runner, steps: seq<SuiteStep>, worktree: string, env: Environment,
                            reports: seq<StepReport>) {
    |reports| == |steps| && forall i | 0 <= i < |steps| :: ReportOf(run, steps[i], worktree, env, reports[i])
  }

  /** `SuiteExecutor.execute`: missing prerequisites stop the suite before any step. */
  method Execute(run: Runner, suite: Suite, worktree: string, p: Prerequisites, env: Environment)
    returns (outcome: ExecOutcome)
    ensures outcome == Execution(run, suite, worktree, p, env)
    ensures (exists n :: Stops(p, n)) ==>
              && outcome.Returned? && outcome.result == Blocked && outcome.reports == []
              && forall n | Stops(p, n) :: Contains(outcome.reason, NamedStop(p, n))
    ensures (forall n :: !Stops(p, n)) ==>
              && (outcome.Raised? <==> exists s | s in suite.steps :: run(Prepared(s, env), worktree) == None)
              && (outcome.Returned? ==>
                    && ReportsOf(run, suite.steps, worktree, env, outcome.reports)
                    && outcome.result == (if forall r | r in outcome.reports ::
                                               (r.exitCode == None || r.exitCode == Some(0)) && !r.timedOut
                                          then Pass else Fail)
                    && (outcome.result == Pass ==> outcome.reason == "")
                    && forall r | r in outcome.reports && !InOrder(r) ::
                         Contains(outcome.reason, NamedFailure(r)))
  {
    hide Contains, Summary, NamedFailure, NamedStop, ReportOf, Prepared;
    ghost var names, texts := BlockedTextMeans(p);
    if BlockedNames(p) != {} { return Returned(Blocked, [], BlockedText(p)); }
    var reports := RunStepsLoop(run, suite.steps, worktree, env);
    if reports == None { return Raised(CANNOT_START); }
    SummaryMeans(reports.value);
    return Returned(Summary(reports.value).0, reports.value, Summary(reports.value).1);
  }
}
