/** The self-disabling breaker of an unadopted provider, and the classifier that keeps
    using the accepted judgement while it watches. */
module Breakers {
  import opened Text

  const REFUSALS: set<string> := {"authentication_failed", "permission_denied", "rate_limited",
                                  "api_error", "provider_error", "not_found"}

  /** `account_status` */
  datatype Account = NotConfigured | AccountAvailable | Exhausted | Unknown {
    function Text(): string {
      match this
      case NotConfigured => "not_configured"
      case AccountAvailable => "available"
      case Exhausted => "exhausted"
      case Unknown => "unknown"
    }
  }

  datatype Breaker = Breaker(threshold: int, account: Account, refusalRun: nat, inconclusiveRun: nat,
                             calls: nat, refusals: nat, trippedOn: Option<string>)

  datatype Event = Succeeds | Fails(category: string) | Resets

  predicate Open(b: Breaker) {
    b.account in {Exhausted, Unknown}
  }

  function New(threshold: int): Breaker {
    Breaker(threshold, NotConfigured, 0, 0, 0, 0, None)
  }

  predicate Refusal(category: string) {
    category in REFUSALS
  }

  /** `_trip`: an open breaker stays as it is. */
  function Trip(b: Breaker, account: Account, category: string): Breaker {
    if Open(b) then b else b.(account := account, trippedOn := Some(category))
  }

  function RecordSuccess(b: Breaker): Breaker {
    b.(calls := b.calls + 1, refusalRun := 0, inconclusiveRun := 0, account := AccountAvailable)
  }

  function RecordFailure(b: Breaker, category: string): Breaker {
    var counted := if Refusal(category)
                   then b.(calls := b.calls + 1, refusals := b.refusals + 1,
                           refusalRun := b.refusalRun + 1, inconclusiveRun := 0)
                   else b.(calls := b.calls + 1, inconclusiveRun := b.inconclusiveRun + 1, refusalRun := 0);
    if counted.refusalRun >= b.threshold then Trip(counted, Exhausted, category)
    else if counted.inconclusiveRun >= b.threshold then Trip(counted, Unknown, category)
    else counted
  }

  function Reset(b: Breaker): Breaker {
    b.(account := AccountAvailable, refusalRun := 0, inconclusiveRun := 0, trippedOn := None)
  }

  function Next(b: Breaker, ev: Event): Breaker {
    match ev
    case Succeeds => RecordSuccess(b)
    case Fails(category) => RecordFailure(b, category)
    case Resets => Reset(b)
  }

  /** The breaker after a whole history. */
  function After(threshold: int, history: seq<Event>): Breaker {
    if history == [] then New(threshold)
    else Next(After(threshold, history[..|history| - 1]), history[|history| - 1])
  }

  // ----- the history's own account of it -----------------------------------------

  /** Where the current episode starts: after the last success or reset. */
  function EpisodeStart(history: seq<Event>): (s: nat)
    ensures s <= |history|
    ensures forall i | s <= i < |history| :: history[i].Fails?
    ensures s > 0 ==> !history[s - 1].Fails?
  {
    if history == [] || !history[|history| - 1].Fails? then |history|
    else EpisodeStart(history[..|history| - 1])
  }

  predicate SameKind(history: seq<Event>, i: nat, j: nat)
    requires i < |history| && j < |history|
  {
    history[i].Fails? && history[j].Fails? && Refusal(history[i].category) == Refusal(history[j].category)
  }

  /** `n` consecutive failures of one kind, ending with event `j`, all after `start`. */
  ghost predicate WindowEndsAt(history: seq<Event>, start: nat, n: nat, j: nat) {
    && j < |history| && start + n <= j + 1
    && forall i | j + 1 - n <= i <= j :: SameKind(history, i, j)
  }

  ghost predicate FirstWindow(history: seq<Event>, start: nat, n: nat, j: nat) {
    WindowEndsAt(history, start, n, j) && forall k: nat | k < j :: !WindowEndsAt(history, start, n, k)
  }

  ghost predicate HasWindow(history: seq<Event>, n: nat) {
    exists j: nat :: WindowEndsAt(history, EpisodeStart(history), n, j)
  }

  /** The length of the run of one kind that the history ends with. */
  function TrailingRun(history: seq<Event>, refusal: bool): (n: nat)
    ensures n <= |history| - EpisodeStart(history)
  {
    if history == [] || !history[|history| - 1].Fails? || Refusal(history[|history| - 1].category) != refusal then 0
    else 1 + TrailingRun(history[..|history| - 1], refusal)
  }

  /** A window of `n + 1` is a window of `n` before it and one more failure of its kind. */
  lemma WindowGrows(history: seq<Event>, start: nat, n: nat, j: nat)
    requires j + 1 < |history| && n >= 1
    ensures WindowEndsAt(history, start, n + 1, j + 1) <==>
            WindowEndsAt(history, start, n, j) && SameKind(history, j, j + 1)
  {
    var last := j + 1;
    if WindowEndsAt(history, start, n + 1, last) {
      assert SameKind(history, j, last);
      forall i | j + 1 - n <= i <= j ensures SameKind(history, i, j) {
        assert SameKind(history, i, last);
      }
    }
    if WindowEndsAt(history, start, n, j) && SameKind(history, j, last) {
      forall i | last - n <= i <= last ensures SameKind(history, i, last) {
        if i < last { assert SameKind(history, i, j); }
      }
    }
  }

  lemma {:induction false} TrailingRunIsWindow(history: seq<Event>, refusal: bool, n: nat)
    requires 1 <= n && history != []
    ensures n <= TrailingRun(history, refusal) <==>
            WindowEndsAt(history, EpisodeStart(history), n, |history| - 1)
            && Refusal(history[|history| - 1].category) == refusal
  {
    hide Refusal;
    var init, j := history[..|history| - 1], |history| - 1;
    if history[j].Fails? && Refusal(history[j].category) == refusal {
      assert EpisodeStart(history) == EpisodeStart(init);
      if n > 1 && init != [] {
        TrailingRunIsWindow(init, refusal, n - 1);
        WindowGrows(history, EpisodeStart(history), n - 1, j - 1);
        WindowInPrefix(history, EpisodeStart(history), n - 1, j - 1);
        assert init[j - 1] == history[j - 1];
        hide WindowEndsAt;
      } else {
        assert SameKind(history, j, j);
      }
    } else if WindowEndsAt(history, EpisodeStart(history), n, j) {
      assert SameKind(history, j, j);
    }
  }

  function CountCalls(history: seq<Event>): nat {
    if history == [] then 0
    else CountCalls(history[..|history| - 1]) + (if history[|history| - 1].Resets? then 0 else 1)
  }

  function CountRefusals(history: seq<Event>): nat {
    if history == [] then 0
    else
      var last := history[|history| - 1];
      CountRefusals(history[..|history| - 1]) + (if last.Fails? && Refusal(last.category) then 1 else 0)
  }

  /** The counters are the trailing runs and the totals of the history, for any threshold. */
  lemma {:induction false} CountersEqualHistory(threshold: int, history: seq<Event>)
    ensures var b := After(threshold, history);
            && b.threshold == threshold
            && b.refusalRun == TrailingRun(history, true) && b.inconclusiveRun == TrailingRun(history, false)
            && b.calls == CountCalls(history) && b.refusals == CountRefusals(history)
  {
    if history != [] { CountersEqualHistory(threshold, history[..|history| - 1]); }
  }

  lemma WindowInPrefix(history: seq<Event>, start: nat, n: nat, j: nat)
    requires j < |history| - 1
    ensures WindowEndsAt(history, start, n, j) <==> WindowEndsAt(history[..|history| - 1], start, n, j)
  {
    var init := history[..|history| - 1];
    assert forall i | 0 <= i <= j :: init[i] == history[i];
    assert forall i | 0 <= i <= j :: SameKind(history, i, j) == SameKind(init, i, j);
  }

  /** A window exists when it existed before the last failure, or the last failure completes one. */
  lemma HasWindowStep(history: seq<Event>, n: nat)
    requires history != [] && history[|history| - 1].Fails? && n >= 1
    ensures HasWindow(history, n) <==>
            HasWindow(history[..|history| - 1], n)
            || WindowEndsAt(history, EpisodeStart(history), n, |history| - 1)
  {
    var init, start := history[..|history| - 1], EpisodeStart(history);
    assert start == EpisodeStart(init);
    if j: nat :| WindowEndsAt(history, start, n, j) {
      if j < |history| - 1 { WindowInPrefix(history, start, n, j); }
    }
    if j: nat :| WindowEndsAt(init, start, n, j) {
      WindowInPrefix(history, start, n, j);
      assert WindowEndsAt(history, start, n, j);
    }
  }

  lemma NoWindowAfterBreak(history: seq<Event>, n: nat)
    requires n >= 1 && (history == [] || !history[|history| - 1].Fails?)
    ensures !HasWindow(history, n)
  {
  }

  /** The breaker is open exactly when the current episode holds `threshold` consecutive
      failures of one kind. */
  lemma {:induction false} OpenIffWindow(threshold: int, history: seq<Event>)
    requires threshold >= 1
    ensures Open(After(threshold, history)) <==> HasWindow(history, threshold)
  {
    hide HasWindow, WindowEndsAt, Refusal;
    if history == [] || !history[|history| - 1].Fails? {
      NoWindowAfterBreak(history, threshold);
    } else {
      var init, category := history[..|history| - 1], history[|history| - 1].category;
      OpenIffWindow(threshold, init);
      HasWindowStep(history, threshold);
      CountersEqualHistory(threshold, init);
      TrailingRunIsWindow(history, true, threshold);
      TrailingRunIsWindow(history, false, threshold);
    }
  }

  /** The first window of the episode fixes the status and the category it tripped on. */
  lemma {:induction false} FirstWindowDecides(threshold: int, history: seq<Event>, j: nat)
    requires threshold >= 1 && FirstWindow(history, EpisodeStart(history), threshold, j)
    ensures j < |history| && history[j].Fails?
    ensures var b := After(threshold, history);
            && b.account == (if Refusal(history[j].category) then Exhausted else Unknown)
            && b.trippedOn == Some(history[j].category)
  {
    hide Refusal;
    assert SameKind(history, j, j);
    var init, last := history[..|history| - 1], history[|history| - 1];
    assert last.Fails? && EpisodeStart(history) == EpisodeStart(init);
    if j < |history| - 1 {
      FirstWindowInPrefix(history, threshold, j);
      FirstWindowDecides(threshold, init, j);
      assert init[j] == history[j];
    } else {
      assert !HasWindow(init, threshold) by { NoEarlierWindow(history, threshold); }
      OpenIffWindow(threshold, init);
      CountersEqualHistory(threshold, init);
      TrailingRunIsWindow(history, true, threshold);
      TrailingRunIsWindow(history, false, threshold);
    }
  }

  lemma FirstWindowInPrefix(history: seq<Event>, n: nat, j: nat)
    requires n >= 1 && j < |history| - 1 && FirstWindow(history, EpisodeStart(history), n, j)
    requires history[|history| - 1].Fails?
    ensures FirstWindow(history[..|history| - 1], EpisodeStart(history[..|history| - 1]), n, j)
  {
    var start := EpisodeStart(history);
    assert start == EpisodeStart(history[..|history| - 1]);
    var init := history[..|history| - 1];
    WindowInPrefix(history, start, n, j);
    forall k: nat | k < j ensures !WindowEndsAt(init, start, n, k) {
      WindowInPrefix(history, start, n, k);
    }
  }

  lemma NoEarlierWindow(history: seq<Event>, n: nat)
    requires n >= 1 && history != [] && history[|history| - 1].Fails?
    requires FirstWindow(history, EpisodeStart(history), n, |history| - 1)
    ensures !HasWindow(history[..|history| - 1], n)
  {
    var init, start := history[..|history| - 1], EpisodeStart(history);
    assert start == EpisodeStart(init);
    if k: nat :| WindowEndsAt(init, start, n, k) {
      WindowInPrefix(history, start, n, k);
    }
  }

  /** A closed breaker is `not_configured` until the first success or reset, then
      `available`. */
  lemma {:induction false} ClosedStatus(threshold: int, history: seq<Event>)
    requires threshold >= 1 && !HasWindow(history, threshold)
    ensures After(threshold, history).account == if EpisodeStart(history) == 0 then NotConfigured else AccountAvailable
  {
    hide Refusal;
    OpenIffWindow(threshold, history);
    if history != [] && history[|history| - 1].Fails? {
      hide HasWindow;
      HasWindowStep(history, threshold);
      ClosedStatus(threshold, history[..|history| - 1]);
      OpenIffWindow(threshold, history[..|history| - 1]);
      assert EpisodeStart(history) == EpisodeStart(history[..|history| - 1]);
    }
  }

  /** With a threshold below one, over every history: the circuit is open exactly while
      the episode holds a failure, and then the first one tripped it as exhausted, even
      when it is no refusal. */
  lemma {:induction false} DegenerateThreshold(threshold: int, history: seq<Event>)
    requires threshold <= 0
    ensures var b, start := After(threshold, history), EpisodeStart(history);
            && (Open(b) <==> start < |history|)
            && (start < |history| ==> b.account == Exhausted && b.trippedOn == Some(history[start].category))
  {
    if history != [] {
      var init, last := history[..|history| - 1], history[|history| - 1];
      DegenerateThreshold(threshold, init);
      CountersEqualHistory(threshold, init);
      if last.Fails? && EpisodeStart(init) < |init| { assert history[EpisodeStart(init)] == init[EpisodeStart(init)]; }
    }
  }

  // ----- the shadow classifier ----------------------------------------------------------

  /** What the candidate answers, when it is asked. */
  datatype Reply = Judged(bindingId: string, suitability: string) | Unavailable(category: string)

  const CHANGED_BINDING := "candidate_changed_binding_identity"

  datatype Observation = Observation(bindingId: string, accepted: string, candidate: Option<string>,
                                     agreement: Option<bool>, failure: Option<string>)

  /** The classifier: its breaker, if it has one, what it recorded, and how many
      candidate calls it made. */
  datatype Shadow = Shadow(breaker: Option<Breaker>, observations: seq<Observation>, candidateCalls: nat)

  predicate Blocked(s: Shadow) {
    s.breaker.Some? && Open(s.breaker.value)
  }

  /** The failure category of a reply about `bindingId`, if it is one. */
  function FailureOf(bindingId: string, reply: Reply): Option<string> {
    match reply
    case Unavailable(category) => Some(category)
    case Judged(id, _) => if id != bindingId then Some(CHANGED_BINDING) else None
  }

  function Observed(s: Shadow, bindingId: string, accepted: string, reply: Reply): Observation {
    if Blocked(s) then
      Observation(bindingId, accepted, None, None, Some("circuit_open_" + s.breaker.value.account.Text()))
    else
      var failure := FailureOf(bindingId, reply);
      if failure.Some? then Observation(bindingId, accepted, None, None, failure)
      else Observation(bindingId, accepted, Some(reply.suitability), Some(reply.suitability == accepted), None)
  }

  /** `assess`, for an accepted judgement and the reply the candidate would give. */
  function Assess(s: Shadow, bindingId: string, accepted: string, reply: Reply): (Shadow, string) {
    var recorded := s.(observations := s.observations + [Observed(s, bindingId, accepted, reply)]);
    if Blocked(s) then (recorded, accepted)
    else
      var failure := FailureOf(bindingId, reply);
      var called := recorded.(candidateCalls := s.candidateCalls + 1);
      (if s.breaker == None then called
       else called.(breaker := Some(if failure.Some? then RecordFailure(s.breaker.value, failure.value)
                                    else RecordSuccess(s.breaker.value))),
       accepted)
  }

  datatype Use = Asks(bindingId: string, accepted: string, reply: Reply) | OperatorResets

  function Uses(s: Shadow, uses: seq<Use>): Shadow {
    if uses == [] then s
    else
      var before := Uses(s, uses[..|uses| - 1]);
      match uses[|uses| - 1]
      case Asks(bindingId, accepted, reply) => Assess(before, bindingId, accepted, reply).0
      case OperatorResets =>
        if before.breaker.Some? then before.(breaker := Some(Reset(before.breaker.value))) else before
  }

  /** Every call returns the accepted judgement and adds one observation of it. */
  lemma AssessFootprint(s: Shadow, bindingId: string, accepted: string, reply: Reply)
    ensures var (s', decision) := Assess(s, bindingId, accepted, reply);
            && decision == accepted
            && |s'.observations| == |s.observations| + 1 && s.observations <= s'.observations
            && s'.observations[|s.observations|].accepted == accepted
            && s'.observations[|s.observations|].bindingId == bindingId
            && (Blocked(s) ==> s'.candidateCalls == s.candidateCalls && s'.breaker == s.breaker)
            && (!Blocked(s) ==> s'.candidateCalls == s.candidateCalls + 1)
            && (s.breaker.Some? && !Blocked(s) ==> s'.breaker.value.calls == s.breaker.value.calls + 1)
  {
    hide RecordFailure, RecordSuccess;
    if s.breaker.Some? && !Blocked(s) { CallsCounted(s.breaker.value, bindingId, reply); }
  }

  lemma CallsCounted(b: Breaker, bindingId: string, reply: Reply)
    ensures RecordSuccess(b).calls == b.calls + 1
    ensures FailureOf(bindingId, reply).Some? ==>
            RecordFailure(b, FailureOf(bindingId, reply).value).calls == b.calls + 1
  {
  }

  /** What a call records: the circuit's status when it is open, the candidate's failure, the
      failure of a candidate that answers about another binding, or its judgement and
      whether that agrees. */
  lemma ObservationLaw(s: Shadow, bindingId: string, accepted: string, reply: Reply)
    ensures var s' := Assess(s, bindingId, accepted, reply).0;
            && |s'.observations| == |s.observations| + 1
            && (var o := s'.observations[|s.observations|];
                && o.bindingId == bindingId && o.accepted == accepted
                && if s.breaker.Some? && s.breaker.value.account == Exhausted then
                     (o.candidate, o.agreement, o.failure) == (None, None, Some("circuit_open_exhausted"))
                   else if s.breaker.Some? && s.breaker.value.account == Unknown then
                     (o.candidate, o.agreement, o.failure) == (None, None, Some("circuit_open_unknown"))
                   else
                     match reply
                     case Unavailable(category) => (o.candidate, o.agreement, o.failure) == (None, None, Some(category))
                     case Judged(id, suitability) =>
                       if id != bindingId then
                         (o.candidate, o.agreement, o.failure)
                         == (None, None, Some("candidate_changed_binding_identity"))
                       else
                         (o.candidate, o.failure) == (Some(suitability), None)
                         && (o.agreement == Some(true) <==> suitability == accepted)
                         && (o.agreement == Some(false) <==> suitability != accepted))
  {
    hide RecordFailure, RecordSuccess;
    assert "circuit_open_" + "exhausted" == "circuit_open_exhausted";
    assert "circuit_open_" + "unknown" == "circuit_open_unknown";
  }

  /** The breaker counts a usable judgement as a success and everything else as a failure of
      its category; one that is open hears nothing. */
  lemma BreakerHears(s: Shadow, bindingId: string, accepted: string, reply: Reply)
    requires s.breaker.Some?
    ensures var b := s.breaker.value;
            Assess(s, bindingId, accepted, reply).0.breaker ==
            if b.account == Exhausted || b.account == Unknown then Some(b)
            else
              match reply
              case Unavailable(category) => Some(RecordFailure(b, category))
              case Judged(id, _) =>
                if id == bindingId then Some(RecordSuccess(b))
                else Some(RecordFailure(b, "candidate_changed_binding_identity"))
  {
    hide RecordFailure, RecordSuccess;
  }

  /** The categories that count as refusals. */
  lemma RefusalsAre(category: string)
    ensures Refusal(category) <==>
            category in ["authentication_failed", "permission_denied", "rate_limited", "api_error", "provider_error",
                         "not_found"]
  {
  }

  /** Once open, and driven only through the classifier, it stays open with the same
      status until the operator resets, and makes no further candidate call. */
  lemma {:induction false} OpenStaysOpen(s: Shadow, uses: seq<Use>)
    requires Blocked(s) && forall u | u in uses :: u.Asks?
    ensures Uses(s, uses).breaker == s.breaker && Uses(s, uses).candidateCalls == s.candidateCalls
    ensures |Uses(s, uses).observations| == |s.observations| + |uses|
  {
    hide RecordFailure, RecordSuccess, Observed;
    if uses != [] {
      assert uses[|uses| - 1] in uses;
      assert forall u | u in uses[..|uses| - 1] :: u in uses;
      OpenStaysOpen(s, uses[..|uses| - 1]);
    }
  }

  /** The events the breaker saw through the classifier. */
  function SeenBy(s: Shadow, uses: seq<Use>): seq<Event> {
    if uses == [] then []
    else
      var before, rest := Uses(s, uses[..|uses| - 1]), SeenBy(s, uses[..|uses| - 1]);
      match uses[|uses| - 1]
      case OperatorResets => rest + [Resets]
      case Asks(bindingId, _, reply) =>
        if Blocked(before) then rest
        else
          var failure := FailureOf(bindingId, reply);
          rest + [if failure.Some? then Fails(failure.value) else Succeeds]
  }

  /** The classifier's breaker is the breaker of the events it saw, so the history laws
      apply to it. */
  lemma {:induction false} ShadowBreakerFollowsHistory(threshold: int, uses: seq<Use>)
    ensures var s := Shadow(Some(New(threshold)), [], 0);
            Uses(s, uses).breaker == Some(After(threshold, SeenBy(s, uses)))
  {
    hide RecordFailure, RecordSuccess, Observed, Reset, New, FailureOf;
    var s := Shadow(Some(New(threshold)), [], 0);
    if uses != [] {
      var init := uses[..|uses| - 1];
      ShadowBreakerFollowsHistory(threshold, init);
      var seen := SeenBy(s, uses);
      if |seen| > |SeenBy(s, init)| { assert seen[..|seen| - 1] == SeenBy(s, init); }
    }
  }

  // ----- the objects -----------------------------------------------------------------------

  /** `CandidateBreaker` */
  class CandidateBreaker {
    const threshold: int
    var account: Account
    var refusalRun: nat
    var inconclusiveRun: nat
    var calls: nat
    var refusals: nat
    var trippedOn: Option<string>
    /** What happened so far. */
    ghost var history: seq<Event>

    function State(): Breaker
      reads this
    {
      Breaker(threshold, account, refusalRun, inconclusiveRun, calls, refusals, trippedOn)
    }

    ghost predicate Valid()
      reads this
    {
      State() == After(threshold, history)
    }

    constructor (threshold: int)
      ensures Valid() && State() == New(threshold) && history == []
    {
      this.threshold := threshold;
      account, refusalRun, inconclusiveRun, calls, refusals, trippedOn := NotConfigured, 0, 0, 0, 0, None;
      history := [];
    }

    method Success()
      requires Valid()
      modifies this
      ensures Valid() && history == old(history) + [Succeeds] && State() == RecordSuccess(old(State()))
    {
      calls := calls + 1;
      refusalRun := 0;
      inconclusiveRun := 0;
      account := AccountAvailable;
      history := history + [Succeeds];
      assert history[..|history| - 1] == old(history);
    }

    method Failure(category: string)
      requires Valid()
      modifies this
      ensures Valid() && history == old(history) + [Fails(category)] && State() == RecordFailure(old(State()), category)
    {
      hide Refusal, After;
      AfterSnoc(threshold, history, Fails(category));
      calls := calls + 1;
      if Refusal(category) {
        refusals := refusals + 1;
        refusalRun := refusalRun + 1;
        inconclusiveRun := 0;
      } else {
        inconclusiveRun := inconclusiveRun + 1;
        refusalRun := 0;
      }
      if refusalRun >= threshold {
        TripOn(Exhausted, category);
      } else if inconclusiveRun >= threshold {
        TripOn(Unknown, category);
      }
      history := history + [Fails(category)];
    }

    method TripOn(status: Account, category: string)
      modifies this`account, this`trippedOn
      ensures State() == Trip(old(State()), status, category)
    {
      if account in {Exhausted, Unknown} { return; }
      account := status;
      trippedOn := Some(category);
    }

    method OperatorReset()
      requires Valid()
      modifies this
      ensures Valid() && history == old(history) + [Resets] && State() == Reset(old(State()))
    {
      AfterSnoc(threshold, history, Resets);
      account := AccountAvailable;
      refusalRun, inconclusiveRun := 0, 0;
      trippedOn := None;
      history := history + [Resets];
    }
  }

  lemma AfterSnoc(threshold: int, history: seq<Event>, ev: Event)
    ensures After(threshold, history + [ev]) == Next(After(threshold, history), ev)
  {
    assert (history + [ev])[..|history|] == history;
  }

  /** `ShadowClassifier` with a breaker. The accepted judgement and the candidate's reply
      come from outside; `reply` is looked at only when the candidate is called. */
  class ShadowClassifier {
    const breaker: CandidateBreaker
    var observations: seq<Observation>
    var candidateCalls: nat

    function State(): Shadow
      reads this, breaker
    {
      Shadow(Some(breaker.State()), observations, candidateCalls)
    }

    constructor (breaker: CandidateBreaker)
      ensures this.breaker == breaker && observations == [] && candidateCalls == 0
    {
      this.breaker := breaker;
      observations, candidateCalls := [], 0;
    }

    method AssessBinding(bindingId: string, accepted: string, reply: Reply) returns (decision: string)
      requires breaker.Valid()
      modifies this, breaker
      ensures breaker.Valid()
      ensures (State(), decision) == Assess(old(State()), bindingId, accepted, reply)
    {
      hide RecordFailure, RecordSuccess, After;
      decision := accepted;
      var observation := Observation(bindingId, accepted, None, None, None);
      if Open(breaker.State()) {
        observation := observation.(failure := Some("circuit_open_" + breaker.account.Text()));
      } else {
        candidateCalls := candidateCalls + 1;
        var failure := FailureOf(bindingId, reply);
        if failure.Some? {
          observation := observation.(failure := failure);
          breaker.Failure(failure.value);
        } else {
          observation := observation.(candidate := Some(reply.suitability),
                                      agreement := Some(reply.suitability == accepted));
          breaker.Success();
        }
      }
      observations := observations + [observation];
    }
  }
}
