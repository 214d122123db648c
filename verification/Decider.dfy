/** One tick's decision. Models internal/decide/decide.go, without the fields that are only
    logged (the decision's own reason, the held gate's name, the resume latency). */
module Decider {
  import opened Clock
  import opened Budget
  import opened Memory
  import opened Policy
  import opened JobGate

  /** spec.job.state as written; an absent field means running. */
  datatype JobSpec = Unset | Running | Stopped

  datatype Live = Live(
    stopped: bool,              // spec.job.state is "suspended"
    upgradeMode: UpgradeMode,
    operatorRestarts: bool,
    generation: int,
    nonce: int,
    job: JobState,
    lifecycle: Lifecycle,
    error: string)
  {
    predicate OperatorBusy() { lifecycle == Upgrading || lifecycle == RollingBack }

    predicate Settled() { lifecycle == Stable && job == JobRunning }

    predicate Asleep() { lifecycle == SuspendedByOperator }

    predicate KeepsPosition() { upgradeMode == Savepoint || upgradeMode == LastState }

    predicate ResumesFromGroup(p: Policy) { p.resumeFromGroup && upgradeMode == Stateless }
  }

  datatype Observation = Observation(
    snapshot: Snapshot,
    known: bool,
    pending: int,
    lagKnown: bool,
    uncommitted: bool,
    ends: Ends,
    reading: JobReading,
    readingKnown: bool,
    readingNote: string,
    why: string,
    unlearned: bool)

  datatype Action = Nothing | Suspend | Resume | Restart | MarkUnrecoverable | Refuse

  datatype Decision = Decision(action: Action, next: State)

  /** The decider's configuration. Patterns are held trimmed of white space. */
  datatype Config = Config(
    maxRestarts: int,
    window: Duration,
    baseBackoff: Duration,
    failingAfter: Duration,
    patterns: seq<string>,
    quiet: Duration)

  function Quiet(c: Config): Duration {
    if c.quiet > 0 then c.quiet else 60 * SECOND
  }

  function Wake(s: State, now: Time, reason: Reason): State {
    s.(phase := Active, suspendedAt := 0, awakeSince := now, lastActivityAt := now, reason := reason,
       refreshWake := false)
  }

  predicate Contains(text: string, sub: string) {
    exists i: nat :: i <= |text| && sub <= text[i..]
  }

  function MatchedPattern(patterns: seq<string>, error: string): Option<string> {
    if error == "" || patterns == [] then None
    else if patterns[0] != "" && Contains(error, patterns[0]) then Some(patterns[0])
    else MatchedPattern(patterns[1..], error)
  }

  lemma {:induction false} MatchedAfter(patterns: seq<string>, error: string, i: nat)
    requires error != "" && i <= |patterns|
    requires forall j :: 0 <= j < i ==> patterns[j] == "" || !Contains(error, patterns[j])
    ensures MatchedPattern(patterns, error) == MatchedPattern(patterns[i..], error)
  {
    if i > 0 {
      MatchedAfter(patterns, error, i - 1);
      assert patterns[i - 1..][1..] == patterns[i..];
    }
  }

  /** The first pattern that an error holds: none exactly when there is no error or it holds none. */
  method FirstMatch(patterns: seq<string>, error: string) returns (found: Option<string>)
    ensures found == MatchedPattern(patterns, error)
    ensures found == None <==> error == "" || forall i :: 0 <= i < |patterns| ==> patterns[i] == "" || !Contains(error, patterns[i])
    ensures found.Some? ==> found.value in patterns && found.value != "" && Contains(error, found.value)
  {
    if error == "" { return None; }
    var i := 0;
    while i < |patterns|
      invariant 0 <= i <= |patterns|
      invariant forall j :: 0 <= j < i ==> patterns[j] == "" || !Contains(error, patterns[j])
    {
      MatchedAfter(patterns, error, i);
      if patterns[i] != "" && Contains(error, patterns[i]) { return Some(patterns[i]); }
      i := i + 1;
    }
    MatchedAfter(patterns, error, i);
    found := None;
  }

  predicate Failing(c: Config, live: Live, s: State, now: Time) {
    || live.job == JobFailed
    || live.lifecycle == FailedLifecycle
    || (var since := if s.awakeSince > s.restartingSince then s.awakeSince else s.restartingSince;
        live.job == JobRestarting && now > since + c.failingAfter)
  }

  /** A spec edit clears unrecoverable, with fresh clocks and a fresh budget; then the generation
      is recorded. */
  function AfterSpecEdit(prev: State, live: Live, now: Time): State {
    var cleared :=
      if prev.phase == Unrecoverable && live.generation > prev.generation
      then Wake(prev, now, SpecChanged).(restarts := Fresh(prev.restarts.lastNonce))
      else prev;
    cleared.(generation := live.generation)
  }

  /** The remembered state once this tick's observation is absorbed. */
  function Absorbed(prev: State, obs: Observation, now: Time): State {
    var cur := prev.(snapshot := obs.snapshot);
    if obs.snapshot != prev.snapshot then cur.(lastActivityAt := now, refreshWake := false) else cur
  }

  predicate RefreshDue(p: Policy, prev: State, live: Live, now: Time) {
    live.ResumesFromGroup(p) && p.maxSleep > 0 && now > prev.suspendedAt + p.maxSleep
  }

  function WhileSuspended(p: Policy, prev: State, live: Live, obs: Observation, now: Time): Decision {
    var cur := Absorbed(prev, obs, now);
    if !live.stopped then Decision(Nothing, Wake(cur, now, ResumedOutside))
    else
      // While it is held back, the input is not taken in, and counts as new at the next tick.
      var waiting := cur.(snapshot := prev.snapshot);
      var moved := obs.snapshot != prev.snapshot;
      var refresh := !moved && RefreshDue(p, prev, live, now);
      if !live.Asleep() then Decision(Nothing, waiting)
      else if !moved && !refresh then Decision(Nothing, cur)
      else if live.ResumesFromGroup(p) && obs.uncommitted then
        Decision(Nothing, waiting.(reason := OffsetsMissing(p.consumerGroup)))
      else if live.ResumesFromGroup(p) && !obs.lagKnown then
        Decision(Nothing, waiting.(reason := LagUnknown(p.consumerGroup)))
      else if refresh then
        Decision(Resume, cur.(phase := Active, suspendedAt := 0, awakeSince := now, resumedAt := now,
                              refreshWake := true, reason := WokenAfter(p.maxSleep)))
      else Decision(Resume, Wake(cur, now, InputObserved).(resumedAt := now))
  }

  /** Bookkeeping of an awake job before any gate: the resume latency is cleared once it runs, a
      restart memory never recorded is counted, and a stay in RESTARTING is timed. */
  function Tallied(c: Config, cur: State, live: Live, now: Time): State {
    var s := if cur.resumedAt != 0 && live.Settled() then cur.(resumedAt := 0) else cur;
    var t :=
      if live.nonce > s.restarts.lastNonce
      then s.(restarts := Consume(s.restarts, now, c.window, c.baseBackoff).(lastNonce := live.nonce), awakeSince := now)
      else s;
    if live.job != JobRestarting then t.(restartingSince := 0)
    else if t.restartingSince == 0 then t.(restartingSince := now)
    else t
  }

  predicate IdleLongEnough(p: Policy, cur: State, live: Live, now: Time) {
    now > cur.lastActivityAt + p.idleAfter || (cur.refreshWake && live.ResumesFromGroup(p))
  }

  function GateAnswer(c: Config, p: Policy, obs: Observation): Answer {
    if !obs.readingKnown then Answer(JobUnknown, Reported(obs.readingNote))
    else Answered(p.sources, obs.ends, obs.reading, Quiet(c))
  }

  /** The chain of gates an idle job has to pass before it is suspended. */
  function ThroughGates(c: Config, p: Policy, cur: State, live: Live, obs: Observation, now: Time): Decision {
    if now <= cur.awakeSince + p.minAwake then Decision(Nothing, cur)
    else if !live.KeepsPosition() && !live.ResumesFromGroup(p) then
      Decision(Refuse, cur.(reason := RefusedMode(live.upgradeMode)))
    else if p.consumerGroup != "" && !obs.lagKnown then
      Decision(Nothing, cur.(reason := LagUnknown(p.consumerGroup)))
    else if p.consumerGroup != "" && obs.pending > 0 then
      Decision(Nothing, cur.(pending := obs.pending, reason := RecordsPending(p.consumerGroup)))
    else
      var caught := if p.consumerGroup != "" then cur.(pending := 0) else cur;
      var answer := GateAnswer(c, p, obs);
      if p.idleFromJob && answer.gate == JobBusy then Decision(Nothing, caught.(reason := JobBusyNow(answer.note)))
      else if p.idleFromJob && answer.gate == JobUnknown then Decision(Nothing, caught.(reason := JobNotKnown(answer.note)))
      else
        var why := if caught.refreshWake then Refreshed else NoInputFor(p.idleAfter);
        Decision(Suspend, caught.(reason := why, phase := Suspended, suspendedAt := now, refreshWake := false))
  }

  function OnFailing(c: Config, cur: State, live: Live, now: Time): Decision {
    if InBackoff(cur.restarts, now, c.window) then Decision(Nothing, cur)
    else if Exhausted(cur.restarts, now, c.maxRestarts, c.window) then
      Decision(MarkUnrecoverable, cur.(phase := Unrecoverable, reason := BudgetExhausted))
    else
      var spent := Consume(cur.restarts, now, c.window, c.baseBackoff).(lastNonce := UnixMilli(now));
      Decision(Restart, cur.(restarts := spent, awakeSince := now, reason := RestartNumber(spent.count)))
  }

  /** An awake job after its bookkeeping: marked, restarted, left alone or put through the gates. */
  function Judged(c: Config, p: Policy, cur: State, live: Live, obs: Observation, now: Time): Decision {
    var pattern := MatchedPattern(c.patterns, live.error);
    if pattern.Some? && p.restart && !live.Settled() then
      Decision(MarkUnrecoverable, cur.(phase := Unrecoverable, reason := MatchesPattern(pattern.value)))
    else if p.restart && live.operatorRestarts && Failing(c, live, cur, now) then Decision(Nothing, cur)
    else if p.restart && Failing(c, live, cur, now) then OnFailing(c, cur, live, now)
    else if p.mode == Auto && live.Settled() && IdleLongEnough(p, cur, live, now) then
      ThroughGates(c, p, cur, live, obs, now)
    else Decision(Nothing, cur)
  }

  function WhileActive(c: Config, p: Policy, prev: State, live: Live, obs: Observation, now: Time): Decision {
    if live.stopped then Decision(Nothing, Absorbed(prev, obs, now).(reason := SuspendedOutside))
    else Judged(c, p, Tallied(c, Absorbed(prev, obs, now), live, now), live, obs, now)
  }

  function WhileUnrecoverable(prev: State, obs: Observation, now: Time): Decision {
    var reason := if prev.reason == NoReason then UnrecoverableUnexplained else prev.reason;
    Decision(Nothing, Absorbed(prev, obs, now).(reason := reason))
  }

  /** The decision on a state whose generation is up to date. */
  function Weighed(c: Config, p: Policy, prev: State, live: Live, obs: Observation, now: Time): Decision {
    if obs.unlearned && prev.phase == Suspended && live.stopped && p.mode == Auto then
      // Asleep with no memory of its topics: only the running job could name them.
      if !live.Asleep() then Decision(Nothing, prev)
      else if live.ResumesFromGroup(p) then Decision(Nothing, prev.(reason := RelearnHeld))
      else Decision(Resume, Wake(prev, now, Relearn).(resumedAt := now))
    else if !obs.known then
      Decision(Nothing, if obs.why != "" then prev.(reason := Because(obs.why)) else prev)
    else match prev.phase
      case Suspended => WhileSuspended(p, prev, live, obs, now)
      case Unrecoverable => WhileUnrecoverable(prev, obs, now)
      case Active => WhileActive(c, p, prev, live, obs, now)
  }

  function Decide(c: Config, p: Policy, before: State, live: Live, obs: Observation, now: Time): Decision {
    if live.OperatorBusy() then Decision(Nothing, before)
    else if p.mode == Off && before.phase == Suspended && live.stopped then
      if !live.Asleep() then Decision(Nothing, before)
      else Decision(Resume, Wake(before, now, SuspensionOff))
    else Weighed(c, p, AfterSpecEdit(before, live, now), live, obs, now)
  }
}
