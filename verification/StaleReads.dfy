/** What happens without the conditions of MarkAgreesInEveryRun: concrete runs of the code that end
    with a mark and a spec that disagree. */
module StaleReads {
  import opened Clock
  import opened Budget
  import opened Memory
  import opened Policy
  import opened Decider
  import opened Tick
  import opened Observing
  import opened Agreement

  const DAY := 24 * HOUR
  const T := 700_000 * DAY

  const CONFIG := Config(3, HOUR, 60 * SECOND, HOUR, [], 60 * SECOND)

  const POLICY := Policy(Auto, ["orders"], DAY, 0, true, "", false, false, 0, [])

  /** Offsets are known and never move. */
  const QUIET := Seeing(5)

  /** A job the controller has watched fail through its whole restart budget. */
  const FAILED_JOB := Object(Running, Some(Active), FirstObservation, 7, 1, FailedLifecycle, JobFailed,
                             Savepoint, false, "", Some(POLICY), false)

  /** The same job once the operator reports that it recovered. */
  const RECOVERED_JOB := FAILED_JOB.(lifecycle := Stable, job := JobRunning)

  const IDLE_MEMORY := State(Active, QUIET.snapshot, T - 3 * DAY, 0, T - 3 * DAY,
                             RestartBudget(3, T - 1800 * SECOND, T - 900 * SECOND, 7),
                             FirstObservation, 1, 0, 0, false, 0)

  const START := World([FAILED_JOB], 0, 0, Some(IDLE_MEMORY))

  /** The job recovers while its budget is being found exhausted; the mark lands but its save is
      lost. The next read is older than that mark and suspends the idle job. The read after that
      shows the mark but not the suspend, and memory takes it for the truth. */
  const STALE_RUN := [
    Others(RECOVERED_JOB),
    Reconcile(0, T, QUIET, SaveLost),
    Reconcile(1, T + SECOND, QUIET, Saved),
    Reconcile(2, T + 2 * SECOND, QUIET, Saved),
    Reconcile(3, T + 3 * SECOND, QUIET, Saved)]

  function MarkedJob(): Object { RECOVERED_JOB.(mark := Some(Unrecoverable), reason := BudgetExhausted) }

  function AsleepJob(): Object {
    MarkedJob().(mark := Some(Suspended), reason := NoInputFor(DAY), spec := Stopped, generation := 2, suspending := true)
  }

  function AsleepMemory(): State {
    IDLE_MEMORY.(phase := Suspended, suspendedAt := T + SECOND, reason := NoInputFor(DAY))
  }

  lemma FirstTickMarks()
    ensures PlanOf(CONFIG, FAILED_JOB, Some(IDLE_MEMORY), QUIET, T).patch
         == Some(Patch(Some(Unrecoverable), BudgetExhausted, None, None))
    ensures Merged(RECOVERED_JOB, Patch(Some(Unrecoverable), BudgetExhausted, None, None)) == MarkedJob()
  {
  }

  lemma SecondTickSuspends()
    ensures PlanOf(CONFIG, RECOVERED_JOB, Some(IDLE_MEMORY), QUIET, T + SECOND)
         == Plan(Some(Patch(Some(Suspended), NoInputFor(DAY), Some(Stopped), None)), Save(AsleepMemory()))
    ensures Merged(MarkedJob(), Patch(Some(Suspended), NoInputFor(DAY), Some(Stopped), None)) == AsleepJob()
  {
    var cur := Tallied(CONFIG, Absorbed(AfterSpecEdit(IDLE_MEMORY, LiveOf(RECOVERED_JOB), T + SECOND), QUIET, T + SECOND),
                       LiveOf(RECOVERED_JOB), T + SECOND);
    assert cur == IDLE_MEMORY;
  }

  function MisledMemory(): State { Persisted(AsleepMemory()).(phase := Unrecoverable, reason := BudgetExhausted) }

  lemma ThirdTickForgetsTheSuspend()
    ensures PlanOf(CONFIG, MarkedJob(), Some(Persisted(AsleepMemory())), QUIET, T + 2 * SECOND)
         == Plan(None, Save(MisledMemory()))
  {
  }

  lemma FourthTickCallsItSomeoneElses()
    ensures PlanOf(CONFIG, AsleepJob(), Some(Persisted(MisledMemory())), QUIET, T + 3 * SECOND).patch
         == Some(Patch(Some(Active), SuspendedOutside, None, None))
  {
  }

  function Recovered(): World { World([FAILED_JOB, RECOVERED_JOB], 0, 0, Some(IDLE_MEMORY)) }

  function MarkLanded(): World { World([FAILED_JOB, RECOVERED_JOB, MarkedJob()], 2, 0, Some(IDLE_MEMORY)) }

  function FellAsleep(): World {
    World([FAILED_JOB, RECOVERED_JOB, MarkedJob(), AsleepJob()], 3, 1, Some(Persisted(AsleepMemory())))
  }

  function Misled(): World { FellAsleep().(cached := 2, mem := Some(Persisted(MisledMemory()))) }

  lemma FirstSteps()
    ensures Inv(START)
    ensures Legal(CONFIG, START, STALE_RUN[0]) && After(CONFIG, START, STALE_RUN[0]) == Recovered()
    ensures Legal(CONFIG, Recovered(), STALE_RUN[1]) && After(CONFIG, Recovered(), STALE_RUN[1]) == MarkLanded()
  {
    FirstTickMarks();
  }

  lemma MiddleSteps()
    ensures Legal(CONFIG, MarkLanded(), STALE_RUN[2]) && After(CONFIG, MarkLanded(), STALE_RUN[2]) == FellAsleep()
    ensures Legal(CONFIG, FellAsleep(), STALE_RUN[3]) && After(CONFIG, FellAsleep(), STALE_RUN[3]) == Misled()
  {
    SecondTickSuspends();
    ThirdTickForgetsTheSuspend();
  }

  lemma LastStep()
    ensures Legal(CONFIG, Misled(), STALE_RUN[4])
  {
    FourthTickCallsItSomeoneElses();
  }

  function Stranded(): (w: World)
    ensures WellFormed(w) && Current(w).spec == Stopped && Current(w).mark == Some(Active) && Current(w).reason == SuspendedOutside
  {
    LastStep();
    FourthTickCallsItSomeoneElses();
    After(CONFIG, Misled(), STALE_RUN[4])
  }

  function StateAt(i: nat): World {
    if i == 0 then START else if i == 1 then Recovered() else if i == 2 then MarkLanded()
    else if i == 3 then FellAsleep() else if i == 4 then Misled() else Stranded()
  }

  lemma EachStep(i: nat)
    requires i < 5
    ensures Leads(CONFIG, StateAt, STALE_RUN, i)
  {
    if i < 2 { FirstSteps(); } else if i < 4 { MiddleSteps(); } else { LastStep(); }
  }

  /** A legal run, from a state every invariant allows, after which the controller's own suspend is
      marked active: to the controller it is someone else's, and no input will wake the job. */
  lemma StaleReadsCanStrandAJob()
    ensures Inv(START) && LegalRun(CONFIG, START, STALE_RUN)
    ensures var o := Current(Final(CONFIG, START, STALE_RUN));
      o.spec == Stopped && o.mark == Some(Active) && o.reason == SuspendedOutside && !Agrees(o)
  {
    FirstSteps();
    forall i: nat | i < 5 ensures Leads(CONFIG, StateAt, STALE_RUN, i) { EachStep(i); }
    RunThrough(CONFIG, StateAt, STALE_RUN, 0);
    assert STALE_RUN[0..] == STALE_RUN;
  }

  lemma StaleRunIsCredible()
    ensures Credible(STALE_RUN, 0)
  {
    SeeingIsObserved(5);
  }

  /** The other condition: a release whose delete is lost leaves a memory that says suspended under
      an object that carries no mark, which the next tick of a new policy cannot mend. */
  lemma LostDeleteCannotBeMended(c: Config, o: Object, mem: Option<State>, obs: Observation, now: Time, later: Time)
    requires o.policy == None && o.mark == Some(Suspended) && o.spec == Stopped
    requires o.lifecycle == SuspendedByOperator && mem.Some? && mem.value.phase == Suspended
    ensures var plan := PlanOf(c, o, mem, obs, now);
      var after := ObjectAfter(plan, o, SaveLost);
      && Agrees(after) && !Mendable(MemoryAfter(plan, mem, SaveLost), after)
      && !AlwaysHonest(c, after, MemoryAfter(plan, mem, SaveLost), later)
  {
    var plan := PlanOf(c, o, mem, obs, now);
    HonestExactlyWhenMendable(c, ObjectAfter(plan, o, SaveLost), mem, later);
  }
}
