/** What the controller remembers about one deployment, and what of it survives a save.
    Models internal/state/state.go. */
module Memory {
  import opened Clock
  import opened Budget
  import opened Policy

  datatype Option<T> = None | Some(value: T)

  datatype Phase = Active | Suspended | Unrecoverable

  type Snapshot = map<string, string>

  datatype Lifecycle =
    | Created | SuspendedByOperator | Upgrading | Deployed | Stable
    | RollingBack | RolledBack | FailedLifecycle | OtherLifecycle(name: string)

  datatype JobState =
    | JobRunning | JobFailed | JobRestarting | OtherJobState(name: string)

  datatype UpgradeMode = Savepoint | LastState | Stateless | OtherMode(name: string)

  /** What the job gate has to say for itself. */
  datatype GateNote =
    | NoNote
    | NoOffsetsFor(topic: string)
    | NoEndFor(topic: string, partition: nat)
    | NoOffsetFor(topic: string, partition: nat)
    | StillPending(records: int)
    | EmittedWithin(idle: Duration)
    | Reported(text: string)

  /** The reasons written on the object. Only their equality matters, so each wording is a
      constructor and its variable parts are arguments. NoReason is the empty string. */
  datatype Reason =
    | NoReason | FirstObservation | MemoryRepaired | SpecChanged
    | InputObserved | SuspensionOff | SuspendedOutside | ResumedOutside
    | BudgetExhausted | UnrecoverableUnexplained | MatchesPattern(pattern: string)
    | RestartNumber(n: nat) | RefusedMode(mode: UpgradeMode)
    | LagUnknown(group: string) | RecordsPending(group: string) | OffsetsMissing(group: string)
    | JobBusyNow(note: GateNote) | JobNotKnown(note: GateNote)
    | NoInputFor(d: Duration) | Refreshed | WokenAfter(d: Duration)
    | Relearn | RelearnHeld | Because(why: string) | InvalidPolicy(problems: seq<Problem>)

  datatype State = State(
    phase: Phase,
    snapshot: Snapshot,
    lastActivityAt: Time,
    suspendedAt: Time,
    awakeSince: Time,
    restarts: RestartBudget,
    reason: Reason,
    generation: int,
    resumedAt: Time,
    pending: int,
    refreshWake: bool,
    restartingSince: Time)

  function Initial(now: Time): State {
    State(Active, map[], now, 0, now, Fresh(0), FirstObservation, 0, 0, 0, false, 0)
  }

  /** What the next Load returns after a Save: every clock but the restart budget's, which is
      JSON with nanoseconds, is cut to whole seconds. */
  function Persisted(s: State): State {
    s.(lastActivityAt := WholeSeconds(s.lastActivityAt),
       suspendedAt := WholeSeconds(s.suspendedAt),
       awakeSince := WholeSeconds(s.awakeSince),
       resumedAt := WholeSeconds(s.resumedAt),
       restartingSince := WholeSeconds(s.restartingSince))
  }

  /** A clock as it comes back: the start of its second. */
  predicate Cut(clock: Time, saved: Time) { saved % SECOND == 0 && saved <= clock < saved + SECOND }

  /** Saving loses less than a second of five clocks, and nothing else: not the budget, whose clocks keep
      their nanoseconds. Saving again loses nothing more. */
  lemma PersistedMeaning(s: State)
    ensures var p := Persisted(s);
      && Cut(s.lastActivityAt, p.lastActivityAt) && Cut(s.suspendedAt, p.suspendedAt) && Cut(s.awakeSince, p.awakeSince)
      && Cut(s.resumedAt, p.resumedAt) && Cut(s.restartingSince, p.restartingSince)
      && p == s.(lastActivityAt := p.lastActivityAt, suspendedAt := p.suspendedAt, awakeSince := p.awakeSince,
                 resumedAt := p.resumedAt, restartingSince := p.restartingSince)
      && Persisted(p) == p
  {
    WholeSecondsTwice(s.lastActivityAt);
    WholeSecondsTwice(s.suspendedAt);
    WholeSecondsTwice(s.awakeSince);
    WholeSecondsTwice(s.resumedAt);
    WholeSecondsTwice(s.restartingSince);
  }
}
