/** A deployment's policy, and what reading it guarantees. Models internal/policy/policy.go from
    the point where each annotation has been recognised or not. */
module Policy {
  import opened Clock

  datatype Mode = Auto | Off

  datatype Policy = Policy(
    mode: Mode,
    sources: seq<string>,
    idleAfter: Duration,
    minAwake: Duration,
    restart: bool,
    consumerGroup: string,
    idleFromJob: bool,
    resumeFromGroup: bool,
    maxSleep: Duration,
    problems: seq<Problem>)

  datatype Problem =
    | NotRestart | NotMode | NotIdle | NotResumeFrom | NotDuration(key: DurationKey)
    | GroupMissing | SourcesMissing | BootstrapReserved

  datatype DurationKey = IdleAfterKey | MinAwakeKey | MaxSleepKey

  /** An annotation after recognition: absent or blank, one of its accepted values, or neither. */
  datatype Field<T> = Absent | Value(value: T) | Unreadable(text: string)

  datatype Annotations = Annotations(
    mode: Field<Mode>,
    restart: Field<bool>,
    idleFromJob: Field<()>,
    idleAfter: Field<Duration>,
    minAwake: Field<Duration>,
    resumeFromGroup: Field<()>,
    maxSleep: Field<Duration>,
    consumerGroup: string,
    sourcesAuto: bool,
    sources: seq<string>,
    bootstrapServers: bool)

  const HOUR := 3600 * SECOND

  /** What a policy without problems guarantees to the rest of the controller. */
  predicate Sound(p: Policy) {
    p.problems == [] ==>
      && p.idleAfter > 0
      && p.minAwake >= 0
      && p.maxSleep >= 0
      && (p.resumeFromGroup ==> p.consumerGroup != "")
  }

  /** A duration that can be used: absent, or positive, or zero where zero is allowed. */
  predicate UsableDuration(field: Field<Duration>, zeroOk: bool) {
    field.Absent? || (field.Value? && (field.value > 0 || (zeroOk && field.value == 0)))
  }

  /** Annotations that leave nothing to complain about. */
  predicate Usable(a: Annotations) {
    && !a.mode.Unreadable? && !a.restart.Unreadable? && !a.idleFromJob.Unreadable? && !a.resumeFromGroup.Unreadable?
    && UsableDuration(a.idleAfter, false) && UsableDuration(a.minAwake, true) && UsableDuration(a.maxSleep, true)
    && (a.resumeFromGroup.Value? ==> a.consumerGroup != "")
    && (a.sourcesAuto || a.sources != []) && !a.bootstrapServers
  }

  method ReadDuration(key: DurationKey, field: Field<Duration>, dflt: Duration, zeroOk: bool, problems: seq<Problem>)
    returns (d: Duration, after: seq<Problem>)
    requires dflt > 0
    ensures UsableDuration(field, zeroOk) ==> after == problems && d == if field.Value? then field.value else dflt
    ensures !UsableDuration(field, zeroOk) ==> after == problems + [NotDuration(key)] && d == dflt
  {
    after := problems;
    match field {
      case Absent => d := dflt;
      case Unreadable(text) =>
        d, after := dflt, after + [NotDuration(key)];
      case Value(v) =>
        if v < 0 || (v == 0 && !zeroOk) {
          d, after := dflt, after + [NotDuration(key)];
        } else {
          d := v;
        }
    }
  }

  /** An object without a mode is not managed. Otherwise a value that cannot be used is never silently
      replaced: there is a problem if and only if something is unusable, and a policy without problems
      is sound and says what its annotations say. */
  method Read(a: Annotations) returns (p: Policy, managed: bool)
    ensures managed <==> !a.mode.Absent?
    ensures managed ==> Sound(p) && (p.problems == [] <==> Usable(a))
    ensures managed && p.problems == [] ==>
      && (p.mode == Off <==> a.mode == Value(Off)) && (p.restart <==> a.restart != Value(false))
      && (p.idleFromJob <==> a.idleFromJob.Value?) && (p.resumeFromGroup <==> a.resumeFromGroup.Value?)
      && (a.idleAfter.Value? ==> p.idleAfter == a.idleAfter.value)
      && (a.minAwake.Value? ==> p.minAwake == a.minAwake.value)
      && (a.maxSleep.Value? ==> p.maxSleep == a.maxSleep.value)
      && (a.idleAfter.Absent? ==> p.idleAfter == 14 * 24 * HOUR) && (a.minAwake.Absent? ==> p.minAwake == HOUR)
      && (a.maxSleep.Absent? ==> p.maxSleep == 6 * 24 * HOUR)
      && p.consumerGroup == a.consumerGroup && (!a.sourcesAuto ==> p.sources == a.sources)
  {
    if a.mode.Absent? {
      return Policy(Auto, [], 0, 0, false, "", false, false, 0, []), false;
    }
    var problems: seq<Problem> := [];
    var mode, restart := Auto, true;
    if a.restart.Value? { restart := a.restart.value; }
    if a.restart.Unreadable? { problems := problems + [NotRestart]; }
    if a.mode.Value? { mode := a.mode.value; }
    if a.mode.Unreadable? { problems := problems + [NotMode]; }
    if a.idleFromJob.Unreadable? { problems := problems + [NotIdle]; }
    var idleAfter, minAwake, maxSleep;
    idleAfter, problems := ReadDuration(IdleAfterKey, a.idleAfter, 14 * 24 * HOUR, false, problems);
    minAwake, problems := ReadDuration(MinAwakeKey, a.minAwake, HOUR, true, problems);
    if a.resumeFromGroup.Value? && a.consumerGroup == "" {
      problems := problems + [GroupMissing];
    }
    if a.resumeFromGroup.Unreadable? { problems := problems + [NotResumeFrom]; }
    maxSleep, problems := ReadDuration(MaxSleepKey, a.maxSleep, 6 * 24 * HOUR, true, problems);
    var sources := if a.sourcesAuto then [] else a.sources;
    if sources == [] && !a.sourcesAuto { problems := problems + [SourcesMissing]; }
    if a.bootstrapServers { problems := problems + [BootstrapReserved]; }
    p := Policy(mode, sources, idleAfter, minAwake, restart, a.consumerGroup,
                a.idleFromJob.Value?, a.resumeFromGroup.Value?, maxSleep, problems);
    managed := true;
  }
}
