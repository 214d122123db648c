/** A consumer group's lag against the end offsets of one tick, and what it guards: a job that keeps
    its position only in the group. Models Lag of internal/probe/kafka.go and its use by
    internal/controller/reconciler.go and internal/decide/decide.go. */
module GroupOffsets {
  import opened Clock
  import opened Memory
  import opened Policy
  import opened JobGate
  import opened Counting
  import opened Decider
  import opened DecisionFacts

  /** The group's commit for a partition: an error, or the next offset to read (negative if none). */
  datatype Commit = Faulty | At(next: int)

  type Commits = map<(string, nat), Commit>

  datatype LagResult = Measured(pending: int) | NoCommit(topic: string, partition: nat) | Unmeasured

  predicate HasCommit(commits: Commits, topic: string, p: nat) {
    (topic, p) in commits && commits[(topic, p)].At? && commits[(topic, p)].next >= 0
  }

  predicate Measurable(ends: Ends, commits: Commits, topic: string, p: nat)
    requires topic in ends && p < |ends[topic]|
  {
    ends[topic][p] >= 0 && HasCommit(commits, topic, p)
  }

  ghost predicate AllMeasurable(ends: Ends, commits: Commits) {
    forall topic, p: nat :: topic in ends && p < |ends[topic]| ==> Measurable(ends, commits, topic, p)
  }

  /** Every partition is committed up to its end. */
  ghost predicate AllConsumed(ends: Ends, commits: Commits) {
    forall topic, p: nat :: topic in ends && p < |ends[topic]| ==>
      Measurable(ends, commits, topic, p) && commits[(topic, p)].next >= ends[topic][p]
  }

  /** Records of one partition not committed as consumed. */
  function LagAt(ends: Ends, commits: Commits, topic: string, p: nat): nat
    requires topic in ends && p < |ends[topic]|
  {
    if HasCommit(commits, topic, p) then Max(0, ends[topic][p] - commits[(topic, p)].next) else 0
  }

  function TopicLag(ends: Ends, commits: Commits, topic: string, n: nat): nat
    requires topic in ends && n <= |ends[topic]|
  {
    if n == 0 then 0 else TopicLag(ends, commits, topic, n - 1) + LagAt(ends, commits, topic, n - 1)
  }

  function TotalLag(ends: Ends, commits: Commits, topics: seq<string>): nat
    requires forall t :: t in topics ==> t in ends
  {
    if topics == [] then 0
    else
      var last := topics[|topics| - 1];
      TotalLag(ends, commits, topics[..|topics| - 1]) + TopicLag(ends, commits, last, |ends[last]|)
  }

  lemma {:induction false} TopicLagBounds(ends: Ends, commits: Commits, topic: string, n: nat, p: nat)
    requires topic in ends && p < n <= |ends[topic]|
    ensures LagAt(ends, commits, topic, p) <= TopicLag(ends, commits, topic, n)
  {
    if p < n - 1 { TopicLagBounds(ends, commits, topic, n - 1, p); }
  }

  lemma {:induction false} TotalLagBounds(ends: Ends, commits: Commits, topics: seq<string>, topic: string, p: nat)
    requires (forall t :: t in topics ==> t in ends) && topic in topics && p < |ends[topic]|
    ensures LagAt(ends, commits, topic, p) <= TotalLag(ends, commits, topics)
  {
    var last, rest := topics[|topics| - 1], topics[..|topics| - 1];
    if topic == last { TopicLagBounds(ends, commits, topic, |ends[topic]|, p); }
    else { TotalLagBounds(ends, commits, rest, topic, p); }
  }

  lemma {:induction false} NoTopicLag(ends: Ends, commits: Commits, topic: string, n: nat)
    requires topic in ends && n <= |ends[topic]|
    requires forall p: nat :: p < n ==> LagAt(ends, commits, topic, p) == 0
    ensures TopicLag(ends, commits, topic, n) == 0
  {
    if n > 0 { NoTopicLag(ends, commits, topic, n - 1); }
  }

  lemma {:induction false} NoTotalLag(ends: Ends, commits: Commits, topics: seq<string>)
    requires forall t :: t in topics ==> t in ends
    requires forall t, p: nat :: t in ends && p < |ends[t]| ==> LagAt(ends, commits, t, p) == 0
    ensures TotalLag(ends, commits, topics) == 0
  {
    if topics != [] {
      NoTotalLag(ends, commits, topics[..|topics| - 1]);
      NoTopicLag(ends, commits, topics[|topics| - 1], |ends[topics[|topics| - 1]]|);
    }
  }

  /** No lag means everything is consumed, and the other way round. */
  lemma NoLagMeansConsumed(ends: Ends, commits: Commits, topics: seq<string>)
    requires AllMeasurable(ends, commits) && forall t :: t in topics <==> t in ends
    ensures TotalLag(ends, commits, topics) == 0 <==> AllConsumed(ends, commits)
  {
    if TotalLag(ends, commits, topics) == 0 {
      forall t, p: nat | t in ends && p < |ends[t]|
        ensures Measurable(ends, commits, t, p) && commits[(t, p)].next >= ends[t][p]
      {
        assert Measurable(ends, commits, t, p);
        TotalLagBounds(ends, commits, topics, t, p);
      }
    }
    if AllConsumed(ends, commits) { NoTotalLag(ends, commits, topics); }
  }

  /** A number of records: as many as there are offsets at or past the group's commit and before the end. */
  ghost predicate CountsUnconsumed(n: int, ends: Ends, commits: Commits, topics: seq<string>) {
    exists records: set<Record> ::
      |records| == n && forall x :: x in records <==> x.topic < |topics| && Unconsumed(ends, commits, topics[x.topic], x.partition, x.offset)
  }

  predicate Unconsumed(ends: Ends, commits: Commits, topic: string, p: nat, offset: int) {
    && topic in ends && p < |ends[topic]| && HasCommit(commits, topic, p)
    && commits[(topic, p)].next <= offset < ends[topic][p]
  }

  function UnconsumedRange(ends: Ends, commits: Commits, topic: string, p: nat): (range: Range)
    requires topic in ends && p < |ends[topic]|
    ensures forall offset :: range.from <= offset < range.to <==> Unconsumed(ends, commits, topic, p, offset)
  {
    if HasCommit(commits, topic, p) then Range(commits[(topic, p)].next, ends[topic][p]) else Range(0, 0)
  }

  lemma {:induction false} TopicRanges(ends: Ends, commits: Commits, topic: string, n: nat) returns (ranges: seq<Range>)
    requires topic in ends && n <= |ends[topic]|
    ensures |ranges| == n && Sum(ranges) == TopicLag(ends, commits, topic, n)
    ensures forall p: nat, offset :: InRange(ranges, p, offset) <==> p < n && Unconsumed(ends, commits, topic, p, offset)
  {
    if n == 0 {
      ranges := [];
    } else {
      var front := TopicRanges(ends, commits, topic, n - 1);
      ranges := front + [UnconsumedRange(ends, commits, topic, n - 1)];
      assert ranges[..n - 1] == front;
    }
  }

  lemma {:induction false} AllRanges(ends: Ends, commits: Commits, topics: seq<string>) returns (all: seq<seq<Range>>)
    requires forall t :: t in topics ==> t in ends
    ensures |all| == |topics| && Total(all) == TotalLag(ends, commits, topics)
    ensures forall x :: InRanges(all, x) <==> x.topic < |topics| && Unconsumed(ends, commits, topics[x.topic], x.partition, x.offset)
    decreases |topics|
  {
    if topics == [] {
      all := [];
    } else {
      var n := |topics| - 1;
      var front := AllRanges(ends, commits, topics[..n]);
      var last := TopicRanges(ends, commits, topics[n], |ends[topics[n]]|);
      all := front + [last];
      assert all[..n] == front;
      forall x: Record ensures InRanges(all, x) <==> x.topic < |topics| && Unconsumed(ends, commits, topics[x.topic], x.partition, x.offset) {
        if x.topic < n { assert InRanges(all, x) <==> InRanges(front, x); }
      }
    }
  }

  /** The lag is the number of unconsumed offsets. */
  lemma LagCountsUnconsumed(ends: Ends, commits: Commits, topics: seq<string>)
    requires forall t :: t in topics ==> t in ends
    ensures CountsUnconsumed(TotalLag(ends, commits, topics), ends, commits, topics)
  {
    var all := AllRanges(ends, commits, topics);
    var records := CountAll(all);
  }

  // ---------------------------------------------------------------- measuring

  /** The first partition of a topic that cannot be measured. */
  ghost predicate FirstFault(ends: Ends, commits: Commits, topic: string, p: nat) {
    && topic in ends && p < |ends[topic]| && !Measurable(ends, commits, topic, p)
    && forall q: nat :: q < p ==> Measurable(ends, commits, topic, q)
  }

  /** What is said of it: only a partition with an end, and without an error, lacks a commit. */
  ghost predicate Explains(ends: Ends, commits: Commits, topic: string, p: nat, result: LagResult)
    requires topic in ends && p < |ends[topic]|
  {
    if ends[topic][p] < 0 || ((topic, p) in commits && commits[(topic, p)].Faulty?) then result == Unmeasured
    else result == NoCommit(topic, p)
  }

  ghost predicate FaultOf(ends: Ends, commits: Commits, topic: string, result: LagResult) {
    exists p: nat :: FirstFault(ends, commits, topic, p) && Explains(ends, commits, topic, p, result)
  }

  /** A result other than a number is about the first partition, in order, that cannot be measured. */
  ghost predicate Explained(ends: Ends, commits: Commits, topics: seq<string>, result: LagResult) {
    result.Measured? || exists i: nat, p: nat ::
      && i < |topics| && FirstFault(ends, commits, topics[i], p) && Explains(ends, commits, topics[i], p, result)
      && forall j :: 0 <= j < i ==> AllOfTopicMeasurable(ends, commits, topics[j])
  }

  ghost predicate AllOfTopicMeasurable(ends: Ends, commits: Commits, topic: string) {
    topic in ends && forall p: nat :: p < |ends[topic]| ==> Measurable(ends, commits, topic, p)
  }

  method LagOfTopic(ends: Ends, commits: Commits, topic: string) returns (result: LagResult)
    requires topic in ends
    ensures !result.Measured? ==> FaultOf(ends, commits, topic, result)
    ensures result.Measured? <==> forall p: nat :: p < |ends[topic]| ==> Measurable(ends, commits, topic, p)
    ensures result.Measured? ==> result.pending == TopicLag(ends, commits, topic, |ends[topic]|)
    ensures result.Measured? ==> CountsUnconsumed(result.pending, ends, commits, [topic])
  {
    var pending, p := 0, 0;
    while p < |ends[topic]|
      invariant 0 <= p <= |ends[topic]| && pending == TopicLag(ends, commits, topic, p)
      invariant forall q: nat :: q < p ==> Measurable(ends, commits, topic, q)
    {
      var end := ends[topic][p];
      var ok := (topic, p) in commits;
      if end < 0 || (ok && commits[(topic, p)].Faulty?) {
        assert FirstFault(ends, commits, topic, p);
        return Unmeasured;
      }
      if !ok || commits[(topic, p)].next < 0 {
        assert FirstFault(ends, commits, topic, p);
        return NoCommit(topic, p);
      }
      var d := end - commits[(topic, p)].next;
      if d > 0 { pending := pending + d; }
      p := p + 1;
    }
    LagCountsUnconsumed(ends, commits, [topic]);
    assert [topic][..0] == [] && TotalLag(ends, commits, [topic]) == TopicLag(ends, commits, topic, |ends[topic]|);
    result := Measured(pending);
  }

  /** The lag of a group, over the topics in some order. It is a number exactly when every partition
      has an end offset and a commit, and then it is their exact sum; zero means all is consumed. */
  method Lag(ends: Ends, topics: seq<string>, answered: bool, commits: Commits) returns (result: LagResult)
    requires (forall t :: t in topics <==> t in ends) && forall i, j :: 0 <= i < j < |topics| ==> topics[i] != topics[j]
    ensures result.Measured? <==> answered && ends != map[] && AllMeasurable(ends, commits)
    ensures result.Measured? ==> CountsUnconsumed(result.pending, ends, commits, topics)
    ensures result.Measured? ==> (result.pending == 0 <==> AllConsumed(ends, commits))
    ensures answered && ends != map[] ==> Explained(ends, commits, topics, result)
    ensures result.NoCommit? ==> answered
    ensures LagOk(ends, commits, result)
  {
    if !answered { return Unmeasured; }
    if topics == [] {
      assert forall t :: t !in ends;
      return Unmeasured;
    }
    assert topics[0] in ends;
    var pending, i := 0, 0;
    while i < |topics|
      invariant 0 <= i <= |topics|
      invariant pending == TotalLag(ends, commits, topics[..i])
      invariant forall j :: 0 <= j < i ==> AllOfTopicMeasurable(ends, commits, topics[j])
    {
      var r := LagOfTopic(ends, commits, topics[i]);
      if !r.Measured? {
        FaultExplains(ends, commits, topics, i, r);
        return r;
      }
      assert topics[..i + 1][..i] == topics[..i];
      pending := pending + r.pending;
      i := i + 1;
    }
    assert topics[..|topics|] == topics;
    LagIsMeasured(ends, commits, topics);
    result := Measured(pending);
  }

  lemma FaultExplains(ends: Ends, commits: Commits, topics: seq<string>, i: nat, r: LagResult)
    requires i < |topics| && topics[i] in ends && !r.Measured? && forall j :: 0 <= j < i ==> AllOfTopicMeasurable(ends, commits, topics[j])
    requires FaultOf(ends, commits, topics[i], r)
    ensures Explained(ends, commits, topics, r) && !AllMeasurable(ends, commits)
  {
  }

  lemma LagIsMeasured(ends: Ends, commits: Commits, topics: seq<string>)
    requires forall t :: t in topics <==> t in ends
    requires forall j :: 0 <= j < |topics| ==> AllOfTopicMeasurable(ends, commits, topics[j])
    ensures var n := TotalLag(ends, commits, topics);
      && AllMeasurable(ends, commits) && CountsUnconsumed(n, ends, commits, topics) && LagOk(ends, commits, Measured(n))
  {
    AllTopicsMeasured(ends, commits, topics);
    NoLagMeansConsumed(ends, commits, topics);
    LagCountsUnconsumed(ends, commits, topics);
  }

  lemma AllTopicsMeasured(ends: Ends, commits: Commits, topics: seq<string>)
    requires forall t :: t in topics <==> t in ends
    requires forall j :: 0 <= j < |topics| ==> AllOfTopicMeasurable(ends, commits, topics[j])
    ensures AllMeasurable(ends, commits)
  {
    forall t, p: nat | t in ends && p < |ends[t]| ensures Measurable(ends, commits, t, p) {
      var j :| 0 <= j < |topics| && topics[j] == t;
      assert AllOfTopicMeasurable(ends, commits, topics[j]);
    }
  }

  // ---------------------------------------------------------------- what it guards

  /** The lag fields of an observation: measured only for a policy with a group, against end offsets
      that were read. */
  function WithLag(p: Policy, obs: Observation, result: LagResult): Observation {
    if p.consumerGroup == "" || !obs.known then obs.(pending := 0, lagKnown := false, uncommitted := false)
    else obs.(pending := if result.Measured? then result.pending else 0,
              lagKnown := result.Measured?, uncommitted := result.NoCommit?)
  }

  /** The lag is known exactly when there is a group, the end offsets were read and every partition could
      be measured; and a missing commit, rather than a broker that could not be asked, is told apart. */
  lemma LagIsObserved(p: Policy, obs: Observation, result: LagResult)
    ensures var o := WithLag(p, obs, result);
      && (o.lagKnown <==> p.consumerGroup != "" && obs.known && result.Measured?)
      && (o.lagKnown ==> o.pending == result.pending)
      && (o.uncommitted <==> p.consumerGroup != "" && obs.known && result.NoCommit?)
      && o.snapshot == obs.snapshot && o.known == obs.known && o.ends == obs.ends && o.unlearned == obs.unlearned
      && o.reading == obs.reading && o.readingKnown == obs.readingKnown && o.readingNote == obs.readingNote && o.why == obs.why
  {
  }

  /** What the lag probe answers, as Lag guarantees it. */
  ghost predicate LagOk(ends: Ends, commits: Commits, result: LagResult) {
    && (result.Measured? ==> AllMeasurable(ends, commits) && result.pending >= 0)
    && (result.Measured? ==> (result.pending == 0 <==> AllConsumed(ends, commits)))
  }

  /** A job that resumes from its group is woken, by input or after its longest sleep, only while
      every partition of this tick has a committed offset, and never to relearn its sources. */
  lemma GroupJobResumesWithItsOffsets(c: Config, p: Policy, before: State, live: Live, obs: Observation, now: Time,
                                      commits: Commits, result: LagResult)
    requires Sound(p) && p.problems == [] && p.mode == Auto && live.ResumesFromGroup(p)
    requires LagOk(obs.ends, commits, result)
    requires Decide(c, p, before, live, WithLag(p, obs, result), now).action == Resume
    ensures AllMeasurable(obs.ends, commits) && obs.known && !obs.unlearned
    ensures Decide(c, p, before, live, WithLag(p, obs, result), now).next.reason in {InputObserved, WokenAfter(p.maxSleep)}
  {
    var o := WithLag(p, obs, result);
    var prev := AfterSpecEdit(before, live, now);
    ActiveOrUnrecoverableNeverResumes(c, p, prev, live, o, now);
  }

  lemma ActiveOrUnrecoverableNeverResumes(c: Config, p: Policy, prev: State, live: Live, obs: Observation, now: Time)
    requires p.minAwake >= 0
    ensures prev.phase == Active ==> WhileActive(c, p, prev, live, obs, now).action != Resume
    ensures WhileUnrecoverable(prev, obs, now).action != Resume
  {
    if prev.phase == Active { ActiveKeepsPhase(c, p, prev, live, obs, now); }
  }

  /** A job with a group, stateless or not, is put to sleep only when every partition of this tick is
      committed up to its end offset. */
  lemma GroupJobSleepsWhenConsumed(c: Config, p: Policy, before: State, live: Live, obs: Observation, now: Time,
                                   commits: Commits, result: LagResult)
    requires Sound(p) && p.problems == [] && (p.consumerGroup != "" || live.ResumesFromGroup(p))
    requires LagOk(obs.ends, commits, result)
    requires Decide(c, p, before, live, WithLag(p, obs, result), now).action == Suspend
    ensures AllConsumed(obs.ends, commits)
  {
    SuspendHasEvidence(c, p, before, live, WithLag(p, obs, result), now);
  }
}
