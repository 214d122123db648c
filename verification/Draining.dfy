/** Which partitions a quiet job has nothing left to read from, and what a suspend then means for the
    records of the topics. Models drained of internal/controller/reconciler.go, and idle: job end to
    end. */
module Draining {
  import opened Clock
  import opened Memory
  import opened Policy
  import opened JobGate
  import opened Decider
  import opened DecisionFacts
  import KafkaLog
  import opened GapScan

  const DRAINED_CHECKS := 16

  /** A partition the broker is asked about: the job emitted from it and is short of its end. */
  predicate Short(ends: Ends, r: JobReading, topic: string, p: nat) {
    PartitionKnown(ends, r, topic, p) && 0 <= r.offsets[topic][p] && r.offsets[topic][p] + 1 < ends[topic][p]
  }

  function Question(ends: Ends, r: JobReading, topic: string, p: nat): GapKey
    requires Short(ends, r, topic, p)
  {
    GapKey((topic, p), r.offsets[topic][p] + 1, ends[topic][p])
  }

  /** The broker confirmed, at a moment, that nothing is left between the job and the end. */
  ghost predicate Confirmed(logs: History, t: nat, ends: Ends, r: JobReading, topic: string, p: nat) {
    && Short(ends, r, topic, p)
    && KafkaLog.NothingIn(logs(t, (topic, p)), r.offsets[topic][p] + 1, ends[topic][p])
  }

  ghost predicate AllConfirmed(logs: History, t: nat, ends: Ends, r: JobReading, drained: map<string, set<nat>>) {
    forall topic, p :: IsDrained(drained, topic, p) ==> Confirmed(logs, t, ends, r, topic, p)
  }

  function Noted(drained: map<string, set<nat>>, topic: string, p: nat): map<string, set<nat>> {
    drained[topic := (if topic in drained then drained[topic] else {}) + {p}]
  }

  // ---------------------------------------------------------------- which questions are asked

  /** The partitions, among the first n of a topic, that the broker is to be asked about. */
  function ShortIn(ends: Ends, r: JobReading, topic: string, n: nat): seq<GapKey> {
    if n == 0 then []
    else
      var front := ShortIn(ends, r, topic, n - 1);
      if Short(ends, r, topic, n - 1) then front + [Question(ends, r, topic, n - 1)] else front
  }

  function Partitions(ends: Ends, topic: string): nat { if topic in ends then |ends[topic]| else 0 }

  /** All of them, in the order of the sources and then of the partitions. */
  function Questions(sources: seq<string>, ends: Ends, r: JobReading): seq<GapKey> {
    if sources == [] then []
    else
      var last := sources[|sources| - 1];
      Questions(sources[..|sources| - 1], ends, r) + ShortIn(ends, r, last, Partitions(ends, last))
  }

  /** Every partition of a source that the job is short of has its question. */
  lemma {:induction false} QuestionsAreComplete(sources: seq<string>, ends: Ends, r: JobReading, topic: string, p: nat)
    requires topic in sources && Short(ends, r, topic, p)
    ensures GapKey((topic, p), r.offsets[topic][p] + 1, ends[topic][p]) in Questions(sources, ends, r)
    decreases |sources|
  {
    var last := sources[|sources| - 1];
    if topic == last { ShortInIsComplete(ends, r, topic, Partitions(ends, topic), p); }
    else { QuestionsAreComplete(sources[..|sources| - 1], ends, r, topic, p); }
  }

  lemma {:induction false} ShortInIsComplete(ends: Ends, r: JobReading, topic: string, n: nat, p: nat)
    requires p < n && Short(ends, r, topic, p)
    ensures Question(ends, r, topic, p) in ShortIn(ends, r, topic, n)
  {
    if p < n - 1 { ShortInIsComplete(ends, r, topic, n - 1, p); }
  }

  function FirstOf(questions: seq<GapKey>): seq<GapKey> {
    if |questions| <= 16 then questions else questions[..16]
  }

  /** A question put to the memo or the broker: whether the partition had a leader, the moments before
      and after, and the answer. */
  datatype Asked = Asked(key: GapKey, leader: bool, now: nat, at: nat, answer: GapScan.Answer)

  function Keys(log: seq<Asked>): (keys: seq<GapKey>)
    ensures |keys| == |log|
  {
    if log == [] then [] else Keys(log[..|log| - 1]) + [log[|log| - 1].key]
  }

  lemma {:induction false} KeysAt(log: seq<Asked>, i: nat)
    requires i < |log|
    ensures Keys(log)[i] == log[i].key
    decreases |log|
  {
    if i < |log| - 1 { KeysAt(log[..|log| - 1], i); }
  }

  /** The memo after some questions: it learns what it did not know. */
  function MemoAfter(empty: set<GapKey>, log: seq<Asked>): set<GapKey> {
    if log == [] then empty
    else
      var before, last := MemoAfter(empty, log[..|log| - 1]), log[|log| - 1];
      if last.answer == No && last.key !in before then Remembered(before, last.key) else before
  }

  /** An answer that the memo gave, or that the broker's fetches bear out. */
  ghost predicate Right(broker: Broker, logs: History, leads: (nat, Partition) -> bool, empty: set<GapKey>, a: Asked) {
    && a.now <= a.at && a.leader == leads(a.now, a.key.partition) && a.key.from < a.key.to
    && (a.key in empty ==> a.answer == No)
    && (a.key !in empty && !a.leader ==> a.answer == Unanswered)
    && (a.answer == No ==> KafkaLog.NothingIn(logs(a.at, a.key.partition), a.key.from, a.key.to))
    && (a.answer == Yes ==> SomethingIn(logs(a.at, a.key.partition), a.key.from, a.key.to))
    && (a.answer == Unanswered && a.leader ==> GaveUp(broker, a.key.partition, a.key.from, a.key.to, a.now, a.at - a.now))
  }

  /** The i-th question was put after the ones before it were answered, and is answered rightly for what
      the memo knew by then. */
  ghost predicate RightAt(broker: Broker, logs: History, leads: (nat, Partition) -> bool, empty: set<GapKey>, log: seq<Asked>,
                          start: nat, now: nat, i: nat)
    requires i < |log|
  {
    && Right(broker, logs, leads, MemoAfter(empty, log[..i]), log[i])
    && start <= log[i].now && (forall j :: 0 <= j < i ==> log[j].at <= log[i].now) && log[i].at <= now
  }

  /** Questions put one after another between two moments, each answered rightly. */
  ghost predicate AllRight(broker: Broker, logs: History, leads: (nat, Partition) -> bool, empty: set<GapKey>, log: seq<Asked>, start: nat, now: nat) {
    start <= now && forall i: nat :: i < |log| ==> RightAt(broker, logs, leads, empty, log, start, now, i)
  }

  lemma RightBefore(broker: Broker, logs: History, leads: (nat, Partition) -> bool, empty: set<GapKey>, log: seq<Asked>, a: Asked,
                    start: nat, now: nat)
    requires AllRight(broker, logs, leads, empty, log + [a], start, now)
    ensures AllRight(broker, logs, leads, empty, log, start, a.now) && Right(broker, logs, leads, MemoAfter(empty, log), a) && a.at <= now
  {
    var more := log + [a];
    assert RightAt(broker, logs, leads, empty, more, start, now, |log|) && more[|log|] == a && more[..|log|] == log;
    forall i: nat | i < |log|
      ensures RightAt(broker, logs, leads, empty, log, start, a.now, i)
    {
      assert RightAt(broker, logs, leads, empty, more, start, now, i) && more[i] == log[i] && more[..i] == log[..i];
    }
  }

  lemma RightOneMore(broker: Broker, logs: History, leads: (nat, Partition) -> bool, empty: set<GapKey>, log: seq<Asked>, a: Asked, start: nat)
    requires AllRight(broker, logs, leads, empty, log, start, a.now) && Right(broker, logs, leads, MemoAfter(empty, log), a)
    ensures AllRight(broker, logs, leads, empty, log + [a], start, a.at)
  {
    var more := log + [a];
    forall i: nat | i < |more|
      ensures RightAt(broker, logs, leads, empty, more, start, a.at, i)
    {
      if i < |log| { assert RightAt(broker, logs, leads, empty, log, start, a.now, i) && more[i] == log[i] && more[..i] == log[..i]; }
      else {
        assert more[|log|] == a && more[..|log|] == log;
        forall j | 0 <= j < |log| ensures more[j].at <= a.now { assert RightAt(broker, logs, leads, empty, log, start, a.now, j); }
      }
    }
  }

  /** A memo that was true at the start is true after the questions. */
  lemma {:induction false} MemoStaysTrue(broker: Broker, logs: History, leads: (nat, Partition) -> bool, empty: set<GapKey>, log: seq<Asked>,
                                         start: nat, now: nat)
    requires Lives(logs) && Truthful(empty, logs, start) && AllRight(broker, logs, leads, empty, log, start, now)
    ensures Truthful(MemoAfter(empty, log), logs, now)
    decreases |log|
  {
    if log == [] {
      TruthfulLater(empty, empty, logs, start, now);
    } else {
      var front, last := log[..|log| - 1], log[|log| - 1];
      assert log == front + [last];
      RightBefore(broker, logs, leads, empty, front, last, start, now);
      MemoStaysTrue(broker, logs, leads, empty, front, start, last.now);
      MemoLearns(logs, MemoAfter(empty, front), last.key, last.now, last.at, now, last.answer == No);
    }
  }

  lemma MemoLearns(logs: History, memo: set<GapKey>, key: GapKey, now: nat, at: nat, later: nat, no: bool)
    requires Lives(logs) && Truthful(memo, logs, now) && now <= at <= later
    requires no ==> KafkaLog.NothingIn(logs(at, key.partition), key.from, key.to)
    ensures Truthful(if no && key !in memo then Remembered(memo, key) else memo, logs, later)
  {
    TruthfulLater(memo, memo, logs, now, later);
    if no { NothingLasts(logs, at, later, key.partition, key.from, key.to); }
  }

  lemma KeysOneMore(log: seq<Asked>, a: Asked)
    ensures Keys(log + [a]) == Keys(log) + [a.key]
  {
    assert (log + [a])[..|log|] == log;
  }

  /** The partitions whose question was answered no. */
  function NotedIn(log: seq<Asked>): map<string, set<nat>> {
    if log == [] then map[]
    else
      var front, last := NotedIn(log[..|log| - 1]), log[|log| - 1];
      if last.answer == No then Noted(front, last.key.partition.0, last.key.partition.1) else front
  }

  /** Exactly the partitions whose question was answered no are noted. */
  ghost predicate Notes(drained: map<string, set<nat>>, log: seq<Asked>) {
    forall topic, p: nat :: IsDrained(drained, topic, p) <==> exists i :: 0 <= i < |log| && log[i].key.partition == (topic, p) && log[i].answer == No
  }

  lemma {:induction false} NotedInNotes(log: seq<Asked>)
    ensures Notes(NotedIn(log), log)
    decreases |log|
  {
    if log != [] {
      NotedInNotes(log[..|log| - 1]);
      NotedOneMore(NotedIn(log[..|log| - 1]), log[..|log| - 1], log[|log| - 1]);
      assert log == log[..|log| - 1] + [log[|log| - 1]];
    }
  }

  lemma NotedOneMore(drained: map<string, set<nat>>, log: seq<Asked>, a: Asked)
    requires Notes(drained, log)
    ensures Notes(if a.answer == No then Noted(drained, a.key.partition.0, a.key.partition.1) else drained, log + [a])
  {
    var topic, p := a.key.partition.0, a.key.partition.1;
    var drained', more := if a.answer == No then Noted(drained, topic, p) else drained, log + [a];
    forall u, q: nat
      ensures IsDrained(drained', u, q) <==> exists i :: 0 <= i < |more| && more[i].key.partition == (u, q) && more[i].answer == No
    {
      if IsDrained(drained, u, q) {
        var i :| 0 <= i < |log| && log[i].key.partition == (u, q) && log[i].answer == No;
        assert more[i] == log[i];
      }
      if i :| 0 <= i < |more| && more[i].key.partition == (u, q) && more[i].answer == No {
        if i < |log| { assert log[i] == more[i]; }
      }
      assert more[|log|] == a;
    }
  }

  /** The i-th question was answered rightly, or, after them all, the memo and the notes follow from them. */
  ghost predicate AskingAt(broker: Broker, logs: History, leads: (nat, Partition) -> bool, empty: set<GapKey>, memo: set<GapKey>,
                           drained: map<string, set<nat>>, log: seq<Asked>, start: nat, now: nat, i: nat)
    requires i <= |log|
  {
    if i < |log| then RightAt(broker, logs, leads, empty, log, start, now, i)
    else start <= now && memo == MemoAfter(empty, log) && drained == NotedIn(log)
  }

  /** What has been asked and noted so far. */
  ghost predicate Asking(broker: Broker, logs: History, leads: (nat, Partition) -> bool, empty: set<GapKey>, memo: set<GapKey>,
                         drained: map<string, set<nat>>, log: seq<Asked>, start: nat, now: nat)
  {
    forall i: nat :: i <= |log| ==> AskingAt(broker, logs, leads, empty, memo, drained, log, start, now, i)
  }

  lemma AskingMeaning(broker: Broker, logs: History, leads: (nat, Partition) -> bool, empty: set<GapKey>, memo: set<GapKey>,
                      drained: map<string, set<nat>>, log: seq<Asked>, start: nat, now: nat)
    ensures Asking(broker, logs, leads, empty, memo, drained, log, start, now)
       <==> AllRight(broker, logs, leads, empty, log, start, now) && memo == MemoAfter(empty, log) && drained == NotedIn(log)
  {
    if Asking(broker, logs, leads, empty, memo, drained, log, start, now) {
      assert AskingAt(broker, logs, leads, empty, memo, drained, log, start, now, |log|);
      forall i: nat | i < |log| ensures RightAt(broker, logs, leads, empty, log, start, now, i) {
        assert AskingAt(broker, logs, leads, empty, memo, drained, log, start, now, i);
      }
    }
  }

  lemma AskingMemoIsTrue(broker: Broker, logs: History, leads: (nat, Partition) -> bool, empty: set<GapKey>, memo: set<GapKey>,
                         drained: map<string, set<nat>>, log: seq<Asked>, start: nat, now: nat)
    requires Lives(logs) && Truthful(empty, logs, start) && Asking(broker, logs, leads, empty, memo, drained, log, start, now)
    ensures Truthful(memo, logs, now)
  {
    AskingMeaning(broker, logs, leads, empty, memo, drained, log, start, now);
    MemoStaysTrue(broker, logs, leads, empty, log, start, now);
  }

  lemma AskedOneMore(broker: Broker, logs: History, leads: (nat, Partition) -> bool, empty: set<GapKey>, memo: set<GapKey>,
                     drained: map<string, set<nat>>, log: seq<Asked>, start: nat, a: Asked)
    requires Asking(broker, logs, leads, empty, memo, drained, log, start, a.now) && Right(broker, logs, leads, memo, a)
    ensures Asking(broker, logs, leads, empty, if a.answer == No && a.key !in memo then Remembered(memo, a.key) else memo,
                   if a.answer == No then Noted(drained, a.key.partition.0, a.key.partition.1) else drained, log + [a], start, a.at)
  {
    assert (log + [a])[..|log|] == log;
    AskingMeaning(broker, logs, leads, empty, memo, drained, log, start, a.now);
    RightOneMore(broker, logs, leads, empty, log, a, start);
    AskingMeaning(broker, logs, leads, empty, MemoAfter(empty, log + [a]), NotedIn(log + [a]), log + [a], start, a.at);
  }

  /** Asks about one partition, and notes it if the answer is no. */
  method Ask(gaps: Gaps, broker: Broker, ghost logs: History, leads: (nat, Partition) -> bool, ends: Ends, r: JobReading,
             topic: string, p: nat, drained: map<string, set<nat>>, now: nat, ghost empty: set<GapKey>, ghost log: seq<Asked>, ghost start: nat)
    returns (drained': map<string, set<nat>>, at: nat, ghost a: Asked)
    requires Lives(logs) && Honest(broker, logs) && Truthful(empty, logs, start) && Short(ends, r, topic, p)
    requires Asking(broker, logs, leads, empty, gaps.empty, drained, log, start, now)
    modifies gaps
    ensures a.key == Question(ends, r, topic, p)
    ensures Asking(broker, logs, leads, empty, gaps.empty, drained', log + [a], start, at)
  {
    var answer;
    ghost var memo := gaps.empty;
    var key := Question(ends, r, topic, p);
    AskingMemoIsTrue(broker, logs, leads, empty, memo, drained, log, start, now);
    answer, at := gaps.Records(broker, logs, leads(now, (topic, p)), key, now);
    a := Asked(key, leads(now, (topic, p)), now, at, answer);
    drained' := if answer == No then Noted(drained, topic, p) else drained;
    AskedOneMore(broker, logs, leads, empty, memo, drained, log, start, a);
  }

  /** The questions asked are those before the topic and those of its first p partitions. */
  ghost predicate UpTo(before: seq<Asked>, log: seq<Asked>, ends: Ends, r: JobReading, topic: string, p: nat) {
    Keys(log) == Keys(before) + ShortIn(ends, r, topic, p)
  }

  /** Either the first p partitions have been seen to, or the limit was reached among them. */
  ghost predicate AskedSoFar(before: seq<Asked>, log: seq<Asked>, ends: Ends, r: JobReading, topic: string, p: nat, asked: nat) {
    if asked <= DRAINED_CHECKS then asked == |log| && UpTo(before, log, ends, r, topic, p)
    else Took(Keys(before) + ShortIn(ends, r, topic, Partitions(ends, topic)), Keys(log), asked)
  }

  lemma AskedNothing(log: seq<Asked>, ends: Ends, r: JobReading, topic: string)
    requires |log| <= DRAINED_CHECKS
    ensures AskedSoFar(log, log, ends, r, topic, 0, |log|)
  {
  }

  lemma AskedAll(before: seq<Asked>, log: seq<Asked>, ends: Ends, r: JobReading, topic: string, p: nat, asked: nat)
    requires AskedSoFar(before, log, ends, r, topic, p, asked) && (asked <= DRAINED_CHECKS ==> p == Partitions(ends, topic))
    ensures Took(Keys(before) + ShortIn(ends, r, topic, Partitions(ends, topic)), Keys(log), asked)
  {
  }

  lemma UpToNext(before: seq<Asked>, log: seq<Asked>, a: Asked, ends: Ends, r: JobReading, topic: string, p: nat)
    requires UpTo(before, log, ends, r, topic, p) && Short(ends, r, topic, p) && a.key == Question(ends, r, topic, p)
    ensures UpTo(before, log + [a], ends, r, topic, p + 1)
  {
    KeysOneMore(log, a);
    OneMoreShort(Keys(before), ends, r, topic, p);
  }

  /** The condition the source asks under. */
  lemma ShortMeaning(ends: Ends, r: JobReading, topic: string, p: nat)
    requires topic in ends && p < |ends[topic]|
    ensures Short(ends, r, topic, p)
       <==> topic in r.offsets && p in r.offsets[topic] && 0 <= r.offsets[topic][p] && r.offsets[topic][p] + 1 < ends[topic][p]
  {
  }

  /** Asks about one partition if the job is short of it and the limit allows. */
  method AskAt(gaps: Gaps, broker: Broker, ghost logs: History, leads: (nat, Partition) -> bool, ends: Ends, r: JobReading,
               topic: string, p: nat, drained: map<string, set<nat>>, asked: nat, now: nat, ghost empty: set<GapKey>,
               ghost before: seq<Asked>, ghost log: seq<Asked>, ghost start: nat)
    returns (drained': map<string, set<nat>>, asked': nat, at: nat, ghost log': seq<Asked>)
    requires Lives(logs) && Honest(broker, logs) && Truthful(empty, logs, start)
    requires topic in ends && p < |ends[topic]| && asked <= DRAINED_CHECKS && AskedSoFar(before, log, ends, r, topic, p, asked)
    requires Asking(broker, logs, leads, empty, gaps.empty, drained, log, start, now)
    modifies gaps
    ensures Asking(broker, logs, leads, empty, gaps.empty, drained', log', start, at)
    ensures AskedSoFar(before, log', ends, r, topic, p + 1, asked')
  {
    drained', asked', at, log' := drained, asked, now, log;
    ShortMeaning(ends, r, topic, p);
    if topic in r.offsets && p in r.offsets[topic] && 0 <= r.offsets[topic][p] && r.offsets[topic][p] + 1 < ends[topic][p] {
      asked' := asked' + 1;
      if asked' > DRAINED_CHECKS {
        CutShort(Keys(before), ends, r, topic, p, |ends[topic]|, Keys(log));
        return;
      }
      ghost var a;
      drained', at, a := Ask(gaps, broker, logs, leads, ends, r, topic, p, drained, now, empty, log, start);
      UpToNext(before, log, a, ends, r, topic, p);
      log' := log + [a];
    }
  }

  /** Asks about the partitions of one topic that the job is short of, up to the limit on questions. */
  method AskTopic(gaps: Gaps, broker: Broker, ghost logs: History, leads: (nat, Partition) -> bool, ends: Ends, r: JobReading,
                  topic: string, drained: map<string, set<nat>>, asked: nat, now: nat, ghost empty: set<GapKey>, ghost log: seq<Asked>,
                  ghost start: nat)
    returns (drained': map<string, set<nat>>, asked': nat, at: nat, ghost log': seq<Asked>)
    requires Lives(logs) && Honest(broker, logs) && Truthful(empty, logs, start) && asked == |log| <= DRAINED_CHECKS
    requires Asking(broker, logs, leads, empty, gaps.empty, drained, log, start, now)
    modifies gaps
    ensures Asking(broker, logs, leads, empty, gaps.empty, drained', log', start, at)
    ensures Took(Keys(log) + ShortIn(ends, r, topic, Partitions(ends, topic)), Keys(log'), asked')
  {
    drained', asked', at, log' := drained, asked, now, log;
    var n := if topic in ends then |ends[topic]| else 0;
    var p := 0;
    AskedNothing(log, ends, r, topic);
    while p < n && asked' <= DRAINED_CHECKS
      invariant 0 <= p <= n && Asking(broker, logs, leads, empty, gaps.empty, drained', log', start, at)
      invariant AskedSoFar(log, log', ends, r, topic, p, asked')
    {
      drained', asked', at, log' := AskAt(gaps, broker, logs, leads, ends, r, topic, p, drained', asked', at, empty, log, log', start);
      p := p + 1;
    }
    AskedAll(log, log', ends, r, topic, p, asked');
  }

  lemma OneMoreShort(front: seq<GapKey>, ends: Ends, r: JobReading, topic: string, p: nat)
    requires Short(ends, r, topic, p)
    ensures front + ShortIn(ends, r, topic, p) + [Question(ends, r, topic, p)] == front + ShortIn(ends, r, topic, p + 1)
  {
  }

  lemma OneMoreSource(sources: seq<string>, ends: Ends, r: JobReading, i: nat)
    requires i < |sources|
    ensures Questions(sources[..i + 1], ends, r)
         == Questions(sources[..i], ends, r) + ShortIn(ends, r, sources[i], Partitions(ends, sources[i]))
  {
    assert sources[..i + 1][..i] == sources[..i];
  }

  /** The questions of the first partitions come first. */
  lemma {:induction false} ShortInPrefix(ends: Ends, r: JobReading, topic: string, p: nat, n: nat)
    requires p <= n
    ensures ShortIn(ends, r, topic, p) <= ShortIn(ends, r, topic, n)
  {
    if p < n { ShortInPrefix(ends, r, topic, p, n - 1); }
  }

  /** What was asked of what was wanted, and where the count of questions then stands. */
  predicate Took(wanted: seq<GapKey>, keys: seq<GapKey>, asked: nat) {
    keys == FirstOf(wanted) && asked == if |wanted| <= DRAINED_CHECKS then |keys| else DRAINED_CHECKS + 1
  }

  /** A partition that is one too many. */
  lemma CutShort(front: seq<GapKey>, ends: Ends, r: JobReading, topic: string, p: nat, n: nat, keys: seq<GapKey>)
    requires p < n && Short(ends, r, topic, p) && keys == front + ShortIn(ends, r, topic, p) && |keys| == DRAINED_CHECKS
    ensures Took(front + ShortIn(ends, r, topic, n), keys, DRAINED_CHECKS + 1)
  {
    ShortInPrefix(ends, r, topic, p + 1, n);
    var more, all := ShortIn(ends, r, topic, p + 1), ShortIn(ends, r, topic, n);
    assert more == all[..|more|] && |front + all| > DRAINED_CHECKS;
    assert (front + all)[..DRAINED_CHECKS] == keys;
  }

  lemma TookFirst(wanted: seq<GapKey>, all: seq<GapKey>, keys: seq<GapKey>, asked: nat)
    requires wanted <= all && Took(wanted, keys, asked) && (asked <= DRAINED_CHECKS ==> wanted == all)
    ensures keys == FirstOf(all)
  {
    if asked > DRAINED_CHECKS { assert all[..DRAINED_CHECKS] == wanted[..DRAINED_CHECKS]; }
  }

  /** The partitions nothing is left in, of a job that has been quiet long enough to be asked about: the
      first questions, in order and as many as are allowed, are all asked; their answers are right; and
      exactly the partitions answered no are reported. */
  method Drained(c: Config, gaps: Gaps, broker: Broker, ghost logs: History, leads: (nat, Partition) -> bool, sources: seq<string>,
                 ends: Ends, r: JobReading, now: nat)
    returns (drained: map<string, set<nat>>, at: nat, ghost log: seq<Asked>)
    requires Lives(logs) && Honest(broker, logs) && Truthful(gaps.empty, logs, now)
    modifies gaps
    ensures Truthful(gaps.empty, logs, at) && AllConfirmed(logs, at, ends, r.(drained := drained), drained)
    ensures r.idleFor < Quiet(c) ==> drained == map[] && log == []
    ensures r.idleFor >= Quiet(c) ==> Keys(log) == FirstOf(Questions(sources, ends, r))
    ensures AllRight(broker, logs, leads, old(gaps.empty), log, now, at) && gaps.empty == MemoAfter(old(gaps.empty), log)
    ensures Notes(drained, log)
  {
    drained, at, log := map[], now, [];
    if r.idleFor < Quiet(c) { return; }
    ghost var empty := gaps.empty;
    drained, at, log := AskAll(gaps, broker, logs, leads, sources, ends, r, now);
    AskingMeaning(broker, logs, leads, empty, gaps.empty, drained, log, now, at);
    MemoStaysTrue(broker, logs, leads, empty, log, now, at);
    NotedInNotes(log);
    NotedIsConfirmed(broker, logs, leads, empty, log, now, at, sources, ends, r, drained);
  }

  /** Asks the first questions of all the sources. */
  method AskAll(gaps: Gaps, broker: Broker, ghost logs: History, leads: (nat, Partition) -> bool, sources: seq<string>,
                ends: Ends, r: JobReading, now: nat)
    returns (drained: map<string, set<nat>>, at: nat, ghost log: seq<Asked>)
    requires Lives(logs) && Honest(broker, logs) && Truthful(gaps.empty, logs, now)
    modifies gaps
    ensures Asking(broker, logs, leads, old(gaps.empty), gaps.empty, drained, log, now, at)
    ensures Keys(log) == FirstOf(Questions(sources, ends, r))
  {
    drained, at, log := map[], now, [];
    ghost var empty := gaps.empty;
    var asked: nat, i := 0, 0;
    while i < |sources| && asked <= DRAINED_CHECKS
      invariant 0 <= i <= |sources| && Asking(broker, logs, leads, empty, gaps.empty, drained, log, now, at)
      invariant Took(Questions(sources[..i], ends, r), Keys(log), asked)
    {
      OneMoreSource(sources, ends, r, i);
      drained, asked, at, log := AskTopic(gaps, broker, logs, leads, ends, r, sources[i], drained, asked, at, empty, log, now);
      i := i + 1;
    }
    TookOfAll(sources, ends, r, i, Keys(log), asked);
  }

  /** Every question is about a partition that the job is short of. */
  ghost predicate IsQuestion(ends: Ends, r: JobReading, k: GapKey) {
    Short(ends, r, k.partition.0, k.partition.1) && k == Question(ends, r, k.partition.0, k.partition.1)
  }

  lemma {:induction false} ShortInAreQuestions(ends: Ends, r: JobReading, topic: string, n: nat, k: GapKey)
    requires k in ShortIn(ends, r, topic, n)
    ensures IsQuestion(ends, r, k)
  {
    if k in ShortIn(ends, r, topic, n - 1) { ShortInAreQuestions(ends, r, topic, n - 1, k); }
  }

  lemma {:induction false} AllAreQuestions(sources: seq<string>, ends: Ends, r: JobReading, k: GapKey)
    requires k in Questions(sources, ends, r)
    ensures IsQuestion(ends, r, k)
    decreases |sources|
  {
    var last, front := sources[|sources| - 1], sources[..|sources| - 1];
    if k in Questions(front, ends, r) { AllAreQuestions(front, ends, r, k); }
    else { ShortInAreQuestions(ends, r, last, Partitions(ends, last), k); }
  }

  lemma NotedIsConfirmed(broker: Broker, logs: History, leads: (nat, Partition) -> bool, empty: set<GapKey>, log: seq<Asked>,
                         start: nat, now: nat, sources: seq<string>, ends: Ends, r: JobReading, drained: map<string, set<nat>>)
    requires Lives(logs) && AllRight(broker, logs, leads, empty, log, start, now) && Notes(drained, log)
    requires Keys(log) == FirstOf(Questions(sources, ends, r))
    ensures AllConfirmed(logs, now, ends, r, drained) && AllConfirmed(logs, now, ends, r.(drained := drained), drained)
  {
    forall topic, p: nat | IsDrained(drained, topic, p)
      ensures Confirmed(logs, now, ends, r, topic, p)
    {
      var i :| 0 <= i < |log| && log[i].key.partition == (topic, p) && log[i].answer == No;
      assert RightAt(broker, logs, leads, empty, log, start, now, i);
      var k := log[i].key;
      KeysAt(log, i);
      assert Keys(log)[i] == k && k in Questions(sources, ends, r);
      AllAreQuestions(sources, ends, r, k);
      NothingLasts(logs, log[i].at, now, k.partition, k.from, k.to);
    }
  }

  lemma {:induction false} QuestionsPrefix(sources: seq<string>, ends: Ends, r: JobReading, i: nat)
    requires i <= |sources|
    ensures Questions(sources[..i], ends, r) <= Questions(sources, ends, r)
    decreases |sources| - i
  {
    if i < |sources| {
      QuestionsPrefix(sources, ends, r, i + 1);
      assert sources[..i + 1][..i] == sources[..i];
    } else {
      assert sources[..i] == sources;
    }
  }

  lemma TookOfAll(sources: seq<string>, ends: Ends, r: JobReading, i: nat, keys: seq<GapKey>, asked: nat)
    requires i <= |sources| && Took(Questions(sources[..i], ends, r), keys, asked) && (asked <= DRAINED_CHECKS ==> i == |sources|)
    ensures keys == FirstOf(Questions(sources, ends, r))
  {
    QuestionsPrefix(sources, ends, r, i);
    assert sources[..|sources|] == sources;
    TookFirst(Questions(sources[..i], ends, r), Questions(sources, ends, r), keys, asked);
  }

  /** Where the memo already knows every question that is asked, all of them are reported. */
  lemma {:induction false} KnownIsDrained(broker: Broker, logs: History, leads: (nat, Partition) -> bool, empty: set<GapKey>, log: seq<Asked>,
                                          start: nat, now: nat)
    requires AllRight(broker, logs, leads, empty, log, start, now) && forall i :: 0 <= i < |log| ==> log[i].key in empty
    ensures MemoAfter(empty, log) == empty && forall i :: 0 <= i < |log| ==> log[i].answer == No
    decreases |log|
  {
    if log != [] {
      assert log == log[..|log| - 1] + [log[|log| - 1]];
      RightBefore(broker, logs, leads, empty, log[..|log| - 1], log[|log| - 1], start, now);
      KnownIsDrained(broker, logs, leads, empty, log[..|log| - 1], start, log[|log| - 1].now);
    }
  }

  // ---------------------------------------------------------------- idle: job end to end

  /** Nothing is delivered to a consumer, now or ever, between what the job emitted and the end. */
  ghost predicate NothingLeft(logs: History, t: nat, ends: Ends, r: JobReading, topic: string, p: nat)
    requires PartitionKnown(ends, r, topic, p)
  {
    forall t' :: t <= t' ==> forall offset :: r.offsets[topic][p] < offset < ends[topic][p] ==>
      !KafkaLog.Delivered(logs(t', (topic, p)), offset)
  }

  lemma CaughtUpMeansNothingLeft(logs: History, t: nat, ends: Ends, r: JobReading, topic: string, p: nat)
    requires Lives(logs) && AllConfirmed(logs, t, ends, r, r.drained)
    requires PartitionKnown(ends, r, topic, p) && CaughtUp(ends, r, topic, p) && r.offsets[topic][p] != INITIAL_OFFSET
    ensures NothingLeft(logs, t, ends, r, topic, p)
  {
    var from, end := r.offsets[topic][p] + 1, ends[topic][p];
    forall t', offset | t <= t' && from <= offset < end
      ensures !KafkaLog.Delivered(logs(t', (topic, p)), offset)
    {
      assert IsDrained(r.drained, topic, p);
      assert Confirmed(logs, t, ends, r, topic, p);
      NothingLasts(logs, t, t', (topic, p), from, end);
      assert ValidAt(logs, t', (topic, p));
      KafkaLog.NothingIsDelivered(logs(t', (topic, p)), from, end, offset);
    }
  }

  /** A job with idle: job is suspended only if, for every partition of every declared topic, either
      its reader never emitted and has been idle for the quiet time, or no committed record lies
      between the last emitted offset and the end offset read in this tick. */
  lemma SuspendedJobHasNothingLeft(c: Config, pol: Policy, before: State, live: Live, obs: Observation, now: Time, logs: History, t: nat)
    requires Lives(logs) && AllConfirmed(logs, t, obs.ends, obs.reading, obs.reading.drained)
    requires Decide(c, pol, before, live, obs, now).action == Suspend && pol.idleFromJob
    ensures forall topic :: topic in pol.sources ==>
      && topic in obs.ends && |obs.ends[topic]| > 0
      && forall p: nat :: p < |obs.ends[topic]| ==>
           && PartitionKnown(obs.ends, obs.reading, topic, p)
           && (if obs.reading.offsets[topic][p] == INITIAL_OFFSET then obs.reading.idleFor >= Quiet(c) > 0
               else NothingLeft(logs, t, obs.ends, obs.reading, topic, p))
  {
    SuspendMeansJobIdle(c, pol, before, live, obs, now);
    IdleExactlyWhen(pol.sources, obs.ends, obs.reading, Quiet(c));
    forall topic, p: nat | topic in pol.sources && p < |obs.ends[topic]|
      ensures PartitionKnown(obs.ends, obs.reading, topic, p)
      ensures obs.reading.offsets[topic][p] != INITIAL_OFFSET ==> NothingLeft(logs, t, obs.ends, obs.reading, topic, p)
    {
      assert TopicKnown(obs.ends, obs.reading, topic);
      assert PartitionKnown(obs.ends, obs.reading, topic, p);
      if obs.reading.offsets[topic][p] != INITIAL_OFFSET {
        CaughtUpMeansNothingLeft(logs, t, obs.ends, obs.reading, topic, p);
      }
    }
    assert forall topic :: topic in pol.sources ==> TopicKnown(obs.ends, obs.reading, topic);
  }
}
