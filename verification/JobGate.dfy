/** Whether the running job itself has anything against sleeping. Models internal/decide/jobgate.go. */
module JobGate {
  import opened Clock
  import opened Memory
  import opened Counting

  type Ends = map<string, seq<int>>

  /** offsets: topic -> partition -> last emitted offset, INITIAL_OFFSET before the first record.
      drained: the partitions the broker confirmed hold nothing more for a consumer. */
  datatype JobReading = JobReading(
    offsets: map<string, map<nat, int>>,
    idleFor: Duration,
    drained: map<string, set<nat>>)

  const INITIAL_OFFSET := -1

  datatype Gate = JobUnknown | JobBusy | JobIdle

  datatype Answer = Answer(gate: Gate, note: GateNote)

  function Max(a: int, b: int): int { if a >= b then a else b }

  predicate IsDrained(drained: map<string, set<nat>>, topic: string, p: nat) {
    topic in drained && p in drained[topic]
  }

  /** Records the reader still has to emit from one partition. */
  function PendingAt(r: JobReading, topic: string, p: nat, end: int): int
    requires topic in r.offsets && p in r.offsets[topic]
  {
    var emitted := r.offsets[topic][p];
    if emitted == INITIAL_OFFSET && r.idleFor == 0 then end
    else if emitted == INITIAL_OFFSET then 0
    else if IsDrained(r.drained, topic, p) then 0
    else Max(0, end - (emitted + 1))
  }

  predicate PartitionKnown(ends: Ends, r: JobReading, topic: string, p: nat) {
    && topic in ends && p < |ends[topic]| && ends[topic][p] >= 0
    && topic in r.offsets && p in r.offsets[topic]
  }

  predicate TopicKnown(ends: Ends, r: JobReading, topic: string) {
    && topic in ends && |ends[topic]| > 0 && topic in r.offsets
    && forall p: nat :: p < |ends[topic]| ==> PartitionKnown(ends, r, topic, p)
  }

  predicate AllKnown(sources: seq<string>, ends: Ends, r: JobReading) {
    forall t :: t in sources ==> TopicKnown(ends, r, t)
  }

  /** Pending records of the first n partitions of a topic. */
  function TopicPending(ends: Ends, r: JobReading, topic: string, n: nat): int
    requires TopicKnown(ends, r, topic) && n <= |ends[topic]|
  {
    if n == 0 then 0
    else
      assert PartitionKnown(ends, r, topic, n - 1);
      TopicPending(ends, r, topic, n - 1) + PendingAt(r, topic, n - 1, ends[topic][n - 1])
  }

  /** Pending records of the first n sources. */
  function TotalPending(sources: seq<string>, ends: Ends, r: JobReading, n: nat): int
    requires n <= |sources| && AllKnown(sources[..n], ends, r)
  {
    if n == 0 then 0
    else
      assert sources[n - 1] in sources[..n];
      assert forall t :: t in sources[..n - 1] ==> t in sources[..n];
      TotalPending(sources, ends, r, n - 1) + TopicPending(ends, r, sources[n - 1], |ends[sources[n - 1]]|)
  }

  /** What the first partition without an answer is, looking at one topic from partition p on. */
  function UnknownPartition(ends: Ends, r: JobReading, topic: string, p: nat): Option<GateNote>
    requires topic in ends && topic in r.offsets && p <= |ends[topic]|
    decreases |ends[topic]| - p
  {
    if p == |ends[topic]| then None
    else if ends[topic][p] < 0 then Some(NoEndFor(topic, p))
    else if p !in r.offsets[topic] then Some(NoOffsetFor(topic, p))
    else UnknownPartition(ends, r, topic, p + 1)
  }

  function UnknownTopic(ends: Ends, r: JobReading, topic: string): Option<GateNote> {
    if topic !in ends || |ends[topic]| == 0 || topic !in r.offsets
    then Some(NoOffsetsFor(topic))
    else UnknownPartition(ends, r, topic, 0)
  }

  /** The first missing answer among the sources, in the order they are declared. */
  function FirstUnknown(sources: seq<string>, ends: Ends, r: JobReading): Option<GateNote> {
    if sources == [] then None
    else match UnknownTopic(ends, r, sources[0])
      case Some(note) => Some(note)
      case None => FirstUnknown(sources[1..], ends, r)
  }

  lemma {:induction false} UnknownPartitionMeaning(ends: Ends, r: JobReading, topic: string, p: nat)
    requires topic in ends && topic in r.offsets && p <= |ends[topic]|
    ensures UnknownPartition(ends, r, topic, p) == None
       <==> forall q: nat :: p <= q < |ends[topic]| ==> PartitionKnown(ends, r, topic, q)
    decreases |ends[topic]| - p
  {
    if p < |ends[topic]| {
      UnknownPartitionMeaning(ends, r, topic, p + 1);
      if UnknownPartition(ends, r, topic, p) != None {
        if PartitionKnown(ends, r, topic, p) {
          assert UnknownPartition(ends, r, topic, p + 1) != None;
        }
      }
    }
  }

  lemma UnknownTopicMeaning(ends: Ends, r: JobReading, topic: string)
    ensures UnknownTopic(ends, r, topic) == None <==> TopicKnown(ends, r, topic)
  {
    if topic in ends && topic in r.offsets {
      UnknownPartitionMeaning(ends, r, topic, 0);
    }
  }

  lemma {:induction false} FirstUnknownMeaning(sources: seq<string>, ends: Ends, r: JobReading)
    ensures FirstUnknown(sources, ends, r) == None <==> AllKnown(sources, ends, r)
  {
    if sources != [] {
      UnknownTopicMeaning(ends, r, sources[0]);
      FirstUnknownMeaning(sources[1..], ends, r);
      assert forall t :: t in sources <==> t == sources[0] || t in sources[1..];
    }
  }

  function Answered(sources: seq<string>, ends: Ends, r: JobReading, quiet: Duration): Answer {
    match FirstUnknown(sources, ends, r)
    case Some(note) => Answer(JobUnknown, note)
    case None =>
      FirstUnknownMeaning(sources, ends, r);
      assert sources[..|sources|] == sources;
      var pending := TotalPending(sources, ends, r, |sources|);
      if pending > 0 then Answer(JobBusy, StillPending(pending))
      else if r.idleFor < quiet then Answer(JobBusy, EmittedWithin(r.idleFor))
      else Answer(JobIdle, NoNote)
  }

  /** A partition that has nothing left for the job: it is past the end, the rest of it is drained,
      or its reader never emitted and reports idle (or never had anything to emit). */
  predicate CaughtUp(ends: Ends, r: JobReading, topic: string, p: nat)
    requires PartitionKnown(ends, r, topic, p)
  {
    var emitted, end := r.offsets[topic][p], ends[topic][p];
    if emitted == INITIAL_OFFSET then r.idleFor != 0 || end == 0
    else IsDrained(r.drained, topic, p) || end <= emitted + 1
  }

  predicate AllCaughtUp(sources: seq<string>, ends: Ends, r: JobReading)
    requires AllKnown(sources, ends, r)
  {
    forall t, p: nat :: t in sources && p < |ends[t]| && PartitionKnown(ends, r, t, p) ==> CaughtUp(ends, r, t, p)
  }

  lemma {:induction false} TopicPendingMeaning(ends: Ends, r: JobReading, topic: string, n: nat)
    requires TopicKnown(ends, r, topic) && n <= |ends[topic]|
    ensures TopicPending(ends, r, topic, n) >= 0
    ensures TopicPending(ends, r, topic, n) == 0
       <==> forall p: nat :: p < n && PartitionKnown(ends, r, topic, p) ==> CaughtUp(ends, r, topic, p)
  {
    if n > 0 {
      TopicPendingMeaning(ends, r, topic, n - 1);
      assert PartitionKnown(ends, r, topic, n - 1);
    }
  }

  lemma {:induction false} TotalPendingMeaning(sources: seq<string>, ends: Ends, r: JobReading, n: nat)
    requires n <= |sources| && AllKnown(sources[..n], ends, r)
    ensures TotalPending(sources, ends, r, n) >= 0
    ensures TotalPending(sources, ends, r, n) == 0 <==> AllCaughtUp(sources[..n], ends, r)
  {
    if n > 0 {
      var t := sources[n - 1];
      assert sources[..n] == sources[..n - 1] + [t];
      assert forall u :: u in sources[..n] <==> u in sources[..n - 1] || u == t;
      assert t in sources[..n] && TopicKnown(ends, r, t);
      TotalPendingMeaning(sources, ends, r, n - 1);
      TopicPendingMeaning(ends, r, t, |ends[t]|);
    }
  }

  /** The gate says idle exactly when every declared partition is known, every one is caught up,
      and no record was emitted for the quiet time. */
  lemma IdleExactlyWhen(sources: seq<string>, ends: Ends, r: JobReading, quiet: Duration)
    ensures Answered(sources, ends, r, quiet).gate == JobIdle
       <==> AllKnown(sources, ends, r) && AllCaughtUp(sources, ends, r) && quiet <= r.idleFor
    ensures Answered(sources, ends, r, quiet).gate == JobUnknown <==> !AllKnown(sources, ends, r)
  {
    FirstUnknownMeaning(sources, ends, r);
    assert sources[..|sources|] == sources;
    if AllKnown(sources, ends, r) {
      TotalPendingMeaning(sources, ends, r, |sources|);
    }
  }

  // ---------------------------------------------------------------- what an answer tells

  /** An offset the reader still has to emit: past the last it emitted and before the end, unless it
      never emitted and is idle, or the broker confirmed that the rest is drained. */
  predicate Unread(ends: Ends, r: JobReading, topic: string, p: nat, offset: int) {
    && PartitionKnown(ends, r, topic, p)
    && r.offsets[topic][p] < offset < ends[topic][p]
    && (if r.offsets[topic][p] == INITIAL_OFFSET then r.idleFor == 0 else !IsDrained(r.drained, topic, p))
  }

  /** A number of records: as many as there are unread offsets in the declared topics. */
  ghost predicate CountsUnread(n: int, sources: seq<string>, ends: Ends, r: JobReading) {
    exists records: set<Record> ::
      |records| == n && forall x :: x in records <==> x.topic < |sources| && Unread(ends, r, sources[x.topic], x.partition, x.offset)
  }

  function UnreadRange(ends: Ends, r: JobReading, topic: string, p: nat): (range: Range)
    requires PartitionKnown(ends, r, topic, p)
    ensures forall offset :: range.from <= offset < range.to <==> Unread(ends, r, topic, p, offset)
  {
    var emitted := r.offsets[topic][p];
    if (if emitted == INITIAL_OFFSET then r.idleFor == 0 else !IsDrained(r.drained, topic, p))
    then Range(emitted + 1, ends[topic][p]) else Range(0, 0)
  }

  lemma {:induction false} TopicRanges(ends: Ends, r: JobReading, topic: string, n: nat) returns (ranges: seq<Range>)
    requires TopicKnown(ends, r, topic) && n <= |ends[topic]|
    ensures |ranges| == n && Sum(ranges) == TopicPending(ends, r, topic, n)
    ensures forall p: nat, offset :: InRange(ranges, p, offset) <==> p < n && Unread(ends, r, topic, p, offset)
  {
    if n == 0 {
      ranges := [];
    } else {
      var front := TopicRanges(ends, r, topic, n - 1);
      assert PartitionKnown(ends, r, topic, n - 1);
      ranges := front + [UnreadRange(ends, r, topic, n - 1)];
      assert ranges[..n - 1] == front;
    }
  }

  lemma {:induction false} AllRanges(sources: seq<string>, ends: Ends, r: JobReading, n: nat) returns (topics: seq<seq<Range>>)
    requires n <= |sources| && AllKnown(sources[..n], ends, r)
    ensures |topics| == n && Total(topics) == TotalPending(sources, ends, r, n)
    ensures forall x :: InRanges(topics, x) <==> x.topic < n && Unread(ends, r, sources[x.topic], x.partition, x.offset)
  {
    if n == 0 {
      topics := [];
    } else {
      var t := sources[n - 1];
      assert t in sources[..n];
      assert forall u :: u in sources[..n - 1] ==> u in sources[..n];
      var front := AllRanges(sources, ends, r, n - 1);
      var last := TopicRanges(ends, r, t, |ends[t]|);
      topics := front + [last];
      assert topics[..n - 1] == front;
      forall x: Record ensures InRanges(topics, x) <==> x.topic < n && Unread(ends, r, sources[x.topic], x.partition, x.offset) {
        if x.topic < n - 1 { assert InRanges(topics, x) <==> InRanges(front, x); }
      }
    }
  }

  /** The pending count is the number of unread offsets. */
  lemma PendingCountsUnread(sources: seq<string>, ends: Ends, r: JobReading)
    requires AllKnown(sources, ends, r)
    ensures sources[..|sources|] == sources && CountsUnread(TotalPending(sources, ends, r, |sources|), sources, ends, r)
  {
    assert sources[..|sources|] == sources;
    var topics := AllRanges(sources, ends, r, |sources|);
    var records := CountAll(topics);
  }

  lemma TopicCountsUnread(ends: Ends, r: JobReading, topic: string)
    requires TopicKnown(ends, r, topic)
    ensures CountsUnread(TopicPending(ends, r, topic, |ends[topic]|), [topic], ends, r)
  {
    var ranges := TopicRanges(ends, r, topic, |ends[topic]|);
    var records := CountAll([ranges]);
    assert [ranges][..0] == [];
    assert Total([ranges]) == Sum(ranges);
  }

  /** The topics before the i-th are all known. */
  ghost predicate KnownBefore(sources: seq<string>, ends: Ends, r: JobReading, i: nat) {
    i < |sources| && forall j :: 0 <= j < i ==> TopicKnown(ends, r, sources[j])
  }

  /** The partitions before p are all known, and p lies in a topic both sides have. */
  ghost predicate KnownUpTo(ends: Ends, r: JobReading, topic: string, p: nat) {
    && topic in ends && topic in r.offsets && p < |ends[topic]|
    && forall q: nat :: q < p ==> PartitionKnown(ends, r, topic, q)
  }

  /** What each note says. */
  ghost predicate Tells(sources: seq<string>, ends: Ends, r: JobReading, quiet: Duration, answer: Answer) {
    match answer.note
    case NoOffsetsFor(topic) =>
      && answer.gate == JobUnknown && (topic in ends && topic in r.offsets ==> ends[topic] == [])
      && exists i: nat :: KnownBefore(sources, ends, r, i) && sources[i] == topic
    case NoEndFor(topic, p) =>
      && answer.gate == JobUnknown && KnownUpTo(ends, r, topic, p) && ends[topic][p] < 0
      && exists i: nat :: KnownBefore(sources, ends, r, i) && sources[i] == topic
    case NoOffsetFor(topic, p) =>
      && answer.gate == JobUnknown && KnownUpTo(ends, r, topic, p) && ends[topic][p] >= 0 && p !in r.offsets[topic]
      && exists i: nat :: KnownBefore(sources, ends, r, i) && sources[i] == topic
    case StillPending(n) => answer.gate == JobBusy && AllKnown(sources, ends, r) && n > 0 && CountsUnread(n, sources, ends, r)
    case EmittedWithin(idle) =>
      && answer.gate == JobBusy && AllKnown(sources, ends, r) && AllCaughtUp(sources, ends, r) && idle == r.idleFor < quiet
    case NoNote => answer.gate == JobIdle
    case Reported(_) => false
  }

  lemma {:induction false} UnknownPartitionTells(ends: Ends, r: JobReading, topic: string, p: nat)
    requires topic in ends && topic in r.offsets && p <= |ends[topic]|
    requires forall q: nat :: q < p ==> PartitionKnown(ends, r, topic, q)
    ensures match UnknownPartition(ends, r, topic, p)
      case None => true
      case Some(NoEndFor(t, q)) => t == topic && KnownUpTo(ends, r, topic, q) && ends[topic][q] < 0
      case Some(NoOffsetFor(t, q)) => t == topic && KnownUpTo(ends, r, topic, q) && ends[topic][q] >= 0 && q !in r.offsets[topic]
      case Some(_) => false
    decreases |ends[topic]| - p
  {
    if p < |ends[topic]| && ends[topic][p] >= 0 && p in r.offsets[topic] {
      assert PartitionKnown(ends, r, topic, p);
      UnknownPartitionTells(ends, r, topic, p + 1);
    }
  }

  lemma {:induction false} FirstUnknownIs(sources: seq<string>, ends: Ends, r: JobReading, n: nat) returns (i: nat)
    requires n <= |sources| && FirstUnknown(sources[n..], ends, r).Some?
    requires forall j :: 0 <= j < n ==> TopicKnown(ends, r, sources[j])
    ensures KnownBefore(sources, ends, r, i) && UnknownTopic(ends, r, sources[i]) == FirstUnknown(sources[n..], ends, r)
    decreases |sources| - n
  {
    UnknownTopicMeaning(ends, r, sources[n]);
    i := n;
    if UnknownTopic(ends, r, sources[n]) == None {
      assert sources[n..][1..] == sources[n + 1..];
      i := FirstUnknownIs(sources, ends, r, n + 1);
    }
  }

  lemma AnswerTells(sources: seq<string>, ends: Ends, r: JobReading, quiet: Duration)
    ensures Tells(sources, ends, r, quiet, Answered(sources, ends, r, quiet))
  {
    IdleExactlyWhen(sources, ends, r, quiet);
    if AllKnown(sources, ends, r) {
      PendingCountsUnread(sources, ends, r);
      TotalPendingMeaning(sources, ends, r, |sources|);
    } else {
      FirstUnknownMeaning(sources, ends, r);
      assert sources[0..] == sources;
      var i := FirstUnknownIs(sources, ends, r, 0);
      var topic := sources[i];
      if topic in ends && topic in r.offsets && ends[topic] != [] { UnknownPartitionTells(ends, r, topic, 0); }
    }
  }

  lemma FirstUnknownAfter(sources: seq<string>, ends: Ends, r: JobReading, i: nat)
    requires i <= |sources| && AllKnown(sources[..i], ends, r)
    ensures FirstUnknown(sources, ends, r) == FirstUnknown(sources[i..], ends, r)
    decreases i
  {
    if i == 0 {
      assert sources[0..] == sources;
    } else {
      assert sources[0] in sources[..i];
      UnknownTopicMeaning(ends, r, sources[0]);
      assert sources[1..][..i - 1] == sources[..i][1..];
      assert forall t :: t in sources[..i][1..] ==> t in sources[..i];
      FirstUnknownAfter(sources[1..], ends, r, i - 1);
      assert sources[1..][i - 1..] == sources[i..];
    }
  }

  lemma {:induction false} UnknownPartitionAfter(ends: Ends, r: JobReading, topic: string, p: nat)
    requires topic in ends && topic in r.offsets && p <= |ends[topic]|
    requires forall q: nat :: q < p ==> PartitionKnown(ends, r, topic, q)
    ensures UnknownPartition(ends, r, topic, 0) == UnknownPartition(ends, r, topic, p)
  {
    if p > 0 {
      UnknownPartitionAfter(ends, r, topic, p - 1);
      assert PartitionKnown(ends, r, topic, p - 1);
    }
  }

  /** The loop over one topic: either the note of its first unanswered partition, or what the
      topic still has pending. */
  method CountTopic(ends: Ends, r: JobReading, topic: string) returns (missing: Option<GateNote>, pending: int)
    ensures missing == UnknownTopic(ends, r, topic)
    ensures missing == None ==> TopicKnown(ends, r, topic) && pending == TopicPending(ends, r, topic, |ends[topic]|)
    ensures missing == None ==> CountsUnread(pending, [topic], ends, r)
  {
    pending := 0;
    if topic !in ends || |ends[topic]| == 0 || topic !in r.offsets {
      return Some(NoOffsetsFor(topic)), 0;
    }
    UnknownTopicMeaning(ends, r, topic);
    var p := 0;
    while p < |ends[topic]|
      invariant 0 <= p <= |ends[topic]|
      invariant forall q: nat :: q < p ==> PartitionKnown(ends, r, topic, q)
      invariant TopicKnown(ends, r, topic) ==> pending == TopicPending(ends, r, topic, p)
    {
      UnknownPartitionAfter(ends, r, topic, p);
      var end := ends[topic][p];
      if end < 0 { return Some(NoEndFor(topic, p)), 0; }
      if p !in r.offsets[topic] { return Some(NoOffsetFor(topic, p)), 0; }
      var emitted := r.offsets[topic][p];
      if emitted == INITIAL_OFFSET && r.idleFor == 0 {
        pending := pending + end;
      } else if emitted == INITIAL_OFFSET || IsDrained(r.drained, topic, p) {
        // an idle reader that never emitted, or a rest without records
      } else {
        pending := pending + Max(0, end - (emitted + 1));
      }
      p := p + 1;
    }
    UnknownPartitionAfter(ends, r, topic, p);
    TopicCountsUnread(ends, r, topic);
    return None, pending;
  }

  method JobGate(sources: seq<string>, ends: Ends, r: JobReading, quiet: Duration) returns (answer: Answer)
    ensures answer == Answered(sources, ends, r, quiet)
    ensures answer.gate == JobIdle
       <==> AllKnown(sources, ends, r) && AllCaughtUp(sources, ends, r) && quiet <= r.idleFor
    ensures Tells(sources, ends, r, quiet, answer)
  {
    IdleExactlyWhen(sources, ends, r, quiet);
    AnswerTells(sources, ends, r, quiet);
    var pending, i := 0, 0;
    while i < |sources|
      invariant 0 <= i <= |sources|
      invariant AllKnown(sources[..i], ends, r)
      invariant pending == TotalPending(sources, ends, r, i)
    {
      FirstUnknownAfter(sources, ends, r, i);
      var missing, more := CountTopic(ends, r, sources[i]);
      if missing.Some? { return Answer(JobUnknown, missing.value); }
      UnknownTopicMeaning(ends, r, sources[i]);
      assert sources[..i + 1] == sources[..i] + [sources[i]];
      pending := pending + more;
      i := i + 1;
    }
    FirstUnknownAfter(sources, ends, r, i);
    assert sources[..|sources|] == sources;
    if pending > 0 { return Answer(JobBusy, StillPending(pending)); }
    if r.idleFor < quiet { return Answer(JobBusy, EmittedWithin(r.idleFor)); }
    return Answer(JobIdle, NoNote);
  }
}
