/** Is there anything for a read_committed consumer in [from, to) of a partition? Answered by
    fetching. Models Records, gaps.known and gaps.remember of internal/probe/gap.go on decoded
    batches; a truncated last batch is simply absent from the response. */
module GapScan {
  import opened KafkaLog

  const GAP_FETCHES := 8
  const MEMO_LIMIT := 10000

  datatype Response = Response(batches: seq<Batch>, lastStable: int, aborted: seq<AbortedTxn>)

  datatype Fetch = Failed | Fetched(response: Response)

  datatype Answer = No | Yes | Unanswered

  /** What a broker answers to a fetch at an offset: whole batches in order, none missing between
      the offset and the last one returned; the last stable offset; and the aborted transactions
      that end at or after the offset, all of those that begin before the returned batches end. */
  ghost predicate FetchOk(log: Log, offset: int, r: Response) {
    && (forall i :: 0 <= i < |r.batches| ==> r.batches[i] in log.batches)
    && (forall i, j :: 0 <= i < j < |r.batches| ==> r.batches[i].last < r.batches[j].first)
    && (forall b :: b in log.batches && offset <= b.last && r.batches != [] && b.first <= r.batches[|r.batches| - 1].first
          ==> b in r.batches)
    && IsLastStable(log, r.lastStable)
    && (forall t :: t in r.aborted ==> t in log.aborted && offset <= t.last)
    && (forall t :: t in log.aborted && offset <= t.last && t.first < Upper(r) ==> t in r.aborted)
  }

  /** The offset after the returned batches. */
  function Upper(r: Response): int {
    if r.batches == [] then 0 else r.batches[|r.batches| - 1].last + 1
  }

  // ---------------------------------------------------------------- the state of a scan

  ghost predicate Skippable(log: Log, b: Batch) { b.kind.Marker? || InAborted(log, b) }

  predicate RunsAt(t: AbortedTxn, producer: int, next: int) {
    t.producer == producer && t.first < next <= t.last
  }

  ghost predicate Running(log: Log, producer: int, next: int) {
    exists t :: t in log.aborted && RunsAt(t, producer, next)
  }

  ghost predicate OnBoundary(log: Log, next: int) {
    forall b :: b in log.batches ==> !(b.first < next <= b.last)
  }

  /** Everything between from and next was skipped for good reason; the producers held as aborting
      are in an aborted transaction at next; what is queued is aborted and not over yet. */
  ghost predicate Scanned(log: Log, from: int, next: int, aborting: set<int>, queue: seq<AbortedTxn>) {
    && from <= next
    && (forall b :: b in log.batches && from <= b.last < next ==> Skippable(log, b))
    && (forall p :: p in aborting ==> Running(log, p, next))
    && (forall t :: t in queue ==> t in log.aborted && next <= t.last)
    && ((next == from && aborting == {}) || OnBoundary(log, next))
  }

  /** No aborted transaction that matters before upper has been overlooked. */
  ghost predicate Informed(log: Log, next: int, upper: int, aborting: set<int>, queue: seq<AbortedTxn>) {
    forall t :: t in log.aborted && next <= t.last && t.first < upper ==>
      t in queue || (t.producer in aborting && t.first < next)
  }

  predicate SortedByFirst(queue: seq<AbortedTxn>) {
    forall i, j :: 0 <= i < j < |queue| ==> queue[i].first <= queue[j].first
  }

  /** The first batch of the log that the scan has not passed. */
  ghost predicate IsNext(log: Log, next: int, b: Batch) {
    b in log.batches && next <= b.last && forall x :: x in log.batches && next <= x.last ==> b.first <= x.first
  }

  /** The queue without the transactions that begin at or before an offset. */
  ghost predicate Activated(queue: seq<AbortedTxn>, aborting: set<int>, first: int, queue': seq<AbortedTxn>, aborting': set<int>) {
    && (forall t :: t in queue' <==> t in queue && t.first > first)
    && (forall p :: p in aborting' <==> p in aborting || exists t :: t in queue && t.first <= first && t.producer == p)
  }

  /** A transaction that runs at next still runs at the next batch: its marker would be a batch
      before it. */
  lemma RunsUntilItsMarker(log: Log, next: int, b: Batch, t: AbortedTxn)
    requires Valid(log) && IsNext(log, next, b) && t in log.aborted && next <= t.last
    ensures b.first <= t.last
    ensures t.last <= b.last ==> b.kind == Marker(false) && b.producer == t.producer
  {
    assert HasAbortMarker(log, t);
    var m :| m in log.batches && m.kind == Marker(false) && m.producer == t.producer && m.first == t.last;
    assert m != b ==> Disjoint(m, b);
  }

  lemma ActivatedRuns(log: Log, from: int, next: int, aborting: set<int>, queue: seq<AbortedTxn>, b: Batch,
                      queue': seq<AbortedTxn>, aborting': set<int>, p: int)
    requires Valid(log) && Scanned(log, from, next, aborting, queue) && IsNext(log, next, b)
    requires Activated(queue, aborting, b.first, queue', aborting') && p in aborting'
    ensures exists t :: t in log.aborted && t.producer == p && t.first <= b.first && next <= t.last
  {
    if p in aborting {
      assert Running(log, p, next);
      var t :| t in log.aborted && RunsAt(t, p, next);
      assert OnBoundary(log, next);
      assert t.first <= b.first;
    } else {
      var t :| t in queue && t.first <= b.first && t.producer == p;
    }
  }

  /** A transactional batch of an aborting producer is part of that aborted transaction. */
  lemma SkippedIsAborted(log: Log, from: int, next: int, aborting: set<int>, queue: seq<AbortedTxn>, b: Batch,
                         queue': seq<AbortedTxn>, aborting': set<int>)
    requires Valid(log) && Scanned(log, from, next, aborting, queue) && IsNext(log, next, b)
    requires Activated(queue, aborting, b.first, queue', aborting')
    requires b.kind == Transactional && b.producer in aborting'
    ensures InAborted(log, b)
  {
    ActivatedRuns(log, from, next, aborting, queue, b, queue', aborting', b.producer);
    var t :| t in log.aborted && t.producer == b.producer && t.first <= b.first && next <= t.last;
    RunsUntilItsMarker(log, next, b, t);
    assert Covers(t, b);
  }

  /** And a batch of an aborted transaction is not taken for a committed one. */
  lemma AbortedIsSkipped(log: Log, next: int, upper: int, aborting: set<int>, queue: seq<AbortedTxn>, b: Batch,
                         queue': seq<AbortedTxn>, aborting': set<int>)
    requires Informed(log, next, upper, aborting, queue) && next <= b.last < upper && b.first <= b.last
    requires Activated(queue, aborting, b.first, queue', aborting')
    requires InAborted(log, b)
    ensures b.producer in aborting'
  {
    var t :| t in log.aborted && Covers(t, b);
    assert t in queue || t.producer in aborting;
  }

  /** The aborting producers once the batch is passed: a marker ends its producer's transaction. */
  function PassedBy(aborting: set<int>, b: Batch): set<int> {
    if b.kind.Marker? then aborting - {b.producer} else aborting
  }

  lemma PassingKeepsScanned(log: Log, from: int, next: int, aborting: set<int>, queue: seq<AbortedTxn>, b: Batch,
                            queue': seq<AbortedTxn>, aborting': set<int>)
    requires Valid(log) && Scanned(log, from, next, aborting, queue) && IsNext(log, next, b)
    requires Activated(queue, aborting, b.first, queue', aborting') && Skippable(log, b)
    ensures Scanned(log, from, b.last + 1, PassedBy(aborting', b), queue')
  {
    forall p | p in PassedBy(aborting', b)
      ensures Running(log, p, b.last + 1)
    {
      ActivatedRuns(log, from, next, aborting, queue, b, queue', aborting', p);
      var t :| t in log.aborted && t.producer == p && t.first <= b.first && next <= t.last;
      RunsUntilItsMarker(log, next, b, t);
      assert RunsAt(t, p, b.last + 1);
    }
    forall t | t in queue'
      ensures t in log.aborted && b.last + 1 <= t.last
    {
      assert Begins(log, t.first);
    }
    forall x | x in log.batches
      ensures from <= x.last < b.last + 1 ==> Skippable(log, x)
      ensures !(x.first < b.last + 1 <= x.last)
    {
      assert x != b ==> Disjoint(x, b);
    }
  }

  lemma PassingKeepsInformed(log: Log, from: int, next: int, upper: int, aborting: set<int>, queue: seq<AbortedTxn>, b: Batch,
                             queue': seq<AbortedTxn>, aborting': set<int>)
    requires Valid(log) && Informed(log, next, upper, aborting, queue) && IsNext(log, next, b)
    requires Scanned(log, from, next, aborting, queue)
    requires Activated(queue, aborting, b.first, queue', aborting')
    ensures Informed(log, b.last + 1, upper, PassedBy(aborting', b), queue')
  {
    forall t | t in log.aborted && b.last + 1 <= t.last && t.first < upper && t !in queue'
      ensures t.producer in PassedBy(aborting', b) && t.first < b.last + 1
    {
      assert t in queue || (t.producer in aborting && t.first < next);
      assert t.first <= b.last;
      assert IsMarkerOf(b, t.producer) ==> !(t.first <= b.first < t.last);
    }
  }

  // ---------------------------------------------------------------- what a scan concludes

  /** Something in the range is delivered, or may yet be. */
  ghost predicate SomethingIn(log: Log, from: int, to: int) {
    || !Settled(log, to)
    || exists b :: b in log.batches && Overlaps(b, from, to) && IsCommitted(log, b)
  }

  /** The two answers exclude each other. */
  lemma NothingIsNotSomething(log: Log, from: int, to: int)
    requires Valid(log) && NothingIn(log, from, to)
    ensures !SomethingIn(log, from, to)
  {
    forall b | b in log.batches && Overlaps(b, from, to)
      ensures !IsCommitted(log, b)
    {
      if IsAborted(log, b) { AbortedIsNotCommitted(log, b); }
    }
  }

  /** A log that compaction has not touched. */
  ghost predicate Dense(log: Log) {
    forall b :: b in log.batches && !b.kind.Marker? ==> forall o :: b.first <= o <= b.last ==> o in b.records
  }

  /** On a dense log that reaches to, something means a delivered record or an open transaction. */
  lemma SomethingOnADenseLog(log: Log, from: int, to: int)
    requires Valid(log) && Dense(log) && to <= log.end && from < to
    ensures SomethingIn(log, from, to) <==>
      || (exists offset :: from <= offset < to && Delivered(log, offset))
      || (exists p :: p in log.open && log.open[p] < to)
  {
    if b :| b in log.batches && Overlaps(b, from, to) && IsCommitted(log, b) {
      var offset := if from <= b.first then b.first else from;
      assert offset in b.records;
      assert Delivered(log, offset);
    }
    if offset :| from <= offset < to && Delivered(log, offset) {
      var b :| b in log.batches && offset in b.records && IsCommitted(log, b);
      assert Overlaps(b, from, to);
    }
  }

  /** What a scan has passed stays passed while the log grows between fetches. */
  lemma GrowthKeepsScanned(a: Log, b: Log, from: int, next: int, aborting: set<int>, queue: seq<AbortedTxn>)
    requires Valid(b) && Grows(a, b) && next <= a.end && Scanned(a, from, next, aborting, queue)
    ensures Scanned(b, from, next, aborting, queue)
  {
    forall p | p in aborting ensures Running(b, p, next) {
      assert Running(a, p, next);
      var t :| t in a.aborted && RunsAt(t, p, next);
      assert t in b.aborted;
    }
    forall x | x in b.batches && x.first < next
      ensures from <= x.last < next ==> Skippable(b, x)
      ensures OnBoundary(a, next) ==> x.last < next
    {
      assert WasThere(a, x);
      var y :| y in a.batches && y.(records := x.records) == x && x.records <= y.records;
      if from <= x.last < next && !x.kind.Marker? {
        assert Skippable(a, y);
        var t :| t in a.aborted && Covers(t, y);
        assert t in b.aborted && Covers(t, x);
      }
    }
  }

  lemma PassedAllMeansNothing(log: Log, from: int, next: int, to: int, aborting: set<int>, queue: seq<AbortedTxn>)
    requires Valid(log) && Settled(log, to) && Scanned(log, from, next, aborting, queue)
    requires forall b :: b in log.batches && next <= b.last ==> to <= b.first
    ensures NothingIn(log, from, to)
  {
    forall b | b in log.batches && Overlaps(b, from, to) && !b.kind.Marker?
      ensures IsAborted(log, b)
    {
      assert Skippable(log, b);
      InAbortedIsAborted(log, b);
    }
  }

  lemma NotSkippedMeansSomething(log: Log, from: int, next: int, to: int, upper: int, aborting: set<int>, queue: seq<AbortedTxn>,
                                 b: Batch, queue': seq<AbortedTxn>, aborting': set<int>)
    requires Valid(log) && Settled(log, to) && Informed(log, next, upper, aborting, queue)
    requires b in log.batches && from <= next <= b.last < upper && b.first < to
    requires Activated(queue, aborting, b.first, queue', aborting')
    requires !b.kind.Marker? && !(b.kind == Transactional && b.producer in aborting')
    ensures SomethingIn(log, from, to)
  {
    if InAborted(log, b) {
      AbortedIsSkipped(log, next, upper, aborting, queue, b, queue', aborting');
    }
    UnlistedIsCommitted(log, b, to);
    assert Overlaps(b, from, to);
  }

  // ---------------------------------------------------------------- the scan

  function Inserted(queue: seq<AbortedTxn>, t: AbortedTxn): (r: seq<AbortedTxn>)
    requires SortedByFirst(queue)
    ensures SortedByFirst(r) && forall x :: x in r <==> x in queue || x == t
  {
    if queue == [] || t.first < queue[0].first then [t] + queue
    else
      var rest := Inserted(queue[1..], t);
      assert forall x :: x in rest ==> queue[0].first <= x.first;
      [queue[0]] + rest
  }

  function Sorted(queue: seq<AbortedTxn>): (r: seq<AbortedTxn>)
    ensures SortedByFirst(r) && forall x :: x in r <==> x in queue
  {
    if queue == [] then [] else Inserted(Sorted(queue[..|queue| - 1]), queue[|queue| - 1])
  }

  /** Takes the transactions that begin at or before an offset off a sorted queue. */
  method Activate(queue: seq<AbortedTxn>, aborting: set<int>, first: int) returns (queue': seq<AbortedTxn>, aborting': set<int>)
    requires SortedByFirst(queue)
    ensures SortedByFirst(queue') && Activated(queue, aborting, first, queue', aborting')
  {
    queue', aborting' := queue, aborting;
    ghost var n := 0;
    while |queue'| > 0 && queue'[0].first <= first
      invariant 0 <= n <= |queue| && queue' == queue[n..]
      invariant forall i :: 0 <= i < n ==> queue[i].first <= first
      invariant forall p :: p in aborting' <==> p in aborting || exists i :: 0 <= i < n && queue[i].producer == p
      decreases |queue'|
    {
      assert queue'[0] == queue[n];
      aborting' := aborting' + {queue'[0].producer};
      queue' := queue'[1..];
      n := n + 1;
    }
    assert forall i :: n <= i < |queue| ==> queue[i].first > first;
  }

  type Partition = (string, nat)

  /** The log of every partition at every moment. */
  type History = (nat, Partition) -> Log

  /** What the broker answers at a moment to a fetch of a partition at an offset. */
  type Broker = (nat, Partition, int) -> Fetch

  ghost predicate ValidAt(logs: History, t: nat, p: Partition) { Valid(logs(t, p)) }

  ghost predicate GrowsBetween(logs: History, t: nat, t': nat, p: Partition) { t <= t' ==> Grows(logs(t, p), logs(t', p)) }

  /** Every partition is a valid log at every moment and only grows. */
  ghost predicate Lives(logs: History) {
    && (forall t: nat, p: Partition :: ValidAt(logs, t, p))
    && (forall t: nat, t': nat, p: Partition :: GrowsBetween(logs, t, t', p))
  }

  ghost predicate HonestAt(broker: Broker, logs: History, t: nat, p: Partition, offset: int) {
    broker(t, p, offset).Fetched? ==> FetchOk(logs(t, p), offset, broker(t, p, offset).response)
  }

  ghost predicate Honest(broker: Broker, logs: History) {
    forall t: nat, p: Partition, offset: int :: HonestAt(broker, logs, t, p, offset)
  }

  lemma NothingLasts(logs: History, t: nat, t': nat, p: Partition, from: int, to: int)
    requires Lives(logs) && t <= t' && NothingIn(logs(t, p), from, to)
    ensures NothingIn(logs(t', p), from, to)
  {
    assert ValidAt(logs, t, p) && ValidAt(logs, t', p) && GrowsBetween(logs, t, t', p);
    NothingStaysNothing(logs(t, p), logs(t', p), from, to);
  }

  /** How far one response takes a scan. */
  datatype Progress = Answered(yes: bool) | Reached(next: int, progressed: bool, aborting: set<int>, queue: seq<AbortedTxn>)

  /** The first n batches of a response lie before next. */
  predicate GoneThrough(r: Response, n: int, next: int) {
    forall j :: 0 <= j < n <= |r.batches| ==> r.batches[j].last < next
  }

  lemma GoneThroughOne(r: Response, i: int, next: int, next': int)
    requires 0 <= i < |r.batches| && GoneThrough(r, i, next) && next <= next' && r.batches[i].last < next'
    ensures GoneThrough(r, i + 1, next')
  {
  }

  /** A fetch that takes a scan no further. */
  predicate Stalls(fetch: Fetch, next: int) { fetch.Failed? || GoneThrough(fetch.response, |fetch.response.batches|, next) }

  lemma FirstUnpassedIsNext(log: Log, offset: int, r: Response, i: int, next: int)
    requires FetchOk(log, offset, r) && 0 <= i < |r.batches| && offset <= next <= r.batches[i].last
    requires GoneThrough(r, i, next)
    requires forall b :: b in log.batches ==> b.first <= b.last
    ensures IsNext(log, next, r.batches[i]) && r.batches[i].last < Upper(r)
  {
    forall x | x in log.batches && next <= x.last
      ensures r.batches[i].first <= x.first
    {
      if x.first <= r.batches[|r.batches| - 1].first {
        var j :| 0 <= j < |r.batches| && r.batches[j] == x;
      }
    }
  }

  /** A scan under way in a response: it has come from `from` to next, and knows all that was aborted. */
  ghost predicate Midway(log: Log, from: int, to: int, next: int, upper: int, aborting: set<int>, queue: seq<AbortedTxn>) {
    && Valid(log) && Settled(log, to) && SortedByFirst(queue)
    && Scanned(log, from, next, aborting, queue) && Informed(log, next, upper, aborting, queue)
  }

  /** What holds when one or more batches of a response have been gone through. */
  ghost predicate ProgressOk(log: Log, from: int, to: int, upper: int, p: Progress) {
    match p
    case Answered(yes) => if yes then SomethingIn(log, from, to) else NothingIn(log, from, to)
    case Reached(next, _, aborting, queue) => next < to && Midway(log, from, to, next, upper, aborting, queue)
  }

  lemma PassingKeepsMidway(log: Log, from: int, to: int, next: int, upper: int, aborting: set<int>, queue: seq<AbortedTxn>, b: Batch,
                           queue': seq<AbortedTxn>, aborting': set<int>)
    requires Midway(log, from, to, next, upper, aborting, queue) && IsNext(log, next, b)
    requires Activated(queue, aborting, b.first, queue', aborting') && SortedByFirst(queue')
    requires b.kind.Marker? || (b.kind == Transactional && b.producer in aborting')
    ensures Midway(log, from, to, b.last + 1, upper, PassedBy(aborting', b), queue')
    ensures to <= b.last + 1 ==> NothingIn(log, from, to)
  {
    if b.kind == Transactional {
      SkippedIsAborted(log, from, next, aborting, queue, b, queue', aborting');
    }
    PassingKeepsScanned(log, from, next, aborting, queue, b, queue', aborting');
    PassingKeepsInformed(log, from, next, upper, aborting, queue, b, queue', aborting');
    if to <= b.last + 1 {
      PassedAllMeansNothing(log, from, b.last + 1, to, PassedBy(aborting', b), queue');
    }
  }

  /** Looks at one batch that the scan has not passed. */
  method ScanBatch(ghost log: Log, from: int, to: int, next: int, ghost upper: int, aborting: set<int>, queue: seq<AbortedTxn>, b: Batch)
    returns (p: Progress)
    requires Midway(log, from, to, next, upper, aborting, queue) && next < to
    requires IsNext(log, next, b) && b.last < upper
    ensures ProgressOk(log, from, to, upper, p)
    ensures p.Reached? ==> p.progressed && p.next == b.last + 1
  {
    if b.first >= to {
      PassedAllMeansNothing(log, from, next, to, aborting, queue);
      return Answered(false);
    }
    var queue', aborting' := Activate(queue, aborting, b.first);
    if b.kind.Marker? {
      PassingKeepsMidway(log, from, to, next, upper, aborting, queue, b, queue', aborting');
      aborting' := aborting' - {b.producer};
    } else if b.kind == Transactional && b.producer in aborting' {
      PassingKeepsMidway(log, from, to, next, upper, aborting, queue, b, queue', aborting');
    } else {
      NotSkippedMeansSomething(log, from, next, to, upper, aborting, queue, b, queue', aborting');
      return Answered(true);
    }
    p := if b.last + 1 >= to then Answered(false) else Reached(b.last + 1, true, aborting', queue');
  }

  /** What is passed last is the last batch. */
  lemma ReachesTheEnd(log: Log, offset: int, r: Response, k: nat, next: int)
    requires BatchesValid(log) && FetchOk(log, offset, r) && k < |r.batches| && next == r.batches[k].last + 1
    requires GoneThrough(r, |r.batches|, next)
    ensures next == Upper(r)
  {
    var n := |r.batches| - 1;
    assert r.batches[n] in log.batches;
  }

  /** A scan that has gone through the first i batches of a response. */
  ghost predicate Through(log: Log, from: int, to: int, offset: int, r: Response, i: nat, p: Progress) {
    && p.Reached? && offset <= p.next && (p.progressed <==> offset < p.next)
    && i <= |r.batches| && GoneThrough(r, i, p.next) && ProgressOk(log, from, to, Upper(r), p)
    && (p.progressed ==> exists k :: 0 <= k < i && p.next == r.batches[k].last + 1)
  }

  /** Takes the i-th batch of a response, which may lie behind the offset fetched at. */
  method TakeBatch(ghost log: Log, from: int, to: int, ghost offset: int, r: Response, i: nat, p: Progress)
    returns (p': Progress)
    requires BatchesValid(log) && FetchOk(log, offset, r) && i < |r.batches| && Through(log, from, to, offset, r, i, p)
    ensures ProgressOk(log, from, to, Upper(r), p')
    ensures p'.Reached? ==> Through(log, from, to, offset, r, i + 1, p')
  {
    if r.batches[i].last < p.next { return p; }
    FirstUnpassedIsNext(log, offset, r, i, p.next);
    p' := ScanBatch(log, from, to, p.next, Upper(r), p.aborting, p.queue, r.batches[i]);
    if p'.Reached? { GoneThroughOne(r, i, p.next, p'.next); }
  }

  /** Goes through the batches of one response. */
  method ScanResponse(ghost log: Log, from: int, to: int, offset: int, r: Response, aborting: set<int>, queue: seq<AbortedTxn>)
    returns (p: Progress)
    requires FetchOk(log, offset, r) && Midway(log, from, to, offset, Upper(r), aborting, queue) && offset < to
    ensures ProgressOk(log, from, to, Upper(r), p)
    ensures p.Reached? ==> offset <= p.next && (p.progressed <==> offset < p.next) && GoneThrough(r, |r.batches|, p.next)
    ensures p.Reached? && p.progressed ==> p.next == Upper(r) && r.batches != []
  {
    p := Reached(offset, false, aborting, queue);
    var i := 0;
    while i < |r.batches|
      invariant 0 <= i <= |r.batches| && Through(log, from, to, offset, r, i, p)
    {
      p := TakeBatch(log, from, to, offset, r, i, p);
      if p.Answered? { return; }
      i := i + 1;
    }
    if p.progressed {
      ghost var k :| 0 <= k < i && p.next == r.batches[k].last + 1;
      ReachesTheEnd(log, offset, r, k, p.next);
    }
  }

  /** Between two fetches the log may have grown, and the second response lists what it needs. */
  lemma FetchedIsMidway(log: Log, from: int, to: int, next: int, r: Response, aborting: set<int>, queue: seq<AbortedTxn>, queue': seq<AbortedTxn>)
    requires Valid(log) && Scanned(log, from, next, aborting, queue) && FetchOk(log, next, r) && to <= r.lastStable
    requires SortedByFirst(queue') && forall t :: t in queue' <==> t in queue || t in r.aborted
    ensures Midway(log, from, to, next, Upper(r), aborting, queue')
  {
  }

  lemma OpenBelowMeansSomething(log: Log, from: int, to: int, lso: int)
    requires IsLastStable(log, lso) && lso < to
    ensures SomethingIn(log, from, to)
  {
  }

  lemma NothingPassedYet(log: Log, from: int)
    ensures Scanned(log, from, from, {}, [])
  {
  }

  lemma ScannedAtNextFetch(logs: History, t: nat, p: Partition, from: int, to: int, next: int, upper: int,
                           aborting: set<int>, queue: seq<AbortedTxn>)
    requires Lives(logs) && Midway(logs(t, p), from, to, next, upper, aborting, queue) && next <= to
    ensures Scanned(logs(t + 1, p), from, next, aborting, queue)
  {
    assert ValidAt(logs, t + 1, p) && GrowsBetween(logs, t, t + 1, p);
    GrowthKeepsScanned(logs(t, p), logs(t + 1, p), from, next, aborting, queue);
  }

  /** Takes in one fetched response. */
  method ScanFetch(ghost log: Log, from: int, to: int, next: int, r: Response, aborting: set<int>, queue: seq<AbortedTxn>)
    returns (p: Progress)
    requires Valid(log) && FetchOk(log, next, r) && next < to && Scanned(log, from, next, aborting, queue)
    ensures ProgressOk(log, from, to, Upper(r), p)
    ensures p.Reached? ==> next <= p.next && (p.progressed <==> next < p.next) && GoneThrough(r, |r.batches|, p.next)
    ensures p.Reached? && p.progressed ==> p.next == Upper(r) && r.batches != []
  {
    if 0 <= r.lastStable < to {
      OpenBelowMeansSomething(log, from, to, r.lastStable);
      return Answered(true);
    }
    var queue' := Sorted(queue + r.aborted);
    FetchedIsMidway(log, from, to, next, r, aborting, queue, queue');
    p := ScanResponse(log, from, to, next, r, aborting, queue');
  }

  /** Where the n-th fetch of a scan starts: after all that the one before it returned. */
  function FetchOffset(broker: Broker, partition: Partition, from: int, now: nat, n: nat): int {
    if n == 0 then from
    else
      var before := FetchOffset(broker, partition, from, now, n - 1);
      var fetch := broker(now + n - 1, partition, before);
      if fetch.Fetched? then Upper(fetch.response) else before
  }

  /** The i-th fetch takes the scan further, and not to the end. */
  predicate TakesFurther(broker: Broker, partition: Partition, from: int, to: int, now: nat, i: nat) {
    var offset := FetchOffset(broker, partition, from, now, i);
    !Stalls(broker(now + i, partition, offset), offset) && offset < FetchOffset(broker, partition, from, now, i + 1) < to
  }

  /** n fetches took the scan to an offset. */
  ghost predicate Proceeded(broker: Broker, partition: Partition, from: int, to: int, now: nat, n: nat, next: int) {
    && next == FetchOffset(broker, partition, from, now, n)
    && forall i: nat :: i < n ==> TakesFurther(broker, partition, from, to, now, i)
  }

  lemma ProceedsOn(broker: Broker, partition: Partition, from: int, to: int, now: nat, n: nat, next: int, r: Response)
    requires Proceeded(broker, partition, from, to, now, n, next) && broker(now + n, partition, next) == Fetched(r)
    requires next < Upper(r) < to && !GoneThrough(r, |r.batches|, next)
    ensures Proceeded(broker, partition, from, to, now, n + 1, Upper(r))
  {
    assert TakesFurther(broker, partition, from, to, now, n);
  }

  lemma NotGoneThrough(r: Response, next: int)
    requires next < Upper(r) && r.batches != []
    ensures !GoneThrough(r, |r.batches|, next)
  {
    assert r.batches[|r.batches| - 1].last >= next;
  }

  /** The i-th fetch failed or brought nothing, within the range. */
  predicate Stalled(broker: Broker, partition: Partition, from: int, to: int, now: nat, i: nat) {
    var offset := FetchOffset(broker, partition, from, now, i);
    from <= offset < to && Stalls(broker(now + i, partition, offset), offset)
  }

  /** The first n fetches took the scan further and the one after them did not. */
  predicate Went(broker: Broker, partition: Partition, from: int, to: int, now: nat, n: nat, i: nat) {
    if i < n then TakesFurther(broker, partition, from, to, now, i) else Stalled(broker, partition, from, to, now, i)
  }

  /** Why there is no answer after n fetches that each took the scan further: the next one failed or
      brought nothing, or no more are allowed. */
  ghost predicate GaveUp(broker: Broker, partition: Partition, from: int, to: int, now: nat, n: nat) {
    n <= 8 && forall i: nat :: i <= n && i < 8 ==> Went(broker, partition, from, to, now, n, i)
  }

  /** A scan that has made n fetches and has no answer yet. */
  ghost predicate UnderWay(broker: Broker, logs: History, partition: Partition, from: int, to: int, now: nat, n: nat,
                           next: int, aborting: set<int>, queue: seq<AbortedTxn>)
  {
    && from <= next < to && Scanned(logs(now + n, partition), from, next, aborting, queue)
    && Proceeded(broker, partition, from, to, now, n, next)
  }

  /** How one fetch leaves a scan. */
  datatype Fetching = Over(answer: Answer) | On(next: int, aborting: set<int>, queue: seq<AbortedTxn>)

  /** What holds when the n-th fetch has been taken in. */
  ghost predicate FetchingOk(broker: Broker, logs: History, partition: Partition, from: int, to: int, now: nat, n: nat, f: Fetching) {
    match f
    case Over(No) => NothingIn(logs(now + n, partition), from, to) && !SomethingIn(logs(now + n, partition), from, to)
    case Over(Yes) => SomethingIn(logs(now + n, partition), from, to)
    case Over(Unanswered) => GaveUp(broker, partition, from, to, now, n)
    case On(next, aborting, queue) => UnderWay(broker, logs, partition, from, to, now, n + 1, next, aborting, queue)
  }

  lemma StalledGaveUp(broker: Broker, logs: History, partition: Partition, from: int, to: int, now: nat, n: nat,
                      next: int, aborting: set<int>, queue: seq<AbortedTxn>)
    requires UnderWay(broker, logs, partition, from, to, now, n, next, aborting, queue) && n < GAP_FETCHES
    requires Stalls(broker(now + n, partition, next), next)
    ensures GaveUp(broker, partition, from, to, now, n)
  {
  }

  lemma GoesOn(broker: Broker, logs: History, partition: Partition, from: int, to: int, now: nat, n: nat,
               next: int, aborting: set<int>, queue: seq<AbortedTxn>, r: Response, p: Progress)
    requires Lives(logs) && UnderWay(broker, logs, partition, from, to, now, n, next, aborting, queue)
    requires broker(now + n, partition, next) == Fetched(r) && ProgressOk(logs(now + n, partition), from, to, Upper(r), p)
    requires p.Reached? && p.progressed && next < p.next == Upper(r) && r.batches != []
    ensures UnderWay(broker, logs, partition, from, to, now, n + 1, p.next, p.aborting, p.queue)
  {
    NotGoneThrough(r, next);
    ProceedsOn(broker, partition, from, to, now, n, next, r);
    ScannedAtNextFetch(logs, now + n, partition, from, to, p.next, Upper(r), p.aborting, p.queue);
  }

  /** Makes the n-th fetch of a scan and takes it in. */
  method FetchOnce(broker: Broker, ghost logs: History, partition: Partition, from: int, to: int, now: nat, n: nat,
                   next: int, aborting: set<int>, queue: seq<AbortedTxn>)
    returns (f: Fetching)
    requires Lives(logs) && Honest(broker, logs) && n < GAP_FETCHES
    requires UnderWay(broker, logs, partition, from, to, now, n, next, aborting, queue)
    ensures FetchingOk(broker, logs, partition, from, to, now, n, f)
  {
    var fetch := broker(now + n, partition, next);
    if fetch.Failed? {
      StalledGaveUp(broker, logs, partition, from, to, now, n, next, aborting, queue);
      return Over(Unanswered);
    }
    assert ValidAt(logs, now + n, partition) && HonestAt(broker, logs, now + n, partition, next);
    var p := ScanFetch(logs(now + n, partition), from, to, next, fetch.response, aborting, queue);
    if p.Answered? {
      if !p.yes { NothingIsNotSomething(logs(now + n, partition), from, to); }
      return Over(if p.yes then Yes else No);
    }
    if !p.progressed {
      StalledGaveUp(broker, logs, partition, from, to, now, n, next, aborting, queue);
      return Over(Unanswered);
    }
    GoesOn(broker, logs, partition, from, to, now, n, next, aborting, queue, fetch.response, p);
    f := On(p.next, p.aborting, p.queue);
  }

  /** Asks the broker about [from, to), a fetch at a time, from moment now on. An answer holds of the
      log as it was at some moment of the scan; No holds ever after; and there is no answer only if a
      fetch failed or brought nothing, or as many fetches as are allowed were not enough. */
  method Scan(broker: Broker, ghost logs: History, partition: Partition, from: int, to: int, now: nat)
    returns (answer: Answer, at: nat)
    requires Lives(logs) && Honest(broker, logs) && from < to
    ensures now <= at <= now + GAP_FETCHES
    ensures answer == No ==> NothingIn(logs(at, partition), from, to)
    ensures answer != Unanswered ==> (answer == Yes <==> SomethingIn(logs(at, partition), from, to))
    ensures answer == Unanswered ==> GaveUp(broker, partition, from, to, now, at - now)
  {
    var next, aborting, queue, fetches := from, {}, [], 0;
    at := now;
    NothingPassedYet(logs(now, partition), from);
    while fetches < GAP_FETCHES
      invariant 0 <= fetches <= GAP_FETCHES && at == now + fetches
      invariant UnderWay(broker, logs, partition, from, to, now, fetches, next, aborting, queue)
    {
      var f := FetchOnce(broker, logs, partition, from, to, now, fetches, next, aborting, queue);
      if f.Over? { return f.answer, at; }
      next, aborting, queue := f.next, f.aborting, f.queue;
      fetches, at := fetches + 1, at + 1;
    }
    answer := Unanswered;
  }

  // ---------------------------------------------------------------- the memo

  /** A range of one partition. */
  datatype GapKey = GapKey(partition: Partition, from: int, to: int)

  /** Every remembered range is empty. */
  ghost predicate Truthful(empty: set<GapKey>, logs: History, t: nat) {
    forall k :: k in empty ==> NothingIn(logs(t, k.partition), k.from, k.to)
  }

  /** A truthful memo stays truthful while the logs grow, and so does any part of it. */
  lemma TruthfulLater(empty: set<GapKey>, kept: set<GapKey>, logs: History, t: nat, t': nat)
    requires Lives(logs) && Truthful(empty, logs, t) && t <= t' && kept <= empty
    ensures Truthful(kept, logs, t')
  {
    forall k | k in kept ensures NothingIn(logs(t', k.partition), k.from, k.to) {
      NothingLasts(logs, t, t', k.partition, k.from, k.to);
    }
  }

  function Remembered(empty: set<GapKey>, k: GapKey): set<GapKey> {
    if |empty| >= MEMO_LIMIT then {k} else empty + {k}
  }

  class Gaps {
    var empty: set<GapKey>

    constructor ()
      ensures empty == {}
    {
      empty := {};
    }

    method Known(k: GapKey) returns (known: bool)
      ensures known <==> k in empty
    {
      known := k in empty;
    }

    /** Remembers a range; a full memo starts afresh. */
    method Remember(k: GapKey)
      modifies this
      ensures empty == Remembered(old(empty), k)
      ensures k in empty && empty <= old(empty) + {k}
      ensures if |old(empty)| < 10000 then old(empty) <= empty else empty <= {k}
      ensures |old(empty)| <= MEMO_LIMIT ==> |empty| <= MEMO_LIMIT
    {
      if |empty| >= MEMO_LIMIT {
        empty := {};
      }
      empty := empty + {k};
    }

    /** Whether a partition holds anything in [from, to): by the memo, or by asking its leader if it
        has one. The memo stays truthful, and No is true at every later moment. */
    method Records(broker: Broker, ghost logs: History, hasLeader: bool, k: GapKey, now: nat)
      returns (answer: Answer, at: nat)
      requires Lives(logs) && Honest(broker, logs) && Truthful(empty, logs, now)
      modifies this
      ensures now <= at && Truthful(empty, logs, at)
      ensures k.from >= k.to || k in old(empty) ==> answer == No
      ensures k.from < k.to && answer == No ==> k in empty && forall t :: t >= at ==> NothingIn(logs(t, k.partition), k.from, k.to)
      ensures answer == Yes ==> SomethingIn(logs(at, k.partition), k.from, k.to)
      ensures k.from < k.to && k !in old(empty) && !hasLeader ==> answer == Unanswered
      ensures hasLeader && answer == Unanswered ==> GaveUp(broker, k.partition, k.from, k.to, now, at - now)
      ensures answer != No || k in old(empty) || k.from >= k.to ==> empty == old(empty)
      ensures answer == No && k.from < k.to && k !in old(empty) ==> hasLeader && empty == Remembered(old(empty), k)
    {
      at := now;
      var known := Known(k);
      if k.from >= k.to || known {
        answer := No;
      } else if !hasLeader {
        answer := Unanswered;
      } else {
        answer, at := Scan(broker, logs, k.partition, k.from, k.to, now);
        TruthfulLater(empty, empty, logs, now, at);
        if answer == No { Remember(k); }
      }
      if k.from < k.to && answer == No {
        forall t | t >= at ensures NothingIn(logs(t, k.partition), k.from, k.to) {
          NothingLasts(logs, at, t, k.partition, k.from, k.to);
        }
      }
    }
  }

  /** However long ago a range was remembered and whatever the size limit dropped since, a range
      that is still remembered holds no delivered record. */
  lemma RememberedIsNeverDelivered(empty: set<GapKey>, kept: set<GapKey>, logs: History, t: nat, t': nat, k: GapKey, offset: int)
    requires Lives(logs) && Truthful(empty, logs, t) && t <= t' && kept <= empty
    requires k in kept && k.from <= offset < k.to
    ensures !Delivered(logs(t', k.partition), offset)
  {
    TruthfulLater(empty, kept, logs, t, t');
    assert ValidAt(logs, t', k.partition);
    NothingIsDelivered(logs(t', k.partition), k.from, k.to, offset);
  }
}
