/** One partition of a Kafka log with transactions: what is appended, which transactions are open,
    which were aborted, and what a read_committed consumer is given. */
module KafkaLog {

  /** Ordinary data, data of a transaction, or the control batch that ends one. */
  datatype Kind = Plain | Transactional | Marker(commit: bool)

  /** A record batch: the offsets it covers, its producer, and the offsets at which compaction has
      left a record. */
  datatype Batch = Batch(first: int, last: int, producer: int, kind: Kind, records: set<int>)

  /** An entry of the broker's index of aborted transactions: from its first offset to its marker. */
  datatype AbortedTxn = AbortedTxn(producer: int, first: int, last: int)

  datatype Log = Log(
    batches: set<Batch>,
    aborted: set<AbortedTxn>,
    open: map<int, int>,      // producer -> first offset of its open transaction
    end: int)

  // ---------------------------------------------------------------- what a consumer is given

  predicate IsMarkerOf(b: Batch, producer: int) {
    b.kind.Marker? && b.producer == producer
  }

  /** The marker that decides a batch's transaction: the producer's first marker after it. */
  ghost predicate NextMarker(log: Log, b: Batch, m: Batch) {
    && m in log.batches && IsMarkerOf(m, b.producer) && b.last < m.first
    && forall x :: x in log.batches && IsMarkerOf(x, b.producer) ==> !(b.last < x.first < m.first)
  }

  ghost predicate IsCommitted(log: Log, b: Batch) {
    || b.kind == Plain
    || (b.kind == Transactional && exists m :: NextMarker(log, b, m) && m.kind.commit)
  }

  ghost predicate IsAborted(log: Log, b: Batch) {
    b.kind == Transactional && exists m :: NextMarker(log, b, m) && !m.kind.commit
  }

  ghost predicate Delivered(log: Log, offset: int) {
    exists b :: b in log.batches && offset in b.records && IsCommitted(log, b)
  }

  // ---------------------------------------------------------------- well-formed logs

  predicate Disjoint(a: Batch, b: Batch) { a.last < b.first || b.last < a.first }

  ghost predicate BatchesValid(log: Log) {
    && (forall b :: b in log.batches ==>
          && 0 <= b.first <= b.last < log.end
          && (b.kind.Marker? ==> b.first == b.last && b.records == {})
          && (forall o :: o in b.records ==> b.first <= o <= b.last))
    && (forall a, b :: a in log.batches && b in log.batches && a != b ==> Disjoint(a, b))
  }

  /** An offset where a transaction began lies within no other batch. */
  ghost predicate Begins(log: Log, first: int) {
    forall b :: b in log.batches ==> !(b.first < first <= b.last)
  }

  ghost predicate HasAbortMarker(log: Log, t: AbortedTxn) {
    exists m :: m in log.batches && m.kind == Marker(false) && m.producer == t.producer && m.first == t.last
  }

  ghost predicate AbortedValid(log: Log) {
    forall t :: t in log.aborted ==>
      && t.first <= t.last < log.end && Begins(log, t.first) && HasAbortMarker(log, t)
      && (forall x :: x in log.batches && IsMarkerOf(x, t.producer) ==> !(t.first <= x.first < t.last))
  }

  ghost predicate OpenValid(log: Log) {
    forall p :: p in log.open ==>
      && 0 <= log.open[p] < log.end && Begins(log, log.open[p])
      && (forall x :: x in log.batches && IsMarkerOf(x, p) ==> x.first < log.open[p])
  }

  predicate InOpen(log: Log, b: Batch) { b.producer in log.open && log.open[b.producer] <= b.first }

  /** A batch lies within an aborted transaction of its producer. */
  predicate Covers(t: AbortedTxn, b: Batch) {
    t.producer == b.producer && t.first <= b.first && b.last < t.last
  }

  ghost predicate InAborted(log: Log, b: Batch) {
    b.kind == Transactional && exists t :: t in log.aborted && Covers(t, b)
  }

  /** Every batch of a transaction is in an open one or has its marker, and the index lists it if
      that marker aborts. */
  ghost predicate TransactionsValid(log: Log) {
    && (forall b :: b in log.batches && b.kind == Transactional && !InOpen(log, b) ==> exists m :: NextMarker(log, b, m))
    && (forall b, m :: b in log.batches && b.kind == Transactional && NextMarker(log, b, m) && !m.kind.commit ==> InAborted(log, b))
  }

  ghost predicate Valid(log: Log) {
    && log.end >= 0 && BatchesValid(log) && AbortedValid(log) && OpenValid(log) && TransactionsValid(log)
  }

  lemma OneMarkerDecides(log: Log, b: Batch, m: Batch, n: Batch)
    requires BatchesValid(log) && NextMarker(log, b, m) && NextMarker(log, b, n)
    ensures m == n
  {
    assert m.first == n.first;
    assert m != n ==> Disjoint(m, n);
  }

  lemma AbortedIsNotCommitted(log: Log, b: Batch)
    requires BatchesValid(log) && IsAborted(log, b)
    ensures !IsCommitted(log, b)
  {
    var m :| NextMarker(log, b, m) && !m.kind.commit;
    forall n | NextMarker(log, b, n) ensures n == m { OneMarkerDecides(log, b, m, n); }
  }

  /** The index and the markers tell the same story. */
  lemma InAbortedIsAborted(log: Log, b: Batch)
    requires Valid(log) && b in log.batches && InAborted(log, b)
    ensures IsAborted(log, b) && !IsCommitted(log, b)
  {
    var t :| t in log.aborted && Covers(t, b);
    assert HasAbortMarker(log, t);
    var m :| m in log.batches && m.kind == Marker(false) && m.producer == t.producer && m.first == t.last;
    assert NextMarker(log, b, m);
    AbortedIsNotCommitted(log, b);
  }

  /** Below every open transaction, a batch the index does not list is delivered. */
  lemma UnlistedIsCommitted(log: Log, b: Batch, to: int)
    requires Valid(log) && b in log.batches && !b.kind.Marker? && !InAborted(log, b)
    requires b.first < to && Settled(log, to)
    ensures IsCommitted(log, b)
  {
    if b.kind == Transactional {
      assert !InOpen(log, b);
      var m :| NextMarker(log, b, m);
      assert m.kind.commit;
    }
  }

  // ---------------------------------------------------------------- how a log grows

  /** Nothing below the offset is open any more: it is at or below the last stable offset. */
  predicate Settled(log: Log, to: int) {
    to <= log.end && forall p :: p in log.open ==> to <= log.open[p]
  }

  predicate IsLastStable(log: Log, lso: int) {
    Settled(log, lso) && (lso == log.end || exists p :: p in log.open && log.open[p] == lso)
  }

  datatype Op =
    | Append(producer: int, transactional: bool, count: int)
    | End(producer: int, commit: bool)
    | Compact(b: Batch, kept: set<int>)
    | Drop(b: Batch)

  predicate OpLegal(log: Log, op: Op) {
    match op
    case Append(_, _, count) => count >= 1
    case End(_, _) => true
    case Compact(b, kept) => b in log.batches && !b.kind.Marker? && kept <= b.records
    case Drop(b) => b in log.batches && !b.kind.Marker?
  }

  function Offsets(first: int, last: int): (s: set<int>)
    ensures forall o :: o in s <==> first <= o <= last
    decreases last - first
  {
    if first > last then {} else {first} + Offsets(first + 1, last)
  }

  /** Appending takes the next offsets; a first transactional batch opens a transaction; a marker
      ends one and, if it aborts, lists it; compaction thins or drops data, and keeps markers. */
  function Apply(log: Log, op: Op): Log
    requires OpLegal(log, op)
  {
    match op
    case Append(p, transactional, count) =>
      var last := log.end + count - 1;
      var b := Batch(log.end, last, p, if transactional then Transactional else Plain, Offsets(log.end, last));
      log.(batches := log.batches + {b},
           open := if transactional && p !in log.open then log.open[p := log.end] else log.open,
           end := last + 1)
    case End(p, commit) =>
      var m := Batch(log.end, log.end, p, Marker(commit), {});
      log.(batches := log.batches + {m},
           aborted := if !commit && p in log.open then log.aborted + {AbortedTxn(p, log.open[p], log.end)} else log.aborted,
           open := log.open - {p},
           end := log.end + 1)
    case Compact(b, kept) => log.(batches := log.batches - {b} + {b.(records := kept)})
    case Drop(b) => log.(batches := log.batches - {b})
  }

  /** What stays true of a log while it is appended to, its transactions end and it is compacted. */
  ghost predicate Grows(a: Log, b: Log) {
    && a.end <= b.end && a.aborted <= b.aborted
    && (forall x :: x in b.batches ==> x.first >= a.end || WasThere(a, x))
    && (forall p :: p in b.open ==> b.open[p] >= a.end || (p in a.open && a.open[p] == b.open[p]))
    && (forall t :: t in b.aborted ==> t in a.aborted || t.first >= a.end || (t.producer in a.open && a.open[t.producer] == t.first))
  }

  /** The batch, or an older form of it with more records, was in the log. */
  ghost predicate WasThere(log: Log, x: Batch) {
    exists y :: y in log.batches && y.(records := x.records) == x && x.records <= y.records
  }

  lemma GrowsIsReflexive(a: Log)
    ensures Grows(a, a)
  {
    forall x | x in a.batches ensures WasThere(a, x) {
      assert x.(records := x.records) == x;
    }
  }

  lemma GrowsIsTransitive(a: Log, b: Log, c: Log)
    requires Grows(a, b) && Grows(b, c)
    ensures Grows(a, c)
  {
    forall x | x in c.batches && x.first < a.end ensures WasThere(a, x) {
      assert WasThere(b, x);
      var y :| y in b.batches && y.(records := x.records) == x && x.records <= y.records;
      assert WasThere(a, y);
      var z :| z in a.batches && z.(records := y.records) == y && y.records <= z.records;
      assert z.(records := x.records) == x;
    }
  }

  lemma SettledStaysSettled(a: Log, b: Log, to: int)
    requires Grows(a, b) && Settled(a, to)
    ensures Settled(b, to)
  {
  }

  lemma OpGrows(log: Log, op: Op)
    requires Valid(log) && OpLegal(log, op)
    ensures Grows(log, Apply(log, op))
  {
    forall x | x in Apply(log, op).batches && x.first < log.end
      ensures WasThere(log, x)
    {
      if op.Compact? && x == op.b.(records := op.kept) {
        assert op.b.(records := x.records) == x;
      } else {
        assert x in log.batches && x.(records := x.records) == x;
      }
    }
  }

  lemma AppendKeepsValid(log: Log, op: Op)
    requires Valid(log) && op.Append? && OpLegal(log, op)
    ensures Valid(Apply(log, op))
  {
    var log' := Apply(log, op);
    var last := log.end + op.count - 1;
    var b := Batch(log.end, last, op.producer, if op.transactional then Transactional else Plain, Offsets(log.end, last));
    assert log'.batches == log.batches + {b};
    assert forall x :: x in log.batches ==> x.last < b.first;
    forall t | t in log'.aborted ensures HasAbortMarker(log', t) { assert HasAbortMarker(log, t); }
    forall x, m | x in log'.batches && x.kind == Transactional && NextMarker(log', x, m)
      ensures x in log.batches && NextMarker(log, x, m)
    {
      assert m in log.batches;
    }
    forall x | x in log'.batches && x.kind == Transactional && !InOpen(log', x)
      ensures exists m :: NextMarker(log', x, m)
    {
      var m :| NextMarker(log, x, m);
      assert NextMarker(log', x, m);
    }
  }

  lemma EndKeepsIndexValid(log: Log, op: Op)
    requires Valid(log) && op.End?
    ensures BatchesValid(Apply(log, op)) && AbortedValid(Apply(log, op)) && OpenValid(Apply(log, op))
  {
    var log' := Apply(log, op);
    var m := Batch(log.end, log.end, op.producer, Marker(op.commit), {});
    assert log'.batches == log.batches + {m};
    assert forall x :: x in log.batches ==> x.last < m.first;
    forall t | t in log'.aborted
      ensures HasAbortMarker(log', t)
    {
      if t in log.aborted { assert HasAbortMarker(log, t); } else { assert m in log'.batches && m.kind == Marker(false); }
    }
  }

  /** A marker decides exactly the batches of the transaction it ends. */
  lemma EndDecides(log: Log, op: Op, x: Batch, n: Batch)
    requires Valid(log) && op.End? && x in log.batches && x.kind == Transactional
    requires NextMarker(Apply(log, op), x, n)
    ensures n in log.batches ==> NextMarker(log, x, n)
    ensures n !in log.batches ==> x.producer == op.producer && n.kind == Marker(op.commit) && n.first == log.end && InOpen(log, x)
  {
    var log' := Apply(log, op);
    assert forall y :: NextMarker(log, x, y) ==> y in log'.batches && y.first < log.end;
  }

  lemma EndKeepsValid(log: Log, op: Op)
    requires Valid(log) && op.End?
    ensures Valid(Apply(log, op))
  {
    var log' := Apply(log, op);
    var m := Batch(log.end, log.end, op.producer, Marker(op.commit), {});
    EndKeepsIndexValid(log, op);
    forall x | x in log'.batches && x.kind == Transactional && !InOpen(log', x)
      ensures exists n :: NextMarker(log', x, n)
    {
      if InOpen(log, x) {
        assert NextMarker(log', x, m);
      } else {
        var y :| NextMarker(log, x, y);
        assert NextMarker(log', x, y);
      }
    }
    forall x, n | x in log'.batches && x.kind == Transactional && NextMarker(log', x, n) && !n.kind.commit
      ensures InAborted(log', x)
    {
      EndDecides(log, op, x, n);
      if n in log.batches {
        var t :| t in log.aborted && Covers(t, x);
        assert t in log'.aborted;
      } else {
        var t := AbortedTxn(op.producer, log.open[op.producer], log.end);
        assert t in log'.aborted && Covers(t, x);
      }
    }
  }

  predicate IsCompaction(op: Op) { op.Compact? || op.Drop? }

  /** Thinning or dropping data changes no marker, so it decides nothing. */
  lemma CompactionKeepsMarkers(log: Log, op: Op)
    requires IsCompaction(op) && OpLegal(log, op)
    ensures forall x: Batch :: x.kind.Marker? ==> (x in Apply(log, op).batches <==> x in log.batches)
    ensures forall x :: x in Apply(log, op).batches ==> WasThere(log, x)
  {
    forall x | x in Apply(log, op).batches ensures WasThere(log, x) {
      if op.Compact? && x == op.b.(records := op.kept) { assert op.b.(records := x.records) == x; }
      else { assert x in log.batches && x.(records := x.records) == x; }
    }
  }

  lemma CompactionKeepsIndexValid(log: Log, op: Op)
    requires Valid(log) && IsCompaction(op) && OpLegal(log, op)
    ensures AbortedValid(Apply(log, op)) && OpenValid(Apply(log, op))
  {
    var log' := Apply(log, op);
    CompactionKeepsMarkers(log, op);
    forall t | t in log'.aborted ensures HasAbortMarker(log', t) { assert HasAbortMarker(log, t); }
    forall first | Begins(log, first) ensures Begins(log', first) {
      forall b | b in log'.batches ensures !(b.first < first <= b.last) { assert WasThere(log, b); }
    }
  }

  lemma CompactionKeepsBatchesValid(log: Log, op: Op)
    requires Valid(log) && IsCompaction(op) && OpLegal(log, op)
    ensures BatchesValid(Apply(log, op))
  {
  }

  lemma SameMarkersDecide(a: Log, b: Log, x: Batch, y: Batch, m: Batch)
    requires forall z: Batch :: z.kind.Marker? ==> (z in a.batches <==> z in b.batches)
    requires x.last == y.last && x.producer == y.producer
    ensures NextMarker(a, x, m) <==> NextMarker(b, y, m)
  {
  }

  lemma CompactionKeepsTransactions(log: Log, log': Log, x: Batch)
    requires Valid(log) && log'.aborted == log.aborted && log'.open == log.open
    requires forall z: Batch :: z.kind.Marker? ==> (z in log.batches <==> z in log'.batches)
    requires WasThere(log, x) && x.kind == Transactional
    ensures !InOpen(log', x) ==> exists m :: NextMarker(log', x, m)
    ensures forall m :: NextMarker(log', x, m) && !m.kind.commit ==> InAborted(log', x)
  {
    var y :| y in log.batches && y.(records := x.records) == x && x.records <= y.records;
    if !InOpen(log', x) {
      assert !InOpen(log, y);
      var m :| NextMarker(log, y, m);
      SameMarkersDecide(log, log', y, x, m);
    }
    forall m | NextMarker(log', x, m) && !m.kind.commit ensures InAborted(log', x) {
      SameMarkersDecide(log, log', y, x, m);
      assert InAborted(log, y);
      var t :| t in log.aborted && Covers(t, y);
      assert Covers(t, x);
    }
  }

  lemma CompactionKeepsValid(log: Log, op: Op)
    requires Valid(log) && IsCompaction(op) && OpLegal(log, op)
    ensures Valid(Apply(log, op))
  {
    CompactionKeepsBatchesValid(log, op);
    CompactionKeepsIndexValid(log, op);
    CompactionKeepsMarkers(log, op);
    forall x | x in Apply(log, op).batches && x.kind == Transactional
      ensures !InOpen(Apply(log, op), x) ==> exists m :: NextMarker(Apply(log, op), x, m)
      ensures forall m :: NextMarker(Apply(log, op), x, m) && !m.kind.commit ==> InAborted(Apply(log, op), x)
    {
      CompactionKeepsTransactions(log, Apply(log, op), x);
    }
  }

  lemma OpKeepsValid(log: Log, op: Op)
    requires Valid(log) && OpLegal(log, op)
    ensures Valid(Apply(log, op))
  {
    match op {
      case Append(_, _, _) => AppendKeepsValid(log, op);
      case End(_, _) => EndKeepsValid(log, op);
      case Compact(_, _) => CompactionKeepsValid(log, op);
      case Drop(_) => CompactionKeepsValid(log, op);
    }
  }

  predicate OpsLegal(log: Log, ops: seq<Op>)
    decreases |ops|
  {
    ops == [] || (OpLegal(log, ops[0]) && OpsLegal(Apply(log, ops[0]), ops[1..]))
  }

  function ApplyAll(log: Log, ops: seq<Op>): Log
    requires OpsLegal(log, ops)
    decreases |ops|
  {
    if ops == [] then log else ApplyAll(Apply(log, ops[0]), ops[1..])
  }

  /** Any sequence of appends, commits, aborts and compactions keeps a log valid and only grows it. */
  lemma {:induction false} OpsGrow(log: Log, ops: seq<Op>)
    requires Valid(log) && OpsLegal(log, ops)
    ensures Valid(ApplyAll(log, ops)) && Grows(log, ApplyAll(log, ops))
    decreases |ops|
  {
    if ops == [] {
      GrowsIsReflexive(log);
    } else {
      var next := Apply(log, ops[0]);
      OpKeepsValid(log, ops[0]);
      OpGrows(log, ops[0]);
      OpsGrow(next, ops[1..]);
      GrowsIsTransitive(log, next, ApplyAll(next, ops[1..]));
    }
  }

  /** So every log that grew from a new partition is valid. */
  lemma ReachableLogIsValid(ops: seq<Op>)
    requires OpsLegal(Log({}, {}, map[], 0), ops)
    ensures Valid(ApplyAll(Log({}, {}, map[], 0), ops))
  {
    OpsGrow(Log({}, {}, map[], 0), ops);
  }

  // ---------------------------------------------------------------- empty ranges

  predicate Overlaps(b: Batch, from: int, to: int) { from <= b.last && b.first < to }

  /** Nothing in the range is delivered or may yet be: every batch that touches it is a marker or
      part of an aborted transaction, and no transaction is open below its end. */
  ghost predicate NothingIn(log: Log, from: int, to: int) {
    Settled(log, to) && forall b :: b in log.batches && Overlaps(b, from, to) ==> b.kind.Marker? || IsAborted(log, b)
  }

  lemma NothingIsDelivered(log: Log, from: int, to: int, offset: int)
    requires Valid(log) && NothingIn(log, from, to) && from <= offset < to
    ensures !Delivered(log, offset)
  {
    forall b | b in log.batches && offset in b.records
      ensures !IsCommitted(log, b)
    {
      assert Overlaps(b, from, to);
      AbortedIsNotCommitted(log, b);
    }
  }

  /** Once nothing is in a range, nothing ever will be, whatever is appended, committed, aborted or
      compacted later. */
  lemma NothingStaysNothing(a: Log, b: Log, from: int, to: int)
    requires Valid(a) && Valid(b) && Grows(a, b) && NothingIn(a, from, to)
    ensures NothingIn(b, from, to)
  {
    SettledStaysSettled(a, b, to);
    forall x | x in b.batches && Overlaps(x, from, to) && !x.kind.Marker?
      ensures IsAborted(b, x)
    {
      assert WasThere(a, x);
      var y :| y in a.batches && y.(records := x.records) == x && x.records <= y.records;
      assert Overlaps(y, from, to) && IsAborted(a, y);
      var m :| NextMarker(a, y, m) && !m.kind.commit;
      assert InAborted(a, y);
      var t :| t in a.aborted && Covers(t, y);
      assert t in b.aborted && Covers(t, x);
      InAbortedIsAborted(b, x);
    }
  }
}
