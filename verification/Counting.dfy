/** Sums of differences of offsets as what they stand for: how many records there are. */
module Counting {

  /** The offsets of one partition from one up to, but not including, another. */
  datatype Range = Range(from: int, to: int)

  /** One offset of one partition of one topic, the topic by its place in a list. */
  datatype Record = Record(topic: nat, partition: nat, offset: int)

  function Width(r: Range): nat { if r.from < r.to then r.to - r.from else 0 }

  function Sum(ranges: seq<Range>): nat {
    if ranges == [] then 0 else Sum(ranges[..|ranges| - 1]) + Width(ranges[|ranges| - 1])
  }

  function Total(topics: seq<seq<Range>>): nat {
    if topics == [] then 0 else Total(topics[..|topics| - 1]) + Sum(topics[|topics| - 1])
  }

  predicate InRange(ranges: seq<Range>, p: nat, offset: int) {
    p < |ranges| && ranges[p].from <= offset < ranges[p].to
  }

  predicate InRanges(topics: seq<seq<Range>>, x: Record) {
    x.topic < |topics| && InRange(topics[x.topic], x.partition, x.offset)
  }

  lemma {:induction false} CountRange(t: nat, p: nat, r: Range) returns (s: set<Record>)
    ensures |s| == Width(r)
    ensures forall x :: x in s <==> x.topic == t && x.partition == p && r.from <= x.offset < r.to
    decreases Width(r)
  {
    if r.from < r.to {
      var rest := CountRange(t, p, Range(r.from, r.to - 1));
      s := rest + {Record(t, p, r.to - 1)};
    } else {
      s := {};
    }
  }

  lemma {:induction false} CountRanges(t: nat, ranges: seq<Range>) returns (s: set<Record>)
    ensures |s| == Sum(ranges)
    ensures forall x :: x in s <==> x.topic == t && InRange(ranges, x.partition, x.offset)
    decreases |ranges|
  {
    if ranges == [] {
      s := {};
    } else {
      var n := |ranges| - 1;
      var front := CountRanges(t, ranges[..n]);
      var last := CountRange(t, n, ranges[n]);
      assert front !! last;
      s := front + last;
    }
  }

  /** The total is the number of records in the ranges. */
  lemma {:induction false} CountAll(topics: seq<seq<Range>>) returns (s: set<Record>)
    ensures |s| == Total(topics)
    ensures forall x :: x in s <==> InRanges(topics, x)
    decreases |topics|
  {
    if topics == [] {
      s := {};
    } else {
      var n := |topics| - 1;
      var front := CountAll(topics[..n]);
      var last := CountRanges(n, topics[n]);
      assert front !! last;
      s := front + last;
    }
  }
}
