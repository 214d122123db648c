/** What a tick can observe: offsets are known only with at least one partition, and are remembered as
    the snapshot of their end offsets. */
module Observing {
  import opened Memory
  import opened JobGate
  import opened Decider
  import Snapshots

  /** An observation the probe can make. */
  ghost predicate Observed(obs: Observation) {
    obs.known ==> obs.ends != map[] && Snapshots.WellFormed(obs.ends) && obs.snapshot == Snapshots.SnapshotOf(obs.ends)
  }

  const NO_READING := JobReading(map[], 0, map[])

  function KnownEnds(ends: Ends): Observation {
    Observation(Snapshots.SnapshotOf(ends), true, 0, false, false, ends, NO_READING, false, "", "", false)
  }

  function Orders(offset: int): Ends { map["orders" := [offset]] }

  /** One topic with one partition, and its end offset. */
  function Seeing(offset: int): Observation { KnownEnds(Orders(offset)) }

  lemma SeeingIsObserved(offset: int)
    requires Snapshots.In64(offset)
    ensures Observed(Seeing(offset)) && Seeing(offset).known && !Seeing(offset).unlearned
  {
    assert "orders" in Orders(offset);
  }

  lemma SeeingTellsApart(a: int, b: int)
    requires Snapshots.In64(a) && Snapshots.In64(b)
    ensures Seeing(a).snapshot == Seeing(b).snapshot <==> a == b
  {
    assert Orders(a)["orders"] == [a] && Orders(b)["orders"] == [b];
    Snapshots.EqualSnapshotsMeanEqualEnds(Orders(a), Orders(b));
  }

  lemma SeeingGrows(a: int, b: int)
    requires a <= b
    ensures Snapshots.Grew(Orders(a), Orders(b))
  {
  }

  /** Offsets other than the remembered ones. */
  function Unlike(snapshot: Snapshot): Observation {
    if Seeing(0).snapshot != snapshot then Seeing(0) else Seeing(1)
  }

  lemma UnlikeIsObserved(snapshot: Snapshot)
    ensures Observed(Unlike(snapshot)) && Unlike(snapshot).known && !Unlike(snapshot).unlearned
    ensures Unlike(snapshot).snapshot != snapshot
  {
    SeeingIsObserved(0);
    SeeingIsObserved(1);
    SeeingTellsApart(0, 1);
  }
}
