/** Instants and durations, in nanoseconds. An instant counts from Go's zero time, so 0 is the
    zero time that marks an unset field. */
module Clock {

  type Time = int
  type Duration = int

  const SECOND := 1_000_000_000
  const MILLISECOND := 1_000_000

  /** Milliseconds between the zero time and the Unix epoch. */
  const EPOCH_MILLIS := 62_135_596_800_000

  /** What is left of an instant once it has been written as RFC 3339 without fractions. */
  function WholeSeconds(t: Time): (r: Time)
    ensures r <= t < r + SECOND && r % SECOND == 0
    ensures t == 0 ==> r == 0
  {
    t - t % SECOND
  }

  function UnixMilli(t: Time): (r: int)
    ensures (r + EPOCH_MILLIS) * MILLISECOND <= t < (r + EPOCH_MILLIS + 1) * MILLISECOND
  {
    t / MILLISECOND - EPOCH_MILLIS
  }

  /** Truncating twice loses no more than truncating once, and truncation keeps order: an instant
      that survived one save is not eroded by the next. */
  lemma WholeSecondsKeepsOrder(s: Time, t: Time)
    requires WholeSeconds(s) <= t
    ensures WholeSeconds(s) <= WholeSeconds(t)
  {
  }

  lemma WholeSecondsTwice(t: Time)
    ensures WholeSeconds(WholeSeconds(t)) == WholeSeconds(t)
  {
  }

  /** The first instant of the next millisecond, before which no other tick comes. */
  function NextTick(t: Time): (r: Time)
    ensures t < r && UnixMilli(r) == UnixMilli(t) + 1
  {
    (UnixMilli(t) + EPOCH_MILLIS + 1) * MILLISECOND
  }

  lemma NextTickIsFirst(t: Time, later: Time)
    requires UnixMilli(t) < UnixMilli(later)
    ensures NextTick(t) <= later
  {
  }

  lemma LaterMilliIsLater(s: Time, t: Time)
    requires UnixMilli(s) < UnixMilli(t)
    ensures s < t
  {
  }
}
