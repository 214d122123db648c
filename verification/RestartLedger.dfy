/** Every restart the controller issues is counted once: a ledger of the restarts that landed on the
    object against the ones memory's budget has taken into account, through lost saves. */
module RestartLedger {
  import opened Clock
  import opened Budget
  import opened Memory
  import opened Decider
  import opened DecisionFacts
  import opened Tick
  import opened Reconciling

  /** A restart whose patch landed: the nonce it wrote, and when. */
  datatype Issue = Issue(nonce: int, at: Time)

  /** A restart the budget has counted: which one, when it was issued, the window it was attributed
      to, and its number within that window. */
  datatype Entry = Entry(nonce: int, at: Time, window: Time, rank: nat)

  /** clock is the last tick's instant and millis the same instant as a nonce would have it. */
  datatype Books = Books(issued: seq<Issue>, counted: seq<Entry>, clock: Time, millis: int)

  /** The budget restarts are counted on from here. Without memory, the object's nonce is the baseline;
      a job remembered as unrecoverable is only restarted once an edit has emptied its budget. */
  function BudgetOf(w: Cluster): RestartBudget {
    if w.mem.None? then Fresh(w.obj.nonce)
    else if w.mem.value.phase == Unrecoverable then Fresh(w.mem.value.restarts.lastNonce)
    else w.mem.value.restarts
  }

  /** The books after an event. They only watch the object's nonce and memory's budget: a new nonce
      on the object is a restart issued, a new nonce in memory is the oldest uncounted restart
      counted. */
  function BookedBetween(w: Cluster, w': Cluster, now: Time, millis: int, b: Books): Books {
    var issued := if w'.obj.nonce != w.obj.nonce then b.issued + [Issue(w'.obj.nonce, now)] else b.issued;
    var counted :=
      if w'.mem.Some? && w'.mem.value.restarts.lastNonce != BudgetOf(w).lastNonce && |b.counted| < |issued|
      then
        var r := w'.mem.value.restarts;
        b.counted + [Entry(r.lastNonce, issued[|b.counted|].at, r.windowStart, r.count)]
      else b.counted;
    Books(issued, counted, now, millis)
  }

  function Booked(c: Config, w: Cluster, e: Event, b: Books): Books {
    if e.Reconcile? then BookedBetween(w, After(c, w, e), e.now, UnixMilli(e.now), b) else b
  }

  /** The conditions on the surroundings: nobody else writes the nonce, memory is not deleted, the
      policy stays, and ticks are at least a millisecond apart. */
  predicate Timely(w: Cluster, e: Event, clock: Time) {
    match e
    case Reconcile(seen, now, obs, outcome) =>
      seen.nonce == w.obj.nonce && seen.policy.Some? && now > 0 && UnixMilli(now) > UnixMilli(clock)
    case Others(o) => o.nonce == w.obj.nonce
    case Forget => false
  }

  predicate LosesRestart(c: Config, w: Cluster, e: Event) {
    e.Reconcile? && e.outcome == SaveLost && After(c, w, e).obj.nonce != w.obj.nonce
  }

  /** A restart issued at an instant, and counted no earlier than another, finds room in the budget: the
      window is over by then, or is not full and the doubled backoff has passed since its first restart. */
  predicate HasRoom(c: Config, counted: seq<Entry>, r: RestartBudget, at: Time, from: Time) {
    var n := Rolled(r, from, c.window).count;
    n < c.maxRestarts
    && (n > 0 ==> n <= |counted| && at - counted[|counted| - n].at >= Backoff(c.baseBackoff, n) - c.baseBackoff)
  }

  /** There is a memory to count a lost restart, and it will find room. */
  predicate WillCount(c: Config, w: Cluster, b: Books, now: Time) {
    w.mem.Some? && HasRoom(c, b.counted, BudgetOf(w), now, NextTick(now))
  }

  predicate Orderly(c: Config, w: Cluster, e: Event, b: Books) {
    Timely(w, e, b.clock) && (LosesRestart(c, w, e) ==> WillCount(c, w, b, e.now))
  }

  predicate OrderlyRun(c: Config, w: Cluster, events: seq<Event>, b: Books)
    decreases |events|
  {
    events != [] ==>
      && Orderly(c, w, events[0], b)
      && OrderlyRun(c, After(c, w, events[0]), events[1..], Booked(c, w, events[0], b))
  }

  function FinalBooks(c: Config, w: Cluster, events: seq<Event>, b: Books): Books
    decreases |events|
  {
    if events == [] then b
    else FinalBooks(c, After(c, w, events[0]), events[1..], Booked(c, w, events[0], b))
  }

  predicate Configured(c: Config) {
    c.baseBackoff > 0 && c.window >= 0
  }

  predicate Allowed(c: Config, b: RestartBudget, t: Time) {
    !Exhausted(b, t, c.maxRestarts, c.window) && !InBackoff(b, t, c.window)
  }

  predicate Missing(b: Books) { |b.issued| == |b.counted| + 1 }

  /** The n-th restart of a window came at least base * (2^(n-1) - 1) after the first. */
  predicate Spread(c: Config, counted: seq<Entry>, i: nat)
    requires i < |counted|
  {
    var n := counted[i].rank;
    && 1 <= n <= i + 1
    && counted[i + 1 - n].rank == 1 && counted[i + 1 - n].window == counted[i].window
    && counted[i].at - counted[i + 1 - n].at >= Backoff(c.baseBackoff, n - 1) - c.baseBackoff
  }

  /** Within a window, ranks count up to the maximum and restarts are spread; a first rank opens a
      window later than all before it. */
  predicate EntryFits(c: Config, counted: seq<Entry>, i: nat)
    requires i < |counted|
  {
    var e := counted[i];
    && 1 <= e.rank <= c.maxRestarts && e.window > 0
    && (e.rank == 1 ==> forall j :: 0 <= j < i ==> counted[j].window < e.window)
    && (e.rank > 1 ==> i > 0 && counted[i - 1].window == e.window && counted[i - 1].rank == e.rank - 1)
    && Spread(c, counted, i)
  }

  /** Memory's budget is the last entry's: same window, same number, and a backoff that runs at
      least from when that restart was issued. */
  predicate BudgetFits(c: Config, counted: seq<Entry>, b: RestartBudget) {
    if b.count == 0 then b.windowStart == 0 && b.nextAfter == 0
    else
      && counted != []
      && var last := counted[|counted| - 1];
         && last.window == b.windowStart && last.rank == b.count
         && b.nextAfter >= last.at + Backoff(c.baseBackoff, b.count - 1)
  }

  predicate FitsBy(c: Config, counted: seq<Entry>, i: nat, clock: Time)
    requires i < |counted|
  {
    EntryFits(c, counted, i) && counted[i].window <= clock
  }

  predicate AllFit(c: Config, counted: seq<Entry>, clock: Time) {
    forall i :: 0 <= i < |counted| ==> FitsBy(c, counted, i, clock)
  }

  lemma AllFitLater(c: Config, counted: seq<Entry>, clock: Time, now: Time)
    requires AllFit(c, counted, clock) && clock <= now
    ensures AllFit(c, counted, now)
  {
    forall i | 0 <= i < |counted| ensures FitsBy(c, counted, i, now) {
      assert FitsBy(c, counted, i, clock);
    }
  }

  predicate SameRestarts(counted: seq<Entry>, issued: seq<Issue>) {
    && |counted| <= |issued|
    && forall i :: 0 <= i < |counted| ==> counted[i].nonce == issued[i].nonce && counted[i].at == issued[i].at
  }

  predicate IssuedBy(issued: seq<Issue>, clock: Time) {
    forall i :: 0 <= i < |issued| ==> 0 < issued[i].at <= clock
  }

  ghost predicate Balanced(c: Config, w: Cluster, b: Books) {
    && |b.counted| <= |b.issued| <= |b.counted| + 1
    && SameRestarts(b.counted, b.issued)
    && AllFit(c, b.counted, b.clock)
    && IssuedBy(b.issued, b.clock)
    && BudgetOf(w).lastNonce <= w.obj.nonce <= b.millis
    && (Missing(b) <==> w.obj.nonce > BudgetOf(w).lastNonce)
    && (Missing(b) ==>
          && b.issued[|b.counted|].nonce == w.obj.nonce
          && HasRoom(c, b.counted, BudgetOf(w), b.issued[|b.counted|].at, NextTick(b.clock)))
    && BudgetFits(c, b.counted, BudgetOf(w))
  }

  lemma EntryStillFits(c: Config, counted: seq<Entry>, e: Entry, i: nat)
    requires i < |counted| && EntryFits(c, counted, i)
    ensures EntryFits(c, counted + [e], i)
  {
    var more := counted + [e];
    assert forall j :: 0 <= j <= i ==> more[j] == counted[j];
  }

  lemma EntriesStillFit(c: Config, counted: seq<Entry>, clock: Time, now: Time, e: Entry)
    requires AllFit(c, counted, clock) && clock <= now
    requires EntryFits(c, counted + [e], |counted|) && e.window <= now
    ensures AllFit(c, counted + [e], now)
  {
    forall i | 0 <= i < |counted + [e]| ensures FitsBy(c, counted + [e], i, now) {
      if i < |counted| {
        assert FitsBy(c, counted, i, clock);
        EntryStillFits(c, counted, e, i);
      }
    }
  }

  /** Time only gives room. */
  lemma RoomStays(c: Config, counted: seq<Entry>, r: RestartBudget, at: Time, from: Time, later: Time)
    requires HasRoom(c, counted, r, at, from) && from <= later
    ensures HasRoom(c, counted, r, at, later)
  {
  }

  lemma EmptyHasRoom(c: Config, counted: seq<Entry>, nonce: int, at: Time, from: Time)
    requires c.maxRestarts > 0
    ensures HasRoom(c, counted, Fresh(nonce), at, from)
  {
  }

  /** How the last entry and the first of its window stand to the budget. */
  lemma LastOfWindow(c: Config, counted: seq<Entry>, r: RestartBudget, clock: Time)
    requires BudgetFits(c, counted, r) && AllFit(c, counted, clock) && r.count > 0
    ensures r.count <= |counted|
    ensures var last, first := counted[|counted| - 1].at, counted[|counted| - r.count].at;
      last - first >= Backoff(c.baseBackoff, r.count - 1) - c.baseBackoff
      && r.nextAfter >= last + Backoff(c.baseBackoff, r.count - 1)
  {
    assert FitsBy(c, counted, |counted| - 1, clock);
  }

  /** A restart that the budget allows has room in it. */
  lemma AllowedHasRoom(c: Config, counted: seq<Entry>, r: RestartBudget, now: Time)
    requires c.baseBackoff > 0 && Allowed(c, r, now)
    requires r.count > 0 ==>
      && r.count <= |counted|
      && var last, first := counted[|counted| - 1].at, counted[|counted| - r.count].at;
         && 0 < last && last - first >= Backoff(c.baseBackoff, r.count - 1) - c.baseBackoff
         && r.nextAfter >= last + Backoff(c.baseBackoff, r.count - 1)
    ensures HasRoom(c, counted, r, now, now)
  {
    var n := Rolled(r, now, c.window).count;
    if n > 0 {
      assert Rolled(r, now, c.window) == r;
      assert now >= r.nextAfter;
    }
  }

  lemma NewEntryFits(c: Config, counted: seq<Entry>, r: RestartBudget, at: Time, now: Time, clock: Time, nonce: int)
    requires Configured(c) && 0 < now && clock < now
    requires BudgetFits(c, counted, r) && HasRoom(c, counted, r, at, now) && AllFit(c, counted, clock)
    ensures var r' := Consume(r, now, c.window, c.baseBackoff);
      EntryFits(c, counted + [Entry(nonce, at, r'.windowStart, r'.count)], |counted|) && r'.windowStart <= now
  {
    var r', rolled := Consume(r, now, c.window, c.baseBackoff), Rolled(r, now, c.window);
    if rolled.count > 0 {
      assert rolled == r;
      assert FitsBy(c, counted, |counted| - 1, clock);
    } else {
      assert r'.windowStart == now && r'.count == 1;
      forall j | 0 <= j < |counted| ensures counted[j].window < now {
        assert FitsBy(c, counted, j, clock);
      }
    }
  }

  lemma NewBudgetFits(c: Config, counted: seq<Entry>, r: RestartBudget, at: Time, now: Time, nonce: int)
    requires 0 < now && at <= now
    ensures var r' := Consume(r, now, c.window, c.baseBackoff);
      BudgetFits(c, counted + [Entry(nonce, at, r'.windowStart, r'.count)], r')
  {
  }

  /** Counting one more restart that has room. */
  lemma CountOneMore(c: Config, counted: seq<Entry>, r: RestartBudget, at: Time, now: Time, clock: Time, nonce: int)
    requires Configured(c) && 0 < now && at <= now && clock < now
    requires BudgetFits(c, counted, r) && HasRoom(c, counted, r, at, now) && AllFit(c, counted, clock)
    ensures var r' := Consume(r, now, c.window, c.baseBackoff);
      var more := counted + [Entry(nonce, at, r'.windowStart, r'.count)];
      AllFit(c, more, now) && BudgetFits(c, more, r')
  {
    var r' := Consume(r, now, c.window, c.baseBackoff);
    NewEntryFits(c, counted, r, at, now, clock, nonce);
    EntriesStillFit(c, counted, clock, now, Entry(nonce, at, r'.windowStart, r'.count));
    NewBudgetFits(c, counted, r, at, now, nonce);
  }

  /** A tick that counts a restart is in backoff, so a tick that restarts had none to count. */
  lemma NoneLeftToCount(c: Config, before: State, live: Live, now: Time, d: Decision)
    requires Configured(c) && BudgetDiscipline(c, before, live, now, d) && now > 0
    ensures d.action == Restart ==>
      live.nonce <= StartBudget(before, live).lastNonce && CaughtUpBudget(c, before, live, now) == StartBudget(before, live)
  {
    ConsumedIsInBackoff(StartBudget(before, live), now, c.window, c.baseBackoff);
  }

  /** What memory holds after a tick that counted a restart with this nonce, on a given budget. */
  ghost predicate Counts(c: Config, w': Cluster, from: RestartBudget, now: Time, nonce: int) {
    && w'.mem.Some? && w'.mem.value.restarts == Consume(from, now, c.window, c.baseBackoff).(lastNonce := nonce)
  }

  /** How a tick may move the two nonces and the budget. */
  ghost predicate Moves(c: Config, w: Cluster, w': Cluster, now: Time, outcome: Outcome) {
    var r, r', emptied := BudgetOf(w), BudgetOf(w'), Fresh(BudgetOf(w).lastNonce);
    && (w'.obj.nonce != w.obj.nonce ==> w'.obj.nonce == UnixMilli(now) && w.obj.nonce <= r.lastNonce && c.maxRestarts > 0)
    && (|| (r' == r && (w'.mem.Some? ==> w'.mem.value.restarts.lastNonce == r.lastNonce)
            && (w'.obj.nonce != w.obj.nonce ==> outcome == SaveLost && w.mem.Some?))
        || (r' == emptied && w'.mem.Some? && w'.mem.value.restarts.lastNonce == r.lastNonce && w'.obj.nonce == w.obj.nonce)
        || (w'.obj.nonce == w.obj.nonce && w.obj.nonce > r.lastNonce
            && (Counts(c, w', r, now, w.obj.nonce) || Counts(c, w', emptied, now, w.obj.nonce)))
        || (w'.obj.nonce == UnixMilli(now) && outcome == Saved && w'.mem.Some? && w'.mem.value.phase == Active
            && ((Allowed(c, r, now) && Counts(c, w', r, now, w'.obj.nonce))
                || (Allowed(c, emptied, now) && Counts(c, w', emptied, now, w'.obj.nonce))))
        || (w.mem.None? && w'.mem.None? && w'.obj.nonce != w.obj.nonce && outcome == SaveLost))
  }

  lemma WrittenMovesBudget(c: Config, w: Cluster, w': Cluster, before: State, live: Live, d: Decision, now: Time, outcome: Outcome)
    requires Configured(c) && now > 0 && live.nonce == w.obj.nonce
    requires before.restarts == if w.mem.Some? then w.mem.value.restarts else Fresh(w.obj.nonce)
    requires w.mem.Some? && w.mem.value.phase == Unrecoverable ==> before.phase == Unrecoverable
    requires BudgetDiscipline(c, before, live, now, d) && Written(w, w', before, d, outcome)
    requires w'.obj.nonce != w.obj.nonce && outcome == Saved ==> w'.mem == Some(Persisted(d.next))
    ensures Moves(c, w, w', now, outcome)
  {
    NoneLeftToCount(c, before, live, now, d);
  }

  lemma RefusalMovesBudget(c: Config, w: Cluster, w': Cluster, before: State, d: Decision, now: Time, outcome: Outcome)
    requires before.restarts == if w.mem.Some? then w.mem.value.restarts else Fresh(w.obj.nonce)
    requires w.mem.Some? && w.mem.value.phase == Unrecoverable ==> before.phase == Unrecoverable
    requires d.action == Nothing && d.next.restarts == before.restarts && d.next.phase == before.phase
    requires Written(w, w', before, d, outcome)
    ensures Moves(c, w, w', now, outcome)
  {
  }

  lemma TickMovesBudget(c: Config, w: Cluster, e: Event, clock: Time)
    requires Configured(c) && e.Reconcile? && Legal(c, w, e) && Timely(w, e, clock)
    ensures Moves(c, w, After(c, w, e), e.now, e.outcome)
  {
    var before, live := Loaded(w.mem, e.seen, e.now), LiveOf(e.seen);
    VerdictIsWritten(c, w, e);
    if Decides(e.seen) {
      DecisionKeepsBudgetDiscipline(c, e.seen.policy.value, before, live, e.obs, e.now);
      WrittenMovesBudget(c, w, After(c, w, e), before, live, Verdict(c, w, e), e.now, e.outcome);
    } else {
      RefusalMovesBudget(c, w, After(c, w, e), before, Verdict(c, w, e), e.now, e.outcome);
    }
  }

  lemma OneMoreIssued(b: Books, issue: Issue)
    requires SameRestarts(b.counted, b.issued) && IssuedBy(b.issued, b.clock) && 0 < issue.at && b.clock < issue.at
    ensures SameRestarts(b.counted, b.issued + [issue]) && IssuedBy(b.issued + [issue], issue.at)
  {
  }

  lemma OneMoreIsSame(counted: seq<Entry>, issued: seq<Issue>, e: Entry)
    requires SameRestarts(counted, issued) && |counted| < |issued|
    requires e.nonce == issued[|counted|].nonce && e.at == issued[|counted|].at
    ensures SameRestarts(counted + [e], issued)
  {
  }

  /** The books with one more entry for a restart that has been issued. */
  lemma EntryBalances(c: Config, counted: seq<Entry>, issued: seq<Issue>, from: RestartBudget, now: Time, clock: Time)
    requires Configured(c) && 0 < now && clock < now && |issued| == |counted| + 1
    requires SameRestarts(counted, issued) && AllFit(c, counted, clock) && IssuedBy(issued, now)
    requires BudgetFits(c, counted, from) && HasRoom(c, counted, from, issued[|counted|].at, now)
    ensures var r, issue := Consume(from, now, c.window, c.baseBackoff), issued[|counted|];
      var more := counted + [Entry(issue.nonce, issue.at, r.windowStart, r.count)];
      SameRestarts(more, issued) && AllFit(c, more, now) && BudgetFits(c, more, r.(lastNonce := issue.nonce))
  {
    var r, issue := Consume(from, now, c.window, c.baseBackoff), issued[|counted|];
    CountOneMore(c, counted, from, issue.at, now, clock, issue.nonce);
    OneMoreIsSame(counted, issued, Entry(issue.nonce, issue.at, r.windowStart, r.count));
  }

  lemma AllCountedIsBalanced(c: Config, w: Cluster, counted: seq<Entry>, issued: seq<Issue>, now: Time, millis: int)
    requires |counted| == |issued| && w.obj.nonce == BudgetOf(w).lastNonce <= millis
    requires SameRestarts(counted, issued) && AllFit(c, counted, now) && IssuedBy(issued, now)
    requires w.mem.Some? && BudgetFits(c, counted, w.mem.value.restarts)
    ensures Balanced(c, w, Books(issued, counted, now, millis))
  {
  }

  /** The balance after a tick that counted a restart whose own save had been lost, from memory's
      budget or from one that a spec edit emptied. */
  lemma CatchingUpKeepsBalance(c: Config, w: Cluster, w': Cluster, now: Time, millis: int, b: Books, from: RestartBudget)
    requires Configured(c) && Balanced(c, w, b) && now > 0 && NextTick(b.clock) <= now && b.millis < millis
    requires BudgetFits(c, b.counted, from) && Missing(b) && w'.obj.nonce == w.obj.nonce
    requires Counts(c, w', from, now, w'.obj.nonce) && from in {BudgetOf(w), Fresh(BudgetOf(w).lastNonce)}
    ensures Balanced(c, w', BookedBetween(w, w', now, millis, b))
  {
    var r, at := w'.mem.value.restarts, b.issued[|b.counted|].at;
    RoomStays(c, b.counted, BudgetOf(w), at, NextTick(b.clock), now);
    EmptyHasRoom(c, b.counted, BudgetOf(w).lastNonce, at, now);
    EntryBalances(c, b.counted, b.issued, from, now, b.clock);
    AllCountedIsBalanced(c, w', b.counted + [Entry(w'.obj.nonce, at, r.windowStart, r.count)], b.issued, now, millis);
  }

  /** The balance after a tick that issued a restart and saved it. */
  lemma RestartingKeepsBalance(c: Config, w: Cluster, w': Cluster, now: Time, millis: int, b: Books, from: RestartBudget)
    requires Configured(c) && Balanced(c, w, b) && now > 0 && b.clock < now && b.millis < millis
    requires BudgetFits(c, b.counted, from) && !Missing(b) && w.obj.nonce < w'.obj.nonce == millis && Allowed(c, from, now)
    requires Counts(c, w', from, now, w'.obj.nonce)
    ensures Balanced(c, w', BookedBetween(w, w', now, millis, b))
  {
    var r, issue := w'.mem.value.restarts, Issue(w'.obj.nonce, now);
    BooksHaveRoom(c, b, from, now);
    OneMoreIssued(b, issue);
    EntryBalances(c, b.counted, b.issued + [issue], from, now, b.clock);
    AllCountedIsBalanced(c, w', b.counted + [Entry(issue.nonce, now, r.windowStart, r.count)], b.issued + [issue], now, millis);
  }

  lemma BooksHaveRoom(c: Config, b: Books, from: RestartBudget, now: Time)
    requires c.baseBackoff > 0 && SameRestarts(b.counted, b.issued) && IssuedBy(b.issued, b.clock) && AllFit(c, b.counted, b.clock)
    requires BudgetFits(c, b.counted, from) && Allowed(c, from, now)
    ensures HasRoom(c, b.counted, from, now, now)
  {
    LastEntryIsIssued(b);
    if from.count > 0 { LastOfWindow(c, b.counted, from, b.clock); }
    AllowedHasRoom(c, b.counted, from, now);
  }

  lemma LastEntryIsIssued(b: Books)
    requires SameRestarts(b.counted, b.issued) && IssuedBy(b.issued, b.clock)
    ensures b.counted != [] ==> 0 < b.counted[|b.counted| - 1].at
  {
  }

  /** The balance after a tick that issued and counted nothing. */
  lemma QuietKeepsBalance(c: Config, w: Cluster, w': Cluster, now: Time, millis: int, b: Books)
    requires Balanced(c, w, b) && NextTick(b.clock) <= NextTick(now) && b.clock < now && b.millis < millis
    requires w'.obj.nonce == w.obj.nonce && BudgetOf(w') in {BudgetOf(w), Fresh(BudgetOf(w).lastNonce)}
    requires w'.mem.Some? ==> w'.mem.value.restarts.lastNonce == BudgetOf(w).lastNonce
    ensures Balanced(c, w', BookedBetween(w, w', now, millis, b))
  {
    assert BookedBetween(w, w', now, millis, b) == b.(clock := now, millis := millis);
    AllFitLater(c, b.counted, b.clock, now);
    assert IssuedBy(b.issued, now);
    if Missing(b) {
      var at := b.issued[|b.counted|].at;
      RoomStays(c, b.counted, BudgetOf(w), at, NextTick(b.clock), NextTick(now));
      EmptyHasRoom(c, b.counted, BudgetOf(w).lastNonce, at, NextTick(now));
    }
  }

  /** The balance after a tick that issued a restart and lost its save. */
  lemma LosingKeepsBalance(c: Config, w: Cluster, w': Cluster, now: Time, millis: int, b: Books)
    requires Balanced(c, w, b) && now > 0 && b.clock < now && b.millis < millis
    requires w'.mem == w.mem && w.mem.Some? && w.obj.nonce <= BudgetOf(w).lastNonce && w.obj.nonce != w'.obj.nonce == millis
    requires HasRoom(c, b.counted, BudgetOf(w), now, NextTick(now))
    ensures Balanced(c, w', BookedBetween(w, w', now, millis, b))
  {
    var issue := Issue(w'.obj.nonce, now);
    OneMoreIssued(b, issue);
    assert BookedBetween(w, w', now, millis, b) == Books(b.issued + [issue], b.counted, now, millis);
    AllFitLater(c, b.counted, b.clock, now);
  }

  lemma TickKeepsBalance(c: Config, w: Cluster, e: Event, b: Books)
    requires Configured(c) && Balanced(c, w, b) && e.Reconcile? && Legal(c, w, e) && Orderly(c, w, e, b)
    requires b.millis == UnixMilli(b.clock)
    ensures Balanced(c, After(c, w, e), Booked(c, w, e, b))
  {
    TickMovesBudget(c, w, e, b.clock);
    MovesKeepBalance(c, w, After(c, w, e), e.now, e.outcome, b);
  }

  lemma MovesKeepBalance(c: Config, w: Cluster, w': Cluster, now: Time, outcome: Outcome, b: Books)
    requires Configured(c) && Balanced(c, w, b) && now > 0 && b.millis == UnixMilli(b.clock) < UnixMilli(now)
    requires Moves(c, w, w', now, outcome)
    requires outcome == SaveLost ==> w'.mem == w.mem
    requires outcome == SaveLost && w'.obj.nonce != w.obj.nonce ==> WillCount(c, w, b, now)
    ensures Balanced(c, w', BookedBetween(w, w', now, UnixMilli(now), b))
  {
    var r, r' := BudgetOf(w), BudgetOf(w');
    var emptied := Fresh(r.lastNonce);
    LaterMilliIsLater(b.clock, now);
    NextTickIsFirst(b.clock, now);
    if (r' == r || r' == emptied) && (w'.mem.Some? ==> w'.mem.value.restarts.lastNonce == r.lastNonce) {
      if w'.obj.nonce == w.obj.nonce { QuietKeepsBalance(c, w, w', now, UnixMilli(now), b); }
      else { LosingKeepsBalance(c, w, w', now, UnixMilli(now), b); }
    } else if w'.obj.nonce == w.obj.nonce {
      CatchingUpKeepsBalance(c, w, w', now, UnixMilli(now), b, if Counts(c, w', r, now, w.obj.nonce) then r else emptied);
    } else if Counts(c, w', r, now, w'.obj.nonce) && Allowed(c, r, now) {
      RestartingKeepsBalance(c, w, w', now, UnixMilli(now), b, r);
    } else {
      RestartingKeepsBalance(c, w, w', now, UnixMilli(now), b, emptied);
    }
  }

  lemma {:induction false} RunKeepsBalance(c: Config, w: Cluster, events: seq<Event>, b: Books)
    requires Configured(c) && Balanced(c, w, b) && LegalRun(c, w, events) && OrderlyRun(c, w, events, b)
    requires b.millis == UnixMilli(b.clock)
    ensures Balanced(c, Final(c, w, events), FinalBooks(c, w, events, b))
    decreases |events|
  {
    if events != [] {
      var e := events[0];
      if e.Reconcile? { TickKeepsBalance(c, w, e, b); }
      RunKeepsBalance(c, After(c, w, e), events[1..], Booked(c, w, e, b));
    }
  }

  // ---------------------------------------------------------------- what the balance means

  function InWindow(counted: seq<Entry>, window: Time): nat {
    if counted == [] then 0
    else InWindow(counted[..|counted| - 1], window) + (if counted[|counted| - 1].window == window then 1 else 0)
  }

  /** The entries of one window are consecutive, so the last one's rank is how many there are. */
  lemma {:induction false} RankIsCount(c: Config, counted: seq<Entry>, window: Time)
    requires forall i :: 0 <= i < |counted| ==> EntryFits(c, counted, i)
    ensures InWindow(counted, window) > 0 ==> InWindow(counted, window) <= c.maxRestarts
    ensures counted != [] ==> InWindow(counted, counted[|counted| - 1].window) == counted[|counted| - 1].rank
    ensures (forall i :: 0 <= i < |counted| ==> counted[i].window < window) ==> InWindow(counted, window) == 0
  {
    if counted != [] {
      var rest, last := counted[..|counted| - 1], counted[|counted| - 1];
      forall i | 0 <= i < |rest| ensures EntryFits(c, rest, i) {
        FitsInFront(c, counted, i);
      }
      RankIsCount(c, rest, window);
      assert EntryFits(c, counted, |rest|);
      RankIsCount(c, rest, last.window);
      if last.rank == 1 {
        assert forall j :: 0 <= j < |rest| ==> rest[j].window < last.window;
      } else {
        assert rest[|rest| - 1].window == last.window;
      }
    }
  }

  lemma FitsInFront(c: Config, counted: seq<Entry>, i: nat)
    requires i < |counted| - 1 && EntryFits(c, counted, i)
    ensures EntryFits(c, counted[..|counted| - 1], i)
  {
    var rest := counted[..|counted| - 1];
    assert forall j :: 0 <= j <= i ==> rest[j] == counted[j];
  }

  /** The restarts issued are, one for one and in order, those counted, plus at most one, and there
      is one exactly when the object's nonce is newer than memory's. No window is charged more than
      the maximum, and within a window restarts are spread by the doubling backoff, measured
      between the instants they were actually issued. */
  ghost predicate Conserved(c: Config, w: Cluster, b: Books) {
    && |b.issued| == |b.counted| + (if w.obj.nonce > BudgetOf(w).lastNonce then 1 else 0)
    && (forall i :: 0 <= i < |b.counted| ==> b.counted[i].nonce == b.issued[i].nonce && b.counted[i].at == b.issued[i].at)
    && (forall window :: InWindow(b.counted, window) > 0 ==> InWindow(b.counted, window) <= c.maxRestarts)
    && (forall i :: 0 <= i < |b.counted| ==> Spread(c, b.counted, i))
  }

  lemma BalancedIsConserved(c: Config, w: Cluster, b: Books)
    requires Balanced(c, w, b)
    ensures Conserved(c, w, b)
  {
    forall i | 0 <= i < |b.counted| ensures EntryFits(c, b.counted, i) && Spread(c, b.counted, i) {
      assert FitsBy(c, b.counted, i, b.clock);
    }
    forall window ensures InWindow(b.counted, window) > 0 ==> InWindow(b.counted, window) <= c.maxRestarts {
      RankIsCount(c, b.counted, window);
    }
  }

  /** The same spread with the powers written out. */
  lemma SpreadIsExponential(c: Config, counted: seq<Entry>, i: nat)
    requires i < |counted| && Spread(c, counted, i)
    ensures var n := counted[i].rank;
      counted[i].at - counted[i + 1 - n].at >= c.baseBackoff * (Pow2(n - 1) - 1)
  {
    BackoffIsPower(c.baseBackoff, counted[i].rank - 1);
    assert c.baseBackoff * (Pow2(counted[i].rank - 1) - 1) == c.baseBackoff * Pow2(counted[i].rank - 1) - c.baseBackoff;
  }

  function NewBooks(clock: Time): Books { Books([], [], clock, UnixMilli(clock)) }

  /** Restart conservation, over every orderly run from a deployment not yet remembered, or remembered
      without restarts, whatever saves are lost. */
  lemma RestartsAreConserved(c: Config, w: Cluster, events: seq<Event>, clock: Time)
    requires Configured(c) && BudgetOf(w) == Fresh(w.obj.nonce) && w.obj.nonce <= UnixMilli(clock)
    requires LegalRun(c, w, events) && OrderlyRun(c, w, events, NewBooks(clock))
    ensures Conserved(c, Final(c, w, events), FinalBooks(c, w, events, NewBooks(clock)))
  {
    RunKeepsBalance(c, w, events, NewBooks(clock));
    BalancedIsConserved(c, Final(c, w, events), FinalBooks(c, w, events, NewBooks(clock)));
  }
}
