/** The restart budget: how many restarts one window has seen, and when the next one is due.
    Models internal/state/restart.go with the multiplier of two that cmd/main.go sets. */
module Budget {
  import opened Clock

  datatype RestartBudget = RestartBudget(
    count: nat,
    windowStart: Time,
    nextAfter: Time,
    lastNonce: int)

  function Pow2(n: nat): (r: nat)
    ensures r >= 1
  {
    if n == 0 then 1 else 2 * Pow2(n - 1)
  }

  /** The backoff after n earlier restarts in the window: base, doubled n times. */
  function Backoff(base: Duration, n: nat): (d: Duration)
    ensures base > 0 ==> d > 0
  {
    if n == 0 then base else 2 * Backoff(base, n - 1)
  }

  lemma {:induction false} BackoffIsPower(base: Duration, n: nat)
    ensures Backoff(base, n) == base * Pow2(n)
  {
    if n > 0 {
      BackoffIsPower(base, n - 1);
      assert base * (2 * Pow2(n - 1)) == 2 * (base * Pow2(n - 1));
    }
  }

  function Fresh(nonce: int): RestartBudget {
    RestartBudget(0, 0, 0, nonce)
  }

  /** Past its window a budget starts over, with the nonce it last knew. */
  function Rolled(b: RestartBudget, now: Time, window: Duration): RestartBudget {
    if b.windowStart == 0 || now > b.windowStart + window then Fresh(b.lastNonce) else b
  }

  predicate Exhausted(b: RestartBudget, now: Time, limit: int, window: Duration) {
    Rolled(b, now, window).count >= limit
  }

  predicate InBackoff(b: RestartBudget, now: Time, window: Duration) {
    var r := Rolled(b, now, window);
    r.nextAfter != 0 && now < r.nextAfter
  }

  function Consume(b: RestartBudget, now: Time, window: Duration, base: Duration): RestartBudget {
    var r := Rolled(b, now, window);
    var start := if r.windowStart == 0 then now else r.windowStart;
    RestartBudget(r.count + 1, start, now + Backoff(base, r.count), r.lastNonce)
  }

  /** Until its window is over, and only then, a budget with a window open keeps its count. */
  predicate WindowOpen(b: RestartBudget, now: Time, window: Duration) {
    b.windowStart != 0 && now <= b.windowStart + window
  }

  /** When a budget stands in the way of a restart. */
  lemma BudgetMeaning(b: RestartBudget, now: Time, limit: int, window: Duration)
    ensures Exhausted(b, now, limit, window) <==> (if WindowOpen(b, now, window) then b.count >= limit else limit <= 0)
    ensures InBackoff(b, now, window) <==> WindowOpen(b, now, window) && b.nextAfter != 0 && now < b.nextAfter
  {
  }

  /** What a restart takes from it: one more in an open window, or the first of a new one, and a wait of
      the base doubled for each restart before it in the window. */
  lemma ConsumeMeaning(b: RestartBudget, now: Time, window: Duration, base: Duration)
    ensures var r := Consume(b, now, window, base);
      if WindowOpen(b, now, window)
      then r.count == b.count + 1 && r.windowStart == b.windowStart && r.nextAfter == now + base * Pow2(b.count) && r.lastNonce == b.lastNonce
      else r.count == 1 && r.windowStart == now && r.nextAfter == now + base && r.lastNonce == b.lastNonce
  {
    BackoffIsPower(base, b.count);
  }

  /** What was just consumed holds the next restart back exactly when the base is positive: then one
      tick never both counts a restart and issues another. */
  lemma ConsumedIsInBackoff(b: RestartBudget, now: Time, window: Duration, base: Duration)
    requires now > 0 && window >= 0 && base >= 0
    ensures InBackoff(Consume(b, now, window, base), now, window) <==> base > 0
  {
    BackoffIsPower(base, Rolled(b, now, window).count);
  }

  /** Time only makes a budget roll: a restart the budget allowed at one instant, it still allows
      at every later one, as long as it has not been written to in between. */
  lemma StaysAllowed(b: RestartBudget, t: Time, later: Time, limit: int, window: Duration)
    requires t <= later
    requires !Exhausted(b, t, limit, window) && !InBackoff(b, t, window)
    ensures !Exhausted(b, later, limit, window) && !InBackoff(b, later, window)
  {
  }
}
