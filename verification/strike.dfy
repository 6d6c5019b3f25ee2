/**
 * The at-the-money strike of api/webhook.js: `Math.round(p / 50) * 50`,
 * computed on exact reals instead of IEEE doubles.
 */
module Strike {

  /** Strikes are listed in steps of this many index points. */
  const STEP: int := 50

  /**
   * JavaScript's `Math.round`: the integer nearest to `x`, where an exact
   * half goes up (towards positive infinity, also for negative `x`).
   */
  function Round(x: real): (k: int)
    ensures (k as real) - 0.5 <= x < (k as real) + 0.5
  {
    (x + 0.5).Floor
  }

  /** `nearest50`: the multiple of 50 closest to `p`, ties going up. */
  function Nearest50(p: real): (strike: int)
    ensures strike % STEP == 0
    ensures (strike - 25) as real <= p < (strike + 25) as real
  {
    Round(p / 50.0) * STEP
  }

  /** The two facts above pin the strike down: no other multiple of 50 has them. */
  lemma Nearest50Unique(p: real, m: int)
    requires m % STEP == 0
    requires (m - 25) as real <= p < (m + 25) as real
    ensures Nearest50(p) == m
  {
    var s := Nearest50(p);
    assert s == STEP * (s / STEP) && m == STEP * (m / STEP);
    assert -50 < s - m < 50;
    assert s / STEP == m / STEP;
  }

  /** An exact tie `50k + 25` rounds up to `50(k + 1)`, as `Math.round` does. */
  lemma Nearest50TieRoundsUp(k: int)
    ensures Nearest50((50 * k + 25) as real) == 50 * (k + 1)
  {
    Nearest50Unique((50 * k + 25) as real, 50 * (k + 1));
  }

  /** A price that is already a multiple of 50 is its own strike. */
  lemma Nearest50FixesMultiples(k: int)
    ensures Nearest50((50 * k) as real) == 50 * k
  {
    Nearest50Unique((50 * k) as real, 50 * k);
  }

  /** Deriving the strike of a strike changes nothing. */
  lemma Nearest50Idempotent(p: real)
    ensures Nearest50(Nearest50(p) as real) == Nearest50(p)
  {
    var s := Nearest50(p);
    Nearest50FixesMultiples(s / STEP);
    assert 50 * (s / STEP) == s;
  }

  /** A higher price never gives a lower strike. */
  lemma Nearest50Monotone(p: real, q: real)
    requires p <= q
    ensures Nearest50(p) <= Nearest50(q)
  {
  }

  /** The two worked examples: 17485 goes up to 17500, 17470 down to 17450. */
  lemma Nearest50Examples()
    ensures Nearest50(17485.0) == 17500
    ensures Nearest50(17470.0) == 17450
  {
    Nearest50Unique(17485.0, 17500);
    Nearest50Unique(17470.0, 17450);
  }
}
