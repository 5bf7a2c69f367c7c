/** The random draws of a `createDust` click (main.js:20-22, 45-56): where
    the particles appear and the interval delay `tempT`. Each draw of
    `Math.random()` is a parameter `u` with 0 <= u < 1; arithmetic on
    numbers is exact. */
module Spawning {

  predicate IsDraw(u: real)
  {
    0.0 <= u < 1.0
  }

  /** A draw scales `limit` to a number between 0 and `limit`, reaching 0
      but not `limit` unless `limit` is 0. */
  lemma ScaledDraw(u: real, limit: real)
    requires IsDraw(u)
    ensures limit > 0.0 ==> 0.0 <= u * limit < limit
    ensures limit <= 0.0 ==> limit <= u * limit <= 0.0
  {
    if limit > 0.0 {
      assert limit - u * limit == (1.0 - u) * limit;
      assert (1.0 - u) * limit > 0.0;
    } else {
      assert u * limit - limit == (1.0 - u) * -limit;
      assert u * -limit >= 0.0;
    }
  }

  /** A product of two non-negative numbers is non-negative. */
  lemma NonNegativeProduct(a: real, b: real)
    requires a >= 0.0 && b >= 0.0
    ensures a * b >= 0.0
  {
  }

  /** `random(limit)`: Math.floor(Math.random() * limit) (main.js:20-22). */
  function Random(limit: int, u: real): (r: int)
    requires IsDraw(u)
    ensures limit > 0 ==> 0 <= r < limit
    ensures limit <= 0 ==> limit <= r <= 0
  {
    ScaledDraw(u, limit as real);
    (u * limit as real).Floor
  }

  /** Every value in [0, limit) is drawn by some `u`. */
  lemma RandomHits(limit: int, k: int)
    requires 0 <= k < limit
    ensures IsDraw(k as real / limit as real)
    ensures Random(limit, k as real / limit as real) == k
  {
    var l := limit as real;
    var u := k as real / l;
    assert u * l == k as real;
    if u >= 1.0 {
      NonNegativeProduct(u - 1.0, l);
      assert false;
    }
  }

  /** A spawn coordinate, `random(900) + 50` (main.js:45-46). */
  function SpawnCoord(u: real): (c: int)
    requires IsDraw(u)
    ensures 50 <= c <= 949
  {
    Random(900, u) + 50
  }

  /** Every coordinate in [50, 949] can be spawned at. */
  lemma SpawnCoordCovers(c: int)
    requires 50 <= c <= 949
    ensures IsDraw((c - 50) as real / 900.0)
    ensures SpawnCoord((c - 50) as real / 900.0) == c
  {
    RandomHits(900, c - 50);
  }

  /** `tempT` as first computed: 15 + Math.random()*5 - gravity*0.1
      (main.js:47). */
  function RawDelay(gravity: int, u: real): real
  {
    15.0 + u * 5.0 - gravity as real * 0.1
  }

  /** The bottom line for speed (main.js:54-56): a delay of at most 1 is
      raised to 1, a longer one is kept. */
  function ClampDelay(t: real): (r: real)
    ensures r >= 1.0
    ensures r == t || r == 1.0
    ensures t >= 1.0 ==> r == t
  {
    if t <= 1.0 then 1.0 else t
  }

  /** The delay after the clamp. Without the clamp it lies in
      [15 - gravity/10, 20 - gravity/10); the clamp never changes it while
      gravity is at most 140, and from gravity 190 on it is always 1. */
  function SpawnDelay(gravity: int, u: real): (t: real)
    requires IsDraw(u)
    ensures t >= 1.0
    ensures t == 1.0 || 15.0 - gravity as real / 10.0 <= t < 20.0 - gravity as real / 10.0
    ensures gravity <= 140 ==> 15.0 - gravity as real / 10.0 <= t < 20.0 - gravity as real / 10.0
    ensures gravity >= 190 ==> t == 1.0
  {
    ClampDelay(RawDelay(gravity, u))
  }

  /** More gravity never gives a longer delay for the same draw. */
  lemma DelayNonIncreasing(g1: int, g2: int, u: real)
    requires IsDraw(u) && g1 <= g2
    ensures SpawnDelay(g2, u) <= SpawnDelay(g1, u)
  {
  }
}
