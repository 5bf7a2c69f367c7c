/** The per-tick motion of one dust particle in `dust.animateDust`
    (main.js:94-128): a particle exactly at the centre is absorbed,
    otherwise each coordinate moves one pixel toward the centre. */
module Motion {
  import opened PxStyle

  /** Both coordinates of the centre, in pixels. */
  const Center := 500

  /** A dust element: its `left` and `top` positions and its width (equal
      to its height), all in pixels. */
  datatype Particle = Particle(left: int, top: int, size: int)

  function Abs(n: int): nat
  {
    if n < 0 then -n else n
  }

  function Max(a: int, b: int): int
  {
    if a < b then b else a
  }

  /** How far a coordinate is from the centre. */
  function Off(c: int): nat
  {
    Abs(c - Center)
  }

  /** One coordinate's move (main.js:106-115 for `left`, 118-127 for
      `top`): one pixel toward the centre, none when already there. */
  function Toward(c: int): (r: int)
    ensures Off(r) == Max(Off(c) - 1, 0)
    ensures c <= Center ==> c <= r <= Center
    ensures c >= Center ==> Center <= r <= c
    ensures Abs(r - c) == if c == Center then 0 else 1
  {
    var move := c - Center;
    if move < 0 then c + 1
    else if move > 0 then c - 1
    else c
  }

  /** The same move made on the style string, as main.js does it: parse
      the stored value, compare with the centre, write back `${n}px` only
      when the value changes. A string parseInt cannot read (NaN) compares
      false both ways and is left as it is. */
  function StepStyle(origin: string): string
  {
    match ParseInt(origin)
    case None => origin
    case Some(v) =>
      var move := v - Center;
      if move < 0 then Px(v + 1)
      else if move > 0 then Px(v - 1)
      else origin
  }

  /** Moving the encoded position is moving the position. */
  lemma StepStyleOfPx(c: int)
    ensures StepStyle(Px(c)) == Px(Toward(c))
  {
    ParseIntOfPx(c);
    var move := c - Center;
    if move < 0 {
      assert StepStyle(Px(c)) == Px(c + 1);
    } else if move > 0 {
      assert StepStyle(Px(c)) == Px(c - 1);
    } else {
      assert StepStyle(Px(c)) == Px(c);
    }
  }

  predicate AtCenter(p: Particle)
  {
    p.left == Center && p.top == Center
  }

  /** The number of moves a particle needs to reach the centre: the larger
      of its two offsets, since both coordinates move at once. */
  function Distance(p: Particle): nat
  {
    Max(Off(p.left), Off(p.top))
  }

  /** The area spawned particles start in: both coordinates in [50, 949]. */
  predicate InField(p: Particle)
  {
    50 <= p.left <= 949 && 50 <= p.top <= 949
  }

  /** Both coordinates moved one pixel toward the centre. */
  function Advance(p: Particle): (q: Particle)
    ensures Distance(q) == Max(Distance(p) - 1, 0)
    ensures q.size == p.size
    ensures InField(p) ==> InField(q)
    ensures AtCenter(q) <==> Distance(p) <= 1
  {
    p.(left := Toward(p.left), top := Toward(p.top))
  }

  /** What one call of `animateDust` does to a particle. */
  datatype Outcome = Absorbed | Moved(p: Particle)

  /** One tick: a particle at the centre is absorbed (main.js:96-103),
      any other particle moves (main.js:106-127). */
  function Tick(p: Particle): (o: Outcome)
    ensures o == Absorbed <==> Distance(p) == 0
  {
    if AtCenter(p) then Absorbed else Moved(Advance(p))
  }

  /** `k` ticks of the same particle; an absorbed particle stays absorbed. */
  function Run(p: Particle, k: nat): Outcome
    decreases k
  {
    if k == 0 then Moved(p)
    else match Tick(p)
      case Absorbed => Absorbed
      case Moved(q) => Run(q, k - 1)
  }

  /** Every tick before the centre is reached takes exactly one pixel off
      the distance and keeps the size. */
  lemma {:induction false} RunBeforeCenter(p: Particle, k: nat)
    requires k <= Distance(p)
    ensures Run(p, k).Moved?
    ensures Distance(Run(p, k).p) == Distance(p) - k
    ensures Run(p, k).p.size == p.size
    decreases k
  {
    if k > 0 {
      RunBeforeCenter(Advance(p), k - 1);
    }
  }

  /** Once absorbed, further ticks change nothing. */
  lemma {:induction false} AbsorbedStays(p: Particle, k: nat, j: nat)
    requires Run(p, k) == Absorbed && k <= j
    ensures Run(p, j) == Absorbed
    decreases k
  {
    if !AtCenter(p) {
      AbsorbedStays(Advance(p), k - 1, j - 1);
    }
  }

  /** A particle reaches (500, 500) after exactly Distance(p) ticks and is
      absorbed by the next one: it is absorbed after k ticks if and only
      if k exceeds its distance. */
  lemma AbsorbedAfter(p: Particle, k: nat)
    ensures Run(p, k) == Absorbed <==> k > Distance(p)
    ensures k == Distance(p) ==> Run(p, k) == Moved(Particle(Center, Center, p.size))
  {
    var d := Distance(p);
    RunBeforeCenter(p, d);
    if k <= d {
      RunBeforeCenter(p, k);
    } else {
      RunThrough(p, d);
      AbsorbedStays(p, d + 1, k);
    }
  }

  /** The tick after `k` ticks that leave the particle at the centre
      absorbs it. */
  lemma {:induction false} RunThrough(p: Particle, k: nat)
    requires Run(p, k).Moved? && AtCenter(Run(p, k).p)
    ensures Run(p, k + 1) == Absorbed
    decreases k
  {
    if k > 0 && !AtCenter(p) {
      RunThrough(Advance(p), k - 1);
    }
  }
}
