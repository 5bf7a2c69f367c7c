/** The game state of main.js: the module-level counters (main.js:10-15),
    the upgrade buttons (main.js:26-39), the `createDust` click
    (main.js:43-70) and one call of `dust.animateDust` (main.js:94-128).
    The dust elements on the page are the sequence `particles`, in the
    order they were created. */
module Game {
  import opened PxStyle
  import opened Motion
  import opened Spawning

  /** `n` particles equal to `p`. */
  function Copies(p: Particle, n: nat): (ps: seq<Particle>)
    ensures |ps| == n
    ensures forall k :: 0 <= k < n ==> ps[k] == p
  {
    seq(n, _ => p)
  }

  /** `ps` without its element at index `i`. */
  function RemoveAt(ps: seq<Particle>, i: nat): (rs: seq<Particle>)
    requires i < |ps|
    ensures |rs| == |ps| - 1
    ensures forall k :: 0 <= k < i ==> rs[k] == ps[k]
    ensures forall k :: i <= k < |rs| ==> rs[k] == ps[k + 1]
  {
    ps[..i] + ps[i + 1..]
  }

  class DustGame {
    var dustCounter: int
    var dustPerClick: int
    var dustSize: int
    var gravity: int
    var centerSize: int
    var sizeIncrease: int
    var particles: seq<Particle>

    /** How many particles were ever created, and how many the centre
        absorbed. */
    ghost var spawned: nat
    ghost var absorbed: nat

    /** What holds between events: the counter counts the particles on the
        page, every created particle is either on the page or absorbed, the
        centre has grown by `sizeIncrease` per absorbed particle, and every
        particle lies in the spawn field with at least the initial size. */
    ghost predicate Valid()
      reads this
    {
      dustPerClick >= 1 && dustSize >= 8 && gravity >= 100 &&
      dustCounter == |particles| &&
      spawned == absorbed + |particles| &&
      centerSize == 1 + absorbed * sizeIncrease &&
      forall k :: 0 <= k < |particles| ==> InField(particles[k]) && particles[k].size >= 8
    }

    /** The initial values of main.js:10-15: no dust, one particle per
        click of size 8, gravity 100, centre size 1 growing by 1. */
    constructor ()
      ensures Valid()
      ensures dustCounter == 0 && dustPerClick == 1 && dustSize == 8
      ensures gravity == 100 && centerSize == 1 && sizeIncrease == 1
      ensures particles == [] && spawned == 0 && absorbed == 0
    {
      dustCounter := 0;
      dustPerClick := 1;
      dustSize := 8;
      gravity := 100;
      centerSize := 1;
      sizeIncrease := 1;
      particles := [];
      spawned := 0;
      absorbed := 0;
    }

    /** The dust-per-click button (main.js:26-29). */
    method UpgradePerClick()
      requires Valid()
      modifies this
      ensures Valid()
      ensures dustPerClick == old(dustPerClick) + 1
      ensures dustSize == old(dustSize) && gravity == old(gravity)
      ensures dustCounter == old(dustCounter) && centerSize == old(centerSize)
      ensures sizeIncrease == old(sizeIncrease) && particles == old(particles)
      ensures spawned == old(spawned) && absorbed == old(absorbed)
    {
      dustPerClick := dustPerClick + 1;
    }

    /** The dust-size button (main.js:31-34). */
    method UpgradeSize()
      requires Valid()
      modifies this
      ensures Valid()
      ensures dustSize == old(dustSize) + 1
      ensures dustPerClick == old(dustPerClick) && gravity == old(gravity)
      ensures dustCounter == old(dustCounter) && centerSize == old(centerSize)
      ensures sizeIncrease == old(sizeIncrease) && particles == old(particles)
      ensures spawned == old(spawned) && absorbed == old(absorbed)
    {
      dustSize := dustSize + 1;
    }

    /** The gravity button (main.js:36-39). */
    method UpgradeGravity()
      requires Valid()
      modifies this
      ensures Valid()
      ensures gravity == old(gravity) + 1
      ensures dustPerClick == old(dustPerClick) && dustSize == old(dustSize)
      ensures dustCounter == old(dustCounter) && centerSize == old(centerSize)
      ensures sizeIncrease == old(sizeIncrease) && particles == old(particles)
      ensures spawned == old(spawned) && absorbed == old(absorbed)
    {
      gravity := gravity + 1;
    }

    /** A `createDust` click (main.js:43-70) with draws `ux`, `uy` for the
        position and `ut` for the delay: `dustPerClick` particles of size
        `dustSize`, all at one position in the spawn field, each counted
        once; returns the position and the clamped delay. */
    method Spawn(ux: real, uy: real, ut: real) returns (x: int, y: int, delay: real)
      requires Valid() && IsDraw(ux) && IsDraw(uy) && IsDraw(ut)
      modifies this
      ensures Valid()
      ensures x == SpawnCoord(ux) && y == SpawnCoord(uy)
      ensures delay == SpawnDelay(gravity, ut)
      ensures particles == old(particles) + Copies(Particle(x, y, dustSize), dustPerClick)
      ensures dustCounter == old(dustCounter) + dustPerClick
      ensures spawned == old(spawned) + dustPerClick && absorbed == old(absorbed)
      ensures dustPerClick == old(dustPerClick) && dustSize == old(dustSize)
      ensures gravity == old(gravity) && centerSize == old(centerSize)
      ensures sizeIncrease == old(sizeIncrease)
    {
      x := SpawnCoord(ux);
      y := SpawnCoord(uy);
      delay := RawDelay(gravity, ut);
      var dust := Particle(x, y, dustSize);
      var i := dustPerClick;
      while i > 0
        invariant 0 <= i <= dustPerClick
        invariant delay == if i == dustPerClick then RawDelay(gravity, ut) else SpawnDelay(gravity, ut)
        invariant particles == old(particles) + Copies(dust, dustPerClick - i)
        invariant dustCounter == old(dustCounter) + (dustPerClick - i)
        invariant spawned == old(spawned) + (dustPerClick - i)
        invariant absorbed == old(absorbed) && centerSize == old(centerSize)
        invariant dustPerClick == old(dustPerClick) && dustSize == old(dustSize)
        invariant gravity == old(gravity) && sizeIncrease == old(sizeIncrease)
      {
        if delay <= 1.0 {
          delay := 1.0;
        }
        dustCounter := dustCounter + 1;
        particles := particles + [dust];
        spawned := spawned + 1;
        i := i - 1;
        assert Copies(dust, dustPerClick - i) == Copies(dust, dustPerClick - i - 1) + [dust];
      }
    }

    /** One call of `dust.animateDust` on the particle at index `i`
        (main.js:94-128). A particle whose style strings are both "500px"
        is removed, the counter drops by one and the centre grows by
        `sizeIncrease`; any other particle moves one pixel toward the
        centre on each axis and nothing else changes. */
    method Step(i: nat) returns (wasAbsorbed: bool)
      requires Valid() && i < |particles|
      modifies this
      ensures Valid()
      ensures wasAbsorbed <==> AtCenter(old(particles[i]))
      ensures Tick(old(particles[i])) == Absorbed ==>
        particles == RemoveAt(old(particles), i) &&
        dustCounter == old(dustCounter) - 1 &&
        centerSize == old(centerSize) + sizeIncrease &&
        absorbed == old(absorbed) + 1
      ensures Tick(old(particles[i])).Moved? ==>
        particles == old(particles)[i := Tick(old(particles[i])).p] &&
        dustCounter == old(dustCounter) && centerSize == old(centerSize) &&
        absorbed == old(absorbed)
      ensures dustPerClick == old(dustPerClick) && dustSize == old(dustSize)
      ensures gravity == old(gravity) && sizeIncrease == old(sizeIncrease)
      ensures spawned == old(spawned)
    {
      var p := particles[i];
      CenterStyle(p.left);
      CenterStyle(p.top);
      if Px(p.left) == "500px" && Px(p.top) == "500px" {
        particles := RemoveAt(particles, i);
        dustCounter := dustCounter - 1;
        centerSize := centerSize + sizeIncrease;
        absorbed := absorbed + 1;
        wasAbsorbed := true;
      } else {
        particles := particles[i := Advance(p)];
        wasAbsorbed := false;
      }
    }
  }
}
