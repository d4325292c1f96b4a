/** One confetti particle: its palette, how a fresh particle draws its
    colour and velocity from the random source, and the per-tick
    kinematics step (src/extension.ts, class ConfettiParticle). */
module Particles {

  /** The six colours a particle may take, in the order of the source's array. */
  const Palette: seq<string> := ["#ff0000", "#00ff00", "#0000ff", "#ffff00", "#ff00ff", "#00ffff"]

  /** Increase of the vertical velocity on every tick. */
  const Gravity: real := 0.05

  /** Smallest and largest-but-excluded starting vertical velocity. */
  const MinFallSpeed: real := 0.5
  const MaxFallSpeed: real := 1.5

  /** A value `Math.random()` can return. */
  predicate IsDraw(r: real) {
    0.0 <= r < 1.0
  }

  /** The palette index picked by a draw: floor(r * 6). */
  function ColorIndex(r: real): (i: int)
    requires IsDraw(r)
    ensures 0 <= i < |Palette|
    ensures i as real <= r * |Palette| as real < (i + 1) as real
  {
    (r * |Palette| as real).Floor
  }

  /** getRandomColor: the palette entry at the drawn index. */
  function RandomColor(r: real): (c: string)
    requires IsDraw(r)
    ensures c in Palette
  {
    Palette[ColorIndex(r)]
  }

  /** The value of a particle: position, velocity and colour. */
  datatype State = State(x: real, y: real, vx: real, vy: real, color: string)

  /** A particle that is on or below line 0 and falls at least at the
      starting minimum speed. */
  predicate Falling(p: State) {
    p.y >= 0.0 && p.vy >= MinFallSpeed
  }

  /** The state a new particle starts in, given its position and the three
      draws its constructor makes (colour, then horizontal, then vertical
      velocity). */
  function Spawned(x: real, y: real, rColor: real, rVx: real, rVy: real): (p: State)
    requires IsDraw(rColor) && IsDraw(rVx) && IsDraw(rVy)
    ensures p.x == x && p.y == y
    ensures -1.0 <= p.vx < 1.0
    ensures MinFallSpeed <= p.vy < MaxFallSpeed
    ensures p.color in Palette
    ensures y >= 0.0 ==> Falling(p)
  {
    State(x, y, (rVx - 0.5) * 2.0, rVy * 1.0 + 0.5, RandomColor(rColor))
  }

  /** One tick of the kinematics: move by the velocity, then add gravity to
      the vertical velocity; the horizontal velocity and colour never change. */
  function Advance(p: State): (q: State)
    ensures q.vx == p.vx && q.color == p.color
  {
    State(p.x + p.vx, p.y + p.vy, p.vx, p.vy + Gravity, p.color)
  }

  /** A falling particle keeps falling, drops at least half a line per tick
      and speeds up. */
  lemma AdvanceFalls(p: State)
    requires Falling(p)
    ensures Falling(Advance(p))
    ensures Advance(p).y >= p.y + MinFallSpeed
    ensures Advance(p).vy > p.vy
  {
  }

  /** The mutable particle record. The source keeps the velocity in a nested
      object owned by the particle alone; here its two components are fields. */
  class Particle {
    var x: real
    var y: real
    var color: string
    var vx: real
    var vy: real

    /** The current value of the particle. */
    function Value(): State
      reads this
    {
      State(x, y, vx, vy, color)
    }

    constructor (x0: real, y0: real, rColor: real, rVx: real, rVy: real)
      requires IsDraw(rColor) && IsDraw(rVx) && IsDraw(rVy)
      ensures Value() == Spawned(x0, y0, rColor, rVx, rVy)
    {
      x := x0;
      y := y0;
      color := RandomColor(rColor);
      vx := (rVx - 0.5) * 2.0;
      vy := rVy * 1.0 + 0.5;
    }

    /** update(): changes only this particle. */
    method Update()
      modifies this
      ensures Value() == Advance(old(Value()))
    {
      x := x + vx;
      y := y + vy;
      vy := vy + Gravity;
    }
  }
}
