// The movement steps of a tick: gravity on the player and constant-velocity
// scrolling of the other sprites (neither is scaled by the elapsed time).
module Motion {
  import opened Geometry

  /** Gravity then integration, clamped to the ground. */
  function Fall(p: Sprite): (q: Sprite)
    ensures q.y <= GroundY
    ensures q == p.(y := q.y, vy := q.vy)
    ensures q.y == GroundY || q.y == p.y + p.vy + Gravity
  {
    var vy := p.vy + Gravity;
    var y := p.y + vy;
    if y > GroundY then p.(y := GroundY, vy := 0.0) else p.(y := y, vy := vy)
  }

  lemma FallLandsOnGround(p: Sprite)
    requires p.y + p.vy + Gravity > GroundY
    ensures Fall(p) == p.(y := GroundY, vy := 0.0)
  {
  }

  lemma FallInAir(p: Sprite)
    requires p.y + p.vy + Gravity <= GroundY
    ensures Fall(p) == p.(y := p.y + p.vy + Gravity, vy := p.vy + Gravity)
  {
  }

  function Scroll(s: Sprite): Sprite
  {
    s.(x := s.x + s.vx)
  }

  /** Every sprite advances by its own horizontal velocity; nothing is added, dropped or reordered. */
  function ScrollAll(ss: seq<Sprite>): (r: seq<Sprite>)
    ensures |r| == |ss|
    ensures forall i :: 0 <= i < |ss| ==> r[i] == ss[i].(x := ss[i].x + ss[i].vx)
  {
    seq(|ss|, i requires 0 <= i < |ss| => Scroll(ss[i]))
  }
}
