// The three collision passes of a tick. Each pass is a filter that walks its
// collection from the front; the recursion below peels the LAST element so
// that a left-to-right loop can be proved against it one element at a time.
module Collisions {
  import opened Geometry
  import opened Subsequences

  /** Where a side hit puts the player back. */
  const StartX: real := 50.0
  /** A contact counts as a stomp when the player's bottom is above the enemy's top plus this. */
  const StompTolerance: real := 10.0

  /** The player after a pass, and the sprites that the pass keeps. */
  datatype Pass = Pass(player: Sprite, kept: seq<Sprite>)

  // ---------------------------------------------------------------- enemies

  datatype EnemyContact = OffLeft | Stomp | SideHit | NoContact

  /** How one enemy meets the player as the player is at that moment of the pass. */
  function ClassifyEnemy(p: Sprite, e: Sprite): EnemyContact
  {
    if e.x + e.width < 0.0 then OffLeft
    else if RectIntersect(p, e) then
      (if p.y + p.height < e.y + StompTolerance then Stomp else SideHit)
    else NoContact
  }

  /** The player after meeting one enemy. */
  function MeetEnemy(p: Sprite, c: EnemyContact): Sprite
  {
    match c
    case Stomp => p.(vy := JumpStrength / 2.0)
    case SideHit => p.(x := StartX, y := GroundY, vy := 0.0)
    case _ => p
  }

  predicate EnemySurvives(c: EnemyContact)
  {
    c.SideHit? || c.NoContact?
  }

  /** The enemy filter; the player it threads is the one later enemies are tested against. */
  function EnemyPass(p: Sprite, es: seq<Sprite>): Pass
    decreases |es|
  {
    if es == [] then Pass(p, [])
    else
      var before := EnemyPass(p, es[..|es| - 1]);
      var e := es[|es| - 1];
      var c := ClassifyEnemy(before.player, e);
      Pass(MeetEnemy(before.player, c), if EnemySurvives(c) then before.kept + [e] else before.kept)
  }

  /** Survivors keep their relative order. */
  lemma {:induction false} EnemyPassKeepsOrder(p: Sprite, es: seq<Sprite>)
    ensures IsSubsequence(EnemyPass(p, es).kept, es)
  {
    if es != [] {
      var init, e := es[..|es| - 1], es[|es| - 1];
      assert es == init + [e];
      EnemyPassKeepsOrder(p, init);
      SubsequenceExtend(EnemyPass(p, init).kept, init, e);
    }
  }

  /** No enemy fully past the left edge survives. */
  lemma {:induction false} EnemyPassCulls(p: Sprite, es: seq<Sprite>)
    ensures forall e :: e in EnemyPass(p, es).kept ==> e.x + e.width >= 0.0
  {
    if es != [] {
      EnemyPassCulls(p, es[..|es| - 1]);
    }
  }

  /** The pass only bounces the player or sends it back to the start column on the ground. */
  lemma {:induction false} EnemyPassMovesPlayer(p: Sprite, es: seq<Sprite>)
    ensures var q := EnemyPass(p, es).player;
      q.width == p.width && q.height == p.height && q.vx == p.vx &&
      (q.x == p.x || q.x == StartX) && (q.y == p.y || q.y == GroundY)
  {
    if es != [] {
      EnemyPassMovesPlayer(p, es[..|es| - 1]);
    }
  }

  /** An enemy the player does not touch, and that is on screen, changes nothing and is kept. */
  lemma EnemyPassMissed(p: Sprite, es: seq<Sprite>, e: Sprite)
    requires e.x + e.width >= 0.0 && !RectIntersect(EnemyPass(p, es).player, e)
    ensures EnemyPass(p, es + [e]) == Pass(EnemyPass(p, es).player, EnemyPass(p, es).kept + [e])
  {
    assert (es + [e])[..|es|] == es;
  }

  /** An enemy fully past the left edge is dropped before any overlap test and leaves the player alone. */
  lemma EnemyPassOffLeft(p: Sprite, es: seq<Sprite>, e: Sprite)
    requires e.x + e.width < 0.0
    ensures EnemyPass(p, es + [e]) == EnemyPass(p, es)
  {
    assert (es + [e])[..|es|] == es;
  }

  /** A stomp removes the enemy and halves the jump impulse as a bounce. */
  lemma EnemyPassStomp(p: Sprite, es: seq<Sprite>, e: Sprite)
    requires var q := EnemyPass(p, es).player;
      e.x + e.width >= 0.0 && RectIntersect(q, e) && q.y + q.height < e.y + StompTolerance
    ensures EnemyPass(p, es + [e]) ==
            Pass(EnemyPass(p, es).player.(vy := -6.0), EnemyPass(p, es).kept)
  {
    assert (es + [e])[..|es|] == es;
  }

  /** Any other contact keeps the enemy and resets the player to the start on the ground. */
  lemma EnemyPassSideHit(p: Sprite, es: seq<Sprite>, e: Sprite)
    requires var q := EnemyPass(p, es).player;
      e.x + e.width >= 0.0 && RectIntersect(q, e) && q.y + q.height >= e.y + StompTolerance
    ensures EnemyPass(p, es + [e]) ==
            Pass(EnemyPass(p, es).player.(x := 50.0, y := GroundY, vy := 0.0), EnemyPass(p, es).kept + [e])
  {
    assert (es + [e])[..|es|] == es;
  }

  // -------------------------------------------------------------- power-ups

  /** A power-up is collected when it is still on screen and overlaps the player. */
  predicate Collected(p: Sprite, q: Sprite)
  {
    q.x + q.width >= 0.0 && RectIntersect(p, q)
  }

  /** The power-up filter, with the player threaded through it as the component does. */
  function PowerUpPass(p: Sprite, ps: seq<Sprite>): Pass
    decreases |ps|
  {
    if ps == [] then Pass(p, [])
    else
      var before := PowerUpPass(p, ps[..|ps| - 1]);
      var q := ps[|ps| - 1];
      if q.x + q.width < 0.0 then before
      else if RectIntersect(before.player, q) then
        Pass(before.player.(vy := JumpStrength * 1.5), before.kept)
      else Pass(before.player, before.kept + [q])
  }

  /** Reference filter: the power-ups that are on screen and do not touch p, in order. */
  function Uncollected(p: Sprite, ps: seq<Sprite>): (r: seq<Sprite>)
    decreases |ps|
  {
    if ps == [] then []
    else
      var q := ps[|ps| - 1];
      if q.x + q.width >= 0.0 && !RectIntersect(p, q) then Uncollected(p, ps[..|ps| - 1]) + [q]
      else Uncollected(p, ps[..|ps| - 1])
  }

  lemma {:induction false} UncollectedIsFilter(p: Sprite, ps: seq<Sprite>)
    ensures IsSubsequence(Uncollected(p, ps), ps)
    ensures forall q :: q in Uncollected(p, ps) <==> q in ps && q.x + q.width >= 0.0 && !RectIntersect(p, q)
  {
    if ps != [] {
      var init, q := ps[..|ps| - 1], ps[|ps| - 1];
      assert ps == init + [q];
      UncollectedIsFilter(p, init);
      SubsequenceExtend(Uncollected(p, init), init, q);
    }
  }

  /**
   * The power-up pass changes only the player's vertical velocity, which the
   * overlap test does not read, so the order of the power-ups does not matter:
   * the pass equals the plain filter against the incoming player, and the
   * player gets the boosted impulse exactly when something was collected.
   */
  lemma {:induction false} PowerUpPassIsOrderFree(p: Sprite, ps: seq<Sprite>)
    ensures PowerUpPass(p, ps).kept == Uncollected(p, ps)
    ensures PowerUpPass(p, ps).player ==
            if exists q :: q in ps && Collected(p, q) then p.(vy := JumpStrength * 1.5) else p
  {
    if ps != [] {
      var init, q := ps[..|ps| - 1], ps[|ps| - 1];
      assert ps == init + [q];
      PowerUpPassIsOrderFree(p, init);
      var before := PowerUpPass(p, init);
      assert RectIntersect(before.player, q) == RectIntersect(p, q);
      assert (exists q' :: q' in ps && Collected(p, q')) <==>
             (exists q' :: q' in init && Collected(p, q')) || Collected(p, q);
    }
  }

  // -------------------------------------------------------------- fireballs

  /** Fireball f touches at least one of the enemies (the component's `hit` flag). */
  predicate HitsAny(f: Sprite, es: seq<Sprite>)
    decreases |es|
  {
    es != [] && (HitsAny(f, es[..|es| - 1]) || RectIntersect(f, es[|es| - 1]))
  }

  lemma {:induction false} HitsAnyIffSomeOverlap(f: Sprite, es: seq<Sprite>)
    ensures HitsAny(f, es) <==> exists e :: e in es && RectIntersect(f, e)
  {
    if es != [] {
      var init, e := es[..|es| - 1], es[|es| - 1];
      assert es == init + [e];
      HitsAnyIffSomeOverlap(f, init);
      assert forall x :: x in es <==> x in init || x == e;
    }
  }

  /** The inner filter: the enemies that fireball f does not touch, in order. */
  function Unhit(f: Sprite, es: seq<Sprite>): seq<Sprite>
    decreases |es|
  {
    if es == [] then []
    else if RectIntersect(f, es[|es| - 1]) then Unhit(f, es[..|es| - 1])
    else Unhit(f, es[..|es| - 1]) + [es[|es| - 1]]
  }

  /** The inner filter removes exactly what f touches: at least one enemy when it hits, none otherwise. */
  lemma {:induction false} UnhitRemovesTouched(f: Sprite, es: seq<Sprite>)
    ensures forall e :: e in Unhit(f, es) <==> e in es && !RectIntersect(f, e)
    ensures IsSubsequence(Unhit(f, es), es)
    ensures HitsAny(f, es) ==> |Unhit(f, es)| < |es|
    ensures !HitsAny(f, es) ==> Unhit(f, es) == es
  {
    if es != [] {
      var init, e := es[..|es| - 1], es[|es| - 1];
      assert es == init + [e];
      UnhitRemovesTouched(f, init);
      SubsequenceExtend(Unhit(f, init), init, e);
    }
  }

  /** One more enemy at the end of the list, as the inner loop meets it. */
  lemma UnhitSnoc(f: Sprite, es: seq<Sprite>, e: Sprite)
    ensures Unhit(f, es + [e]) == if RectIntersect(f, e) then Unhit(f, es) else Unhit(f, es) + [e]
    ensures HitsAny(f, es + [e]) <==> HitsAny(f, es) || RectIntersect(f, e)
  {
    assert (es + [e])[..|es|] == es;
  }

  /** The surviving fireballs and the surviving enemies. */
  datatype Volley = Volley(fireballs: seq<Sprite>, enemies: seq<Sprite>)

  /**
   * The fireball filter: a fireball past the right edge is dropped without
   * testing anything; any other removes every enemy it touches and is dropped
   * itself exactly when it touched one.
   */
  function FireballPass(fs: seq<Sprite>, es: seq<Sprite>): Volley
    decreases |fs|
  {
    if fs == [] then Volley([], es)
    else
      var before := FireballPass(fs[..|fs| - 1], es);
      var f := fs[|fs| - 1];
      if f.x > CanvasWidth then before
      else
        Volley(if HitsAny(f, before.enemies) then before.fireballs else before.fireballs + [f],
               Unhit(f, before.enemies))
  }

  /** The pass never adds enemies, and the surviving fireballs keep their order and are on screen. */
  lemma {:induction false} FireballPassShrinks(fs: seq<Sprite>, es: seq<Sprite>)
    ensures IsSubsequence(FireballPass(fs, es).enemies, es)
    ensures |FireballPass(fs, es).enemies| <= |es|
    ensures forall e :: e in FireballPass(fs, es).enemies ==> e in es
    ensures IsSubsequence(FireballPass(fs, es).fireballs, fs)
    ensures forall f :: f in FireballPass(fs, es).fireballs ==> f.x <= CanvasWidth
  {
    if fs == [] {
      SubsequenceReflexive(es);
    } else {
      var init, f := fs[..|fs| - 1], fs[|fs| - 1];
      assert fs == init + [f];
      var before := FireballPass(init, es);
      FireballPassShrinks(init, es);
      SubsequenceExtend(before.fireballs, init, f);
      UnhitRemovesTouched(f, before.enemies);
      SubsequenceTransitive(Unhit(f, before.enemies), before.enemies, es);
      SubsequenceMembers(Unhit(f, before.enemies), before.enemies);
    }
  }

  /** Afterwards no surviving fireball overlaps a surviving enemy. */
  lemma {:induction false} FireballPassNoOverlap(fs: seq<Sprite>, es: seq<Sprite>)
    ensures forall f, e :: f in FireballPass(fs, es).fireballs && e in FireballPass(fs, es).enemies ==>
              !RectIntersect(f, e)
  {
    if fs != [] {
      var init, f := fs[..|fs| - 1], fs[|fs| - 1];
      FireballPassNoOverlap(init, es);
      UnhitRemovesTouched(f, FireballPass(init, es).enemies);
    }
  }

  /** Every fireball still on screen, whether it survived or not, overlaps no surviving enemy. */
  lemma {:induction false} FireballPassClearsTargets(fs: seq<Sprite>, es: seq<Sprite>)
    ensures forall f, e :: f in fs && f.x <= CanvasWidth && e in FireballPass(fs, es).enemies ==>
              !RectIntersect(f, e)
  {
    if fs != [] {
      var init, f := fs[..|fs| - 1], fs[|fs| - 1];
      assert fs == init + [f];
      FireballPassClearsTargets(init, es);
      UnhitRemovesTouched(f, FireballPass(init, es).enemies);
    }
  }

  /** An enemy that no on-screen fireball touches survives the pass. */
  lemma {:induction false} FireballPassSparesUntouched(fs: seq<Sprite>, es: seq<Sprite>, e: Sprite)
    requires e in es
    requires forall f :: f in fs && f.x <= CanvasWidth ==> !RectIntersect(f, e)
    ensures e in FireballPass(fs, es).enemies
  {
    if fs != [] {
      var init, f := fs[..|fs| - 1], fs[|fs| - 1];
      assert fs == init + [f];
      FireballPassSparesUntouched(init, es, e);
      UnhitRemovesTouched(f, FireballPass(init, es).enemies);
    }
  }

  /** An on-screen fireball that touches none of the incoming enemies survives the pass. */
  lemma {:induction false} FireballPassKeepsMisses(fs: seq<Sprite>, es: seq<Sprite>, f: Sprite)
    requires f in fs && f.x <= CanvasWidth
    requires forall e :: e in es ==> !RectIntersect(f, e)
    ensures f in FireballPass(fs, es).fireballs
  {
    var init, last := fs[..|fs| - 1], fs[|fs| - 1];
    assert fs == init + [last];
    var before := FireballPass(init, es);
    if f in init {
      FireballPassKeepsMisses(init, es, f);
    } else {
      assert f == last;
      FireballPassShrinks(init, es);
      HitsAnyIffSomeOverlap(f, before.enemies);
    }
  }

  /**
   * An on-screen fireball that hits an enemy is used up. The enemy must be one
   * no other on-screen fireball reaches first, and f must occur once in fs.
   */
  lemma {:induction false} FireballPassDropsHitters(fs: seq<Sprite>, es: seq<Sprite>, f: Sprite, e: Sprite)
    requires multiset(fs)[f] == 1 && f.x <= CanvasWidth
    requires e in es && RectIntersect(f, e)
    requires forall g :: g in fs && g != f && g.x <= CanvasWidth ==> !RectIntersect(g, e)
    ensures f !in FireballPass(fs, es).fireballs
  {
    var init, last := fs[..|fs| - 1], fs[|fs| - 1];
    assert fs == init + [last];
    var before := FireballPass(init, es);
    FireballPassShrinks(init, es);
    SubsequenceMembers(before.fireballs, init);
    if last == f {
      assert multiset(init)[f] == 0;
      FireballPassSparesUntouched(init, es, e);
      HitsAnyIffSomeOverlap(f, before.enemies);
    } else {
      assert multiset(init)[f] == 1;
      FireballPassDropsHitters(init, es, f, e);
    }
  }
}
