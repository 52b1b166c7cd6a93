/**
 * The game as the Go code runs it: bullets and enemies are objects held by
 * reference in two slices, moved in place through those references, and
 * spliced out of the slices while the collision pass walks them.
 *
 * `Game.Update` is proved to compute exactly `Tick.Step` on the abstract
 * state `Game.State()`; what a tick promises is proved about `Step` in the
 * module Tick.
 */
module SideScrolling {
  import opened Geometry
  import opened Sequences
  import opened Collision
  import opened Tick
  import opened Actors

  class Game {
    /** Sizes of the waterdrop and fire images, which never change. */
    const sprites: Sprites

    var bgX: real
    var truckX: real
    var truckY: real
    var bullets: seq<Bullet>
    var enemies: seq<Enemy>
    var score: int
    /** How many times the collision sound has been triggered. */
    var sounds: nat

    /** No bullet and no enemy is held twice, so moving one moves no other. */
    ghost predicate Valid()
      reads this
    {
      Distinct(bullets) && Distinct(enemies)
    }

    /** The abstract state that `Tick.Step` advances. */
    function State(): World
      reads this, bullets, enemies
    {
      World(bgX, truckX, truckY, BulletPoints(bullets), EnemyPoints(enemies), score, sounds)
    }

    /** The game as `main` builds it: truck at (50, 250), nothing else yet. */
    constructor (sprites: Sprites)
      ensures Valid() && State() == Start && this.sprites == sprites
    {
      this.sprites := sprites;
      bgX := 0.0;
      truckX, truckY := 50.0, 250.0;
      bullets, enemies := [], [];
      score, sounds := 0, 0;
    }

    /**
     * One tick: scroll, move the truck, fire, run the collision pass,
     * spawn, move every enemy.
     */
    method Update(input: Input)
      requires Valid()
      modifies this, bullets, enemies
      ensures Valid()
      ensures State() == Step(old(State()), input, sprites)
    {
      ghost var w := State();
      PlayerPhase(input);
      ResolveCollisions();
      EnemyPhase(input);
    }

    /** The part of a tick before the collision pass: scroll, steer, fire. */
    method PlayerPhase(input: Input)
      requires Valid()
      modifies this
      ensures Valid()
      ensures State() == old(State()).(bgX := Scroll(old(bgX)),
                                       truckY := MoveTruck(old(truckY), input.up, input.down),
                                       bullets := Armed(old(State()), input))
      ensures enemies == old(enemies)
      ensures |old(bullets)| <= |bullets| && bullets[..|old(bullets)|] == old(bullets)
      ensures forall m :: |old(bullets)| <= m < |bullets| ==> fresh(bullets[m])
    {
      ScrollBackground();
      Steer(input);
      Fire(input);
    }

    /** The part of a tick after the collision pass: spawn, then move every enemy. */
    method EnemyPhase(input: Input)
      requires Valid()
      modifies this, enemies
      ensures Valid()
      ensures State() == old(State()).(enemies := Retreated(Spawned(old(State()).enemies, input)))
    {
      Spawn(input);
      MoveEnemies();
    }

    /** The background moves left by 2 and wraps to 0 at -800. */
    method ScrollBackground()
      modifies this`bgX
      ensures State() == old(State()).(bgX := Scroll(old(bgX)))
    {
      bgX := bgX - 2.0;
      if bgX <= -800.0 {
        bgX := 0.0;
      }
    }

    /** Up and Down, held, move the truck by 2. */
    method Steer(input: Input)
      modifies this`truckY
      ensures State() == old(State()).(truckY := MoveTruck(old(truckY), input.up, input.down))
    {
      if input.up {
        truckY := truckY - 2.0;
      }
      if input.down {
        truckY := truckY + 2.0;
      }
    }

    /** Space, just pressed, appends a bullet 50 right of and 25 below the truck. */
    method Fire(input: Input)
      requires Valid()
      modifies this`bullets
      ensures Valid()
      ensures State() == old(State()).(bullets := Shoot(old(State()).bullets, truckX, truckY, input.space))
      ensures |old(bullets)| <= |bullets| && bullets[..|old(bullets)|] == old(bullets)
      ensures forall m :: |old(bullets)| <= m < |bullets| ==> fresh(bullets[m])
    {
      if input.space {
        ghost var before := BulletPoints(bullets);
        var b := new Bullet(truckX + 50.0, truckY + 25.0);
        assert BulletPoints(bullets) == before;
        DistinctSnoc(bullets, b);
        bullets := bullets + [b];
        assert BulletPoints(bullets) == before + [Muzzle(truckX, truckY)];
      }
    }

    /** With probability 0.02 an enemy is appended at the right edge, at a random height. */
    method Spawn(input: Input)
      requires Valid()
      modifies this`enemies
      ensures Valid()
      ensures State() == old(State()).(enemies := Spawned(old(State()).enemies, input))
      ensures |old(enemies)| <= |enemies| && enemies[..|old(enemies)|] == old(enemies)
      ensures forall m :: |old(enemies)| <= m < |enemies| ==> fresh(enemies[m])
    {
      if input.Spawns() {
        ghost var before := EnemyPoints(enemies);
        var e := new Enemy(800.0, input.yDraw * 600.0);
        assert EnemyPoints(enemies) == before;
        DistinctSnoc(enemies, e);
        enemies := enemies + [e];
        assert EnemyPoints(enemies) == before + [SpawnPoint(input.yDraw)];
      }
    }

    /**
     * The collision pass: every bullet, the one just fired included, is
     * moved once and tested once against the enemies; on the first
     * overlapping enemy both are spliced out, the sound is triggered, the
     * score rises, and the index steps back so that the bullet shifted into
     * this slot is the next one handled.
     */
    method ResolveCollisions()
      requires Valid()
      modifies this, bullets
      ensures Valid()
      ensures AllIn(bullets, old(bullets))
      ensures forall m :: 0 <= m < |enemies| ==> enemies[m] in old(enemies)
      ensures bgX == old(bgX) && truckX == old(truckX) && truckY == old(truckY)
      ensures var r := Pass(old(BulletPoints(bullets)), old(EnemyPoints(enemies)), sprites);
        && BulletPoints(bullets) == r.bullets
        && EnemyPoints(enemies) == r.enemies
        && score == old(score) + r.hits
        && sounds == old(sounds) + r.hits
    {
      ghost var start := State();
      ghost var bs0, es0 := bullets, enemies;
      ghost var c := Cursor([], 0, 0, start.enemies);
      StartWalking();
      var i: int := 0;
      while i < |bullets|
        invariant Walking(bullets, enemies, score, sounds, i, c, start, sprites, bs0, es0)
        invariant bgX == start.bgX && truckX == start.truckX && truckY == start.truckY
        decreases |bullets| - i
      {
        var hit;
        hit, c := Round(i, c, start, bs0, es0);
        if hit {
          i := i - 1;
        }
        i := i + 1;
      }
      FinishWalking(i, c, start, bs0, es0);
    }

    /** Before the first round nothing is handled and the whole slice is still to do. */
    lemma StartWalking()
      requires Valid()
      ensures Walking(bullets, enemies, score, sounds, 0, Cursor([], 0, 0, State().enemies), State(), sprites,
                      bullets, enemies)
    {
      assert State().bullets[0..] == State().bullets;
    }

    /** Once the index reaches the end of the slice, the slices hold what the whole pass leaves. */
    lemma FinishWalking(i: int, c: Cursor, start: World, bs0: seq<Bullet>, es0: seq<Enemy>)
      requires Walking(bullets, enemies, score, sounds, i, c, start, sprites, bs0, es0) && i >= |bullets|
      ensures var r := Pass(start.bullets, start.enemies, sprites);
        && BulletPoints(bullets) == r.bullets
        && EnemyPoints(enemies) == r.enemies
        && score == start.score + r.hits
        && sounds == start.sounds + r.hits
      ensures Valid() && forall m :: 0 <= m < |enemies| ==> enemies[m] in es0
      ensures AllIn(bullets, bs0)
    {
      assert start.bullets[c.k..] == [];
    }

    /**
     * One turn of the outer loop: the bullet in slot `i` is handled, and
     * the pass moves on to the next slot, or stays on this one when the
     * bullet was spliced out.
     */
    method Round(i: nat, ghost c: Cursor, ghost start: World, ghost bs0: seq<Bullet>, ghost es0: seq<Enemy>)
      returns (hit: bool, ghost c': Cursor)
      requires Walking(bullets, enemies, score, sounds, i, c, start, sprites, bs0, es0) && i < |bullets|
      modifies this, bullets[i]
      ensures Walking(bullets, enemies, score, sounds, if hit then i else i + 1, c', start, sprites, bs0, es0)
      ensures |bullets| == old(|bullets|) - (if hit then 1 else 0)
      ensures bgX == old(bgX) && truckX == old(truckX) && truckY == old(truckY)
    {
      ghost var now := c.done + start.bullets[c.k..];
      hit := HandleBullet(i, now, c.left);
      if hit {
        c' := TallyHit(c, start.bullets, start.enemies, sprites);
      } else {
        c' := TallyMiss(c, start.bullets, start.enemies, sprites);
      }
    }

    /**
     * One round of the collision pass: bullet `i` is moved, and if it
     * overlaps an enemy the first such enemy is removed with it.
     */
    method HandleBullet(i: nat, ghost now: seq<Point>, ghost left: seq<Point>) returns (hit: bool)
      requires Valid() && i < |bullets|
      requires BulletsAt(bullets, now) && EnemiesAt(enemies, left)
      modifies this, bullets[i]
      ensures Valid()
      ensures bgX == old(bgX) && truckX == old(truckX) && truckY == old(truckY)
      ensures hit <==> FirstHit(Advance(now[i]), left, sprites).Some?
      ensures !hit ==>
        && bullets == old(bullets) && enemies == old(enemies)
        && BulletsAt(bullets, now[i := Advance(now[i])]) && EnemiesAt(enemies, left)
        && score == old(score) && sounds == old(sounds)
      ensures hit ==>
        var j := FirstHit(Advance(now[i]), left, sprites).value;
        && bullets == RemoveAt(old(bullets), i) && enemies == RemoveAt(old(enemies), j)
        && BulletsAt(bullets, RemoveAt(now[i := Advance(now[i])], i)) && EnemiesAt(enemies, RemoveAt(left, j))
        && score == old(score) + 1 && sounds == old(sounds) + 1
    {
      MoveBullet(i, now);
      var j;
      hit, j := FirstOverlap(bullets[i]);
      if hit {
        assert FirstHit(Advance(now[i]), left, sprites) == Some(j);
        BulletsAtRemoveAt(bullets, now[i := Advance(now[i])], i);
        EnemiesAtRemoveAt(enemies, left, j);
        RemovePair(i, j);
      }
    }

    /** Bullet `i` moves; no other bullet does, since none is held twice. */
    method MoveBullet(i: nat, ghost now: seq<Point>)
      requires Valid() && i < |bullets| && BulletsAt(bullets, now)
      modifies bullets[i]
      ensures BulletsAt(bullets, now[i := Advance(now[i])])
    {
      var bullet := bullets[i];
      bullet.Update();
      forall m | 0 <= m < |bullets| && m != i
        ensures bullets[m].Pos() == old(bullets[m].Pos())
      {
        assert bullets[m] != bullet;
      }
    }

    /**
     * The scan of the enemies for one bullet: the first enemy, in list
     * order, whose box overlaps the bullet's, if there is one.
     */
    method FirstOverlap(bullet: Bullet) returns (hit: bool, j: nat)
      ensures hit ==> j < |enemies| && Overlaps(bullet.Pos(), enemies[j].Pos(), sprites)
      ensures hit ==> forall m :: 0 <= m < j ==> !Overlaps(bullet.Pos(), enemies[m].Pos(), sprites)
      ensures !hit ==> forall m :: 0 <= m < |enemies| ==> !Overlaps(bullet.Pos(), enemies[m].Pos(), sprites)
    {
      j := 0;
      hit := false;
      while j < |enemies|
        invariant j <= |enemies| && !hit
        invariant forall m :: 0 <= m < j ==> !Overlaps(bullet.Pos(), enemies[m].Pos(), sprites)
      {
        if Overlaps(bullet.Pos(), enemies[j].Pos(), sprites) {
          hit := true;
          break;
        }
        j := j + 1;
      }
    }

    /**
     * A hit: the sound is triggered, the score rises, and bullet `i` and
     * enemy `j` are spliced out of their slices.
     */
    method RemovePair(i: nat, j: nat)
      requires Valid() && i < |bullets| && j < |enemies|
      modifies this
      ensures Valid()
      ensures bullets == RemoveAt(old(bullets), i) && enemies == RemoveAt(old(enemies), j)
      ensures score == old(score) + 1 && sounds == old(sounds) + 1
      ensures bgX == old(bgX) && truckX == old(truckX) && truckY == old(truckY)
    {
      DistinctRemoveAt(bullets, i);
      DistinctRemoveAt(enemies, j);
      sounds := sounds + 1;
      score := score + 1;
      bullets := RemoveAt(bullets, i);
      enemies := RemoveAt(enemies, j);
    }

    /** Moves every enemy, a newly spawned one included, left by 2. */
    method MoveEnemies()
      requires Valid()
      modifies enemies
      ensures State() == old(State()).(enemies := Retreated(old(State()).enemies))
    {
      for n := 0 to |enemies|
        invariant forall m :: 0 <= m < n ==> enemies[m].Pos() == Retreat(old(enemies[m].Pos()))
        invariant forall m :: n <= m < |enemies| ==> enemies[m].Pos() == old(enemies[m].Pos())
      {
        enemies[n].Update();
      }
    }
  }
}
