/**
 * One tick of the game (`Game.Update`) as a function on the game's state,
 * with the engine's inputs made explicit, and what a tick and a run of
 * ticks promise.
 */
module Tick {
  import opened Geometry
  import opened Sequences
  import opened Collision

  /**
   * What the engine supplies to one tick: the Up and Down keys held, the
   * Space key just pressed, and the two uniform draws in [0, 1) that
   * `rand.Float64` returns — the spawn draw and, used only when an enemy
   * spawns, the draw that places it vertically.
   */
  datatype Input = Input(up: bool, down: bool, space: bool, spawnDraw: real, yDraw: real)
  {
    /** Both draws lie in [0, 1), as `rand.Float64` guarantees. */
    predicate Drawn() {
      0.0 <= spawnDraw < 1.0 && 0.0 <= yDraw < 1.0
    }

    /** An enemy spawns when the spawn draw is below 0.02. */
    predicate Spawns() {
      spawnDraw < 0.02
    }
  }

  /**
   * The game's state: background offset, truck position, live bullets and
   * enemies in list order, the score, and how many times the collision
   * sound has been triggered.
   */
  datatype World = World(bgX: real, truckX: real, truckY: real,
                         bullets: seq<Point>, enemies: seq<Point>,
                         score: int, sounds: nat)

  /** The state `main` starts the game in: truck at (50, 250), everything else zero. */
  const Start := World(0.0, 50.0, 250.0, [], [], 0, 0)

  /** Width of the background image, after which the offset wraps. */
  const BackgroundWidth: real := 800.0

  /** The background scrolls left by 2 and snaps back to 0 once it reaches -800. */
  function Scroll(bgX: real): (r: real)
    ensures -BackgroundWidth < bgX <= 0.0 ==> -BackgroundWidth < r <= 0.0
    ensures r == 0.0 <==> bgX <= 2.0 - BackgroundWidth || bgX == 2.0
    ensures r != 0.0 ==> r == bgX - 2.0
  {
    if bgX - 2.0 <= -BackgroundWidth then 0.0 else bgX - 2.0
  }

  /** The offset after `n` ticks starting from `bgX`. */
  function ScrollN(bgX: real, n: nat): real {
    if n == 0 then bgX else Scroll(ScrollN(bgX, n - 1))
  }

  /**
   * From rest the background repeats with a period of 400 ticks: after `n`
   * ticks the offset is -2 * (n mod 400).
   */
  lemma {:induction false} ScrollPeriod(n: nat)
    ensures ScrollN(0.0, n) == -2.0 * (n % 400) as real
  {
    if n > 0 {
      ScrollPeriod(n - 1);
      if (n - 1) % 400 == 399 {
        assert n % 400 == 0;
      } else {
        assert n % 400 == (n - 1) % 400 + 1;
      }
    }
  }

  /** Up moves the truck up by 2, Down moves it down by 2; both cancel. */
  function MoveTruck(y: real, up: bool, down: bool): (r: real)
    ensures up == down ==> r == y
    ensures up && !down ==> r == y - 2.0
    ensures down && !up ==> r == y + 2.0
  {
    var y1 := if up then y - 2.0 else y;
    if down then y1 + 2.0 else y1
  }

  /** Where a bullet fired from the truck at (`truckX`, `truckY`) appears. */
  function Muzzle(truckX: real, truckY: real): Point {
    Point(truckX + 50.0, truckY + 25.0)
  }

  /** Where a spawned enemy appears: the right edge, at height `yDraw` * 600. */
  function SpawnPoint(yDraw: real): (r: Point)
    ensures r.x == 800.0
    ensures 0.0 <= yDraw < 1.0 ==> 0.0 <= r.y < 600.0
  {
    Point(800.0, yDraw * 600.0)
  }

  /** The bullets `bs`, then one at the muzzle of the truck at (`truckX`, `truckY`) if Space was pressed. */
  function Shoot(bs: seq<Point>, truckX: real, truckY: real, space: bool): (r: seq<Point>)
    ensures |r| == |bs| + (if space then 1 else 0)
    ensures r[..|bs|] == bs
    ensures space ==> r[|bs|] == Point(truckX + 50.0, truckY + 25.0)
  {
    if space then bs + [Muzzle(truckX, truckY)] else bs
  }

  /** The bullets entering the collision pass: the old ones, then the one fired from the moved truck. */
  function Armed(w: World, input: Input): seq<Point> {
    Shoot(w.bullets, w.truckX, MoveTruck(w.truckY, input.up, input.down), input.space)
  }

  /** The enemies after the spawn decision: the survivors, then the spawned one. */
  function Spawned(es: seq<Point>, input: Input): (r: seq<Point>)
    ensures |r| == |es| + (if input.Spawns() then 1 else 0)
    ensures r[..|es|] == es
    ensures input.Spawns() ==> r[|es|] == SpawnPoint(input.yDraw)
  {
    if input.Spawns() then es + [SpawnPoint(input.yDraw)] else es
  }

  /**
   * One tick, in the order the Go `Update` performs it: scroll, move the truck,
   * fire, move and test every bullet against the enemies as they were
   * before this tick, spawn, and finally move every enemy, the new one
   * included.
   */
  function Step(w: World, input: Input, sp: Sprites): (r: World)
    ensures r.truckX == w.truckX
    ensures r.score >= w.score && r.sounds - w.sounds == r.score - w.score
    ensures -BackgroundWidth < w.bgX <= 0.0 ==> -BackgroundWidth < r.bgX <= 0.0
  {
    var ty := MoveTruck(w.truckY, input.up, input.down);
    var r := Pass(Armed(w, input), w.enemies, sp);
    World(Scroll(w.bgX), w.truckX, ty, r.bullets, Retreated(Spawned(r.enemies, input)),
          w.score + r.hits, w.sounds + r.hits)
  }

  /**
   * The bookkeeping of one tick: the score and the sound count rise by the
   * same number of hits; a bullet is added exactly when Space was just
   * pressed and an enemy exactly when the draw spawns one; each hit takes
   * away one bullet and one enemy; the truck moves only vertically.
   */
  lemma StepCounts(w: World, input: Input, sp: Sprites)
    ensures var w' := Step(w, input, sp);
      && w'.score >= w.score
      && w'.sounds - w.sounds == w'.score - w.score
      && |w'.bullets| == |w.bullets| + (if input.space then 1 else 0) - (w'.score - w.score)
      && |w'.enemies| == |w.enemies| + (if input.Spawns() then 1 else 0) - (w'.score - w.score)
      && w'.truckX == w.truckX
      && w'.truckY - w.truckY == (if input.down then 2.0 else 0.0) - (if input.up then 2.0 else 0.0)
  {
  }

  lemma {:induction false} RetreatedKeepsSubseq(a: seq<Point>, b: seq<Point>)
    requires Subseq(a, b)
    ensures Subseq(Retreated(a), Retreated(b))
    decreases |b|
  {
    if a != [] {
      assert Retreated(a)[1..] == Retreated(a[1..]);
      assert Retreated(b)[1..] == Retreated(b[1..]);
      if a[0] == b[0] && Subseq(a[1..], b[1..]) {
        RetreatedKeepsSubseq(a[1..], b[1..]);
      } else {
        RetreatedKeepsSubseq(a, b[1..]);
      }
    }
  }

  /**
   * Survivors keep their relative order: the bullets after a tick are a
   * selection of the old bullets (then the fired one) each moved right
   * by 4, and the enemies a selection of the old enemies (then the spawned
   * one) each moved left by 2.
   */
  lemma StepKeepsOrder(w: World, input: Input, sp: Sprites)
    ensures Subseq(Step(w, input, sp).bullets, Advanced(Armed(w, input)))
    ensures Subseq(Step(w, input, sp).enemies,
                   Retreated(Spawned(w.enemies, input)))
  {
    var r := Pass(Armed(w, input), w.enemies, sp);
    PassKeepsOrder(Armed(w, input), w.enemies, sp);
    if input.Spawns() {
      SubseqSnoc(r.enemies, w.enemies, SpawnPoint(input.yDraw));
      RetreatedKeepsSubseq(r.enemies + [SpawnPoint(input.yDraw)], w.enemies + [SpawnPoint(input.yDraw)]);
    } else {
      RetreatedKeepsSubseq(r.enemies, w.enemies);
    }
  }

  /**
   * The bullet fired this tick is moved in the same tick and tested last,
   * against the enemies the older bullets left: if none of them overlaps
   * it, it is the last bullet, at (truckX + 54, truckY' + 25) with the
   * already-moved truckY'; otherwise it scores.
   */
  lemma StepFiredBullet(w: World, input: Input, sp: Sprites)
    requires input.space
    ensures var ty := MoveTruck(w.truckY, input.up, input.down);
      var shot := Point(w.truckX + 54.0, ty + 25.0);
      var older := Pass(w.bullets, w.enemies, sp);
      var w' := Step(w, input, sp);
      if FirstHit(shot, older.enemies, sp).None? then
        w'.bullets == older.bullets + [shot] && w'.score == w.score + older.hits
      else
        w'.bullets == older.bullets && w'.score == w.score + older.hits + 1
  {
    var ty := MoveTruck(w.truckY, input.up, input.down);
    PassLast(w.bullets, Muzzle(w.truckX, ty), w.enemies, sp);
  }

  /**
   * Every enemy ends the tick two to the left of where the collision pass
   * left it, with its height kept; an enemy spawned this tick ends it at
   * x = 798, at a height in [0, 600).
   */
  lemma StepEnemies(w: World, input: Input, sp: Sprites)
    ensures var w' := Step(w, input, sp);
      var left := Pass(Armed(w, input), w.enemies, sp).enemies;
      && (forall k :: 0 <= k < |left| ==> w'.enemies[k] == Point(left[k].x - 2.0, left[k].y))
      && (input.Spawns() ==>
            |w'.enemies| == |left| + 1 && w'.enemies[|left|] == Point(798.0, input.yDraw * 600.0))
      && (input.Spawns() && input.Drawn() ==> 0.0 <= w'.enemies[|left|].y < 600.0)
      && (!input.Spawns() ==> |w'.enemies| == |left|)
  {
  }

  /** Firing with no enemies about: the new bullet flies, 54 right of the truck. */
  lemma FireIntoClearSky(w: World, input: Input, sp: Sprites)
    requires w.bullets == [] && w.enemies == [] && input.space
    ensures var ty := MoveTruck(w.truckY, input.up, input.down);
      Step(w, input, sp).bullets == [Point(w.truckX + 54.0, ty + 25.0)]
  {
    var ty := MoveTruck(w.truckY, input.up, input.down);
    PassWithoutEnemies([Muzzle(w.truckX, ty)], sp);
  }

  /**
   * A lone bullet that, once moved, overlaps a lone enemy: both are gone
   * after the tick, the score and the sound count rise by one.
   */
  lemma DirectHit(w: World, input: Input, sp: Sprites)
    requires |w.bullets| == 1 && |w.enemies| == 1 && !input.space && !input.Spawns()
    requires Overlaps(Advance(w.bullets[0]), w.enemies[0], sp)
    ensures var w' := Step(w, input, sp);
      w'.bullets == [] && w'.enemies == [] && w'.score == w.score + 1 && w'.sounds == w.sounds + 1
  {
    assert FirstHit(Advance(w.bullets[0]), w.enemies, sp) == Some(0);
    assert Pass(w.bullets[1..], RemoveAt(w.enemies, 0), sp) == Outcome([], [], 0);
  }

  /**
   * The state after a run of ticks, one per input. Over any run the score
   * never decreases, the truck never moves sideways, and the offset stays
   * in (-800, 0] when it starts there.
   */
  function Run(w: World, inputs: seq<Input>, sp: Sprites): (r: World)
    ensures r.score >= w.score
    ensures r.truckX == w.truckX
    ensures -BackgroundWidth < w.bgX <= 0.0 ==> -BackgroundWidth < r.bgX <= 0.0
    decreases |inputs|
  {
    if inputs == [] then w else Run(Step(w, inputs[0], sp), inputs[1..], sp)
  }

  /**
   * With no enemies, no firing and no spawning, every bullet flies right by
   * 4 per tick and none disappears: the game never despawns drops that
   * leave the screen.
   */
  lemma {:induction false} BulletsFlyFreely(w: World, inputs: seq<Input>, sp: Sprites)
    requires w.enemies == []
    requires forall k :: 0 <= k < |inputs| ==> !inputs[k].space && !inputs[k].Spawns()
    ensures var w' := Run(w, inputs, sp);
      && |w'.bullets| == |w.bullets|
      && w'.enemies == []
      && forall k :: 0 <= k < |w.bullets| ==>
           w'.bullets[k] == Point(w.bullets[k].x + 4.0 * |inputs| as real, w.bullets[k].y)
    decreases |inputs|
  {
    if inputs != [] {
      PassWithoutEnemies(w.bullets, sp);
      var w1 := Step(w, inputs[0], sp);
      assert w1.bullets == Advanced(w.bullets) && w1.enemies == [];
      BulletsFlyFreely(w1, inputs[1..], sp);
    }
  }
}
