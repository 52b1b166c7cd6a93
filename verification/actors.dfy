/**
 * The two kinds of moving objects of the game, held by reference, and
 * what ties a slice of them to the positions the pure model works with.
 */
module Actors {
  import opened Geometry
  import opened Sequences
  import opened Collision
  import opened Tick

  /** A water drop fired by the truck. */
  class Bullet {
    var x: real
    var y: real

    constructor (x: real, y: real)
      ensures Pos() == Point(x, y)
    {
      this.x := x;
      this.y := y;
    }

    function Pos(): Point
      reads this
    {
      Point(x, y)
    }

    /** Moves the drop right by 4. */
    method Update()
      modifies this
      ensures Pos() == Advance(old(Pos()))
    {
      x := x + 4.0;
    }
  }

  /** A fire moving towards the truck. */
  class Enemy {
    var x: real
    var y: real

    constructor (x: real, y: real)
      ensures Pos() == Point(x, y)
    {
      this.x := x;
      this.y := y;
    }

    function Pos(): Point
      reads this
    {
      Point(x, y)
    }

    /** Moves the fire left by 2. */
    method Update()
      modifies this
      ensures Pos() == Retreat(old(Pos()))
    {
      x := x - 2.0;
    }
  }

  /** The positions of the bullets `bs`, in slice order. */
  function BulletPoints(bs: seq<Bullet>): (r: seq<Point>)
    reads bs
    ensures |r| == |bs|
    ensures forall k :: 0 <= k < |bs| ==> r[k] == bs[k].Pos()
  {
    seq(|bs|, k reads bs requires 0 <= k < |bs| => bs[k].Pos())
  }

  /** The positions of the enemies `es`, in slice order. */
  function EnemyPoints(es: seq<Enemy>): (r: seq<Point>)
    reads es
    ensures |r| == |es|
    ensures forall k :: 0 <= k < |es| ==> r[k] == es[k].Pos()
  {
    seq(|es|, k reads es requires 0 <= k < |es| => es[k].Pos())
  }

  /** The bullets `bs` stand at the positions `ps`, slot by slot. */
  ghost predicate BulletsAt(bs: seq<Bullet>, ps: seq<Point>)
    reads bs
  {
    |bs| == |ps| && forall m :: 0 <= m < |bs| ==> bs[m].Pos() == ps[m]
  }

  /** The enemies `es` stand at the positions `ps`, slot by slot. */
  ghost predicate EnemiesAt(es: seq<Enemy>, ps: seq<Point>)
    reads es
  {
    |es| == |ps| && forall m :: 0 <= m < |es| ==> es[m].Pos() == ps[m]
  }

  lemma BulletsAtRemoveAt(bs: seq<Bullet>, ps: seq<Point>, i: nat)
    requires BulletsAt(bs, ps) && i < |bs|
    ensures BulletsAt(RemoveAt(bs, i), RemoveAt(ps, i))
  {
  }

  lemma EnemiesAtRemoveAt(es: seq<Enemy>, ps: seq<Point>, j: nat)
    requires EnemiesAt(es, ps) && j < |es|
    ensures EnemiesAt(RemoveAt(es, j), RemoveAt(ps, j))
  {
  }

  /**
   * How far the collision pass over the slices `bs` and `es` has got: the
   * slices hold no object twice and only objects of `bs0` and `es0`; the first `i` slots hold the survivors
   * `c.done` among the first `c.k` bullets of `start`, already moved; the
   * rest is still the unhandled bullets of `start`; the enemies stand at
   * `c.left`; and finishing the pass from here gives the whole pass.
   */
  ghost predicate Walking(bs: seq<Bullet>, es: seq<Enemy>, score: int, sounds: nat,
                          i: int, c: Cursor, start: World, sp: Sprites,
                          bs0: seq<Bullet>, es0: seq<Enemy>)
    reads bs, es
  {
    && Distinct(bs) && Distinct(es)
    && (forall m :: 0 <= m < |bs| ==> bs[m] in bs0)
    && (forall m :: 0 <= m < |es| ==> es[m] in es0)
    && 0 <= i <= |bs| && i == |c.done| && c.k == i + c.hits
    && Tally(c, start.bullets, start.enemies, sp)
    && BulletsAt(bs, c.done + start.bullets[c.k..])
    && EnemiesAt(es, c.left)
    && score == start.score + c.hits && sounds == start.sounds + c.hits
  }
}
