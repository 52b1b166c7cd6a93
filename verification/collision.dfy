/**
 * The movers and the collision pass of one tick, as functions on values.
 *
 * `Pass` is the meaning of the nested loop in `Game.Update`: bullets are
 * taken in list order, each is moved once and then removed together with
 * the first enemy (in list order) it overlaps, if any.
 */
module Collision {
  import opened Geometry
  import opened Sequences

  datatype Option<T> = None | Some(value: T)

  /** `Bullet.Update`: a bullet moves right by 4 per tick. */
  function Advance(b: Point): Point {
    Point(b.x + 4.0, b.y)
  }

  /** `Enemy.Update`: an enemy moves left by 2 per tick. */
  function Retreat(e: Point): Point {
    Point(e.x - 2.0, e.y)
  }

  /** Every bullet moved once, in place. */
  function Advanced(bs: seq<Point>): (r: seq<Point>)
    ensures |r| == |bs|
    ensures forall k :: 0 <= k < |bs| ==> r[k] == Point(bs[k].x + 4.0, bs[k].y)
  {
    seq(|bs|, k requires 0 <= k < |bs| => Advance(bs[k]))
  }

  /** Every enemy moved once, in place. */
  function Retreated(es: seq<Point>): (r: seq<Point>)
    ensures |r| == |es|
    ensures forall k :: 0 <= k < |es| ==> r[k] == Point(es[k].x - 2.0, es[k].y)
  {
    seq(|es|, k requires 0 <= k < |es| => Retreat(es[k]))
  }

  /**
   * The enemy that the bullet at `b` hits: the first one in list order
   * whose box overlaps the bullet's, or none.
   */
  function FirstHit(b: Point, es: seq<Point>, sp: Sprites): (r: Option<nat>)
    ensures r.Some? ==> r.value < |es| && Overlaps(b, es[r.value], sp)
    ensures r.Some? ==> forall k :: 0 <= k < r.value ==> !Overlaps(b, es[k], sp)
    ensures r.None? <==> forall k :: 0 <= k < |es| ==> !Overlaps(b, es[k], sp)
    decreases |es|
  {
    if es == [] then None
    else if Overlaps(b, es[0], sp) then Some(0)
    else match FirstHit(b, es[1..], sp)
      case None => None
      case Some(j) => Some(j + 1)
  }

  /** What is left after the collision pass, and how many pairs it removed. */
  datatype Outcome = Outcome(bullets: seq<Point>, enemies: seq<Point>, hits: nat)

  /**
   * The collision pass over bullets `bs` (not yet moved) and enemies `es`.
   * Each bullet is moved once and tested once against the enemies still
   * alive at that moment; a hit removes the bullet and exactly one enemy.
   */
  function Pass(bs: seq<Point>, es: seq<Point>, sp: Sprites): (r: Outcome)
    ensures |r.bullets| + r.hits == |bs|
    ensures |r.enemies| + r.hits == |es|
    decreases |bs|
  {
    if bs == [] then Outcome([], es, 0)
    else
      var b := Advance(bs[0]);
      match FirstHit(b, es, sp)
      case None =>
        var r := Pass(bs[1..], es, sp);
        Outcome([b] + r.bullets, r.enemies, r.hits)
      case Some(j) =>
        var r := Pass(bs[1..], RemoveAt(es, j), sp);
        Outcome(r.bullets, r.enemies, r.hits + 1)
  }

  /**
   * The survivors of the pass keep their relative order: the bullets left
   * are a selection of the moved bullets, the enemies left a selection of
   * the enemies.
   */
  lemma {:induction false} PassKeepsOrder(bs: seq<Point>, es: seq<Point>, sp: Sprites)
    ensures Subseq(Pass(bs, es, sp).bullets, Advanced(bs))
    ensures Subseq(Pass(bs, es, sp).enemies, es)
    decreases |bs|
  {
    if bs == [] {
      SubseqRefl(es);
    } else {
      var b := Advance(bs[0]);
      assert Advanced(bs) == [b] + Advanced(bs[1..]);
      match FirstHit(b, es, sp)
      case None =>
        PassKeepsOrder(bs[1..], es, sp);
        SubseqCons(b, Pass(bs[1..], es, sp).bullets, Advanced(bs[1..]));
      case Some(j) =>
        var es' := RemoveAt(es, j);
        PassKeepsOrder(bs[1..], es', sp);
        assert Advanced(bs)[1..] == Advanced(bs[1..]);
        RemoveAtIsSubseq(es, j);
        SubseqTrans(Pass(bs[1..], es', sp).enemies, es', es);
    }
  }

  /** No bullet of `bs` overlaps an enemy of `es`. */
  predicate Separated(bs: seq<Point>, es: seq<Point>, sp: Sprites) {
    forall i, j :: 0 <= i < |bs| && 0 <= j < |es| ==> !Overlaps(bs[i], es[j], sp)
  }

  /**
   * Moving and testing every bullet exactly once leaves no overlapping
   * pair behind: after the pass no surviving bullet overlaps a surviving
   * enemy.
   */
  lemma {:induction false} PassLeavesNoOverlap(bs: seq<Point>, es: seq<Point>, sp: Sprites)
    ensures Separated(Pass(bs, es, sp).bullets, Pass(bs, es, sp).enemies, sp)
    decreases |bs|
  {
    if bs != [] {
      var b := Advance(bs[0]);
      match FirstHit(b, es, sp)
      case None =>
        var r := Pass(bs[1..], es, sp);
        PassLeavesNoOverlap(bs[1..], es, sp);
        PassKeepsOrder(bs[1..], es, sp);
        SubseqMembers(r.enemies, es);
        var all := [b] + r.bullets;
        assert Pass(bs, es, sp) == Outcome(all, r.enemies, r.hits);
        forall i, j | 0 <= i < |all| && 0 <= j < |r.enemies| ensures !Overlaps(all[i], r.enemies[j], sp) {
          if i > 0 {
            assert all[i] == r.bullets[i - 1];
          } else {
            assert r.enemies[j] in es;
          }
        }
      case Some(j) =>
        var r := Pass(bs[1..], RemoveAt(es, j), sp);
        PassLeavesNoOverlap(bs[1..], RemoveAt(es, j), sp);
        assert Pass(bs, es, sp) == Outcome(r.bullets, r.enemies, r.hits + 1);
    }
  }

  /** With no enemies, the pass only moves every bullet once and scores nothing. */
  lemma {:induction false} PassWithoutEnemies(bs: seq<Point>, sp: Sprites)
    ensures Pass(bs, [], sp) == Outcome(Advanced(bs), [], 0)
    decreases |bs|
  {
    if bs != [] {
      PassWithoutEnemies(bs[1..], sp);
      assert Advanced(bs) == [Advance(bs[0])] + Advanced(bs[1..]);
    }
  }

  /**
   * A bullet appended after `bs` is handled after all of them: it is moved
   * and tested against the enemies the earlier bullets left alive.
   */
  lemma {:induction false} PassLast(bs: seq<Point>, b: Point, es: seq<Point>, sp: Sprites)
    ensures var r := Pass(bs, es, sp);
      Pass(bs + [b], es, sp) ==
        match FirstHit(Advance(b), r.enemies, sp)
        case None => Outcome(r.bullets + [Advance(b)], r.enemies, r.hits)
        case Some(j) => Outcome(r.bullets, RemoveAt(r.enemies, j), r.hits + 1)
    decreases |bs|
  {
    if bs == [] {
      assert [] + [b] == [b];
      assert Pass([b][1..], es, sp) == Outcome([], es, 0);
      match FirstHit(Advance(b), es, sp)
      case None =>
      case Some(j) =>
        assert Pass([b][1..], RemoveAt(es, j), sp) == Outcome([], RemoveAt(es, j), 0);
    } else {
      assert (bs + [b])[0] == bs[0] && (bs + [b])[1..] == bs[1..] + [b];
      var b0 := Advance(bs[0]);
      match FirstHit(b0, es, sp)
      case None =>
        PassLast(bs[1..], b, es, sp);
        var r := Pass(bs[1..], es, sp);
        assert ([b0] + r.bullets) + [Advance(b)] == [b0] + (r.bullets + [Advance(b)]);
      case Some(j) =>
        PassLast(bs[1..], b, RemoveAt(es, j), sp);
    }
  }

  /**
   * The collision pass part-way through: the surviving moved bullets so
   * far, how many bullets of the original slice have been handled, the
   * hits so far, and the enemies still alive.
   */
  datatype Cursor = Cursor(done: seq<Point>, k: nat, hits: nat, left: seq<Point>)

  /** The outcome of the whole pass, from the part already done and the outcome of the rest. */
  function Rejoin(done: seq<Point>, hits: nat, rest: Outcome): Outcome {
    Outcome(done + rest.bullets, rest.enemies, hits + rest.hits)
  }

  /**
   * The pass so far agrees with the whole pass on the bullets `orig` and
   * enemies `es0`: the first `c.k` bullets are handled, and handling the
   * rest against the enemies still alive completes it.
   */
  ghost predicate Tally(c: Cursor, orig: seq<Point>, es0: seq<Point>, sp: Sprites) {
    c.k <= |orig| && Pass(orig, es0, sp) == Rejoin(c.done, c.hits, Pass(orig[c.k..], c.left, sp))
  }

  /**
   * Handling bullet `c.k` when it hits nothing: it joins the survivors,
   * and the slot that held it now holds it moved.
   */
  lemma TallyMiss(c: Cursor, orig: seq<Point>, es0: seq<Point>, sp: Sprites) returns (c': Cursor)
    requires Tally(c, orig, es0, sp) && c.k < |orig|
    requires FirstHit(Advance(orig[c.k]), c.left, sp).None?
    ensures c' == Cursor(c.done + [Advance(orig[c.k])], c.k + 1, c.hits, c.left)
    ensures Tally(c', orig, es0, sp)
    ensures (c.done + orig[c.k..])[|c.done| := Advance(orig[c.k])] == c'.done + orig[c'.k..]
  {
    var b := Advance(orig[c.k]);
    c' := Cursor(c.done + [b], c.k + 1, c.hits, c.left);
    var r := Pass(orig[c.k + 1..], c.left, sp);
    PassFront(orig[c.k..], c.left, sp);
    assert orig[c.k..][1..] == orig[c.k + 1..];
    assert c.done + ([b] + r.bullets) == c'.done + r.bullets;
    SlotUpdate(c.done, orig[c.k], b, orig[c.k + 1..]);
    assert orig[c.k..] == [orig[c.k]] + orig[c.k + 1..];
  }

  /**
   * Handling bullet `c.k` when its first overlap is enemy `j`: both go,
   * one more hit, and the slot that held the bullet is spliced out.
   */
  lemma TallyHit(c: Cursor, orig: seq<Point>, es0: seq<Point>, sp: Sprites) returns (c': Cursor)
    requires Tally(c, orig, es0, sp) && c.k < |orig|
    requires FirstHit(Advance(orig[c.k]), c.left, sp).Some?
    ensures var j := FirstHit(Advance(orig[c.k]), c.left, sp).value;
      c' == Cursor(c.done, c.k + 1, c.hits + 1, RemoveAt(c.left, j))
    ensures Tally(c', orig, es0, sp)
    ensures RemoveAt((c.done + orig[c.k..])[|c.done| := Advance(orig[c.k])], |c.done|) == c'.done + orig[c'.k..]
  {
    var b := Advance(orig[c.k]);
    var j := FirstHit(b, c.left, sp).value;
    c' := Cursor(c.done, c.k + 1, c.hits + 1, RemoveAt(c.left, j));
    PassFront(orig[c.k..], c.left, sp);
    assert orig[c.k..][1..] == orig[c.k + 1..];
    SlotUpdate(c.done, orig[c.k], b, orig[c.k + 1..]);
    assert orig[c.k..] == [orig[c.k]] + orig[c.k + 1..];
    var s := (c.done + [b]) + orig[c.k + 1..];
    assert s[..|c.done|] == c.done && s[|c.done| + 1..] == orig[c.k + 1..];
  }

  /** The pass over a non-empty slice, one step unfolded. */
  lemma PassFront(bs: seq<Point>, es: seq<Point>, sp: Sprites)
    requires bs != []
    ensures var b := Advance(bs[0]);
      Pass(bs, es, sp) ==
        match FirstHit(b, es, sp)
        case None => var r := Pass(bs[1..], es, sp); Outcome([b] + r.bullets, r.enemies, r.hits)
        case Some(j) => var r := Pass(bs[1..], RemoveAt(es, j), sp); Outcome(r.bullets, r.enemies, r.hits + 1)
  {
  }

  /** Overwriting the slot right after `done` in `done + [x] + rest`. */
  lemma SlotUpdate(done: seq<Point>, x: Point, y: Point, rest: seq<Point>)
    ensures (done + ([x] + rest))[|done| := y] == (done + [y]) + rest
  {
    var s := (done + ([x] + rest))[|done| := y];
    assert forall m :: 0 <= m < |s| ==> s[m] == ((done + [y]) + rest)[m];
  }
}
