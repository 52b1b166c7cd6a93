/**
 * Positions and the axis-aligned bounding-box test used by the collision pass.
 *
 * Go keeps positions as float64; every step of the update is a small
 * integer constant, so positions are exact reals here.
 */
module Geometry {

  /** The top-left corner of a sprite on the 800x600 canvas. */
  datatype Point = Point(x: real, y: real)

  /**
   * Pixel sizes of the waterdrop (bullet) and fire (enemy) sprites, as
   * `Bounds().Dx()` and `Bounds().Dy()` report them for the loaded images.
   */
  datatype Sprites = Sprites(bulletW: nat, bulletH: nat, enemyW: nat, enemyH: nat)
  {
    /** Every sprite has a non-empty box. */
    predicate Positive() {
      bulletW > 0 && bulletH > 0 && enemyW > 0 && enemyH > 0
    }
  }

  /**
   * The collision predicate: a bullet box at `b` and an enemy box at `e`
   * overlap strictly on both axes.
   */
  predicate Overlaps(b: Point, e: Point, sp: Sprites) {
    && b.x < e.x + sp.enemyW as real
    && b.x + sp.bulletW as real > e.x
    && b.y < e.y + sp.enemyH as real
    && b.y + sp.bulletH as real > e.y
  }

  /** `p` lies in the open box of width `w` and height `h` whose corner is `corner`. */
  predicate Inside(p: Point, corner: Point, w: nat, h: nat) {
    corner.x < p.x < corner.x + w as real && corner.y < p.y < corner.y + h as real
  }

  /** The open box of the bullet at `b` and that of the enemy at `e` share a point. */
  ghost predicate ShareInterior(b: Point, e: Point, sp: Sprites) {
    exists p :: Inside(p, b, sp.bulletW, sp.bulletH) && Inside(p, e, sp.enemyW, sp.enemyH)
  }

  /**
   * The collision test agrees with the geometric meaning of overlap: two
   * boxes of positive size collide exactly when some point lies strictly
   * inside both of them.
   */
  lemma OverlapsIffShareInterior(b: Point, e: Point, sp: Sprites)
    requires sp.Positive()
    ensures Overlaps(b, e, sp) <==> ShareInterior(b, e, sp)
  {
    var bw, bh := sp.bulletW as real, sp.bulletH as real;
    var ew, eh := sp.enemyW as real, sp.enemyH as real;
    if Overlaps(b, e, sp) {
      var left := if b.x < e.x then e.x else b.x;
      var right := if b.x + bw < e.x + ew then b.x + bw else e.x + ew;
      var top := if b.y < e.y then e.y else b.y;
      var bottom := if b.y + bh < e.y + eh then b.y + bh else e.y + eh;
      var p := Point((left + right) / 2.0, (top + bottom) / 2.0);
      assert Inside(p, b, sp.bulletW, sp.bulletH) && Inside(p, e, sp.enemyW, sp.enemyH);
    }
    if ShareInterior(b, e, sp) {
      var p :| Inside(p, b, sp.bulletW, sp.bulletH) && Inside(p, e, sp.enemyW, sp.enemyH);
      assert Overlaps(b, e, sp);
    }
  }

  /**
   * The test is strict on all four sides: boxes that only touch along an
   * edge do not collide, whatever the other coordinates are.
   */
  lemma TouchingBoxesDoNotOverlap(b: Point, e: Point, sp: Sprites)
    requires || b.x + sp.bulletW as real == e.x
             || e.x + sp.enemyW as real == b.x
             || b.y + sp.bulletH as real == e.y
             || e.y + sp.enemyH as real == b.y
    ensures !Overlaps(b, e, sp)
  {
  }
}
