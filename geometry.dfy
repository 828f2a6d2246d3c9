/** Playfield constants and the padded-hitbox collision test (getHitbox, checkCollision). */
module Geometry {

  const CANVAS_WIDTH: real := 800.0
  const CANVAS_HEIGHT: real := 600.0

  /** An axis-aligned rectangle given by its top-left corner and its size. */
  datatype Rect = Rect(x: real, y: real, width: real, height: real)

  function Abs(v: real): real { if v < 0.0 then -v else v }

  /** The padding getHitbox picks: the player by identity, every other entity by its width. */
  function Padding(isPlayer: bool, width: real): real
  {
    if isPlayer then 15.0
    else if width == 16.0 then 4.0
    else if width == 120.0 then 30.0
    else if width == 150.0 then 20.0
    else 15.0
  }

  /**
   * The player is always padded by 15, whatever its width; other entities by 4 (width 16),
   * 30 (width 120), 20 (width 150) and 15 otherwise.
   */
  lemma PaddingValues(isPlayer: bool, width: real)
    ensures var pad := Padding(isPlayer, width); pad == 4.0 || pad == 15.0 || pad == 20.0 || pad == 30.0
    ensures isPlayer ==> Padding(isPlayer, width) == 15.0
    ensures !isPlayer && width == 16.0 ==> Padding(isPlayer, width) == 4.0
    ensures !isPlayer && width == 120.0 ==> Padding(isPlayer, width) == 30.0
    ensures !isPlayer && width == 150.0 ==> Padding(isPlayer, width) == 20.0
    ensures !isPlayer && width != 16.0 && width != 120.0 && width != 150.0 ==> Padding(isPlayer, width) == 15.0
  {
  }

  /** The rectangle shrunk by the padding on all four sides. */
  function Hitbox(r: Rect, isPlayer: bool): Rect
  {
    var pad := Padding(isPlayer, r.width);
    Rect(r.x + pad, r.y + pad, r.width - pad * 2.0, r.height - pad * 2.0)
  }

  /** The hitbox keeps the centre, and every side moves inwards by the padding. */
  lemma HitboxKeepsCentre(r: Rect, isPlayer: bool)
    ensures var h := Hitbox(r, isPlayer);
      h.x + h.width / 2.0 == r.x + r.width / 2.0 && h.y + h.height / 2.0 == r.y + r.height / 2.0
    ensures var h := Hitbox(r, isPlayer);
      h.x - r.x == h.y - r.y == Padding(isPlayer, r.width) &&
      (r.x + r.width) - (h.x + h.width) == Padding(isPlayer, r.width) &&
      (r.y + r.height) - (h.y + h.height) == Padding(isPlayer, r.width)
  {
  }

  /** The strict overlap test on two rectangles: touching edges do not overlap. */
  predicate Overlaps(a: Rect, b: Rect)
  {
    a.x < b.x + b.width &&
    a.x + a.width > b.x &&
    a.y < b.y + b.height &&
    a.y + a.height > b.y
  }

  /** checkCollision: the strict overlap test applied to both hitboxes. */
  predicate CheckCollision(a: Rect, aIsPlayer: bool, b: Rect, bIsPlayer: bool)
  {
    Overlaps(Hitbox(a, aIsPlayer), Hitbox(b, bIsPlayer))
  }

  /**
   * Stated through the entities' own rectangles, two entities collide exactly when their
   * centres are closer, on each axis, than half their summed sizes minus both paddings.
   */
  lemma CollisionByCentres(a: Rect, aIsPlayer: bool, b: Rect, bIsPlayer: bool)
    ensures CheckCollision(a, aIsPlayer, b, bIsPlayer) <==>
      Abs((a.x + a.width / 2.0) - (b.x + b.width / 2.0))
        < (a.width + b.width) / 2.0 - Padding(aIsPlayer, a.width) - Padding(bIsPlayer, b.width) &&
      Abs((a.y + a.height / 2.0) - (b.y + b.height / 2.0))
        < (a.height + b.height) / 2.0 - Padding(aIsPlayer, a.width) - Padding(bIsPlayer, b.width)
  {
  }

  lemma CollisionIsSymmetric(a: Rect, aIsPlayer: bool, b: Rect, bIsPlayer: bool)
    ensures CheckCollision(a, aIsPlayer, b, bIsPlayer) == CheckCollision(b, bIsPlayer, a, aIsPlayer)
  {
  }

  /** Hitboxes whose edges only touch (on either axis) do not collide. */
  lemma TouchingHitboxesDoNotCollide(a: Rect, aIsPlayer: bool, b: Rect, bIsPlayer: bool)
    requires
      var ha, hb := Hitbox(a, aIsPlayer), Hitbox(b, bIsPlayer);
      ha.x + ha.width == hb.x || hb.x + hb.width == ha.x ||
      ha.y + ha.height == hb.y || hb.y + hb.height == ha.y
    ensures !CheckCollision(a, aIsPlayer, b, bIsPlayer)
  {
  }

  predicate StrictlyInside(px: real, py: real, r: Rect)
  {
    r.x < px < r.x + r.width && r.y < py < r.y + r.height
  }

  /**
   * For rectangles of positive size the strict overlap test means exactly that the two
   * rectangles share an interior point.
   */
  lemma OverlapMeansSharedPoint(a: Rect, b: Rect)
    requires a.width > 0.0 && a.height > 0.0 && b.width > 0.0 && b.height > 0.0
    ensures Overlaps(a, b) <==> exists px, py :: StrictlyInside(px, py, a) && StrictlyInside(px, py, b)
  {
    if Overlaps(a, b) {
      var lox := if a.x < b.x then b.x else a.x;
      var hix := if a.x + a.width < b.x + b.width then a.x + a.width else b.x + b.width;
      var loy := if a.y < b.y then b.y else a.y;
      var hiy := if a.y + a.height < b.y + b.height then a.y + a.height else b.y + b.height;
      var px, py := (lox + hix) / 2.0, (loy + hiy) / 2.0;
      assert StrictlyInside(px, py, a) && StrictlyInside(px, py, b);
    }
  }

  /**
   * Entities narrower than twice their padding (the 24x24 stars, the 8x20 and 12x12 lasers)
   * get a hitbox of negative size. Colliding with such an entity then demands that the other
   * hitbox strictly covers the band between the star's padded edges: for a 24x24 star at
   * (x, y), the span from x + 9 to x + 15 on each axis.
   */
  lemma StarHitboxIsInverted(other: Rect, otherIsPlayer: bool, x: real, y: real)
    ensures Hitbox(Rect(x, y, 24.0, 24.0), false).width == -6.0
    ensures
      var h := Hitbox(other, otherIsPlayer);
      CheckCollision(other, otherIsPlayer, Rect(x, y, 24.0, 24.0), false) <==>
        h.x < x + 9.0 && h.x + h.width > x + 15.0 && h.y < y + 9.0 && h.y + h.height > y + 15.0
  {
  }
}
