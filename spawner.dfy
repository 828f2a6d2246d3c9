/**
 * Where spawnMonster and spawnBoss put new enemies. Math.random() draws arrive as
 * parameters, each a real in [0, 1).
 */
module Spawner {
  import opened Geometry
  import opened Entities

  /** A draw taken from Math.random(). */
  predicate IsDraw(r: real) { 0.0 <= r < 1.0 }

  /** `Math.floor(Math.random() * 4)`: the edge a spawn comes in from. */
  function Side(r: real): (side: int)
    requires IsDraw(r)
    ensures 0 <= side < 4
    ensures r < 0.25 <==> side == 0
    ensures 0.75 <= r <==> side == 3
  {
    (r * 4.0).Floor
  }

  /** Lying entirely on or beyond one edge of the field. */
  predicate OffField(r: Rect)
  {
    r.x + r.width <= 0.0 || r.x >= CANVAS_WIDTH || r.y + r.height <= 0.0 || r.y >= CANVAS_HEIGHT
  }

  /**
   * spawnMonster: a 64x64 monster just outside edge `side` (0 top, 1 bottom, 2 left, 3 right),
   * at a point along that edge given by the second draw.
   */
  function SpawnedMonster(side: int, r: real): (m: Sprite)
    requires 0 <= side < 4 && IsDraw(r)
    ensures m.active && m.width == 64.0 && m.height == 64.0
    ensures OffField(m.Bounds())
    ensures side < 2 ==> 0.0 <= m.x < CANVAS_WIDTH && (m.y + m.height == 0.0 || m.y == CANVAS_HEIGHT)
    ensures side >= 2 ==> 0.0 <= m.y < CANVAS_HEIGHT && (m.x + m.width == 0.0 || m.x == CANVAS_WIDTH)
  {
    match side
    case 0 => Sprite(r * CANVAS_WIDTH, -64.0, 64.0, 64.0, true)
    case 1 => Sprite(r * CANVAS_WIDTH, CANVAS_HEIGHT, 64.0, 64.0, true)
    case 2 => Sprite(-64.0, r * CANVAS_HEIGHT, 64.0, 64.0, true)
    case 3 => Sprite(CANVAS_WIDTH, r * CANVAS_HEIGHT, 64.0, 64.0, true)
  }

  /**
   * spawnBoss: a fresh 120x120 boss with 5 of 5 hit points, its corner 150 pixels beyond the
   * midpoint of edge `side`.
   */
  function SpawnedBoss(side: int): (b: Boss)
    requires 0 <= side < 4
    ensures b.active && b.width == 120.0 && b.height == 120.0 && b.hp == b.maxHp == 5
    ensures OffField(b.Bounds())
    ensures (b.x == CANVAS_WIDTH / 2.0 && (b.y == -150.0 || b.y == CANVAS_HEIGHT + 150.0)) ||
            (b.y == CANVAS_HEIGHT / 2.0 && (b.x == -150.0 || b.x == CANVAS_WIDTH + 150.0))
  {
    match side
    case 0 => Boss(CANVAS_WIDTH / 2.0, -150.0, 120.0, 120.0, 5, 5, true)
    case 1 => Boss(CANVAS_WIDTH / 2.0, CANVAS_HEIGHT + 150.0, 120.0, 120.0, 5, 5, true)
    case 2 => Boss(-150.0, CANVAS_HEIGHT / 2.0, 120.0, 120.0, 5, 5, true)
    case 3 => Boss(CANVAS_WIDTH + 150.0, CANVAS_HEIGHT / 2.0, 120.0, 120.0, 5, 5, true)
  }
}
