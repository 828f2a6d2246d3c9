/**
 * Movement rules: the player's guarded four-way step, the linear motion of projectiles and
 * lasers with their off-field test, and pursuit. Trigonometry is not modelled: pursuit takes
 * the host's atan2, cos and sin as uninterpreted functions, so the formulas are kept while
 * their numeric values stay abstract.
 */
module Motion {
  import opened Geometry
  import opened Entities

  /** The host's Math.atan2, Math.cos and Math.sin, left uninterpreted. */
  datatype Trig = Trig(atan2: (real, real) -> real, cos: real -> real, sin: real -> real)

  /** The keys held during a tick. */
  datatype Keys = Keys(up: bool, down: bool, left: bool, right: bool)

  // Each axis step is guarded by the position BEFORE the step, so the player may overshoot
  // a border by less than one step.
  function StepUp(p: Player, pressed: bool): Player
  {
    if pressed && p.y > 0.0 then p.(y := p.y - PLAYER_SPEED, lastDirX := 0, lastDirY := -1) else p
  }

  function StepDown(p: Player, pressed: bool): Player
  {
    if pressed && p.y < CANVAS_HEIGHT - p.height then p.(y := p.y + PLAYER_SPEED, lastDirX := 0, lastDirY := 1) else p
  }

  function StepLeft(p: Player, pressed: bool): Player
  {
    if pressed && p.x > 0.0 then p.(x := p.x - PLAYER_SPEED, lastDirX := -1, lastDirY := 0) else p
  }

  function StepRight(p: Player, pressed: bool): Player
  {
    if pressed && p.x < CANVAS_WIDTH - p.width then p.(x := p.x + PLAYER_SPEED, lastDirX := 1, lastDirY := 0) else p
  }

  /** The band the player's top-left corner can reach: one step beyond each border, exclusive. */
  predicate InField(p: Player)
  {
    -PLAYER_SPEED < p.x < CANVAS_WIDTH - p.width + PLAYER_SPEED &&
    -PLAYER_SPEED < p.y < CANVAS_HEIGHT - p.height + PLAYER_SPEED
  }

  /** One tick of player movement: up, down, left, right, in that order. */
  function Moved(p: Player, k: Keys): (r: Player)
    ensures r.width == p.width && r.height == p.height && r.lives == p.lives
    ensures InField(p) ==> InField(r)
    ensures IsFacing(p.lastDirX, p.lastDirY) ==> IsFacing(r.lastDirX, r.lastDirY)
    // no key whose guard holds: no change at all, facing included
    ensures
      (!(k.up && p.y > 0.0) && !(k.down && p.y < CANVAS_HEIGHT - p.height) &&
       !(k.left && p.x > 0.0) && !(k.right && p.x < CANVAS_WIDTH - p.width)) ==> r == p
    // one key on an axis moves that axis by one step exactly when its guard holds
    ensures !k.up && !k.down ==> r.y == p.y
    ensures !k.left && !k.right ==> r.x == p.x
    ensures k.up && !k.down ==> r.y == (if p.y > 0.0 then p.y - PLAYER_SPEED else p.y)
    ensures k.down && !k.up ==> r.y == (if p.y < CANVAS_HEIGHT - p.height then p.y + PLAYER_SPEED else p.y)
    ensures k.left && !k.right ==> r.x == (if p.x > 0.0 then p.x - PLAYER_SPEED else p.x)
    ensures k.right && !k.left ==> r.x == (if p.x < CANVAS_WIDTH - p.width then p.x + PLAYER_SPEED else p.x)
    // opposite keys: the second is guarded by the position the first one left
    ensures k.up && k.down && p.y > 0.0 ==>
      r.y == (if p.y - PLAYER_SPEED < CANVAS_HEIGHT - p.height then p.y else p.y - PLAYER_SPEED)
    ensures k.up && k.down && !(p.y > 0.0) ==>
      r.y == (if p.y < CANVAS_HEIGHT - p.height then p.y + PLAYER_SPEED else p.y)
    ensures k.left && k.right && p.x > 0.0 ==>
      r.x == (if p.x - PLAYER_SPEED < CANVAS_WIDTH - p.width then p.x else p.x - PLAYER_SPEED)
    ensures k.left && k.right && !(p.x > 0.0) ==>
      r.x == (if p.x < CANVAS_WIDTH - p.width then p.x + PLAYER_SPEED else p.x)
    // the facing is that of the last key actually applied, in the order up, down, left, right
    ensures k.right && !(k.left && p.x > 0.0) && p.x < CANVAS_WIDTH - p.width ==>
      (r.lastDirX, r.lastDirY) == (1, 0)
    ensures k.right && k.left && p.x > 0.0 && p.x - PLAYER_SPEED < CANVAS_WIDTH - p.width ==>
      (r.lastDirX, r.lastDirY) == (1, 0)
    ensures k.left && p.x > 0.0 && !(k.right && p.x - PLAYER_SPEED < CANVAS_WIDTH - p.width) ==>
      (r.lastDirX, r.lastDirY) == (-1, 0)
    ensures !(k.left && p.x > 0.0) && !(k.right && p.x < CANVAS_WIDTH - p.width) ==>
      (k.down && !(k.up && p.y > 0.0) && p.y < CANVAS_HEIGHT - p.height ==> (r.lastDirX, r.lastDirY) == (0, 1)) &&
      (k.down && k.up && p.y > 0.0 && p.y - PLAYER_SPEED < CANVAS_HEIGHT - p.height ==> (r.lastDirX, r.lastDirY) == (0, 1)) &&
      (k.up && p.y > 0.0 && !(k.down && p.y - PLAYER_SPEED < CANVAS_HEIGHT - p.height) ==> (r.lastDirX, r.lastDirY) == (0, -1))
  {
    StepRight(StepLeft(StepDown(StepUp(p, k.up), k.down), k.left), k.right)
  }

  /** The player after a whole sequence of ticks' worth of key states. */
  function MovedAll(p: Player, ks: seq<Keys>): Player
    decreases |ks|
  {
    if ks == [] then p else MovedAll(Moved(p, ks[0]), ks[1..])
  }

  /** Whatever keys are held, tick after tick, the player never leaves the band. */
  lemma {:induction false} StaysInField(p: Player, ks: seq<Keys>)
    requires InField(p) && IsFacing(p.lastDirX, p.lastDirY)
    ensures InField(MovedAll(p, ks)) && IsFacing(MovedAll(p, ks).lastDirX, MovedAll(p, ks).lastDirY)
    decreases |ks|
  {
    if ks != [] {
      StaysInField(Moved(p, ks[0]), ks[1..]);
    }
  }

  /**
   * The band is strictly wider than the field: a 64-pixel player three pixels below the top
   * border (a height the start position 268 reaches after 53 steps up) ends two pixels above it.
   */
  lemma CanOvershootTopBorder(p: Player)
    requires p.y == 3.0
    ensures Moved(p, Keys(true, false, false, false)).y == -2.0
  {
  }

  /** The off-field test looks at the top-left corner only. */
  predicate CornerOffField(x: real, y: real)
  {
    x < 0.0 || x > CANVAS_WIDTH || y < 0.0 || y > CANVAS_HEIGHT
  }

  /** One tick of linear motion; a missile whose corner leaves the field is deactivated. */
  function Advance(m: Missile): (r: Missile)
    ensures r.x == m.x + m.vx && r.y == m.y + m.vy
    ensures r == m.(x := r.x, y := r.y, active := r.active)
    ensures r.active <==> m.active && 0.0 <= r.x <= CANVAS_WIDTH && 0.0 <= r.y <= CANVAS_HEIGHT
  {
    var nx, ny := m.x + m.vx, m.y + m.vy;
    m.(x := nx, y := ny, active := if CornerOffField(nx, ny) then false else m.active)
  }

  /**
   * Because only the corner is checked, a projectile mostly on the field is dropped once its
   * corner crosses the left border, while one lying wholly beyond the right border is kept.
   */
  lemma CornerTestIgnoresSize()
    ensures !Advance(Missile(0.0, 300.0, 16.0, 16.0, -1.0, 0.0, true)).active
    ensures Advance(Missile(793.0, 300.0, 16.0, 16.0, 7.0, 0.0, true)).active
  {
  }

  /** Pursuit of the player: a step of `speed` along atan2 from (x, y) to the player's corner. */
  function Pursue(x: real, y: real, pl: Player, speed: real, trig: Trig): (real, real)
  {
    var angle := trig.atan2(pl.y - y, pl.x - x);
    (x + trig.cos(angle) * speed, y + trig.sin(angle) * speed)
  }

  /** A monster step: pure pursuit at MONSTER_SPEED; nothing but the position changes. */
  function ChaseMonster(m: Sprite, pl: Player, trig: Trig): Sprite
  {
    var pos := Pursue(m.x, m.y, pl, MONSTER_SPEED, trig);
    m.(x := pos.0, y := pos.1)
  }

  /** A boss step: pure pursuit at 0.7 times MONSTER_SPEED; nothing but the position changes. */
  function ChaseBoss(b: Boss, pl: Player, trig: Trig): Boss
  {
    var pos := Pursue(b.x, b.y, pl, MONSTER_SPEED * 0.7, trig);
    b.(x := pos.0, y := pos.1)
  }
}
