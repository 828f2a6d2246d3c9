/**
 * The superboss controller's pure rules: the escalating activation threshold, the reset on
 * activation, the two movement patterns, and what it emits every 60, 100 and 300 frames.
 */
module SuperBossRules {
  import opened Geometry
  import opened Entities
  import opened Motion
  import opened Spawner

  /** Math.PI as a decimal literal. */
  const PI: real := 3.141592653589793

  /** The threshold after an activation: 1000 moves to 5000, every other one grows by 5000. */
  function NextThreshold(t: int): (n: int)
    ensures n > t
  {
    if t == 1000 then 5000 else t + 5000
  }

  /** The threshold after `n` activations of a run, starting from 1000. */
  function ThresholdAfter(n: nat): int
  {
    if n == 0 then 1000 else NextThreshold(ThresholdAfter(n - 1))
  }

  /** The thresholds run 1000, 5000, 10000, 15000, ... */
  lemma {:induction false} ThresholdSequence(n: nat)
    ensures ThresholdAfter(n) == if n == 0 then 1000 else 5000 * n
  {
    if n > 1 {
      ThresholdSequence(n - 1);
    }
  }

  /** Each activation raises the bar: the thresholds increase strictly. */
  lemma {:induction false} ThresholdsIncrease(m: nat, n: nat)
    requires m < n
    ensures ThresholdAfter(m) < ThresholdAfter(n)
    decreases n
  {
    if m < n - 1 {
      ThresholdsIncrease(m, n - 1);
    }
  }

  /** `Math.random() < 0.5 ? 1 : 2`. */
  function TypeFromDraw(r: real): (t: int)
    ensures t == 1 || t == 2
    ensures t == 1 <==> r < 0.5
  {
    if r < 0.5 then 1 else 2
  }

  /** The record after activateSuperBoss: full health, top-centre, well above the field. */
  function Activated(sb: SuperBoss): (r: SuperBoss)
    ensures r.active && r.hp == r.maxHp == 50
    ensures r.width == sb.width && r.height == sb.height
    ensures r.x + r.width / 2.0 == CANVAS_WIDTH / 2.0 && r.y == -200.0
  {
    sb.(active := true, hp := 50, maxHp := 50, x := CANVAS_WIDTH / 2.0 - sb.width / 2.0, y := -200.0)
  }

  /** The bearing from the superboss's corner to the player's corner (type 1). */
  function Bearing(sb: SuperBoss, pl: Player, trig: Trig): real
  {
    trig.atan2(pl.y - sb.y, pl.x - sb.x)
  }

  /** Type 1 movement: one step of SUPERBOSS_SPEED along the bearing. */
  function Chased(sb: SuperBoss, pl: Player, trig: Trig): SuperBoss
  {
    var pos := Pursue(sb.x, sb.y, pl, SUPERBOSS_SPEED, trig);
    sb.(x := pos.0, y := pos.1)
  }

  /** The point of the type 2 orbit at a frame: radius 200 around the field centre, 0.02 rad per frame. */
  function OrbitTarget(sb: SuperBoss, frames: int, trig: Trig): (real, real)
  {
    var angle := (frames as real) * 0.02;
    (CANVAS_WIDTH / 2.0 + trig.cos(angle) * 200.0 - sb.width / 2.0,
     CANVAS_HEIGHT / 2.0 + trig.sin(angle) * 200.0 - sb.height / 2.0)
  }

  /** Type 2 movement: the superboss closes 5% of its remaining distance to the orbit point. */
  function Orbited(sb: SuperBoss, frames: int, trig: Trig): SuperBoss
  {
    var t := OrbitTarget(sb, frames, trig);
    sb.(x := sb.x + (t.0 - sb.x) * 0.05, y := sb.y + (t.1 - sb.y) * 0.05)
  }

  /** Where every laser starts: 4 pixels up and left of the superboss's centre. */
  predicate FromCentre(l: Missile, sb: SuperBoss)
  {
    l.x == sb.x + sb.width / 2.0 - 4.0 && l.y == sb.y + sb.height / 2.0 - 4.0
  }

  /** The type 1 shot: an 8x20 laser along `angle` at LASER_SPEED. */
  function AimedLaser(sb: SuperBoss, angle: real, trig: Trig): Missile
  {
    Missile(sb.x + sb.width / 2.0 - 4.0, sb.y + sb.height / 2.0 - 4.0, 8.0, 20.0,
            trig.cos(angle) * LASER_SPEED, trig.sin(angle) * LASER_SPEED, true)
  }

  /** Laser `i` of the type 2 burst: 12x12, at angle i/8 of a full turn, 0.7 times LASER_SPEED. */
  function SpiralLaser(sb: SuperBoss, i: int, trig: Trig): Missile
  {
    var angle := ((i as real) / 8.0) * PI * 2.0;
    Missile(sb.x + sb.width / 2.0 - 4.0, sb.y + sb.height / 2.0 - 4.0, 12.0, 12.0,
            trig.cos(angle) * (LASER_SPEED * 0.7), trig.sin(angle) * (LASER_SPEED * 0.7), true)
  }

  /** The whole radial burst, in the order the loop pushes it. */
  function SpiralBurst(sb: SuperBoss, trig: Trig): seq<Missile>
  {
    seq(8, i => SpiralLaser(sb, i, trig))
  }

  /**
   * The lasers of one tick: for type 1 one aimed laser on frames divisible by 60, otherwise
   * the eight-laser burst on frames divisible by 100. `sb` is the already moved superboss.
   */
  function Volley(sbType: int, frames: int, sb: SuperBoss, angle: real, trig: Trig): seq<Missile>
  {
    if sbType == 1 then (if frames % 60 == 0 then [AimedLaser(sb, angle, trig)] else [])
    else (if frames % 100 == 0 then SpiralBurst(sb, trig) else [])
  }

  /**
   * A volley is one aimed 8x20 laser every 60 frames for type 1, eight 12x12 lasers every 100
   * frames for type 2, nothing on the other frames; every laser is live and leaves from the
   * superboss's centre.
   */
  lemma VolleyShape(sbType: int, frames: int, sb: SuperBoss, angle: real, trig: Trig)
    ensures var s := Volley(sbType, frames, sb, angle, trig);
      |s| == if sbType == 1 then (if frames % 60 == 0 then 1 else 0)
             else (if frames % 100 == 0 then 8 else 0)
    ensures var s := Volley(sbType, frames, sb, angle, trig);
      forall i :: 0 <= i < |s| ==>
        s[i].active && FromCentre(s[i], sb) &&
        (s[i].width, s[i].height) == (if sbType == 1 then (8.0, 20.0) else (12.0, 12.0))
  {
  }

  /** A red star, placed by two draws. */
  function RedStar(rx: real, ry: real): Sprite
    requires IsDraw(rx) && IsDraw(ry)
  {
    Sprite(rx * (CANVAS_WIDTH - 24.0), ry * (CANVAS_HEIGHT - 24.0), 24.0, 24.0, true)
  }

  /** Whatever the draws, a red star is a live 24x24 sprite lying wholly on the field. */
  lemma RedStarOnField(rx: real, ry: real)
    requires IsDraw(rx) && IsDraw(ry)
    ensures var s := RedStar(rx, ry);
      s.active && s.width == 24.0 && s.height == 24.0 &&
      0.0 <= s.x && s.x + s.width <= CANVAS_WIDTH && 0.0 <= s.y && s.y + s.height <= CANVAS_HEIGHT
  {
  }
}
