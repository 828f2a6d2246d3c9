/**
 * The combat resolver's pure rules: takeDamage (with gameOver's effects), the contact counts of
 * the player-side loops, and the projectile loop of update() written as a fold over the
 * projectiles, each of which is checked against monsters, then bosses, then the superboss.
 */
module Combat {
  import opened Geometry
  import opened Entities
  import opened HighScore

  // ---------------------------------------------------------------------------------------
  // takeDamage

  /** The state takeDamage touches: lives, invincibility, whether the run goes on, and the store. */
  datatype Vitals = Vitals(lives: int, isInvincible: bool, gameRunning: bool, store: map<string, int>)

  /**
   * takeDamage: nothing while invincible; otherwise one life less, and then either game over
   * (the run stops and the score is saved for the mode) or invincibility.
   */
  function Damage(v: Vitals, score: int, hard: bool): Vitals
  {
    if v.isInvincible then v
    else if v.lives - 1 <= 0 then Vitals(v.lives - 1, false, false, Saved(v.store, hard, score))
    else Vitals(v.lives - 1, true, v.gameRunning, v.store)
  }

  /**
   * The takeDamage state machine: invincibility absorbs the hit; otherwise exactly one life goes,
   * and the player is either out (the run stops, the score is saved, the best only grows) or
   * shielded.
   */
  lemma DamageRules(v: Vitals, score: int, hard: bool)
    ensures var r := Damage(v, score, hard);
      (v.isInvincible ==> r == v) &&
      (!v.isInvincible ==> r.lives == v.lives - 1) &&
      (!v.isInvincible && r.lives <= 0 ==>
        !r.gameRunning && !r.isInvincible && r.store == Saved(v.store, hard, score) &&
        GetHighScore(r.store, hard) >= score && GetHighScore(r.store, hard) >= GetHighScore(v.store, hard)) &&
      (!v.isInvincible && r.lives > 0 ==> r.isInvincible && r.gameRunning == v.gameRunning && r.store == v.store)
  {
    SavedKeepsBest(v.store, hard, score);
  }

  /** `n` calls of takeDamage in a row, with no change of score in between. */
  function DamageTimes(v: Vitals, n: nat, score: int, hard: bool): Vitals
  {
    if n == 0 then v else Damage(DamageTimes(v, n - 1, score, hard), score, hard)
  }

  /**
   * Several hits in one tick: while invincible none counts; otherwise the first hit either
   * grants invincibility, shielding the player from the rest, or ends the run, after which
   * every further hit still takes a life (game over does not stop the tick).
   */
  lemma {:induction false} RepeatedDamage(v: Vitals, n: nat, score: int, hard: bool)
    ensures DamageTimes(v, n, score, hard) ==
      if n == 0 || v.isInvincible then v
      else if v.lives > 1 then Vitals(v.lives - 1, true, v.gameRunning, v.store)
      else Vitals(v.lives - n, false, false, Saved(v.store, hard, score))
  {
    if n > 1 {
      RepeatedDamage(v, n - 1, score, hard);
      if !v.isInvincible && v.lives <= 1 {
        SavedIdempotent(v.store, hard, score);
      }
    }
  }

  // ---------------------------------------------------------------------------------------
  // Player-side contact counts (counted from the front, as the loops run)

  /** Monsters touching the player; the movement loop does not look at `active`. */
  function MonsterContacts(pl: Rect, ms: seq<Sprite>): (n: nat)
    ensures n <= |ms|
    decreases |ms|
  {
    if ms == [] then 0
    else MonsterContacts(pl, ms[..|ms| - 1]) + (if Touches(pl, ms[|ms| - 1].Bounds()) then 1 else 0)
  }

  /** Bosses touching the player; the movement loop does not look at `active` either. */
  function BossContacts(pl: Rect, bs: seq<Boss>): (n: nat)
    ensures n <= |bs|
    decreases |bs|
  {
    if bs == [] then 0
    else BossContacts(pl, bs[..|bs| - 1]) + (if Touches(pl, bs[|bs| - 1].Bounds()) then 1 else 0)
  }

  /** Active lasers touching the player. */
  function LaserContacts(pl: Rect, ls: seq<Missile>): (n: nat)
    ensures n <= |ls|
    decreases |ls|
  {
    if ls == [] then 0
    else LaserContacts(pl, ls[..|ls| - 1]) + (if ls[|ls| - 1].active && Touches(pl, ls[|ls| - 1].Bounds()) then 1 else 0)
  }

  /** Active stars (golden or red) touching the player. */
  function StarContacts(pl: Rect, ss: seq<Sprite>): (n: nat)
    ensures n <= |ss|
    decreases |ss|
  {
    if ss == [] then 0
    else StarContacts(pl, ss[..|ss| - 1]) + (if ss[|ss| - 1].active && Touches(pl, ss[|ss| - 1].Bounds()) then 1 else 0)
  }

  /** Counting stars over a prefix never gives more than over the whole collection. */
  lemma {:induction false} StarContactsPrefix(pl: Rect, ss: seq<Sprite>, i: nat)
    requires i <= |ss|
    ensures StarContacts(pl, ss[..i]) <= StarContacts(pl, ss)
    decreases |ss|
  {
    if i < |ss| {
      StarContactsPrefix(pl, ss[..|ss| - 1], i);
      assert ss[..|ss| - 1][..i] == ss[..i];
    } else {
      assert ss[..i] == ss;
    }
  }

  /** A star the player picks up is deactivated; any other is left alone. */
  function Picked(pl: Rect, s: Sprite): (r: Sprite)
    ensures r == s.(active := r.active)
    ensures r.active <==> s.active && !Touches(pl, s.Bounds())
  {
    if s.active && Touches(pl, s.Bounds()) then s.(active := false) else s
  }

  /** A laser that reaches the player is spent; any other is left alone. */
  function Absorbed(pl: Rect, l: Missile): (r: Missile)
    ensures r == l.(active := r.active)
    ensures r.active <==> l.active && !Touches(pl, l.Bounds())
  {
    if l.active && Touches(pl, l.Bounds()) then l.(active := false) else l
  }

  // ---------------------------------------------------------------------------------------
  // Boss-death effects

  /** The heal on a boss kill: one life, only while below the mode's cap. */
  function Heal(lives: int, hard: bool): (r: int)
    ensures lives < LifeCap(hard) ==> r == lives + 1
    ensures lives >= LifeCap(hard) ==> r == lives
    ensures lives <= LifeCap(hard) ==> r <= LifeCap(hard)
  {
    if lives < LifeCap(hard) then lives + 1 else lives
  }

  /** The golden star a dying boss drops, centred on it. */
  function GoldenStar(b: Boss): (s: Sprite)
    ensures s.active && s.width == 24.0 && s.height == 24.0
    ensures s.x + s.width / 2.0 == b.x + b.width / 2.0 && s.y + s.height / 2.0 == b.y + b.height / 2.0
  {
    Sprite(b.x + b.width / 2.0 - 12.0, b.y + b.height / 2.0 - 12.0, 24.0, 24.0, true)
  }

  /** A revenge minion: a 64x64 monster centred on the boss, moved by `Math.random() * 60 - 30` on each axis. */
  function Minion(b: Boss, rx: real, ry: real): (m: Sprite)
    requires 0.0 <= rx < 1.0 && 0.0 <= ry < 1.0
    ensures m.active && m.width == 64.0 && m.height == 64.0
    ensures -30.0 <= (m.x + m.width / 2.0) - (b.x + b.width / 2.0) < 30.0
    ensures -30.0 <= (m.y + m.height / 2.0) - (b.y + b.height / 2.0) < 30.0
  {
    Sprite(b.x + b.width / 2.0 - 32.0 + (rx * 60.0 - 30.0),
           b.y + b.height / 2.0 - 32.0 + (ry * 60.0 - 30.0), 64.0, 64.0, true)
  }

  ghost predicate RandomInRange(random: nat -> real)
  {
    forall n: nat :: 0.0 <= random(n) < 1.0
  }

  /** The five minions, taking draws d, d+1, ... alternately for x and y. */
  function Minions(b: Boss, random: nat -> real, d: nat): (s: seq<Sprite>)
    requires RandomInRange(random)
    ensures |s| == 5
    ensures forall k :: 0 <= k < 5 ==> s[k] == Minion(b, random(d + 2 * k), random(d + 2 * k + 1))
  {
    seq(5, k requires 0 <= k < 5 => Minion(b, random(d + 2 * k), random(d + 2 * k + 1)))
  }

  // ---------------------------------------------------------------------------------------
  // The projectile loop

  /** What the projectile loop reads and writes. `draws` counts the Math.random() calls made. */
  datatype Battle = Battle(projectiles: seq<Missile>, monsters: seq<Sprite>, bosses: seq<Boss>,
                           powerups: seq<Sprite>, redStars: seq<Sprite>, superBoss: SuperBoss,
                           score: int, lives: int, draws: nat)

  /** A monster after one projectile's check: deactivated when active and overlapped. */
  function Struck(p: Missile, m: Sprite): (r: Sprite)
    ensures r == m.(active := r.active)
    ensures r.active <==> m.active && !Hits(p.Bounds(), m.Bounds())
  {
    if m.active && Hits(p.Bounds(), m.Bounds()) then m.(active := false) else m
  }

  function StrikeAll(p: Missile, ms: seq<Sprite>): (r: seq<Sprite>)
    ensures |r| == |ms|
    ensures forall k :: 0 <= k < |ms| ==> r[k] == Struck(p, ms[k])
  {
    seq(|ms|, k requires 0 <= k < |ms| => Struck(p, ms[k]))
  }

  /** The number of active monsters one projectile overlaps. */
  function HitCount(p: Missile, ms: seq<Sprite>): (n: nat)
    ensures n <= |ms|
    decreases |ms|
  {
    if ms == [] then 0
    else HitCount(p, ms[..|ms| - 1]) + (if ms[|ms| - 1].active && Hits(p.Bounds(), ms[|ms| - 1].Bounds()) then 1 else 0)
  }

  /** A projectile hits no monster exactly when it overlaps no active one. */
  lemma {:induction false} HitCountZero(p: Missile, ms: seq<Sprite>)
    ensures HitCount(p, ms) == 0 <==> forall k :: 0 <= k < |ms| ==> !(ms[k].active && Hits(p.Bounds(), ms[k].Bounds()))
    decreases |ms|
  {
    if ms != [] {
      var init := ms[..|ms| - 1];
      HitCountZero(p, init);
      assert forall k :: 0 <= k < |init| ==> init[k] == ms[k];
    }
  }

  /** The monster check of projectile `i`: every active monster it overlaps dies, 10 points each. */
  function MonsterPhase(s: Battle, i: nat): (r: Battle)
    requires i < |s.projectiles|
    ensures r == s.(projectiles := r.projectiles, monsters := r.monsters, score := r.score)
    ensures r.monsters == StrikeAll(s.projectiles[i], s.monsters)
    ensures |r.projectiles| == |s.projectiles|
    ensures r.score == s.score + 10 * HitCount(s.projectiles[i], s.monsters)
    ensures r.projectiles == s.projectiles[i := s.projectiles[i].(active := r.projectiles[i].active)]
    ensures r.projectiles[i].active <==> s.projectiles[i].active && HitCount(s.projectiles[i], s.monsters) == 0
  {
    var p := s.projectiles[i];
    var n := HitCount(p, s.monsters);
    s.(monsters := StrikeAll(p, s.monsters), score := s.score + 10 * n,
       projectiles := if n > 0 then s.projectiles[i := p.(active := false)] else s.projectiles)
  }

  /**
   * Projectile `i` against boss `j`: an active overlapped boss loses one hit point; at 0 it
   * dies for 100 points, a capped heal, one golden star and five minions.
   */
  function BossStep(s: Battle, i: nat, j: nat, random: nat -> real, hard: bool): (r: Battle)
    requires RandomInRange(random)
    requires i < |s.projectiles| && j < |s.bosses|
    ensures |r.projectiles| == |s.projectiles| && |r.bosses| == |s.bosses|
    ensures r.projectiles == s.projectiles[i := s.projectiles[i].(active := r.projectiles[i].active)]
    ensures r.projectiles[i].active ==> s.projectiles[i].active
    ensures r.bosses == s.bosses[j := r.bosses[j]]
    ensures r.superBoss == s.superBoss && r.redStars == s.redStars
    ensures |s.monsters| <= |r.monsters| && r.monsters[..|s.monsters|] == s.monsters
    ensures s.lives <= r.lives && (s.lives <= LifeCap(hard) ==> r.lives <= LifeCap(hard))
    ensures s.score <= r.score && s.draws <= r.draws
    ensures
      var p, b := s.projectiles[i], s.bosses[j];
      if b.active && Hits(p.Bounds(), b.Bounds()) then
        !r.projectiles[i].active && r.bosses[j] == b.(hp := b.hp - 1, active := b.hp - 1 > 0) &&
        (b.hp - 1 <= 0 ==>
          r.score == s.score + 100 && r.lives == Heal(s.lives, hard) &&
          r.powerups == s.powerups + [GoldenStar(b)] &&
          r.monsters == s.monsters + Minions(b, random, s.draws) && r.draws == s.draws + 10) &&
        (b.hp - 1 > 0 ==> r == s.(projectiles := r.projectiles, bosses := r.bosses))
      else r == s
  {
    var p, b := s.projectiles[i], s.bosses[j];
    if b.active && Hits(p.Bounds(), b.Bounds()) then
      var hurt := b.(hp := b.hp - 1);
      var s1 := s.(projectiles := s.projectiles[i := p.(active := false)]);
      if hurt.hp <= 0 then
        s1.(bosses := s.bosses[j := hurt.(active := false)], score := s.score + 100,
            lives := Heal(s.lives, hard), powerups := s.powerups + [GoldenStar(b)],
            monsters := s.monsters + Minions(b, random, s.draws), draws := s.draws + 10)
      else
        s1.(bosses := s.bosses[j := hurt])
    else s
  }

  /** Projectile `i` against the first `n` bosses, in order. */
  function BossesUpTo(s: Battle, i: nat, n: nat, random: nat -> real, hard: bool): (r: Battle)
    requires RandomInRange(random)
    requires i < |s.projectiles| && n <= |s.bosses|
    ensures |r.projectiles| == |s.projectiles| && |r.bosses| == |s.bosses|
    ensures r.projectiles == s.projectiles[i := s.projectiles[i].(active := r.projectiles[i].active)]
    ensures r.projectiles[i].active ==> s.projectiles[i].active
    ensures r.superBoss == s.superBoss && r.redStars == s.redStars
    ensures |s.monsters| <= |r.monsters| && r.monsters[..|s.monsters|] == s.monsters
    ensures s.lives <= r.lives && (s.lives <= LifeCap(hard) ==> r.lives <= LifeCap(hard))
    ensures s.score <= r.score && s.draws <= r.draws
    ensures n == 0 ==> r == s
    decreases n
  {
    if n == 0 then s else BossStep(BossesUpTo(s, i, n - 1, random, hard), i, n - 1, random, hard)
  }

  /** Projectile `i` against the superboss: one hit point; at 0 it is defeated for 1000 points and the red stars go. */
  function SuperBossPhase(s: Battle, i: nat): (r: Battle)
    requires i < |s.projectiles|
    ensures
      var p, sb := s.projectiles[i], s.superBoss;
      if sb.active && CheckCollision(p.Bounds(), false, sb.Bounds(), false) then
        r.projectiles == s.projectiles[i := p.(active := false)] &&
        r.superBoss == sb.(hp := sb.hp - 1, active := sb.hp - 1 > 0) &&
        (sb.hp - 1 <= 0 ==> r == s.(projectiles := r.projectiles, superBoss := r.superBoss, score := s.score + 1000, redStars := [])) &&
        (sb.hp - 1 > 0 ==> r == s.(projectiles := r.projectiles, superBoss := r.superBoss))
      else r == s
  {
    var p, sb := s.projectiles[i], s.superBoss;
    if sb.active && CheckCollision(p.Bounds(), false, sb.Bounds(), false) then
      var hurt := sb.(hp := sb.hp - 1);
      var s1 := s.(projectiles := s.projectiles[i := p.(active := false)]);
      if hurt.hp <= 0 then s1.(superBoss := hurt.(active := false), score := s.score + 1000, redStars := [])
      else s1.(superBoss := hurt)
    else s
  }

  /**
   * One pass of the projectile loop's body. An inactive projectile is skipped. An active one is
   * checked against every monster; if it hit any, it is done; otherwise it goes on to the
   * bosses and then to the superboss.
   */
  function FireOne(s: Battle, i: nat, random: nat -> real, hard: bool): (r: Battle)
    requires RandomInRange(random)
    requires i < |s.projectiles|
    ensures |r.projectiles| == |s.projectiles|
    // an inactive projectile changes nothing
    ensures !s.projectiles[i].active ==> r == s
    // a projectile that hit a monster is not checked against the bosses or the superboss
    ensures s.projectiles[i].active && HitCount(s.projectiles[i], s.monsters) > 0 ==>
      r == s.(projectiles := s.projectiles[i := s.projectiles[i].(active := false)],
              monsters := StrikeAll(s.projectiles[i], s.monsters),
              score := s.score + 10 * HitCount(s.projectiles[i], s.monsters))
  {
    if !s.projectiles[i].active then s
    else
      var s1 := MonsterPhase(s, i);
      if !s1.projectiles[i].active then s1
      else SuperBossPhase(BossesUpTo(s1, i, |s1.bosses|, random, hard), i)
  }

  /** A projectile that overlaps no active monster leaves every monster as it was. */
  lemma MissLeavesMonsters(p: Missile, ms: seq<Sprite>)
    requires HitCount(p, ms) == 0
    ensures StrikeAll(p, ms) == ms
  {
    HitCountZero(p, ms);
    assert forall k :: 0 <= k < |ms| ==> StrikeAll(p, ms)[k] == ms[k];
  }

  /** After a miss on every monster, the bosses and then the superboss are checked. */
  lemma FireOneMiss(s: Battle, i: nat, random: nat -> real, hard: bool)
    requires RandomInRange(random)
    requires i < |s.projectiles|
    requires s.projectiles[i].active && HitCount(s.projectiles[i], s.monsters) == 0
    ensures FireOne(s, i, random, hard) == SuperBossPhase(BossesUpTo(s, i, |s.bosses|, random, hard), i)
  {
    MissLeavesMonsters(s.projectiles[i], s.monsters);
    assert MonsterPhase(s, i) == s;
  }

  /*
   * What one pass of the loop, and therefore the whole loop, does to a battle, stated as
   * relations between the battle before (`a`) and after (`b`). Each relation is transitive, so a
   * fact about one pass carries over to the loop.
   */

  /** Projectiles are only ever switched off, never moved, added or removed. */
  predicate ShotsOnlyStop(a: Battle, b: Battle)
  {
    |b.projectiles| == |a.projectiles| &&
    forall k :: 0 <= k < |a.projectiles| ==>
      b.projectiles[k] == a.projectiles[k].(active := b.projectiles[k].active) &&
      (b.projectiles[k].active ==> a.projectiles[k].active)
  }

  /** Projectiles from index `n` on are untouched. */
  predicate ShotsKeptFrom(a: Battle, b: Battle, n: nat)
  {
    |b.projectiles| == |a.projectiles| &&
    forall k :: n <= k < |a.projectiles| ==> b.projectiles[k] == a.projectiles[k]
  }

  /** The bosses keep their number, monsters are only appended, and only by a boss. */
  predicate CountsKept(a: Battle, b: Battle)
  {
    |b.bosses| == |a.bosses| && |a.monsters| <= |b.monsters| &&
    (a.bosses == [] ==> |b.monsters| == |a.monsters|)
  }

  /** Monsters already there are never moved or revived: they may only die. */
  predicate MonstersOnlyDie(a: Battle, b: Battle)
  {
    |a.monsters| <= |b.monsters| &&
    forall k :: 0 <= k < |a.monsters| ==>
      b.monsters[k] == a.monsters[k].(active := b.monsters[k].active) &&
      (b.monsters[k].active ==> a.monsters[k].active)
  }

  /** No life is lost, the life cap is kept, the score never drops and no draw is given back. */
  predicate CountersGrow(a: Battle, b: Battle, hard: bool)
  {
    a.lives <= b.lives && (a.lives <= LifeCap(hard) ==> b.lives <= LifeCap(hard)) &&
    a.score <= b.score && a.draws <= b.draws
  }

  /** The superboss only loses hit points and is never revived; one that is still up has hit points left. */
  predicate SuperBossWears(a: Battle, b: Battle)
  {
    b.superBoss == a.superBoss.(hp := b.superBoss.hp, active := b.superBoss.active) &&
    b.superBoss.hp <= a.superBoss.hp &&
    (b.superBoss.active ==> a.superBoss.active && (b.superBoss == a.superBoss || b.superBoss.hp >= 1))
  }

  /** The red stars change only by the superboss's defeat, which clears them. */
  predicate StarsClearedByDefeat(a: Battle, b: Battle)
  {
    b.redStars == a.redStars || (a.superBoss.active && !b.superBoss.active && b.redStars == [])
  }

  /** The superboss's defeat clears the red stars and is worth 1000 points. */
  predicate DefeatPays(a: Battle, b: Battle)
  {
    a.superBoss.active && !b.superBoss.active ==> b.redStars == [] && b.score >= a.score + 1000
  }

  lemma ShotsTransitive(a: Battle, b: Battle, c: Battle, m: nat, n: nat)
    requires ShotsOnlyStop(a, b) && ShotsOnlyStop(b, c)
    requires m <= n && ShotsKeptFrom(a, b, m) && ShotsKeptFrom(b, c, n)
    ensures ShotsOnlyStop(a, c) && ShotsKeptFrom(a, c, n)
  {
  }

  lemma CountsTransitive(a: Battle, b: Battle, c: Battle)
    requires CountsKept(a, b) && CountsKept(b, c)
    ensures CountsKept(a, c)
  {
  }

  lemma MonstersTransitive(a: Battle, b: Battle, c: Battle)
    requires MonstersOnlyDie(a, b) && MonstersOnlyDie(b, c)
    ensures MonstersOnlyDie(a, c)
  {
    forall k | 0 <= k < |a.monsters|
      ensures c.monsters[k] == a.monsters[k].(active := c.monsters[k].active)
      ensures c.monsters[k].active ==> a.monsters[k].active
    {
      assert b.monsters[k] == a.monsters[k].(active := b.monsters[k].active);
    }
  }

  lemma CountersTransitive(a: Battle, b: Battle, c: Battle, hard: bool)
    requires CountersGrow(a, b, hard) && CountersGrow(b, c, hard)
    ensures CountersGrow(a, c, hard)
  {
  }

  lemma SuperBossTransitive(a: Battle, b: Battle, c: Battle)
    requires SuperBossWears(a, b) && SuperBossWears(b, c)
    ensures SuperBossWears(a, c)
  {
  }

  lemma StarsTransitive(a: Battle, b: Battle, c: Battle)
    requires StarsClearedByDefeat(a, b) && StarsClearedByDefeat(b, c)
    requires SuperBossWears(a, b) && SuperBossWears(b, c)
    ensures StarsClearedByDefeat(a, c)
  {
  }

  lemma DefeatTransitive(a: Battle, b: Battle, c: Battle, hard: bool)
    requires DefeatPays(a, b) && DefeatPays(b, c) && StarsClearedByDefeat(b, c)
    requires SuperBossWears(a, b) && SuperBossWears(b, c)
    requires CountersGrow(a, b, hard) && CountersGrow(b, c, hard)
    ensures DefeatPays(a, c)
  {
  }

  /** One pass switches at most projectile `i` off. */
  lemma FireOneShots(s: Battle, i: nat, random: nat -> real, hard: bool)
    requires RandomInRange(random)
    requires i < |s.projectiles|
    ensures ShotsOnlyStop(s, FireOne(s, i, random, hard))
    ensures ShotsKeptFrom(s, FireOne(s, i, random, hard), i + 1)
    ensures forall k :: 0 <= k < i ==> FireOne(s, i, random, hard).projectiles[k] == s.projectiles[k]
  {
    if s.projectiles[i].active && HitCount(s.projectiles[i], s.monsters) == 0 {
      FireOneMiss(s, i, random, hard);
    }
  }

  /** One pass keeps the bosses' number and only appends monsters, and only when there is a boss. */
  lemma FireOneCounts(s: Battle, i: nat, random: nat -> real, hard: bool)
    requires RandomInRange(random)
    requires i < |s.projectiles|
    ensures CountsKept(s, FireOne(s, i, random, hard))
  {
    if s.projectiles[i].active && HitCount(s.projectiles[i], s.monsters) == 0 {
      FireOneMiss(s, i, random, hard);
      if s.bosses == [] {
        assert BossesUpTo(s, i, |s.bosses|, random, hard) == s;
      }
    }
  }

  /** One pass strikes every monster already there with an active projectile, and does nothing else to them. */
  lemma FireOneMonsters(s: Battle, i: nat, random: nat -> real, hard: bool)
    requires RandomInRange(random)
    requires i < |s.projectiles|
    ensures |s.monsters| <= |FireOne(s, i, random, hard).monsters|
    ensures forall k :: 0 <= k < |s.monsters| ==>
      FireOne(s, i, random, hard).monsters[k] ==
        if s.projectiles[i].active then Struck(s.projectiles[i], s.monsters[k]) else s.monsters[k]
  {
    var p := s.projectiles[i];
    if p.active && HitCount(p, s.monsters) == 0 {
      FireOneMiss(s, i, random, hard);
      HitCountZero(p, s.monsters);
      var s2 := BossesUpTo(s, i, |s.bosses|, random, hard);
      var r := FireOne(s, i, random, hard);
      assert r.monsters == s2.monsters;
      forall k | 0 <= k < |s.monsters|
        ensures r.monsters[k] == Struck(p, s.monsters[k])
      {
        assert s2.monsters[k] == s2.monsters[..|s.monsters|][k];
      }
    }
  }

  /** Hence one pass only kills monsters. */
  lemma FireOneMonstersOnlyDie(s: Battle, i: nat, random: nat -> real, hard: bool)
    requires RandomInRange(random)
    requires i < |s.projectiles|
    ensures MonstersOnlyDie(s, FireOne(s, i, random, hard))
  {
    FireOneMonsters(s, i, random, hard);
  }

  /** One pass never costs a life, never lowers the score and never gives back a draw. */
  lemma FireOneCounters(s: Battle, i: nat, random: nat -> real, hard: bool)
    requires RandomInRange(random)
    requires i < |s.projectiles|
    ensures CountersGrow(s, FireOne(s, i, random, hard), hard)
  {
    if s.projectiles[i].active && HitCount(s.projectiles[i], s.monsters) == 0 {
      FireOneMiss(s, i, random, hard);
    }
  }

  /**
   * In one pass the superboss loses at most one hit point; the red stars change only when that
   * defeats it, which clears them and is worth 1000 points.
   */
  lemma FireOneSuperBoss(s: Battle, i: nat, random: nat -> real, hard: bool)
    requires RandomInRange(random)
    requires i < |s.projectiles|
    ensures var r := FireOne(s, i, random, hard);
      r.superBoss == s.superBoss ||
      (s.superBoss.active && r.superBoss == s.superBoss.(hp := s.superBoss.hp - 1, active := s.superBoss.hp - 1 > 0))
    ensures SuperBossWears(s, FireOne(s, i, random, hard))
    ensures StarsClearedByDefeat(s, FireOne(s, i, random, hard))
    ensures DefeatPays(s, FireOne(s, i, random, hard))
  {
    if s.projectiles[i].active && HitCount(s.projectiles[i], s.monsters) == 0 {
      FireOneMiss(s, i, random, hard);
    }
  }

  /** The projectile loop over the first `n` projectiles. */
  function FireUpTo(s: Battle, n: nat, random: nat -> real, hard: bool): (r: Battle)
    requires RandomInRange(random)
    requires n <= |s.projectiles|
    ensures |r.projectiles| == |s.projectiles|
    decreases n
  {
    if n == 0 then s else FireOne(FireUpTo(s, n - 1, random, hard), n - 1, random, hard)
  }

  lemma ShotsStep(s: Battle, n: nat, random: nat -> real, hard: bool)
    requires RandomInRange(random)
    requires 0 < n <= |s.projectiles|
    ensures ShotsOnlyStop(FireUpTo(s, n - 1, random, hard), FireUpTo(s, n, random, hard))
    ensures ShotsKeptFrom(FireUpTo(s, n - 1, random, hard), FireUpTo(s, n, random, hard), n)
  {
    FireOneShots(FireUpTo(s, n - 1, random, hard), n - 1, random, hard);
  }

  lemma CountsStep(s: Battle, n: nat, random: nat -> real, hard: bool)
    requires RandomInRange(random)
    requires 0 < n <= |s.projectiles|
    ensures CountsKept(FireUpTo(s, n - 1, random, hard), FireUpTo(s, n, random, hard))
  {
    FireOneCounts(FireUpTo(s, n - 1, random, hard), n - 1, random, hard);
  }

  lemma MonstersStep(s: Battle, n: nat, random: nat -> real, hard: bool)
    requires RandomInRange(random)
    requires 0 < n <= |s.projectiles|
    ensures MonstersOnlyDie(FireUpTo(s, n - 1, random, hard), FireUpTo(s, n, random, hard))
  {
    FireOneMonstersOnlyDie(FireUpTo(s, n - 1, random, hard), n - 1, random, hard);
  }

  lemma CountersStep(s: Battle, n: nat, random: nat -> real, hard: bool)
    requires RandomInRange(random)
    requires 0 < n <= |s.projectiles|
    ensures CountersGrow(FireUpTo(s, n - 1, random, hard), FireUpTo(s, n, random, hard), hard)
  {
    var a := FireUpTo(s, n - 1, random, hard);
    assert FireUpTo(s, n, random, hard) == FireOne(a, n - 1, random, hard);
    FireOneCounters(a, n - 1, random, hard);
  }

  lemma SuperBossStep(s: Battle, n: nat, random: nat -> real, hard: bool)
    requires RandomInRange(random)
    requires 0 < n <= |s.projectiles|
    ensures SuperBossWears(FireUpTo(s, n - 1, random, hard), FireUpTo(s, n, random, hard))
    ensures StarsClearedByDefeat(FireUpTo(s, n - 1, random, hard), FireUpTo(s, n, random, hard))
    ensures DefeatPays(FireUpTo(s, n - 1, random, hard), FireUpTo(s, n, random, hard))
  {
    FireOneSuperBoss(FireUpTo(s, n - 1, random, hard), n - 1, random, hard);
  }

  /** The loop only switches projectiles off, and only those it has reached. */
  lemma {:induction false} FireUpToProjectiles(s: Battle, n: nat, random: nat -> real, hard: bool)
    requires RandomInRange(random)
    requires n <= |s.projectiles|
    ensures ShotsOnlyStop(s, FireUpTo(s, n, random, hard))
    ensures ShotsKeptFrom(s, FireUpTo(s, n, random, hard), n)
    decreases n
  {
    if n > 0 {
      FireUpToProjectiles(s, n - 1, random, hard);
      ShotsStep(s, n, random, hard);
      ShotsTransitive(s, FireUpTo(s, n - 1, random, hard), FireUpTo(s, n, random, hard), n - 1, n);
    }
  }

  /** The loop keeps the bosses' number and only appends monsters (minions of a dying boss). */
  lemma {:induction false} FireUpToCounts(s: Battle, n: nat, random: nat -> real, hard: bool)
    requires RandomInRange(random)
    requires n <= |s.projectiles|
    ensures CountsKept(s, FireUpTo(s, n, random, hard))
    decreases n
  {
    if n > 0 {
      FireUpToCounts(s, n - 1, random, hard);
      CountsStep(s, n, random, hard);
      CountsTransitive(s, FireUpTo(s, n - 1, random, hard), FireUpTo(s, n, random, hard));
    }
  }

  /** Monsters already there when the loop starts are never moved or revived: they may only die. */
  lemma {:induction false} FireUpToMonsters(s: Battle, n: nat, random: nat -> real, hard: bool)
    requires RandomInRange(random)
    requires n <= |s.projectiles|
    ensures MonstersOnlyDie(s, FireUpTo(s, n, random, hard))
    decreases n
  {
    if n > 0 {
      FireUpToMonsters(s, n - 1, random, hard);
      MonstersStep(s, n, random, hard);
      MonstersTransitive(s, FireUpTo(s, n - 1, random, hard), FireUpTo(s, n, random, hard));
    }
  }

  /** Pass `n - 1` kills monster `k` exactly when its projectile is active and overlaps it. */
  lemma KillStep(s: Battle, n: nat, random: nat -> real, hard: bool, k: nat)
    requires RandomInRange(random)
    requires 0 < n <= |s.projectiles| && k < |FireUpTo(s, n - 1, random, hard).monsters|
    ensures k < |FireUpTo(s, n, random, hard).monsters|
    ensures var r0, p := FireUpTo(s, n - 1, random, hard), FireUpTo(s, n - 1, random, hard).projectiles[n - 1];
      FireUpTo(s, n, random, hard).monsters[k].active <==>
        r0.monsters[k].active && !(p.active && Hits(p.Bounds(), r0.monsters[k].Bounds()))
  {
    FireOneMonsters(FireUpTo(s, n - 1, random, hard), n - 1, random, hard);
  }

  /** None of the first `n` projectiles is active and overlapping the rectangle `m`. */
  predicate Dodges(ps: seq<Missile>, n: nat, m: Rect)
    requires n <= |ps|
    decreases n
  {
    n == 0 || (Dodges(ps, n - 1, m) && !(ps[n - 1].active && Hits(ps[n - 1].Bounds(), m)))
  }

  lemma {:induction false} DodgesEvery(ps: seq<Missile>, n: nat, m: Rect)
    requires n <= |ps|
    ensures Dodges(ps, n, m) <==> forall j :: 0 <= j < n ==> !(ps[j].active && Hits(ps[j].Bounds(), m))
    decreases n
  {
    if n > 0 {
      DodgesEvery(ps, n - 1, m);
    }
  }

  /**
   * An old monster survives the loop exactly when it entered it alive and none of the
   * projectiles the loop reached was active and overlapped it.
   */
  lemma {:induction false} FireUpToKills(s: Battle, n: nat, random: nat -> real, hard: bool, k: nat)
    requires RandomInRange(random)
    requires n <= |s.projectiles| && k < |s.monsters|
    ensures k < |FireUpTo(s, n, random, hard).monsters|
    ensures FireUpTo(s, n, random, hard).monsters[k].active <==>
      s.monsters[k].active && Dodges(s.projectiles, n, s.monsters[k].Bounds())
    decreases n
  {
    if n > 0 {
      FireUpToKills(s, n - 1, random, hard, k);
      FireUpToMonsters(s, n - 1, random, hard);
      FireUpToProjectiles(s, n - 1, random, hard);
      KillStep(s, n, random, hard, k);
      var r0 := FireUpTo(s, n - 1, random, hard);
      assert r0.projectiles[n - 1] == s.projectiles[n - 1];
      assert r0.monsters[k].Bounds() == s.monsters[k].Bounds();
    }
  }

  /** The loop never costs a life, never lowers the score and never gives back a draw. */
  lemma {:induction false} FireUpToCounters(s: Battle, n: nat, random: nat -> real, hard: bool)
    requires RandomInRange(random)
    requires n <= |s.projectiles|
    ensures CountersGrow(s, FireUpTo(s, n, random, hard), hard)
    decreases n
  {
    if n > 0 {
      FireUpToCounters(s, n - 1, random, hard);
      CountersStep(s, n, random, hard);
      CountersTransitive(s, FireUpTo(s, n - 1, random, hard), FireUpTo(s, n, random, hard), hard);
    }
  }

  /** The superboss only loses hit points over the loop and is never revived. */
  lemma {:induction false} FireUpToSuperBoss(s: Battle, n: nat, random: nat -> real, hard: bool)
    requires RandomInRange(random)
    requires n <= |s.projectiles|
    ensures SuperBossWears(s, FireUpTo(s, n, random, hard))
    decreases n
  {
    if n > 0 {
      FireUpToSuperBoss(s, n - 1, random, hard);
      SuperBossStep(s, n, random, hard);
      SuperBossTransitive(s, FireUpTo(s, n - 1, random, hard), FireUpTo(s, n, random, hard));
    }
  }

  /** Over the loop, the red stars are touched only by the superboss's defeat. */
  lemma {:induction false} FireUpToRedStars(s: Battle, n: nat, random: nat -> real, hard: bool)
    requires RandomInRange(random)
    requires n <= |s.projectiles|
    ensures StarsClearedByDefeat(s, FireUpTo(s, n, random, hard))
    decreases n
  {
    if n > 0 {
      FireUpToRedStars(s, n - 1, random, hard);
      FireUpToSuperBoss(s, n - 1, random, hard);
      SuperBossStep(s, n, random, hard);
      StarsTransitive(s, FireUpTo(s, n - 1, random, hard), FireUpTo(s, n, random, hard));
    }
  }

  /** Defeating the superboss in the loop clears the red stars and is worth at least 1000 points. */
  lemma {:induction false} FireUpToDefeat(s: Battle, n: nat, random: nat -> real, hard: bool)
    requires RandomInRange(random)
    requires n <= |s.projectiles|
    ensures DefeatPays(s, FireUpTo(s, n, random, hard))
    decreases n
  {
    if n > 0 {
      FireUpToDefeat(s, n - 1, random, hard);
      FireUpToSuperBoss(s, n - 1, random, hard);
      FireUpToCounters(s, n - 1, random, hard);
      SuperBossStep(s, n, random, hard);
      CountersStep(s, n, random, hard);
      DefeatTransitive(s, FireUpTo(s, n - 1, random, hard), FireUpTo(s, n, random, hard), hard);
    }
  }

  /**
   * The shape of the field the projectile loop works on: one 150x150 superboss, at most one
   * boss, red stars only during a fight, a fight with the field to itself and with hit points
   * left, and lives within the cap.
   */
  predicate BattleShaped(b: Battle, hard: bool)
  {
    b.superBoss.width == 150.0 && b.superBoss.height == 150.0 &&
    |b.bosses| <= 1 && b.lives <= LifeCap(hard) &&
    (!b.superBoss.active ==> b.redStars == []) &&
    (b.superBoss.active ==> b.bosses == [] && b.monsters == [] && b.superBoss.hp >= 1)
  }

  /** The whole projectile loop keeps that shape, and it never costs a life. */
  lemma FireUpToKeepsShape(s: Battle, random: nat -> real, hard: bool)
    requires RandomInRange(random)
    requires BattleShaped(s, hard)
    ensures BattleShaped(FireUpTo(s, |s.projectiles|, random, hard), hard)
    ensures FireUpTo(s, |s.projectiles|, random, hard).lives >= s.lives
    ensures FireUpTo(s, |s.projectiles|, random, hard).score >= s.score
  {
    var n := |s.projectiles|;
    FireUpToCounts(s, n, random, hard);
    FireUpToCounters(s, n, random, hard);
    FireUpToSuperBoss(s, n, random, hard);
    FireUpToRedStars(s, n, random, hard);
    FireUpToDefeat(s, n, random, hard);
  }
}
