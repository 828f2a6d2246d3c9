/**
 * The game's mutable state as one object, and update() as the chain of its phases in source
 * order: movement, superboss trigger, spawning, the superboss's turn, enemy contact, lasers,
 * red stars, the projectile loop, golden stars and the final prune.
 *
 * Math.random() is the constant stream `random`, read at the index `draws`, which each call
 * advances by one; Math.atan2, Math.cos and Math.sin are the uninterpreted `trig`;
 * localStorage is the map `store`.
 */
module Simulation {
  import opened Geometry
  import opened Entities
  import opened Motion
  import opened Spawner
  import opened SuperBossRules
  import opened HighScore
  import opened Combat

  /** The projectile shoot() fires: 16x16, centred on the player, at PROJECTILE_SPEED along the facing. */
  function Shot(p: Player): (m: Missile)
    ensures m.active && m.width == 16.0 && m.height == 16.0
    ensures m.x + m.width / 2.0 == p.x + p.width / 2.0 && m.y + m.height / 2.0 == p.y + p.height / 2.0
    ensures m.vx == (p.lastDirX as real) * PROJECTILE_SPEED && m.vy == (p.lastDirY as real) * PROJECTILE_SPEED
  {
    Missile(p.x + p.width / 2.0 - 8.0, p.y + p.height / 2.0 - 8.0, 16.0, 16.0,
            (p.lastDirX as real) * PROJECTILE_SPEED, (p.lastDirY as real) * PROJECTILE_SPEED, true)
  }

  /** A shot from a player with a four-way facing moves along exactly one axis, 7 pixels a tick. */
  lemma ShotIsAxisAligned(p: Player)
    requires IsFacing(p.lastDirX, p.lastDirY)
    ensures var m := Shot(p);
      (m.vx == 0.0 && (m.vy == PROJECTILE_SPEED || m.vy == -PROJECTILE_SPEED)) ||
      (m.vy == 0.0 && (m.vx == PROJECTILE_SPEED || m.vx == -PROJECTILE_SPEED))
  {
  }

  class Game {
    const random: nat -> real
    const trig: Trig

    var draws: nat
    var gameRunning: bool
    var score: nat
    var frames: nat
    var isInvincible: bool
    var nextSuperBossThreshold: int
    var superBossType: int
    var isPaused: bool
    var isHardMode: bool
    var player: Player
    var projectiles: seq<Missile>
    var monsters: seq<Sprite>
    var bosses: seq<Boss>
    var powerups: seq<Sprite>
    var lasers: seq<Missile>
    var redStars: seq<Sprite>
    var superBoss: SuperBoss
    var store: map<string, int>
    /** Superboss activations since the run started. */
    ghost var activations: nat

    /** The state takeDamage touches. */
    function Status(): Vitals
      reads this`player, this`isInvincible, this`gameRunning, this`store
    {
      Vitals(player.lives, isInvincible, gameRunning, store)
    }

    /** The state the projectile loop touches. */
    function Arena(): Battle
      reads this`projectiles, this`monsters, this`bosses, this`powerups, this`redStars, this`superBoss,
            this`score, this`player, this`draws
    {
      Battle(projectiles, monsters, bosses, powerups, redStars, superBoss, score, player.lives, draws)
    }

    /** The player: 64x64, within one step of the field, facing one of four ways, lives within the cap. */
    ghost predicate PlayerShaped()
      reads this`player, this`isHardMode, this`gameRunning
    {
      player.width == 64.0 && player.height == 64.0 &&
      InField(player) && IsFacing(player.lastDirX, player.lastDirY) &&
      player.lives <= LifeCap(isHardMode) &&
      (gameRunning ==> player.lives >= 1)
    }

    /** The enemies: at most one boss, and a superboss fight that has the field to itself. */
    ghost predicate EnemiesShaped()
      reads this`superBoss, this`superBossType, this`nextSuperBossThreshold, this`activations,
            this`bosses, this`monsters, this`redStars
    {
      superBoss.width == 150.0 && superBoss.height == 150.0 &&
      (superBossType == 1 || superBossType == 2) &&
      nextSuperBossThreshold == (if activations == 0 then 1000 else 5000 * activations) &&
      |bosses| <= 1 &&
      // red stars exist only during a fight
      (!superBoss.active ==> redStars == []) &&
      (superBoss.active ==> bosses == [] && monsters == [] && superBoss.hp >= 1)
    }

    /** What holds at every point of a tick. */
    ghost predicate Shaped()
      reads this`player, this`isHardMode, this`gameRunning,
            this`superBoss, this`superBossType, this`nextSuperBossThreshold, this`activations,
            this`bosses, this`monsters, this`redStars
    {
      RandomInRange(random) && PlayerShaped() && EnemiesShaped()
    }

    /** After the prune that ends a tick, every entity in every collection is active. */
    ghost predicate Settled()
      reads this`projectiles, this`monsters, this`bosses, this`powerups, this`lasers, this`redStars
    {
      AllLive(projectiles, MissileActive) && AllLive(monsters, SpriteActive) && AllLive(bosses, BossActive) &&
      AllLive(powerups, SpriteActive) && AllLive(lasers, MissileActive) && AllLive(redStars, SpriteActive)
    }

    /** What holds between ticks. */
    ghost predicate Valid()
      reads this`player, this`isHardMode, this`gameRunning,
            this`superBoss, this`superBossType, this`nextSuperBossThreshold, this`activations,
            this`projectiles, this`monsters, this`bosses, this`powerups, this`lasers, this`redStars
    {
      Shaped() && Settled()
    }

    /** The state before the first run: idle, normal mode, the player centred and facing up. */
    constructor (random: nat -> real, trig: Trig, store: map<string, int>)
      requires RandomInRange(random)
      ensures Valid()
      ensures this.random == random && this.trig == trig && this.store == store && draws == 0
      ensures !gameRunning && score == 0 && frames == 0 && !isInvincible && !isPaused && !isHardMode
      ensures nextSuperBossThreshold == 1000 && superBossType == 1
      ensures player == Player(CANVAS_WIDTH / 2.0 - 32.0, CANVAS_HEIGHT / 2.0 - 32.0, 64.0, 64.0, 0, -1, 3)
      ensures projectiles == [] && monsters == [] && bosses == [] && powerups == [] && lasers == [] && redStars == []
      ensures superBoss == SuperBoss(-200.0, -200.0, 150.0, 150.0, 50, 50, false)
    {
      this.random := random;
      this.trig := trig;
      this.store := store;
      draws := 0;
      gameRunning := false;
      score := 0;
      frames := 0;
      isInvincible := false;
      nextSuperBossThreshold := 1000;
      superBossType := 1;
      isPaused := false;
      isHardMode := false;
      player := Player(CANVAS_WIDTH / 2.0 - 32.0, CANVAS_HEIGHT / 2.0 - 32.0, 64.0, 64.0, 0, -1, 3);
      projectiles := [];
      monsters := [];
      bosses := [];
      powerups := [];
      lasers := [];
      redStars := [];
      superBoss := SuperBoss(-200.0, -200.0, 150.0, 150.0, 50, 50, false);
      activations := 0;
    }

    /** One Math.random() call. */
    method Draw() returns (r: real)
      requires RandomInRange(random)
      modifies this`draws
      ensures r == random(old(draws)) && draws == old(draws) + 1
      ensures IsDraw(r)
    {
      r := random(draws);
      draws := draws + 1;
    }

    // -------------------------------------------------------------------------------------
    // Run control and the high-score board

    /** saveHighScore: records the score for the mode when it beats the stored best. */
    method SaveHighScore(newScore: int) returns (isNew: bool)
      modifies this`store
      ensures isNew <==> IsNewRecord(old(store), isHardMode, newScore)
      ensures store == Saved(old(store), isHardMode, newScore)
    {
      isNew := newScore > GetHighScore(store, isHardMode);
      if isNew {
        store := store[Key(isHardMode) := newScore];
      }
    }

    /** gameOver: the run stops and its score goes to the board. */
    method GameOver()
      modifies this`gameRunning, this`store
      ensures !gameRunning && store == Saved(old(store), isHardMode, score)
    {
      gameRunning := false;
      var _ := SaveHighScore(score);
    }

    /** takeDamage: see Damage. */
    method TakeDamage()
      requires PlayerShaped()
      modifies this`player, this`isInvincible, this`gameRunning, this`store
      ensures PlayerShaped()
      ensures Status() == Damage(old(Status()), score, isHardMode)
      ensures player == old(player).(lives := player.lives)
    {
      if isInvincible {
        return;
      }
      player := player.(lives := player.lives - 1);
      if player.lives <= 0 {
        GameOver();
      } else {
        isInvincible := true;
      }
    }

    /** The callback that ends invincibility 2000 ms after a hit, invoked by the host. */
    method ExpireInvincibility()
      requires Shaped()
      modifies this`isInvincible
      ensures Shaped() && !isInvincible
    {
      isInvincible := false;
    }

    /** startGame, in the mode the start button chose (the restart button passes the current one). */
    method StartGame(hard: bool)
      requires Valid()
      modifies this`isHardMode, this`gameRunning, this`score, this`frames, this`projectiles, this`monsters,
               this`bosses, this`powerups, this`lasers, this`redStars, this`player, this`isInvincible,
               this`isPaused, this`superBoss, this`nextSuperBossThreshold, this`activations
      ensures Valid()
      ensures isHardMode == hard && gameRunning && !isPaused && !isInvincible && score == 0 && frames == 0
      ensures projectiles == [] && monsters == [] && bosses == [] && powerups == [] && lasers == [] && redStars == []
      ensures player == old(player).(x := CANVAS_WIDTH / 2.0 - 32.0, y := CANVAS_HEIGHT / 2.0 - 32.0,
                                     lastDirX := 0, lastDirY := -1, lives := LifeCap(hard))
      ensures superBoss == old(superBoss).(active := false) && nextSuperBossThreshold == 1000
    {
      ClearCollections();
      ResetSuperBoss();
      ResetPlayer(hard);
      ResetCounters();
    }

    /** The superboss retired and its schedule back at the first threshold, on an emptied field. */
    method ResetSuperBoss()
      requires superBoss.width == 150.0 && superBoss.height == 150.0 && (superBossType == 1 || superBossType == 2)
      requires bosses == [] && monsters == [] && redStars == []
      modifies this`superBoss, this`nextSuperBossThreshold, this`activations
      ensures EnemiesShaped()
      ensures superBoss == old(superBoss).(active := false) && nextSuperBossThreshold == 1000
    {
      superBoss := superBoss.(active := false);
      nextSuperBossThreshold := 1000;
      activations := 0;
    }

    /** The run's flags and counters as startGame sets them. */
    method ResetCounters()
      modifies this`gameRunning, this`score, this`frames, this`isInvincible, this`isPaused
      ensures gameRunning && score == 0 && frames == 0 && !isInvincible && !isPaused
    {
      gameRunning := true;
      score := 0;
      frames := 0;
      isInvincible := false;
      isPaused := false;
    }

    /** The player back at the centre, facing up, with the mode's full lives. */
    method ResetPlayer(hard: bool)
      modifies this`isHardMode, this`player
      ensures isHardMode == hard
      ensures player == old(player).(x := CANVAS_WIDTH / 2.0 - 32.0, y := CANVAS_HEIGHT / 2.0 - 32.0,
                                     lastDirX := 0, lastDirY := -1, lives := LifeCap(hard))
    {
      isHardMode := hard;
      player := player.(x := CANVAS_WIDTH / 2.0 - 32.0, y := CANVAS_HEIGHT / 2.0 - 32.0,
                        lastDirX := 0, lastDirY := -1, lives := if hard then 1 else 3);
    }

    /** The six collections emptied, as startGame does. */
    method ClearCollections()
      modifies this`projectiles, this`monsters, this`bosses, this`powerups, this`lasers, this`redStars
      ensures projectiles == [] && monsters == [] && bosses == [] && powerups == [] && lasers == [] && redStars == []
    {
      projectiles := [];
      monsters := [];
      bosses := [];
      powerups := [];
      lasers := [];
      redStars := [];
    }

    /** togglePause: only a running game can be paused or resumed. */
    method TogglePause()
      requires Valid()
      modifies this`isPaused
      ensures Valid()
      ensures isPaused == (if gameRunning then !old(isPaused) else old(isPaused))
    {
      if !gameRunning {
        return;
      }
      isPaused := !isPaused;
    }

    /** quitToHome: the run is abandoned without saving its score. */
    method QuitToHome()
      requires Valid()
      modifies this`gameRunning, this`isPaused
      ensures Valid() && !gameRunning && !isPaused
    {
      gameRunning := false;
      isPaused := false;
    }

    // -------------------------------------------------------------------------------------
    // Spawning and the player's shots

    /** shoot: a new projectile from the player's centre along the facing. */
    method Shoot()
      requires Valid()
      modifies this`projectiles
      ensures Valid()
      ensures projectiles == old(projectiles) + [Shot(player)]
    {
      projectiles := projectiles + [Shot(player)];
    }

    /** spawnMonster: one draw picks the edge, a second the point along it. */
    method SpawnMonster()
      requires RandomInRange(random)
      modifies this`monsters, this`draws
      ensures monsters == old(monsters) + [SpawnedMonster(Side(random(old(draws))), random(old(draws) + 1))]
      ensures draws == old(draws) + 2
    {
      var r := Draw();
      var side := Side(r);
      var along := Draw();
      monsters := monsters + [SpawnedMonster(side, along)];
    }

    /** spawnBoss: one draw picks the edge. */
    method SpawnBoss()
      requires RandomInRange(random)
      modifies this`bosses, this`draws
      ensures bosses == old(bosses) + [SpawnedBoss(Side(random(old(draws))))]
      ensures draws == old(draws) + 1
    {
      var r := Draw();
      bosses := bosses + [SpawnedBoss(Side(r))];
    }

    /** activateSuperBoss: full health at the top centre, a drawn type, and the field cleared for the fight. */
    method ActivateSuperBoss()
      requires RandomInRange(random)
      modifies this`superBoss, this`superBossType, this`monsters, this`bosses, this`redStars, this`draws
      ensures superBoss == Activated(old(superBoss))
      ensures superBossType == TypeFromDraw(random(old(draws))) && draws == old(draws) + 1
      ensures monsters == [] && bosses == [] && redStars == []
    {
      superBoss := Activated(superBoss);
      var r := Draw();
      superBossType := TypeFromDraw(r);
      monsters := [];
      bosses := [];
      redStars := [];
    }

    // -------------------------------------------------------------------------------------
    // The phases of update()

    /** Player movement and facing. */
    method MovePlayer(keys: Keys)
      requires Shaped()
      modifies this`player
      ensures Shaped()
      ensures player == Moved(old(player), keys)
    {
      player := Moved(player, keys);
    }

    /** Projectile movement: every projectile advances, and one whose corner left the field is spent. */
    method MoveProjectiles()
      modifies this`projectiles
      ensures |projectiles| == |old(projectiles)|
      ensures forall k :: 0 <= k < |projectiles| ==> projectiles[k] == Advance(old(projectiles)[k])
    {
      var i := 0;
      while i < |projectiles|
        invariant 0 <= i <= |projectiles| == |old(projectiles)|
        invariant forall k :: 0 <= k < i ==> projectiles[k] == Advance(old(projectiles)[k])
        invariant forall k :: i <= k < |projectiles| ==> projectiles[k] == old(projectiles)[k]
      {
        projectiles := projectiles[i := Advance(projectiles[i])];
        i := i + 1;
      }
    }

    /** Laser movement, by the same rule as projectiles. */
    method MoveLasers()
      modifies this`lasers
      ensures |lasers| == |old(lasers)|
      ensures forall k :: 0 <= k < |lasers| ==> lasers[k] == Advance(old(lasers)[k])
    {
      var i := 0;
      while i < |lasers|
        invariant 0 <= i <= |lasers| == |old(lasers)|
        invariant forall k :: 0 <= k < i ==> lasers[k] == Advance(old(lasers)[k])
        invariant forall k :: i <= k < |lasers| ==> lasers[k] == old(lasers)[k]
      {
        lasers := lasers[i := Advance(lasers[i])];
        i := i + 1;
      }
    }

    /** The superboss trigger: only while it is inactive and the score has reached the threshold. */
    method TriggerSuperBoss()
      requires Shaped()
      modifies this`superBoss, this`superBossType, this`monsters, this`bosses, this`redStars, this`draws,
               this`nextSuperBossThreshold, this`activations
      ensures Shaped()
      ensures old(score) >= old(nextSuperBossThreshold) && !old(superBoss).active ==>
        superBoss == Activated(old(superBoss)) && superBossType == TypeFromDraw(random(old(draws))) &&
        draws == old(draws) + 1 && monsters == [] && bosses == [] && redStars == [] &&
        nextSuperBossThreshold == NextThreshold(old(nextSuperBossThreshold))
      ensures !(old(score) >= old(nextSuperBossThreshold) && !old(superBoss).active) ==>
        superBoss == old(superBoss) && superBossType == old(superBossType) && draws == old(draws) &&
        monsters == old(monsters) && bosses == old(bosses) && redStars == old(redStars) &&
        nextSuperBossThreshold == old(nextSuperBossThreshold)
    {
      if score >= nextSuperBossThreshold && !superBoss.active {
        ActivateSuperBoss();
        nextSuperBossThreshold := if nextSuperBossThreshold == 1000 then 5000 else nextSuperBossThreshold + 5000;
        activations := activations + 1;
      }
    }

    /** Spawning, suppressed during a superboss fight: a monster every SPAWN_RATE frames, a boss every 600 frames while there is none. */
    method SpawnEnemies()
      requires Shaped()
      modifies this`monsters, this`bosses, this`draws
      ensures Shaped()
      ensures var m := !superBoss.active && frames % SPAWN_RATE == 0;
        monsters == old(monsters) + (if m then [SpawnedMonster(Side(random(old(draws))), random(old(draws) + 1))] else [])
      ensures var m, b := !superBoss.active && frames % SPAWN_RATE == 0, !superBoss.active && frames % 600 == 0 && old(bosses) == [];
        var d := old(draws) + (if m then 2 else 0);
        bosses == old(bosses) + (if b then [SpawnedBoss(Side(random(d)))] else []) &&
        draws == d + (if b then 1 else 0)
    {
      if !superBoss.active {
        if frames % SPAWN_RATE == 0 {
          SpawnMonster();
        }
        if frames % 600 == 0 && |bosses| == 0 {
          SpawnBoss();
        }
      }
    }

    /** The type 2 spiral attack: eight lasers pushed in turn, a full circle between them. */
    method SpiralAttack()
      modifies this`lasers
      ensures lasers == old(lasers) + SpiralBurst(superBoss, trig)
    {
      ghost var ls0 := lasers;
      var i := 0;
      while i < 8
        invariant 0 <= i <= 8
        invariant lasers == ls0 + SpiralBurst(superBoss, trig)[..i]
      {
        lasers := lasers + [SpiralLaser(superBoss, i, trig)];
        assert SpiralBurst(superBoss, trig)[..i + 1] == SpiralBurst(superBoss, trig)[..i] + [SpiralLaser(superBoss, i, trig)];
        i := i + 1;
      }
    }

    /** The superboss's movement by its type's pattern, and that type's volley from where it ends up. */
    method Manoeuvre(pl: Player)
      modifies this`superBoss, this`lasers
      ensures superBoss == if superBossType == 1 then Chased(old(superBoss), pl, trig)
                           else Orbited(old(superBoss), frames, trig)
      ensures superBoss == old(superBoss).(x := superBoss.x, y := superBoss.y)
      ensures lasers == old(lasers) + Volley(superBossType, frames, superBoss, Bearing(old(superBoss), pl, trig), trig)
    {
      if superBossType == 1 {
        var angle := Bearing(superBoss, pl, trig);
        superBoss := Chased(superBoss, pl, trig);
        if frames % 60 == 0 {
          lasers := lasers + [AimedLaser(superBoss, angle, trig)];
        }
      } else {
        superBoss := Orbited(superBoss, frames, trig);
        if frames % 100 == 0 {
          SpiralAttack();
        }
      }
    }

    /** Every 300 frames of a fight a red star appears at two drawn coordinates. */
    method DropRedStar()
      requires RandomInRange(random)
      modifies this`redStars, this`draws
      ensures redStars == old(redStars) + (if frames % 300 == 0 then [RedStar(random(old(draws)), random(old(draws) + 1))] else [])
      ensures draws == old(draws) + (if frames % 300 == 0 then 2 else 0)
    {
      if frames % 300 == 0 {
        var rx := Draw();
        var ry := Draw();
        redStars := redStars + [RedStar(rx, ry)];
      }
    }

    /**
     * The turn of an active superboss: it moves by its type's pattern and fires that type's
     * volley; every 300 frames a red star appears; touching it costs a life.
     */
    method SuperBossTurn()
      requires Shaped() && superBoss.active
      modifies this`superBoss, this`lasers, this`redStars, this`draws,
               this`player, this`isInvincible, this`gameRunning, this`store
      ensures Shaped()
      ensures player == old(player).(lives := player.lives)
      ensures superBoss == if superBossType == 1 then Chased(old(superBoss), old(player), trig)
                           else Orbited(old(superBoss), frames, trig)
      ensures lasers == old(lasers) + Volley(superBossType, frames, superBoss, Bearing(old(superBoss), old(player), trig), trig)
      ensures redStars == old(redStars) + (if frames % 300 == 0 then [RedStar(random(old(draws)), random(old(draws) + 1))] else [])
      ensures draws == old(draws) + (if frames % 300 == 0 then 2 else 0)
      ensures Status() == if Touches(old(player).Bounds(), superBoss.Bounds()) then Damage(old(Status()), score, isHardMode)
                          else old(Status())
    {
      var pl := player;
      Manoeuvre(pl);
      DropRedStar();
      SuperBossContact();
    }

    /** Touching the superboss costs a life. */
    method SuperBossContact()
      requires PlayerShaped()
      modifies this`player, this`isInvincible, this`gameRunning, this`store
      ensures PlayerShaped()
      ensures player == old(player).(lives := player.lives)
      ensures Status() == if Touches(old(player).Bounds(), superBoss.Bounds()) then Damage(old(Status()), score, isHardMode)
                          else old(Status())
    {
      if Touches(player.Bounds(), superBoss.Bounds()) {
        TakeDamage();
      }
    }

    /** Monster movement: each monster steps towards the player, and each one touching the player hurts. */
    method MoveMonsters()
      requires Shaped()
      modifies this`monsters, this`player, this`isInvincible, this`gameRunning, this`store
      ensures Shaped()
      ensures player == old(player).(lives := player.lives)
      ensures |monsters| == |old(monsters)|
      ensures Status() == DamageTimes(old(Status()), MonsterContacts(old(player).Bounds(), monsters), score, isHardMode)
      ensures forall k :: 0 <= k < |monsters| ==> monsters[k] == ChaseMonster(old(monsters)[k], old(player), trig)
    {
      ghost var ms0, v0 := monsters, Status();
      var pl := player;
      var i := 0;
      while i < |monsters|
        invariant PlayerShaped() && MonsterSweep(i, ms0, pl, v0)
      {
        ChaseOneMonster(i, ms0, pl, v0);
        i := i + 1;
      }
      assert monsters[..i] == monsters;
    }

    /** The movement loop's invariant after `i` monsters. */
    ghost predicate MonsterSweep(i: nat, ms0: seq<Sprite>, pl: Player, v0: Vitals)
      reads this`monsters, this`player, this`isInvincible, this`gameRunning, this`store, this`score, this`isHardMode
    {
      i <= |monsters| == |ms0| && player == pl.(lives := player.lives) &&
      (forall k :: 0 <= k < i ==> monsters[k] == ChaseMonster(ms0[k], pl, trig)) &&
      (forall k :: i <= k < |monsters| ==> monsters[k] == ms0[k]) &&
      Status() == DamageTimes(v0, MonsterContacts(pl.Bounds(), monsters[..i]), score, isHardMode)
    }

    /** One monster's step of the movement loop. */
    method ChaseOneMonster(i: nat, ghost ms0: seq<Sprite>, pl: Player, ghost v0: Vitals)
      requires PlayerShaped() && MonsterSweep(i, ms0, pl, v0) && i < |monsters|
      modifies this`monsters, this`player, this`isInvincible, this`gameRunning, this`store
      ensures PlayerShaped() && MonsterSweep(i + 1, ms0, pl, v0)
    {
      ghost var before := monsters;
      monsters := monsters[i := ChaseMonster(monsters[i], pl, trig)];
      assert monsters[..i + 1][..i] == before[..i];
      if Touches(pl.Bounds(), monsters[i].Bounds()) {
        TakeDamage();
      }
    }

    /** Boss movement: the same, at 0.7 times the speed. */
    method MoveBosses()
      requires Shaped()
      modifies this`bosses, this`player, this`isInvincible, this`gameRunning, this`store
      ensures Shaped()
      ensures player == old(player).(lives := player.lives)
      ensures |bosses| == |old(bosses)|
      ensures Status() == DamageTimes(old(Status()), BossContacts(old(player).Bounds(), bosses), score, isHardMode)
      ensures forall k :: 0 <= k < |bosses| ==> bosses[k] == ChaseBoss(old(bosses)[k], old(player), trig)
    {
      ghost var bs0, v0 := bosses, Status();
      var pl := player;
      var i := 0;
      while i < |bosses|
        invariant PlayerShaped() && BossSweep(i, bs0, pl, v0)
      {
        ChaseOneBoss(i, bs0, pl, v0);
        i := i + 1;
      }
      assert bosses[..i] == bosses;
    }

    /** The boss movement loop's invariant after `i` bosses. */
    ghost predicate BossSweep(i: nat, bs0: seq<Boss>, pl: Player, v0: Vitals)
      reads this`bosses, this`player, this`isInvincible, this`gameRunning, this`store, this`score, this`isHardMode
    {
      i <= |bosses| == |bs0| && player == pl.(lives := player.lives) &&
      (forall k :: 0 <= k < i ==> bosses[k] == ChaseBoss(bs0[k], pl, trig)) &&
      (forall k :: i <= k < |bosses| ==> bosses[k] == bs0[k]) &&
      Status() == DamageTimes(v0, BossContacts(pl.Bounds(), bosses[..i]), score, isHardMode)
    }

    /** One boss's step of the movement loop. */
    method ChaseOneBoss(i: nat, ghost bs0: seq<Boss>, pl: Player, ghost v0: Vitals)
      requires PlayerShaped() && BossSweep(i, bs0, pl, v0) && i < |bosses|
      modifies this`bosses, this`player, this`isInvincible, this`gameRunning, this`store
      ensures PlayerShaped() && BossSweep(i + 1, bs0, pl, v0)
    {
      ghost var before := bosses;
      bosses := bosses[i := ChaseBoss(bosses[i], pl, trig)];
      assert bosses[..i + 1][..i] == before[..i];
      if Touches(pl.Bounds(), bosses[i].Bounds()) {
        TakeDamage();
      }
    }

    /** Laser hits: every active laser that reaches the player is spent and hurts. */
    method LaserHits()
      requires Shaped()
      modifies this`lasers, this`player, this`isInvincible, this`gameRunning, this`store
      ensures Shaped()
      ensures player == old(player).(lives := player.lives)
      ensures |lasers| == |old(lasers)|
      ensures forall k :: 0 <= k < |lasers| ==> lasers[k] == Absorbed(old(player).Bounds(), old(lasers)[k])
      ensures Status() == DamageTimes(old(Status()), LaserContacts(old(player).Bounds(), old(lasers)), score, isHardMode)
    {
      ghost var ls0, v0 := lasers, Status();
      var pl := player;
      var i := 0;
      while i < |lasers|
        invariant PlayerShaped() && LaserSweep(i, ls0, pl, v0)
      {
        AbsorbOneLaser(i, ls0, pl, v0);
        i := i + 1;
      }
      assert ls0[..i] == ls0;
    }

    /** The laser loop's invariant after `i` lasers. */
    ghost predicate LaserSweep(i: nat, ls0: seq<Missile>, pl: Player, v0: Vitals)
      reads this`lasers, this`player, this`isInvincible, this`gameRunning, this`store, this`score, this`isHardMode
    {
      i <= |lasers| == |ls0| && player == pl.(lives := player.lives) &&
      (forall k :: 0 <= k < i ==> lasers[k] == Absorbed(pl.Bounds(), ls0[k])) &&
      (forall k :: i <= k < |lasers| ==> lasers[k] == ls0[k]) &&
      Status() == DamageTimes(v0, LaserContacts(pl.Bounds(), ls0[..i]), score, isHardMode)
    }

    /** One laser's step of the laser loop. */
    method AbsorbOneLaser(i: nat, ghost ls0: seq<Missile>, pl: Player, ghost v0: Vitals)
      requires PlayerShaped() && LaserSweep(i, ls0, pl, v0) && i < |lasers|
      modifies this`lasers, this`player, this`isInvincible, this`gameRunning, this`store
      ensures PlayerShaped() && LaserSweep(i + 1, ls0, pl, v0)
    {
      assert ls0[..i + 1][..i] == ls0[..i];
      if lasers[i].active && Touches(pl.Bounds(), lasers[i].Bounds()) {
        lasers := lasers[i := lasers[i].(active := false)];
        TakeDamage();
      }
    }

    /**
     * Red stars: each active one the player touches is picked up and costs an active superboss
     * 10 hit points; the star that brings it to 0 or below defeats it for 1000 points and
     * clears the red stars, which ends the loop.
     */
    method CollectRedStars()
      requires Shaped()
      modifies this`redStars, this`superBoss, this`score
      ensures Shaped()
      ensures var n := StarContacts(player.Bounds(), old(redStars));
        if old(superBoss).active && old(superBoss).hp - 10 * n <= 0 then
          superBoss == old(superBoss).(hp := superBoss.hp, active := false) &&
          -10 < superBoss.hp <= 0 && (old(superBoss).hp - superBoss.hp) % 10 == 0 &&
          score == old(score) + 1000 && redStars == []
        else
          superBoss == old(superBoss).(hp := old(superBoss).hp - 10 * n) && score == old(score) &&
          |redStars| == |old(redStars)| &&
          forall k :: 0 <= k < |redStars| ==> redStars[k] == Picked(player.Bounds(), old(redStars)[k])
    {
      var pl := player.Bounds();
      ghost var stars, sb0, sc0 := redStars, superBoss, score;
      var i := 0;
      while i < |redStars|
        invariant Shaped() && RedStarSweep(i, stars, sb0, sc0, pl)
      {
        CollectOneRedStar(i, stars, sb0, sc0, pl);
        i := i + 1;
      }
      if redStars != [] || !(sb0.active && sb0.hp - 10 * StarContacts(pl, stars) <= 0) {
        assert stars[..i] == stars;
      }
    }

    /**
     * The red-star loop after `i` stars: either the superboss has fallen (and the collection
     * is gone), or the first `i` stars were picked and the superboss has lost 10 hp per
     * contact without falling.
     */
    ghost predicate RedStarSweep(i: nat, stars: seq<Sprite>, sb0: SuperBoss, sc0: nat, pl: Rect)
      reads this`redStars, this`superBoss, this`score
    {
      i <= |stars| &&
      ((sb0.active && sb0.hp - 10 * StarContacts(pl, stars) <= 0 &&
        superBoss == sb0.(hp := superBoss.hp, active := false) &&
        -10 < superBoss.hp <= 0 && (sb0.hp - superBoss.hp) % 10 == 0 &&
        score == sc0 + 1000 && redStars == []) ||
       (|redStars| == |stars| &&
        (forall k :: 0 <= k < i ==> redStars[k] == Picked(pl, stars[k])) &&
        (forall k :: i <= k < |stars| ==> redStars[k] == stars[k]) &&
        superBoss == sb0.(hp := sb0.hp - 10 * StarContacts(pl, stars[..i])) &&
        (sb0.active ==> sb0.hp - 10 * StarContacts(pl, stars[..i]) > 0) &&
        score == sc0))
    }

    /** One star of the red-star loop. */
    method CollectOneRedStar(i: nat, ghost stars: seq<Sprite>, ghost sb0: SuperBoss, ghost sc0: nat, pl: Rect)
      requires Shaped() && RedStarSweep(i, stars, sb0, sc0, pl) && i < |redStars|
      modifies this`redStars, this`superBoss, this`score
      ensures Shaped() && RedStarSweep(i + 1, stars, sb0, sc0, pl)
    {
      assert stars[..i + 1][..i] == stars[..i];
      StarContactsPrefix(pl, stars, i + 1);
      if redStars[i].active && Touches(pl, redStars[i].Bounds()) {
        redStars := redStars[i := redStars[i].(active := false)];
        if superBoss.active {
          superBoss := superBoss.(hp := superBoss.hp - 10);
          if superBoss.hp <= 0 {
            superBoss := superBoss.(active := false);
            score := score + 1000;
            redStars := [];
          }
        }
      }
    }

    // -------------------------------------------------------------------------------------
    // The projectile loop

    /** Projectile `i` against every monster, in order (see MonsterPhase). */
    method StrikeMonsters(i: nat)
      requires i < |projectiles|
      modifies this`projectiles, this`monsters, this`score
      ensures Arena() == MonsterPhase(old(Arena()), i)
    {
      ghost var ps0, ms0, sc0 := projectiles, monsters, score;
      var p := projectiles[i];
      var j := 0;
      while j < |monsters|
        invariant StrikeSweep(i, j, p, ps0, ms0, sc0)
      {
        StrikeOneMonster(i, j, p, ps0, ms0, sc0);
        j := j + 1;
      }
      assert ms0[..j] == ms0;
      assert monsters == StrikeAll(p, ms0);
    }

    /** The monster loop of projectile `i` (`p`) after `j` monsters. */
    ghost predicate StrikeSweep(i: nat, j: nat, p: Missile, ps0: seq<Missile>, ms0: seq<Sprite>, sc0: nat)
      reads this`projectiles, this`monsters, this`score
    {
      i < |ps0| && p == ps0[i] && j <= |monsters| == |ms0| &&
      (forall k :: 0 <= k < j ==> monsters[k] == Struck(p, ms0[k])) &&
      (forall k :: j <= k < |monsters| ==> monsters[k] == ms0[k]) &&
      score == sc0 + 10 * HitCount(p, ms0[..j]) &&
      projectiles == if HitCount(p, ms0[..j]) > 0 then ps0[i := p.(active := false)] else ps0
    }

    /** Projectile `i` (`p`) against monster `j`. */
    method StrikeOneMonster(i: nat, j: nat, p: Missile, ghost ps0: seq<Missile>, ghost ms0: seq<Sprite>, ghost sc0: nat)
      requires StrikeSweep(i, j, p, ps0, ms0, sc0) && j < |monsters|
      modifies this`projectiles, this`monsters, this`score
      ensures StrikeSweep(i, j + 1, p, ps0, ms0, sc0)
    {
      assert ms0[..j + 1][..j] == ms0[..j];
      if monsters[j].active && Hits(p.Bounds(), monsters[j].Bounds()) {
        projectiles := projectiles[i := projectiles[i].(active := false)];
        monsters := monsters[j := monsters[j].(active := false)];
        score := score + 10;
      }
    }

    /** The five revenge minions of a dying boss, two draws each. */
    method SpawnMinions(b: Boss)
      requires RandomInRange(random)
      modifies this`monsters, this`draws
      ensures monsters == old(monsters) + Minions(b, random, old(draws))
      ensures draws == old(draws) + 10
    {
      var k := 0;
      while k < 5
        invariant 0 <= k <= 5
        invariant draws == old(draws) + 2 * k
        invariant monsters == old(monsters) + Minions(b, random, old(draws))[..k]
      {
        var rx := Draw();
        var ry := Draw();
        monsters := monsters + [Minion(b, rx, ry)];
        assert Minions(b, random, old(draws))[..k + 1] == Minions(b, random, old(draws))[..k] + [Minion(b, rx, ry)];
        k := k + 1;
      }
    }

    /** Projectile `i` against boss `j` (see BossStep). */
    method HitBoss(i: nat, j: nat)
      requires RandomInRange(random)
      requires i < |projectiles| && j < |bosses|
      modifies this`projectiles, this`monsters, this`bosses, this`powerups, this`score, this`player, this`draws
      ensures Arena() == BossStep(old(Arena()), i, j, random, isHardMode)
      ensures player == old(player).(lives := player.lives)
    {
      var b := bosses[j];
      if b.active && Hits(projectiles[i].Bounds(), b.Bounds()) {
        projectiles := projectiles[i := projectiles[i].(active := false)];
        bosses := bosses[j := b.(hp := b.hp - 1)];
        if bosses[j].hp <= 0 {
          bosses := bosses[j := bosses[j].(active := false)];
          score := score + 100;
          if player.lives < LifeCap(isHardMode) {
            player := player.(lives := player.lives + 1);
          }
          powerups := powerups + [GoldenStar(b)];
          SpawnMinions(b);
        }
      }
    }

    /** Projectile `i` against every boss, in order. */
    method StrikeBosses(i: nat)
      requires RandomInRange(random)
      requires i < |projectiles|
      modifies this`projectiles, this`monsters, this`bosses, this`powerups, this`score, this`player, this`draws
      ensures Arena() == BossesUpTo(old(Arena()), i, |old(bosses)|, random, isHardMode)
      ensures player == old(player).(lives := player.lives)
    {
      var j := 0;
      while j < |bosses|
        invariant 0 <= j <= |bosses| == |old(bosses)|
        invariant i < |projectiles|
        invariant Arena() == BossesUpTo(old(Arena()), i, j, random, isHardMode)
        invariant player == old(player).(lives := player.lives)
      {
        HitBoss(i, j);
        j := j + 1;
      }
    }

    /** Projectile `i` against the superboss (see SuperBossPhase). */
    method StrikeSuperBoss(i: nat)
      requires i < |projectiles|
      modifies this`projectiles, this`superBoss, this`score, this`redStars
      ensures Arena() == SuperBossPhase(old(Arena()), i)
    {
      if superBoss.active && Hits(projectiles[i].Bounds(), superBoss.Bounds()) {
        projectiles := projectiles[i := projectiles[i].(active := false)];
        superBoss := superBoss.(hp := superBoss.hp - 1);
        if superBoss.hp <= 0 {
          superBoss := superBoss.(active := false);
          score := score + 1000;
          redStars := [];
        }
      }
    }

    /** One pass of the projectile loop (see FireOne). */
    method FireProjectile(i: nat)
      requires RandomInRange(random)
      requires i < |projectiles|
      modifies this`projectiles, this`monsters, this`bosses, this`powerups, this`redStars, this`superBoss,
               this`score, this`player, this`draws
      ensures Arena() == FireOne(old(Arena()), i, random, isHardMode)
      ensures player == old(player).(lives := player.lives)
    {
      if !projectiles[i].active {
        return;
      }
      StrikeMonsters(i);
      if !projectiles[i].active {
        return;
      }
      StrikeBosses(i);
      StrikeSuperBoss(i);
    }

    /** The projectile loop, which keeps the field's shape (see FireUpToKeepsShape). */
    method ResolveProjectiles()
      requires Shaped()
      modifies this`projectiles, this`monsters, this`bosses, this`powerups, this`redStars, this`superBoss,
               this`score, this`player, this`draws
      ensures Shaped()
      ensures Arena() == FireUpTo(old(Arena()), |old(projectiles)|, random, isHardMode)
      ensures player == old(player).(lives := player.lives)
      ensures score >= old(score)
    {
      ghost var s := Arena();
      assert BattleShaped(s, isHardMode);
      FireAll();
      FireUpToKeepsShape(s, random, isHardMode);
    }

    /** The projectile loop (see FireUpTo). */
    method FireAll()
      requires RandomInRange(random)
      modifies this`projectiles, this`monsters, this`bosses, this`powerups, this`redStars, this`superBoss,
               this`score, this`player, this`draws
      ensures Arena() == FireUpTo(old(Arena()), |old(projectiles)|, random, isHardMode)
      ensures player == old(player).(lives := player.lives)
    {
      var i := 0;
      while i < |projectiles|
        invariant 0 <= i <= |projectiles| == |old(projectiles)|
        invariant Arena() == FireUpTo(old(Arena()), i, random, isHardMode)
        invariant player == old(player).(lives := player.lives)
      {
        FireProjectile(i);
        i := i + 1;
      }
    }

    /**
     * Golden stars: each active one the player touches is picked up; the first clears every
     * monster still in the collection, the inactive ones included, for 10 points each.
     */
    method CollectGoldenStars()
      requires Shaped()
      modifies this`powerups, this`monsters, this`score
      ensures Shaped()
      ensures |powerups| == |old(powerups)|
      ensures forall k :: 0 <= k < |powerups| ==> powerups[k] == Picked(player.Bounds(), old(powerups)[k])
      ensures StarContacts(player.Bounds(), old(powerups)) > 0 ==>
        monsters == [] && score == old(score) + 10 * |old(monsters)|
      ensures StarContacts(player.Bounds(), old(powerups)) == 0 ==> monsters == old(monsters) && score == old(score)
    {
      ghost var gs0, ms0, sc0 := powerups, monsters, score;
      var pl := player.Bounds();
      var i := 0;
      while i < |powerups|
        invariant Shaped() && GoldenSweep(i, gs0, ms0, sc0, pl)
      {
        CollectOneGoldenStar(i, gs0, ms0, sc0, pl);
        i := i + 1;
      }
      assert gs0[..i] == gs0;
    }

    /** The golden-star loop after `i` stars: the monsters are gone exactly when one was picked. */
    ghost predicate GoldenSweep(i: nat, gs0: seq<Sprite>, ms0: seq<Sprite>, sc0: nat, pl: Rect)
      reads this`powerups, this`monsters, this`score
    {
      i <= |powerups| == |gs0| &&
      (forall k :: 0 <= k < i ==> powerups[k] == Picked(pl, gs0[k])) &&
      (forall k :: i <= k < |powerups| ==> powerups[k] == gs0[k]) &&
      (StarContacts(pl, gs0[..i]) > 0 ==> monsters == [] && score == sc0 + 10 * |ms0|) &&
      (StarContacts(pl, gs0[..i]) == 0 ==> monsters == ms0 && score == sc0)
    }

    /** One golden star: picking it up clears the monsters, 10 points each. */
    method CollectOneGoldenStar(i: nat, ghost gs0: seq<Sprite>, ghost ms0: seq<Sprite>, ghost sc0: nat, pl: Rect)
      requires Shaped() && GoldenSweep(i, gs0, ms0, sc0, pl) && i < |powerups|
      modifies this`powerups, this`monsters, this`score
      ensures Shaped() && GoldenSweep(i + 1, gs0, ms0, sc0, pl)
    {
      assert gs0[..i + 1][..i] == gs0[..i];
      if powerups[i].active && Touches(pl, powerups[i].Bounds()) {
        powerups := powerups[i := powerups[i].(active := false)];
        var killCount := |monsters|;
        monsters := [];
        score := score + killCount * 10;
      }
    }

    /** Cleanup: every collection keeps exactly its active entities, in order. */
    method Cleanup()
      requires Shaped()
      modifies this`projectiles, this`monsters, this`bosses, this`powerups, this`lasers, this`redStars
      ensures Shaped() && Settled()
      ensures projectiles == Prune(old(projectiles), MissileActive)
      ensures monsters == Prune(old(monsters), SpriteActive)
      ensures bosses == Prune(old(bosses), BossActive)
      ensures powerups == Prune(old(powerups), SpriteActive)
      ensures lasers == Prune(old(lasers), MissileActive)
      ensures redStars == Prune(old(redStars), SpriteActive)
    {
      PruneEnemies();
      PruneItems();
    }

    /** The enemy side of the prune: monsters, bosses and red stars. */
    method PruneEnemies()
      requires EnemiesShaped()
      modifies this`monsters, this`bosses, this`redStars
      ensures EnemiesShaped()
      ensures AllLive(monsters, SpriteActive) && AllLive(bosses, BossActive) && AllLive(redStars, SpriteActive)
      ensures monsters == Prune(old(monsters), SpriteActive)
      ensures bosses == Prune(old(bosses), BossActive)
      ensures redStars == Prune(old(redStars), SpriteActive)
    {
      monsters := Prune(monsters, SpriteActive);
      bosses := Prune(bosses, BossActive);
      redStars := Prune(redStars, SpriteActive);
    }

    /** The player's side of the prune: projectiles, golden stars and (superboss) lasers. */
    method PruneItems()
      modifies this`projectiles, this`powerups, this`lasers
      ensures AllLive(projectiles, MissileActive) && AllLive(powerups, SpriteActive) && AllLive(lasers, MissileActive)
      ensures projectiles == Prune(old(projectiles), MissileActive)
      ensures powerups == Prune(old(powerups), SpriteActive)
      ensures lasers == Prune(old(lasers), MissileActive)
    {
      projectiles := Prune(projectiles, MissileActive);
      powerups := Prune(powerups, SpriteActive);
      lasers := Prune(lasers, MissileActive);
    }

    /** update(): one tick of a running, unpaused game; otherwise nothing happens. */
    method Update(keys: Keys)
      requires Valid()
      modifies this
      ensures Valid()
      ensures !old(gameRunning) || old(isPaused) ==> unchanged(this)
      ensures old(gameRunning) && !old(isPaused) ==>
        frames == old(frames) + 1 && score >= old(score) && isHardMode == old(isHardMode) && !isPaused &&
        nextSuperBossThreshold >= old(nextSuperBossThreshold)
    {
      if !gameRunning || isPaused {
        return;
      }
      Tick(keys);
    }

    /** One tick of a running, unpaused game: update()'s phases in source order. */
    method Tick(keys: Keys)
      requires Valid()
      modifies this`frames, this`player, this`projectiles, this`lasers,
               this`superBoss, this`superBossType, this`monsters, this`bosses, this`redStars, this`draws,
               this`nextSuperBossThreshold, this`activations, this`isInvincible, this`gameRunning, this`store,
               this`score, this`powerups
      ensures Valid()
      ensures frames == old(frames) + 1 && score >= old(score) && nextSuperBossThreshold >= old(nextSuperBossThreshold)
    {
      frames := frames + 1;
      Movement(keys);
      Arrivals();
      Contact();
      Rewards();
    }

    /** The first phases of a tick: the player, the projectiles and the lasers move. */
    method Movement(keys: Keys)
      requires Shaped()
      modifies this`player, this`projectiles, this`lasers
      ensures Shaped()
      ensures player == Moved(old(player), keys)
    {
      MovePlayer(keys);
      MoveProjectiles();
      MoveLasers();
    }

    /** The superboss trigger, spawning and the superboss's turn. */
    method Arrivals()
      requires Shaped()
      modifies this`superBoss, this`superBossType, this`monsters, this`bosses, this`redStars, this`draws,
               this`nextSuperBossThreshold, this`activations, this`lasers,
               this`player, this`isInvincible, this`gameRunning, this`store
      ensures Shaped()
      ensures nextSuperBossThreshold >= old(nextSuperBossThreshold)
    {
      TriggerSuperBoss();
      SpawnEnemies();
      if superBoss.active {
        SuperBossTurn();
      }
    }

    /** Contact damage from monsters, bosses and lasers. */
    method Contact()
      requires Shaped()
      modifies this`monsters, this`bosses, this`lasers, this`player, this`isInvincible, this`gameRunning, this`store
      ensures Shaped()
    {
      MoveMonsters();
      MoveBosses();
      LaserHits();
    }

    /** The pick-ups and the projectile loop, then the prune that ends the tick. */
    method Rewards()
      requires Shaped()
      modifies this`redStars, this`superBoss, this`score, this`projectiles, this`monsters, this`bosses,
               this`powerups, this`lasers, this`player, this`draws
      ensures Shaped() && Settled()
      ensures score >= old(score)
    {
      CollectRedStars();
      ResolveProjectiles();
      CollectGoldenStars();
      Cleanup();
    }
  }
}
