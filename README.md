# Scottish Highlands shooter: the simulation core in Dafny

This project models the per-frame simulation of the browser shooter in `app.js` and proves
properties of it. The game state is one `class Game` (module `Simulation`). Its fields are:

- the six entity collections, as `seq` fields;
- the player and superboss records;
- the global counters: `score`, `frames`, `isInvincible`, `nextSuperBossThreshold`,
  `superBossType`, `gameRunning`, `isPaused` and `isHardMode`;
- the high-score store, as a `map<string, int>`.

`Update` is `update()`. It runs the phases through `Tick` in the order of the source:

1. player, projectile and laser movement;
2. the superboss trigger;
3. spawning;
4. the superboss's turn;
5. monster, boss and laser contact;
6. red stars;
7. the projectile loop;
8. golden stars;
9. the final prune.

Each loop of the source is a `while` loop. The contact and pick-up loops (monster, boss and
laser contact, red and golden stars, and the monster check of one projectile) keep a ghost
predicate as their invariant (the `...Sweep` predicates), advanced by a one-element step method.
The other loops (projectile and laser motion, the spiral burst, the minions, the boss check and
the projectile loop itself) carry their invariants inline. Every phase is proved against a pure
definition in the modules beside it:

- `Geometry`: the padded hitboxes of `getHitbox` and the strict overlap test of `checkCollision`.
- `Entities`: the entity records and the end-of-tick prune.
- `Motion`: the guarded four-way player step, linear motion with its corner-only off-field test,
  and pursuit.
- `Spawner`: where new monsters and bosses appear.
- `SuperBossRules`:
  - the escalating thresholds 1000, 5000, 10000, …;
  - activation;
  - the two movement patterns;
  - the 60-, 100- and 300-frame emissions.
- `HighScore`: `getHighScore` and `saveHighScore` over the store.
- `Combat`:
  - `takeDamage` and repeated damage in one tick;
  - the contact counts of the player-side loops;
  - the projectile loop as a fold, `FireUpTo`, over the projectiles. Each projectile is checked
    against the monsters, then the bosses, then the superboss (`FireOne`).

   Lemmas about the fold state what the whole loop does:
  - projectiles are only switched off;
  - monsters only die, and a monster dies exactly when some earlier active projectile overlaps it;
  - lives, score and draws only grow, and the life cap holds;
  - the superboss only wears down, and its defeat clears the red stars and pays at least 1000 points;
  - the shape of the field is kept.

Host inputs are parameters of the class:

- `Math.random()` is the constant stream `random`, read at the index `draws`. Each call
  advances `draws` by one.
- `Math.atan2`, `Math.cos` and `Math.sin` are the uninterpreted functions in `trig`.
- `localStorage` is the field `store`.
- The keys held during a tick are the `Keys` parameter of `Update`.
- The 2000 ms invincibility timeout is the method `ExpireInvincibility`, which the host calls.

Coordinates are `real`; hit points, lives and the score are unbounded integers.

The source has quirks, and the model keeps them:

- One projectile kills every active monster it overlaps; the monster loop does not stop at the
  first hit.
- `gameOver()` does not end the tick. Further hits in the same tick keep taking lives
  (`RepeatedDamage`).
- The golden star pays 10 points for every monster still in the collection, including monsters
  killed earlier in the tick and not yet pruned.
- Stars and lasers are narrower than twice their padding, so their hitboxes have negative size
  (`StarHitboxIsInverted`).

Four behaviours of the code are easy to misread:

- The code guards each step by the position before the step, so the player can overshoot a
  border by up to 5 (`CanOvershootTopBorder` reaches y = -2). The proved band is
  `(-5, 741) x (-5, 541)` (`StaysInField`), not `[0, 736] x [0, 536]`.
- The code drops a projectile or a laser once its top-left corner leaves `[0, 800] x [0, 600]`,
  whatever its size (`CornerTestIgnoresSize`).
- `quitToHome` only clears `gameRunning` and `isPaused`. The collections stay as they are until
  the next `startGame` empties them.
- The projectile loop checks a projectile against the superboss without testing
  `p.active` again. This never matters, because no monster or boss exists during a fight
  (`EnemiesShaped`), so nothing can have stopped the projectile before that check.

## Model

| member | source | states |
|---|---|---|
| Geometry.PaddingValues | app.js:923-936 | the player is always padded by 15 whatever its width; other entities by 4 at width 16, 30 at width 120, 20 at width 150 and 15 at any other width |
| Geometry.HitboxKeepsCentre | app.js:938-943 | the hitbox has the entity's centre, and each of its four sides lies exactly the padding inside the entity's side |
| Geometry.CollisionByCentres | app.js:946-956 | two entities collide iff on each axis their centres are closer than half their summed sizes minus both paddings |
| Geometry.CollisionIsSymmetric | app.js:946-956 | checkCollision(a, b) == checkCollision(b, a) |
| Geometry.TouchingHitboxesDoNotCollide | app.js:950-955 | hitboxes whose edges only touch on either axis do not collide |
| Geometry.OverlapMeansSharedPoint | app.js:950-955 | for positive sizes the strict test holds iff the rectangles share an interior point |
| Geometry.StarHitboxIsInverted | app.js:934-943 | a 24x24 entity gets a hitbox of width -6, and colliding with it means covering the band x+9..x+15 on both axes |
| Entities.LifeCap | app.js:739 | the life cap is at least 1 |
| Entities.Prune | app.js:796-801 | the filter never grows a collection and leaves only active entities |
| Entities.PruneCounts | app.js:796-801 | every active entity is kept as often as it occurs, every inactive one is dropped |
| Entities.PruneAppend | app.js:796-801 | filtering distributes over concatenation, so survivors keep their order |
| Entities.PruneAllLive | app.js:796-801 | a collection with no inactive entity is left as it is |
| HighScore.KeysDiffer | app.js:168-169 | the two modes use different storage keys |
| HighScore.SavedKeepsBest | app.js:172-185 | after saving, the mode's best is max(old best, score); the other mode's best is unchanged; a non-record leaves the store unchanged |
| HighScore.SavedIdempotent | app.js:177-185 | saving the same score twice equals saving it once |
| HighScore.BestNeverDecreases | app.js:172-185 | over any sequence of saved runs the best never drops, bounds every saved score, and the other mode is untouched |
| Motion.Moved | app.js:530-549 | size and lives kept; the band and a four-way facing are kept; with no key whose guard holds nothing changes; a single key on an axis moves it one step iff its guard holds on the old position; with opposite keys the second is guarded by the position the first left; the facing is that of the last key actually applied, a refused later key leaving it alone |
| Motion.StaysInField | app.js:530-549 | under any sequence of key states the player stays in the band and keeps a four-way facing |
| Motion.CanOvershootTopBorder | app.js:530-534 | from y = 3 one step up reaches y = -2, outside the field |
| Motion.Advance | app.js:553-568 | the missile moves by its velocity and stays active iff it was active and its new corner is on the field |
| Motion.CornerTestIgnoresSize | app.js:556 | a projectile mostly on the field is dropped at the left border, one wholly past the right border is kept |
| Spawner.Side | app.js:470 | floor(4r) is an edge index 0..3, being 0 iff r < 0.25 and 3 iff r >= 0.75 |
| Spawner.SpawnedMonster | app.js:469-481 | a live 64x64 monster lying just beyond the chosen edge, at a point along it |
| Spawner.SpawnedBoss | app.js:483-495 | a live 120x120 boss with 5 of 5 hp, off the field, 150 beyond the middle of an edge |
| SuperBossRules.NextThreshold | app.js:573-577 | the threshold strictly grows at each activation |
| SuperBossRules.ThresholdSequence | app.js:573-577 | after n activations the threshold is 1000 for n = 0 and 5000n otherwise |
| SuperBossRules.ThresholdsIncrease | app.js:573-577 | the thresholds are strictly increasing |
| SuperBossRules.TypeFromDraw | app.js:501 | the type is 1 or 2, and 1 iff the draw is below 0.5 |
| SuperBossRules.Activated | app.js:497-503 | active, hp = maxHp = 50, size kept, centred horizontally at y = -200 |
| SuperBossRules.VolleyShape | app.js:598-639 | one 8x20 laser when frames % 60 == 0 for type 1, eight 12x12 lasers when frames % 100 == 0 for type 2, none otherwise; all live and from the centre |
| SuperBossRules.RedStarOnField | app.js:643-651 | a red star is a live 24x24 sprite lying wholly on the field for any draws |
| Combat.DamageRules | app.js:512-523 | invincible: nothing changes; otherwise exactly one life goes, then either the run stops and the score is saved (the best only grows) or invincibility starts |
| Combat.RepeatedDamage | app.js:512-523 | n hits in one tick: none count while invincible; with more than one life the first shields the rest; otherwise every hit takes a life after game over |
| Combat.MonsterContacts | app.js:660-668 | the count is at most the number of monsters |
| Combat.BossContacts | app.js:671-679 | the count is at most the number of bosses |
| Combat.LaserContacts | app.js:682-688 | the count is at most the number of lasers |
| Combat.StarContacts | app.js:691-694 | the count is at most the number of stars |
| Combat.StarContactsPrefix | app.js:691-694 | a prefix never has more contacts than the whole collection |
| Combat.Picked | app.js:783-786 | only the active flag changes, and the star stays active iff it was active and not touched |
| Combat.Absorbed | app.js:682-686 | only the active flag changes, and the laser stays active iff it was active and not touched |
| Combat.Heal | app.js:738-743 | one life is added iff below the mode's cap; the cap is never exceeded |
| Combat.GoldenStar | app.js:745-752 | a live 24x24 star centred on the boss |
| Combat.Minion | app.js:755-763 | a live 64x64 monster whose centre is within [-30, 30) of the boss's centre on each axis |
| Combat.Minions | app.js:755-763 | exactly five minions, the k-th from draws 2k and 2k+1 |
| Combat.Struck | app.js:714-722 | only the active flag changes, and the monster stays active iff it was active and not hit |
| Combat.StrikeAll | app.js:714-723 | every monster is struck in place |
| Combat.HitCount | app.js:714-723 | at most the number of monsters |
| Combat.HitCountZero | app.js:714-723 | no hit iff no active monster overlaps the projectile |
| Combat.MonsterPhase | app.js:713-723 | every overlapped active monster dies, +10 each; the projectile stops iff it hit one; nothing else changes |
| Combat.BossStep | app.js:727-766 | an active overlapped boss loses 1 hp and the projectile stops; at 0 hp: the boss dies, +100, capped heal, one golden star, five minions, ten draws; otherwise nothing changes |
| Combat.BossesUpTo | app.js:727-766 | across the bosses: projectile count kept, only projectile i may stop, superboss and red stars untouched, monsters only appended, lives/score/draws only grow |
| Combat.SuperBossPhase | app.js:768-779 | an active overlapped superboss loses 1 hp and the projectile stops; at 0 hp it is defeated, +1000, red stars cleared; otherwise nothing changes |
| Combat.FireOne | app.js:710-780 | an inactive projectile changes nothing; one that hit a monster is not checked against bosses or the superboss |
| Combat.MissLeavesMonsters | app.js:714-723 | a projectile that hits nothing leaves the monsters as they were |
| Combat.FireOneMiss | app.js:725-726 | after a complete miss the projectile goes on to the bosses and then the superboss |
| Combat.FireOneShots | app.js:710-780 | one pass only switches projectile i off |
| Combat.FireOneCounts | app.js:727-766 | one pass keeps the boss count and only appends monsters, and only while a boss exists |
| Combat.FireOneMonsters | app.js:714-723 | one pass strikes each existing monster with the active projectile, nothing else |
| Combat.FireOneMonstersOnlyDie | app.js:714-723 | one pass never moves or revives a monster |
| Combat.FireOneCounters | app.js:727-779 | one pass never lowers lives, score or draws, and keeps the life cap |
| Combat.FireOneSuperBoss | app.js:768-779 | one pass takes at most one hp from the superboss; red stars change only by its defeat, which clears them for at least 1000 points |
| Combat.ShotsTransitive | app.js:710-780 | (composition) the projectile relation composes across passes |
| Combat.CountsTransitive | app.js:710-780 | (composition) the count relation composes |
| Combat.MonstersTransitive | app.js:710-780 | (composition) monsters only dying composes |
| Combat.CountersTransitive | app.js:710-780 | (composition) counters growing composes |
| Combat.SuperBossTransitive | app.js:710-780 | (composition) the superboss wearing down composes |
| Combat.StarsTransitive | app.js:710-780 | (composition) red stars changing only by defeat composes |
| Combat.DefeatTransitive | app.js:710-780 | (composition) defeat paying 1000 and clearing the stars composes |
| Combat.FireUpTo | app.js:710-780 | the loop keeps the projectile count |
| Combat.ShotsStep | app.js:710-780 | pass n only switches projectiles off and leaves those from n on |
| Combat.CountsStep | app.js:710-780 | pass n keeps the boss count and only appends monsters |
| Combat.MonstersStep | app.js:714-723 | pass n only kills monsters |
| Combat.CountersStep | app.js:727-779 | pass n only grows lives, score and draws |
| Combat.SuperBossStep | app.js:768-779 | pass n only wears the superboss down, and its defeat clears red stars and pays |
| Combat.FireUpToProjectiles | app.js:710-780 | the loop only switches projectiles off, and only the ones it has reached |
| Combat.FireUpToCounts | app.js:710-780 | the loop keeps the boss count and only appends monsters, none without a boss |
| Combat.FireUpToMonsters | app.js:714-723 | the loop never moves or revives a monster |
| Combat.KillStep | app.js:714-723 | pass n kills monster k iff it was alive and projectile n-1, active, overlaps it |
| Combat.DodgesEvery | app.js:714-723 | dodging the first n projectiles means no active one of them overlaps the monster |
| Combat.FireUpToKills | app.js:710-723 | after n projectiles, an existing monster is alive iff it was alive and no active projectile among the first n overlaps it |
| Combat.FireUpToCounters | app.js:727-779 | the loop never costs a life, lowers the score or gives back a draw, and keeps the life cap |
| Combat.FireUpToSuperBoss | app.js:768-779 | the loop only wears the superboss down and never revives it |
| Combat.FireUpToRedStars | app.js:768-779 | the red stars change only when the loop defeats the superboss, which clears them |
| Combat.FireUpToDefeat | app.js:768-779 | a defeat during the loop clears the red stars and pays at least 1000 points |
| Combat.FireUpToKeepsShape | app.js:710-780 | the whole loop keeps the field's shape (one 150x150 superboss, at most one boss, stars only in a fight, a fight alone on the field with hp left, lives capped), and lives and score only grow |
| Simulation.Shot | app.js:456-467 | a live 16x16 projectile centred on the player with velocity lastDir times 7 |
| Simulation.ShotIsAxisAligned | app.js:456-467 | with a four-way facing the shot moves along exactly one axis at 7 per tick |
| Simulation.Game.constructor | app.js:210-282 | the initial state: idle, normal mode, threshold 1000, type 1, empty collections, the player centred facing up with three lives, the superboss parked at (-200, -200) |
| Simulation.Game.Draw | app.js:470 | one Math.random() call: the value at the current index, which then advances |
| Simulation.Game.SaveHighScore | app.js:177-185 | reports a new record iff the score beats the stored best, and stores it only then |
| Simulation.Game.GameOver | app.js:448-454 | the run stops and the score is saved for the mode |
| Simulation.Game.TakeDamage | app.js:512-523 | the status becomes Damage of the old status; only lives can change in the player record; the player invariant is kept |
| Simulation.Game.ExpireInvincibility | app.js:521 | invincibility ends and the invariant is kept |
| Simulation.Game.StartGame | app.js:388-412 | the mode is set; the run is running and unpaused with score, frames and every collection at zero; the player is reset with the mode's lives; the superboss retired; threshold 1000; the invariant holds |
| Simulation.Game.ResetSuperBoss | app.js:410-412 | the superboss is inactive and the threshold is 1000, on an emptied field |
| Simulation.Game.ResetCounters | app.js:392-408 | running, score and frames 0, not invincible, not paused |
| Simulation.Game.ResetPlayer | app.js:402-406 | the player is at the centre, facing up, with the mode's lives |
| Simulation.Game.ClearCollections | app.js:395-400 | all six collections are empty |
| Simulation.Game.TogglePause | app.js:425-427 | pause flips iff the run is going |
| Simulation.Game.QuitToHome | app.js:438-440 | the run stops and is unpaused; the invariant is kept |
| Simulation.Game.Shoot | app.js:456-467 | the shot is appended to the projectiles |
| Simulation.Game.SpawnMonster | app.js:469-481 | appends the monster for two draws (edge, then position) |
| Simulation.Game.SpawnBoss | app.js:483-495 | appends the boss for one draw |
| Simulation.Game.ActivateSuperBoss | app.js:497-510 | the superboss is activated, the type drawn, and monsters, bosses and red stars cleared |
| Simulation.Game.MovePlayer | app.js:530-549 | the player becomes Moved(player, keys) and the invariant is kept |
| Simulation.Game.MoveProjectiles | app.js:553-559 | every projectile is advanced in place |
| Simulation.Game.MoveLasers | app.js:562-568 | every laser is advanced in place |
| Simulation.Game.TriggerSuperBoss | app.js:570-578 | activates iff inactive and score >= threshold, and then raises the threshold; otherwise nothing changes |
| Simulation.Game.SpawnEnemies | app.js:580-588 | outside a fight: a monster iff frames % 100 == 0; a boss iff frames % 600 == 0 and there is none; nothing during a fight |
| Simulation.Game.SpiralAttack | app.js:627-638 | the eight-laser burst is appended in order |
| Simulation.Game.Manoeuvre | app.js:592-640 | the superboss moves by its type's pattern, keeps every field but its position, and appends its volley |
| Simulation.Game.DropRedStar | app.js:642-651 | a red star from two draws iff frames % 300 == 0 |
| Simulation.Game.SuperBossTurn | app.js:591-657 | the movement, volley, red star and contact damage of an active superboss, keeping the invariant |
| Simulation.Game.SuperBossContact | app.js:653-656 | one damage iff the player touches the superboss |
| Simulation.Game.MoveMonsters | app.js:660-668 | every monster chases the player, and the status takes one Damage per monster touching him or her, active or not |
| Simulation.Game.ChaseOneMonster | app.js:661-667 | one monster's step keeps the loop invariant |
| Simulation.Game.MoveBosses | app.js:671-679 | every boss chases at 0.7 times the speed, one Damage per boss touching the player |
| Simulation.Game.ChaseOneBoss | app.js:672-678 | one boss's step keeps the loop invariant |
| Simulation.Game.LaserHits | app.js:682-688 | every active laser touching the player is spent and does one Damage |
| Simulation.Game.AbsorbOneLaser | app.js:683-687 | one laser's step keeps the loop invariant |
| Simulation.Game.CollectRedStars | app.js:691-707 | each touched red star is picked and costs 10 hp; either the superboss falls (hp in (-10, 0], +1000, stars cleared) or it loses 10 per contact |
| Simulation.Game.CollectOneRedStar | app.js:692-705 | one star's step keeps the loop invariant |
| Simulation.Game.StrikeMonsters | app.js:713-723 | the battle becomes MonsterPhase of the old battle |
| Simulation.Game.StrikeOneMonster | app.js:715-722 | one monster's check keeps the loop invariant |
| Simulation.Game.SpawnMinions | app.js:755-763 | the five minions are appended using ten draws |
| Simulation.Game.HitBoss | app.js:728-765 | the battle becomes BossStep of the old battle |
| Simulation.Game.StrikeBosses | app.js:727-766 | the battle becomes BossesUpTo over all bosses |
| Simulation.Game.StrikeSuperBoss | app.js:768-779 | the battle becomes SuperBossPhase of the old battle |
| Simulation.Game.FireProjectile | app.js:711-779 | the battle becomes FireOne of the old battle |
| Simulation.Game.FireAll | app.js:710-780 | the battle becomes FireUpTo over all projectiles |
| Simulation.Game.ResolveProjectiles | app.js:710-780 | the projectile loop, keeping the invariant; the score only grows |
| Simulation.Game.CollectGoldenStars | app.js:783-793 | each touched golden star is picked; if any was, the monsters are gone for 10 points per monster in the collection, else nothing else changes |
| Simulation.Game.CollectOneGoldenStar | app.js:784-792 | one star's step keeps the loop invariant |
| Simulation.Game.Cleanup | app.js:796-801 | every collection is filtered to its active entities; afterwards all are active and the invariant holds |
| Simulation.Game.PruneEnemies | app.js:797-801 | monsters, bosses and red stars are filtered, keeping the enemy invariant |
| Simulation.Game.PruneItems | app.js:796-800 | projectiles, golden stars and lasers are filtered |
| Simulation.Game.Update | app.js:525-527 | a stopped or paused game is unchanged; otherwise one tick, keeping the invariant |
| Simulation.Game.Tick | app.js:528-802 | frames + 1; the score and the threshold never drop; the invariant is kept |
| Simulation.Game.Movement | app.js:529-568 | the player moves and the invariant is kept |
| Simulation.Game.Arrivals | app.js:570-657 | the invariant is kept and the threshold never drops |
| Simulation.Game.Contact | app.js:659-688 | the invariant is kept |
| Simulation.Game.Rewards | app.js:690-801 | the invariant is kept, every entity left is active, and the score never drops |

The class invariant `Valid` combines `Shaped` and `Settled`. `Shaped` holds at every point of a
tick:

- the player is 64x64, within the band, facing one of four ways, and has lives within the cap
  (at least one while running);
- the superboss is 150x150, of type 1 or 2, and the threshold is 1000 before the first activation and 5000 times the number of
  activations after it (the closed form `ThresholdSequence` proves for `ThresholdAfter`);
- there is at most one boss;
- red stars exist only during a fight;
- a fight has no monsters or bosses, and the superboss has hp left.

`Settled` holds after the final prune: every collection holds only active entities.

## Left out

- Web Audio, DOM and UI updates, canvas drawing, asset loading, and the keyboard, touch and mouse
  listeners are host code. So is the `requestAnimationFrame` loop. Key states are the `Keys`
  parameter of `Update`. `StartGame` takes the mode that the start buttons assign just before
  calling `startGame`.
- The 2000 ms `setTimeout` that ends invincibility is wall-clock time. It is the separate method
  `ExpireInvincibility`, with no timing.
- Floating point and trigonometry:
  - positions are exact reals;
  - `atan2`, `cos` and `sin` are uninterpreted;
  - `Math.PI` is a decimal constant.

  The pursuit, orbit and laser formulas (`Motion.Pursue`, `Motion.ChaseMonster`, `Motion.ChaseBoss`,
  `SuperBossRules.Chased`, `SuperBossRules.Orbited`, `SuperBossRules.AimedLaser`,
  `SuperBossRules.SpiralLaser`) are kept as plain definitions. No lemma is stated about them,
  because with uninterpreted trigonometry any such lemma could only repeat the formula. The
  methods that move enemies state their new positions through these definitions.
- `Math.random()` is any stream of reals in [0, 1). Its real distribution is not modelled.
- `parseInt` of a stored value that is not a number is not modelled. The store holds integers only.
- `SHOOT_COOLDOWN` is declared but never used by the code, and the player's `dx`/`dy` fields are
  never read. Neither is modelled.
- Which listener may fire a shot, and when, is host code. The fire button shoots while the game
  is paused; the Space key does not. The model's `Shoot` can be called at any time.
- After `redStars = []` the source's `for...of` loop keeps walking the old array. The remaining
  iterations change no visible state, because the superboss is no longer active. The model's
  loop stops instead.
- The monster and boss movement loops give Dafny a snapshot of the player taken before the loop.
  Only `lives` changes during those loops, and the movement formulas do not read it.
- Simulation.Game.Update and Simulation.Game.Tick: their contracts state the invariant, the
  frame count and the monotonicity of the score and the threshold. They do not state the
  composed effect of a whole tick. Each phase method states its own effect.
- Simulation.Game.Movement, Simulation.Game.Arrivals, Simulation.Game.Contact and
  Simulation.Game.Rewards: these group methods state only the invariant and monotone facts. The
  detailed effects are stated by the phase methods they call.
- Simulation.Game.SuperBossTurn, ChaseOneMonster and the other loop-step methods state their
  effect through the loop predicates. What a whole loop does is stated by the method that runs it.
