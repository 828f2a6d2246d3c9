/**
 * The entity records of the simulation and the end-of-tick pruning of inactive entities
 * (`xs.filter(e => e.active)` on each of the six collections).
 */
module Entities {
  import opened Geometry

  const PLAYER_SPEED: real := 5.0
  const PROJECTILE_SPEED: real := 7.0
  const MONSTER_SPEED: real := 2.0
  const SUPERBOSS_SPEED: real := 1.5
  const LASER_SPEED: real := 6.0
  const SPAWN_RATE: int := 100

  /** Something that flies in a straight line: a player projectile or a superboss laser. */
  datatype Missile = Missile(x: real, y: real, width: real, height: real, vx: real, vy: real, active: bool)
  {
    function Bounds(): Rect { Rect(x, y, width, height) }
  }

  /** A monster, a golden star (powerup) or a red star: a rectangle with an active flag. */
  datatype Sprite = Sprite(x: real, y: real, width: real, height: real, active: bool)
  {
    function Bounds(): Rect { Rect(x, y, width, height) }
  }

  /** An elite enemy with hit points. */
  datatype Boss = Boss(x: real, y: real, width: real, height: real, hp: int, maxHp: int, active: bool)
  {
    function Bounds(): Rect { Rect(x, y, width, height) }
  }

  /** The player; lastDirX/lastDirY is the facing a shot takes. */
  datatype Player = Player(x: real, y: real, width: real, height: real, lastDirX: int, lastDirY: int, lives: int)
  {
    function Bounds(): Rect { Rect(x, y, width, height) }
  }

  /** The single superboss record, toggled active and inactive. */
  datatype SuperBoss = SuperBoss(x: real, y: real, width: real, height: real, hp: int, maxHp: int, active: bool)
  {
    function Bounds(): Rect { Rect(x, y, width, height) }
  }

  /** The four facings a move can set: up, down, left, right. */
  predicate IsFacing(dx: int, dy: int)
  {
    (dx == 0 && (dy == -1 || dy == 1)) || (dy == 0 && (dx == -1 || dx == 1))
  }

  /** The lives a run starts with, and the cap a boss kill heals up to. */
  function LifeCap(hard: bool): (cap: int)
    ensures cap >= 1
  {
    if hard then 1 else 3
  }

  /** checkCollision(player, e), given the player's rectangle: only the player is padded by identity. */
  predicate Touches(pl: Rect, r: Rect)
  {
    CheckCollision(pl, true, r, false)
  }

  /** checkCollision(p, e) for two non-player entities. */
  predicate Hits(a: Rect, b: Rect)
  {
    CheckCollision(a, false, b, false)
  }

  predicate MissileActive(m: Missile) { m.active }
  predicate SpriteActive(s: Sprite) { s.active }
  predicate BossActive(b: Boss) { b.active }

  /** Every element satisfies `live`. */
  predicate AllLive<T>(s: seq<T>, live: T -> bool)
  {
    forall k :: 0 <= k < |s| ==> live(s[k])
  }

  /** `s.filter(live)`: the elements that satisfy `live`, in their original order. */
  function Prune<T>(s: seq<T>, live: T -> bool): (r: seq<T>)
    ensures |r| <= |s|
    ensures AllLive(r, live)
  {
    if s == [] then []
    else (if live(s[0]) then [s[0]] else []) + Prune(s[1..], live)
  }

  /** Pruning keeps every live element as often as it occurs and drops every other one. */
  lemma {:induction false} PruneCounts<T>(s: seq<T>, live: T -> bool, e: T)
    ensures multiset(Prune(s, live))[e] == if live(e) then multiset(s)[e] else 0
  {
    if s != [] {
      PruneCounts(s[1..], live, e);
      assert s == [s[0]] + s[1..];
    }
  }

  /** Pruning distributes over concatenation, so the relative order of survivors is kept. */
  lemma {:induction false} PruneAppend<T>(a: seq<T>, b: seq<T>, live: T -> bool)
    ensures Prune(a + b, live) == Prune(a, live) + Prune(b, live)
  {
    if a == [] {
      assert a + b == b;
    } else {
      var c := a + b;
      assert c[0] == a[0] && c[1..] == a[1..] + b;
      PruneAppend(a[1..], b, live);
      assert Prune(c, live) == (if live(a[0]) then [a[0]] else []) + Prune(a[1..] + b, live);
    }
  }

  /** A collection already free of inactive entities is left exactly as it is. */
  lemma {:induction false} PruneAllLive<T>(s: seq<T>, live: T -> bool)
    requires AllLive(s, live)
    ensures Prune(s, live) == s
  {
    if s != [] {
      PruneAllLive(s[1..], live);
    }
  }
}
