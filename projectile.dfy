/** Lasers, rockets and the pools that recycle them (js/entities/Projectile.js).
    A pool never frees an instance: `get` re-initialises the first inactive one
    in place, or appends a new one when all are in flight. */
module Projectiles {

  import opened Common

  datatype Owner = PlayerOwned | EnemyOwned

  const LaserWidth: real := 3.0
  const LaserHeight: real := 12.0
  const LaserSpeed: real := 450.0
  const RocketWidth: real := 8.0
  const RocketHeight: real := 20.0
  const RocketSpeed: real := 300.0
  const RocketExplosionRadius: real := 120.0

  /** The box of a projectile drawn centred on (x, y). */
  function CentredBox(x: real, y: real, w: real, h: real): Box
  {
    Box(x - w / 2.0, y - h / 2.0, w, h)
  }

  /** The lowest index whose flag is false, or |flags| if there is none
      (Array.prototype.find over `!p.active`). */
  function FirstInactive(flags: seq<bool>): (k: nat)
    ensures k <= |flags|
    ensures k < |flags| ==> !flags[k]
    ensures forall j :: 0 <= j < k ==> flags[j]
  {
    if flags == [] then 0
    else if !flags[0] then 0
    else 1 + FirstInactive(flags[1..])
  }

  class Projectile {
    var x: real
    var y: real
    var direction: real
    var owner: Owner
    var active: bool
    var isDirectional: bool
    var directionX: real
    var directionY: real

    /** A new projectile is inactive and flies straight. */
    constructor (x0: real, y0: real, dir: real, own: Owner)
      ensures x == x0 && y == y0 && direction == dir && owner == own
      ensures !active && !isDirectional && directionX == 0.0 && directionY == 1.0
    {
      x, y, direction, owner := x0, y0, dir, own;
      active := false;
      isDirectional, directionX, directionY := false, 0.0, 1.0;
    }

    /** reset: re-aim and re-activate; aiming is always cleared. */
    method Reset(x0: real, y0: real, dir: real, own: Owner)
      modifies this
      ensures x == x0 && y == y0 && direction == dir && owner == own
      ensures active && !isDirectional && directionX == 0.0 && directionY == 1.0
    {
      x, y, direction, owner := x0, y0, dir, own;
      active := true;
      isDirectional, directionX, directionY := false, 0.0, 1.0;
    }

    /** move: straight shots change only y; aimed shots follow (directionX, directionY). */
    method Move(dt: real)
      modifies this`x, this`y
      ensures !isDirectional ==> x == old(x) && y == old(y) + LaserSpeed * direction * dt
      ensures isDirectional ==>
                x == old(x) + LaserSpeed * directionX * dt &&
                y == old(y) + LaserSpeed * directionY * dt
    {
      if isDirectional {
        x := x + LaserSpeed * directionX * dt;
        y := y + LaserSpeed * directionY * dt;
      } else {
        y := y + LaserSpeed * direction * dt;
      }
    }

    /** hit: the centred 3x12 laser box strictly overlaps the target box, so
        the laser's centre lies within half its size of the target. */
    function Hit(target: Box): (r: bool)
      reads this
      ensures r <==> Overlaps(CentredBox(x, y, LaserWidth, LaserHeight), target)
      ensures r ==> target.x - LaserWidth / 2.0 < x < target.x + target.w + LaserWidth / 2.0
      ensures r ==> target.y - LaserHeight / 2.0 < y < target.y + target.h + LaserHeight / 2.0
    {
      x - LaserWidth / 2.0 < target.x + target.w &&
      x + LaserWidth / 2.0 > target.x &&
      y - LaserHeight / 2.0 < target.y + target.h &&
      y + LaserHeight / 2.0 > target.y
    }

    /** isOutOfBounds: more than 20 units above or below the safe zone. */
    function IsOutOfBounds(zone: Zone): (r: bool)
      reads this
      ensures !r <==> zone.y - 20.0 <= y <= zone.y + SafeZoneHeight + 20.0
    {
      y < zone.y - 20.0 || y > zone.y + SafeZoneHeight + 20.0
    }
  }

  class ProjectilePool {
    const owner: Owner
    var pool: seq<Projectile>

    /** Every instance occurs once. */
    ghost predicate Valid()
      reads this
    {
      forall i, j :: 0 <= i < j < |pool| ==> pool[i] != pool[j]
    }

    function ActiveFlags(): (flags: seq<bool>)
      reads this, pool
      ensures |flags| == |pool|
      ensures forall i :: 0 <= i < |pool| ==> flags[i] == pool[i].active
    {
      seq(|pool|, i reads this, pool requires 0 <= i < |pool| => pool[i].active)
    }

    /** The pool starts with `size` inactive projectiles. */
    constructor (size: nat, own: Owner)
      ensures Valid() && owner == own && |pool| == size && fresh(pool)
      ensures forall i :: 0 <= i < size ==> !pool[i].active && pool[i].owner == own
    {
      owner := own;
      var made: seq<Projectile> := [];
      while |made| < size
        invariant |made| <= size
        invariant forall i, j :: 0 <= i < j < |made| ==> made[i] != made[j]
        invariant fresh(made)
        invariant forall i :: 0 <= i < |made| ==> !made[i].active && made[i].owner == own
      {
        var p := new Projectile(0.0, 0.0, 1.0, own);
        made := made + [p];
      }
      pool := made;
    }

    /** get: reuse the lowest-index inactive projectile without changing the
        pool's length, or append exactly one new one when all are active. The
        result flies straight from (x0, y0) in direction `dir`, owned by
        `own` when given and by the pool's owner otherwise. */
    method Get(x0: real, y0: real, dir: real, own: Option<Owner>) returns (p: Projectile)
      requires Valid()
      modifies this, pool
      ensures Valid() && p in pool
      ensures p.active && p.x == x0 && p.y == y0 && p.direction == dir
      ensures p.owner == (if own.Some? then own.value else owner)
      ensures !p.isDirectional && p.directionX == 0.0 && p.directionY == 1.0
      ensures var k := FirstInactive(old(ActiveFlags()));
              if k < |old(pool)| then pool == old(pool) && p == pool[k]
              else pool == old(pool) + [p] && fresh(p)
      ensures forall q :: q in old(pool) && q != p ==> unchanged(q)
    {
      var projectileOwner := if own.Some? then own.value else owner;
      ghost var flags := ActiveFlags();
      var i := 0;
      while i < |pool| && pool[i].active
        invariant 0 <= i <= |pool|
        invariant forall j :: 0 <= j < i ==> flags[j]
      {
        i := i + 1;
      }
      assert i == FirstInactive(flags) by { FirstInactiveUnique(flags, i); }
      if i < |pool| {
        p := pool[i];
        p.Reset(x0, y0, dir, projectileOwner);
        return;
      }
      p := new Projectile(x0, y0, dir, projectileOwner);
      p.active := true;
      pool := pool + [p];
    }

    /** release: only the given projectile's `active` flag changes. */
    method Release(p: Projectile)
      modifies p`active
      ensures !p.active
    {
      p.active := false;
    }

    /** Deactivate every pooled projectile (the forEach of js/Game.js). */
    method ReleaseAll()
      modifies pool`active
      ensures forall i :: 0 <= i < |pool| ==> !pool[i].active
    {
      forall i | 0 <= i < |pool| {
        pool[i].active := false;
      }
    }
  }

  /** The position a characterisation of FirstInactive pins down. */
  lemma FirstInactiveUnique(flags: seq<bool>, i: nat)
    requires i <= |flags|
    requires i < |flags| ==> !flags[i]
    requires forall j :: 0 <= j < i ==> flags[j]
    ensures FirstInactive(flags) == i
  {
  }

  class Rocket {
    var x: real
    var y: real
    var direction: real
    var active: bool
    const explosionRadius: real

    constructor (x0: real, y0: real, dir: real)
      ensures x == x0 && y == y0 && direction == dir && !active
      ensures explosionRadius == RocketExplosionRadius
    {
      x, y, direction := x0, y0, dir;
      active := false;
      explosionRadius := RocketExplosionRadius;
    }

    /** reset: re-aim and re-activate; the explosion radius is left as it is. */
    method Reset(x0: real, y0: real, dir: real)
      modifies this
      ensures x == x0 && y == y0 && direction == dir && active
    {
      x, y, direction := x0, y0, dir;
      active := true;
    }

    method Move(dt: real)
      modifies this`y
      ensures y == old(y) + RocketSpeed * direction * dt
    {
      y := y + RocketSpeed * direction * dt;
    }

    /** isOutOfBounds: rockets get a 50-unit margin. */
    function IsOutOfBounds(zone: Zone): (r: bool)
      reads this
      ensures !r <==> zone.y - 50.0 <= y <= zone.y + SafeZoneHeight + 50.0
    {
      y < zone.y - 50.0 || y > zone.y + SafeZoneHeight + 50.0
    }

    function Hit(target: Box): (r: bool)
      reads this
      ensures r <==> Overlaps(CentredBox(x, y, RocketWidth, RocketHeight), target)
      ensures r ==> target.x - RocketWidth / 2.0 < x < target.x + target.w + RocketWidth / 2.0
    {
      x - RocketWidth / 2.0 < target.x + target.w &&
      x + RocketWidth / 2.0 > target.x &&
      y - RocketHeight / 2.0 < target.y + target.h &&
      y + RocketHeight / 2.0 > target.y
    }
  }

  class RocketPool {
    var pool: seq<Rocket>

    ghost predicate Valid()
      reads this
    {
      forall i, j :: 0 <= i < j < |pool| ==> pool[i] != pool[j]
    }

    function ActiveFlags(): (flags: seq<bool>)
      reads this, pool
      ensures |flags| == |pool|
      ensures forall i :: 0 <= i < |pool| ==> flags[i] == pool[i].active
    {
      seq(|pool|, i reads this, pool requires 0 <= i < |pool| => pool[i].active)
    }

    constructor (size: nat)
      ensures Valid() && |pool| == size && fresh(pool)
      ensures forall i :: 0 <= i < size ==> !pool[i].active
    {
      var made: seq<Rocket> := [];
      while |made| < size
        invariant |made| <= size
        invariant forall i, j :: 0 <= i < j < |made| ==> made[i] != made[j]
        invariant fresh(made)
        invariant forall i :: 0 <= i < |made| ==> !made[i].active
      {
        var r := new Rocket(0.0, 0.0, 1.0);
        made := made + [r];
      }
      pool := made;
    }

    /** get: the same reuse-or-grow rule as the laser pool. */
    method Get(x0: real, y0: real, dir: real) returns (r: Rocket)
      requires Valid()
      modifies this, pool
      ensures Valid() && r in pool
      ensures r.active && r.x == x0 && r.y == y0 && r.direction == dir
      ensures r.explosionRadius == RocketExplosionRadius || r in old(pool)
      ensures var k := FirstInactive(old(ActiveFlags()));
              if k < |old(pool)| then pool == old(pool) && r == pool[k]
              else pool == old(pool) + [r] && fresh(r)
      ensures forall q :: q in old(pool) && q != r ==> unchanged(q)
    {
      ghost var flags := ActiveFlags();
      var i := 0;
      while i < |pool| && pool[i].active
        invariant 0 <= i <= |pool|
        invariant forall j :: 0 <= j < i ==> flags[j]
      {
        i := i + 1;
      }
      assert i == FirstInactive(flags) by { FirstInactiveUnique(flags, i); }
      if i < |pool| {
        r := pool[i];
        r.Reset(x0, y0, dir);
        return;
      }
      r := new Rocket(x0, y0, dir);
      r.active := true;
      pool := pool + [r];
    }

    method Release(r: Rocket)
      modifies r`active
      ensures !r.active
    {
      r.active := false;
    }

    method ReleaseAll()
      modifies pool`active
      ensures forall i :: 0 <= i < |pool| ==> !pool[i].active
    {
      forall i | 0 <= i < |pool| {
        pool[i].active := false;
      }
    }
  }
}
