/** One enemy of the formation (js/entities/Enemy.js): it flies in to its
    landing row, then drifts with the shared formation direction and fires;
    a lethal hit starts an 8-frame death animation (bosses vanish at once). */
module Enemies {

  import opened Common
  import opened WavePatterns
  import Projectiles

  datatype AnimState = Idle | Dying | Dead

  /** What a call to `move` fired. An aimed boss shot needs the trigonometry
      of shootAtPlayer, which is not modelled; the model only reports it. */
  datatype Shot = NoShot | ColumnShot(laser: Projectiles.Projectile) | AimedShot

  const BaseSpeed: real := 60.0
  const FlySpeed: real := 300.0
  const DeathFrameDuration: real := 0.025
  const DeathFrameCount: int := 8
  const ColumnWidth: real := 60.0

  /** Difficulty tier: Math.floor(wave / 10). Dafny's `/` on int is the
      floor for a positive divisor, negative waves included. */
  function Tier(wave: int): int { wave / 10 }

  /** Starting health: tier + 1 for a regular enemy, five times that for a boss. */
  function StartingHealth(kind: EnemyKind, wave: int): (hp: int)
    ensures wave >= 0 ==> hp >= 1
    ensures kind == Basic ==> (hp - 1) * 10 <= wave < hp * 10
    ensures kind == Boss ==> hp % 5 == 0 && (hp / 5 - 1) * 10 <= wave < (hp / 5) * 10
  {
    if kind == Boss then 5 * (Tier(wave) + 1) else Tier(wave) + 1
  }

  /** Wave 25 is tier 2: three hits for a regular enemy, fifteen for a boss. */
  lemma HealthAtWave25()
    ensures StartingHealth(Basic, 25) == 3 && StartingHealth(Boss, 25) == 15
  {
  }

  /** Regular health grows by exactly one every ten waves. */
  lemma {:induction false} HealthStepsEveryTenWaves(wave: int)
    ensures StartingHealth(Basic, wave + 10) == StartingHealth(Basic, wave) + 1
  {
    assert (wave + 10) / 10 == wave / 10 + 1;
  }

  /** `rowConfig.x || default`: a missing or zero multiplier falls back to 1.0. */
  function RateOrDefault(rate: Option<real>): (r: real)
    ensures rate.Some? && rate.value != 0.0 ==> r == rate.value
    ensures rate.None? || rate.value == 0.0 ==> r == 1.0
  {
    if rate.Some? && rate.value != 0.0 then rate.value else 1.0
  }

  /** Per-frame firing probability of a landed enemy. */
  function FireRate(kind: EnemyKind, wave: int, multiplier: real): (p: real)
    ensures wave >= 1 && multiplier > 0.0 ==> p > 0.0
    ensures kind == Boss && wave > 1 ==> p == 0.003 * (1.0 + (wave - 1) as real * 0.15) * multiplier
    ensures kind != Boss && wave > 1 ==> p == 0.0012 * (1.0 + (wave - 1) as real * 0.15) * multiplier
    ensures wave == 1 ==> p == (if kind == Boss then 0.0045 else 0.0018) * multiplier
  {
    var base := if kind == Boss then 0.003 else 0.0012;
    var base1 := if wave == 1 then base * 1.5 else base;
    base1 * (1.0 + (wave - 1) as real * 0.15) * multiplier
  }

  /** One fly-in step: the new y and whether the enemy is still flying. The
      step is cut at the target; the flag drops only on a call that finds the
      enemy already there. */
  function FlyIn(y: real, targetY: real, dt: real): (r: (real, bool))
    ensures r.1 <==> y < targetY
    ensures !r.1 ==> r.0 == y
    ensures dt >= 0.0 && y <= targetY ==> y <= r.0 <= targetY
    ensures r.1 ==> r.0 == y + Min(FlySpeed * dt, targetY - y)
  {
    var dist := targetY - y;
    if dist > 0.0 then (y + Min(FlySpeed * dt, dist), true) else (y, false)
  }

  /** Death animation clock: frame number and time accumulated in the frame. */
  datatype DeathClock = DeathClock(frame: int, time: real)

  /** One tick of the death animation: the frame advances only once 25 ms
      have accumulated, and the accumulator restarts at zero. */
  function DeathTick(c: DeathClock, dt: real): (r: DeathClock)
    ensures c.time + dt >= DeathFrameDuration ==> r == DeathClock(c.frame + 1, 0.0)
    ensures c.time + dt < DeathFrameDuration ==> r == DeathClock(c.frame, c.time + dt)
  {
    if c.time + dt >= DeathFrameDuration then DeathClock(c.frame + 1, 0.0)
    else DeathClock(c.frame, c.time + dt)
  }

  predicate Finished(c: DeathClock) { c.frame >= DeathFrameCount }

  /** The clock after n ticks of the same length. */
  function DeathTicks(c: DeathClock, dt: real, n: nat): DeathClock
  {
    if n == 0 then c else DeathTick(DeathTicks(c, dt, n - 1), dt)
  }

  /** At frame rates of 40 Hz or slower every tick shows a new frame, so a
      dying enemy is dead after exactly eight updates. */
  lemma {:induction false} DeathTakesEightFrames(dt: real, n: nat)
    requires dt >= DeathFrameDuration
    ensures DeathTicks(DeathClock(0, 0.0), dt, n) == DeathClock(n, 0.0)
    ensures Finished(DeathTicks(DeathClock(0, 0.0), dt, n)) <==> n >= 8
  {
    if n > 0 {
      DeathTakesEightFrames(dt, n - 1);
    }
  }

  class Enemy {
    const kind: EnemyKind
    const rowIndex: nat
    var x: real
    var y: real
    const targetY: real
    const w: real
    const h: real
    var speed: real
    var isFlying: bool
    var active: bool
    var health: int
    const maxHealth: int
    const weaponType: Weapon
    const fireRateMultiplier: real
    var animationState: AnimState
    var deathFrame: int
    var deathFrameTime: real

    function Clock(): DeathClock
      reads this
    {
      DeathClock(deathFrame, deathFrameTime)
    }

    /** A dying enemy shows one of the frames 0..7; a dead one is inactive. */
    ghost predicate Valid()
      reads this`animationState, this`deathFrame, this`active
    {
      (animationState == Dying ==> 0 <= deathFrame < DeathFrameCount) &&
      (animationState == Dead ==> !active)
    }

    /** A new enemy starts above the zone at its final column, flying in to
        `y0` below the zone's top, active and idle, with health scaled by
        the wave's tier. */
    constructor (zone: Zone, x0: real, y0: real, k: EnemyKind, row: nat, wave: int,
                 weapon: Option<Weapon>, rate: Option<real>)
      ensures kind == k && rowIndex == row
      ensures x == zone.x + x0 && y == zone.y - 200.0 - row as real * 55.0
      ensures targetY == zone.y + y0
      ensures w == h == (if k == Boss then 80.0 else 50.0)
      ensures speed == BaseSpeed && isFlying && active
      ensures health == maxHealth == StartingHealth(k, wave)
      ensures weaponType == (if weapon.Some? then weapon.value else Aimed)
      ensures fireRateMultiplier == RateOrDefault(rate)
      ensures animationState == Idle && Clock() == DeathClock(0, 0.0)
      ensures Valid()
    {
      kind, rowIndex := k, row;
      x := zone.x + x0;
      y := zone.y - 200.0 - row as real * 55.0;
      targetY := zone.y + y0;
      w := if k == Boss then 80.0 else 50.0;
      h := if k == Boss then 80.0 else 50.0;
      speed := BaseSpeed;
      isFlying := true;
      active := true;
      health := StartingHealth(k, wave);
      maxHealth := StartingHealth(k, wave);
      weaponType := if weapon.Some? then weapon.value else Aimed;
      fireRateMultiplier := RateOrDefault(rate);
      animationState := Idle;
      deathFrame := 0;
      deathFrameTime := 0.0;
    }

    /** Whether `e` blocks this enemy's shot: active, not dying, strictly
        lower on screen and less than a column width away horizontally. */
    predicate Blocks(e: Enemy)
      reads this, e
    {
      e.active && e.animationState != Dying && e.y > y && Abs(e.x - x) < ColumnWidth
    }

    /** canShoot: no other enemy of the list blocks this one. */
    function CanShoot(enemies: seq<Enemy>): (r: bool)
      reads this, enemies
      ensures r <==> forall i :: 0 <= i < |enemies| && enemies[i] != this ==> !Blocks(enemies[i])
    {
      if enemies == [] then true
      else if enemies[0] != this && Blocks(enemies[0]) then false
      else CanShoot(enemies[1..])
    }

    /** move: dying enemies run their animation and keep drifting; flying
        ones descend to their row; landed ones wait for the formation, then
        drift and may fire (`u` is the random draw in [0, 1)). */
    method Move(dt: real, formationReady: bool, direction: int, wave: int, u: real,
                enemies: seq<Enemy>, pool: Projectiles.ProjectilePool) returns (shot: Shot)
      requires Valid() && pool.Valid()
      modifies this, pool, pool.pool
      ensures Valid() && pool.Valid()
      ensures !old(active) ==> unchanged(this) && shot == NoShot
      ensures !shot.ColumnShot? ==> unchanged(pool) && unchanged(old(pool.pool))
      ensures old(active) && old(animationState) == Dying ==>
                Clock() == DeathTick(old(Clock()), dt) &&
                (Finished(Clock()) ==> animationState == Dead && !active) &&
                (!Finished(Clock()) ==> animationState == Dying && active) &&
                x == (if formationReady then old(x) + speed * direction as real * dt else old(x)) &&
                y == old(y) && isFlying == old(isFlying) && shot == NoShot
      ensures old(active) && old(animationState) != Dying && old(isFlying) ==>
                (y, isFlying) == FlyIn(old(y), targetY, dt) &&
                x == old(x) && active && animationState == old(animationState) && shot == NoShot &&
                Clock() == old(Clock())
      ensures old(active) && old(animationState) != Dying && !old(isFlying) ==>
                y == old(y) && !isFlying && active && animationState == old(animationState) &&
                Clock() == old(Clock()) &&
                x == (if formationReady then old(x) + speed * direction as real * dt else old(x))
      ensures old(active) && old(animationState) != Dying && !old(isFlying) && formationReady ==>
                var fires := u < FireRate(kind, wave, fireRateMultiplier);
                (shot == AimedShot <==> fires && kind == Boss) &&
                (shot.ColumnShot? <==> fires && kind == Basic && CanShoot(enemies))
      ensures !formationReady ==> !shot.ColumnShot? && shot != AimedShot
      ensures shot.ColumnShot? ==>
                shot.laser in pool.pool && shot.laser.active &&
                shot.laser.x == x + w / 2.0 && shot.laser.y == y + h &&
                shot.laser.direction == 1.0 && shot.laser.owner == pool.owner
      ensures shot.ColumnShot? ==>
                var k := Projectiles.FirstInactive(old(pool.ActiveFlags()));
                if k < |old(pool.pool)| then pool.pool == old(pool.pool) && shot.laser == pool.pool[k]
                else pool.pool == old(pool.pool) + [shot.laser] && fresh(shot.laser)
      ensures shot.ColumnShot? ==> forall q :: q in old(pool.pool) && q != shot.laser ==> unchanged(q)
      ensures health == old(health) && speed == old(speed)
    {
      shot := NoShot;
      if !active {
        return;
      }
      if animationState == Dying {
        Die(dt, formationReady, direction);
        return;
      }
      if isFlying {
        var distToTarget := targetY - y;
        if distToTarget > 0.0 {
          var moveAmount := FlySpeed * dt;
          y := y + Min(moveAmount, distToTarget);
        } else {
          isFlying := false;
        }
        return;
      }
      if !formationReady {
        return;
      }
      x := x + speed * direction as real * dt;
      shot := Fire(wave, u, enemies, pool);
    }

    /** The dying branch of move: one tick of the death animation, and the
        drift with a ready formation. */
    method Die(dt: real, formationReady: bool, direction: int)
      requires Valid() && active && animationState == Dying
      modifies this`deathFrameTime, this`deathFrame, this`animationState, this`active, this`x
      ensures Valid()
      ensures Clock() == DeathTick(old(Clock()), dt)
      ensures Finished(Clock()) ==> animationState == Dead && !active
      ensures !Finished(Clock()) ==> animationState == Dying && active
      ensures x == (if formationReady then old(x) + speed * direction as real * dt else old(x))
    {
      deathFrameTime := deathFrameTime + dt;
      if deathFrameTime >= DeathFrameDuration {
        deathFrameTime := 0.0;
        deathFrame := deathFrame + 1;
        if deathFrame >= DeathFrameCount {
          animationState := Dead;
          active := false;
        }
      }
      if formationReady {
        x := x + speed * direction as real * dt;
      }
    }

    /** The firing step of move for a landed enemy in a ready formation: it
        fires when the draw `u` is below its fire chance, a boss an aimed
        shot and a regular enemy a column shot when nothing blocks it. */
    method Fire(wave: int, u: real, enemies: seq<Enemy>, pool: Projectiles.ProjectilePool) returns (shot: Shot)
      requires Valid() && pool.Valid()
      modifies pool, pool.pool
      ensures pool.Valid()
      ensures !shot.ColumnShot? ==> unchanged(pool) && unchanged(old(pool.pool))
      ensures var fires := u < FireRate(kind, wave, fireRateMultiplier);
              (shot == AimedShot <==> fires && kind == Boss) &&
              (shot.ColumnShot? <==> fires && kind == Basic && old(CanShoot(enemies)))
      ensures shot.ColumnShot? ==>
                shot.laser in pool.pool && shot.laser.active &&
                shot.laser.x == x + w / 2.0 && shot.laser.y == y + h &&
                shot.laser.direction == 1.0 && shot.laser.owner == pool.owner
      ensures shot.ColumnShot? ==>
                var k := Projectiles.FirstInactive(old(pool.ActiveFlags()));
                if k < |old(pool.pool)| then pool.pool == old(pool.pool) && shot.laser == pool.pool[k]
                else pool.pool == old(pool.pool) + [shot.laser] && fresh(shot.laser)
      ensures shot.ColumnShot? ==> forall q :: q in old(pool.pool) && q != shot.laser ==> unchanged(q)
    {
      shot := NoShot;
      if u < FireRate(kind, wave, fireRateMultiplier) {
        if kind == Boss {
          shot := AimedShot;
        } else if CanShoot(enemies) {
          var laser := pool.Get(x + w / 2.0, y + h, 1.0, None);
          shot := ColumnShot(laser);
        }
      }
    }

    /** takeDamage: one point of damage with no floor; a lethal hit starts the
        death animation of a regular enemy and removes a boss at once. */
    method TakeDamage() returns (destroyed: bool)
      requires Valid()
      modifies this
      ensures Valid()
      ensures health == old(health) - 1
      ensures destroyed <==> health <= 0
      ensures destroyed && kind == Basic ==>
                animationState == Dying && Clock() == DeathClock(0, 0.0) && active == old(active)
      ensures destroyed && kind == Boss ==>
                !active && animationState == old(animationState) && Clock() == old(Clock())
      ensures !destroyed ==> active == old(active) && animationState == old(animationState) &&
                             Clock() == old(Clock())
      ensures x == old(x) && y == old(y) && isFlying == old(isFlying) && speed == old(speed)
    {
      health := health - 1;
      if health <= 0 {
        if kind != Boss {
          animationState := Dying;
          deathFrame := 0;
          deathFrameTime := 0.0;
          return true;
        } else {
          active := false;
          return true;
        }
      }
      return false;
    }
  }
}
