/** The player's ship (js/entities/Player.js): horizontal movement clamped to
    the safe zone, a five-second shield and a weapon heat limiter. */
module Players {

  import opened Common
  import WeaponHeat

  const PlayerSize: real := 50.0
  const PlayerSpeed: real := 300.0
  const ShieldDuration: real := 5.0

  /** Where the keys take the ship before the clamp: left by speed * dt
      while strictly right of the left bound, then right by speed * dt
      while strictly left of the right bound. */
  function Steered(x: real, dt: real, zone: Zone, leftPressed: bool, rightPressed: bool): real
  {
    var x1 := if leftPressed && x > zone.x then x - PlayerSpeed * dt else x;
    if rightPressed && x1 < zone.x + SafeZoneWidth - PlayerSize then x1 + PlayerSpeed * dt else x1
  }

  class Player {
    var x: real
    var y: real
    var shieldActive: bool
    var shieldTimer: real
    const weaponHeat: WeaponHeat.WeaponHeatSystem

    /** The shield timer is never negative and is zero whenever the shield is off. */
    ghost predicate Valid()
      reads this
    {
      shieldTimer >= 0.0 && (!shieldActive ==> shieldTimer == 0.0)
    }

    /** A new ship sits centred near the bottom of the zone, unshielded, with
        a cold weapon. */
    constructor (zone: Zone)
      ensures x == zone.x + SafeZoneWidth / 2.0 - 25.0
      ensures y == zone.y + SafeZoneHeight - 70.0
      ensures !shieldActive && shieldTimer == 0.0 && Valid()
      ensures fresh(weaponHeat) && weaponHeat.State() == WeaponHeat.Cold
    {
      x := zone.x + SafeZoneWidth / 2.0 - 25.0;
      y := zone.y + SafeZoneHeight - 70.0;
      shieldActive := false;
      shieldTimer := 0.0;
      weaponHeat := new WeaponHeat.WeaponHeatSystem();
    }

    method ActivateShield()
      modifies this`shieldActive, this`shieldTimer
      ensures shieldActive && shieldTimer == ShieldDuration && Valid()
    {
      shieldActive := true;
      shieldTimer := ShieldDuration;
    }

    /** updateShield: count down; on reaching zero or below the shield drops
        and the timer is set to exactly zero. */
    method UpdateShield(dt: real)
      requires Valid()
      modifies this`shieldActive, this`shieldTimer
      ensures Valid()
      ensures !old(shieldActive) ==> !shieldActive && shieldTimer == old(shieldTimer)
      ensures old(shieldActive) && old(shieldTimer) - dt > 0.0 ==>
                shieldActive && shieldTimer == old(shieldTimer) - dt
      ensures old(shieldActive) && old(shieldTimer) - dt <= 0.0 ==>
                !shieldActive && shieldTimer == 0.0
    {
      if shieldActive {
        shieldTimer := shieldTimer - dt;
        if shieldTimer <= 0.0 {
          shieldActive := false;
          shieldTimer := 0.0;
        }
      }
    }

    /** move: update the shield and the heat, step left and/or right while
        inside the bounds, then clamp x to [zone.x, zone.x + 1200 - 50]. */
    method Move(dt: real, zone: Zone, leftPressed: bool, rightPressed: bool)
      requires Valid()
      modifies this`x, this`shieldActive, this`shieldTimer, weaponHeat
      ensures Valid()
      ensures zone.x <= x <= zone.x + SafeZoneWidth - PlayerSize
      ensures weaponHeat.State() == WeaponHeat.Cool(old(weaponHeat.State()), dt)
      ensures x == Clamp(Steered(old(x), dt, zone, leftPressed, rightPressed), zone.x, zone.x + SafeZoneWidth - PlayerSize)
      ensures !leftPressed && !rightPressed ==>
                x == Clamp(old(x), zone.x, zone.x + SafeZoneWidth - PlayerSize)
      ensures dt >= 0.0 && zone.x <= old(x) <= zone.x + SafeZoneWidth - PlayerSize ==>
                (leftPressed && !rightPressed ==> x <= old(x)) &&
                (rightPressed && !leftPressed ==> x >= old(x))
      ensures !old(shieldActive) ==> !shieldActive && shieldTimer == old(shieldTimer)
      ensures old(shieldActive) && old(shieldTimer) - dt > 0.0 ==>
                shieldActive && shieldTimer == old(shieldTimer) - dt
      ensures old(shieldActive) && old(shieldTimer) - dt <= 0.0 ==> !shieldActive && shieldTimer == 0.0
    {
      UpdateShield(dt);
      weaponHeat.Update(dt);
      var leftBound := zone.x;
      var rightBound := zone.x + SafeZoneWidth - PlayerSize;
      if leftPressed && x > leftBound {
        x := x - PlayerSpeed * dt;
      }
      if rightPressed && x < rightBound {
        x := x + PlayerSpeed * dt;
      }
      x := Clamp(x, leftBound, rightBound);
    }

    /** canFire: the weapon is not locked. */
    function CanFire(): (b: bool)
      reads this, weaponHeat
      ensures b <==> !weaponHeat.overheated
    {
      weaponHeat.CanFire()
    }

    /** fire: one attempt on the heat limiter. */
    method Fire() returns (fired: bool)
      modifies weaponHeat
      ensures (weaponHeat.State(), fired) == WeaponHeat.Shot(old(weaponHeat.State()))
    {
      fired := weaponHeat.AddHeat();
    }

    /** isInvulnerable: a shield or the developer god mode. */
    function IsInvulnerable(godMode: bool): (b: bool)
      reads this
      ensures b <==> shieldActive || godMode
    {
      shieldActive || godMode
    }
  }
}
