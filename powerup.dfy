/** Collectable power-ups (js/entities/PowerUp.js). The five subclasses differ
    only in their effect on the game, so the kind is a tag and `Activate`
    returns the effect for the game to apply. */
module PowerUps {

  import opened Common

  datatype Kind = Life | Shield | AutoFire | TripleShot | RocketAmmo

  /** The type strings the game uses for the kinds. */
  function KindName(k: Kind): (n: string)
    ensures n in {"life", "shield", "autofire", "tripleshot", "rocket"}
  {
    match k
    case Life => "life"
    case Shield => "shield"
    case AutoFire => "autofire"
    case TripleShot => "tripleshot"
    case RocketAmmo => "rocket"
  }

  /** createPowerUp's switch: the five names and nothing else. */
  function KindFromName(name: string): (k: Option<Kind>)
    ensures k.Some? ==> KindName(k.value) == name
    ensures k.None? ==> forall j: Kind :: KindName(j) != name
  {
    if name == "life" then Some(Life)
    else if name == "shield" then Some(Shield)
    else if name == "autofire" then Some(AutoFire)
    else if name == "tripleshot" then Some(TripleShot)
    else if name == "rocket" then Some(RocketAmmo)
    else None
  }

  lemma KindNameRoundTrip(k: Kind)
    ensures KindFromName(KindName(k)) == Some(k)
  {
  }

  /** What activating a power-up does to the game. */
  datatype Effect =
    | GainLife                                  // +1 life, capped at 3
    | GrantShield                               // player.activateShield()
    | StartTimer(name: string, duration: real)  // game.activatePowerUp(name, duration)
    | AddRocket                                 // rocketAmmo += 1

  /** The effect of each subclass's activate. */
  function EffectOf(k: Kind): (e: Effect)
    ensures e.StartTimer? <==> k == AutoFire || k == TripleShot
    ensures e.StartTimer? ==> e.name == KindName(k) && e.duration > 0.0
    ensures k == AutoFire ==> e == StartTimer("autofire", 4.0)
    ensures k == TripleShot ==> e == StartTimer("tripleshot", 5.0)
    ensures e == GainLife <==> k == Life
    ensures e == GrantShield <==> k == Shield
    ensures e == AddRocket <==> k == RocketAmmo
  {
    match k
    case Life => GainLife
    case Shield => GrantShield
    case AutoFire => StartTimer("autofire", 4.0)
    case TripleShot => StartTimer("tripleshot", 5.0)
    case RocketAmmo => AddRocket
  }

  /** The life effect: one more life, never beyond three. */
  function LivesAfterLife(lives: int): (r: int)
    ensures lives < 3 ==> r == lives + 1
    ensures lives >= 3 ==> r == lives
    ensures r <= 3 || r == lives
  {
    if lives < 3 then lives + 1 else lives
  }

  const PowerUpSize: real := 30.0
  const FallSpeed: real := 80.0

  class PowerUp {
    var x: real
    var y: real
    const kind: Kind
    var active: bool
    var collected: bool

    constructor (x0: real, y0: real, k: Kind)
      ensures x == x0 && y == y0 && kind == k && active && !collected
    {
      x, y, kind := x0, y0, k;
      active := true;
      collected := false;
    }

    function Box(): Common.Box
      reads this
    {
      Common.Box(x, y, PowerUpSize, PowerUpSize)
    }

    /** move: fall at 80 units/s; below the zone's bottom it deactivates. */
    method Move(dt: real, zone: Zone)
      modifies this`y, this`active
      ensures !old(active) ==> y == old(y) && !active
      ensures old(active) ==> y == old(y) + FallSpeed * dt &&
                              (active <==> y <= zone.y + SafeZoneHeight)
    {
      if !active {
        return;
      }
      y := y + FallSpeed * dt;
      if y > zone.y + SafeZoneHeight {
        active := false;
      }
    }

    /** hit: only an active, uncollected power-up can touch the player. */
    function Hit(player: Common.Box): (r: bool)
      reads this
      ensures r <==> active && !collected && Overlaps(Box(), player)
    {
      if !active || collected then false
      else x < player.x + player.w && x + PowerUpSize > player.x &&
           y < player.y + player.h && y + PowerUpSize > player.y
    }

    /** activate: mark collected and inactive (so it can never hit again)
        and hand back the kind's effect. */
    method Activate() returns (e: Effect)
      modifies this`active, this`collected
      ensures collected && !active && e == EffectOf(kind)
      ensures forall b :: !Hit(b)
    {
      collected := true;
      active := false;
      e := EffectOf(kind);
    }
  }
}
