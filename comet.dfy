/** Falling comets (js/entities/Comet.js): the size name fixes box, hit
    points, fall speed and score; unknown names fall back to medium. */
module Comets {

  import opened Common

  datatype SizeConfig = SizeConfig(width: real, height: real, hp: int, speed: real, points: int)

  /** The size table; any other name gets the medium entry. */
  function ConfigFor(size: string): (c: SizeConfig)
    ensures size == "small" ==> c == SizeConfig(30.0, 45.0, 1, 220.0, 10)
    ensures size == "large" ==> c == SizeConfig(50.0, 75.0, 3, 180.0, 30)
    ensures size != "small" && size != "large" ==> c == SizeConfig(40.0, 60.0, 2, 190.0, 20)
    ensures 1 <= c.hp <= 3 && c.points == 10 * c.hp && c.height == 1.5 * c.width
  {
    if size == "small" then SizeConfig(30.0, 45.0, 1, 220.0, 10)
    else if size == "large" then SizeConfig(50.0, 75.0, 3, 180.0, 30)
    else SizeConfig(40.0, 60.0, 2, 190.0, 20)
  }

  class Comet {
    var x: real
    var y: real
    const size: string
    var active: bool
    const w: real
    const h: real
    const maxHp: int
    var hp: int
    const speed: real
    const points: int

    function Box(): Common.Box
      reads this
    {
      Common.Box(x, y, w, h)
    }

    constructor (x0: real, y0: real, sz: string)
      ensures x == x0 && y == y0 && size == sz && active
      ensures var c := ConfigFor(sz);
              w == c.width && h == c.height && hp == maxHp == c.hp &&
              speed == c.speed && points == c.points
    {
      x, y, size := x0, y0, sz;
      active := true;
      var c := ConfigFor(sz);
      w, h := c.width, c.height;
      maxHp, hp := c.hp, c.hp;
      speed, points := c.speed, c.points;
    }

    /** move: fall at the comet's speed; past 50 units below the zone it
        deactivates. Inactive comets do not move. */
    method Move(dt: real, zone: Zone)
      modifies this`y, this`active
      ensures !old(active) ==> y == old(y) && !active
      ensures old(active) ==> y == old(y) + speed * dt &&
                              (active <==> y <= zone.y + SafeZoneHeight + 50.0)
    {
      if !active {
        return;
      }
      y := y + speed * dt;
      if y > zone.y + SafeZoneHeight + 50.0 {
        active := false;
      }
    }

    /** hit: false when inactive, otherwise strict box overlap. */
    function Hit(target: Common.Box): (r: bool)
      reads this
      ensures r <==> active && Overlaps(Box(), target)
    {
      if !active then false
      else x < target.x + target.w && x + w > target.x &&
           y < target.y + target.h && y + h > target.y
    }

    /** takeDamage(damage): destroyed, and deactivated, exactly when the hit
        points reach zero or below. */
    method TakeDamage(damage: int) returns (destroyed: bool)
      modifies this`hp, this`active
      ensures hp == old(hp) - damage
      ensures destroyed <==> hp <= 0
      ensures destroyed ==> !active
      ensures !destroyed ==> active == old(active)
    {
      hp := hp - damage;
      if hp <= 0 {
        active := false;
        return true;
      }
      return false;
    }
  }

  /** A comet of each size survives hp-1 unit hits and breaks on the next:
      one for small, two for medium, three for large. */
  method UnitHitsToBreak(size: string) returns (hits: nat)
    ensures hits == ConfigFor(size).hp
  {
    var c := new Comet(0.0, 0.0, size);
    hits := 0;
    var destroyed := false;
    while !destroyed
      invariant 0 <= hits <= c.maxHp
      invariant c.hp == c.maxHp - hits
      invariant destroyed <==> c.hp <= 0
      invariant c.maxHp == ConfigFor(size).hp
      decreases c.hp
    {
      destroyed := c.TakeDamage(1);
      hits := hits + 1;
    }
  }
}
