/** The weapon heat limiter of js/systems/WeaponHeatSystem.js: every shot adds
    heat, time removes it, and a shot that reaches the maximum locks the weapon
    until it has cooled to the lower threshold (hysteresis). */
module WeaponHeat {

  import Common

  const MaxHeat: real := 100.0
  const HeatPerShot: real := 5.0
  const CoolingRate: real := 20.0
  const CooldownThreshold: real := 50.0

  /** The two fields of the limiter as a value. */
  datatype HeatState = HeatState(heat: real, overheated: bool)

  const Cold := HeatState(0.0, false)

  predicate InRange(s: HeatState) { 0.0 <= s.heat <= MaxHeat }

  /** addHeat: the state after one attempt to fire, and whether the shot fired. */
  function Shot(s: HeatState): (r: (HeatState, bool))
    ensures s.overheated ==> r == (s, false)
    ensures r.1 <==> !s.overheated && s.heat + HeatPerShot < MaxHeat
    ensures !s.overheated ==> r.0.heat == Common.Min(s.heat + HeatPerShot, MaxHeat)
    ensures r.0.overheated <==> s.overheated || s.heat + HeatPerShot >= MaxHeat
    ensures InRange(s) ==> InRange(r.0)
  {
    if s.overheated then (s, false)
    else if s.heat + HeatPerShot >= MaxHeat then (HeatState(MaxHeat, true), false)
    else (HeatState(s.heat + HeatPerShot, false), true)
  }

  /** update(dt): cool by CoolingRate*dt, floored at zero, then leave the
      lockout only once the heat is at or below the threshold. */
  function Cool(s: HeatState, dt: real): (r: HeatState)
    ensures dt >= 0.0 ==> r.heat <= s.heat
    ensures s.heat >= 0.0 ==> r.heat >= 0.0
    ensures dt >= 0.0 && InRange(s) ==> InRange(r)
    ensures r.overheated ==> s.overheated
    ensures s.overheated ==> (r.overheated <==> r.heat > CooldownThreshold)
  {
    var h := if s.heat > 0.0 then
               (if s.heat - CoolingRate * dt < 0.0 then 0.0 else s.heat - CoolingRate * dt)
             else s.heat;
    HeatState(h, if s.overheated && h <= CooldownThreshold then false else s.overheated)
  }

  /** The state after n consecutive attempts to fire with no cooling between them. */
  function Burst(s: HeatState, n: nat): HeatState
  {
    if n == 0 then s else Shot(Burst(s, n - 1)).0
  }

  lemma {:induction false} BurstFromCold(n: nat)
    requires n <= 19
    ensures Burst(Cold, n) == HeatState(HeatPerShot * n as real, false)
  {
    if n > 0 {
      BurstFromCold(n - 1);
    }
  }

  /** From a cold weapon, the first 19 shots fire and the 20th is refused
      and locks the weapon at the maximum. */
  lemma NineteenShotsThenOverheat()
    ensures forall k :: 0 <= k < 19 ==> Shot(Burst(Cold, k)).1
    ensures !Shot(Burst(Cold, 19)).1
    ensures Burst(Cold, 20) == HeatState(MaxHeat, true)
  {
    forall k | 0 <= k < 19 ensures Shot(Burst(Cold, k)).1 {
      BurstFromCold(k);
    }
    BurstFromCold(19);
  }

  /** An overheated weapon stays locked while cooling leaves it above the
      threshold, however many times it is updated. */
  lemma {:induction false} LockoutHolds(s: HeatState, dts: seq<real>)
    requires s.overheated
    requires forall i :: 0 <= i < |dts| ==> dts[i] >= 0.0
    requires CoolAll(s, dts).heat > CooldownThreshold
    ensures CoolAll(s, dts).overheated
  {
    if dts != [] {
      CoolAllNotHotter(s, dts[..|dts| - 1]);
      LockoutHolds(s, dts[..|dts| - 1]);
    }
  }

  /** The state after a sequence of updates. */
  function CoolAll(s: HeatState, dts: seq<real>): HeatState
  {
    if dts == [] then s else Cool(CoolAll(s, dts[..|dts| - 1]), dts[|dts| - 1])
  }

  lemma {:induction false} CoolAllNotHotter(s: HeatState, dts: seq<real>)
    requires forall i :: 0 <= i < |dts| ==> dts[i] >= 0.0
    ensures CoolAll(s, dts).heat <= s.heat
  {
    if dts != [] {
      CoolAllNotHotter(s, dts[..|dts| - 1]);
    }
  }

  class WeaponHeatSystem {
    var currentHeat: real
    var overheated: bool

    function State(): HeatState
      reads this
    {
      HeatState(currentHeat, overheated)
    }

    constructor ()
      ensures State() == Cold
    {
      currentHeat, overheated := 0.0, false;
    }

    /** canFire: exactly when the weapon is not locked. */
    function CanFire(): (b: bool)
      reads this
      ensures b == !overheated
      ensures !b <==> Shot(State()) == (State(), false)
    {
      !overheated
    }

    method AddHeat() returns (fired: bool)
      modifies this
      ensures (State(), fired) == Shot(old(State()))
    {
      if overheated {
        return false;
      }
      currentHeat := currentHeat + HeatPerShot;
      if currentHeat >= MaxHeat {
        currentHeat := MaxHeat;
        overheated := true;
        return false;
      }
      return true;
    }

    method Update(dt: real)
      modifies this
      ensures State() == Cool(old(State()), dt)
    {
      if currentHeat > 0.0 {
        currentHeat := currentHeat - CoolingRate * dt;
        if currentHeat < 0.0 {
          currentHeat := 0.0;
        }
      }
      if overheated && currentHeat <= CooldownThreshold {
        overheated := false;
      }
    }

    /** getHeatPercentage: the heat as a fraction of the maximum. */
    function HeatPercentage(): (p: real)
      reads this
      ensures InRange(State()) ==> 0.0 <= p <= 1.0
      ensures p * MaxHeat == currentHeat
    {
      currentHeat / MaxHeat
    }

    method Reset()
      modifies this
      ensures State() == Cold
    {
      currentHeat := 0.0;
      overheated := false;
    }
  }
}
