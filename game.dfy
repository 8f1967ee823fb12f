/** The orchestrator of js/Game.js together with the two managers it owns
    (js/systems/PowerUpManager.js, js/systems/CometManager.js), which call
    back into it: wave set-up and progression, the shared formation
    movement, respawning, the rocket "destroy all", weapon dispatch and the
    power-up timers. Every Math.random() draw is a parameter in [0, 1). */
module Games {

  import opened Common
  import opened WavePatterns
  import Enemies
  import Projectiles
  import Players
  import WeaponHeat
  import Comets
  import PowerUps
  import SpawnRules

  /** The player's box (the ship is 50 x 50). */
  function PlayerBox(p: Players.Player): Box
    reads p
  {
    Box(p.x, p.y, Players.PlayerSize, Players.PlayerSize)
  }

  /** The power-up kind a draw `v` selects: the intervals of the weighted
      choice over life 5, shield 20, autofire 15, tripleshot 12, rocket 3. */
  function KindForDraw(v: real): (k: PowerUps.Kind)
    ensures 0.0 <= v < 1.0 ==>
              PowerUps.KindName(k) == SpawnRules.Pick(SpawnRules.PowerUpWeights, v * 55.0, "shield")
  {
    var r := v * 55.0;
    if 0.0 <= v < 1.0 then SpawnRules.PowerUpIntervals(r); PickedKind(r) else PickedKind(r)
  }

  /** The kind whose interval of the weighted choice holds `r`. */
  function PickedKind(r: real): PowerUps.Kind
  {
    if r <= 5.0 then PowerUps.Life
    else if r <= 25.0 then PowerUps.Shield
    else if r <= 40.0 then PowerUps.AutoFire
    else if r <= 52.0 then PowerUps.TripleShot
    else PowerUps.RocketAmmo
  }

  /** Splicing one element out of a list without repeats leaves none. */
  lemma RemoveKeepsDistinct<T>(s: seq<T>, i: int)
    requires 0 <= i < |s|
    requires forall a, b :: 0 <= a < b < |s| ==> s[a] != s[b]
    ensures var r := s[..i] + s[i + 1..];
            forall a, b :: 0 <= a < b < |r| ==> r[a] != r[b]
  {
    var r := s[..i] + s[i + 1..];
    forall a, b | 0 <= a < b < |r| ensures r[a] != r[b] {
      var a' := if a < i then a else a + 1;
      var b' := if b < i then b else b + 1;
      assert r[a] == s[a'] && r[b] == s[b'];
    }
  }

  // ---------------------------------------------------------------- power-ups

  /** The observable state of a power-up: where it is, whether it is
      active, whether it has been collected. */
  datatype Pose = Pose(x: real, y: real, active: bool, collected: bool)

  function PoseOf(p: PowerUps.PowerUp): Pose
    reads p
  {
    Pose(p.x, p.y, p.active, p.collected)
  }

  function Poses(ps: seq<PowerUps.PowerUp>): (r: seq<Pose>)
    reads set p | p in ps
    ensures |r| == |ps| && forall i :: 0 <= i < |ps| ==> r[i] == PoseOf(ps[i])
  {
    if ps == [] then [] else [PoseOf(ps[0])] + Poses(ps[1..])
  }

  /** The state of an active power-up that was at `q` after one visit of
      update: it has fallen, it is collected if it now touches the player
      while still in the zone, and it stays active only when in the zone and
      not collected. */
  predicate Fell(p: PowerUps.PowerUp, q: Pose, dt: real, zone: Zone, player: Box)
    reads p
  {
    var y := q.y + PowerUps.FallSpeed * dt;
    p.x == q.x && p.y == y && p.collected == (q.collected || Touches(q, dt, zone, player)) &&
    p.active == (y <= zone.y + SafeZoneHeight && !Touches(q, dt, zone, player))
  }

  /** Whether a power-up at `q`, not yet collected, touches the player after
      falling for `dt` while still inside the zone. */
  predicate Touches(q: Pose, dt: real, zone: Zone, player: Box)
  {
    var y := q.y + PowerUps.FallSpeed * dt;
    y <= zone.y + SafeZoneHeight && !q.collected &&
    Overlaps(Box(q.x, y, PowerUps.PowerUpSize, PowerUps.PowerUpSize), player)
  }

  /** After update: an active power-up has fallen, an inactive one is as it was. */
  predicate Visited(p: PowerUps.PowerUp, q: Pose, dt: real, zone: Zone, player: Box)
    reads p
  {
    if q.active then Fell(p, q, dt, zone, player) else PoseOf(p) == q
  }

  lemma CaughtStep(ps: seq<PowerUps.PowerUp>, qs: seq<Pose>, i: int, dt: real, zone: Zone, player: Box)
    requires |ps| == |qs| && 0 <= i < |ps|
    ensures Caught(ps[i..], qs[i..], dt, zone, player) ==
            Caught(ps[i + 1..], qs[i + 1..], dt, zone, player) +
            (if qs[i].active && Touches(qs[i], dt, zone, player) then [ps[i]] else [])
  {
    assert ps[i..][1..] == ps[i + 1..] && qs[i..][1..] == qs[i + 1..];
  }

  /** The power-ups of `ps` (whose states were `qs`) that one update
      collects, in the order a walk from the back meets them. */
  function Caught(ps: seq<PowerUps.PowerUp>, qs: seq<Pose>, dt: real, zone: Zone, player: Box): (r: seq<PowerUps.PowerUp>)
    requires |ps| == |qs|
    ensures forall p :: p in r ==> exists j :: 0 <= j < |ps| && ps[j] == p && qs[j].active && Touches(qs[j], dt, zone, player)
    ensures forall j :: 0 <= j < |ps| && qs[j].active && Touches(qs[j], dt, zone, player) ==> ps[j] in r
  {
    if ps == [] then []
    else
      var rest := Caught(ps[1..], qs[1..], dt, zone, player);
      assert forall j :: 1 <= j < |ps| ==> ps[j] == ps[1..][j - 1] && qs[j] == qs[1..][j - 1];
      rest + (if qs[0].active && Touches(qs[0], dt, zone, player) then [ps[0]] else [])
  }

  /** Distinct power-ups are collected at most once each. */
  lemma {:induction false} CaughtDistinct(ps: seq<PowerUps.PowerUp>, qs: seq<Pose>, dt: real, zone: Zone, player: Box)
    requires |ps| == |qs|
    requires Distinct(ps)
    ensures Distinct(Caught(ps, qs, dt, zone, player))
  {
    if ps != [] {
      CaughtDistinct(ps[1..], qs[1..], dt, zone, player);
      var rest := Caught(ps[1..], qs[1..], dt, zone, player);
      assert ps[0] !in ps[1..] by {
        forall j | 0 <= j < |ps| - 1
          ensures ps[1..][j] != ps[0]
        {
          assert ps[1..][j] == ps[j + 1];
        }
      }
      forall x | x in rest
        ensures x in ps[1..]
      {
      }
      assert Distinct(rest);
      var r := Caught(ps, qs, dt, zone, player);
      assert r == rest + (if qs[0].active && Touches(qs[0], dt, zone, player) then [ps[0]] else []);
      forall a, b | 0 <= a < b < |r|
        ensures r[a] != r[b]
      {
        assert r[a] == rest[a];
        if b == |rest| {
          assert r[b] == ps[0];
        } else {
          assert r[b] == rest[b];
          assert rest[a] != rest[b];
        }
      }
    }
  }

  class PowerUpManager {
    var powerUps: seq<PowerUps.PowerUp>

    ghost predicate Valid()
      reads this
    {
      forall i, j :: 0 <= i < j < |powerUps| ==> powerUps[i] != powerUps[j]
    }

    function ActiveFlags(): (flags: seq<bool>)
      reads this, powerUps
      ensures |flags| == |powerUps|
      ensures forall i :: 0 <= i < |powerUps| ==> flags[i] == powerUps[i].active
    {
      seq(|powerUps|, i reads this, powerUps requires 0 <= i < |powerUps| => powerUps[i].active)
    }

    constructor ()
      ensures powerUps == [] && Valid()
    {
      powerUps := [];
    }

    /** createPowerUp: a new power-up for the five type names, None otherwise. */
    static method CreatePowerUp(x: real, y: real, name: string) returns (p: Option<PowerUps.PowerUp>)
      ensures p.Some? <==> PowerUps.KindFromName(name).Some?
      ensures p.Some? ==> fresh(p.value) && p.value.kind == PowerUps.KindFromName(name).value &&
                          p.value.x == x && p.value.y == y && p.value.active && !p.value.collected
    {
      var k := PowerUps.KindFromName(name);
      if k.None? {
        return None;
      }
      var made := new PowerUps.PowerUp(x, y, k.value);
      return Some(made);
    }

    /** trySpawnPowerUp: with draw `u` at most the wave's drop chance, add one
        power-up of the kind draw `v` selects; otherwise add nothing. */
    method TrySpawnPowerUp(x: real, y: real, wave: int, u: real, v: real)
      requires Valid() && 0.0 <= v < 1.0
      modifies this`powerUps
      ensures Valid()
      ensures !SpawnRules.DropsPowerUp(wave, u) ==> powerUps == old(powerUps)
      ensures SpawnRules.DropsPowerUp(wave, u) ==>
                |powerUps| == |old(powerUps)| + 1 && powerUps[..|old(powerUps)|] == old(powerUps) &&
                var p := powerUps[|old(powerUps)|];
                fresh(p) && p.kind == KindForDraw(v) && p.x == x && p.y == y && p.active && !p.collected
      ensures DropsOf(powerUps) ==
              old(DropsOf(powerUps)) + (if SpawnRules.DropsPowerUp(wave, u) then [Drop(KindForDraw(v), x, y, true)] else [])
    {
      if u > SpawnRules.DropChance(wave) {
        return;
      }
      var name := SpawnRules.RandomPowerUpType(v);
      var p := CreatePowerUp(x, y, name);
      if p.Some? {
        Append(p.value);
      }
    }

    /** Add a power-up that is not yet listed at the end of the list. */
    method Append(p: PowerUps.PowerUp)
      requires Valid() && p !in powerUps
      modifies this`powerUps
      ensures Valid() && powerUps == old(powerUps) + [p]
      ensures DropsOf(powerUps) == old(DropsOf(powerUps)) + [DropOf(p)]
    {
      DropsOfAppend(powerUps, p);
      powerUps := powerUps + [p];
    }

    /** What update has done once it has visited the entries from `i` to
        the end of the list it started with (`P`, with active flags `F` and
        states `S`): the unvisited prefix is untouched, the visited inactive
        entries are gone, and every visited entry is in its new state. */
    ghost predicate Visiting(i: int, P: seq<PowerUps.PowerUp>, F: seq<bool>, S: seq<Pose>,
                             dt: real, zone: Zone, player: Box)
      reads this, P
    {
      0 <= i <= |P| && |F| == |P| && |S| == |P| &&
      (forall a, b :: 0 <= a < b < |P| ==> P[a] != P[b]) &&
      (forall j :: 0 <= j < |P| ==> F[j] == S[j].active) &&
      powerUps == P[..i] + Keep(P[i..], F[i..]) &&
      (forall j :: 0 <= j < i ==> PoseOf(P[j]) == S[j]) &&
      (forall j :: i <= j < |P| ==> Visited(P[j], S[j], dt, zone, player)) &&
      Valid()
    }

    /** update: walk the list from the back, drop the entries that are
        inactive when visited, move the others and collect those that touch
        the player. A power-up collected now stays listed until the next
        update. The collected ones are returned for the game to apply. */
    method Update(dt: real, zone: Zone, player: Box) returns (collected: seq<PowerUps.PowerUp>)
      requires Valid()
      modifies this`powerUps, powerUps
      ensures Valid()
      ensures powerUps == Keep(old(powerUps), old(ActiveFlags()))
      ensures forall j :: 0 <= j < |old(powerUps)| ==> Visited(old(powerUps)[j], old(Poses(powerUps))[j], dt, zone, player)
      ensures collected == Caught(old(powerUps), old(Poses(powerUps)), dt, zone, player)
    {
      ghost var P := powerUps;
      ghost var F := ActiveFlags();
      ghost var S := Poses(powerUps);
      collected := [];
      var i := |powerUps|;
      assert P[i..] == [] && F[i..] == [] && P[..i] == P;
      while i > 0
        invariant Visiting(i, P, F, S, dt, zone, player)
        invariant collected == Caught(P[i..], S[i..], dt, zone, player)
      {
        i := i - 1;
        CaughtStep(P, S, i, dt, zone, player);
        var p := powerUps[i];
        var got := Visit(i, P, F, S, dt, zone, player);
        if got {
          collected := collected + [p];
        }
      }
      assert P[..0] == [];
    }

    /** One step of update, on entry `i` of the list it started with: an
        inactive entry is spliced out, an active one falls and is collected
        if it touches the player. */
    method Visit(i: int, ghost P: seq<PowerUps.PowerUp>, ghost F: seq<bool>, ghost S: seq<Pose>,
                 dt: real, zone: Zone, player: Box) returns (got: bool)
      requires 0 <= i && Visiting(i + 1, P, F, S, dt, zone, player)
      modifies this`powerUps, P[i]
      ensures Visiting(i, P, F, S, dt, zone, player)
      ensures got <==> S[i].active && Touches(S[i], dt, zone, player)
    {
      assert P[i..] == [P[i]] + P[i + 1..];
      assert F[i..] == [F[i]] + F[i + 1..];
      var p := powerUps[i];
      if !p.active {
        RemoveKeepsDistinct(powerUps, i);
        powerUps := powerUps[..i] + powerUps[i + 1..];
        return false;
      }
      got := Step(p, dt, zone, player);
    }

    /** One visit of update to an active power-up: fall, then collect it if
        it touches the player. */
    static method Step(p: PowerUps.PowerUp, dt: real, zone: Zone, player: Box) returns (got: bool)
      requires p.active
      modifies p
      ensures Fell(p, old(PoseOf(p)), dt, zone, player)
      ensures got <==> p.collected && !old(p.collected)
    {
      p.Move(dt, zone);
      got := p.Hit(player);
      if got {
        var e := p.Activate();
      }
    }

    /** reset: no power-ups. */
    method Reset()
      modifies this`powerUps
      ensures powerUps == [] && Valid()
    {
      powerUps := [];
    }
  }
  // ---------------------------------------------------------------- comets

  class CometManager {
    var comets: seq<Comets.Comet>
    var spawnTimer: real
    var nextSpawnTime: real

    ghost predicate Valid()
      reads this
    {
      Distinct(comets)
    }

    function ActiveFlags(): (flags: seq<bool>)
      reads this, comets
      ensures |flags| == |comets|
      ensures forall i :: 0 <= i < |comets| ==> flags[i] == comets[i].active
    {
      seq(|comets|, i reads this, comets requires 0 <= i < |comets| => comets[i].active)
    }

    /** No comets; the first one comes after a drawn interval (`u` in [0, 1)). */
    constructor (u: real)
      ensures comets == [] && spawnTimer == 0.0 && nextSpawnTime == SpawnRules.SpawnInterval(u)
      ensures Valid()
    {
      comets := [];
      spawnTimer := 0.0;
      nextSpawnTime := SpawnRules.SpawnInterval(u);
    }

    /** spawnComet: a comet of the size draw `uSize` selects, at a
        horizontal place drawn by `uX` across the zone less 50, 60 above the
        zone's top, appended to the list. */
    method SpawnComet(zone: Zone, uSize: real, uX: real) returns (c: Comets.Comet)
      requires 0.0 <= uSize < 1.0
      modifies this`comets
      ensures comets == old(comets) + [c] && fresh(c)
      ensures c.size == SizeForDraw(uSize) && c.active
      ensures c.x == zone.x + uX * (SafeZoneWidth - 50.0) && c.y == zone.y - 60.0
    {
      var size := SpawnRules.RandomCometSize(uSize);
      var x := zone.x + uX * (SafeZoneWidth - 50.0);
      var y := zone.y - 60.0;
      c := new Comets.Comet(x, y, size);
      comets := comets + [c];
    }

    /** The spawn timer of update: it runs up by `dt`; on reaching the
        drawn interval a comet spawns, the timer restarts at zero and the
        next interval is drawn (`uNext`). */
    method Tick(dt: real, zone: Zone, uSize: real, uX: real, uNext: real)
      requires Valid() && 0.0 <= uSize < 1.0
      modifies this`comets, this`spawnTimer, this`nextSpawnTime
      ensures Valid()
      ensures old(spawnTimer) + dt < old(nextSpawnTime) ==>
                comets == old(comets) && spawnTimer == old(spawnTimer) + dt && nextSpawnTime == old(nextSpawnTime)
      ensures old(spawnTimer) + dt >= old(nextSpawnTime) ==>
                |comets| == |old(comets)| + 1 && comets[..|old(comets)|] == old(comets) &&
                var c := comets[|old(comets)|];
                fresh(c) && c.size == SizeForDraw(uSize) && c.active &&
                c.x == zone.x + uX * (SafeZoneWidth - 50.0) && c.y == zone.y - 60.0 &&
                spawnTimer == 0.0 && nextSpawnTime == SpawnRules.SpawnInterval(uNext)
    {
      spawnTimer := spawnTimer + dt;
      if spawnTimer >= nextSpawnTime {
        var c := SpawnComet(zone, uSize, uX);
        assert comets[..|old(comets)|] == old(comets);
        spawnTimer := 0.0;
        nextSpawnTime := SpawnRules.SpawnInterval(uNext);
      }
    }

    /** What the comet loop of update has done once it has visited the
        entries from `i` to the end of the list it started with (`C`, with
        active flags `F` and states `S`), the ship's box being `box`: the
        unvisited prefix is untouched, the visited inactive entries are gone
        and every visited entry is in its new state. */
    ghost predicate Visiting(i: int, C: seq<Comets.Comet>, F: seq<bool>, S: seq<Fall>, dt: real, zone: Zone, box: Box)
      reads this, C
    {
      0 <= i <= |C| && |F| == |C| && |S| == |C| && Distinct(C) &&
      (forall j :: 0 <= j < |C| ==> F[j] == S[j].active) &&
      comets == C[..i] + Keep(C[i..], F[i..]) &&
      (forall j :: 0 <= j < i ==> FallOf(C[j]) == S[j]) &&
      (forall j :: i <= j < |C| ==> Swept(C[j], S[j], dt, zone, box)) &&
      Valid()
    }

    /** One step of the comet loop, on entry `i` of the list it started
        with: an inactive comet is spliced out; an active one falls, and if
        it then hits the ship it is deactivated and `hit` reports it, for
        the game to respawn the ship. */
    method Visit(i: int, ghost C: seq<Comets.Comet>, ghost F: seq<bool>, ghost S: seq<Fall>,
                 dt: real, zone: Zone, box: Box) returns (hit: bool)
      requires 0 <= i && Visiting(i + 1, C, F, S, dt, zone, box)
      modifies this`comets, C[i]
      ensures Visiting(i, C, F, S, dt, zone, box)
      ensures hit <==> Strikes(C[i], S[i], dt, zone, box)
    {
      assert C[i..] == [C[i]] + C[i + 1..];
      assert F[i..] == [F[i]] + F[i + 1..];
      var c := comets[i];
      if !c.active {
        RemoveKeepsDistinct(comets, i);
        comets := comets[..i] + comets[i + 1..];
        return false;
      }
      hit := Fly(c, dt, zone, box);
    }

    /** One visit of update to an active comet: fall, and on hitting the
        ship deactivate. */
    static method Fly(c: Comets.Comet, dt: real, zone: Zone, box: Box) returns (hit: bool)
      requires c.active
      modifies c`y, c`active
      ensures Swept(c, old(FallOf(c)), dt, zone, box)
      ensures hit <==> Strikes(c, old(FallOf(c)), dt, zone, box)
    {
      c.Move(dt, zone);
      hit := c.Hit(box);
      if hit {
        c.active := false;
      }
    }

    /** reset: no comets, the timer at zero and a new interval drawn. */
    method Reset(u: real)
      modifies this
      ensures comets == [] && spawnTimer == 0.0 && nextSpawnTime == SpawnRules.SpawnInterval(u)
      ensures Valid()
    {
      comets := [];
      spawnTimer := 0.0;
      nextSpawnTime := SpawnRules.SpawnInterval(u);
    }
  }

  /** The size getRandomSize picks for draw `u`: with the draw scaled to
      [0, 100), small up to 50, medium up to 85, large above. */
  function SizeForDraw(u: real): (size: string)
    ensures 0.0 <= u < 1.0 ==> size == SpawnRules.Pick(SpawnRules.CometSizeWeights, u * 100.0, "medium")
  {
    var r := u * 100.0;
    if 0.0 <= u < 1.0 then SpawnRules.CometSizeIntervals(r); PickedSize(r) else PickedSize(r)
  }

  /** The size whose interval of the weighted choice holds `r`. */
  function PickedSize(r: real): string
  {
    if r <= 50.0 then "small" else if r <= 85.0 then "medium" else "large"
  }

  /** The observable state of a comet: where it is and whether it is active. */
  datatype Fall = Fall(x: real, y: real, active: bool)

  function FallOf(c: Comets.Comet): Fall
    reads c
  {
    Fall(c.x, c.y, c.active)
  }

  function Falls(cs: seq<Comets.Comet>): (r: seq<Fall>)
    reads set c | c in cs
    ensures |r| == |cs| && forall i :: 0 <= i < |cs| ==> r[i] == FallOf(cs[i])
  {
    if cs == [] then [] else [FallOf(cs[0])] + Falls(cs[1..])
  }

  /** Whether a comet that was at `f` hits the player's box once it has
      fallen for `dt`: it was active and is still within 50 of the zone's
      bottom, and the boxes overlap. */
  predicate Strikes(c: Comets.Comet, f: Fall, dt: real, zone: Zone, player: Box)
  {
    var y := f.y + c.speed * dt;
    f.active && y <= zone.y + SafeZoneHeight + 50.0 && Overlaps(Box(f.x, y, c.w, c.h), player)
  }

  /** After update: an active comet has fallen and stays active only while
      within 50 of the zone's bottom and not having struck; an inactive one
      is as it was. */
  predicate Swept(c: Comets.Comet, f: Fall, dt: real, zone: Zone, player: Box)
    reads c
  {
    if f.active then
      var y := f.y + c.speed * dt;
      c.x == f.x && c.y == y && c.active == (y <= zone.y + SafeZoneHeight + 50.0 && !Strikes(c, f, dt, zone, player))
    else FallOf(c) == f
  }

  /** How many of the comets `cs` (whose states were `fs`) strike. */
  function StrikeCount(cs: seq<Comets.Comet>, fs: seq<Fall>, dt: real, zone: Zone, player: Box): (n: nat)
    requires |cs| == |fs|
    ensures n <= |cs|
    ensures n == 0 <==> forall j :: 0 <= j < |cs| ==> !Strikes(cs[j], fs[j], dt, zone, player)
  {
    if cs == [] then 0
    else
      assert forall j :: 1 <= j < |cs| ==> cs[j] == cs[1..][j - 1] && fs[j] == fs[1..][j - 1];
      StrikeCount(cs[1..], fs[1..], dt, zone, player) + (if Strikes(cs[0], fs[0], dt, zone, player) then 1 else 0)
  }

  lemma StrikeStep(cs: seq<Comets.Comet>, fs: seq<Fall>, i: int, dt: real, zone: Zone, player: Box)
    requires |cs| == |fs| && 0 <= i < |cs|
    ensures StrikeCount(cs[i..], fs[i..], dt, zone, player) ==
            StrikeCount(cs[i + 1..], fs[i + 1..], dt, zone, player) +
            (if Strikes(cs[i], fs[i], dt, zone, player) then 1 else 0)
  {
    assert cs[i..][1..] == cs[i + 1..] && fs[i..][1..] == fs[i + 1..];
  }

  /** One comet strike on a ship with `lives` lives, `guarded` when it is
      invulnerable (the pair `s`): an invulnerable ship is untouched;
      otherwise respawnPlayer takes a life and, if any remain, the new ship
      comes with a shield. */
  function Strike(s: (int, bool)): (r: (int, bool))
    ensures s.1 ==> r == s
    ensures !s.1 ==> r.0 == s.0 - 1
    ensures r.1 <==> s.1 || s.0 > 1
  {
    var (lives, guarded) := s;
    if guarded then (lives, true)
    else if lives - 1 > 0 then (lives - 1, true)
    else (lives - 1, false)
  }

  /** `n` strikes in a row. */
  function StruckBy(s: (int, bool), n: nat): (r: (int, bool))
    ensures s.0 - n <= r.0 <= s.0
    ensures s.1 ==> r == s
  {
    if n == 0 then s else Strike(StruckBy(s, n - 1))
  }

  /** However many comets strike in one update, an unguarded ship loses one
      life when it has more than one, since the respawn shields it; with
      one or none left, each strike takes another life. */
  lemma {:induction false} StruckByClosedForm(lives: int, guarded: bool, n: nat)
    ensures StruckBy((lives, guarded), n).0 ==
            if n == 0 || guarded then lives else if lives > 1 then lives - 1 else lives - n
    ensures StruckBy((lives, guarded), n).1 <==> guarded || (n > 0 && lives > 1)
  {
    if n > 0 {
      StruckByClosedForm(lives, guarded, n - 1);
    }
  }

  // ---------------------------------------------------------------- waves

  /** Where one enemy of a pattern goes: its row and its column in the row. */
  datatype Slot = Slot(row: nat, col: nat)

  /** The slots of one row, left to right. */
  function RowSlots(row: nat, count: nat): (r: seq<Slot>)
    ensures |r| == count
    ensures forall c :: 0 <= c < count ==> r[c] == Slot(row, c)
  {
    seq(count, c requires 0 <= c < count => Slot(row, c))
  }

  /** The slots of the first `n` rows of a pattern in the order
      initEnemies fills them: row by row, each row left to right. */
  function SlotsUpTo(rows: seq<Row>, n: nat): (r: seq<Slot>)
    requires n <= |rows|
    ensures |r| == RowsTotal(rows, n)
    ensures forall k :: 0 <= k < |r| ==> r[k].row < n && r[k].col < rows[r[k].row].count
  {
    if n == 0 then [] else SlotsUpTo(rows, n - 1) + RowSlots(n - 1, rows[n - 1].count)
  }

  /** The slots of a whole pattern: one per enemy counted. */
  function Slots(rows: seq<Row>): (r: seq<Slot>)
    ensures |r| == EnemyCount(rows)
    ensures forall k :: 0 <= k < |r| ==> r[k].row < |rows| && r[k].col < rows[r[k].row].count
  {
    CountIsTotal(rows, |rows|);
    assert rows[..|rows|] == rows;
    SlotsUpTo(rows, |rows|)
  }

  /** An enemy as initEnemies creates it for slot `s` of a pattern at the
      given wave: 60 units between columns, 50 between rows, rows starting
      80 below the zone's top, flying in from above. */
  ghost predicate Placed(e: Enemies.Enemy, s: Slot, rows: seq<Row>, wave: int, zone: Zone)
    reads e`x, e`y, e`isFlying, e`active, e`animationState, e`health
  {
    s.row < |rows| &&
    var r := rows[s.row];
    e.kind == r.kind && e.rowIndex == s.row &&
    e.x == zone.x + (s.col * ColumnSpacing + r.startX) as real &&
    e.y == zone.y - 200.0 - s.row as real * 55.0 &&
    e.targetY == zone.y + (s.row * 50 + 80) as real &&
    e.isFlying && e.active && e.animationState == Enemies.Idle &&
    e.health == Enemies.StartingHealth(r.kind, wave) &&
    e.weaponType == (if r.weapon.Some? then r.weapon.value else Aimed) &&
    e.fireRateMultiplier == Enemies.RateOrDefault(r.rateMultiplier)
  }
  /** A list of distinct, individually consistent enemies. */
  ghost predicate Roster(es: seq<Enemies.Enemy>)
    reads es
  {
    Distinct(es) && forall e :: e in es ==> e.Valid()
  }

  /** Enemy `es[k]` sits at slot `slots[k]`, for every k, and moves at `speed`. */
  ghost predicate Laid(es: seq<Enemies.Enemy>, slots: seq<Slot>, rows: seq<Row>, wave: int, zone: Zone, speed: real)
    reads es
  {
    |es| == |slots| &&
    forall k :: 0 <= k < |es| ==> Placed(es[k], slots[k], rows, wave, zone) && es[k].speed == speed
  }

  lemma LaidAppend(a: seq<Enemies.Enemy>, sa: seq<Slot>, b: seq<Enemies.Enemy>, sb: seq<Slot>,
                   rows: seq<Row>, wave: int, zone: Zone, speed: real)
    requires Laid(a, sa, rows, wave, zone, speed) && Laid(b, sb, rows, wave, zone, speed)
    ensures Laid(a + b, sa + sb, rows, wave, zone, speed)
  {
    forall k | 0 <= k < |a + b|
      ensures Placed((a + b)[k], (sa + sb)[k], rows, wave, zone) && (a + b)[k].speed == speed
    {
      if k < |a| {
        assert (a + b)[k] == a[k] && (sa + sb)[k] == sa[k];
      } else {
        assert (a + b)[k] == b[k - |a|] && (sa + sb)[k] == sb[k - |a|];
      }
    }
  }


  /** Formation speed of a wave: 8% faster per wave, capped at 2.5 times
      the base speed of 60. */
  function WaveSpeed(wave: int): (s: real)
    ensures wave >= 1 ==> 60.0 <= s <= 150.0
    ensures wave >= 1 ==> (s == 150.0 <==> wave >= 20)
    ensures 1 <= wave < 20 ==> s == 60.0 + 4.8 * (wave - 1) as real
  {
    60.0 * Min(1.0 + (wave - 1) as real * 0.08, 2.5)
  }

  /** The wave bonus: fifty points per wave completed. */
  function WaveBonus(wave: int): (b: int)
    ensures wave >= 1 ==> b >= 50 && b % 50 == 0
    ensures b / 50 == wave
  {
    wave * 50
  }

  const WaveBonusDelay: real := 2.0

  /** Whether a drawWaveBonus tick with timer `timer`, pending flag
      `pending` and step `dt` spawns the next wave. */
  predicate BonusSpawns(timer: real, pending: bool, dt: real)
  {
    timer > 0.0 && pending && timer - dt <= WaveBonusDelay
  }

  /** startNextWave sets the timer to the spawn threshold itself, so the
      very next tick spawns the wave, whatever its length. */
  lemma NextTickSpawns(dt: real)
    requires dt >= 0.0
    ensures BonusSpawns(WaveBonusDelay, true, dt)
    ensures !BonusSpawns(WaveBonusDelay, false, dt)
  {
  }

  // ---------------------------------------------------------------- power-up effects

  /** The timers after one pass of updatePowerUps: each runs down by `dt`
      and those at or below zero are deleted. */
  function Ticked(m: map<string, real>, dt: real): (r: map<string, real>)
    ensures forall k :: k in r ==> k in m && r[k] > 0.0 && r[k] == m[k] - dt
    ensures forall k :: k in m && m[k] - dt > 0.0 ==> k in r
  {
    map k | k in m && m[k] - dt > 0.0 :: m[k] - dt
  }

  /** The timers after `n` passes of the same length. */
  function Ticks(m: map<string, real>, dt: real, n: nat): map<string, real>
  {
    if n == 0 then m else Ticked(Ticks(m, dt, n - 1), dt)
  }

  /** A timer started at `d` survives exactly the passes that leave it
      positive: it is present after n >= 1 passes iff d - n dt > 0, and then
      holds d - n dt. */
  lemma {:induction false} TimerLasts(name: string, d: real, dt: real, n: nat)
    requires dt > 0.0 && n >= 1
    ensures name in Ticks(map[name := d], dt, n) <==> d - n as real * dt > 0.0
    ensures name in Ticks(map[name := d], dt, n) ==> Ticks(map[name := d], dt, n)[name] == d - n as real * dt
  {
    TimerAfter(name, d, dt, n);
    ElapsedIs(n, dt);
  }

  /** The time `n` passes of `dt` take. */
  function Elapsed(n: nat, dt: real): real
  {
    if n == 0 then 0.0 else Elapsed(n - 1, dt) + dt
  }

  lemma {:induction false} ElapsedIs(n: nat, dt: real)
    ensures Elapsed(n, dt) == n as real * dt
  {
    if n > 0 {
      ElapsedIs(n - 1, dt);
      OnePassMore(n, dt);
    }
  }

  /** TimerLasts with the elapsed time as a sum of passes. */
  lemma {:induction false} TimerAfter(name: string, d: real, dt: real, n: nat)
    requires dt > 0.0 && n >= 1
    ensures name in Ticks(map[name := d], dt, n) <==> d - Elapsed(n, dt) > 0.0
    ensures name in Ticks(map[name := d], dt, n) ==> Ticks(map[name := d], dt, n)[name] == d - Elapsed(n, dt)
  {
    var m := Ticks(map[name := d], dt, n - 1);
    assert Ticks(map[name := d], dt, n) == Ticked(m, dt);
    if n > 1 {
      TimerAfter(name, d, dt, n - 1);
      TimerTick(name, m, dt, d - Elapsed(n - 1, dt));
    } else {
      assert m == map[name := d];
      TimerTick(name, m, dt, d);
    }
  }

  lemma OnePassMore(n: nat, dt: real)
    requires n >= 1
    ensures n as real * dt == (n - 1) as real * dt + dt
  {
  }

  /** One pass on a timer that holds `left` when present and is absent
      only once `left` is not positive. */
  lemma TimerTick(name: string, m: map<string, real>, dt: real, left: real)
    requires dt > 0.0
    requires name in m ==> m[name] == left
    requires name !in m ==> left <= 0.0
    ensures name in Ticked(m, dt) <==> left - dt > 0.0
    ensures name in Ticked(m, dt) ==> Ticked(m, dt)[name] == left - dt
  {
  }

  /** The part of the game that collecting power-ups changes. */
  datatype Gains = Gains(lives: int, rocketAmmo: int, shieldActive: bool, shieldTimer: real,
                         timers: map<string, real>, collected: map<PowerUps.Kind, int>)

  /** The counter of the base activate: bumped only when the type is listed. */
  function Tally(m: map<PowerUps.Kind, int>, k: PowerUps.Kind): map<PowerUps.Kind, int>
  {
    if k in m then m[k := m[k] + 1] else m
  }

  /** What one subclass effect does to the game. */
  function ApplyEffect(g: Gains, e: PowerUps.Effect): Gains
  {
    match e
    case GainLife => g.(lives := PowerUps.LivesAfterLife(g.lives))
    case GrantShield => g.(shieldActive := true, shieldTimer := Players.ShieldDuration)
    case StartTimer(name, d) => g.(timers := g.timers[name := d])
    case AddRocket => g.(rocketAmmo := g.rocketAmmo + 1)
  }

  /** One activation: the subclass's effect, then the base count. */
  function Gain(g: Gains, k: PowerUps.Kind): Gains
  {
    var c := ApplyEffect(g, PowerUps.EffectOf(k));
    c.(collected := Tally(c.collected, k))
  }

  /** Activations of the kinds `ks`, in order. */
  function GainAll(g: Gains, ks: seq<PowerUps.Kind>): Gains
    decreases |ks|
  {
    if ks == [] then g else GainAll(Gain(g, ks[0]), ks[1..])
  }

  /** Lives after `n` life power-ups: one each while below three. */
  function LivesAfterLives(lives: int, n: nat): (r: int)
    ensures lives <= MaxLives ==> r <= MaxLives
    ensures r >= lives
  {
    if lives >= MaxLives then lives else if lives + n >= MaxLives then MaxLives else lives + n
  }

  lemma {:induction false} GainLives(g: Gains, ks: seq<PowerUps.Kind>)
    ensures GainAll(g, ks).lives == LivesAfterLives(g.lives, multiset(ks)[PowerUps.Life])
    decreases |ks|
  {
    if ks != [] {
      assert ks == [ks[0]] + ks[1..];
      assert multiset(ks) == multiset{ks[0]} + multiset(ks[1..]);
      GainLives(Gain(g, ks[0]), ks[1..]);
    }
  }

  lemma {:induction false} GainRockets(g: Gains, ks: seq<PowerUps.Kind>)
    ensures GainAll(g, ks).rocketAmmo == g.rocketAmmo + multiset(ks)[PowerUps.RocketAmmo]
    decreases |ks|
  {
    if ks != [] {
      assert ks == [ks[0]] + ks[1..];
      assert multiset(ks) == multiset{ks[0]} + multiset(ks[1..]);
      GainRockets(Gain(g, ks[0]), ks[1..]);
    }
  }

  lemma {:induction false} GainShield(g: Gains, ks: seq<PowerUps.Kind>)
    ensures PowerUps.Shield in ks ==>
              GainAll(g, ks).shieldActive && GainAll(g, ks).shieldTimer == Players.ShieldDuration
    ensures PowerUps.Shield !in ks ==>
              GainAll(g, ks).shieldActive == g.shieldActive && GainAll(g, ks).shieldTimer == g.shieldTimer
    decreases |ks|
  {
    if ks != [] {
      GainShield(Gain(g, ks[0]), ks[1..]);
      assert ks == [ks[0]] + ks[1..];
    }
  }

  /** Each listed type counts its collected power-ups; no type is added. */
  lemma {:induction false} GainCounts(g: Gains, ks: seq<PowerUps.Kind>)
    ensures GainAll(g, ks).collected.Keys == g.collected.Keys
    ensures forall k :: k in g.collected ==> GainAll(g, ks).collected[k] == g.collected[k] + multiset(ks)[k]
    decreases |ks|
  {
    if ks != [] {
      assert ks == [ks[0]] + ks[1..];
      assert multiset(ks) == multiset{ks[0]} + multiset(ks[1..]);
      GainCounts(Gain(g, ks[0]), ks[1..]);
    }
  }

  /** The auto-fire and triple-shot timers restart at 4 and 5 seconds when
      such a power-up is collected; no other timer is touched. */
  lemma {:induction false} GainTimers(g: Gains, ks: seq<PowerUps.Kind>)
    ensures PowerUps.AutoFire in ks ==>
              "autofire" in GainAll(g, ks).timers && GainAll(g, ks).timers["autofire"] == 4.0
    ensures PowerUps.TripleShot in ks ==>
              "tripleshot" in GainAll(g, ks).timers && GainAll(g, ks).timers["tripleshot"] == 5.0
    ensures PowerUps.AutoFire !in ks ==>
              ("autofire" in GainAll(g, ks).timers <==> "autofire" in g.timers) &&
              ("autofire" in g.timers ==> GainAll(g, ks).timers["autofire"] == g.timers["autofire"])
    ensures PowerUps.TripleShot !in ks ==>
              ("tripleshot" in GainAll(g, ks).timers <==> "tripleshot" in g.timers) &&
              ("tripleshot" in g.timers ==> GainAll(g, ks).timers["tripleshot"] == g.timers["tripleshot"])
    ensures forall name :: name != "autofire" && name != "tripleshot" ==>
              (name in GainAll(g, ks).timers <==> name in g.timers) &&
              (name in g.timers ==> GainAll(g, ks).timers[name] == g.timers[name])
    decreases |ks|
  {
    if ks != [] {
      GainTimers(Gain(g, ks[0]), ks[1..]);
      assert ks == [ks[0]] + ks[1..];
    }
  }

  function Kinds(ps: seq<PowerUps.PowerUp>): (ks: seq<PowerUps.Kind>)
    ensures |ks| == |ps| && forall i :: 0 <= i < |ps| ==> ks[i] == ps[i].kind
  {
    seq(|ps|, i requires 0 <= i < |ps| => ps[i].kind)
  }

  // ---------------------------------------------------------------- formation

  /** Whether an enemy counts towards the formation's extent: active and
      not dying. */
  predicate Counts(e: Enemies.Enemy)
    reads e`active, e`animationState
  {
    e.active && e.animationState != Enemies.Dying
  }

  /** Every enemy has finished flying in. */
  predicate Landed(es: seq<Enemies.Enemy>)
    reads es
  {
    forall j :: 0 <= j < |es| ==> !es[j].isFlying
  }

  /** Some counted enemy's right edge is at or past `bound`. */
  predicate ReachesRight(es: seq<Enemies.Enemy>, bound: real)
    reads es
  {
    exists j :: 0 <= j < |es| && Counts(es[j]) && es[j].x + es[j].w >= bound
  }

  /** Some counted enemy's left edge is at or before `bound`. */
  predicate ReachesLeft(es: seq<Enemies.Enemy>, bound: real)
    reads es
  {
    exists j :: 0 <= j < |es| && Counts(es[j]) && es[j].x <= bound
  }

  /** `leftmost` and `rightmost` are the extreme edges of the counted
      enemies of `es`, of which there are some exactly when `hasActive`. */
  predicate Extent(es: seq<Enemies.Enemy>, hasActive: bool, leftmost: real, rightmost: real)
    reads es
  {
    (hasActive <==> exists j :: 0 <= j < |es| && Counts(es[j])) &&
    (hasActive ==>
       (exists j :: 0 <= j < |es| && Counts(es[j]) && es[j].x == leftmost) &&
       (exists j :: 0 <= j < |es| && Counts(es[j]) && es[j].x + es[j].w == rightmost) &&
       forall j :: 0 <= j < |es| && Counts(es[j]) ==> leftmost <= es[j].x && es[j].x + es[j].w <= rightmost)
  }

  /** Comparing the extent with a wall is the same as asking whether some
      counted enemy reaches it. */
  lemma ExtentReaches(es: seq<Enemies.Enemy>, hasActive: bool, leftmost: real, rightmost: real,
                      left: real, right: real)
    requires Extent(es, hasActive, leftmost, rightmost)
    ensures (hasActive && rightmost >= right) == ReachesRight(es, right)
    ensures (hasActive && leftmost <= left) == ReachesLeft(es, left)
  {
  }

  /** The heights of a list of enemies. */
  function Heights(es: seq<Enemies.Enemy>): (r: seq<real>)
    reads set e | e in es
    ensures |r| == |es| && forall i :: 0 <= i < |es| ==> r[i] == es[i].y
  {
    if es == [] then [] else [es[0].y] + Heights(es[1..])
  }

  /** Everything about an enemy that a descent leaves alone: all of its
      mutable state except its height. */
  datatype Bearing = Bearing(x: real, speed: real, isFlying: bool, active: bool, health: int,
                             state: Enemies.AnimState, frame: int, frameTime: real)
  {
    /** Whether the enemy takes part in a descent: landed and active. */
    predicate Sinks() { !isFlying && active }
  }

  function BearingOf(e: Enemies.Enemy): Bearing
    reads e`x, e`speed, e`isFlying, e`active, e`health, e`animationState, e`deathFrame, e`deathFrameTime
  {
    Bearing(e.x, e.speed, e.isFlying, e.active, e.health, e.animationState, e.deathFrame, e.deathFrameTime)
  }

  function Bearings(es: seq<Enemies.Enemy>): (r: seq<Bearing>)
    reads set e | e in es
    ensures |r| == |es| && forall i :: 0 <= i < |es| ==> r[i] == BearingOf(es[i])
  {
    if es == [] then [] else [BearingOf(es[0])] + Bearings(es[1..])
  }

  /** The height after a descent of an enemy of bearing `b` at `y`. */
  function Lowered(b: Bearing, y: real): real
  {
    if b.Sinks() then y + 20.0 else y
  }

  /** An enemy list whose members' bearings are as they were is still a
      valid roster. */
  twostate lemma RosterKept(es: seq<Enemies.Enemy>)
    requires old(Roster(es))
    requires forall j :: 0 <= j < |es| ==> BearingOf(es[j]) == old(BearingOf(es[j]))
    ensures Roster(es)
  {
    forall e | e in es
      ensures e.Valid()
    {
      var j :| 0 <= j < |es| && es[j] == e;
      assert BearingOf(es[j]) == old(BearingOf(es[j]));
    }
  }

  /** Whether an enemy of bearing `b` and height `h`, at `y` before a
      descent, reaches the bottom `bottom` once lowered by 20. */
  predicate Breaches(b: Bearing, h: real, y: real, bottom: real)
  {
    b.Sinks() && y + 20.0 + h >= bottom
  }

  /** The first enemy from `i` on, in list order, that a descent brings to
      the bottom; |es| when there is none. */
  function BreachFrom(es: seq<Enemies.Enemy>, bs: seq<Bearing>, ys: seq<real>, bottom: real, i: nat): (k: nat)
    requires |bs| == |es| && |ys| == |es| && i <= |es|
    ensures i <= k <= |es|
    ensures k < |es| ==> Breaches(bs[k], es[k].h, ys[k], bottom)
    ensures forall j :: i <= j < k ==> !Breaches(bs[j], es[j].h, ys[j], bottom)
    decreases |es| - i
  {
    if i == |es| then i
    else if Breaches(bs[i], es[i].h, ys[i], bottom) then i
    else BreachFrom(es, bs, ys, bottom, i + 1)
  }

  /** The first breach is at `k` when no enemy before `k` breaches and
      either `k` does or `k` is the end of the list. */
  lemma BreachAt(es: seq<Enemies.Enemy>, bs: seq<Bearing>, ys: seq<real>, bottom: real, k: nat)
    requires |bs| == |es| && |ys| == |es| && k <= |es|
    requires forall j :: 0 <= j < k ==> !Breaches(bs[j], es[j].h, ys[j], bottom)
    requires k < |es| ==> Breaches(bs[k], es[k].h, ys[k], bottom)
    ensures Breach(es, bs, ys, bottom) == k
  {
  }

  function Breach(es: seq<Enemies.Enemy>, bs: seq<Bearing>, ys: seq<real>, bottom: real): (k: nat)
    requires |bs| == |es| && |ys| == |es|
    ensures k <= |es|
    ensures k < |es| ==> Breaches(bs[k], es[k].h, ys[k], bottom)
    ensures forall j :: 0 <= j < k ==> !Breaches(bs[j], es[j].h, ys[j], bottom)
  {
    BreachFrom(es, bs, ys, bottom, 0)
  }

  // ---------------------------------------------------------------- destroy all

  /** The part of an enemy that a rocket's "destroy all" changes. */
  datatype Foe = Foe(active: bool, state: Enemies.AnimState, health: int, clock: Enemies.DeathClock)

  function FoeOf(e: Enemies.Enemy): Foe
    reads e`active, e`animationState, e`health, e`deathFrame, e`deathFrameTime
  {
    Foe(e.active, e.animationState, e.health, Enemies.DeathClock(e.deathFrame, e.deathFrameTime))
  }

  function Foes(es: seq<Enemies.Enemy>): (r: seq<Foe>)
    reads set e | e in es
    ensures |r| == |es| && forall i :: 0 <= i < |es| ==> r[i] == FoeOf(es[i])
  {
    if es == [] then [] else [FoeOf(es[0])] + Foes(es[1..])
  }

  /** "Destroy all" takes the enemies that are active and not already dying. */
  predicate Target(f: Foe)
  {
    f.active && f.state != Enemies.Dying
  }

  /** The points for one kill: one more than half the wave (rounded down),
      ten times that for a boss. */
  function KillPoints(wave: int, kind: EnemyKind): (p: int)
    ensures wave >= 0 ==> p >= 1
    ensures kind != Boss ==> p == 1 + wave / 2
    ensures wave >= 0 && kind == Boss ==> p >= 10 && p % 10 == 0
  {
    (1 + wave / 2) * (if kind == Boss then 10 else 1)
  }

  /** The points for the targets among `es` (whose states were `fs`). */
  function Bounty(es: seq<Enemies.Enemy>, fs: seq<Foe>, wave: int): int
    requires |es| == |fs|
  {
    if es == [] then 0
    else (if Target(fs[0]) then KillPoints(wave, es[0].kind) else 0) + Bounty(es[1..], fs[1..], wave)
  }

  /** How many of `fs` are targets. */
  function Kills(fs: seq<Foe>): (n: nat)
    ensures n <= |fs|
  {
    if fs == [] then 0 else (if Target(fs[0]) then 1 else 0) + Kills(fs[1..])
  }

  /** How many targets among `es` are bosses. */
  function BossKills(es: seq<Enemies.Enemy>, fs: seq<Foe>): nat
    requires |es| == |fs|
  {
    if es == [] then 0 else (if Target(fs[0]) && es[0].kind == Boss then 1 else 0) + BossKills(es[1..], fs[1..])
  }

  /** How many targets drop a power-up, `us` being their drop draws. */
  function Dropped(fs: seq<Foe>, us: seq<real>, wave: int): (n: nat)
    requires |fs| == |us|
    ensures n <= Kills(fs)
  {
    if fs == [] then 0
    else (if Target(fs[0]) && SpawnRules.DropsPowerUp(wave, us[0]) then 1 else 0) + Dropped(fs[1..], us[1..], wave)
  }

  /** A power-up as a drop sees it: its kind, position and whether it is
      live (active and not collected). */
  datatype Drop = Drop(kind: PowerUps.Kind, x: real, y: real, live: bool)

  function DropOf(p: PowerUps.PowerUp): Drop
    reads p
  {
    Drop(p.kind, p.x, p.y, p.active && !p.collected)
  }

  function DropsOf(ps: seq<PowerUps.PowerUp>): (r: seq<Drop>)
    reads set p | p in ps
    ensures |r| == |ps|
  {
    seq(|ps|, i reads ps requires 0 <= i < |ps| => DropOf(ps[i]))
  }

  lemma DropsOfAppend(ps: seq<PowerUps.PowerUp>, p: PowerUps.PowerUp)
    ensures DropsOf(ps + [p]) == DropsOf(ps) + [DropOf(p)]
  {
    var a, b := DropsOf(ps + [p]), DropsOf(ps) + [DropOf(p)];
    assert forall i :: 0 <= i < |a| ==> a[i] == b[i];
  }

  /** Where a killed enemy drops its power-up: the middle of its top edge. */
  function Spot(e: Enemies.Enemy): (real, real)
    reads e`x, e`y
  {
    (e.x + e.w / 2.0, e.y)
  }

  function Spots(es: seq<Enemies.Enemy>): (r: seq<(real, real)>)
    reads set e | e in es
    ensures |r| == |es| && forall i :: 0 <= i < |es| ==> r[i] == Spot(es[i])
  {
    if es == [] then [] else [Spot(es[0])] + Spots(es[1..])
  }

  /** The power-ups the enemy loop of "destroy all" adds, in the order it
      adds them: the loop runs from the back, so the drops of the later
      enemies come first. A target whose drop draw `us[i]` succeeds drops a
      live power-up of the kind draw `vs[i]` selects at its spot `ps[i]`. */
  function Drops(fs: seq<Foe>, ps: seq<(real, real)>, us: seq<real>, vs: seq<real>, wave: int): (r: seq<Drop>)
    requires |fs| == |ps| == |us| == |vs|
  {
    if fs == [] then []
    else
      Drops(fs[1..], ps[1..], us[1..], vs[1..], wave) +
      (if Target(fs[0]) && SpawnRules.DropsPowerUp(wave, us[0])
       then [Drop(KindForDraw(vs[0]), ps[0].0, ps[0].1, true)] else [])
  }

  /** As many drops as Dropped counts, all of them live. */
  lemma {:induction false} DropsCounted(fs: seq<Foe>, ps: seq<(real, real)>, us: seq<real>, vs: seq<real>, wave: int)
    requires |fs| == |ps| == |us| == |vs|
    ensures |Drops(fs, ps, us, vs, wave)| == Dropped(fs, us, wave)
    ensures forall d :: d in Drops(fs, ps, us, vs, wave) ==> d.live
  {
    if fs != [] {
      DropsCounted(fs[1..], ps[1..], us[1..], vs[1..], wave);
    }
  }

  lemma DropsStep(fs: seq<Foe>, ps: seq<(real, real)>, us: seq<real>, vs: seq<real>, i: int, wave: int)
    requires |fs| == |ps| == |us| == |vs| && 0 <= i < |fs|
    ensures Drops(fs[i..], ps[i..], us[i..], vs[i..], wave) ==
            Drops(fs[i + 1..], ps[i + 1..], us[i + 1..], vs[i + 1..], wave) +
            (if Target(fs[i]) && SpawnRules.DropsPowerUp(wave, us[i])
             then [Drop(KindForDraw(vs[i]), ps[i].0, ps[i].1, true)] else [])
  {
    assert fs[i..][1..] == fs[i + 1..] && ps[i..][1..] == ps[i + 1..];
    assert us[i..][1..] == us[i + 1..] && vs[i..][1..] == vs[i + 1..];
  }

  /** The score of a "destroy all" is the kill value of the wave times the
      number of kills, each boss counting ten. */
  lemma {:induction false} BountyFormula(es: seq<Enemies.Enemy>, fs: seq<Foe>, wave: int)
    requires |es| == |fs|
    ensures Bounty(es, fs, wave) == (1 + wave / 2) * (Kills(fs) + 9 * BossKills(es, fs))
  {
    if es != [] {
      BountyFormula(es[1..], fs[1..], wave);
      var k := 1 + wave / 2;
      var n := Kills(fs[1..]) + 9 * BossKills(es[1..], fs[1..]);
      var m := if Target(fs[0]) then (if es[0].kind == Boss then 10 else 1) else 0;
      assert Kills(fs) + 9 * BossKills(es, fs) == m + n;
      assert Bounty(es, fs, wave) == k * m + k * n;
      Distributes(k, m, n);
    }
  }

  lemma Distributes(k: int, m: int, n: int)
    ensures k * m + k * n == k * (m + n)
  {
  }

  lemma BountyStep(es: seq<Enemies.Enemy>, fs: seq<Foe>, us: seq<real>, i: int, wave: int)
    requires |es| == |fs| == |us| && 0 <= i < |es|
    ensures Bounty(es[i..], fs[i..], wave) ==
            (if Target(fs[i]) then KillPoints(wave, es[i].kind) else 0) + Bounty(es[i + 1..], fs[i + 1..], wave)
    ensures Kills(fs[i..]) == (if Target(fs[i]) then 1 else 0) + Kills(fs[i + 1..])
    ensures Dropped(fs[i..], us[i..], wave) ==
            (if Target(fs[i]) && SpawnRules.DropsPowerUp(wave, us[i]) then 1 else 0) + Dropped(fs[i + 1..], us[i + 1..], wave)
  {
    assert es[i..][1..] == es[i + 1..] && fs[i..][1..] == fs[i + 1..] && us[i..][1..] == us[i + 1..];
  }

  /** An enemy after "destroy all": a target has had its health set to
      zero and taken one more point, so a regular enemy is dying from frame
      zero and a boss is gone; any other enemy is as it was. */
  predicate Downed(e: Enemies.Enemy, f: Foe)
    reads e`active, e`animationState, e`health, e`deathFrame, e`deathFrameTime
  {
    if Target(f) then
      e.health == -1 &&
      if e.kind == Boss then
        !e.active && e.animationState == f.state && Enemies.DeathClock(e.deathFrame, e.deathFrameTime) == f.clock
      else
        e.active && e.animationState == Enemies.Dying && Enemies.DeathClock(e.deathFrame, e.deathFrameTime) == Enemies.DeathClock(0, 0.0)
    else FoeOf(e) == f
  }

  /** The comet state a hit changes. */
  datatype Hull = Hull(active: bool, hp: int)

  function HullOf(c: Comets.Comet): Hull
    reads c`active, c`hp
  {
    Hull(c.active, c.hp)
  }

  function Hulls(cs: seq<Comets.Comet>): (r: seq<Hull>)
    reads set c | c in cs
    ensures |r| == |cs| && forall i :: 0 <= i < |cs| ==> r[i] == HullOf(cs[i])
  {
    if cs == [] then [] else [HullOf(cs[0])] + Hulls(cs[1..])
  }

  /** Whether the hit of "destroy all" breaks a comet that was at `h`. */
  predicate Breaks(h: Hull)
  {
    h.active && h.hp - 1 <= 0
  }

  /** The points of the comets of `cs` (whose states were `hs`) that break. */
  function CometBounty(cs: seq<Comets.Comet>, hs: seq<Hull>): int
    requires |cs| == |hs|
  {
    if cs == [] then 0 else (if Breaks(hs[0]) then cs[0].points else 0) + CometBounty(cs[1..], hs[1..])
  }

  /** How many broken comets drop a rocket, `ds` being their draws. */
  function RocketDrops(cs: seq<Comets.Comet>, hs: seq<Hull>, ds: seq<real>): nat
    requires |cs| == |hs| == |ds|
  {
    if cs == [] then 0
    else (if Breaks(hs[0]) && ds[0] < SpawnRules.RocketDropChance(cs[0].size) then 1 else 0) +
         RocketDrops(cs[1..], hs[1..], ds[1..])
  }

  lemma CometBountyStep(cs: seq<Comets.Comet>, hs: seq<Hull>, ds: seq<real>, i: int)
    requires |cs| == |hs| == |ds| && 0 <= i < |cs|
    ensures CometBounty(cs[i..], hs[i..]) == (if Breaks(hs[i]) then cs[i].points else 0) + CometBounty(cs[i + 1..], hs[i + 1..])
    ensures RocketDrops(cs[i..], hs[i..], ds[i..]) ==
            (if Breaks(hs[i]) && ds[i] < SpawnRules.RocketDropChance(cs[i].size) then 1 else 0) +
            RocketDrops(cs[i + 1..], hs[i + 1..], ds[i + 1..])
  {
    assert cs[i..][1..] == cs[i + 1..] && hs[i..][1..] == hs[i + 1..] && ds[i..][1..] == ds[i + 1..];
  }

  // ---------------------------------------------------------------- firing

  /** A player laser flying straight up from (x, y). */
  ghost predicate Laser(p: Projectiles.Projectile, x: real, y: real)
    reads p
  {
    p.active && p.x == x && p.y == y && p.direction == -1.0 &&
    p.owner == Projectiles.PlayerOwned && !p.isDirectional
  }

  /** `shots` are distinct lasers of `pool`, one leaving from each x in
      `xs`, at height `y`. */
  ghost predicate Volley(shots: seq<Projectiles.Projectile>, xs: seq<real>, y: real, pool: seq<Projectiles.Projectile>)
    reads shots
  {
    |shots| == |xs| && Distinct(shots) &&
    forall i :: 0 <= i < |shots| ==> shots[i] in pool && Laser(shots[i], xs[i], y)
  }

  /** Where a manual shot leaves from, for a ship whose centre is `cx`:
      the centre, then 15 to the left and 15 to the right under triple
      shot; the centre alone otherwise. */
  function Spread(cx: real, triple: bool): (xs: seq<real>)
    ensures |xs| == (if triple then 3 else 1) && xs[0] == cx
    ensures forall i :: 0 <= i < |xs| ==> cx - 15.0 <= xs[i] <= cx + 15.0
  {
    if triple then [cx, cx - 15.0, cx + 15.0] else [cx]
  }

  // ---------------------------------------------------------------- game

  const MaxLives: int := 3
  const AutoFireRate: real := 0.15

  /** The statistics the game keeps for the leaderboard. */
  datatype Stats = Stats(totalShots: int, basicShots: int, tripleShots: int, rocketShots: int,
                         collected: map<PowerUps.Kind, int>)

  /** Every shot counted in the total is counted once under its weapon. */
  predicate Balanced(s: Stats)
  {
    s.totalShots == s.basicShots + s.tripleShots + s.rocketShots
  }

  function FreshStats(): Stats
  {
    Stats(0, 0, 0, 0, map[PowerUps.Life := 0, PowerUps.Shield := 0, PowerUps.AutoFire := 0,
                          PowerUps.TripleShot := 0, PowerUps.RocketAmmo := 0])
  }

  class Game {
    const zone: Zone
    var score: int
    var wave: int
    var lives: int
    var killedEnemies: int
    var rocketAmmo: int
    var formationDirection: int
    var formationReady: bool
    var waveBonus: int
    var waveBonusTimer: real
    var waveSpawnPending: bool
    var gameOver: bool
    var godMode: bool
    var usedGodMode: bool
    var usedWaveJump: bool
    var player: Players.Player
    var enemies: seq<Enemies.Enemy>
    const playerPool: Projectiles.ProjectilePool
    const enemyPool: Projectiles.ProjectilePool
    const rocketPool: Projectiles.RocketPool
    const powerUpManager: PowerUpManager
    const cometManager: CometManager
    var activePowerUps: map<string, real>
    var autoFireTimer: real
    var stats: Stats

    /** The formation moves left or right, waves count from one, lives
        never exceed three, rocket ammunition is never negative, and the
        entities and pools are each in a consistent state. */
    ghost predicate Valid()
      reads this`formationDirection, this`wave, this`lives, this`rocketAmmo, this`player, this`enemies
      reads player, enemies, playerPool, enemyPool, rocketPool
    {
      Counters() && player.Valid() && Roster(enemies) && PoolsValid()
    }

    /** The part of Valid that respawning the ship involves. */
    ghost predicate Ship()
      reads this`formationDirection, this`wave, this`lives, this`rocketAmmo, this`player
      reads player, playerPool, enemyPool, rocketPool
    {
      Counters() && player.Valid() && PoolsValid()
    }

    ghost predicate Counters()
      reads this`formationDirection, this`wave, this`lives, this`rocketAmmo
    {
      (formationDirection == 1 || formationDirection == -1) &&
      wave >= 1 && lives <= MaxLives && rocketAmmo >= 0
    }

    ghost predicate PoolsValid()
      reads playerPool, enemyPool, rocketPool
    {
      playerPool.Valid() && playerPool.owner == Projectiles.PlayerOwned &&
      enemyPool.Valid() && enemyPool.owner == Projectiles.EnemyOwned &&
      rocketPool.Valid()
    }

    /** The managers' own lists are consistent. */
    ghost predicate ManagersValid()
      reads powerUpManager, cometManager
    {
      powerUpManager.Valid() && cometManager.Valid()
    }

    /** The new enemies of slot k of the pattern of the current wave. */
    ghost predicate Formation(start: int, speed: real)
      reads this, enemies
      requires wave >= 1
    {
      0 <= start <= |enemies| && Laid(enemies[start..], Slots(PatternForWave(wave)), PatternForWave(wave), wave, zone, speed)
    }


    /** A new game: wave 1, three lives, nothing scored, an empty formation
        moving right, pools of 10 player lasers, 20 enemy lasers and 5
        rockets, and a ship in its starting place (the ship is created here
        rather than left unset until the first reset). `u` is the draw for
        the first comet interval. */
    constructor (z: Zone, u: real)
      ensures zone == z && score == 0 && wave == 1 && lives == MaxLives && killedEnemies == 0
      ensures rocketAmmo == 0 && formationDirection == 1 && !formationReady
      ensures waveBonus == 0 && waveBonusTimer == 0.0 && !waveSpawnPending
      ensures !gameOver && !godMode && !usedGodMode && !usedWaveJump
      ensures enemies == [] && activePowerUps == map[] && autoFireTimer == 0.0 && stats == FreshStats()
      ensures fresh(player) && player.x == z.x + SafeZoneWidth / 2.0 - 25.0
      ensures player.y == z.y + SafeZoneHeight - 70.0 && !player.shieldActive
      ensures |playerPool.pool| == 10 && |enemyPool.pool| == 20 && |rocketPool.pool| == 5
      ensures fresh(powerUpManager) && powerUpManager.powerUps == []
      ensures fresh(cometManager) && cometManager.comets == [] && cometManager.spawnTimer == 0.0
      ensures cometManager.nextSpawnTime == SpawnRules.SpawnInterval(u)
      ensures Valid() && ManagersValid()
    {
      zone := z;
      score, wave, lives, killedEnemies, rocketAmmo := 0, 1, MaxLives, 0, 0;
      formationDirection, formationReady := 1, false;
      waveBonus, waveBonusTimer, waveSpawnPending := 0, 0.0, false;
      gameOver, godMode, usedGodMode, usedWaveJump := false, false, false, false;
      player := new Players.Player(z);
      enemies := [];
      playerPool := new Projectiles.ProjectilePool(10, Projectiles.PlayerOwned);
      enemyPool := new Projectiles.ProjectilePool(20, Projectiles.EnemyOwned);
      rocketPool := new Projectiles.RocketPool(5);
      powerUpManager := new PowerUpManager();
      cometManager := new CometManager(u);
      activePowerUps := map[];
      autoFireTimer := 0.0;
      stats := FreshStats();
    }

    /** The state resetGame leaves behind apart from the formation: wave 1
        with three lives, nothing scored, no power-ups and fresh statistics;
        a ship in its starting place; every pooled laser and rocket
        released and both managers emptied, the next comet `u`-drawn. */
    ghost predicate Restarted(u: real)
      reads this`killedEnemies, this`gameOver, this`score, this`wave, this`lives
      reads this`formationDirection, this`formationReady, this`activePowerUps, this`rocketAmmo
      reads this`usedGodMode, this`usedWaveJump, this`player, this`stats, player
      reads playerPool, enemyPool, rocketPool, playerPool.pool, enemyPool.pool, rocketPool.pool
      reads powerUpManager, cometManager
    {
      Restarting() &&
      player.x == zone.x + SafeZoneWidth / 2.0 - 25.0 &&
      player.y == zone.y + SafeZoneHeight - 70.0 && !player.shieldActive &&
      Cleared(u)
    }

    /** The counters and flags as resetGame leaves them. */
    ghost predicate Restarting()
      reads this`killedEnemies, this`gameOver, this`score, this`wave, this`lives
      reads this`formationDirection, this`formationReady, this`activePowerUps, this`rocketAmmo
      reads this`usedGodMode, this`usedWaveJump, this`stats
    {
      killedEnemies == 0 && !gameOver && score == 0 && wave == 1 && lives == MaxLives &&
      formationDirection == 1 && !formationReady && activePowerUps == map[] && rocketAmmo == 0 &&
      !usedGodMode && !usedWaveJump && stats == FreshStats()
    }

    /** Every pooled laser and rocket is released and both managers are
        empty, the next comet `u`-drawn. */
    ghost predicate Cleared(u: real)
      reads playerPool, enemyPool, rocketPool, playerPool.pool, enemyPool.pool, rocketPool.pool
      reads powerUpManager, cometManager
    {
      (forall i :: 0 <= i < |playerPool.pool| ==> !playerPool.pool[i].active) &&
      (forall i :: 0 <= i < |enemyPool.pool| ==> !enemyPool.pool[i].active) &&
      (forall i :: 0 <= i < |rocketPool.pool| ==> !rocketPool.pool[i].active) &&
      powerUpManager.powerUps == [] && cometManager.comets == [] && cometManager.spawnTimer == 0.0 &&
      cometManager.nextSpawnTime == SpawnRules.SpawnInterval(u)
    }

    /** resetGame: everything of Restarted, with the first wave's formation
        laid out anew. The god mode switch itself, the auto-fire timer and
        the wave bonus are left as they were. */
    method ResetGame(u: real)
      requires PoolsValid()
      modifies this`killedEnemies, this`gameOver, this`score, this`wave, this`lives
      modifies this`formationDirection, this`formationReady, this`activePowerUps, this`rocketAmmo
      modifies this`usedGodMode, this`usedWaveJump, this`player, this`enemies, this`stats
      modifies playerPool.pool, enemyPool.pool, rocketPool.pool, powerUpManager`powerUps, cometManager
      ensures Restarted(u) && fresh(player)
      ensures Valid() && ManagersValid() && Formation(0, Enemies.BaseSpeed) && fresh(enemies)
    {
      ResetState(u);
      enemies := [];
      InitEnemies();
    }

    /** resetGame up to the formation. */
    method ResetState(u: real)
      requires PoolsValid()
      modifies this`killedEnemies, this`gameOver, this`score, this`wave, this`lives
      modifies this`formationDirection, this`formationReady, this`activePowerUps, this`rocketAmmo
      modifies this`usedGodMode, this`usedWaveJump, this`player, this`stats
      modifies playerPool.pool, enemyPool.pool, rocketPool.pool, powerUpManager`powerUps, cometManager
      ensures Restarted(u) && fresh(player)
      ensures Ship() && ManagersValid()
    {
      Clear(u);
      player := new Players.Player(zone);
      ResetCounters();
    }

    /** The counters and flags of resetGame. */
    method ResetCounters()
      modifies this`killedEnemies, this`gameOver, this`score, this`wave, this`lives
      modifies this`formationDirection, this`formationReady, this`activePowerUps, this`rocketAmmo
      modifies this`usedGodMode, this`usedWaveJump, this`stats
      ensures Restarting()
    {
      killedEnemies, gameOver, score, wave, lives := 0, false, 0, 1, MaxLives;
      formationDirection, formationReady := 1, false;
      activePowerUps := map[];
      rocketAmmo := 0;
      usedGodMode, usedWaveJump := false, false;
      stats := FreshStats();
    }

    /** The pools and managers part of resetGame. */
    method Clear(u: real)
      requires PoolsValid()
      modifies playerPool.pool, enemyPool.pool, rocketPool.pool, powerUpManager`powerUps, cometManager
      ensures Cleared(u) && PoolsValid() && ManagersValid()
    {
      ReleasePools();
      powerUpManager.Reset();
      cometManager.Reset(u);
    }

    /** The forEach loops of resetGame: every pooled laser and rocket is
        released. */
    method ReleasePools()
      requires PoolsValid()
      modifies playerPool.pool, enemyPool.pool, rocketPool.pool
      ensures PoolsValid()
      ensures forall i :: 0 <= i < |playerPool.pool| ==> !playerPool.pool[i].active
      ensures forall i :: 0 <= i < |enemyPool.pool| ==> !enemyPool.pool[i].active
      ensures forall i :: 0 <= i < |rocketPool.pool| ==> !rocketPool.pool[i].active
    {
      playerPool.ReleaseAll();
      enemyPool.ReleaseAll();
      rocketPool.ReleaseAll();
    }

    /** endGame: the game is over. Saving the score and showing the game
        over screen happen outside the model. */
    method EndGame()
      modifies this`gameOver
      ensures gameOver
    {
      gameOver := true;
    }

    /** initEnemies: append one new enemy per slot of the current wave's
        pattern. */
    method InitEnemies()
      requires Roster(enemies) && wave >= 1
      modifies this`enemies
      ensures Roster(enemies)
      ensures Formation(|old(enemies)|, Enemies.BaseSpeed)
      ensures enemies[..|old(enemies)|] == old(enemies)
      ensures fresh(enemies[|old(enemies)|..])
    {
      ghost var made := PlaceRows(PatternForWave(wave));
      assert enemies[|old(enemies)|..] == made;
    }

    /** The outer loop of initEnemies, over the rows of a pattern. */
    method PlaceRows(rows: seq<Row>) returns (ghost made: seq<Enemies.Enemy>)
      requires Roster(enemies)
      modifies this`enemies
      ensures Roster(enemies)
      ensures enemies == old(enemies) + made && fresh(made)
      ensures Laid(made, Slots(rows), rows, wave, zone, Enemies.BaseSpeed)
    {
      ghost var start := enemies;
      made := [];
      var rowIndex := 0;
      while rowIndex < |rows|
        invariant 0 <= rowIndex <= |rows|
        invariant Roster(enemies)
        invariant enemies == start + made && fresh(made)
        invariant Laid(made, SlotsUpTo(rows, rowIndex), rows, wave, zone, Enemies.BaseSpeed)
      {
        ghost var row := PlaceRow(rows, rowIndex);
        LaidAppend(made, SlotsUpTo(rows, rowIndex), row, RowSlots(rowIndex, rows[rowIndex].count),
                   rows, wave, zone, Enemies.BaseSpeed);
        assert start + made + row == start + (made + row);
        made := made + row;
        rowIndex := rowIndex + 1;
      }
    }

    /** The inner loop of initEnemies: one new enemy per column of row
        `r`, appended left to right. */
    method PlaceRow(rows: seq<Row>, r: nat) returns (ghost made: seq<Enemies.Enemy>)
      requires Roster(enemies) && r < |rows|
      modifies this`enemies
      ensures Roster(enemies)
      ensures enemies == old(enemies) + made && fresh(made)
      ensures Laid(made, RowSlots(r, rows[r].count), rows, wave, zone, Enemies.BaseSpeed)
    {
      var row := rows[r];
      ghost var start := enemies;
      made := [];
      var colIndex := 0;
      while colIndex < row.count
        invariant 0 <= colIndex <= row.count
        invariant Roster(enemies)
        invariant enemies == start + made && fresh(made)
        invariant Laid(made, RowSlots(r, colIndex), rows, wave, zone, Enemies.BaseSpeed)
      {
        var x := colIndex * ColumnSpacing + row.startX;
        var y := r * 50 + 80;
        var enemy := new Enemies.Enemy(zone, x as real, y as real, row.kind, r, wave,
                                       row.weapon, row.rateMultiplier);
        DistinctAppend(enemies, enemy);
        LaidAppend(made, RowSlots(r, colIndex), [enemy], [Slot(r, colIndex)], rows, wave, zone, Enemies.BaseSpeed);
        assert RowSlots(r, colIndex + 1) == RowSlots(r, colIndex) + [Slot(r, colIndex)];
        enemies := enemies + [enemy];
        made := made + [enemy];
        colIndex := colIndex + 1;
      }
    }

    /** respawnPlayer: one life fewer. With none left the game ends and
        nothing else changes; otherwise a new ship (with a cold weapon)
        takes the old one's place, shielded for five seconds, and every
        enemy laser in flight is removed. */
    method RespawnPlayer()
      requires Ship()
      modifies this`lives, this`gameOver, this`player, enemyPool.pool
      ensures Ship()
      ensures lives == old(lives) - 1
      ensures lives <= 0 ==> gameOver && player == old(player)
      ensures lives <= 0 ==> forall q :: q in enemyPool.pool ==> unchanged(q)
      ensures lives > 0 ==> gameOver == old(gameOver)
      ensures lives > 0 ==>
                fresh(player) && player.x == old(player.x) && player.y == old(player.y) &&
                player.shieldActive && player.shieldTimer == Players.ShieldDuration &&
                fresh(player.weaponHeat) && player.weaponHeat.State() == WeaponHeat.Cold
      ensures lives > 0 ==> forall i :: 0 <= i < |enemyPool.pool| ==> !enemyPool.pool[i].active
    {
      lives := lives - 1;
      if lives <= 0 {
        EndGame();
        return;
      }
      var currentX := player.x;
      var currentY := player.y;
      player := new Players.Player(zone);
      player.x := currentX;
      player.y := currentY;
      player.ActivateShield();
      enemyPool.ReleaseAll();
    }

    /** startNextWave: credit fifty points per wave just completed, show
        the bonus for two seconds, mark the next wave pending and advance
        the wave counter. */
    method StartNextWave()
      requires Valid()
      modifies this`score, this`waveBonus, this`waveBonusTimer, this`waveSpawnPending, this`wave
      ensures Valid()
      ensures score == old(score) + WaveBonus(old(wave)) && waveBonus == WaveBonus(old(wave))
      ensures waveBonusTimer == WaveBonusDelay && waveSpawnPending && wave == old(wave) + 1
    {
      var bonus := wave * 50;
      score := score + bonus;
      waveBonus := bonus;
      waveBonusTimer := 2.0;
      waveSpawnPending := true;
      wave := wave + 1;
    }

    /** The part spawnNextWave and jumpToWave share: a new formation for
        the current wave, not yet ready, every enemy at the wave's speed. */
    method RebuildFormation()
      requires Valid()
      modifies this`enemies, this`formationReady
      ensures Valid() && !formationReady
      ensures Formation(0, WaveSpeed(wave)) && fresh(enemies)
    {
      enemies := [];
      formationReady := false;
      InitEnemies();
      SetSpeeds(WaveSpeed(wave));
    }

    /** spawnNextWave: the pending wave's formation replaces the old one. */
    method SpawnNextWave()
      requires Valid()
      modifies this`enemies, this`formationReady, this`waveSpawnPending
      ensures Valid() && !formationReady && !waveSpawnPending
      ensures Formation(0, WaveSpeed(wave)) && fresh(enemies)
    {
      RebuildFormation();
      waveSpawnPending := false;
    }

    /** jumpToWave: a wave number below one is ignored; otherwise the game
        moves to that wave with a new formation, and the ship goes back to
        its starting place. */
    method JumpToWave(n: int)
      requires Valid()
      modifies this`wave, this`enemies, this`formationReady, player`x, player`y
      ensures Valid()
      ensures n < 1 ==> unchanged(this) && unchanged(player)
      ensures n >= 1 ==> wave == n && !formationReady && Formation(0, WaveSpeed(n)) && fresh(enemies)
      ensures n >= 1 ==> player.x == zone.x + 575.0 && player.y == zone.y + 530.0
    {
      if n < 1 {
        return;
      }
      wave := n;
      RebuildFormation();
      player.x := zone.x + SafeZoneWidth / 2.0 - 25.0;
      player.y := zone.y + SafeZoneHeight - 70.0;
    }

    /** The timer and spawn part of drawWaveBonus: while the bonus shows,
        its timer runs down, and a pending wave spawns once the timer is at
        or below the two-second threshold. */
    method DrawWaveBonus(dt: real)
      requires Valid()
      modifies this`waveBonusTimer, this`enemies, this`formationReady, this`waveSpawnPending
      ensures Valid()
      ensures old(waveBonusTimer) <= 0.0 ==> waveBonusTimer == old(waveBonusTimer)
      ensures old(waveBonusTimer) > 0.0 ==> waveBonusTimer == old(waveBonusTimer) - dt
      ensures BonusSpawns(old(waveBonusTimer), old(waveSpawnPending), dt) ==>
                !waveSpawnPending && !formationReady && Formation(0, WaveSpeed(wave)) && fresh(enemies)
      ensures !BonusSpawns(old(waveBonusTimer), old(waveSpawnPending), dt) ==>
                enemies == old(enemies) && formationReady == old(formationReady) &&
                waveSpawnPending == old(waveSpawnPending)
    {
      if waveBonusTimer <= 0.0 {
        return;
      }
      waveBonusTimer := waveBonusTimer - dt;
      if waveSpawnPending && waveBonusTimer <= 2.0 {
        SpawnNextWave();
      }
    }

    /** The speed loop of spawnNextWave and jumpToWave. */
    method SetSpeeds(speed: real)
      requires Roster(enemies) && wave >= 1 && Formation(0, Enemies.BaseSpeed)
      modifies enemies
      ensures Roster(enemies) && Formation(0, speed)
    {
      ghost var rows := PatternForWave(wave);
      forall i | 0 <= i < |enemies| {
        enemies[i].speed := speed;
      }
      forall k | 0 <= k < |enemies|
        ensures Placed(enemies[k], Slots(rows)[k], rows, wave, zone) && enemies[k].speed == speed
      {
        assert enemies[k] == enemies[0..][k];
      }
    }

    /** activatePowerUp: (re)start the timer `name` at `duration`. */
    method ActivatePowerUp(name: string, duration: real)
      modifies this`activePowerUps
      ensures activePowerUps == old(activePowerUps)[name := duration]
    {
      activePowerUps := activePowerUps[name := duration];
    }

    /** hasPowerUp: a timer of that name is running. */
    function HasPowerUp(name: string): (b: bool)
      reads this`activePowerUps
      ensures b <==> name in activePowerUps
    {
      name in activePowerUps
    }

    /** The timer loop of updatePowerUps: every timer runs down by `dt` and
        those reaching zero are deleted. */
    method TickTimers(dt: real)
      modifies this`activePowerUps
      ensures activePowerUps == Ticked(old(activePowerUps), dt)
    {
      ghost var m := activePowerUps;
      var todo := activePowerUps.Keys;
      while todo != {}
        invariant todo <= m.Keys
        invariant forall k :: k in activePowerUps <==> k in todo || (k in m && m[k] - dt > 0.0)
        invariant forall k :: k in todo ==> activePowerUps[k] == m[k]
        invariant forall k :: k in activePowerUps && k !in todo ==> activePowerUps[k] == m[k] - dt
        decreases todo
      {
        var k :| k in todo;
        activePowerUps := activePowerUps[k := activePowerUps[k] - dt];
        if activePowerUps[k] <= 0.0 {
          activePowerUps := activePowerUps - {k};
        }
        todo := todo - {k};
      }
    }

    /** The part of the game that collecting power-ups changes. */
    function GainsOf(): Gains
      reads this`lives, this`rocketAmmo, this`activePowerUps, this`stats, this`player, player
    {
      Gains(lives, rocketAmmo, player.shieldActive, player.shieldTimer, activePowerUps, stats.collected)
    }

    /** activate on the game: the effect of kind `k`, then its count. */
    method Apply(k: PowerUps.Kind)
      modifies this`lives, this`rocketAmmo, this`activePowerUps, this`stats
      modifies player`shieldActive, player`shieldTimer
      ensures GainsOf() == Gain(old(GainsOf()), k)
      ensures stats == old(stats).(collected := stats.collected)
    {
      match PowerUps.EffectOf(k) {
        case GainLife =>
          lives := PowerUps.LivesAfterLife(lives);
        case GrantShield =>
          player.ActivateShield();
        case StartTimer(name, d) =>
          ActivatePowerUp(name, d);
        case AddRocket =>
          rocketAmmo := rocketAmmo + 1;
      }
      if k in stats.collected {
        stats := stats.(collected := stats.collected[k := stats.collected[k] + 1]);
      }
    }

    /** The activations of the power-ups an update of the manager caught,
        in the order it caught them. */
    method Collect(ps: seq<PowerUps.PowerUp>)
      modifies this`lives, this`rocketAmmo, this`activePowerUps, this`stats
      modifies player`shieldActive, player`shieldTimer
      ensures GainsOf() == GainAll(old(GainsOf()), Kinds(ps))
      ensures stats == old(stats).(collected := stats.collected)
    {
      ghost var goal := GainAll(GainsOf(), Kinds(ps));
      var i := 0;
      while i < |ps|
        invariant 0 <= i <= |ps|
        invariant GainAll(GainsOf(), Kinds(ps)[i..]) == goal
        invariant stats == old(stats).(collected := stats.collected)
      {
        assert Kinds(ps)[i..] == [ps[i].kind] + Kinds(ps)[i + 1..];
        Apply(ps[i].kind);
        i := i + 1;
      }
    }

    /** One playerProjectilePool.get(x, y, -1) of a volley under way: the
        earlier lasers keep flying and one more joins them. */
    method Shoot(x: real, y: real, ghost before: seq<Projectiles.Projectile>, ghost xs: seq<real>)
      returns (ghost shots: seq<Projectiles.Projectile>)
      requires PoolsValid() && Volley(before, xs, y, playerPool.pool)
      modifies playerPool, playerPool.pool
      ensures PoolsValid() && Volley(shots, xs + [x], y, playerPool.pool)
      ensures |shots| == |before| + 1 && shots[..|before|] == before
      ensures playerPool.pool == old(playerPool.pool) ||
              (playerPool.pool == old(playerPool.pool) + [shots[|before|]] && fresh(shots[|before|]))
      ensures forall q :: q in old(playerPool.pool) && q !in shots ==> unchanged(q)
    {
      var p := playerPool.Get(x, y, -1.0, None);
      forall i | 0 <= i < |before| ensures before[i] != p { }
      shots := before + [p];
      assert shots[..|before|] == before;
    }

    /** One laser from each wing, 10 in from either side of the ship. */
    method FireWings() returns (ghost shots: seq<Projectiles.Projectile>)
      requires PoolsValid()
      modifies playerPool, playerPool.pool
      ensures PoolsValid()
      ensures Volley(shots, [player.x + 10.0, player.x + Players.PlayerSize - 10.0], player.y, playerPool.pool)
      ensures forall q :: q in old(playerPool.pool) && q !in shots ==> unchanged(q)
    {
      var leftWingX := player.x + 10.0;
      var rightWingX := player.x + Players.PlayerSize - 10.0;
      var wingY := player.y;
      shots := Shoot(leftWingX, wingY, [], []);
      shots := Shoot(rightWingX, wingY, shots, [leftWingX]);
      assert [leftWingX] + [rightWingX] == [leftWingX, rightWingX];
    }

    /** The auto-fire part of updatePowerUps: while the "autofire" timer
        runs, count down; on reaching zero fire one laser from each wing
        (10 in from either side of the ship), count two basic shots and
        restart the count at 0.15 seconds. */
    method AutoFire(dt: real) returns (ghost shots: seq<Projectiles.Projectile>)
      requires PoolsValid()
      modifies this`autoFireTimer, this`stats, playerPool, playerPool.pool
      ensures PoolsValid()
      ensures Balanced(old(stats)) ==> Balanced(stats)
      ensures !HasPowerUp("autofire") ==>
                autoFireTimer == old(autoFireTimer) && stats == old(stats) && shots == []
      ensures HasPowerUp("autofire") && old(autoFireTimer) - dt > 0.0 ==>
                autoFireTimer == old(autoFireTimer) - dt && stats == old(stats) && shots == []
      ensures HasPowerUp("autofire") && old(autoFireTimer) - dt <= 0.0 ==>
                autoFireTimer == AutoFireRate &&
                stats == old(stats).(totalShots := old(stats).totalShots + 2,
                                     basicShots := old(stats).basicShots + 2) &&
                Volley(shots, [player.x + 10.0, player.x + Players.PlayerSize - 10.0], player.y, playerPool.pool)
      ensures shots == [] ==> playerPool.pool == old(playerPool.pool)
      ensures forall q :: q in old(playerPool.pool) && q !in shots ==> unchanged(q)
    {
      shots := [];
      if !HasPowerUp("autofire") {
        return;
      }
      autoFireTimer := autoFireTimer - dt;
      if autoFireTimer <= 0.0 {
        shots := FireWings();
        stats := stats.(totalShots := stats.totalShots + 2, basicShots := stats.basicShots + 2);
        autoFireTimer := AutoFireRate;
      }
    }

    /** The rocket branch of firePlayerWeapon: one rocket up from (x, y),
        one round of ammunition spent, one rocket shot counted. */
    method FireRocket(x: real, y: real) returns (ghost r: Projectiles.Rocket)
      requires PoolsValid()
      modifies this`rocketAmmo, this`stats, rocketPool, rocketPool.pool
      ensures PoolsValid() && rocketAmmo == old(rocketAmmo) - 1
      ensures stats == old(stats).(totalShots := old(stats).totalShots + 1,
                                   rocketShots := old(stats).rocketShots + 1)
      ensures r in rocketPool.pool && r.active && r.x == x && r.y == y && r.direction == -1.0
      ensures forall q :: q in old(rocketPool.pool) && q != r ==> unchanged(q)
    {
      r := rocketPool.Get(x, y, -1.0);
      rocketAmmo := rocketAmmo - 1;
      stats := stats.(totalShots := stats.totalShots + 1, rocketShots := stats.rocketShots + 1);
    }

    /** The laser branch of firePlayerWeapon: the lasers of Spread(cx, triple),
        in that order. */
    method FireLasers(cx: real, y: real, triple: bool) returns (ghost shots: seq<Projectiles.Projectile>)
      requires PoolsValid()
      modifies playerPool, playerPool.pool
      ensures PoolsValid() && Volley(shots, Spread(cx, triple), y, playerPool.pool)
      ensures forall q :: q in old(playerPool.pool) && q !in shots ==> unchanged(q)
    {
      shots := Shoot(cx, y, [], []);
      if triple {
        ghost var one := shots;
        label First:
        shots := Shoot(cx - 15.0, y, shots, [cx]);
        ghost var two := shots;
        label Second:
        shots := Shoot(cx + 15.0, y, shots, [cx, cx - 15.0]);
        assert [cx, cx - 15.0] + [cx + 15.0] == Spread(cx, true);
        forall q | q in old(playerPool.pool) && q !in shots
          ensures unchanged(q)
        {
          assert q !in one && q !in two by {
            assert one == shots[..1] && two == shots[..2];
          }
          assert q in old@First(playerPool.pool) && q in old@Second(playerPool.pool);
        }
      }
    }

    /** firePlayerWeapon: with rocket ammunition, a rocket from the ship's
        centre that costs no heat; otherwise, unless the heat check is
        skipped, one attempt on the heat limiter, which may refuse; then
        three lasers under triple shot and one otherwise. Every shot fired
        is counted in the total and under its weapon. */
    method FirePlayerWeapon(skipHeatCheck: bool)
      returns (fired: bool, ghost shots: seq<Projectiles.Projectile>, ghost rocket: Option<Projectiles.Rocket>)
      requires PoolsValid() && rocketAmmo >= 0
      modifies this`rocketAmmo, this`stats, playerPool, playerPool.pool, rocketPool, rocketPool.pool
      modifies player.weaponHeat
      ensures PoolsValid() && rocketAmmo >= 0
      ensures Balanced(old(stats)) ==> Balanced(stats)
      ensures old(rocketAmmo) > 0 ==>
                fired && shots == [] && rocketAmmo == old(rocketAmmo) - 1 &&
                stats == old(stats).(totalShots := old(stats).totalShots + 1,
                                     rocketShots := old(stats).rocketShots + 1) &&
                rocket.Some? && rocket.value in rocketPool.pool && rocket.value.active &&
                rocket.value.x == player.x + Players.PlayerSize / 2.0 && rocket.value.y == player.y &&
                rocket.value.direction == -1.0 &&
                player.weaponHeat.State() == old(player.weaponHeat.State())
      ensures old(rocketAmmo) <= 0 ==> rocket == None && rocketAmmo == old(rocketAmmo)
      ensures old(rocketAmmo) <= 0 && skipHeatCheck ==>
                fired && player.weaponHeat.State() == old(player.weaponHeat.State())
      ensures old(rocketAmmo) <= 0 && !skipHeatCheck ==>
                (player.weaponHeat.State(), fired) == WeaponHeat.Shot(old(player.weaponHeat.State()))
      ensures old(rocketAmmo) <= 0 && !fired ==> stats == old(stats) && shots == []
      ensures old(rocketAmmo) <= 0 && fired ==>
                var triple := HasPowerUp("tripleshot");
                stats == old(stats).(totalShots := old(stats).totalShots + 1,
                                     tripleShots := old(stats).tripleShots + (if triple then 1 else 0),
                                     basicShots := old(stats).basicShots + (if triple then 0 else 1)) &&
                Volley(shots, Spread(player.x + Players.PlayerSize / 2.0, triple), player.y, playerPool.pool)
      ensures forall q :: q in old(playerPool.pool) && q !in shots ==> unchanged(q)
      ensures rocket == None ==> forall q :: q in old(rocketPool.pool) ==> unchanged(q)
    {
      var centerX := player.x + Players.PlayerSize / 2.0;
      var centerY := player.y;
      shots, rocket := [], None;
      if rocketAmmo > 0 {
        var r := FireRocket(centerX, centerY);
        return true, [], Some(r);
      }
      if !skipHeatCheck {
        var ok := player.Fire();
        if !ok {
          return false, [], None;
        }
      }
      stats := stats.(totalShots := stats.totalShots + 1);
      var triple := HasPowerUp("tripleshot");
      shots := FireLasers(centerX, centerY, triple);
      if triple {
        stats := stats.(tripleShots := stats.tripleShots + 1);
      } else {
        stats := stats.(basicShots := stats.basicShots + 1);
      }
      fired := true;
    }

    function CometFlags(): (flags: seq<bool>)
      reads cometManager, cometManager.comets
      ensures flags == cometManager.ActiveFlags()
    {
      cometManager.ActiveFlags()
    }

    /** updatePowerUps: count the power-up timers down, let auto-fire
        shoot, move the falling power-ups and apply those the ship catches
        (in the order caught), then let the comet manager spawn and move
        its comets. `uSize`, `uX` and `uNext` are the draws for a comet
        spawned now. */
    method UpdatePowerUps(dt: real, uSize: real, uX: real, uNext: real)
      requires Valid() && ManagersValid() && 0.0 <= uSize < 1.0
      modifies this`activePowerUps, this`autoFireTimer, this`stats, this`lives, this`rocketAmmo
      modifies this`gameOver, this`player, player`shieldActive, player`shieldTimer
      modifies playerPool, playerPool.pool, enemyPool.pool, powerUpManager`powerUps, powerUpManager.powerUps
      modifies cometManager`comets, cometManager`spawnTimer, cometManager`nextSpawnTime, cometManager.comets
      ensures Valid() && ManagersValid()
      ensures Balanced(old(stats)) ==> Balanced(stats)
    {
      ghost var shots := Countdown(dt);
      CatchThenComets(dt, uSize, uX, uNext);
    }

    /** The falling power-ups, then the comet manager's update. */
    method CatchThenComets(dt: real, uSize: real, uX: real, uNext: real)
      requires Valid() && ManagersValid() && 0.0 <= uSize < 1.0
      modifies this`activePowerUps, this`stats, this`lives, this`rocketAmmo
      modifies this`gameOver, this`player, player`shieldActive, player`shieldTimer
      modifies enemyPool.pool, powerUpManager`powerUps, powerUpManager.powerUps
      modifies cometManager`comets, cometManager`spawnTimer, cometManager`nextSpawnTime, cometManager.comets
      ensures Valid() && ManagersValid()
      ensures stats == old(stats).(collected := stats.collected)
    {
      ghost var caught := Catch(dt);
      AdvanceComets(dt, uSize, uX, uNext);
    }

    /** UpdateComets, seen from updatePowerUps: the game and the managers
        stay consistent. */
    method AdvanceComets(dt: real, uSize: real, uX: real, uNext: real)
      requires Valid() && ManagersValid() && 0.0 <= uSize < 1.0
      modifies cometManager`comets, cometManager`spawnTimer, cometManager`nextSpawnTime, cometManager.comets
      modifies this`lives, this`gameOver, this`player, enemyPool.pool
      ensures Valid() && ManagersValid()
    {
      ghost var mid, falls, flags := UpdateComets(dt, uSize, uX, uNext);
    }

    /** The timers and auto-fire part of updatePowerUps. */
    method Countdown(dt: real) returns (ghost shots: seq<Projectiles.Projectile>)
      requires Valid() && ManagersValid()
      modifies this`activePowerUps, this`autoFireTimer, this`stats, playerPool, playerPool.pool
      ensures Valid() && ManagersValid()
      ensures Balanced(old(stats)) ==> Balanced(stats)
      ensures activePowerUps == Ticked(old(activePowerUps), dt)
      ensures "autofire" !in activePowerUps ==>
                autoFireTimer == old(autoFireTimer) && stats == old(stats) && shots == []
      ensures "autofire" in activePowerUps && old(autoFireTimer) - dt > 0.0 ==>
                autoFireTimer == old(autoFireTimer) - dt && stats == old(stats) && shots == []
      ensures "autofire" in activePowerUps && old(autoFireTimer) - dt <= 0.0 ==>
                autoFireTimer == AutoFireRate &&
                stats == old(stats).(totalShots := old(stats).totalShots + 2,
                                     basicShots := old(stats).basicShots + 2) &&
                Volley(shots, [player.x + 10.0, player.x + Players.PlayerSize - 10.0], player.y, playerPool.pool)
      ensures shots == [] ==> playerPool.pool == old(playerPool.pool)
    {
      TickTimers(dt);
      shots := AutoFire(dt);
    }

    /** The comet manager's update: the spawn timer, then the comet loop.
        `mid` is the comet list between the two, `falls` and `flags` its
        entries' positions and active flags at that point. */
    method UpdateComets(dt: real, uSize: real, uX: real, uNext: real)
      returns (ghost mid: seq<Comets.Comet>, ghost falls: seq<Fall>, ghost flags: seq<bool>)
      requires Valid() && cometManager.Valid() && 0.0 <= uSize < 1.0
      modifies cometManager`comets, cometManager`spawnTimer, cometManager`nextSpawnTime, cometManager.comets
      modifies this`lives, this`gameOver, this`player, enemyPool.pool
      ensures Valid() && cometManager.Valid()
      ensures |falls| == |mid| && |flags| == |mid| && forall j :: 0 <= j < |mid| ==> flags[j] == falls[j].active
      ensures var n := |old(cometManager.comets)|;
              n <= |mid| && mid[..n] == old(cometManager.comets) && falls[..n] == old(Falls(cometManager.comets))
      ensures old(cometManager.spawnTimer) + dt < old(cometManager.nextSpawnTime) ==>
                mid == old(cometManager.comets) && cometManager.spawnTimer == old(cometManager.spawnTimer) + dt &&
                cometManager.nextSpawnTime == old(cometManager.nextSpawnTime)
      ensures old(cometManager.spawnTimer) + dt >= old(cometManager.nextSpawnTime) ==>
                var n := |old(cometManager.comets)|;
                |mid| == n + 1 && fresh(mid[n]) && mid[n].size == SizeForDraw(uSize) &&
                falls[n] == Fall(zone.x + uX * (SafeZoneWidth - 50.0), zone.y - 60.0, true) &&
                cometManager.spawnTimer == 0.0 && cometManager.nextSpawnTime == SpawnRules.SpawnInterval(uNext)
      ensures cometManager.comets == Keep(mid, flags)
      ensures forall j :: 0 <= j < |mid| ==> Swept(mid[j], falls[j], dt, zone, old(PlayerBox(player)))
      ensures (lives, player.IsInvulnerable(godMode)) ==
              StruckBy((old(lives), old(player.IsInvulnerable(godMode))),
                       StrikeCount(mid, falls, dt, zone, old(PlayerBox(player))))
      ensures gameOver == (old(gameOver) || (lives <= 0 && lives < old(lives)))
      ensures PlayerBox(player) == old(PlayerBox(player))
    {
      mid, falls, flags := SpawnComets(dt, uSize, uX, uNext);
      SweepComets(dt);
    }

    /** The spawn timer part of the comet manager's update, with the comet
        list it leaves (`mid`) and that list's positions and flags. */
    method SpawnComets(dt: real, uSize: real, uX: real, uNext: real)
      returns (ghost mid: seq<Comets.Comet>, ghost falls: seq<Fall>, ghost flags: seq<bool>)
      requires Valid() && cometManager.Valid() && 0.0 <= uSize < 1.0
      modifies cometManager`comets, cometManager`spawnTimer, cometManager`nextSpawnTime
      ensures Valid() && cometManager.Valid()
      ensures mid == cometManager.comets && falls == Falls(mid) && flags == CometFlags()
      ensures |falls| == |mid| && |flags| == |mid| && forall j :: 0 <= j < |mid| ==> flags[j] == falls[j].active
      ensures var n := |old(cometManager.comets)|;
              n <= |mid| && mid[..n] == old(cometManager.comets) && falls[..n] == old(Falls(cometManager.comets))
      ensures old(cometManager.spawnTimer) + dt < old(cometManager.nextSpawnTime) ==>
                mid == old(cometManager.comets) && cometManager.spawnTimer == old(cometManager.spawnTimer) + dt &&
                cometManager.nextSpawnTime == old(cometManager.nextSpawnTime)
      ensures old(cometManager.spawnTimer) + dt >= old(cometManager.nextSpawnTime) ==>
                var n := |old(cometManager.comets)|;
                |mid| == n + 1 && fresh(mid[n]) && mid[n].size == SizeForDraw(uSize) &&
                falls[n] == Fall(zone.x + uX * (SafeZoneWidth - 50.0), zone.y - 60.0, true) &&
                cometManager.spawnTimer == 0.0 && cometManager.nextSpawnTime == SpawnRules.SpawnInterval(uNext)
    {
      cometManager.Tick(dt, zone, uSize, uX, uNext);
      assert forall c :: c in cometManager.comets ==> c in old(cometManager.comets) || fresh(c);
      mid, falls, flags := cometManager.comets, Falls(cometManager.comets), CometFlags();
      assert falls[..|old(cometManager.comets)|] == old(Falls(cometManager.comets));
    }

    /** Move the falling power-ups and apply those the ship catches, in the
        order caught. */
    method Catch(dt: real) returns (ghost caught: seq<PowerUps.PowerUp>)
      requires Valid() && ManagersValid()
      modifies this`lives, this`rocketAmmo, this`activePowerUps, this`stats
      modifies player`shieldActive, player`shieldTimer, powerUpManager`powerUps, powerUpManager.powerUps
      ensures Valid() && ManagersValid()
      ensures caught == Caught(old(powerUpManager.powerUps), old(Poses(powerUpManager.powerUps)), dt, zone,
                               old(PlayerBox(player)))
      ensures powerUpManager.powerUps == Keep(old(powerUpManager.powerUps), old(powerUpManager.ActiveFlags()))
      ensures GainsOf() == GainAll(old(GainsOf()), Kinds(caught))
      ensures stats == old(stats).(collected := stats.collected)
    {
      var got := powerUpManager.Update(dt, zone, PlayerBox(player));
      Gather(got);
      caught := got;
    }

    /** Apply the caught power-ups, in the order caught. */
    method Gather(ps: seq<PowerUps.PowerUp>)
      requires Valid() && ManagersValid()
      modifies this`lives, this`rocketAmmo, this`activePowerUps, this`stats
      modifies player`shieldActive, player`shieldTimer
      ensures Valid() && ManagersValid()
      ensures GainsOf() == GainAll(old(GainsOf()), Kinds(ps))
      ensures stats == old(stats).(collected := stats.collected)
    {
      ghost var g := GainsOf();
      Collect(ps);
      GainLives(g, Kinds(ps));
      GainRockets(g, Kinds(ps));
      GainShield(g, Kinds(ps));
    }

    /** The comet loop of the manager's update: walk the list from the
        back, drop the comets that are inactive when visited, move the
        others, and for each that strikes the ship respawn the ship unless
        it is invulnerable and deactivate the comet. */
    method SweepComets(dt: real)
      requires Valid() && cometManager.Valid()
      modifies cometManager`comets, cometManager.comets, this`lives, this`gameOver, this`player, enemyPool.pool
      ensures Valid() && cometManager.Valid()
      ensures cometManager.comets == Keep(old(cometManager.comets), old(CometFlags()))
      ensures forall j :: 0 <= j < |old(cometManager.comets)| ==>
                Swept(old(cometManager.comets)[j], old(Falls(cometManager.comets))[j], dt, zone, old(PlayerBox(player)))
      ensures (lives, player.IsInvulnerable(godMode)) ==
              StruckBy((old(lives), old(player.IsInvulnerable(godMode))),
                       StrikeCount(old(cometManager.comets), old(Falls(cometManager.comets)), dt, zone, old(PlayerBox(player))))
      ensures gameOver == (old(gameOver) || (lives <= 0 && lives < old(lives)))
      ensures PlayerBox(player) == old(PlayerBox(player))
    {
      ghost var C := cometManager.comets;
      ghost var F := CometFlags();
      ghost var S := Falls(cometManager.comets);
      var box := PlayerBox(player);
      ghost var lives0, guarded0, over0 := lives, player.IsInvulnerable(godMode), gameOver;
      var i := |cometManager.comets|;
      assert C[i..] == [] && F[i..] == [] && C[..i] == C;
      while i > 0
        invariant Sweeping(i, C, F, S, dt, box, (lives0, guarded0), over0)
      {
        i := i - 1;
        SweepStep(i, C, F, S, dt, box, (lives0, guarded0), over0);
      }
      assert C[..0] == [] && C[0..] == C && F[0..] == F && S[0..] == S;
    }

    /** The comet loop has visited the entries of `C` from `i` on, and the
        ship has taken their strikes, starting from `s0` with the game over
        or not as `over0` says. */
    ghost predicate Sweeping(i: int, C: seq<Comets.Comet>, F: seq<bool>, S: seq<Fall>, dt: real, box: Box,
                             s0: (int, bool), over0: bool)
      reads this, player, enemies, playerPool, enemyPool, rocketPool, cometManager, C
    {
      cometManager.Visiting(i, C, F, S, dt, zone, box) &&
      Valid() && PlayerBox(player) == box && lives <= s0.0 &&
      (lives, player.IsInvulnerable(godMode)) == StruckBy(s0, StrikeCount(C[i..], S[i..], dt, zone, box)) &&
      gameOver == (over0 || (lives <= 0 && lives < s0.0))
    }

    /** One step of the comet loop, on entry `i` of the list it started with. */
    method SweepStep(i: int, ghost C: seq<Comets.Comet>, ghost F: seq<bool>, ghost S: seq<Fall>, dt: real, box: Box,
                     ghost s0: (int, bool), ghost over0: bool)
      requires 0 <= i && Sweeping(i + 1, C, F, S, dt, box, s0, over0)
      modifies cometManager`comets, C[i], this`lives, this`gameOver, this`player, enemyPool.pool
      ensures Sweeping(i, C, F, S, dt, box, s0, over0)
    {
      var hit := VisitComet(i, C, F, S, dt, box, s0, over0);
      Brace(hit, i, C, F, S, dt, box, s0, over0);
    }

    /** The comet manager's side of one step of the comet loop, with the
        ship left as it was. */
    method VisitComet(i: int, ghost C: seq<Comets.Comet>, ghost F: seq<bool>, ghost S: seq<Fall>, dt: real, box: Box,
                      ghost s0: (int, bool), ghost over0: bool) returns (hit: bool)
      requires 0 <= i && Sweeping(i + 1, C, F, S, dt, box, s0, over0)
      modifies cometManager`comets, C[i]
      ensures i < |C| == |S| && cometManager.Visiting(i, C, F, S, dt, zone, box)
      ensures Valid() && PlayerBox(player) == box && lives <= s0.0
      ensures (lives, player.IsInvulnerable(godMode)) == StruckBy(s0, StrikeCount(C[i + 1..], S[i + 1..], dt, zone, box))
      ensures gameOver == (over0 || (lives <= 0 && lives < s0.0))
      ensures hit <==> Strikes(C[i], S[i], dt, zone, box)
    {
      hit := cometManager.Visit(i, C, F, S, dt, zone, box);
    }

    /** The ship's side of one step of the comet loop: comet `i` has been
        visited, and the ship takes its strike when `hit`. */
    method Brace(hit: bool, ghost i: int, ghost C: seq<Comets.Comet>, ghost F: seq<bool>, ghost S: seq<Fall>,
                 dt: real, box: Box, ghost s0: (int, bool), ghost over0: bool)
      requires 0 <= i < |C| == |S| && cometManager.Visiting(i, C, F, S, dt, zone, box)
      requires Valid() && PlayerBox(player) == box && lives <= s0.0
      requires (lives, player.IsInvulnerable(godMode)) == StruckBy(s0, StrikeCount(C[i + 1..], S[i + 1..], dt, zone, box))
      requires gameOver == (over0 || (lives <= 0 && lives < s0.0))
      requires hit <==> Strikes(C[i], S[i], dt, zone, box)
      modifies this`lives, this`gameOver, this`player, enemyPool.pool
      ensures Sweeping(i, C, F, S, dt, box, s0, over0)
    {
      StrikeStep(C, S, i, dt, zone, box);
      Absorb(hit, s0, StrikeCount(C[i + 1..], S[i + 1..], dt, zone, box), over0);
    }

    /** The ship's side of one step of the comet loop: after `n` strikes
        from the state `s0`, one more when `hit`. */
    method Absorb(hit: bool, ghost s0: (int, bool), ghost n: nat, ghost over0: bool)
      requires Ship() && lives <= s0.0
      requires (lives, player.IsInvulnerable(godMode)) == StruckBy(s0, n)
      requires gameOver == (over0 || (lives <= 0 && lives < s0.0))
      modifies this`lives, this`gameOver, this`player, enemyPool.pool
      ensures Ship() && lives <= s0.0 && PlayerBox(player) == old(PlayerBox(player))
      ensures (lives, player.IsInvulnerable(godMode)) == StruckBy(s0, n + (if hit then 1 else 0))
      ensures gameOver == (over0 || (lives <= 0 && lives < s0.0))
    {
      if hit {
        TakeStrike();
        assert StruckBy(s0, n + 1) == Strike(StruckBy(s0, n));
      }
    }

    /** A comet strike on the ship: respawnPlayer unless it is invulnerable. */
    method TakeStrike()
      requires Ship()
      modifies this`lives, this`gameOver, this`player, enemyPool.pool
      ensures Ship() && PlayerBox(player) == old(PlayerBox(player))
      ensures (lives, player.IsInvulnerable(godMode)) == Strike((old(lives), old(player.IsInvulnerable(godMode))))
      ensures gameOver == (old(gameOver) || (lives <= 0 && lives < old(lives)))
    {
      if !player.IsInvulnerable(godMode) {
        RespawnPlayer();
      }
    }

    /** What the enemy loop of destroyAllEnemies has done once it has
        visited the enemies from `i` on (their states having been `fs`,
        the score `score0`, the kill count `killed0` and the power-ups `P0`). */
    ghost predicate Striking(i: int, fs: seq<Foe>, ps: seq<(real, real)>, us: seq<real>, vs: seq<real>,
                             score0: int, killed0: int, P0: seq<PowerUps.PowerUp>, D0: seq<Drop>)
      reads this`score, this`killedEnemies, this`enemies, this`wave, enemies, powerUpManager,
            set p | p in powerUpManager.powerUps
    {
      0 <= i <= |enemies| && |fs| == |enemies| && |us| == |enemies| && Roster(enemies) &&
      |ps| == |enemies| && |vs| == |enemies| && powerUpManager.Valid() &&
      (forall j :: 0 <= j < |enemies| ==> Spot(enemies[j]) == ps[j]) &&
      (forall j :: 0 <= j < i ==> FoeOf(enemies[j]) == fs[j]) &&
      (forall j :: i <= j < |enemies| ==> Downed(enemies[j], fs[j])) &&
      score == score0 + Bounty(enemies[i..], fs[i..], wave) &&
      killedEnemies == killed0 + Kills(fs[i..]) &&
      |powerUpManager.powerUps| == |P0| + Dropped(fs[i..], us[i..], wave) &&
      powerUpManager.powerUps[..|P0|] == P0 &&
      DropsOf(powerUpManager.powerUps) == D0 + Drops(fs[i..], ps[i..], us[i..], vs[i..], wave)
    }

    /** The enemy loop of destroyAllEnemies: from the back, each enemy that
        is active and not already dying scores its kill points, counts as a
        kill, may drop a power-up (draws `us` and `vs`, one pair per
        enemy), has its health set to zero and takes one more point of
        damage. */
    method StrikeAllEnemies(us: seq<real>, vs: seq<real>)
      requires Roster(enemies) && powerUpManager.Valid()
      requires |us| == |enemies| && |vs| == |enemies| && forall j :: 0 <= j < |vs| ==> 0.0 <= vs[j] < 1.0
      modifies this`score, this`killedEnemies, enemies, powerUpManager`powerUps
      ensures Roster(enemies) && powerUpManager.Valid()
      ensures score == old(score) + Bounty(enemies, old(Foes(enemies)), wave)
      ensures killedEnemies == old(killedEnemies) + Kills(old(Foes(enemies)))
      ensures |powerUpManager.powerUps| == |old(powerUpManager.powerUps)| + Dropped(old(Foes(enemies)), us, wave)
      ensures powerUpManager.powerUps[..|old(powerUpManager.powerUps)|] == old(powerUpManager.powerUps)
      ensures forall j :: 0 <= j < |enemies| ==> Downed(enemies[j], old(Foes(enemies))[j])
      ensures Spots(enemies) == old(Spots(enemies))
      ensures DropsOf(powerUpManager.powerUps) ==
              old(DropsOf(powerUpManager.powerUps)) + Drops(old(Foes(enemies)), old(Spots(enemies)), us, vs, wave)
    {
      ghost var fs, ps := Foes(enemies), Spots(enemies);
      ghost var score0, killed0, P0, D0 := score, killedEnemies, powerUpManager.powerUps, DropsOf(powerUpManager.powerUps);
      StrikingStarts(fs, ps, us, vs);
      var i := |enemies|;
      while i > 0
        invariant Striking(i, fs, ps, us, vs, score0, killed0, P0, D0)
      {
        i := i - 1;
        StrikeOne(i, fs, ps, us, vs, score0, killed0, P0, D0);
      }
      StrikingEnds(fs, ps, us, vs, score0, killed0, P0, D0);
    }

    /** Before the enemy loop of destroyAllEnemies nothing has been visited. */
    lemma StrikingStarts(fs: seq<Foe>, ps: seq<(real, real)>, us: seq<real>, vs: seq<real>)
      requires Roster(enemies) && powerUpManager.Valid()
      requires fs == Foes(enemies) && ps == Spots(enemies) && |us| == |enemies| && |vs| == |enemies|
      ensures Striking(|enemies|, fs, ps, us, vs, score, killedEnemies, powerUpManager.powerUps,
                       DropsOf(powerUpManager.powerUps))
    {
      var i, P0 := |enemies|, powerUpManager.powerUps;
      assert enemies[i..] == [] && fs[i..] == [] && us[i..] == [];
      assert ps[i..] == [] && vs[i..] == [] && DropsOf(P0) + [] == DropsOf(P0);
      assert P0[..|P0|] == P0;
    }

    /** After the enemy loop of destroyAllEnemies every enemy has been visited. */
    lemma StrikingEnds(fs: seq<Foe>, ps: seq<(real, real)>, us: seq<real>, vs: seq<real>,
                       score0: int, killed0: int, P0: seq<PowerUps.PowerUp>, D0: seq<Drop>)
      requires Striking(0, fs, ps, us, vs, score0, killed0, P0, D0)
      ensures score == score0 + Bounty(enemies, fs, wave)
      ensures killedEnemies == killed0 + Kills(fs)
      ensures |powerUpManager.powerUps| == |P0| + Dropped(fs, us, wave)
      ensures Spots(enemies) == ps
      ensures DropsOf(powerUpManager.powerUps) == D0 + Drops(fs, ps, us, vs, wave)
    {
      assert enemies[0..] == enemies && fs[0..] == fs && us[0..] == us;
      assert ps[0..] == ps && vs[0..] == vs;
    }

    /** One step of the enemy loop of destroyAllEnemies, on enemy `i`. */
    method StrikeOne(i: int, ghost fs: seq<Foe>, ghost ps: seq<(real, real)>, us: seq<real>, vs: seq<real>,
                     ghost score0: int, ghost killed0: int, ghost P0: seq<PowerUps.PowerUp>, ghost D0: seq<Drop>)
      requires 0 <= i && Striking(i + 1, fs, ps, us, vs, score0, killed0, P0, D0)
      requires forall j :: 0 <= j < |vs| ==> 0.0 <= vs[j] < 1.0
      modifies this`score, this`killedEnemies, enemies[i], powerUpManager`powerUps
      ensures Striking(i, fs, ps, us, vs, score0, killed0, P0, D0)
    {
      BountyStep(enemies, fs, us, i, wave);
      DropsStep(fs, ps, us, vs, i, wave);
      var enemy := enemies[i];
      assert FoeOf(enemy) == fs[i] && Spot(enemy) == ps[i];
      StrikeIfTarget(enemy, us[i], vs[i], fs[i], P0, Drop(KindForDraw(vs[i]), ps[i].0, ps[i].1, true));
      assert Roster(enemies);
      assert forall j :: 0 <= j < i ==> FoeOf(enemies[j]) == fs[j];
      assert forall j :: i <= j < |enemies| ==> Downed(enemies[j], fs[j]);
      assert forall j :: 0 <= j < |enemies| ==> Spot(enemies[j]) == ps[j];
    }

    /** The guarded body of the enemy loop of destroyAllEnemies: an enemy
        in state `f` is killed when it is a target and left alone
        otherwise; `drop` is the power-up it would drop. */
    method StrikeIfTarget(enemy: Enemies.Enemy, u: real, v: real, ghost f: Foe, ghost P0: seq<PowerUps.PowerUp>,
                          ghost drop: Drop)
      requires enemy.Valid() && FoeOf(enemy) == f && powerUpManager.Valid() && 0.0 <= v < 1.0
      requires drop == Drop(KindForDraw(v), enemy.x + enemy.w / 2.0, enemy.y, true)
      requires |P0| <= |powerUpManager.powerUps| && powerUpManager.powerUps[..|P0|] == P0
      modifies this`score, this`killedEnemies, enemy, powerUpManager`powerUps
      ensures enemy.Valid() && powerUpManager.Valid() && Downed(enemy, f) && Spot(enemy) == old(Spot(enemy))
      ensures score == old(score) + (if Target(f) then KillPoints(wave, enemy.kind) else 0)
      ensures killedEnemies == old(killedEnemies) + (if Target(f) then 1 else 0)
      ensures |powerUpManager.powerUps| ==
              |old(powerUpManager.powerUps)| + (if Target(f) && SpawnRules.DropsPowerUp(wave, u) then 1 else 0)
      ensures |P0| <= |powerUpManager.powerUps| && powerUpManager.powerUps[..|P0|] == P0
      ensures DropsOf(powerUpManager.powerUps) ==
              old(DropsOf(powerUpManager.powerUps)) + (if Target(f) && SpawnRules.DropsPowerUp(wave, u) then [drop] else [])
    {
      ghost var before := powerUpManager.powerUps;
      if enemy.active && enemy.animationState != Enemies.Dying {
        Kill(enemy, u, v);
        assert powerUpManager.powerUps[..|P0|] == P0 by {
          assert powerUpManager.powerUps[..|before|][..|P0|] == before[..|P0|];
        }
      }
    }

    /** The body of the enemy loop of destroyAllEnemies for one target. */
    method Kill(enemy: Enemies.Enemy, u: real, v: real)
      requires enemy.Valid() && Target(FoeOf(enemy)) && powerUpManager.Valid() && 0.0 <= v < 1.0
      modifies this`score, this`killedEnemies, enemy, powerUpManager`powerUps
      ensures enemy.Valid() && powerUpManager.Valid() && Downed(enemy, old(FoeOf(enemy)))
      ensures score == old(score) + KillPoints(wave, enemy.kind)
      ensures killedEnemies == old(killedEnemies) + 1
      ensures |powerUpManager.powerUps| ==
              |old(powerUpManager.powerUps)| + (if SpawnRules.DropsPowerUp(wave, u) then 1 else 0)
      ensures powerUpManager.powerUps[..|old(powerUpManager.powerUps)|] == old(powerUpManager.powerUps)
      ensures SpawnRules.DropsPowerUp(wave, u) ==>
                fresh(powerUpManager.powerUps[|old(powerUpManager.powerUps)|]) &&
                DropOf(powerUpManager.powerUps[|old(powerUpManager.powerUps)|]) ==
                Drop(KindForDraw(v), enemy.x + enemy.w / 2.0, enemy.y, true)
      ensures DropsOf(powerUpManager.powerUps) ==
              old(DropsOf(powerUpManager.powerUps)) +
              (if SpawnRules.DropsPowerUp(wave, u) then [Drop(KindForDraw(v), enemy.x + enemy.w / 2.0, enemy.y, true)] else [])
      ensures enemy.x == old(enemy.x) && enemy.y == old(enemy.y)
    {
      var killPoints := (1 + wave / 2) * (if enemy.kind == Boss then 10 else 1);
      score := score + killPoints;
      killedEnemies := killedEnemies + 1;
      powerUpManager.TrySpawnPowerUp(enemy.x + enemy.w / 2.0, enemy.y, wave, u, v);
      enemy.health := 0;
      var destroyed := enemy.TakeDamage();
    }

    /** handleProjectileHit: one point of damage; a comet that breaks
        scores its points and, when draw `u` falls under its size's chance,
        drops a rocket round. */
    method HandleProjectileHit(c: Comets.Comet, u: real) returns (destroyed: bool)
      modifies c`hp, c`active, this`score, this`rocketAmmo
      ensures c.hp == old(c.hp) - 1
      ensures destroyed <==> c.hp <= 0
      ensures destroyed ==>
                !c.active && score == old(score) + c.points &&
                rocketAmmo == old(rocketAmmo) + (if u < SpawnRules.RocketDropChance(c.size) then 1 else 0)
      ensures !destroyed ==> c.active == old(c.active) && score == old(score) && rocketAmmo == old(rocketAmmo)
    {
      destroyed := c.TakeDamage(1);
      if destroyed {
        score := score + c.points;
        var rocketDropChance := SpawnRules.RocketDropChance(c.size);
        if u < rocketDropChance {
          rocketAmmo := rocketAmmo + 1;
        }
      }
    }

    /** The comet loop of destroyAllEnemies: from the back, every active
        comet takes a projectile hit (`ds` holds one rocket-drop draw per
        comet). */
    method HitAllComets(ds: seq<real>)
      requires |ds| == |cometManager.comets| && cometManager.Valid() && rocketAmmo >= 0
      modifies this`score, this`rocketAmmo, cometManager.comets
      ensures rocketAmmo >= 0
      ensures score == old(score) + CometBounty(cometManager.comets, old(Hulls(cometManager.comets)))
      ensures rocketAmmo == old(rocketAmmo) + RocketDrops(cometManager.comets, old(Hulls(cometManager.comets)), ds)
      ensures forall j :: 0 <= j < |cometManager.comets| ==>
                Battered(cometManager.comets[j], old(Hulls(cometManager.comets))[j])
    {
      var cs := cometManager.comets;
      ghost var hs := Hulls(cs);
      ghost var score0, ammo0 := score, rocketAmmo;
      var i := |cs|;
      assert cs[i..] == [] && hs[i..] == [] && ds[i..] == [];
      while i > 0
        invariant Hitting(i, cs, hs, ds, score0, ammo0)
      {
        i := i - 1;
        HitOne(i, cs, hs, ds, score0, ammo0);
      }
      assert cs[0..] == cs && hs[0..] == hs && ds[0..] == ds;
    }

    /** A comet after the comet loop of destroyAllEnemies, having been at `h`. */
    ghost predicate Battered(c: Comets.Comet, h: Hull)
      reads c`hp, c`active
    {
      if h.active then c.hp == h.hp - 1 && c.active == (h.hp - 1 > 0) else HullOf(c) == h
    }

    /** What the comet loop of destroyAllEnemies has done once it has
        visited the comets of `cs` from `i` on. */
    ghost predicate Hitting(i: int, cs: seq<Comets.Comet>, hs: seq<Hull>, ds: seq<real>, score0: int, ammo0: int)
      reads this`score, this`rocketAmmo, cs
    {
      0 <= i <= |cs| && |hs| == |cs| && |ds| == |cs| && Distinct(cs) &&
      (forall j :: 0 <= j < i ==> HullOf(cs[j]) == hs[j]) &&
      (forall j :: i <= j < |cs| ==> Battered(cs[j], hs[j])) &&
      score == score0 + CometBounty(cs[i..], hs[i..]) &&
      rocketAmmo == ammo0 + RocketDrops(cs[i..], hs[i..], ds[i..]) && rocketAmmo >= ammo0
    }

    /** One step of the comet loop of destroyAllEnemies, on comet `i`. */
    method HitOne(i: int, cs: seq<Comets.Comet>, ghost hs: seq<Hull>, ds: seq<real>, ghost score0: int, ghost ammo0: int)
      requires 0 <= i && Hitting(i + 1, cs, hs, ds, score0, ammo0)
      modifies this`score, this`rocketAmmo, cs[i]
      ensures Hitting(i, cs, hs, ds, score0, ammo0)
    {
      CometBountyStep(cs, hs, ds, i);
      var comet := cs[i];
      if comet.active {
        var destroyed := HandleProjectileHit(comet, ds[i]);
      }
    }

    /** destroyAllEnemies, the rocket power: every active enemy not already
        dying is killed, then every active comet takes a hit. */
    method DestroyAllEnemies(us: seq<real>, vs: seq<real>, ds: seq<real>)
      requires Roster(enemies) && powerUpManager.Valid() && cometManager.Valid() && rocketAmmo >= 0
      requires |us| == |enemies| && |vs| == |enemies| && forall j :: 0 <= j < |vs| ==> 0.0 <= vs[j] < 1.0
      requires |ds| == |cometManager.comets|
      modifies this`score, this`killedEnemies, this`rocketAmmo, enemies, powerUpManager`powerUps, cometManager.comets
      ensures Roster(enemies) && powerUpManager.Valid() && rocketAmmo >= 0
      ensures score == old(score) + Bounty(enemies, old(Foes(enemies)), wave) +
                       CometBounty(cometManager.comets, old(Hulls(cometManager.comets)))
      ensures killedEnemies == old(killedEnemies) + Kills(old(Foes(enemies)))
      ensures rocketAmmo == old(rocketAmmo) + RocketDrops(cometManager.comets, old(Hulls(cometManager.comets)), ds)
      ensures |powerUpManager.powerUps| == |old(powerUpManager.powerUps)| + Dropped(old(Foes(enemies)), us, wave)
      ensures forall j :: 0 <= j < |enemies| ==> Downed(enemies[j], old(Foes(enemies))[j])
      ensures DropsOf(powerUpManager.powerUps) ==
              old(DropsOf(powerUpManager.powerUps)) + Drops(old(Foes(enemies)), old(Spots(enemies)), us, vs, wave)
    {
      ghost var hs := Hulls(cometManager.comets);
      ghost var fs := Foes(enemies);
      StrikeAllEnemies(us, vs);
      assert Hulls(cometManager.comets) == hs;
      HitCometsAfter(ds, fs);
    }

    /** HitAllComets, with the struck enemies left as they were. */
    method HitCometsAfter(ds: seq<real>, ghost fs: seq<Foe>)
      requires |ds| == |cometManager.comets| && cometManager.Valid() && rocketAmmo >= 0
      requires Roster(enemies) && |fs| == |enemies| && forall j :: 0 <= j < |enemies| ==> Downed(enemies[j], fs[j])
      modifies this`score, this`rocketAmmo, cometManager.comets
      ensures rocketAmmo >= 0
      ensures score == old(score) + CometBounty(cometManager.comets, old(Hulls(cometManager.comets)))
      ensures rocketAmmo == old(rocketAmmo) + RocketDrops(cometManager.comets, old(Hulls(cometManager.comets)), ds)
      ensures Roster(enemies) && forall j :: 0 <= j < |enemies| ==> Downed(enemies[j], fs[j])
    {
      HitAllComets(ds);
    }

    /** Whether the formation, marching in direction `dir`, has reached
        the wall it marches towards: its rightmost counted edge at or past
        the zone's right side, or its leftmost at or before the left side. */
    ghost predicate AtWall(dir: int)
      reads this`enemies, enemies
    {
      (dir == 1 && ReachesRight(enemies, zone.x + SafeZoneWidth)) ||
      (dir == -1 && ReachesLeft(enemies, zone.x))
    }

    /** updateFormationMovement: nothing happens without enemies; until the
        formation is ready, it becomes ready once every enemy has landed;
        once ready, reaching the wall it marches towards reverses its
        direction and makes it descend. `turned` says whether it did, and
        `k` is then where the descent stopped (see Descend); `bs` and `ys`
        are the enemies' states and heights beforehand. */
    method UpdateFormationMovement() returns (ghost turned: bool, ghost k: nat,
                                               ghost bs: seq<Bearing>, ghost ys: seq<real>)
      requires Roster(enemies) && Counters()
      modifies this`formationReady, this`formationDirection, this`gameOver, enemies
      ensures Roster(enemies) && Counters()
      ensures bs == old(Bearings(enemies)) && ys == old(Heights(enemies))
      ensures formationReady == (old(formationReady) || (enemies != [] && old(Landed(enemies))))
      ensures turned <==> enemies != [] && old(formationReady) && old(AtWall(formationDirection))
      ensures formationDirection == if turned then -old(formationDirection) else old(formationDirection)
      ensures !turned ==> gameOver == old(gameOver)
      ensures turned ==> k == Breach(enemies, bs, ys, zone.y + SafeZoneHeight) &&
                         gameOver == (old(gameOver) || k < |enemies|)
      ensures forall j :: 0 <= j < |enemies| ==>
                enemies[j].y == if turned && j <= k then Lowered(bs[j], ys[j]) else ys[j]
      ensures forall j :: 0 <= j < |enemies| ==> BearingOf(enemies[j]) == bs[j]
    {
      bs, ys := Bearings(enemies), Heights(enemies);
      turned, k := false, |enemies|;
      if |enemies| != 0 {
        if !formationReady {
          var allLanded := AllLanded();
          if allLanded {
            formationReady := true;
          }
        } else {
          var shouldDescend := Turn();
          if shouldDescend {
            assert Sunk(0, bs, ys);
            k := Descend(bs, ys);
            turned := true;
          }
          RosterKept(enemies);
        }
      }
    }

    /** The wall check of updateFormationMovement once the formation is
        ready: at the wall it marches towards, the formation reverses. */
    method Turn() returns (shouldDescend: bool)
      requires Counters()
      modifies this`formationDirection
      ensures Counters()
      ensures shouldDescend == old(AtWall(formationDirection))
      ensures formationDirection == if shouldDescend then -old(formationDirection) else old(formationDirection)
    {
      var hasActive, leftmost, rightmost := FormationExtent();
      ExtentReaches(enemies, hasActive, leftmost, rightmost, zone.x, zone.x + SafeZoneWidth);
      shouldDescend := false;
      if !hasActive {
        return;
      }
      if formationDirection == 1 && rightmost >= zone.x + SafeZoneWidth {
        formationDirection := -1;
        shouldDescend := true;
      } else if formationDirection == -1 && leftmost <= zone.x {
        formationDirection := 1;
        shouldDescend := true;
      }
    }

    /** The landing check of updateFormationMovement: stop at the first
        enemy still flying in. */
    method AllLanded() returns (allLanded: bool)
      ensures allLanded <==> Landed(enemies)
    {
      allLanded := true;
      var i := 0;
      while i < |enemies|
        invariant 0 <= i <= |enemies|
        invariant forall j :: 0 <= j < i ==> !enemies[j].isFlying
      {
        if enemies[i].isFlying {
          allLanded := false;
          break;
        }
        i := i + 1;
      }
    }

    /** The extent loop of updateFormationMovement: the leftmost left edge
        and the rightmost right edge over the enemies that are active and
        not dying; `hasActive` is false when there are none. */
    method FormationExtent() returns (hasActive: bool, leftmost: real, rightmost: real)
      ensures Extent(enemies, hasActive, leftmost, rightmost)
    {
      hasActive, leftmost, rightmost := false, 0.0, 0.0;
      var i := 0;
      while i < |enemies|
        invariant 0 <= i <= |enemies|
        invariant hasActive <==> exists j :: 0 <= j < i && Counts(enemies[j])
        invariant hasActive ==>
                    (exists j :: 0 <= j < i && Counts(enemies[j]) && enemies[j].x == leftmost) &&
                    (exists j :: 0 <= j < i && Counts(enemies[j]) && enemies[j].x + enemies[j].w == rightmost) &&
                    forall j :: 0 <= j < i && Counts(enemies[j]) ==>
                      leftmost <= enemies[j].x && enemies[j].x + enemies[j].w <= rightmost
      {
        var enemy := enemies[i];
        if enemy.active && enemy.animationState != Enemies.Dying {
          if !hasActive {
            leftmost, rightmost := enemy.x, enemy.x + enemy.w;
          } else {
            leftmost := Min(leftmost, enemy.x);
            rightmost := Max(rightmost, enemy.x + enemy.w);
          }
          hasActive := true;
        }
        i := i + 1;
      }
    }

    /** The descent of updateFormationMovement: in list order, each landed
        active enemy moves down 20; the first to reach the zone's bottom
        ends the game and stops the descent there. `k` is its index, or the
        length of the list when none reaches the bottom. */
    method Descend(ghost bs: seq<Bearing>, ghost ys: seq<real>) returns (ghost k: nat)
      requires Sunk(0, bs, ys)
      modifies enemies, this`gameOver
      ensures k == Breach(enemies, bs, ys, zone.y + SafeZoneHeight)
      ensures gameOver == (old(gameOver) || k < |enemies|)
      ensures forall j :: 0 <= j < |enemies| ==>
                enemies[j].y == if j <= k then Lowered(bs[j], ys[j]) else ys[j]
      ensures forall j :: 0 <= j < |enemies| ==> BearingOf(enemies[j]) == bs[j]
    {
      var i := 0;
      while i < |enemies|
        invariant Sunk(i, bs, ys) && gameOver == old(gameOver)
        invariant forall j :: 0 <= j < i ==> !Breaches(bs[j], enemies[j].h, ys[j], zone.y + SafeZoneHeight)
      {
        var breached := Sink(i, bs, ys);
        if breached {
          BreachAt(enemies, bs, ys, zone.y + SafeZoneHeight, i);
          EndGame();
          return i;
        }
        i := i + 1;
      }
      BreachAt(enemies, bs, ys, zone.y + SafeZoneHeight, i);
      k := i;
    }

    /** The first `n` enemies have taken their part in a descent, the rest
        are where they were; nothing else about any of them has changed. */
    ghost predicate Sunk(n: nat, bs: seq<Bearing>, ys: seq<real>)
      reads this`enemies, enemies
    {
      |bs| == |enemies| && |ys| == |enemies| && n <= |enemies| && Distinct(enemies) &&
      (forall j :: 0 <= j < |enemies| ==> BearingOf(enemies[j]) == bs[j]) &&
      (forall j :: 0 <= j < n ==> enemies[j].y == Lowered(bs[j], ys[j])) &&
      (forall j :: n <= j < |enemies| ==> enemies[j].y == ys[j])
    }

    /** One step of the descent: lower enemy `i` if it takes part, and say
        whether it has reached the bottom. */
    method Sink(i: nat, ghost bs: seq<Bearing>, ghost ys: seq<real>) returns (breached: bool)
      requires Sunk(i, bs, ys) && i < |enemies|
      modifies enemies[i]
      ensures Sunk(i + 1, bs, ys)
      ensures breached == Breaches(bs[i], enemies[i].h, ys[i], zone.y + SafeZoneHeight)
    {
      var enemy := enemies[i];
      breached := false;
      if !enemy.isFlying && enemy.active {
        enemy.y := enemy.y + 20.0;
        breached := enemy.y + enemy.h >= zone.y + SafeZoneHeight;
      }
    }
  }
}
