/** The random choices of js/systems/PowerUpManager.js and
    js/systems/CometManager.js, with each Math.random() draw `u` in [0, 1)
    passed in. */
module SpawnRules {

  import Enemies

  /** A weight table in the order of the source's object literal. */
  type Weights = seq<(string, real)>

  function TotalWeight(ws: Weights): real
  {
    if ws == [] then 0.0 else ws[0].1 + TotalWeight(ws[1..])
  }

  /** The cumulative-subtraction choice: subtract each weight in turn and
      take the first name that brings the draw to zero or below. */
  function Pick(ws: Weights, r: real, fallback: string): string
  {
    if ws == [] then fallback
    else if r - ws[0].1 <= 0.0 then ws[0].0
    else Pick(ws[1..], r - ws[0].1, fallback)
  }

  /** The loop of getRandomPowerUpType / getRandomSize. */
  method WeightedPick(ws: Weights, r: real, fallback: string) returns (name: string)
    ensures name == Pick(ws, r, fallback)
  {
    var random := r;
    var i := 0;
    while i < |ws|
      invariant 0 <= i <= |ws|
      invariant Pick(ws, r, fallback) == Pick(ws[i..], random, fallback)
    {
      random := random - ws[i].1;
      if random <= 0.0 {
        return ws[i].0;
      }
      i := i + 1;
    }
    return fallback;
  }

  const PowerUpWeights: Weights :=
    [("life", 5.0), ("shield", 20.0), ("autofire", 15.0), ("tripleshot", 12.0), ("rocket", 3.0)]

  const CometSizeWeights: Weights :=
    [("small", 50.0), ("medium", 35.0), ("large", 15.0)]

  /** The power-up drop chance: 8% plus 3% per difficulty tier. */
  function DropChance(wave: int): (p: real)
    ensures wave >= 0 ==> p >= 0.08
    ensures 0 <= wave < 10 ==> p == 0.08
  {
    0.08 + Enemies.Tier(wave) as real * 0.03
  }

  /** trySpawnPowerUp's test: return early when the draw exceeds the chance. */
  predicate DropsPowerUp(wave: int, u: real)
  {
    u <= DropChance(wave)
  }

  /** getRandomPowerUpType: with the draw scaled to [0, 55) the choice falls
      into five consecutive intervals and the 'shield' fallback is never used. */
  method RandomPowerUpType(u: real) returns (name: string)
    requires 0.0 <= u < 1.0
    ensures var r := u * TotalWeight(PowerUpWeights);
            (r <= 5.0 ==> name == "life") &&
            (5.0 < r <= 25.0 ==> name == "shield") &&
            (25.0 < r <= 40.0 ==> name == "autofire") &&
            (40.0 < r <= 52.0 ==> name == "tripleshot") &&
            (52.0 < r ==> name == "rocket")
  {
    var total := TotalWeight(PowerUpWeights);
    assert total == 55.0;
    name := WeightedPick(PowerUpWeights, u * total, "shield");
    PowerUpIntervals(u * total);
  }

  lemma PowerUpIntervals(r: real)
    requires 0.0 <= r < 55.0
    ensures r <= 5.0 ==> Pick(PowerUpWeights, r, "shield") == "life"
    ensures 5.0 < r <= 25.0 ==> Pick(PowerUpWeights, r, "shield") == "shield"
    ensures 25.0 < r <= 40.0 ==> Pick(PowerUpWeights, r, "shield") == "autofire"
    ensures 40.0 < r <= 52.0 ==> Pick(PowerUpWeights, r, "shield") == "tripleshot"
    ensures 52.0 < r ==> Pick(PowerUpWeights, r, "shield") == "rocket"
  {
    var ws := PowerUpWeights;
    if r > 5.0 {
      assert Pick(ws, r, "shield") == Pick(ws[1..], r - 5.0, "shield");
      if r > 25.0 {
        assert Pick(ws[1..], r - 5.0, "shield") == Pick(ws[2..], r - 25.0, "shield");
        if r > 40.0 {
          assert Pick(ws[2..], r - 25.0, "shield") == Pick(ws[3..], r - 40.0, "shield");
          if r > 52.0 {
            assert Pick(ws[3..], r - 40.0, "shield") == Pick(ws[4..], r - 52.0, "shield");
          }
        }
      }
    }
  }

  /** getRandomSize: with the draw scaled to [0, 100), small up to 50,
      medium up to 85, large above; the fallback is never used. */
  method RandomCometSize(u: real) returns (size: string)
    requires 0.0 <= u < 1.0
    ensures var r := u * TotalWeight(CometSizeWeights);
            (r <= 50.0 ==> size == "small") &&
            (50.0 < r <= 85.0 ==> size == "medium") &&
            (85.0 < r ==> size == "large")
  {
    var total := TotalWeight(CometSizeWeights);
    assert total == 100.0;
    size := WeightedPick(CometSizeWeights, u * total, "medium");
    CometSizeIntervals(u * total);
  }

  lemma CometSizeIntervals(r: real)
    requires 0.0 <= r < 100.0
    ensures r <= 50.0 ==> Pick(CometSizeWeights, r, "medium") == "small"
    ensures 50.0 < r <= 85.0 ==> Pick(CometSizeWeights, r, "medium") == "medium"
    ensures 85.0 < r ==> Pick(CometSizeWeights, r, "medium") == "large"
  {
    var ws := CometSizeWeights;
    if r > 50.0 {
      assert Pick(ws, r, "medium") == Pick(ws[1..], r - 50.0, "medium");
      if r > 85.0 {
        assert Pick(ws[1..], r - 50.0, "medium") == Pick(ws[2..], r - 85.0, "medium");
      }
    }
  }

  /** getRandomSpawnInterval: uniform between 3 and 6 seconds. */
  function SpawnInterval(u: real): (t: real)
    ensures 0.0 <= u < 1.0 ==> 3.0 <= t < 6.0
  {
    3.0 + u * (6.0 - 3.0)
  }

  /** The chance that a destroyed comet drops a rocket, by size; an unknown
      size name never drops one. */
  function RocketDropChance(size: string): (p: real)
    ensures 0.0 <= p <= 0.10
    ensures p > 0.0 <==> size in {"small", "medium", "large"}
    ensures size == "small" ==> p == 0.05
    ensures size == "medium" ==> p == 0.075
    ensures size == "large" ==> p == 0.10
  {
    if size == "small" then 0.05
    else if size == "medium" then 0.075
    else if size == "large" then 0.10
    else 0.0
  }
}
