/** The formation table of js/config/wavePatterns.js and its periodic lookup. */
module WavePatterns {

  import opened Common

  datatype EnemyKind = Basic | Boss

  /** Boss fire patterns. */
  datatype Weapon = Aimed | Triple | Rapid

  /** One formation row. `weapon` and `rateMultiplier` are present only on the
      boss rows, as in the table. */
  datatype Row = Row(kind: EnemyKind, count: nat, startX: int,
                     weapon: Option<Weapon>, rateMultiplier: Option<real>)

  datatype PatternName = BasicRect | VFormation | Arrow | Walls | Cross | DiamondBoss | Fortress

  function B(count: nat, startX: int): Row { Row(Basic, count, startX, None, None) }

  /** WAVE_PATTERNS: the rows of each named pattern. */
  function Pattern(name: PatternName): seq<Row>
  {
    match name
    case BasicRect => [B(10, 60), B(10, 60), B(10, 60), B(10, 60)]
    case VFormation => [B(2, 60), B(4, 120), B(6, 180), B(8, 120), B(10, 60)]
    case Arrow => [B(10, 60), B(8, 120), B(6, 180), B(4, 240), B(2, 300)]
    case Walls => [B(4, 60), B(4, 660), B(4, 60), B(4, 660), B(4, 60), B(4, 660)]
    case Cross => [B(2, 300), B(2, 300), B(10, 60), B(2, 300), B(2, 300)]
    case DiamondBoss =>
      [Row(Boss, 1, 560, Some(Triple), Some(1.2)),
       B(3, 360), B(6, 240), B(10, 60), B(8, 120), B(4, 300)]
    case Fortress =>
      [Row(Boss, 1, 560, Some(Rapid), Some(2.5)),
       B(10, 60), B(10, 60), B(10, 60), B(10, 60), B(10, 60)]
  }

  /** PATTERN_SEQUENCE: waves 1..10, then the cycle repeats. */
  const PatternSequence: seq<PatternName> :=
    [BasicRect, VFormation, Arrow, Walls, DiamondBoss,
     Cross, BasicRect, VFormation, Arrow, Fortress]

  /** getPatternForWave. Waves below 1 would index the table with a negative
      number; every caller passes a wave of at least 1. */
  function PatternNameForWave(wave: int): (n: PatternName)
    requires wave >= 1
    ensures n == PatternSequence[(wave - 1) % |PatternSequence|]
    ensures wave % 10 == 5 <==> n == DiamondBoss
    ensures wave % 10 == 0 <==> n == Fortress
  {
    PatternSequence[(wave - 1) % 10]
  }

  /** The rows of the wave's pattern: four to six rows, none empty. */
  function PatternForWave(wave: int): (rows: seq<Row>)
    requires wave >= 1
    ensures 4 <= |rows| <= 6
    ensures forall i :: 0 <= i < |rows| ==> rows[i].count >= 1
  {
    Pattern(PatternNameForWave(wave))
  }

  /** The lookup repeats every ten waves. */
  lemma PatternPeriodic(wave: int)
    requires wave >= 1
    ensures PatternForWave(wave + 10) == PatternForWave(wave)
  {
    assert (wave + 10 - 1) % 10 == (wave - 1) % 10;
  }

  predicate HasBossRow(rows: seq<Row>)
  {
    exists i :: 0 <= i < |rows| && rows[i].kind == Boss
  }

  /** Bosses appear exactly on waves 5, 10, 15, ...: diamondBoss when the wave
      ends in 5, fortress when it ends in 0. */
  lemma {:induction false} BossWaves(wave: int)
    requires wave >= 1
    ensures wave % 10 == 5 ==> PatternNameForWave(wave) == DiamondBoss
    ensures wave % 10 == 0 ==> PatternNameForWave(wave) == Fortress
    ensures HasBossRow(PatternForWave(wave)) <==> wave % 10 == 5 || wave % 10 == 0
  {
    var k := (wave - 1) % 10;
    assert wave % 10 == (k + 1) % 10;
    var rows := PatternForWave(wave);
    if k == 4 {
      assert rows[0].kind == Boss;
    } else if k == 9 {
      assert rows[0].kind == Boss;
    } else {
      assert forall i :: 0 <= i < |rows| ==> rows[i].kind == Basic;
    }
  }

  /** Every boss row holds one boss armed with triple shots at 1.2x or rapid
      fire at 2.5x; every row holds at least one enemy. */
  lemma RowShapes(name: PatternName)
    ensures forall r :: r in Pattern(name) ==> r.count >= 1
    ensures forall r :: r in Pattern(name) && r.kind == Boss ==>
              r.count == 1 &&
              (r.weapon, r.rateMultiplier) in {(Some(Triple), Some(1.2)), (Some(Rapid), Some(2.5))}
  {
  }

  /** Number of enemies a pattern spawns. */
  function EnemyCount(rows: seq<Row>): nat
  {
    if rows == [] then 0 else EnemyCount(rows[..|rows| - 1]) + rows[|rows| - 1].count
  }

  lemma PatternTotals()
    ensures EnemyCount(Pattern(BasicRect)) == 40
    ensures EnemyCount(Pattern(VFormation)) == 30
    ensures EnemyCount(Pattern(Arrow)) == 30
    ensures EnemyCount(Pattern(Walls)) == 24
    ensures EnemyCount(Pattern(Cross)) == 18
    ensures EnemyCount(Pattern(DiamondBoss)) == 32
    ensures EnemyCount(Pattern(Fortress)) == 51
  {
    forall name: PatternName ensures EnemyCount(Pattern(name)) == SumOfCounts(Pattern(name)) {
      CountBySix(Pattern(name));
    }
  }

  /** The row counts of a table of four to six rows, added up explicitly. */
  function SumOfCounts(rows: seq<Row>): nat
    requires 4 <= |rows| <= 6
  {
    rows[0].count + rows[1].count + rows[2].count + rows[3].count +
    (if |rows| > 4 then rows[4].count else 0) + (if |rows| > 5 then rows[5].count else 0)
  }

  lemma CountBySix(rows: seq<Row>)
    requires 4 <= |rows| <= 6
    ensures EnemyCount(rows) == SumOfCounts(rows)
  {
    CountIsTotal(rows, |rows|);
    assert rows[..|rows|] == rows;
    assert RowsTotal(rows, 1) == rows[0].count;
    assert RowsTotal(rows, 2) == rows[0].count + rows[1].count;
    assert RowsTotal(rows, 3) == rows[0].count + rows[1].count + rows[2].count;
    assert RowsTotal(rows, 4) == rows[0].count + rows[1].count + rows[2].count + rows[3].count;
    if |rows| > 4 {
      assert RowsTotal(rows, 5) == RowsTotal(rows, 4) + rows[4].count;
    }
    if |rows| > 5 {
      assert RowsTotal(rows, 6) == RowsTotal(rows, 5) + rows[5].count;
    }
    if |rows| == 4 {
      assert RowsTotal(rows, |rows|) == SumOfCounts(rows);
    } else if |rows| == 5 {
      assert RowsTotal(rows, |rows|) == SumOfCounts(rows);
    } else {
      assert RowsTotal(rows, |rows|) == SumOfCounts(rows);
    }
  }

  /** Sum of the first k row counts, accumulated from the front. */
  function RowsTotal(rows: seq<Row>, k: nat): nat
    requires k <= |rows|
  {
    if k == 0 then 0 else RowsTotal(rows, k - 1) + rows[k - 1].count
  }

  lemma {:induction false} CountIsTotal(rows: seq<Row>, k: nat)
    requires k <= |rows|
    ensures EnemyCount(rows[..k]) == RowsTotal(rows, k)
  {
    if k > 0 {
      assert rows[..k][..k - 1] == rows[..k - 1];
      CountIsTotal(rows, k - 1);
    }
  }

  /** Column spacing and enemy sizes used when a pattern is laid out
      (js/Game.js:200 and js/entities/Enemy.js:16-17). */
  const ColumnSpacing: int := 60

  function EnemyWidth(kind: EnemyKind): int { if kind == Boss then 80 else 50 }

  function RowRightEdge(r: Row): int
    requires r.count >= 1
  {
    r.startX + (r.count - 1) * ColumnSpacing + EnemyWidth(r.kind)
  }

  /** Every formation fits inside the safe zone when it lands. */
  lemma RowsFitSafeZone(name: PatternName)
    ensures forall r :: r in Pattern(name) ==> r.count >= 1 && 0 <= r.startX && RowRightEdge(r) <= 1200
  {
  }
}
