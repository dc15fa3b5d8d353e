/** The level table of `incrementLevel`: what each level spawns. */
module Levels {

  const MaxLevelCount: int := 20
  const SpawnY: real := -30.0
  const BossSpawnY: real := -100.0

  /** One level's spawn: `count` enemies whose width is drawn from
      [minWidth, maxWidth), `count` enemies of one fixed width, a boss, or
      nothing (past the last level). */
  datatype Wave =
    | Drawn(count: nat, minWidth: real, maxWidth: real)
    | Fixed(count: nat, width: real)
    | BossWave
    | NoWave

  function WaveFor(level: int): Wave
  {
    if level == 1 then Drawn(1, 45.0, 70.0)
    else if level == 2 then Drawn(2, 45.0, 70.0)
    else if level == 3 then Drawn(15, 45.0, 70.0)
    else if level == 4 then Drawn(1, 150.0, 170.0)
    else if level == 5 then Drawn(2, 150.0, 170.0)
    else if level == 6 then Fixed(20, 20.0)
    else if level == 7 then Fixed(50, 20.0)
    else if level == 8 then Drawn(20, 20.0, 170.0)
    else if level == 9 then Drawn(20, 70.0, 120.0)
    else if level == 10 then BossWave
    else if 11 <= level <= 19 then Drawn(10 * (level - 8), 20.0, 170.0)
    else if level == 20 then BossWave
    else NoWave
  }

  /** How many enemies the level adds. */
  function SpawnCount(level: int): nat
  {
    match WaveFor(level)
    case Drawn(n, _, _) => n
    case Fixed(n, _) => n
    case BossWave => 1
    case NoWave => 0
  }

  /** Every level from 1 to 20 spawns something, and nothing else does;
      only levels 10 and 20 bring a boss. */
  lemma LevelsThatSpawn(level: int)
    ensures SpawnCount(level) > 0 <==> 1 <= level <= MaxLevelCount
    ensures WaveFor(level) == BossWave <==> level == 10 || level == 20
  {
  }

  /** The drawn widths always form a proper range. */
  lemma DrawnRangesAreProper(level: int)
    ensures WaveFor(level).Drawn? ==> 0.0 < WaveFor(level).minWidth < WaveFor(level).maxWidth
  {
  }

  /** Enemies spawned by levels 1 to n (boss minions and split halves not counted). */
  function TotalSpawned(n: nat): nat
  {
    if n == 0 then 0 else TotalSpawned(n - 1) + SpawnCount(n)
  }

  /** Levels 11 to 19 add ten more enemies each, from 30 to 110. */
  lemma {:induction false} LateLevelsGrow(level: int)
    requires 11 <= level <= 19
    ensures SpawnCount(level) == 30 + 10 * (level - 11)
  {
  }

  /** Across all twenty levels the table spawns 763 enemies. */
  lemma {:induction false} WholeGameSpawns()
    ensures TotalSpawned(MaxLevelCount) == 763
  {
    assert TotalSpawned(5) == 21;
    assert TotalSpawned(10) == 132;
    assert TotalSpawned(15) == 382;
  }
}
