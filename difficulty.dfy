/** Difficulty: how the score drives fall speed and the spawn period. */
module Difficulty {

  /** Points added by every firing of the one-second score timer. */
  const ScoreStep: int := 10

  /** The spawn period before any adjustment, in milliseconds. */
  const BaseSpawnRate: int := 1000

  /** The shortest spawn period, in milliseconds. */
  const MinSpawnRate: int := 200

  /** The factor applied to every fall step: one plus a thousandth of the score. */
  function Multiplier(score: int): (m: real)
    ensures score >= 0 ==> m >= 1.0
  {
    1.0 + score as real / 1000.0
  }

  /** A higher score never gives a slower fall. */
  lemma MultiplierMonotone(s1: int, s2: int)
    requires s1 <= s2
    ensures Multiplier(s1) <= Multiplier(s2)
    ensures s1 < s2 ==> Multiplier(s1) < Multiplier(s2)
  {
  }

  /** Every ten points add exactly a hundredth to the speed factor. */
  lemma MultiplierStep(score: int)
    ensures Multiplier(score + ScoreStep) == Multiplier(score) + 0.01
  {
  }

  /** The spawn period for a score: the larger of the floor and the base period less the score. */
  function SpawnRate(score: int): (r: int)
    ensures r >= MinSpawnRate && r >= BaseSpawnRate - score
    ensures r == MinSpawnRate || r == BaseSpawnRate - score
  {
    if BaseSpawnRate - score > MinSpawnRate then BaseSpawnRate - score else MinSpawnRate
  }

  /** For every reachable score the period lies between the floor and the base period. */
  lemma SpawnRateBounds(score: int)
    requires score >= 0
    ensures MinSpawnRate <= SpawnRate(score) <= BaseSpawnRate
  {
  }

  /** From a score of 800 on, the period sits at the floor. */
  lemma SpawnRateFloor(score: int)
    requires score >= BaseSpawnRate - MinSpawnRate
    ensures SpawnRate(score) == MinSpawnRate
  {
  }

  /** A higher score never gives a longer period. */
  lemma SpawnRateAntitone(s1: int, s2: int)
    requires s1 <= s2
    ensures SpawnRate(s2) <= SpawnRate(s1)
  {
  }
}
