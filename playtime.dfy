/**
 * The playtime estimate of one account: half an hour per counted match, or
 * 7.5 hours per summoner level, whichever is larger, and a label saying where
 * the figure came from. The two servers label the estimate differently, so
 * each has its own estimator here.
 */
module Playtime {
  import opened Base

  const HoursPerMatch: real := 0.5
  const HoursPerLevel: real := 7.5

  /** `estimationSource` of a row. */
  datatype Source = Matches | LevelOnly | LevelBoost | Error

  datatype Estimate = Estimate(hoursFromMatches: int, hoursFromLevel: int, hours: int, source: Source)

  /** `Math.round(games * 0.5)`, computed in integers (see `HoursFromMatchesRounds`). */
  function HoursFromMatches(games: nat): nat
  {
    (games + 1) / 2
  }

  /** `Math.round(level * HOURS_PER_LEVEL)`, computed in integers (see `HoursFromLevelRounds`). */
  function HoursFromLevel(level: nat): nat
  {
    (15 * level + 1) / 2
  }

  function Max(a: int, b: int): int
  {
    if a >= b then a else b
  }

  lemma RoundIs(x: real, q: int)
    requires q as real - 0.5 <= x < q as real + 0.5
    ensures Round(x) == q
  {
  }

  /** The integer figure is JavaScript's rounding of half an hour per match. */
  lemma HoursFromMatchesRounds(games: nat)
    ensures HoursFromMatches(games) == Round(games as real * HoursPerMatch)
  {
    var q := (games + 1) / 2;
    assert 2 * q <= games + 1 < 2 * q + 2;
    assert (2 * q) as real <= games as real + 1.0 < (2 * q) as real + 2.0;
    RoundIs(games as real * HoursPerMatch, q);
  }

  /** The integer figure is JavaScript's rounding of 7.5 hours per level. */
  lemma HoursFromLevelRounds(level: nat)
    ensures HoursFromLevel(level) == Round(level as real * HoursPerLevel)
  {
    var q := (15 * level + 1) / 2;
    assert 2 * q <= 15 * level + 1 < 2 * q + 2;
    assert (2 * q) as real <= (15 * level) as real + 1.0 < (2 * q) as real + 2.0;
    RoundIs(level as real * HoursPerLevel, q);
  }

  /**
   * The estimator of backend/server.js. Level and match count are fetched
   * separately; `hadMatchError`/`hadLevelError` record which of them failed.
   */
  function EstimateBackend(games: nat, level: nat, hadMatchError: bool, hadLevelError: bool): (e: Estimate)
    ensures e.hoursFromMatches == HoursFromMatches(games) && e.hoursFromLevel == HoursFromLevel(level)
    ensures e.hours >= e.hoursFromMatches && e.hours >= e.hoursFromLevel
    ensures e.hours == e.hoursFromMatches || e.hours == e.hoursFromLevel
    ensures e.source == Error ==> e.hours == 0
  {
    var fromMatches := HoursFromMatches(games);
    var fromLevel := HoursFromLevel(level);
    var source :=
      if games == 0 && level == 0 && (hadMatchError || hadLevelError) then Error
      else if games == 0 && level > 0 then LevelOnly
      else if games > 0 && level > 0 && fromLevel > fromMatches then LevelBoost
      else Matches;
    var hours := if games == 0 && level > 0 then fromLevel else Max(fromMatches, fromLevel);
    Estimate(fromMatches, fromLevel, hours, source)
  }

  /** The estimator of server.js: "matches" whenever the larger figure is the match figure. */
  function EstimateLegacy(games: nat, level: nat): (e: Estimate)
    ensures e.hoursFromMatches == HoursFromMatches(games) && e.hoursFromLevel == HoursFromLevel(level)
    ensures e.hours >= e.hoursFromMatches && e.hours >= e.hoursFromLevel
    ensures e.hours == e.hoursFromMatches || e.hours == e.hoursFromLevel
    ensures e.source == LevelBoost ==> e.hoursFromLevel > e.hoursFromMatches
  {
    var fromMatches := HoursFromMatches(games);
    var fromLevel := HoursFromLevel(level);
    var hours := Max(fromMatches, fromLevel);
    Estimate(fromMatches, fromLevel, hours, if hours == fromMatches then Matches else LevelBoost)
  }

  /**
   * The backend estimate is the larger of the two rounded figures, whichever
   * branch set it; in integers, the larger of (games + 1) / 2 and
   * (15 * level + 1) / 2.
   */
  lemma BackendHoursAreMax(games: nat, level: nat, hadMatchError: bool, hadLevelError: bool)
    ensures EstimateBackend(games, level, hadMatchError, hadLevelError).hours ==
      Max(Round(games as real * HoursPerMatch), Round(level as real * HoursPerLevel))
    ensures EstimateBackend(games, level, hadMatchError, hadLevelError).hours ==
      Max((games + 1) / 2, (15 * level + 1) / 2)
  {
    HoursFromMatchesRounds(games);
    HoursFromLevelRounds(level);
  }

  /** When each label is given by the backend. */
  lemma BackendSources(games: nat, level: nat, hadMatchError: bool, hadLevelError: bool)
    ensures var e := EstimateBackend(games, level, hadMatchError, hadLevelError);
      && (e.source == LevelOnly <==> games == 0 && level > 0)
      && (e.source == LevelBoost <==> games > 0 && level > 0 && (15 * level + 1) / 2 > (games + 1) / 2)
      && (e.source == Error <==> games == 0 && level == 0 && (hadMatchError || hadLevelError))
      && (e.source == Matches <==>
            (games > 0 && (level == 0 || (15 * level + 1) / 2 <= (games + 1) / 2))
            || (games == 0 && level == 0 && !hadMatchError && !hadLevelError))
  {
  }

  /** An "error" estimate has no matches behind it and no hours. */
  lemma BackendErrorIsEmpty(games: nat, level: nat, hadMatchError: bool, hadLevelError: bool)
    ensures EstimateBackend(games, level, hadMatchError, hadLevelError).source == Error ==>
      games == 0 && EstimateBackend(games, level, hadMatchError, hadLevelError).hours == 0
  {
  }

  /** The legacy label is "level_boost" exactly when the level figure is strictly larger. */
  lemma LegacySources(games: nat, level: nat)
    ensures EstimateLegacy(games, level).hours ==
      Max(Round(games as real * HoursPerMatch), Round(level as real * HoursPerLevel))
    ensures EstimateLegacy(games, level).hours == Max((games + 1) / 2, (15 * level + 1) / 2)
    ensures EstimateLegacy(games, level).source == LevelBoost <==> (15 * level + 1) / 2 > (games + 1) / 2
    ensures EstimateLegacy(games, level).source != Error && EstimateLegacy(games, level).source != LevelOnly
  {
    HoursFromMatchesRounds(games);
    HoursFromLevelRounds(level);
  }

  /** Both servers put the same number of hours on an account. */
  lemma EstimatorsAgreeOnHours(games: nat, level: nat, hadMatchError: bool, hadLevelError: bool)
    ensures EstimateBackend(games, level, hadMatchError, hadLevelError).hours == EstimateLegacy(games, level).hours
  {
    BackendHoursAreMax(games, level, hadMatchError, hadLevelError);
    LegacySources(games, level);
  }

  /** A levelled account without matches: "level_only" on the backend, "level_boost" on the old server. */
  lemma EstimatorsDisagreeWithoutMatches(level: nat)
    requires level > 0
    ensures EstimateBackend(0, level, false, false).source == LevelOnly
    ensures EstimateLegacy(0, level).source == LevelBoost
  {
    LegacySources(0, level);
  }

  /** More matches or a higher level never lowers the estimate. */
  lemma EstimateMonotone(g1: nat, l1: nat, g2: nat, l2: nat)
    requires g1 <= g2 && l1 <= l2
    ensures EstimateLegacy(g1, l1).hours <= EstimateLegacy(g2, l2).hours
  {
    LegacySources(g1, l1);
    LegacySources(g2, l2);
  }
}
