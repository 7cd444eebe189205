/** Aggregated meta knowledge: the average tavern level reached by each turn
    and unit win rates. The level benchmark is looked up exactly when the
    turn is a key; otherwise the nearest keys on either side are found and
    their values interpolated. */
module MetaSnapshot {
  import opened Common

  /** Keys at or above this bound are never taken as the nearest higher
      turn; it is also the "none found" value of that search. */
  const NO_HIGHER: int := 999

  /** The result of the search for the nearest key at or below `turn`: the
      largest key in (0, turn], or 0 when there is none. The search visits
      the keys in an unspecified order, so it is stated over the key set. */
  ghost function LowerOf(keys: set<int>, turn: int): (r: int)
    ensures r == 0 || (r in keys && 0 < r <= turn)
    ensures forall k :: k in keys && 0 < k <= turn ==> k <= r
    decreases keys
  {
    if keys == {} then 0
    else
      NonEmptyHasElement(keys);
      var k :| k in keys;
      var rest := LowerOf(keys - {k}, turn);
      assert forall j :: j in keys ==> j == k || j in keys - {k};
      if k <= turn && k > rest then k else rest
  }

  /** The nearest key at or above `turn`: the smallest key in [turn, 999),
      or 999 when there is none. */
  ghost function HigherOf(keys: set<int>, turn: int): (r: int)
    ensures r == NO_HIGHER || (r in keys && turn <= r < NO_HIGHER)
    ensures forall k :: k in keys && turn <= k < NO_HIGHER ==> r <= k
    decreases keys
  {
    if keys == {} then NO_HIGHER
    else
      NonEmptyHasElement(keys);
      var k :| k in keys;
      var rest := HigherOf(keys - {k}, turn);
      assert forall j :: j in keys ==> j == k || j in keys - {k};
      if k >= turn && k < rest then k else rest
  }

  /** `lower` is a correct outcome of the lower search over `keys`. */
  ghost predicate IsLower(keys: set<int>, turn: int, lower: int)
  {
    (lower == 0 || (lower in keys && 0 < lower <= turn))
    && forall k :: k in keys && 0 < k <= turn ==> k <= lower
  }

  ghost predicate IsHigher(keys: set<int>, turn: int, higher: int)
  {
    (higher == NO_HIGHER || (higher in keys && turn <= higher < NO_HIGHER))
    && forall k :: k in keys && turn <= k < NO_HIGHER ==> higher <= k
  }

  /** The lower search has exactly one correct outcome. */
  lemma LowerUnique(keys: set<int>, turn: int, lower: int)
    requires IsLower(keys, turn, lower)
    ensures lower == LowerOf(keys, turn)
  {
    var r := LowerOf(keys, turn);
    if lower != 0 {
      assert lower <= r;
    }
    if r != 0 {
      assert r <= lower;
    }
  }

  lemma HigherUnique(keys: set<int>, turn: int, higher: int)
    requires IsHigher(keys, turn, higher)
    ensures higher == HigherOf(keys, turn)
  {
    var r := HigherOf(keys, turn);
    if higher != NO_HIGHER {
      assert r <= higher;
    }
    if r != NO_HIGHER {
      assert higher <= r;
    }
  }

  /** `Mathf.Lerp`: the blend weight is clamped to [0, 1] first. */
  function Lerp(a: real, b: real, t: real): (r: real)
    ensures 0.0 <= t <= 1.0 ==> r == a + (b - a) * t
    ensures t <= 0.0 ==> r == a
    ensures t >= 1.0 ==> r == b
  {
    var c := if t < 0.0 then 0.0 else if t > 1.0 then 1.0 else t;
    a + (b - a) * c
  }

  /** The interpolated value always lies between the two endpoints. */
  lemma LerpBetween(a: real, b: real, t: real)
    ensures a <= b ==> a <= Lerp(a, b, t) <= b
    ensures b <= a ==> b <= Lerp(a, b, t) <= a
  {
    var c := if t < 0.0 then 0.0 else if t > 1.0 then 1.0 else t;
    assert Lerp(a, b, t) == a + (b - a) * c;
    assert 0.0 <= c <= 1.0;
    if a <= b {
      MulNonneg(b - a, c);
      MulNonneg(b - a, 1.0 - c);
    } else {
      MulNonneg(a - b, c);
      MulNonneg(a - b, 1.0 - c);
    }
  }

  /** The value `GetExpectedLevel(turn)` returns, or None where the source
      looks up a missing key and throws. */
  ghost function ExpectedLevel(levels: map<int, real>, turn: int): Option<real>
  {
    if turn in levels then Some(levels[turn])
    else
      var lower := LowerOf(levels.Keys, turn);
      var higher := HigherOf(levels.Keys, turn);
      if lower == 0 then
        (if higher in levels then Some(levels[higher]) else None)
      else if higher == NO_HIGHER then Some(levels[lower])
      else
        var t := (turn - lower) as real / (higher - lower) as real;
        Some(Lerp(levels[lower], levels[higher], t))
  }

  /** Before the first benchmark turn the first benchmark is used. */
  lemma BeforeFirstKey(levels: map<int, real>, turn: int, first: int)
    requires turn !in levels
    requires forall k :: k in levels ==> !(0 < k <= turn)
    requires first in levels && turn <= first < NO_HIGHER
    requires forall k :: k in levels && turn <= k < NO_HIGHER ==> first <= k
    ensures ExpectedLevel(levels, turn) == Some(levels[first])
  {
    HigherUnique(levels.Keys, turn, first);
  }

  /** After the last benchmark turn the last benchmark is used. */
  lemma AfterLastKey(levels: map<int, real>, turn: int, last: int)
    requires turn !in levels
    requires forall k :: k in levels ==> !(turn <= k < NO_HIGHER)
    requires last in levels && 0 < last <= turn
    requires forall k :: k in levels && 0 < k <= turn ==> k <= last
    ensures ExpectedLevel(levels, turn) == Some(levels[last])
  {
    LowerUnique(levels.Keys, turn, last);
    HigherUnique(levels.Keys, turn, NO_HIGHER);
  }

  /** Between two benchmark turns the lookup interpolates the two
      bracketing benchmarks. */
  lemma BetweenKeysLerp(levels: map<int, real>, turn: int, lower: int, higher: int)
    requires turn !in levels
    requires lower in levels && 0 < lower <= turn
    requires forall k :: k in levels && 0 < k <= turn ==> k <= lower
    requires higher in levels && turn <= higher < NO_HIGHER
    requires forall k :: k in levels && turn <= k < NO_HIGHER ==> higher <= k
    ensures lower < turn < higher
    ensures ExpectedLevel(levels, turn)
         == Some(Lerp(levels[lower], levels[higher], (turn - lower) as real / (higher - lower) as real))
  {
    LowerUnique(levels.Keys, turn, lower);
    HigherUnique(levels.Keys, turn, higher);
  }

  /** The interpolation weight (turn - lower) / (higher - lower) lies in
      [0, 1], so the value lies between the two benchmarks. */
  lemma BetweenKeys(levels: map<int, real>, turn: int, lower: int, higher: int)
    requires turn !in levels
    requires lower in levels && 0 < lower <= turn
    requires forall k :: k in levels && 0 < k <= turn ==> k <= lower
    requires higher in levels && turn <= higher < NO_HIGHER
    requires forall k :: k in levels && turn <= k < NO_HIGHER ==> higher <= k
    ensures ExpectedLevel(levels, turn).Some?
    ensures var v := ExpectedLevel(levels, turn).value;
      (levels[lower] <= levels[higher] ==> levels[lower] <= v <= levels[higher])
      && (levels[higher] <= levels[lower] ==> levels[higher] <= v <= levels[lower])
  {
    BetweenKeysLerp(levels, turn, lower, higher);
    var a, b := levels[lower], levels[higher];
    var t := (turn - lower) as real / (higher - lower) as real;
    DivUnit((turn - lower) as real, (higher - lower) as real);
    LerpBetween(a, b, t);

  }

  /** The lookup fails exactly when the turn is missing, no key lies in
      (0, 999) on either side of it, and 999 itself is not a key. */
  lemma ExpectedLevelFails(levels: map<int, real>, turn: int)
    ensures ExpectedLevel(levels, turn).None? <==>
      turn !in levels
      && (forall k :: k in levels ==> !(0 < k <= turn) && !(turn <= k < NO_HIGHER))
      && NO_HIGHER !in levels
  {
    var lower := LowerOf(levels.Keys, turn);
    var higher := HigherOf(levels.Keys, turn);
    if turn !in levels && lower == 0 && higher !in levels {
      assert higher == NO_HIGHER;
    }
  }

  /** The benchmarks used until real data arrives: turns 3, 5, 7, 9 and 11
      at levels 1 to 5. */
  const DEFAULT_LEVELS: map<int, real> := map[3 := 1.0, 5 := 2.0, 7 := 3.0, 9 := 4.0, 11 := 5.0]

  /** Before turn 3 the first benchmark applies. */
  lemma DefaultLevelEarly()
    ensures ExpectedLevel(DEFAULT_LEVELS, 1) == Some(1.0)
  {
    assert DEFAULT_LEVELS.Keys == {3, 5, 7, 9, 11};
    BeforeFirstKey(DEFAULT_LEVELS, 1, 3);
  }

  /** Turn 4 lies halfway between the benchmarks for turns 3 and 5. */
  lemma DefaultLevelBetween()
    ensures ExpectedLevel(DEFAULT_LEVELS, 4) == Some(1.5)
  {
    assert 1.0 + (2.0 - 1.0) * 0.5 == 1.5;
    assert Lerp(1.0, 2.0, 0.5) == 1.5;
    assert (4 - 3) as real / (5 - 3) as real == 0.5 by {
      assert (4 - 3) as real == 1.0 && (5 - 3) as real == 2.0;
    }
    assert DEFAULT_LEVELS[3] == 1.0 && DEFAULT_LEVELS[5] == 2.0;
    assert DEFAULT_LEVELS.Keys == {3, 5, 7, 9, 11};
    forall k | k in DEFAULT_LEVELS && 0 < k <= 4
      ensures k <= 3
    {
    }
    forall k | k in DEFAULT_LEVELS && 4 <= k < NO_HIGHER
      ensures 5 <= k
    {
    }
    BetweenKeysLerp(DEFAULT_LEVELS, 4, 3, 5);
  }

  /** After turn 11 the last benchmark applies. */
  lemma DefaultLevelLate()
    ensures ExpectedLevel(DEFAULT_LEVELS, 12) == Some(5.0)
  {
    assert DEFAULT_LEVELS.Keys == {3, 5, 7, 9, 11};
    AfterLastKey(DEFAULT_LEVELS, 12, 11);
  }

  class MetaSnapshot {
    var avgLevelByTurn: map<int, real>
    var unitWinRates: map<string, real>

    /** Empty tables, then the default benchmarks. */
    constructor ()
      ensures avgLevelByTurn == DEFAULT_LEVELS && unitWinRates == map[]
    {
      avgLevelByTurn := map[];
      unitWinRates := map[];
      new;
      InitializeDefaults();
    }

    /** Writes the five default benchmarks over whatever is there. */
    method InitializeDefaults()
      modifies this`avgLevelByTurn
      ensures avgLevelByTurn == old(avgLevelByTurn)[3 := 1.0][5 := 2.0][7 := 3.0][9 := 4.0][11 := 5.0]
    {
      avgLevelByTurn := avgLevelByTurn[3 := 1.0];
      avgLevelByTurn := avgLevelByTurn[5 := 2.0];
      avgLevelByTurn := avgLevelByTurn[7 := 3.0];
      avgLevelByTurn := avgLevelByTurn[9 := 4.0];
      avgLevelByTurn := avgLevelByTurn[11 := 5.0];
    }

    /** `GetExpectedLevel`: an exact hit, else one pass over the keys for the
      nearest lower and higher turns, then the fallbacks and interpolation.
      None stands for the missing-key exception. */
    method GetExpectedLevel(turn: int) returns (r: Option<real>)
      ensures r == ExpectedLevel(avgLevelByTurn, turn)
      ensures turn in avgLevelByTurn ==> r == Some(avgLevelByTurn[turn])
    {
      var levels := avgLevelByTurn;
      if turn in levels {
        return Some(levels[turn]);
      }
      var closestLower := 0;
      var closestHigher := NO_HIGHER;
      var remaining := levels.Keys;
      while remaining != {}
        invariant remaining <= levels.Keys
        invariant IsLower(levels.Keys - remaining, turn, closestLower)
        invariant IsHigher(levels.Keys - remaining, turn, closestHigher)
        decreases remaining
      {
        NonEmptyHasElement(remaining);
        var key :| key in remaining;
        if key <= turn && key > closestLower {
          closestLower := key;
        }
        if key >= turn && key < closestHigher {
          closestHigher := key;
        }
        assert levels.Keys - (remaining - {key}) == (levels.Keys - remaining) + {key};
        remaining := remaining - {key};
      }
      assert levels.Keys - remaining == levels.Keys;
      LowerUnique(levels.Keys, turn, closestLower);
      HigherUnique(levels.Keys, turn, closestHigher);
      if closestLower == 0 {
        if closestHigher in levels {
          return Some(levels[closestHigher]);
        }
        return None;
      }
      if closestHigher == NO_HIGHER {
        return Some(levels[closestLower]);
      }
      var t := (turn - closestLower) as real / (closestHigher - closestLower) as real;
      return Some(Lerp(levels[closestLower], levels[closestHigher], t));
    }

    /** `GetUnitWinRate`: 50% for a unit with no data. */
    function GetUnitWinRate(unitName: string): (rate: real)
      reads this
      ensures unitName in unitWinRates ==> rate == unitWinRates[unitName]
      ensures unitName !in unitWinRates ==> rate == 50.0
    {
      if unitName in unitWinRates then unitWinRates[unitName] else 50.0
    }

    /** `IsUnitMeta`: strictly above 52%. */
    predicate IsUnitMeta(unitName: string)
      reads this
      ensures IsUnitMeta(unitName) ==> unitName in unitWinRates && unitWinRates[unitName] > 52.0
    {
      GetUnitWinRate(unitName) > 52.0
    }

    /** A unit without data is never meta; a known one is meta exactly when
      its recorded rate is above 52%. */
    lemma MetaUnits(unitName: string)
      ensures unitName !in unitWinRates ==> !IsUnitMeta(unitName)
      ensures unitName in unitWinRates ==> (IsUnitMeta(unitName) <==> unitWinRates[unitName] > 52.0)
    {
    }
  }
}
