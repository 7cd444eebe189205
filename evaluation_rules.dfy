/** The coach's rules of thumb: each rule maps the game context of one
    decision to a PlayQuality, checking its conditions in a fixed priority
    order. Remember that a lower ordinal is a better play. */
module EvaluationRules {
  import opened Common
  import opened GameData
  import opened DecisionTypes

  // ---------------------------------------------------------------------------
  // Leveling
  // ---------------------------------------------------------------------------

  /** The tavern upgrade price table, indexed by the current level. */
  const LEVEL_COSTS: seq<int> := [0, 5, 7, 8, 9, 10, 11]

  function GetLevelUpCost(currentLevel: int): (cost: int)
    requires currentLevel >= 0
    ensures currentLevel < |LEVEL_COSTS| ==> cost == LEVEL_COSTS[currentLevel]
    ensures currentLevel >= |LEVEL_COSTS| ==> cost == 11
    ensures 0 <= cost <= 11
  {
    if currentLevel < |LEVEL_COSTS| then LEVEL_COSTS[currentLevel] else 11
  }

  /** Upgrading never gets cheaper as the level rises, and only level 0 is
      free. */
  lemma LevelUpCostMonotone(a: int, b: int)
    requires 0 <= a <= b
    ensures GetLevelUpCost(a) <= GetLevelUpCost(b)
    ensures GetLevelUpCost(b) == 0 <==> b == 0
  {
  }

  /** `EvaluateLevelingDecision` after its meta lookup: `expectedLevel` is
      the value `GetExpectedLevel(currentTurn)` returned. The gold check comes
      first; then the gap between the target level and the meta pace is
      banded at -1.5, -0.5, 0.5 and 1.5. */
  function EvaluateLevelingDecision(currentLevel: int, targetLevel: int, gold: int, expectedLevel: real): (q: PlayQuality)
    requires currentLevel >= 0
    ensures q == Critical <==> gold - GetLevelUpCost(currentLevel) < 3
    ensures q == Optimal <==>
      gold - GetLevelUpCost(currentLevel) >= 3 && targetLevel as real - expectedLevel < -1.5
    ensures q == Good <==>
      gold - GetLevelUpCost(currentLevel) >= 3 && -1.5 <= targetLevel as real - expectedLevel < -0.5
    ensures q == Acceptable <==>
      gold - GetLevelUpCost(currentLevel) >= 3 && -0.5 <= targetLevel as real - expectedLevel < 0.5
    ensures q == Questionable <==>
      gold - GetLevelUpCost(currentLevel) >= 3 && 0.5 <= targetLevel as real - expectedLevel < 1.5
    ensures q == Poor <==>
      gold - GetLevelUpCost(currentLevel) >= 3 && targetLevel as real - expectedLevel >= 1.5
  {
    var levelCost := GetLevelUpCost(currentLevel);
    if gold - levelCost < 3 then Critical
    else
      var levelDelta := targetLevel as real - expectedLevel;
      if levelDelta < -1.5 then Optimal
      else if levelDelta < -0.5 then Good
      else if levelDelta < 0.5 then Acceptable
      else if levelDelta < 1.5 then Questionable
      else Poor
  }

  /** Leaving yourself broke is Critical whatever the meta says. */
  lemma LevelingBrokeIsCritical(currentLevel: int, targetLevel: int, gold: int, e1: real, e2: real)
    requires currentLevel >= 0 && gold - GetLevelUpCost(currentLevel) < 3
    ensures EvaluateLevelingDecision(currentLevel, targetLevel, gold, e1) == Critical
    ensures EvaluateLevelingDecision(currentLevel, targetLevel, gold, e2) == Critical
  {
  }

  /** Being further ahead of the meta pace never rates better. */
  lemma LevelingMonotone(currentLevel: int, gold: int, target1: int, expected1: real, target2: int, expected2: real)
    requires currentLevel >= 0
    requires target1 as real - expected1 <= target2 as real - expected2
    ensures Ordinal(EvaluateLevelingDecision(currentLevel, target1, gold, expected1))
         <= Ordinal(EvaluateLevelingDecision(currentLevel, target2, gold, expected2))
  {
  }

  /** Leveling exactly on pace with gold to spare is Acceptable; two levels
      behind is Optimal; two ahead is Poor. */
  lemma LevelingOnPace(currentLevel: int, gold: int, level: int)
    requires currentLevel >= 0 && gold - GetLevelUpCost(currentLevel) >= 3
    ensures EvaluateLevelingDecision(currentLevel, level, gold, level as real) == Acceptable
    ensures EvaluateLevelingDecision(currentLevel, level, gold, level as real + 2.0) == Optimal
    ensures EvaluateLevelingDecision(currentLevel, level, gold, level as real - 2.0) == Poor
  {
  }

  // ---------------------------------------------------------------------------
  // Economy
  // ---------------------------------------------------------------------------

  /** `EvaluateReroll`; the tavern tier is accepted and ignored, as in the
      source. */
  function EvaluateReroll(gold: int, tavernTier: int, turnNumber: int, boardStrength: int): (q: PlayQuality)
    ensures q != Optimal
    ensures q == Critical <==> turnNumber <= 2
    ensures q == Poor <==> turnNumber > 2 && gold < 4
    ensures q == Questionable <==> turnNumber > 2 && gold >= 4 && boardStrength < 3
    ensures q == Acceptable <==> turnNumber >= 5 && gold >= 6 && boardStrength >= 3
  {
    if turnNumber <= 2 then Critical
    else if gold < 4 then Poor
    else if boardStrength < 3 then Questionable
    else if turnNumber >= 5 && gold >= 6 then Acceptable
    else Good
  }

  /** Does `existing` share the new unit's (real) tribe? */
  predicate Synergizes(newUnit: UnitData, existing: UnitData)
  {
    existing.tribe == newUnit.tribe && newUnit.tribe != Tribe.None
  }

  /** The value `CountSynergies` returns. */
  function SynergyCount(newUnit: UnitData, board: seq<UnitData>): (n: nat)
    ensures n <= |board|
    ensures newUnit.tribe == Tribe.None ==> n == 0
  {
    if board == [] then 0
    else SynergyCount(newUnit, board[..|board| - 1]) + (if Synergizes(newUnit, board[|board| - 1]) then 1 else 0)
  }

  /** The board positions that share the new unit's tribe. */
  function SynergyPositions(newUnit: UnitData, board: seq<UnitData>): set<int>
  {
    set i | 0 <= i < |board| && Synergizes(newUnit, board[i])
  }

  /** The synergy count is exactly the number of same-tribe board units. */
  lemma {:induction false} SynergyCountIsCardinality(newUnit: UnitData, board: seq<UnitData>)
    ensures SynergyCount(newUnit, board) == |SynergyPositions(newUnit, board)|
  {
    if board == [] {
      assert SynergyPositions(newUnit, board) == {};
    } else {
      var n := |board| - 1;
      var prefix := board[..n];
      SynergyCountIsCardinality(newUnit, prefix);
      var before := SynergyPositions(newUnit, prefix);
      var after := SynergyPositions(newUnit, board);
      if Synergizes(newUnit, board[n]) {
        assert after == before + {n};
        assert n !in before;
      } else {
        assert after == before;
      }
    }
  }

  /** `CountSynergies`: one pass over the board. */
  method CountSynergies(newUnit: UnitData, board: seq<UnitData>) returns (count: nat)
    ensures count == SynergyCount(newUnit, board)
    ensures count <= |board|
  {
    count := 0;
    for i := 0 to |board|
      invariant count == SynergyCount(newUnit, board[..i])
    {
      assert board[..i + 1][..i] == board[..i];
      if board[i].tribe == newUnit.tribe && newUnit.tribe != Tribe.None {
        count := count + 1;
      }
    }
    assert board[..|board|] == board;
  }

  /** `EvaluatePurchase`; `boardUnits` holds the unit data of the cards
      already on the board. */
  function EvaluatePurchase(unit: UnitData, cost: int, gold: int, tavernTier: int, boardUnits: seq<UnitData>): (q: PlayQuality)
    ensures q == Critical <==> cost > gold
    ensures q != Questionable
    ensures q == Poor <==> cost <= gold && SynergyCount(unit, boardUnits) == 0 && |boardUnits| >= 3
    ensures q == Good <==> cost <= gold && SynergyCount(unit, boardUnits) >= 2
    ensures q == Optimal <==>
      cost <= gold && !(SynergyCount(unit, boardUnits) == 0 && |boardUnits| >= 3)
      && SynergyCount(unit, boardUnits) < 2 && unit.tier > tavernTier
    ensures q == Acceptable <==>
      cost <= gold && !(SynergyCount(unit, boardUnits) == 0 && |boardUnits| >= 3)
      && SynergyCount(unit, boardUnits) < 2 && unit.tier <= tavernTier
  {
    if cost > gold then Critical
    else
      var synergyCount := SynergyCount(unit, boardUnits);
      if synergyCount == 0 && |boardUnits| >= 3 then Poor
      else if synergyCount >= 2 then Good
      else if unit.tier > tavernTier then Optimal
      else Acceptable
  }

  /** A tribeless unit bought onto a board of three or more is rated Poor
      whenever it is affordable. */
  lemma TribelessPurchaseIsPoor(unit: UnitData, cost: int, gold: int, tavernTier: int, boardUnits: seq<UnitData>)
    requires unit.tribe == Tribe.None && cost <= gold && |boardUnits| >= 3
    ensures EvaluatePurchase(unit, cost, gold, tavernTier, boardUnits) == Poor
  {
  }

  // ---------------------------------------------------------------------------
  // Selling
  // ---------------------------------------------------------------------------

  const INT32_MIN: int := -0x8000_0000
  const INT32_MAX: int := 0x7FFF_FFFF

  predicate IsInt32(x: int)
  {
    INT32_MIN <= x <= INT32_MAX
  }

  /** C# `int` addition wraps modulo 2^32. */
  function AddInt32(a: int, b: int): (r: int)
    requires IsInt32(a) && IsInt32(b)
    ensures IsInt32(r)
    ensures IsInt32(a + b) ==> r == a + b
  {
    (a + b - INT32_MIN) % 0x1_0000_0000 + INT32_MIN
  }

  /** `EvaluateSell`. The "likely buffed" test compares the base attack with
      itself plus two; with 32-bit wrap-around that holds only at the top two
      int values. */
  function EvaluateSell(unit: UnitData, boardUnits: seq<UnitData>, turnNumber: int): (q: PlayQuality)
    requires IsInt32(unit.baseAttack)
    ensures q == Poor <==> unit.baseAttack >= INT32_MAX - 1
    ensures q == Poor || q == Questionable || q == Acceptable
    ensures q == Acceptable <==> unit.baseAttack < INT32_MAX - 1 && turnNumber > 3 && SynergyCount(unit, boardUnits) < 2
  {
    if unit.baseAttack > AddInt32(unit.baseAttack, 2) then Poor
    else if turnNumber <= 3 then Questionable
    else if SynergyCount(unit, boardUnits) >= 2 then Questionable
    else Acceptable
  }

  /** For every attack a real unit has, selling is never rated Poor: the
      only outcomes are Questionable and Acceptable. */
  lemma SellNeverPoor(unit: UnitData, boardUnits: seq<UnitData>, turnNumber: int)
    requires IsInt32(unit.baseAttack) && unit.baseAttack < INT32_MAX - 1
    ensures EvaluateSell(unit, boardUnits, turnNumber) in {Questionable, Acceptable}
  {
  }

  // ---------------------------------------------------------------------------
  // Triples and ending the turn
  // ---------------------------------------------------------------------------

  function EvaluateTripleAcceptance(tavernTier: int, turnNumber: int, hasDiscoveryChoice: bool): (q: PlayQuality)
    ensures q == Optimal <==> turnNumber <= 4
    ensures q == Good <==> turnNumber > 4 && hasDiscoveryChoice && tavernTier < 6
    ensures Ordinal(q) <= Ordinal(Acceptable)
  {
    if turnNumber <= 4 then Optimal
    else if hasDiscoveryChoice && tavernTier < 6 then Good
    else Acceptable
  }

  function EvaluateEndTurn(goldLeft: int, turnNumber: int, boardCount: int): (q: PlayQuality)
    ensures q == Critical <==> goldLeft >= 5 && turnNumber <= 10
    ensures q == Poor <==> !(goldLeft >= 5 && turnNumber <= 10) && boardCount < 3
    ensures q == Acceptable <==> !(goldLeft >= 5 && turnNumber <= 10) && boardCount >= 3 && goldLeft <= 2
    ensures q != Optimal && q != Questionable
  {
    if goldLeft >= 5 && turnNumber <= 10 then Critical
    else if boardCount < 3 then Poor
    else if goldLeft <= 2 then Acceptable
    else Good
  }

  /** Spending down to at most two gold with a full enough board is never
      worse than Acceptable. */
  lemma EndTurnSpentIsFine(goldLeft: int, turnNumber: int, boardCount: int)
    requires goldLeft <= 2 && boardCount >= 3
    ensures Ordinal(EvaluateEndTurn(goldLeft, turnNumber, boardCount)) <= Ordinal(Acceptable)
  {
  }

  // ---------------------------------------------------------------------------
  // Board strength
  // ---------------------------------------------------------------------------

  /** What one board slot adds: nothing for an empty slot or a card without
      unit data, else attack + health + 2 * tier, plus 5 when golden. */
  function CardStrength(slot: Option<CardView>): int
  {
    match slot
    case None => 0
    case Some(card) =>
      match card.unitData
      case None => 0
      case Some(data) =>
        card.currentAttack + card.currentHealth + data.tier * 2 + (if card.isGolden then 5 else 0)
    }

  /** The value `EstimateBoardStrength` returns. */
  function BoardStrength(board: seq<Option<CardView>>): int
  {
    if board == [] then 0 else BoardStrength(board[..|board| - 1]) + CardStrength(board[|board| - 1])
  }

  /** Strength is additive over board segments; in particular empty slots
      contribute nothing wherever they sit. */
  lemma {:induction false} BoardStrengthAppend(xs: seq<Option<CardView>>, ys: seq<Option<CardView>>)
    ensures BoardStrength(xs + ys) == BoardStrength(xs) + BoardStrength(ys)
  {
    if ys == [] {
      assert xs + ys == xs;
    } else {
      assert (xs + ys)[..|xs + ys| - 1] == xs + ys[..|ys| - 1];
      assert (xs + ys)[|xs + ys| - 1] == ys[|ys| - 1];
      BoardStrengthAppend(xs, ys[..|ys| - 1]);
    }
  }

  /** A slot that is empty, or holds a card with non-negative stats and a
      tier of at least 1. */
  predicate Healthy(slot: Option<CardView>)
  {
    slot.Some? && slot.value.unitData.Some? ==>
      slot.value.currentAttack >= 0 && slot.value.currentHealth >= 0 && slot.value.unitData.value.tier >= 1
  }

  /** A board of healthy slots has non-negative strength. */
  lemma {:induction false} BoardStrengthNonNegative(board: seq<Option<CardView>>)
    requires forall i :: 0 <= i < |board| ==> Healthy(board[i])
    ensures BoardStrength(board) >= 0
  {
    if board != [] {
      BoardStrengthNonNegative(board[..|board| - 1]);
    }
  }

  /** `EstimateBoardStrength`: one pass, skipping null slots and cards. */
  method EstimateBoardStrength(board: seq<Option<CardView>>) returns (strength: int)
    ensures strength == BoardStrength(board)
  {
    strength := 0;
    for i := 0 to |board|
      invariant strength == BoardStrength(board[..i])
    {
      assert board[..i + 1][..i] == board[..i];
      if board[i].None? || board[i].value.unitData.None? {
        continue;
      }
      var unit := board[i].value;
      strength := strength + unit.currentAttack + unit.currentHealth;
      strength := strength + unit.unitData.value.tier * 2;
      if unit.isGolden {
        strength := strength + 5;
      }
    }
    assert board[..|board|] == board;
  }

  // ---------------------------------------------------------------------------
  // Alternatives
  // ---------------------------------------------------------------------------

  /** The decision types the coach has two suggestions for. */
  predicate HasAlternatives(t: DecisionType)
  {
    t == Reroll || t == UpgradeTavern || t == BuyUnit || t == EndTurn
  }

  /** The suggestions offered for a decision type: two for the four types
      the coach knows about, none otherwise. */
  function AlternativesFor(t: DecisionType): (alternatives: seq<string>)
    ensures HasAlternatives(t) <==> |alternatives| == 2
    ensures !HasAlternatives(t) <==> alternatives == []
    ensures forall k :: 0 <= k < |alternatives| ==> |alternatives[k]| > 0
    ensures |alternatives| == 2 ==> alternatives[0] != alternatives[1]
  {
    match t
    case Reroll => ["Save gold for next turn", "Level up tavern instead"]
    case UpgradeTavern => ["Strengthen current board first", "Save gold for better units"]
    case BuyUnit => ["Look for synergy units instead", "Save gold for tavern upgrade"]
    case EndTurn => ["Spend remaining gold on rerolls", "Upgrade tavern tier"]
    case _ => []
  }

  /** `GenerateAlternatives`: builds the suggestion list one entry at a
      time. The decision argument of the source is unused and not taken. */
  method GenerateAlternatives(t: DecisionType) returns (alternatives: seq<string>)
    ensures alternatives == AlternativesFor(t)
  {
    alternatives := [];
    match t {
      case Reroll =>
        alternatives := alternatives + ["Save gold for next turn"];
        alternatives := alternatives + ["Level up tavern instead"];
      case UpgradeTavern =>
        alternatives := alternatives + ["Strengthen current board first"];
        alternatives := alternatives + ["Save gold for better units"];
      case BuyUnit =>
        alternatives := alternatives + ["Look for synergy units instead"];
        alternatives := alternatives + ["Save gold for tavern upgrade"];
      case EndTurn =>
        alternatives := alternatives + ["Spend remaining gold on rerolls"];
        alternatives := alternatives + ["Upgrade tavern tier"];
      case _ =>
    }
  }
}
