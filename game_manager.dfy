/** The player's economy and health: gold per turn, spending, the health
    total, and the hero's one-off bonuses. */
module GameManager {
  import opened Common
  import opened GameData

  datatype GamePhase = Recruit | Combat

  /** Gold available at the start of a turn: 3 + turn, capped at 10. */
  function MaxGoldForTurn(turnNumber: int): (g: int)
    ensures g <= 10
    ensures turnNumber <= 7 ==> g == 3 + turnNumber
    ensures turnNumber >= 7 ==> g == 10
  {
    Min(3 + turnNumber, 10)
  }

  /** Later turns never give less gold. */
  lemma MaxGoldMonotone(earlier: int, later: int)
    requires earlier <= later
    ensures MaxGoldForTurn(earlier) <= MaxGoldForTurn(later)
  {
  }

  /** Does this hero's gold bonus apply on this turn? */
  predicate ExtraGoldApplies(hero: Option<HeroData>, turnNumber: int)
  {
    hero.Some? && hero.value.bonusType == ExtraGold && turnNumber == 1
  }

  /** Gold at the start of the recruit phase: the turn's maximum, plus the
      hero's bonus on turn 1 for an ExtraGold hero. */
  function RecruitGold(hero: Option<HeroData>, turnNumber: int): (g: int)
    ensures ExtraGoldApplies(hero, turnNumber) ==> g == MaxGoldForTurn(turnNumber) + hero.value.bonusValue
    ensures !ExtraGoldApplies(hero, turnNumber) ==> g == MaxGoldForTurn(turnNumber)
  {
    MaxGoldForTurn(turnNumber) + (if ExtraGoldApplies(hero, turnNumber) then hero.value.bonusValue else 0)
  }

  /** The only turn on which a hero can bring gold above the cap is turn 1. */
  lemma RecruitGoldCapped(hero: Option<HeroData>, turnNumber: int)
    requires turnNumber != 1
    ensures RecruitGold(hero, turnNumber) <= 10
  {
  }

  /** Health after a change: capped at the maximum from above, but not
      clamped from below, so it can go to zero or negative. */
  function HealthAfter(health: int, maxHealth: int, amount: int): (h: int)
    ensures h <= maxHealth || h == health + amount
    ensures h <= health + amount
    ensures health + amount <= maxHealth ==> h == health + amount
    ensures health + amount > maxHealth ==> h == maxHealth
  {
    if health + amount > maxHealth then maxHealth else health + amount
  }

  /** Healing never lowers health that is within the maximum, and damage is
      applied in full. */
  lemma HealthChange(health: int, maxHealth: int, amount: int)
    requires health <= maxHealth
    ensures amount >= 0 ==> health <= HealthAfter(health, maxHealth, amount) <= maxHealth
    ensures amount <= 0 ==> HealthAfter(health, maxHealth, amount) == health + amount
  {
  }

  class GameManager {
    var activeHero: Option<HeroData>
    var gold: int
    var maxGold: int
    var turnNumber: int
    var playerHealth: int
    var maxPlayerHealth: int
    var currentPhase: GamePhase
    /** Set while the player is between death and a revive or game over. */
    var isUnconscious: bool
    /** Units spawned onto the player's board by the hero's bonus. */
    var spawnedUnits: seq<UnitData>

    /** The field initialisers, with the hero selected in the editor. */
    constructor (hero: Option<HeroData>)
      ensures activeHero == hero
      ensures gold == 0 && maxGold == 3 && turnNumber == 1
      ensures playerHealth == 30 && maxPlayerHealth == 30
      ensures currentPhase == Recruit && !isUnconscious && spawnedUnits == []
    {
      activeHero := hero;
      gold, maxGold, turnNumber := 0, 3, 1;
      playerHealth, maxPlayerHealth := 30, 30;
      currentPhase := Recruit;
      isUnconscious := false;
      spawnedUnits := [];
    }

    /** `ApplyHeroBonuses`: an ExtraHealth hero raises the maximum and heals
      to it; a StartingUnit hero spawns its unit when the board and card
      prefab are wired (`boardWired`). Without a hero nothing changes. */
    method ApplyHeroBonuses(boardWired: bool)
      modifies this`maxPlayerHealth, this`playerHealth, this`spawnedUnits
      ensures activeHero.None? ==>
        maxPlayerHealth == old(maxPlayerHealth) && playerHealth == old(playerHealth)
        && spawnedUnits == old(spawnedUnits)
      ensures activeHero.Some? && activeHero.value.bonusType == ExtraHealth ==>
        maxPlayerHealth == old(maxPlayerHealth) + activeHero.value.bonusValue
        && playerHealth == maxPlayerHealth
      ensures !(activeHero.Some? && activeHero.value.bonusType == ExtraHealth) ==>
        maxPlayerHealth == old(maxPlayerHealth) && playerHealth == old(playerHealth)
      ensures activeHero.Some? && activeHero.value.bonusType == StartingUnit
              && activeHero.value.startingUnit.Some? && boardWired ==>
        spawnedUnits == old(spawnedUnits) + [activeHero.value.startingUnit.value]
      ensures !(activeHero.Some? && activeHero.value.bonusType == StartingUnit
              && activeHero.value.startingUnit.Some? && boardWired) ==>
        spawnedUnits == old(spawnedUnits)
    {
      if activeHero.None? {
        return;
      }
      var hero := activeHero.value;
      if hero.bonusType == ExtraHealth {
        maxPlayerHealth := maxPlayerHealth + hero.bonusValue;
        playerHealth := maxPlayerHealth;
      }
      if hero.bonusType == StartingUnit && hero.startingUnit.Some? {
        SpawnUnitOnBoard(hero.startingUnit.value, boardWired);
      }
    }

    /** `SpawnUnitOnBoard`: a no-op when the scene references are missing. */
    method SpawnUnitOnBoard(data: UnitData, boardWired: bool)
      modifies this`spawnedUnits
      ensures boardWired ==> spawnedUnits == old(spawnedUnits) + [data]
      ensures !boardWired ==> spawnedUnits == old(spawnedUnits)
    {
      if boardWired {
        spawnedUnits := spawnedUnits + [data];
      }
    }

    /** `StartRecruitPhase`: refills gold for the current turn. */
    method StartRecruitPhase()
      modifies this`currentPhase, this`maxGold, this`gold
      ensures currentPhase == Recruit
      ensures maxGold == MaxGoldForTurn(turnNumber)
      ensures gold == RecruitGold(activeHero, turnNumber)
    {
      currentPhase := Recruit;
      maxGold := Min(3 + turnNumber, 10);
      gold := maxGold;
      if activeHero.Some? && activeHero.value.bonusType == ExtraGold && turnNumber == 1 {
        gold := gold + activeHero.value.bonusValue;
      }
    }

    /** `TrySpendGold`: all or nothing. */
    method TrySpendGold(amount: int) returns (spent: bool)
      modifies this`gold
      ensures spent <==> old(gold) >= amount
      ensures spent ==> gold == old(gold) - amount
      ensures !spent ==> gold == old(gold)
    {
      if gold >= amount {
        gold := gold - amount;
        return true;
      }
      return false;
    }

    /** `ModifyHealth`: positive heals, negative damages. */
    method ModifyHealth(amount: int)
      modifies this`playerHealth
      ensures playerHealth == HealthAfter(old(playerHealth), maxPlayerHealth, amount)
    {
      playerHealth := playerHealth + amount;
      if playerHealth > maxPlayerHealth {
        playerHealth := maxPlayerHealth;
      }
    }
  }
}
