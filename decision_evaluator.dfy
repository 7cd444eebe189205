/** The evaluation engine: it keeps the current game's log and phase, turns
    each player action reported by the game into a rated DecisionEvaluation,
    appends it to the current phase and decides whether to show a hint.

    The game manager, the player profile and the shop's tavern tier are
    passed in where the source reads its singletons; the board contents are
    passed in as the unit data and card views the source collects from the
    scene. */
module DecisionEvaluator {
  import opened Common
  import opened GameData
  import opened DecisionTypes
  import opened EvaluationRules
  import opened MetaSnapshot
  import opened PlayerProfile
  import opened GameManager

  // ---------------------------------------------------------------------------
  // Gates
  // ---------------------------------------------------------------------------

  /** `ShouldShowHint`: hints must be on, the play must rate at or before the
      threshold in declaration order, and a known player's MMR must not exceed
      the hint limit. */
  predicate ShouldShowHint(showRealTimeHints: bool, minimumHintQuality: PlayQuality, maxMMRForHints: int,
                           profileMMR: Option<int>, quality: PlayQuality): (shown: bool)
    ensures !showRealTimeHints ==> !shown
    ensures profileMMR.Some? && profileMMR.value > maxMMRForHints ==> !shown
    ensures shown ==> Ordinal(quality) <= Ordinal(minimumHintQuality)
    ensures quality == Optimal && showRealTimeHints && (profileMMR.None? || profileMMR.value <= maxMMRForHints) ==> shown
    ensures (showRealTimeHints && Ordinal(quality) <= Ordinal(minimumHintQuality)
             && (profileMMR.None? || profileMMR.value <= maxMMRForHints)) ==> shown
  {
    showRealTimeHints
    && AtMost(quality, minimumHintQuality)
    && (profileMMR.None? || profileMMR.value <= maxMMRForHints)
  }

  /** If a play is hinted, every play declared before it is hinted too; so
      with the default threshold Poor, a Critical play is never hinted while
      an Optimal one is whenever hints are on and the MMR allows. */
  lemma HintGate(show: bool, minimum: PlayQuality, maxMMR: int, profileMMR: Option<int>, q: PlayQuality, earlier: PlayQuality)
    requires ShouldShowHint(show, minimum, maxMMR, profileMMR, q)
    requires Ordinal(earlier) <= Ordinal(q)
    ensures ShouldShowHint(show, minimum, maxMMR, profileMMR, earlier)
    ensures ShouldShowHint(show, minimum, maxMMR, profileMMR, Optimal)
  {
  }

  lemma DefaultThresholdSkipsCritical(show: bool, maxMMR: int, profileMMR: Option<int>)
    ensures !ShouldShowHint(show, Poor, maxMMR, profileMMR, Critical)
    ensures ShouldShowHint(show, Poor, maxMMR, profileMMR, Poor) <==>
      show && (profileMMR.None? || profileMMR.value <= maxMMR)
  {
  }

  /** The alternatives gate of the buy, reroll, level and end-turn hooks:
      suggestions are attached when the quality is declared at or before
      Questionable. */
  function WithAlternatives(e: DecisionEvaluation): (r: DecisionEvaluation)
    ensures AtMost(e.quality, Questionable) ==> r == e.(alternatives := AlternativesFor(e.decisionType))
    ensures !AtMost(e.quality, Questionable) ==> r == e
  {
    if Ordinal(e.quality) <= Ordinal(Questionable) then e.(alternatives := AlternativesFor(e.decisionType)) else e
  }

  /** `activeHero?.heroName ?? "Unknown"`. */
  function HeroNameOf(hero: Option<HeroData>): string
  {
    if hero.Some? then hero.value.heroName else "Unknown"
  }

  /** `GetCurrentTavernTier`: the shop's tier, or 1 without a shop. */
  function CurrentTavernTier(shopTier: Option<int>): (tier: int)
    ensures shopTier.Some? ==> tier == shopTier.value
    ensures shopTier.None? ==> tier == 1
  {
    if shopTier.Some? then shopTier.value else 1
  }

  // ---------------------------------------------------------------------------
  // Impact heuristics
  // ---------------------------------------------------------------------------

  /** `EstimatePurchaseImpact`: 5 per tier, scaled by quality. */
  function EstimatePurchaseImpact(unit: UnitData, quality: PlayQuality): (impact: real)
    ensures unit.tier > 0 ==> (impact > 0.0 <==> Ordinal(quality) <= Ordinal(Questionable))
  {
    var baseImpact := unit.tier as real * 5.0;
    match quality
    case Optimal => baseImpact * 1.5
    case Good => baseImpact
    case Acceptable => baseImpact * 0.7
    case Questionable => baseImpact * 0.3
    case Poor => -baseImpact * 0.5
    case Critical => -baseImpact
  }

  /** `EstimateLevelingImpact`: 15 per level gained, scaled by quality. */
  function EstimateLevelingImpact(quality: PlayQuality, fromLevel: int, toLevel: int): (impact: real)
    ensures toLevel > fromLevel ==> (impact > 0.0 <==> Ordinal(quality) <= Ordinal(Acceptable))
  {
    var baseImpact := (toLevel - fromLevel) as real * 15.0;
    match quality
    case Optimal => baseImpact
    case Good => baseImpact * 0.8
    case Acceptable => baseImpact * 0.6
    case Questionable => -baseImpact * 0.3
    case Poor => -baseImpact * 0.7
    case Critical => -baseImpact * 1.5
  }

  /** Reroll impact: -20 for a quality declared at or before Poor, else -5. */
  function RerollImpact(quality: PlayQuality): (impact: real)
    ensures impact < 0.0
    ensures impact == -5.0 <==> quality == Critical
    ensures quality != Critical ==> impact == -20.0
  {
    if Ordinal(quality) <= Ordinal(Poor) then -20.0 else -5.0
  }

  /** End-turn impact: -30 for a quality declared at or before Poor, else 0. */
  function EndTurnImpact(quality: PlayQuality): (impact: real)
    ensures impact <= 0.0
    ensures impact == 0.0 <==> quality == Critical
    ensures quality != Critical ==> impact == -30.0
  {
    if Ordinal(quality) <= Ordinal(Poor) then -30.0 else 0.0
  }

  // ---------------------------------------------------------------------------
  // The evaluation each hook records
  // ---------------------------------------------------------------------------

  /** The record `EvaluateBuyDecision` builds; `gold` is the gold left after
      paying `cost`. */
  function BuyEvaluation(turnNumber: int, gold: int, health: int, heroName: string, tavernTier: int,
                         unit: UnitData, cost: int, boardUnits: seq<UnitData>): (e: DecisionEvaluation)
    ensures e.decisionType == BuyUnit && e.turnNumber == turnNumber
    ensures e.goldBefore == gold + cost && e.goldAfter == gold
    ensures e.tavernTier == tavernTier && e.playerHealth == health && e.heroName == heroName
    ensures e.quality == EvaluatePurchase(unit, cost, gold + cost, tavernTier, boardUnits)
    ensures e.impactScore == EstimatePurchaseImpact(unit, e.quality)
    ensures |e.alternatives| == 2 <==> Ordinal(e.quality) <= Ordinal(Questionable)
  {
    var e := NewEvaluation(BuyUnit, turnNumber, gold + cost, gold, tavernTier, health, heroName);
    var q := EvaluatePurchase(unit, cost, e.goldBefore, e.tavernTier, boardUnits);
    WithAlternatives(e.(quality := q, impactScore := EstimatePurchaseImpact(unit, q)))
  }

  /** Since the price is added back before rating, a purchase is rated
      Critical exactly when the gold left afterwards is negative; otherwise
      it always gets suggestions unless it is Poor. */
  lemma BuyCriticalOnlyWhenOverdrawn(turnNumber: int, gold: int, health: int, heroName: string, tavernTier: int,
                                     unit: UnitData, cost: int, boardUnits: seq<UnitData>)
    ensures var e := BuyEvaluation(turnNumber, gold, health, heroName, tavernTier, unit, cost, boardUnits);
      (e.quality == Critical <==> gold < 0)
      && (gold >= 0 ==> (e.alternatives == [] <==> e.quality == Poor))
  {
  }

  /** The record `EvaluateSellDecision` builds: the sale is counted as one
      gold, no suggestions are attached and the impact is fixed at -10. */
  function SellEvaluation(turnNumber: int, gold: int, health: int, heroName: string, tavernTier: int,
                          unit: UnitData, boardUnits: seq<UnitData>): (e: DecisionEvaluation)
    requires IsInt32(unit.baseAttack)
    ensures e.decisionType == SellUnit && e.turnNumber == turnNumber
    ensures e.goldBefore == gold - 1 && e.goldAfter == gold
    ensures e.tavernTier == tavernTier && e.playerHealth == health && e.heroName == heroName
    ensures e.quality == EvaluateSell(unit, boardUnits, turnNumber)
    ensures e.alternatives == [] && e.impactScore == -10.0
  {
    var e := NewEvaluation(SellUnit, turnNumber, gold - 1, gold, tavernTier, health, heroName);
    e.(quality := EvaluateSell(unit, boardUnits, e.turnNumber), impactScore := -10.0)
  }

  /** The record `EvaluateRerollDecision` builds; `boardStrength` is
      `EstimateBoardStrength` of the player's board. */
  function RerollEvaluation(turnNumber: int, gold: int, health: int, heroName: string, tavernTier: int,
                            cost: int, boardStrength: int): (e: DecisionEvaluation)
    ensures e.decisionType == Reroll && e.turnNumber == turnNumber
    ensures e.goldBefore == gold + cost && e.goldAfter == gold
    ensures e.tavernTier == tavernTier && e.playerHealth == health && e.heroName == heroName
    ensures e.quality == EvaluateReroll(gold + cost, tavernTier, turnNumber, boardStrength)
    ensures e.impactScore == RerollImpact(e.quality)
    ensures |e.alternatives| == 2 <==> Ordinal(e.quality) <= Ordinal(Questionable)
  {
    var e := NewEvaluation(Reroll, turnNumber, gold + cost, gold, tavernTier, health, heroName);
    var q := EvaluateReroll(e.goldBefore, e.tavernTier, e.turnNumber, boardStrength);
    WithAlternatives(e.(quality := q, impactScore := RerollImpact(q)))
  }

  /** An early reroll (turn 1 or 2) is Critical, gets the small -5 impact and
      no suggestions. */
  lemma EarlyRerollRecord(turnNumber: int, gold: int, health: int, heroName: string, tavernTier: int,
                          cost: int, boardStrength: int)
    requires turnNumber <= 2
    ensures var e := RerollEvaluation(turnNumber, gold, health, heroName, tavernTier, cost, boardStrength);
      e.quality == Critical && e.impactScore == -5.0 && e.alternatives == []
  {
  }

  /** The record `EvaluateLevelUpDecision` builds once the meta lookup gave
      `expectedLevel`; its tier is the new level. */
  function LevelUpEvaluation(turnNumber: int, gold: int, health: int, heroName: string,
                             fromLevel: int, toLevel: int, cost: int, expectedLevel: real): (e: DecisionEvaluation)
    requires fromLevel >= 0
    ensures e.decisionType == UpgradeTavern && e.turnNumber == turnNumber
    ensures e.goldBefore == gold + cost && e.goldAfter == gold
    ensures e.tavernTier == toLevel && e.playerHealth == health && e.heroName == heroName
    ensures e.quality == EvaluateLevelingDecision(fromLevel, toLevel, gold + cost, expectedLevel)
    ensures e.impactScore == EstimateLevelingImpact(e.quality, fromLevel, toLevel)
    ensures |e.alternatives| == 2 <==> Ordinal(e.quality) <= Ordinal(Questionable)
  {
    var e := NewEvaluation(UpgradeTavern, turnNumber, gold + cost, gold, toLevel, health, heroName);
    var q := EvaluateLevelingDecision(fromLevel, toLevel, e.goldBefore, expectedLevel);
    WithAlternatives(e.(quality := q, impactScore := EstimateLevelingImpact(q, fromLevel, toLevel)))
  }

  /** The record `EvaluateEndTurnDecision` builds. */
  function EndTurnEvaluation(turnNumber: int, gold: int, health: int, heroName: string, tavernTier: int,
                             boardCount: int): (e: DecisionEvaluation)
    ensures e.decisionType == EndTurn && e.turnNumber == turnNumber
    ensures e.goldBefore == gold && e.goldAfter == gold
    ensures e.tavernTier == tavernTier && e.playerHealth == health && e.heroName == heroName
    ensures e.quality == EvaluateEndTurn(gold, turnNumber, boardCount)
    ensures e.impactScore == EndTurnImpact(e.quality)
    ensures |e.alternatives| == 2 <==> Ordinal(e.quality) <= Ordinal(Questionable)
  {
    var e := NewEvaluation(EndTurn, turnNumber, gold, gold, tavernTier, health, heroName);
    var q := EvaluateEndTurn(gold, e.turnNumber, boardCount);
    WithAlternatives(e.(quality := q, impactScore := EndTurnImpact(q)))
  }

  /** Ending an early turn with five or more gold is Critical and, by the
      two gates as written, carries neither an impact nor suggestions, while
      a Good end of turn carries -30 and two suggestions. */
  lemma EndTurnGates(turnNumber: int, gold: int, health: int, heroName: string, tavernTier: int, boardCount: int)
    ensures var e := EndTurnEvaluation(turnNumber, gold, health, heroName, tavernTier, boardCount);
      (gold >= 5 && turnNumber <= 10 ==> e.impactScore == 0.0 && e.alternatives == [])
      && (e.quality == Good ==> e.impactScore == -30.0 && |e.alternatives| == 2)
  {
  }

  // ---------------------------------------------------------------------------
  // The evaluator
  // ---------------------------------------------------------------------------

  predicate Distinct(phases: seq<PhaseEvaluation>)
  {
    forall i, j :: 0 <= i < j < |phases| ==> phases[i] != phases[j]
  }

  function ProfileMMR(profile: PlayerProfile?): Option<int>
    reads profile
  {
    if profile != null then Some(profile.mmr) else Option.None
  }

  class DecisionEvaluator {
    var coachingSettings: CoachingSettings
    var currentMeta: MetaSnapshot
    var currentGameLog: GameLog?
    var currentPhase: PhaseEvaluation?

    /** The current phase is the last phase of the current log, and the log
      holds every phase once. */
    predicate Valid()
      reads this, currentGameLog
    {
      (currentGameLog == null ==> currentPhase == null)
      && (currentGameLog != null ==>
            currentPhase != null
            && |currentGameLog.phases| > 0
            && currentGameLog.phases[|currentGameLog.phases| - 1] == currentPhase
            && Distinct(currentGameLog.phases))
    }

    /** No game is tracked until `StartNewGame`. */
    constructor (settings: CoachingSettings, meta: MetaSnapshot)
      ensures Valid()
      ensures coachingSettings == settings && currentMeta == meta
      ensures currentGameLog == null && currentPhase == null
    {
      coachingSettings := settings;
      currentMeta := meta;
      currentGameLog := null;
      currentPhase := null;
    }

    /** `StartNewGame`: a fresh log holding exactly one phase, turn 1. */
    method StartNewGame(heroName: string, profile: PlayerProfile?)
      modifies this
      ensures Valid()
      ensures currentGameLog != null && fresh(currentGameLog)
      ensures currentGameLog.heroName == heroName
      ensures currentGameLog.startingMMR == (if profile != null then profile.mmr else 0)
      ensures currentPhase != null && fresh(currentPhase)
      ensures currentGameLog.phases == [currentPhase]
      ensures currentPhase.turnNumber == 1 && currentPhase.decisions == []
      ensures coachingSettings == old(coachingSettings) && currentMeta == old(currentMeta)
    {
      var log := new GameLog(heroName);
      if profile != null {
        log.startingMMR := profile.mmr;
      }
      var phase := new PhaseEvaluation(1);
      log.phases := log.phases + [phase];
      currentGameLog := log;
      currentPhase := phase;
    }

    /** `StartNewPhase`: without a log nothing happens; otherwise the previous
      phase is scored and exactly one new phase is appended. */
    method StartNewPhase(turnNumber: int)
      requires Valid()
      modifies this`currentPhase, currentGameLog, currentPhase
      ensures Valid()
      ensures currentGameLog == old(currentGameLog)
      ensures old(currentGameLog) == null ==> currentPhase == old(currentPhase)
      ensures currentGameLog != null ==>
        fresh(currentPhase)
        && currentGameLog.phases == old(currentGameLog.phases) + [currentPhase]
        && currentPhase.turnNumber == turnNumber && currentPhase.decisions == []
        && old(currentPhase).overallScore == OverallScore(old(currentPhase).decisions)
        && old(currentPhase).decisions == old(currentPhase.decisions)
        && old(currentPhase).turnNumber == old(currentPhase.turnNumber)
      ensures currentGameLog != null ==>
        currentGameLog.heroName == old(currentGameLog.heroName)
        && currentGameLog.startingMMR == old(currentGameLog.startingMMR)
        && currentGameLog.finalPlacement == old(currentGameLog.finalPlacement)
        && currentGameLog.finalTurn == old(currentGameLog.finalTurn)
        && currentGameLog.finalMMR == old(currentGameLog.finalMMR)
        && currentGameLog.averageScore == old(currentGameLog.averageScore)
        && currentGameLog.criticalMistakes == old(currentGameLog.criticalMistakes)
        && currentGameLog.optimalPlays == old(currentGameLog.optimalPlays)
    {
      if currentGameLog == null {
        return;
      }
      if currentPhase != null {
        currentPhase.CalculateOverallScore();
      }
      var phase := new PhaseEvaluation(turnNumber);
      currentGameLog.phases := currentGameLog.phases + [phase];
      currentPhase := phase;
    }

    /** `RecordDecision`: appends to the current phase only and reports
      whether a hint is shown. */
    method RecordDecision(evaluation: DecisionEvaluation, profile: PlayerProfile?) returns (hinted: bool)
      requires Valid()
      modifies currentPhase
      ensures Valid()
      ensures old(currentPhase) != null ==> currentPhase.decisions == old(currentPhase.decisions) + [evaluation]
      ensures currentPhase == old(currentPhase)
      ensures currentPhase != null ==>
        currentPhase.turnNumber == old(currentPhase.turnNumber)
        && currentPhase.overallScore == old(currentPhase.overallScore)
      ensures currentGameLog != null ==>
        forall i :: 0 <= i < |currentGameLog.phases| - 1 ==>
          currentGameLog.phases[i].decisions == old(currentGameLog.phases[i].decisions)
      ensures hinted <==> (currentPhase != null
        && ShouldShowHint(coachingSettings.showRealTimeHints, coachingSettings.minimumHintQuality,
                          coachingSettings.maxMMRForHints, ProfileMMR(profile), evaluation.quality))
    {
      if currentPhase == null {
        return false;
      }
      currentPhase.decisions := currentPhase.decisions + [evaluation];
      hinted := ShouldShowHint(coachingSettings.showRealTimeHints, coachingSettings.minimumHintQuality,
                               coachingSettings.maxMMRForHints, ProfileMMR(profile), evaluation.quality);
    }

    /** `EvaluateBuyDecision`, called after the purchase has been paid. */
    method EvaluateBuyDecision(gm: GameManager?, profile: PlayerProfile?, shopTier: Option<int>,
                               unit: UnitData, cost: int, boardUnits: seq<UnitData>)
      requires Valid()
      modifies currentPhase
      ensures Valid()
      ensures currentPhase == old(currentPhase)
      ensures currentPhase != null ==>
        currentPhase.turnNumber == old(currentPhase.turnNumber)
        && currentPhase.overallScore == old(currentPhase.overallScore)
      ensures old(currentPhase) == null || gm == null ==> currentPhase == null || currentPhase.decisions == old(currentPhase.decisions)
      ensures old(currentPhase) != null && gm != null ==>
        currentPhase.decisions == old(currentPhase.decisions)
          + [BuyEvaluation(gm.turnNumber, gm.gold, gm.playerHealth, HeroNameOf(gm.activeHero),
                           CurrentTavernTier(shopTier), unit, cost, boardUnits)]
    {
      if currentPhase == null || gm == null {
        return;
      }
      var e := NewEvaluation(BuyUnit, gm.turnNumber, gm.gold + cost, gm.gold, CurrentTavernTier(shopTier),
                             gm.playerHealth, HeroNameOf(gm.activeHero));
      e := e.(quality := EvaluatePurchase(unit, cost, e.goldBefore, e.tavernTier, boardUnits));
      e := e.(impactScore := EstimatePurchaseImpact(unit, e.quality));
      if Ordinal(e.quality) <= Ordinal(Questionable) {
        var alternatives := GenerateAlternatives(BuyUnit);
        e := e.(alternatives := alternatives);
      }
      assert e == BuyEvaluation(gm.turnNumber, gm.gold, gm.playerHealth, HeroNameOf(gm.activeHero),
                                CurrentTavernTier(shopTier), unit, cost, boardUnits);
      var _ := RecordDecision(e, profile);
    }

    /** `EvaluateSellDecision`, called after the sale. */
    method EvaluateSellDecision(gm: GameManager?, profile: PlayerProfile?, shopTier: Option<int>,
                                unit: UnitData, boardUnits: seq<UnitData>)
      requires Valid() && IsInt32(unit.baseAttack)
      modifies currentPhase
      ensures Valid()
      ensures currentPhase == old(currentPhase)
      ensures currentPhase != null ==>
        currentPhase.turnNumber == old(currentPhase.turnNumber)
        && currentPhase.overallScore == old(currentPhase.overallScore)
      ensures old(currentPhase) == null || gm == null ==> currentPhase == null || currentPhase.decisions == old(currentPhase.decisions)
      ensures old(currentPhase) != null && gm != null ==>
        currentPhase.decisions == old(currentPhase.decisions)
          + [SellEvaluation(gm.turnNumber, gm.gold, gm.playerHealth, HeroNameOf(gm.activeHero),
                            CurrentTavernTier(shopTier), unit, boardUnits)]
    {
      if currentPhase == null || gm == null {
        return;
      }
      var e := NewEvaluation(SellUnit, gm.turnNumber, gm.gold - 1, gm.gold, CurrentTavernTier(shopTier),
                             gm.playerHealth, HeroNameOf(gm.activeHero));
      e := e.(quality := EvaluateSell(unit, boardUnits, e.turnNumber));
      e := e.(impactScore := -10.0);
      var _ := RecordDecision(e, profile);
    }

    /** `EvaluateRerollDecision`, called after the reroll was paid. */
    method EvaluateRerollDecision(gm: GameManager?, profile: PlayerProfile?, shopTier: Option<int>,
                                  cost: int, boardCards: seq<Option<CardView>>)
      requires Valid()
      modifies currentPhase
      ensures Valid()
      ensures currentPhase == old(currentPhase)
      ensures currentPhase != null ==>
        currentPhase.turnNumber == old(currentPhase.turnNumber)
        && currentPhase.overallScore == old(currentPhase.overallScore)
      ensures old(currentPhase) == null || gm == null ==> currentPhase == null || currentPhase.decisions == old(currentPhase.decisions)
      ensures old(currentPhase) != null && gm != null ==>
        currentPhase.decisions == old(currentPhase.decisions)
          + [RerollEvaluation(gm.turnNumber, gm.gold, gm.playerHealth, HeroNameOf(gm.activeHero),
                              CurrentTavernTier(shopTier), cost, BoardStrength(boardCards))]
    {
      if currentPhase == null || gm == null {
        return;
      }
      var e := NewEvaluation(Reroll, gm.turnNumber, gm.gold + cost, gm.gold, CurrentTavernTier(shopTier),
                             gm.playerHealth, HeroNameOf(gm.activeHero));
      var boardStrength := EstimateBoardStrength(boardCards);
      e := e.(quality := EvaluateReroll(e.goldBefore, e.tavernTier, e.turnNumber, boardStrength));
      e := e.(impactScore := RerollImpact(e.quality));
      if Ordinal(e.quality) <= Ordinal(Questionable) {
        var alternatives := GenerateAlternatives(Reroll);
        e := e.(alternatives := alternatives);
      }
      var _ := RecordDecision(e, profile);
    }

    /** `EvaluateLevelUpDecision`, called after the upgrade was paid. The meta
      lookup for the current turn comes first; when it fails (the source's
      missing-key exception) nothing is recorded. */
    method EvaluateLevelUpDecision(gm: GameManager?, profile: PlayerProfile?,
                                   fromLevel: int, toLevel: int, cost: int)
      requires Valid() && fromLevel >= 0
      modifies currentPhase
      ensures Valid()
      ensures currentPhase == old(currentPhase)
      ensures currentPhase != null ==>
        currentPhase.turnNumber == old(currentPhase.turnNumber)
        && currentPhase.overallScore == old(currentPhase.overallScore)
      ensures old(currentPhase) == null || gm == null
              || ExpectedLevel(currentMeta.avgLevelByTurn, gm.turnNumber).None? ==>
        currentPhase == null || currentPhase.decisions == old(currentPhase.decisions)
      ensures old(currentPhase) != null && gm != null
              && ExpectedLevel(currentMeta.avgLevelByTurn, gm.turnNumber).Some? ==>
        currentPhase.decisions == old(currentPhase.decisions)
          + [LevelUpEvaluation(gm.turnNumber, gm.gold, gm.playerHealth, HeroNameOf(gm.activeHero),
                               fromLevel, toLevel, cost,
                               ExpectedLevel(currentMeta.avgLevelByTurn, gm.turnNumber).value)]
    {
      if currentPhase == null || gm == null {
        return;
      }
      var e := NewEvaluation(UpgradeTavern, gm.turnNumber, gm.gold + cost, gm.gold, toLevel,
                             gm.playerHealth, HeroNameOf(gm.activeHero));
      var expected := currentMeta.GetExpectedLevel(e.turnNumber);
      if expected.None? {
        return;
      }
      e := e.(quality := EvaluateLevelingDecision(fromLevel, toLevel, e.goldBefore, expected.value));
      e := e.(impactScore := EstimateLevelingImpact(e.quality, fromLevel, toLevel));
      if Ordinal(e.quality) <= Ordinal(Questionable) {
        var alternatives := GenerateAlternatives(UpgradeTavern);
        e := e.(alternatives := alternatives);
      }
      assert e == LevelUpEvaluation(gm.turnNumber, gm.gold, gm.playerHealth, HeroNameOf(gm.activeHero),
                                    fromLevel, toLevel, cost, expected.value);
      var _ := RecordDecision(e, profile);
    }

    /** `EvaluateEndTurnDecision`; `boardCount` is the number of cards on the
      player's board. */
    method EvaluateEndTurnDecision(gm: GameManager?, profile: PlayerProfile?, shopTier: Option<int>, boardCount: int)
      requires Valid()
      modifies currentPhase
      ensures Valid()
      ensures currentPhase == old(currentPhase)
      ensures currentPhase != null ==>
        currentPhase.turnNumber == old(currentPhase.turnNumber)
        && currentPhase.overallScore == old(currentPhase.overallScore)
      ensures old(currentPhase) == null || gm == null ==> currentPhase == null || currentPhase.decisions == old(currentPhase.decisions)
      ensures old(currentPhase) != null && gm != null ==>
        currentPhase.decisions == old(currentPhase.decisions)
          + [EndTurnEvaluation(gm.turnNumber, gm.gold, gm.playerHealth, HeroNameOf(gm.activeHero),
                               CurrentTavernTier(shopTier), boardCount)]
    {
      if currentPhase == null || gm == null {
        return;
      }
      var goldLeft := gm.gold;
      var e := NewEvaluation(EndTurn, gm.turnNumber, goldLeft, goldLeft, CurrentTavernTier(shopTier),
                             gm.playerHealth, HeroNameOf(gm.activeHero));
      e := e.(quality := EvaluateEndTurn(goldLeft, e.turnNumber, boardCount));
      e := e.(impactScore := EndTurnImpact(e.quality));
      if Ordinal(e.quality) <= Ordinal(Questionable) {
        var alternatives := GenerateAlternatives(EndTurn);
        e := e.(alternatives := alternatives);
      }
      var _ := RecordDecision(e, profile);
    }

    /** `EndGame`: stamps the result and computes the log's statistics. The
      last phase is not scored first, so it enters the average with whatever
      score it holds. Returns whether the post-mortem is to be shown, which
      needs the setting on and a post-mortem screen assigned. */
    method EndGame(placement: int, gm: GameManager, profile: PlayerProfile?, postMortemWired: bool)
      returns (showPostMortem: bool)
      requires Valid()
      modifies currentGameLog
      ensures Valid()
      ensures currentGameLog != null ==>
        currentGameLog.finalPlacement == placement && currentGameLog.finalTurn == gm.turnNumber
        && currentGameLog.finalMMR == (if profile != null then profile.mmr else old(currentGameLog.finalMMR))
        && currentGameLog.phases == old(currentGameLog.phases)
        && currentGameLog.heroName == old(currentGameLog.heroName)
        && currentGameLog.startingMMR == old(currentGameLog.startingMMR)
        && currentGameLog.criticalMistakes == PhaseMistakes(currentGameLog.phases)
        && currentGameLog.optimalPlays == PhaseOptimals(currentGameLog.phases)
        && currentGameLog.averageScore == PhaseScoreSum(currentGameLog.phases) / (|currentGameLog.phases| as real)
      ensures showPostMortem <==> currentGameLog != null && coachingSettings.showPostMortem && postMortemWired
    {
      if currentGameLog == null {
        return false;
      }
      currentGameLog.finalPlacement := placement;
      currentGameLog.finalTurn := gm.turnNumber;
      if profile != null {
        currentGameLog.finalMMR := profile.mmr;
      }
      currentGameLog.CalculateStats();
      showPostMortem := coachingSettings.showPostMortem && postMortemWired;
    }
  }
}
