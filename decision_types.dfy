/** The decision log's data model: rating enums, one evaluated decision, a
    per-turn phase with its weighted score, the whole-game log with its
    counters, and the player's coaching settings. */
module DecisionTypes {
  import opened Common

  // ---------------------------------------------------------------------------
  // Enums
  // ---------------------------------------------------------------------------

  /** Declared best first: every `<=` on qualities compares these ordinals, so
      a LOWER ordinal is a BETTER play. */
  datatype PlayQuality = Optimal | Good | Acceptable | Questionable | Poor | Critical

  function Ordinal(q: PlayQuality): (k: nat)
    ensures k < 6
  {
    match q
    case Optimal => 0
    case Good => 1
    case Acceptable => 2
    case Questionable => 3
    case Poor => 4
    case Critical => 5
  }

  /** The cast `(PlayQuality)k` for a declared value k. */
  function QualityOf(k: nat): (q: PlayQuality)
    requires k < 6
    ensures Ordinal(q) == k
  {
    if k == 0 then Optimal
    else if k == 1 then Good
    else if k == 2 then Acceptable
    else if k == 3 then Questionable
    else if k == 4 then Poor
    else Critical
  }

  /** C#'s `q <= bound` on the enum. */
  predicate AtMost(q: PlayQuality, bound: PlayQuality)
  {
    Ordinal(q) <= Ordinal(bound)
  }

  lemma OrdinalInjective(a: PlayQuality, b: PlayQuality)
    requires Ordinal(a) == Ordinal(b)
    ensures a == b
  {
  }

  datatype DecisionType =
    | BuyUnit | SellUnit | Reroll | UpgradeTavern | FreezeShop
    | PlayUnit | PositionUnit | TripleDecision
    | EndTurn
    | UseHeroPower
    | GoldManagement | LevelTiming

  function TypeOrdinal(t: DecisionType): (k: nat)
    ensures k < 12
  {
    match t
    case BuyUnit => 0
    case SellUnit => 1
    case Reroll => 2
    case UpgradeTavern => 3
    case FreezeShop => 4
    case PlayUnit => 5
    case PositionUnit => 6
    case TripleDecision => 7
    case EndTurn => 8
    case UseHeroPower => 9
    case GoldManagement => 10
    case LevelTiming => 11
  }

  /** The cast `(DecisionType)k` for a declared value k. */
  function TypeOf(k: nat): (t: DecisionType)
    requires k < 12
    ensures TypeOrdinal(t) == k
  {
    if k == 0 then BuyUnit
    else if k == 1 then SellUnit
    else if k == 2 then Reroll
    else if k == 3 then UpgradeTavern
    else if k == 4 then FreezeShop
    else if k == 5 then PlayUnit
    else if k == 6 then PositionUnit
    else if k == 7 then TripleDecision
    else if k == 8 then EndTurn
    else if k == 9 then UseHeroPower
    else if k == 10 then GoldManagement
    else LevelTiming
  }

  datatype CoachingGoal = JustHaveFun | ImproveGradually | CompetitiveClimb | Tryhard

  // ---------------------------------------------------------------------------
  // One evaluated decision
  // ---------------------------------------------------------------------------

  /** A recorded decision. The free-text fields (`actionTaken`, `reasoning`)
      and the `Time.time` stamp are not modelled. */
  datatype DecisionEvaluation = DecisionEvaluation(
    decisionType: DecisionType,
    quality: PlayQuality,
    turnNumber: int,
    goldBefore: int,
    goldAfter: int,
    tavernTier: int,
    playerHealth: int,
    heroName: string,
    alternatives: seq<string>,
    impactScore: real)

  /** `new DecisionEvaluation { type = ..., turnNumber = ..., ... }`: the
      constructor starts with no alternatives; quality and impact keep their
      zero defaults (Optimal, 0) until the evaluator assigns them. */
  function NewEvaluation(decisionType: DecisionType, turnNumber: int, goldBefore: int, goldAfter: int,
                         tavernTier: int, playerHealth: int, heroName: string): (e: DecisionEvaluation)
    ensures e.alternatives == [] && e.quality == Optimal && e.impactScore == 0.0
    ensures e.decisionType == decisionType && e.turnNumber == turnNumber
    ensures e.goldBefore == goldBefore && e.goldAfter == goldAfter
    ensures e.tavernTier == tavernTier && e.playerHealth == playerHealth && e.heroName == heroName
  {
    DecisionEvaluation(decisionType, Optimal, turnNumber, goldBefore, goldAfter,
                       tavernTier, playerHealth, heroName, [], 0.0)
  }

  // ---------------------------------------------------------------------------
  // Phase scoring
  // ---------------------------------------------------------------------------

  /** `QualityToScore`: 100, 80, 60, 40, 20, 0 from Optimal to Critical. */
  function QualityToScore(q: PlayQuality): (s: real)
    ensures s == 100.0 - 20.0 * (Ordinal(q) as real)
    ensures 0.0 <= s <= 100.0
  {
    match q
    case Optimal => 100.0
    case Good => 80.0
    case Acceptable => 60.0
    case Questionable => 40.0
    case Poor => 20.0
    case Critical => 0.0
  }

  /** A better play (lower ordinal) always scores strictly more. */
  lemma ScoreStrictlyDecreasing(a: PlayQuality, b: PlayQuality)
    requires Ordinal(a) < Ordinal(b)
    ensures QualityToScore(a) > QualityToScore(b)
  {
  }

  /** Sum of the weights `|impactScore|`. */
  function TotalWeight(ds: seq<DecisionEvaluation>): (w: real)
    ensures w >= 0.0
  {
    if ds == [] then 0.0
    else TotalWeight(ds[..|ds| - 1]) + AbsReal(ds[|ds| - 1].impactScore)
  }

  /** Sum of `QualityToScore(quality) * |impactScore|`. */
  function WeightedScore(ds: seq<DecisionEvaluation>): real
  {
    if ds == [] then 0.0
    else WeightedScore(ds[..|ds| - 1])
         + QualityToScore(ds[|ds| - 1].quality) * AbsReal(ds[|ds| - 1].impactScore)
  }

  /** The value `CalculateOverallScore` assigns: 50 for no decisions or no
      total weight, otherwise the weighted mean of the quality scores. */
  function OverallScore(ds: seq<DecisionEvaluation>): (score: real)
    ensures 0.0 <= score <= 100.0
  {
    if |ds| == 0 then 50.0
    else if TotalWeight(ds) > 0.0 then
      WeightedScoreBounds(ds);
      assert WeightedScore(ds) / TotalWeight(ds) <= 100.0 by {
        assert WeightedScore(ds) <= 100.0 * TotalWeight(ds);
      }
      WeightedScore(ds) / TotalWeight(ds)
    else 50.0
  }

  lemma {:induction false} WeightedScoreBounds(ds: seq<DecisionEvaluation>)
    ensures 0.0 <= WeightedScore(ds) <= 100.0 * TotalWeight(ds)
  {
    if ds != [] {
      var last := ds[|ds| - 1];
      WeightedScoreBounds(ds[..|ds| - 1]);
      var w := AbsReal(last.impactScore);
      var s := QualityToScore(last.quality);
      assert 0.0 <= s * w <= 100.0 * w by {
        assert 0.0 <= s <= 100.0 && 0.0 <= w;
        assert (100.0 - s) * w >= 0.0;
      }
    }
  }

  lemma {:induction false} ZeroImpactZeroWeight(ds: seq<DecisionEvaluation>)
    requires forall i :: 0 <= i < |ds| ==> ds[i].impactScore == 0.0
    ensures TotalWeight(ds) == 0.0
  {
    if ds != [] {
      ZeroImpactZeroWeight(ds[..|ds| - 1]);
    }
  }

  /** When every decision has zero impact the phase is scored neutral, 50. */
  lemma ZeroImpactIsNeutral(ds: seq<DecisionEvaluation>)
    requires forall i :: 0 <= i < |ds| ==> ds[i].impactScore == 0.0
    ensures OverallScore(ds) == 50.0
  {
    ZeroImpactZeroWeight(ds);
  }

  lemma {:induction false} UniformWeightedScore(ds: seq<DecisionEvaluation>, q: PlayQuality)
    requires forall i :: 0 <= i < |ds| ==> ds[i].quality == q
    ensures WeightedScore(ds) == QualityToScore(q) * TotalWeight(ds)
  {
    if ds != [] {
      UniformWeightedScore(ds[..|ds| - 1], q);
    }
  }

  lemma DivCancel(a: real, t: real)
    requires t != 0.0
    ensures a * t / t == a
  {
  }

  /** A phase whose weighted decisions all share one quality scores exactly
      that quality's score: the mean is a true weighted average. */
  lemma UniformQualityScore(ds: seq<DecisionEvaluation>, q: PlayQuality)
    requires forall i :: 0 <= i < |ds| ==> ds[i].quality == q
    requires TotalWeight(ds) > 0.0
    ensures OverallScore(ds) == QualityToScore(q)
  {
    UniformWeightedScore(ds, q);
    DivCancel(QualityToScore(q), TotalWeight(ds));
  }

  class PhaseEvaluation {
    var turnNumber: int
    var overallScore: real
    var decisions: seq<DecisionEvaluation>

    constructor (turn: int)
      ensures turnNumber == turn && decisions == [] && overallScore == 0.0
    {
      turnNumber := turn;
      overallScore := 0.0;
      decisions := [];
    }

    /** Scores the phase from its decisions, weighting by |impact|. */
    method CalculateOverallScore()
      modifies this`overallScore
      ensures overallScore == OverallScore(decisions)
      ensures 0.0 <= overallScore <= 100.0
    {
      if |decisions| == 0 {
        overallScore := 50.0;
        return;
      }
      var totalScore := 0.0;
      var totalWeight := 0.0;
      for i := 0 to |decisions|
        invariant totalScore == WeightedScore(decisions[..i])
        invariant totalWeight == TotalWeight(decisions[..i])
      {
        assert decisions[..i + 1][..i] == decisions[..i];
        var weight := AbsReal(decisions[i].impactScore);
        var qualityScore := QualityToScore(decisions[i].quality);
        totalScore := totalScore + qualityScore * weight;
        totalWeight := totalWeight + weight;
      }
      assert decisions[..|decisions|] == decisions;
      overallScore := if totalWeight > 0.0 then totalScore / totalWeight else 50.0;
    }
  }

  // ---------------------------------------------------------------------------
  // Whole-game counters
  // ---------------------------------------------------------------------------

  predicate IsMistake(d: DecisionEvaluation)
  {
    d.quality == Critical || d.quality == Poor
  }

  /** Poor-or-Critical decisions in one list. */
  function MistakeCount(ds: seq<DecisionEvaluation>): (n: nat)
    ensures n <= |ds|
  {
    if ds == [] then 0
    else MistakeCount(ds[..|ds| - 1]) + (if IsMistake(ds[|ds| - 1]) then 1 else 0)
  }

  /** Optimal decisions in one list. */
  function OptimalCount(ds: seq<DecisionEvaluation>): (n: nat)
    ensures n <= |ds|
  {
    if ds == [] then 0
    else OptimalCount(ds[..|ds| - 1]) + (if ds[|ds| - 1].quality == Optimal then 1 else 0)
  }

  /** A decision is never both a mistake and an optimal play, so the two
      counters together never exceed the number of decisions. */
  lemma {:induction false} CountersDisjoint(ds: seq<DecisionEvaluation>)
    ensures MistakeCount(ds) + OptimalCount(ds) <= |ds|
  {
    if ds != [] {
      CountersDisjoint(ds[..|ds| - 1]);
    }
  }

  /** The counters add up over concatenated lists. */
  lemma {:induction false} CountsAppend(xs: seq<DecisionEvaluation>, ys: seq<DecisionEvaluation>)
    ensures MistakeCount(xs + ys) == MistakeCount(xs) + MistakeCount(ys)
    ensures OptimalCount(xs + ys) == OptimalCount(xs) + OptimalCount(ys)
  {
    if ys == [] {
      assert xs + ys == xs;
    } else {
      assert (xs + ys)[..|xs + ys| - 1] == xs + ys[..|ys| - 1];
      assert (xs + ys)[|xs + ys| - 1] == ys[|ys| - 1];
      CountsAppend(xs, ys[..|ys| - 1]);
    }
  }

  function PhaseMistakes(ps: seq<PhaseEvaluation>): nat
    reads ps
  {
    if ps == [] then 0 else PhaseMistakes(ps[..|ps| - 1]) + MistakeCount(ps[|ps| - 1].decisions)
  }

  function PhaseOptimals(ps: seq<PhaseEvaluation>): nat
    reads ps
  {
    if ps == [] then 0 else PhaseOptimals(ps[..|ps| - 1]) + OptimalCount(ps[|ps| - 1].decisions)
  }

  function PhaseScoreSum(ps: seq<PhaseEvaluation>): real
    reads ps
  {
    if ps == [] then 0.0 else PhaseScoreSum(ps[..|ps| - 1]) + ps[|ps| - 1].overallScore
  }

  /** The inner loop of `CalculateStats`: one phase's counters. */
  method CountPhase(ds: seq<DecisionEvaluation>) returns (mistakes: nat, optimal: nat)
    ensures mistakes == MistakeCount(ds) && optimal == OptimalCount(ds)
    ensures mistakes + optimal <= |ds|
  {
    mistakes, optimal := 0, 0;
    for j := 0 to |ds|
      invariant mistakes == MistakeCount(ds[..j]) && optimal == OptimalCount(ds[..j])
    {
      assert ds[..j + 1][..j] == ds[..j];
      if ds[j].quality == Critical || ds[j].quality == Poor {
        mistakes := mistakes + 1;
      }
      if ds[j].quality == Optimal {
        optimal := optimal + 1;
      }
    }
    assert ds[..|ds|] == ds;
    CountersDisjoint(ds);
  }

  /** The phase loop of `CalculateStats`: summed scores and counters. */
  method PhaseTotals(ps: seq<PhaseEvaluation>) returns (totalScore: real, mistakeTotal: nat, optimalTotal: nat)
    ensures totalScore == PhaseScoreSum(ps)
    ensures mistakeTotal == PhaseMistakes(ps) && optimalTotal == PhaseOptimals(ps)
  {
    totalScore := 0.0;
    mistakeTotal, optimalTotal := 0, 0;
    for i := 0 to |ps|
      invariant totalScore == PhaseScoreSum(ps[..i])
      invariant mistakeTotal == PhaseMistakes(ps[..i])
      invariant optimalTotal == PhaseOptimals(ps[..i])
    {
      assert ps[..i + 1][..i] == ps[..i];
      var phase := ps[i];
      totalScore := totalScore + phase.overallScore;
      var mistakes, optimal := CountPhase(phase.decisions);
      mistakeTotal := mistakeTotal + mistakes;
      optimalTotal := optimalTotal + optimal;
    }
    assert ps[..|ps|] == ps;
  }

  class GameLog {
    var heroName: string
    var finalPlacement: int
    var finalTurn: int
    var startingMMR: int
    var finalMMR: int
    var phases: seq<PhaseEvaluation>
    var averageScore: real
    var criticalMistakes: int
    var optimalPlays: int

    /** `new GameLog(hero)`; the session id and start time are not modelled. */
    constructor (hero: string)
      ensures heroName == hero && phases == []
      ensures finalPlacement == 0 && finalTurn == 0 && startingMMR == 0 && finalMMR == 0
      ensures averageScore == 0.0 && criticalMistakes == 0 && optimalPlays == 0
    {
      heroName := hero;
      finalPlacement, finalTurn, startingMMR, finalMMR := 0, 0, 0, 0;
      phases := [];
      averageScore := 0.0;
      criticalMistakes, optimalPlays := 0, 0;
    }

    /** `CalculateStats` (run by `FinalizeLog`): with no phases nothing
      changes; otherwise the counters are recomputed from scratch, so running
      it again gives the same values. */
    method CalculateStats()
      modifies this`averageScore, this`criticalMistakes, this`optimalPlays
      ensures |phases| == 0 ==>
        averageScore == old(averageScore) && criticalMistakes == old(criticalMistakes)
        && optimalPlays == old(optimalPlays)
      ensures |phases| > 0 ==>
        criticalMistakes == PhaseMistakes(phases) && optimalPlays == PhaseOptimals(phases)
        && averageScore == PhaseScoreSum(phases) / (|phases| as real)
    {
      if |phases| == 0 {
        return;
      }
      var totalScore, mistakeTotal, optimalTotal := PhaseTotals(phases);
      criticalMistakes, optimalPlays, averageScore := mistakeTotal, optimalTotal, totalScore / (|phases| as real);
    }
  }

  // ---------------------------------------------------------------------------
  // Coaching settings
  // ---------------------------------------------------------------------------

  datatype GoalFlags = GoalFlags(showPostMortem: bool, showRealTimeHints: bool, pauseOnTeachingMoments: bool)

  /** The three switches each goal sets. */
  function FlagsFor(goal: CoachingGoal): (f: GoalFlags)
    ensures f.showPostMortem <==> goal != JustHaveFun
    ensures f.showRealTimeHints <==> goal == CompetitiveClimb || goal == Tryhard
    ensures f.pauseOnTeachingMoments <==> goal == Tryhard
  {
    match goal
    case JustHaveFun => GoalFlags(false, false, false)
    case ImproveGradually => GoalFlags(true, false, false)
    case CompetitiveClimb => GoalFlags(true, true, false)
    case Tryhard => GoalFlags(true, true, true)
  }

  /** The hint threshold after a goal: only the two hinting goals set it. */
  function HintThresholdFor(goal: CoachingGoal, current: PlayQuality): (q: PlayQuality)
    ensures goal == CompetitiveClimb ==> q == Poor
    ensures goal == Tryhard ==> q == Questionable
    ensures goal == JustHaveFun || goal == ImproveGradually ==> q == current
  {
    match goal
    case CompetitiveClimb => Poor
    case Tryhard => Questionable
    case _ => current
  }

  class CoachingSettings {
    var goal: CoachingGoal
    var maxMMRForHints: int
    var showPostMortem: bool
    var showRealTimeHints: bool
    var pauseOnTeachingMoments: bool
    var minimumHintQuality: PlayQuality

    /** The field initialisers. */
    constructor ()
      ensures goal == ImproveGradually && maxMMRForHints == 2000
      ensures showPostMortem && !showRealTimeHints && !pauseOnTeachingMoments
      ensures minimumHintQuality == Poor
    {
      goal := ImproveGradually;
      maxMMRForHints := 2000;
      showPostMortem := true;
      showRealTimeHints := false;
      pauseOnTeachingMoments := false;
      minimumHintQuality := Poor;
    }

    function Flags(): GoalFlags
      reads this
    {
      GoalFlags(showPostMortem, showRealTimeHints, pauseOnTeachingMoments)
    }

    /** Sets the goal and its switches; the hint threshold changes only for
      the two hinting goals and the MMR limit never does. The result depends
      only on the goal and the old threshold, so applying a goal twice equals
      applying it once (see HintThresholdIdempotent). */
    method ApplyGoal(newGoal: CoachingGoal)
      modifies this
      ensures goal == newGoal
      ensures Flags() == FlagsFor(newGoal)
      ensures minimumHintQuality == HintThresholdFor(newGoal, old(minimumHintQuality))
      ensures maxMMRForHints == old(maxMMRForHints)
    {
      goal := newGoal;
      match goal {
        case JustHaveFun =>
          showPostMortem := false;
          showRealTimeHints := false;
          pauseOnTeachingMoments := false;
        case ImproveGradually =>
          showPostMortem := true;
          showRealTimeHints := false;
          pauseOnTeachingMoments := false;
        case CompetitiveClimb =>
          showPostMortem := true;
          showRealTimeHints := true;
          pauseOnTeachingMoments := false;
          minimumHintQuality := Poor;
        case Tryhard =>
          showPostMortem := true;
          showRealTimeHints := true;
          pauseOnTeachingMoments := true;
          minimumHintQuality := Questionable;
      }
    }
  }

  lemma HintThresholdIdempotent(goal: CoachingGoal, q: PlayQuality)
    ensures HintThresholdFor(goal, HintThresholdFor(goal, q)) == HintThresholdFor(goal, q)
  {
  }
}
