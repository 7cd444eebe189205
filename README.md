# A verified model of the card battler's coaching core

This project models, in Dafny, the rules and bookkeeping of a Unity
auto-battler with a built-in coach:

- the rules that rate each player action (levelling the tavern, rerolling,
  buying, selling, accepting a triple, ending the turn) as a `PlayQuality`;
- the evaluator that records those ratings per turn and per game, scores
  each turn and decides whether to show a hint;
- the player's ranked profile, with MMR changes per placement and sticky
  rank floors;
- the meta snapshot's expected tavern level per turn (exact value, or a
  linear interpolation between benchmarks);
- the player's gold and health;
- the simulated lobby of bots (ranks, auto-resolved rounds, choosing the
  next opponent);
- the AI's enemy-board budget loop;
- the death-save state machine (d20 saves, coin wager, game-over
  placement);
- the post-mortem screen's decision filters and score colours;
- the placeholder sound generator's sample synthesis and 16-bit PCM
  encoding.

One Dafny module per source file, plus `Common`:

- `Common` holds Option, C#'s truncating division, `Mathf.Clamp`, and real
  arithmetic facts.
- `GameData` holds the unit and hero assets.

Code that updates fields in place is modelled as classes with `modifies`
clauses. Each such method is specified by a function of the old state.
Pure rules are functions. Loops are methods with invariants, proved against
recursive specification functions. Unity's `Random` draws, `math.sin` and
`random.uniform` are parameters of the operations that use them.

In the C# code, `<=` on `PlayQuality` compares declaration order, where
`Optimal` comes first. The model keeps this: "at most Questionable" means
Optimal, Good, Acceptable or Questionable. Lemmas such as `HintGate`,
`EndTurnGates` and `EarlyRerollRecord` spell out what this means for hints,
alternatives and impact scores.

## Model

| member | source | states |
|---|---|---|
| SoundGenerator.Quantize | Assets/Resources/Sounds/SoundGenerator.py:22 | a sample is truncated toward zero and clamped to ±32767; in-range values are left alone |
| SoundGenerator.QuantizeKeepsInRange | Assets/Resources/Sounds/SoundGenerator.py:22 | an integer sample already within ±32767 is written unchanged |
| SoundGenerator.QuantizeIdempotent | Assets/Resources/Sounds/SoundGenerator.py:22 | clamping an already written sample changes nothing |
| SoundGenerator.Pack16 | Assets/Resources/Sounds/SoundGenerator.py:23 | a 16-bit value packs into two little-endian bytes that unpack to the same value |
| SoundGenerator.Encode | Assets/Resources/Sounds/SoundGenerator.py:19-25 | the frame data holds two bytes per sample |
| SoundGenerator.Decode | Assets/Resources/Sounds/SoundGenerator.py:23 | reading frame data back yields one value per two bytes |
| SoundGenerator.DecodeEncode | Assets/Resources/Sounds/SoundGenerator.py:19-25 | decoding the written PCM data gives back exactly the clamped, truncated samples, one per input sample |
| SoundGenerator.EncodedRange | Assets/Resources/Sounds/SoundGenerator.py:22-23 | every written sample lies in [-32767, 32767] |
| SoundGenerator.WriteWav | Assets/Resources/Sounds/SoundGenerator.py:11-26 | the frame data is the encoding of the samples, two bytes per sample |
| SoundGenerator.DecayRange | Assets/Resources/Sounds/SoundGenerator.py:37 | the linear decay factor falls from 1 at the first sample to 1/n at the last and stays in (0, 1] |
| SoundGenerator.GenerateTone | Assets/Resources/Sounds/SoundGenerator.py:28-40 | `int(duration * 44100)` samples, each the amplitude-scaled sine at i/44100, decayed when asked |
| SoundGenerator.ToneClipIs | Assets/Resources/Sounds/SoundGenerator.py:28-40 | any clip of the tone's length whose every sample is the decayed tone sample is the tone |
| SoundGenerator.ToneSampleBounded | Assets/Resources/Sounds/SoundGenerator.py:33-37 | with a sine bounded by 1, a tone sample never exceeds the amplitude 16383 |
| SoundGenerator.GenerateNoise | Assets/Resources/Sounds/SoundGenerator.py:42-50 | one uniform draw per sample, decayed when asked |
| SoundGenerator.SlideFrequencyBetween | Assets/Resources/Sounds/SoundGenerator.py:58 | the slide's frequency starts at the start frequency and stays between start and end |
| SoundGenerator.GenerateSlide | Assets/Resources/Sounds/SoundGenerator.py:52-63 | each sample is the sine at the interpolated frequency times the falling volume |
| SoundGenerator.Mix | Assets/Resources/Sounds/SoundGenerator.py:74 | `zip` mixing: as long as the shorter clip, sample-wise sums |
| SoundGenerator.MixNeverClips | Assets/Resources/Sounds/SoundGenerator.py:74 | two clips within the amplitude mix to samples within ±32766, which the writer never clamps |
| SoundGenerator.CombatStart | Assets/Resources/Sounds/SoundGenerator.py:73-75 | the gong is exactly the zip-mix of the decayed 110 Hz and 220 Hz tones, 66150 samples, none of them clamped when written |
| SoundGenerator.RoundVictory | Assets/Resources/Sounds/SoundGenerator.py:89-94 | the arpeggio is the C, E and G tones back to back, at their lengths |
| SoundGenerator.Concat | Assets/Resources/Sounds/SoundGenerator.py:92-98 | joining clips with `+` gives the total length, and each clip occupies its own slice; `RoundVictory` and `RoundDefeat` use it |
| SoundGenerator.RoundDefeat | Assets/Resources/Sounds/SoundGenerator.py:96-100 | the defeat sting is the F# tone followed by the C tone |
| DecisionTypes.QualityOf | Assets/Scripts/DecisionTypes.cs:13-21 | the enum cast inverts the declaration ordinal |
| DecisionTypes.TypeOf | Assets/Scripts/DecisionTypes.cs:23-46 | the enum cast inverts the declaration ordinal of the twelve decision types |
| DecisionTypes.NewEvaluation | Assets/Scripts/DecisionTypes.cs:83-87 | a new evaluation has no alternatives, and quality and impact at their defaults |
| DecisionTypes.PhaseEvaluation.constructor | Assets/Scripts/DecisionTypes.cs:105-109 | a phase for the turn with no decisions and score 0 |
| DecisionTypes.QualityToScore | Assets/Scripts/DecisionTypes.cs:134-146 | score is 100 minus 20 per step from Optimal, within [0, 100] |
| DecisionTypes.ScoreStrictlyDecreasing | Assets/Scripts/DecisionTypes.cs:134-146 | a better quality always scores strictly more |
| DecisionTypes.WeightedScoreBounds | Assets/Scripts/DecisionTypes.cs:117-125 | the impact-weighted sum lies between 0 and 100 times the total weight |
| DecisionTypes.ZeroImpactZeroWeight | Assets/Scripts/DecisionTypes.cs:117-125 | decisions that all have zero impact carry no weight |
| DecisionTypes.UniformWeightedScore | Assets/Scripts/DecisionTypes.cs:117-125 | when all decisions share a quality the weighted sum is that quality's score times the total weight |
| DecisionTypes.OverallScore | Assets/Scripts/DecisionTypes.cs:111-132 | the score of a phase (the weighted mean, or 50 with no decisions or no weight) is always in [0, 100]; `ZeroImpactIsNeutral` relates it to zero-impact phases |
| DecisionTypes.ZeroImpactIsNeutral | Assets/Scripts/DecisionTypes.cs:127-131 | with no weight at all (no decisions, or all impacts zero) the score is the neutral 50 |
| DecisionTypes.UniformQualityScore | Assets/Scripts/DecisionTypes.cs:111-132 | when every decision has the same quality the phase scores exactly that quality's score |
| DecisionTypes.PhaseEvaluation.CalculateOverallScore | Assets/Scripts/DecisionTypes.cs:111-132 | stores the weighted average of `\|impact\|`-weighted quality scores, or 50 without weight |
| DecisionTypes.CountersDisjoint | Assets/Scripts/DecisionTypes.cs:190-200 | mistakes (Poor or Critical) and optimal plays together never exceed the decisions |
| DecisionTypes.GameLog.constructor | Assets/Scripts/DecisionTypes.cs:168-173 | a log for the hero with no phases and all results zero |
| DecisionTypes.CountsAppend | Assets/Scripts/DecisionTypes.cs:190-200 | the counters add up over concatenated decision lists |
| DecisionTypes.CountPhase | Assets/Scripts/DecisionTypes.cs:190-200 | the inner counting loop yields the mistake and optimal counts of one phase |
| DecisionTypes.PhaseTotals | Assets/Scripts/DecisionTypes.cs:182-204 | the outer loop yields the score sum and both counters over all phases |
| DecisionTypes.GameLog.CalculateStats | Assets/Scripts/DecisionTypes.cs:182-204 | with no phases nothing changes; otherwise the counters are the whole-game counts and the average is the mean phase score |
| DecisionTypes.FlagsFor | Assets/Scripts/DecisionTypes.cs:260-292 | post-mortem iff the goal is not JustHaveFun; hints iff CompetitiveClimb or Tryhard; pauses iff Tryhard |
| DecisionTypes.HintThresholdFor | Assets/Scripts/DecisionTypes.cs:275-290 | CompetitiveClimb sets Poor, Tryhard sets Questionable, other goals keep the threshold |
| DecisionTypes.CoachingSettings.constructor | Assets/Scripts/DecisionTypes.cs:251-258 | the default settings |
| DecisionTypes.CoachingSettings.ApplyGoal | Assets/Scripts/DecisionTypes.cs:260-292 | the switches become the goal's flags, the threshold follows the goal, the MMR limit is kept |
| DecisionTypes.HintThresholdIdempotent | Assets/Scripts/DecisionTypes.cs:260-292 | applying a goal's threshold twice equals applying it once |
| EvaluationRules.GetLevelUpCost | Assets/Scripts/EvaluationRules.cs:57-61 | the cost table for levels in range, 11 beyond it, always within [0, 11] |
| EvaluationRules.LevelUpCostMonotone | Assets/Scripts/EvaluationRules.cs:57-61 | higher levels never cost less, and only level 0 is free |
| EvaluationRules.EvaluateLevelingDecision | Assets/Scripts/EvaluationRules.cs:16-55 | Critical iff levelling leaves less than 3 gold; otherwise the gap target − expected level picks the band: Optimal below −1.5, Good in [−1.5, −0.5), Acceptable in [−0.5, 0.5), Questionable in [0.5, 1.5), Poor from 1.5 — each stated as an iff |
| EvaluationRules.LevelingBrokeIsCritical | Assets/Scripts/EvaluationRules.cs:22-27 | the gold check overrides the tempo comparison whatever the expected level |
| EvaluationRules.LevelingMonotone | Assets/Scripts/EvaluationRules.cs:29-54 | levelling further ahead of the meta never rates better |
| EvaluationRules.LevelingOnPace | Assets/Scripts/EvaluationRules.cs:29-54 | on pace is Acceptable, two behind the meta Optimal, two ahead Poor |
| EvaluationRules.EvaluateReroll | Assets/Scripts/EvaluationRules.cs:67-94 | each outcome with its exact condition: Critical iff turn ≤ 2, Poor iff later with gold < 4, and so on; never Optimal |
| EvaluationRules.SynergyCountIsCardinality | Assets/Scripts/EvaluationRules.cs:128-142 | the synergy count is the number of board positions sharing the new unit's (non-None) tribe |
| EvaluationRules.SynergyCount | Assets/Scripts/EvaluationRules.cs:128-142 | at most the board size, and 0 for a tribeless unit |
| EvaluationRules.CountSynergies | Assets/Scripts/EvaluationRules.cs:128-142 | the counting loop returns the synergy count, at most the board size |
| EvaluationRules.EvaluatePurchase | Assets/Scripts/EvaluationRules.cs:96-126 | Critical iff unaffordable; Poor iff no synergy on a board of 3+; Good iff 2+ synergies; Optimal iff none of those and the unit's tier is above the tavern tier; Acceptable iff none of those and it is not; never Questionable |
| EvaluationRules.TribelessPurchaseIsPoor | Assets/Scripts/EvaluationRules.cs:108-118 | an affordable tribeless unit on a board of 3+ always rates Poor |
| EvaluationRules.AddInt32 | Assets/Scripts/EvaluationRules.cs:151 | 32-bit addition wraps and agrees with + when there is no overflow |
| EvaluationRules.EvaluateSell | Assets/Scripts/EvaluationRules.cs:148-171 | the overflowing value test is Poor only for attack ≥ int.MaxValue − 1; Acceptable iff late with under 2 synergies |
| EvaluationRules.SellNeverPoor | Assets/Scripts/EvaluationRules.cs:148-171 | any ordinary attack value rates Questionable or Acceptable |
| EvaluationRules.EvaluateTripleAcceptance | Assets/Scripts/EvaluationRules.cs:177-193 | Optimal iff turn ≤ 4, Good iff later with a discovery below tier 6, never worse than Acceptable |
| EvaluationRules.EvaluateEndTurn | Assets/Scripts/EvaluationRules.cs:199-220 | Critical iff 5+ gold left by turn 10; Poor iff otherwise fewer than 3 units; Acceptable iff spent down with 3+ units |
| EvaluationRules.EndTurnSpentIsFine | Assets/Scripts/EvaluationRules.cs:199-220 | spending down with a board of 3+ never rates worse than Acceptable |
| EvaluationRules.BoardStrengthAppend | Assets/Scripts/EvaluationRules.cs:226-245 | board strength adds up over the board's parts |
| EvaluationRules.BoardStrengthNonNegative | Assets/Scripts/EvaluationRules.cs:226-245 | with non-negative stats the strength is never negative |
| EvaluationRules.EstimateBoardStrength | Assets/Scripts/EvaluationRules.cs:226-245 | the loop sums, over cards with unit data, attack + health + 2 × tier, plus 5 when golden |
| EvaluationRules.AlternativesFor | Assets/Scripts/EvaluationRules.cs:251-279 | two distinct non-empty suggestions for buy, reroll, level and end turn; none otherwise |
| EvaluationRules.GenerateAlternatives | Assets/Scripts/EvaluationRules.cs:251-279 | the list built by appends equals the suggestions for the type |
| PlayerProfile.CalculateMMRChange | Assets/Scripts/PlayerProfile.cs:82-88 | the table entry for the clamped placement; positive iff top four; within ±100 |
| PlayerProfile.MMRChangeMonotone | Assets/Scripts/PlayerProfile.cs:82-88 | a better placement never earns less |
| PlayerProfile.MMRChangeSymmetric | Assets/Scripts/PlayerProfile.cs:84 | placement p and 9 − p earn opposite changes |
| PlayerProfile.RankFloorIsHighestReached | Assets/Scripts/PlayerProfile.cs:90-97 | with ascending floors, the scan returns the highest floor at or below the MMR, or 0 |
| PlayerProfile.DefaultFloors | Assets/Scripts/PlayerProfile.cs:15 | with the default floors the floor is the MMR rounded down to 2000s, capped at 10000 |
| PlayerProfile.WinCount | Assets/Scripts/PlayerProfile.cs:74-79 | the wins in the history never outnumber its entries |
| PlayerProfile.WinCountAppend | Assets/Scripts/PlayerProfile.cs:74-79 | appending a result adds one win iff it is a win |
| PlayerProfile.PushResult | Assets/Scripts/PlayerProfile.cs:34-38 | the result is appended and the oldest dropped beyond 15 entries |
| PlayerProfile.PushResultWinCount | Assets/Scripts/PlayerProfile.cs:34-38 | recording a win never lowers the recent-win count, a loss never raises it |
| PlayerProfile.ApplyStickyFloor | Assets/Scripts/PlayerProfile.cs:50-66 | the raw result unless it falls below the floor without a permitted drop, then the floor |
| PlayerProfile.WinRaisesMMR | Assets/Scripts/PlayerProfile.cs:30-69 | a top-four finish always strictly raises the MMR |
| PlayerProfile.LossBoundedByFloor | Assets/Scripts/PlayerProfile.cs:30-69 | a loss never raises a non-negative MMR and, without a permitted drop, never goes below the floor |
| PlayerProfile.RankFloorScan | Assets/Scripts/PlayerProfile.cs:90-97 | in any order of floors, the scan returns a listed floor the MMR has reached when there is one, and 0 when none is reached |
| PlayerProfile.RankFloorOf | Assets/Scripts/PlayerProfile.cs:90-97 | the floor found is 0 or a listed floor at or below the MMR; `RankFloorScan` and `RankFloorIsHighestReached` pin down which one |
| PlayerProfile.PlayerProfile.CheckDropCondition | Assets/Scripts/PlayerProfile.cs:71-80 | a drop is allowed iff the loss streak is at least 10 or fewer than 3 of the recorded games are wins; so fewer than 3 recorded games always allow one |
| PlayerProfile.PlayerProfile.constructor | Assets/Scripts/PlayerProfile.cs:10-15 | MMR 1000, no loss streak, empty history, the default floors |
| PlayerProfile.PlayerProfile.GetRankFloor | Assets/Scripts/PlayerProfile.cs:90-97 | the descending loop returns the scan's floor, a listed floor or 0 |
| PlayerProfile.PlayerProfile.RecordMatchResult | Assets/Scripts/PlayerProfile.cs:30-69 | history, streak and sticky-floor MMR update, with the drop test seeing this match: with a streak under 10 and at least 3 wins, a fall below the floor stops at the floor; with 10 straight losses or fewer than 3 wins the raw change applies |
| MetaSnapshot.LowerOf | Assets/Scripts/MetaSnapshot.cs:57-64 | the greatest positive benchmark turn at or before the turn, or 0 |
| MetaSnapshot.HigherOf | Assets/Scripts/MetaSnapshot.cs:57-64 | the least benchmark turn at or after the turn below 999, or 999 |
| MetaSnapshot.LowerUnique | Assets/Scripts/MetaSnapshot.cs:57-64 | any key meeting the lower-bound test is the one the search finds |
| MetaSnapshot.HigherUnique | Assets/Scripts/MetaSnapshot.cs:57-64 | any key meeting the upper-bound test is the one the search finds |
| MetaSnapshot.Lerp | Assets/Scripts/MetaSnapshot.cs:68 | `Mathf.Lerp`: clamped interpolation |
| MetaSnapshot.LerpBetween | Assets/Scripts/MetaSnapshot.cs:68 | the interpolated value stays between the two ends |
| MetaSnapshot.BeforeFirstKey | Assets/Scripts/MetaSnapshot.cs:65 | before the first benchmark the first benchmark's level is used |
| MetaSnapshot.AfterLastKey | Assets/Scripts/MetaSnapshot.cs:66 | after the last benchmark the last benchmark's level is used |
| MetaSnapshot.BetweenKeysLerp | Assets/Scripts/MetaSnapshot.cs:68-69 | between two benchmarks the level is the interpolation at the turn's position |
| MetaSnapshot.BetweenKeys | Assets/Scripts/MetaSnapshot.cs:50-70 | between two benchmarks the expected level lies between their levels |
| MetaSnapshot.ExpectedLevelFails | Assets/Scripts/MetaSnapshot.cs:50-70 | the lookup fails exactly when the table has no usable key for the turn |
| MetaSnapshot.DefaultLevelEarly | Assets/Scripts/MetaSnapshot.cs:38-48 | with the defaults, turn 1 expects level 1 |
| MetaSnapshot.DefaultLevelBetween | Assets/Scripts/MetaSnapshot.cs:38-48 | with the defaults, turn 4 expects level 1.5 |
| MetaSnapshot.DefaultLevelLate | Assets/Scripts/MetaSnapshot.cs:38-48 | with the defaults, turn 12 expects level 5 |
| MetaSnapshot.MetaSnapshot.constructor | Assets/Scripts/MetaSnapshot.cs:27-36 | the default level table and no win rates |
| MetaSnapshot.MetaSnapshot.InitializeDefaults | Assets/Scripts/MetaSnapshot.cs:38-48 | the five benchmark turns are set |
| MetaSnapshot.MetaSnapshot.GetExpectedLevel | Assets/Scripts/MetaSnapshot.cs:50-70 | the loop over the keys returns the specified expected level; an exact key returns its level |
| MetaSnapshot.MetaSnapshot.GetUnitWinRate | Assets/Scripts/MetaSnapshot.cs:72-75 | the stored rate, or 50 for an unknown unit |
| MetaSnapshot.MetaSnapshot.MetaUnits | Assets/Scripts/MetaSnapshot.cs:77-80 | a unit is meta iff it is known with a win rate above 52 |
| MetaSnapshot.MetaSnapshot.IsUnitMeta | Assets/Scripts/MetaSnapshot.cs:77-80 | a meta unit is a known unit with a stored win rate above 52, so the 50 default is never meta; `MetaUnits` gives the converse |
| GameManager.MaxGoldForTurn | Assets/Scripts/GameManager.cs:73 | 3 + turn, capped at 10 |
| GameManager.MaxGoldMonotone | Assets/Scripts/GameManager.cs:73 | later turns never give less gold |
| GameManager.RecruitGold | Assets/Scripts/GameManager.cs:73-80 | the turn's maximum plus the hero's gold bonus on turn 1 only |
| GameManager.RecruitGoldCapped | Assets/Scripts/GameManager.cs:73-80 | only turn 1 can exceed 10 gold |
| GameManager.HealthAfter | Assets/Scripts/GameManager.cs:112-124 | health is capped above by the maximum and not clamped below |
| GameManager.HealthChange | Assets/Scripts/GameManager.cs:112-124 | healing stays within the maximum; damage is applied in full |
| GameManager.GameManager.constructor | Assets/Scripts/GameManager.cs:14-20 | the field initialisers |
| GameManager.GameManager.ApplyHeroBonuses | Assets/Scripts/GameManager.cs:46-66 | an ExtraHealth hero raises the maximum and heals to it; a StartingUnit hero spawns its unit when wired |
| GameManager.GameManager.SpawnUnitOnBoard | Assets/Scripts/GameManager.cs:99-110 | the unit is added only when the board is wired |
| GameManager.GameManager.StartRecruitPhase | Assets/Scripts/GameManager.cs:68-85 | phase Recruit, maximum gold for the turn, gold refilled with the hero bonus |
| GameManager.GameManager.TrySpendGold | Assets/Scripts/GameManager.cs:87-96 | spends iff affordable, all or nothing |
| GameManager.GameManager.ModifyHealth | Assets/Scripts/GameManager.cs:112-124 | health becomes the capped sum |
| DecisionEvaluator.HintGate | Assets/Scripts/DecisionEvaluator.cs:287-297 | if a play is hinted, every play declared before it is hinted too |
| DecisionEvaluator.ShouldShowHint | Assets/Scripts/DecisionEvaluator.cs:287-297 | a hint is shown iff hints are on, the quality is declared at or before the threshold, and there is no profile or its MMR is at most the limit; `HintGate` gives monotonicity |
| DecisionEvaluator.DefaultThresholdSkipsCritical | Assets/Scripts/DecisionEvaluator.cs:287-297 | with the default threshold a Critical play is never hinted, and a Poor one is iff hints are on and the MMR allows |
| DecisionEvaluator.WithAlternatives | Assets/Scripts/DecisionEvaluator.cs:133-136 | suggestions are attached iff the quality is declared at or before Questionable |
| DecisionEvaluator.CurrentTavernTier | Assets/Scripts/DecisionEvaluator.cs:341-346 | the shop's tier, or 1 without a shop |
| DecisionEvaluator.EstimatePurchaseImpact | Assets/Scripts/DecisionEvaluator.cs:425-439 | for a positive tier, the impact is positive iff the quality is at or before Questionable |
| DecisionEvaluator.EstimateLevelingImpact | Assets/Scripts/DecisionEvaluator.cs:441-455 | for a level gain, the impact is positive iff the quality is at or before Acceptable |
| DecisionEvaluator.RerollImpact | Assets/Scripts/DecisionEvaluator.cs:190 | −20 for every quality declared at or before Poor, −5 exactly for Critical, so always negative |
| DecisionEvaluator.EndTurnImpact | Assets/Scripts/DecisionEvaluator.cs:256 | −30 for every quality declared at or before Poor, 0 exactly for Critical, so never positive |
| DecisionEvaluator.BuyEvaluation | Assets/Scripts/DecisionEvaluator.cs:104-139 | the buy record: gold before is gold plus cost, quality from the purchase rule, alternatives iff at or before Questionable |
| DecisionEvaluator.BuyCriticalOnlyWhenOverdrawn | Assets/Scripts/DecisionEvaluator.cs:104-139 | since gold is read after paying, a buy is Critical iff gold went negative |
| DecisionEvaluator.SellEvaluation | Assets/Scripts/DecisionEvaluator.cs:141-163 | the sell record: one gold gained, the sell rule's quality, impact −10, no alternatives |
| DecisionEvaluator.RerollEvaluation | Assets/Scripts/DecisionEvaluator.cs:165-198 | the reroll record with the board strength and the reroll rule |
| DecisionEvaluator.EarlyRerollRecord | Assets/Scripts/DecisionEvaluator.cs:165-198 | a reroll on turn 1 or 2 is Critical with impact −5 and no alternatives |
| DecisionEvaluator.LevelUpEvaluation | Assets/Scripts/DecisionEvaluator.cs:200-233 | the level record: tier is the new level, quality from the levelling rule against the expected level |
| DecisionEvaluator.EndTurnEvaluation | Assets/Scripts/DecisionEvaluator.cs:235-264 | the end-turn record with the end-turn rule and impact |
| DecisionEvaluator.EndTurnGates | Assets/Scripts/DecisionEvaluator.cs:235-264 | ending early with 5+ gold gets impact 0 and no suggestions; a Good end turn gets −30 and two |
| DecisionEvaluator.DecisionEvaluator.constructor | Assets/Scripts/DecisionEvaluator.cs:14-21 | settings and meta set, no game in progress |
| DecisionEvaluator.DecisionEvaluator.StartNewGame | Assets/Scripts/DecisionEvaluator.cs:45-56 | a fresh log with the starting MMR and a fresh turn-1 phase as its only phase |
| DecisionEvaluator.DecisionEvaluator.StartNewPhase | Assets/Scripts/DecisionEvaluator.cs:58-71 | the old phase is scored with its decisions and turn kept, a fresh phase is appended, and every other field of the log is kept |
| DecisionEvaluator.DecisionEvaluator.RecordDecision | Assets/Scripts/DecisionEvaluator.cs:270-285 | the evaluation is appended to the current phase only, whose turn and score are kept, and a hint is shown iff the hint gate passes |
| DecisionEvaluator.DecisionEvaluator.EvaluateBuyDecision | Assets/Scripts/DecisionEvaluator.cs:104-139 | appends the buy record to the current phase, keeping its turn and score; nothing without a phase or a game manager |
| DecisionEvaluator.DecisionEvaluator.EvaluateSellDecision | Assets/Scripts/DecisionEvaluator.cs:141-163 | appends the sell record to the current phase, keeping its turn and score; nothing without a phase or a game manager |
| DecisionEvaluator.DecisionEvaluator.EvaluateRerollDecision | Assets/Scripts/DecisionEvaluator.cs:165-198 | appends the reroll record to the current phase, keeping its turn and score; nothing without a phase or a game manager |
| DecisionEvaluator.DecisionEvaluator.EvaluateLevelUpDecision | Assets/Scripts/DecisionEvaluator.cs:200-233 | appends the level record to the current phase when the meta has an expected level; its turn and score are kept. A missing level is an exception in the source; here it records nothing |
| DecisionEvaluator.DecisionEvaluator.EvaluateEndTurnDecision | Assets/Scripts/DecisionEvaluator.cs:235-264 | appends the end-turn record to the current phase, keeping its turn and score; nothing without a phase or a game manager |
| DecisionEvaluator.DecisionEvaluator.EndGame | Assets/Scripts/DecisionEvaluator.cs:73-98 | the log gets placement, turn, final MMR and its statistics, keeping its phases, hero and starting MMR; the post-mortem shows iff enabled and a post-mortem screen is assigned |
| LobbyManager.GetRankFromMMR | Assets/Scripts/LobbyManager.cs:97-105 | Iron below 2000, Diamond from 10000, otherwise the 2000-wide band index |
| LobbyManager.RankMonotone | Assets/Scripts/LobbyManager.cs:97-105 | more MMR never means a lower rank |
| LobbyManager.RankMatchesDefaultFloor | Assets/Scripts/LobbyManager.cs:97-105 | a rank's band is the profile's default sticky floor for the same MMR |
| LobbyManager.BotMMR | Assets/Scripts/LobbyManager.cs:75 | every bot's MMR is the player's MMR plus the offset, never below 0 |
| LobbyManager.BotMMRNearPlayer | Assets/Scripts/LobbyManager.cs:75 | offsets drawn in [−500, 500) keep a bot within 500 MMR of the player |
| LobbyManager.Damaged | Assets/Scripts/LobbyManager.cs:171-177 | health drops by the damage and stops at 0; the bot is dead iff it was or its health is 0 |
| LobbyManager.RoundOutcome | Assets/Scripts/LobbyManager.cs:139-159 | a winner records no damage; a loser is damaged |
| LobbyManager.RosterPowerAtLeastTwicePerUnit | Assets/Scripts/LobbyManager.cs:139 | with tiers of at least 1, each unit adds at least 2 power |
| LobbyManager.RoundFor | Assets/Scripts/LobbyManager.cs:133-137 | dead bots and the current opponent sit the round out unchanged |
| LobbyManager.RoundBounds | Assets/Scripts/LobbyManager.cs:144-159 | a loser takes 2 to 2 + turn/2 damage, never drops below 0 and is dead iff at 0; a winner keeps its health |
| LobbyManager.AliveMembers | Assets/Scripts/LobbyManager.cs:109 | the alive list holds exactly the bots that are not dead |
| LobbyManager.Alive | Assets/Scripts/LobbyManager.cs:109 | the list of alive bots is no longer than the opponent list; `AliveMembers` gives its exact members |
| LobbyManager.Opponent.constructor | Assets/Scripts/LobbyManager.cs:67-85 | a new bot: alive, at starting health, 3 gold, tier 1, empty roster, rank from its MMR |
| LobbyManager.Opponent.TakeDamage | Assets/Scripts/LobbyManager.cs:147-154 | the bot's state becomes the damaged state |
| LobbyManager.LobbyManager.constructor | Assets/Scripts/LobbyManager.cs:31-40 | 8 players, 30 health, 3000 MMR, no bots |
| LobbyManager.LobbyManager.BotCount | Assets/Scripts/LobbyManager.cs:63 | one bot per other player, capped by the 16 names |
| LobbyManager.LobbyManager.InitializeLobby | Assets/Scripts/LobbyManager.cs:60-95 | one fresh, distinct bot per player slot, named in the shuffled order, with MMR ≥ 0 |
| LobbyManager.LobbyManager.GetNextOpponent | Assets/Scripts/LobbyManager.cs:107-121 | null iff every bot is dead; otherwise the chosen alive bot, which becomes the current opponent |
| LobbyManager.LobbyManager.SimulateRoundForBots | Assets/Scripts/LobbyManager.cs:133-160 | every bot's new state is its round outcome, and nothing else about any bot changes |
| LobbyManager.LobbyManager.ResolveBot | Assets/Scripts/LobbyManager.cs:135-159 | one bot's round in the loop |
| LobbyManager.LobbyManager.ReportPlayerVsBotResult | Assets/Scripts/LobbyManager.cs:165-181 | a player win damages the current opponent; a loss or no opponent changes nothing |
| AIManager.MaxTier | Assets/Scripts/AIManager.cs:31 | turn/2 + 1 clamped to [1, 6] |
| AIManager.MaxTierMonotone | Assets/Scripts/AIManager.cs:31 | the cap never falls as turns pass |
| AIManager.ValidUnitsMembers | Assets/Scripts/AIManager.cs:34-38 | a unit is valid iff it is assigned and within the cap |
| AIManager.ValidUnits | Assets/Scripts/AIManager.cs:34-38 | the valid units are no more than all units; `ValidUnitsMembers` gives their exact members |
| AIManager.AIManager.GenerateEnemyBoard | Assets/Scripts/AIManager.cs:18-68 | every unit is valid and within the cap; at most 7 units; cost within a positive budget; empty with no valid units or no budget |
| AIManager.SpendBudget | Assets/Scripts/AIManager.cs:48-64 | the bounded loop keeps cost ≤ budget, size ≤ 7 and at most 50 picks |
| DeathSaveManager.SaveDC | Assets/Scripts/DeathSaveManager.cs:127-128 | the DC is \|health\| + 1, at least 1 |
| DeathSaveManager.SaveStep | Assets/Scripts/DeathSaveManager.cs:143-197 | a roll saves iff it meets the DC; otherwise the third failure is fatal and earlier ones add one |
| DeathSaveManager.HopelessSave | Assets/Scripts/DeathSaveManager.cs:149-157 | 20 or more from zero health, no d20 roll saves |
| DeathSaveManager.ThreeFailuresDie | Assets/Scripts/DeathSaveManager.cs:143-197 | from no failures, death iff the first three rolls miss; else stabilised on the first hit |
| DeathSaveManager.Placement | Assets/Scripts/DeathSaveManager.cs:229-233 | 1 + living bots with a lobby, 8 without |
| DeathSaveManager.PlacementRange | Assets/Scripts/DeathSaveManager.cs:229-233 | with up to 7 bots the placement is 1 to 8, and 1 iff all bots are dead |
| DeathSaveManager.DeathSaveManager.constructor | Assets/Scripts/DeathSaveManager.cs:36-37 | no exhaustion, no failures, PvP mode |
| DeathSaveManager.DeathSaveManager.StartDeathSequence | Assets/Scripts/DeathSaveManager.cs:49-62 | the wager in PvP mode, the saves in PvE |
| DeathSaveManager.DeathSaveManager.RollDice | Assets/Scripts/DeathSaveManager.cs:143-169 | a save revives at 1 health with one more exhaustion; a failure counts and the third ends the game and records the placement |
| DeathSaveManager.DeathSaveManager.PvERevive | Assets/Scripts/DeathSaveManager.cs:171-183 | exhaustion + 1, failures 0, health 1, conscious |
| DeathSaveManager.DeathSaveManager.HandlePvEFailure | Assets/Scripts/DeathSaveManager.cs:185-197 | one more failure; game over exactly at 3 |
| DeathSaveManager.DeathSaveManager.FlipCoin | Assets/Scripts/DeathSaveManager.cs:84-104 | revive at 1 health iff the draw is above 0.5, otherwise game over |
| DeathSaveManager.DeathSaveManager.PvPRevive | Assets/Scripts/DeathSaveManager.cs:106-117 | health 1 and conscious, no exhaustion |
| DeathSaveManager.DeathSaveManager.TriggerVictory | Assets/Scripts/DeathSaveManager.cs:201-214 | a first place is recorded in the profile |
| DeathSaveManager.DeathSaveManager.SuccumbToDeath | Assets/Scripts/DeathSaveManager.cs:216-219 | ends the game |
| DeathSaveManager.DeathSaveManager.GameOver | Assets/Scripts/DeathSaveManager.cs:221-246 | returns the placement and records it only when both a lobby and a profile exist |
| DeathSaveManager.CountLiving | Assets/Scripts/DeathSaveManager.cs:232 | the counting loop returns the number of living bots |
| PostMortemUI.FilterDecisionsIsSelect | Assets/Scripts/PostMortemUI.cs:124-135 | the two chained `Where`s equal one pass with both tests |
| PostMortemUI.WhereQualityIsSelect | Assets/Scripts/PostMortemUI.cs:128-129 | the quality `Where` keeps the decisions of that quality |
| PostMortemUI.WhereTypeAfterSelect | Assets/Scripts/PostMortemUI.cs:131-132 | the type `Where` after the quality filter applies both tests |
| PostMortemUI.WhereTypeAppend | Assets/Scripts/PostMortemUI.cs:131-132 | the type `Where` keeps order across concatenation |
| PostMortemUI.SelectNoFilter | Assets/Scripts/PostMortemUI.cs:124-135 | with neither filter set every decision is kept, in order |
| PostMortemUI.SelectMembers | Assets/Scripts/PostMortemUI.cs:124-135 | exactly the decisions matching both set filters survive |
| PostMortemUI.SelectAppend | Assets/Scripts/PostMortemUI.cs:124-135 | filtering distributes over concatenation, so order is kept |
| PostMortemUI.SelectIdempotent | Assets/Scripts/PostMortemUI.cs:124-135 | filtering twice equals filtering once |
| PostMortemUI.FilterDecisionsSpec | Assets/Scripts/PostMortemUI.cs:124-135 | membership iff matching, the input unchanged with no filters, idempotent |
| PostMortemUI.FilterDecisions | Assets/Scripts/PostMortemUI.cs:124-135 | the filtered list is no longer than the input, holds only input decisions that match both filters, and with no filters is the input; `FilterDecisionsSpec` adds the converse and idempotence |
| PostMortemUI.FilterDecisionsOrder | Assets/Scripts/PostMortemUI.cs:124-135 | the filter of a concatenation is the concatenation of the filters |
| PostMortemUI.QualityFilterFor | Assets/Scripts/PostMortemUI.cs:198-210 | index 0 clears the filter, index k selects the quality with ordinal k − 1 |
| PostMortemUI.TypeFilterFor | Assets/Scripts/PostMortemUI.cs:212-224 | index 0 clears the filter, index k selects the type with ordinal k − 1 |
| PostMortemUI.QualityDropdownRoundTrip | Assets/Scripts/PostMortemUI.cs:50-59 | every quality is selected by its own dropdown entry |
| PostMortemUI.TypeDropdownRoundTrip | Assets/Scripts/PostMortemUI.cs:50-69 | every decision type is selected by its own dropdown entry |
| PostMortemUI.GetScoreColor | Assets/Scripts/PostMortemUI.cs:276-282 | green ≥ 80, yellow ≥ 60, orange ≥ 40, red below |
| PostMortemUI.ScoreColorMonotone | Assets/Scripts/PostMortemUI.cs:276-282 | a higher score never gets a worse colour |
| PostMortemUI.SummaryOf | Assets/Scripts/PostMortemUI.cs:84-96 | no placement iff it is 0 or less; the change is final − start; a '+' iff it is ≥ 0 |
| PostMortemUI.PhaseRows | Assets/Scripts/PostMortemUI.cs:115-121 | never more rows than phases |
| PostMortemUI.PhaseRowsSpec | Assets/Scripts/PostMortemUI.cs:115-121 | a row exists exactly for each phase whose filtered list is non-empty, and shows that list |
| PostMortemUI.PostMortemUI.constructor | Assets/Scripts/PostMortemUI.cs:32-39 | no log, no filters, panel hidden, and the list container and row prefab wired as given |
| PostMortemUI.PostMortemUI.RefreshPhaseList | Assets/Scripts/PostMortemUI.cs:104-122 | the rows are cleared and rebuilt from the log's phases; with the container but no row prefab they are only cleared; without a log or container they are kept |
| PostMortemUI.PostMortemUI.DisplayPostMortem | Assets/Scripts/PostMortemUI.cs:71-102 | a null log changes nothing; otherwise the log, its summary and its rows are shown |
| PostMortemUI.PostMortemUI.OnQualityFilterChanged | Assets/Scripts/PostMortemUI.cs:198-210 | the filter follows the dropdown index and the rows are rebuilt |
| PostMortemUI.PostMortemUI.OnTypeFilterChanged | Assets/Scripts/PostMortemUI.cs:212-224 | the filter follows the dropdown index and the rows are rebuilt |

## Left out

- DecisionEvaluator.DecisionEvaluator.EndGame, DeathSaveManager.DeathSaveManager.RollDice, DeathSaveManager.DeathSaveManager.PvERevive, DeathSaveManager.DeathSaveManager.PvPRevive, DeathSaveManager.DeathSaveManager.TriggerVictory, DeathSaveManager.DeathSaveManager.GameOver: the game manager is assumed present where the source dereferences `GameManager.instance` without a null guard (DecisionEvaluator.cs:78, DeathSaveManager.cs:111, 152, 178, 212, 245). The null-reference exception is not modelled. Nor are the states it would leave: `EndGame` with the final placement set and no statistics, `TriggerVictory` with first place never recorded, and `GameOver` after the placement is recorded.
- DecisionEvaluator.DecisionEvaluator.EvaluateEndTurnDecision: the board count is a parameter. The source reads `playerBoard.childCount` (DecisionEvaluator.cs:240) without checking that the board is assigned, and counts every child object of the board, not only units.
- EvaluationRules.GetLevelUpCost, EvaluationRules.EvaluateLevelingDecision, DecisionEvaluator.LevelUpEvaluation, DecisionEvaluator.DecisionEvaluator.EvaluateLevelUpDecision: these require a non-negative level. For a negative level the source indexes the cost table out of range and throws `IndexOutOfRangeException` (EvaluationRules.cs:60); that exception is not modelled.
- WAV headers, file and directory creation and console output in the sound generator. `math.sin` and `random.uniform` are function parameters, and reals stand in for Python floats, so there is no rounding.
- C# `float` is modelled as exact `real` throughout: impact, phase and average scores, the meta level and win-rate tables, `Mathf.Lerp`, the levelling gap bands, the impact multipliers and the score colours. Single-precision rounding at the band edges and in the score means is not captured.
- C# `int` is modelled as unbounded `int` everywhere except the sell rule's value test (`AddInt32`), whose 32-bit wrap-around decides the outcome for the largest attack values. Overflow elsewhere (gold, MMR, health, strength sums) is not modelled.
- DecisionEvaluator.DecisionEvaluator.EvaluateLevelUpDecision: when the meta table has no key serving the turn, the source's dictionary lookup throws `KeyNotFoundException` out of the hook. The model returns normally and records nothing; the exception is not modelled.
- `generate_tone`'s `duration * SAMPLE_RATE`: the sample count is `int()` of the real product, not of the float product.
- UI text, colours, panels, buttons, `Debug.Log`, reasoning and description strings, the hint pop-up, GUIDs and timestamps, portraits, leaderboard refresh and scene loading. The death screen's panel and title are modelled only as the `screen` field.
- `GameManager.cs` has no `isUnconscious` field, although `DeathSaveManager.cs` assigns one. The model adds it as a plain field.
- `ShopManager`'s tavern tier is not part of this model. The evaluator takes it as an optional parameter.
- Collecting the board units and cards from the scene (`GetBoardUnits`, `GetBoardCards`) is not modelled. The hooks take those lists as parameters.
- `AIManager.SimulateOpponentTurn`, called by the lobby, is not part of this model and is not in `AIManager.cs`. The first pass of `SimulateRoundForBots` and the setup call in `InitializeLobby` are therefore left out.
- AIManager.AIManager.GenerateEnemyBoard: takes the rounded budget as a parameter, since the `rawBudget` float product and `RoundToInt` are not modelled. It states bounds, validity and the empty cases, not which units the given picks buy.
- LobbyManager.LobbyManager.InitializeLobby: the `OrderBy(Random.value)` shuffle is an ordering of name indices with each index once.
- LobbyManager.LobbyManager.SimulateRoundForBots: requires a non-negative turn number, where every damage range is non-empty. It also requires the bots to be distinct, which `InitializeLobby` establishes.
- MetaSnapshot.BetweenKeys: states only that the value lies between the two benchmarks. BetweenKeysLerp gives the exact interpolation.
- MetaSnapshot's unused tables (`avgGoldByTurn`, `unitPlayRates`, `synergyWinRates`, `version`) and its JSON conversion are not modelled.
- The `decision` argument of `GenerateAlternatives` is unused by the source and not modelled.
- `HeroEconomyProfile`, PlayFab upload and analytics are not modelled. The post-mortem detail panel, clipboard export and quality colours are not modelled either.
- DecisionEvaluator.DecisionEvaluator.EndGame: as in the source, `EndGame` does not score the last phase before computing the averages.
- Concurrency between coroutines: each coroutine (`PvERevive`, `PvPRevive`) is one atomic step, and the 1.5 s wait is not modelled.
