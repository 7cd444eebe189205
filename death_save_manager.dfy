/** What happens when the player's health runs out: in PvE a series of
    d20 saving throws against a DC set by how far below zero the health is,
    in PvP a coin-flip wager; then either a revive at 1 health or the game
    over screen, which records the placement in the lobby. Each coroutine
    is one atomic step, and the die and the coin are parameters. */
module DeathSaveManager {
  import opened Common
  import GameManager
  import LobbyManager
  import PlayerProfile

  const MAX_FAILURES: int := 3

  /** What the death screen shows. */
  datatype Screen = Hidden | PvPWager | PvESave | GameOverScreen | VictoryScreen

  /** The save DC: one more than the size of the health deficit. */
  function SaveDC(playerHealth: int): (dc: int)
    ensures dc >= 1
    ensures playerHealth <= 0 ==> dc == 1 - playerHealth
  {
    AbsInt(playerHealth) + 1
  }

  /** The result of one saving throw. */
  datatype SaveOutcome = Revive | TryAgain(failures: int) | Dead

  /** One `RollDice`: a roll at or above the DC revives; otherwise the
      failure is counted, and the third one ends the game. */
  function SaveStep(failureCount: int, roll: int, playerHealth: int): (r: SaveOutcome)
    ensures r.Revive? <==> roll >= SaveDC(playerHealth)
    ensures r.Dead? <==> roll < SaveDC(playerHealth) && failureCount + 1 >= MAX_FAILURES
    ensures r.TryAgain? ==> r.failures == failureCount + 1 && r.failures < MAX_FAILURES
  {
    if roll >= SaveDC(playerHealth) then Revive
    else if failureCount + 1 >= MAX_FAILURES then Dead
    else TryAgain(failureCount + 1)
  }

  /** With the health 20 or more from zero, no d20 can save. */
  lemma HopelessSave(failureCount: int, roll: int, playerHealth: int)
    requires 1 <= roll <= 20 && (playerHealth <= -20 || playerHealth >= 20)
    ensures !SaveStep(failureCount, roll, playerHealth).Revive?
  {
  }

  /** A whole series of saves at one health, starting with `failureCount`
      failures, until one succeeds or the failures run out. */
  datatype SeriesResult = Stabilized(rollsUsed: nat) | Died(rollsUsed: nat) | Unfinished

  function SaveSeries(rolls: seq<int>, failureCount: int, playerHealth: int): SeriesResult
  {
    if rolls == [] then Unfinished
    else
      match SaveStep(failureCount, rolls[0], playerHealth)
      case Revive => Stabilized(1)
      case Dead => Died(1)
      case TryAgain(f) =>
        match SaveSeries(rolls[1..], f, playerHealth)
        case Stabilized(n) => Stabilized(n + 1)
        case Died(n) => Died(n + 1)
        case Unfinished => Unfinished
  }

  /** From no failures, the player dies exactly when the first three rolls
      all miss the DC, and otherwise stabilises on the first roll that
      makes it. */
  lemma {:induction false} ThreeFailuresDie(rolls: seq<int>, playerHealth: int)
    requires |rolls| >= 3
    ensures var dc := SaveDC(playerHealth);
      SaveSeries(rolls, 0, playerHealth).Died? <==> rolls[0] < dc && rolls[1] < dc && rolls[2] < dc
    ensures var dc := SaveDC(playerHealth);
      match SaveSeries(rolls, 0, playerHealth)
      case Died(n) => n == 3
      case Stabilized(n) => 1 <= n <= 3 && rolls[n - 1] >= dc && forall k :: 0 <= k < n - 1 ==> rolls[k] < dc
      case Unfinished => false
  {
    var dc := SaveDC(playerHealth);
    var r1, r2 := rolls[1..], rolls[2..];
    assert r1[1..] == r2;
    if rolls[0] < dc {
      assert SaveSeries(rolls, 0, playerHealth) == Lift(SaveSeries(r1, 1, playerHealth));
      if rolls[1] < dc {
        assert SaveSeries(r1, 1, playerHealth) == Lift(SaveSeries(r2, 2, playerHealth));
      }
    }
  }

  /** One more roll in front of a series. */
  function Lift(r: SeriesResult): SeriesResult
  {
    match r
    case Stabilized(n) => Stabilized(n + 1)
    case Died(n) => Died(n + 1)
    case Unfinished => Unfinished
  }

  /** The placement `GameOver` awards: one behind every living bot, or 8
      when there is no lobby. */
  function Placement(lobby: LobbyManager.LobbyManager?): (p: int)
    reads lobby, if lobby == null then {} else set o | o in lobby.opponents
    ensures lobby == null ==> p == 8
    ensures lobby != null ==> p == 1 + |LobbyManager.Alive(lobby.opponents)|
  {
    if lobby == null then 8 else 1 + |LobbyManager.Alive(lobby.opponents)|
  }

  /** In a lobby of at most seven bots the placement is 1st to 8th, and it
      is 1st exactly when every bot is dead. */
  lemma PlacementRange(lobby: LobbyManager.LobbyManager)
    requires |lobby.opponents| <= 7
    ensures 1 <= Placement(lobby) <= 8
    ensures Placement(lobby) == 1 <==> forall k :: 0 <= k < |lobby.opponents| ==> lobby.opponents[k].isDead
  {
    var ops := lobby.opponents;
    LobbyManager.AliveMembers(ops);
    if Placement(lobby) != 1 {
      var o := LobbyManager.Alive(ops)[0];
      assert o in LobbyManager.Alive(ops);
      assert o in ops;
      var k :| 0 <= k < |ops| && ops[k] == o;
      assert !ops[k].isDead;
    } else {
      forall k | 0 <= k < |ops|
        ensures ops[k].isDead
      {
        assert ops[k] in ops;
      }
    }
  }

  /** The profile after `RecordMatchResult(placement)`. */
  twostate predicate RecordedResult(profile: PlayerProfile.PlayerProfile, placement: int)
    reads profile
  {
    profile.last15Games == PlayerProfile.PushResult(old(profile.last15Games), placement <= 4)
    && profile.lossStreak == (if placement <= 4 then 0 else old(profile.lossStreak) + 1)
    && profile.mmr == PlayerProfile.ApplyStickyFloor(old(profile.mmr), PlayerProfile.CalculateMMRChange(placement),
                                                    PlayerProfile.RankFloorOf(profile.rankFloors, old(profile.mmr)),
                                                    profile.CheckDropCondition())
    && profile.rankFloors == old(profile.rankFloors)
  }

  class DeathSaveManager {
    var isPvPMode: bool
    var exhaustionLevel: int
    var failureCount: int
    var screen: Screen

    /** The field initialisers, with the panel hidden by `Start`. */
    constructor ()
      ensures isPvPMode && exhaustionLevel == 0 && failureCount == 0 && screen == Hidden
    {
      isPvPMode := true;
      exhaustionLevel := 0;
      failureCount := 0;
      screen := Hidden;
    }

    /** `StartDeathSequence`: the wager in PvP, the saving throws in PvE. */
    method StartDeathSequence()
      modifies this`screen
      ensures isPvPMode ==> screen == PvPWager
      ensures !isPvPMode ==> screen == PvESave
    {
      if isPvPMode {
        screen := PvPWager;
      } else {
        screen := PvESave;
      }
    }

    /** `RollDice` with the d20 `roll`, followed by `PvERevive` or
        `HandlePvEFailure`. */
    method RollDice(roll: int, gm: GameManager.GameManager, lobby: LobbyManager.LobbyManager?,
                    profile: PlayerProfile.PlayerProfile?)
      requires 1 <= roll <= 20
      modifies this`failureCount, this`exhaustionLevel, this`screen, gm`playerHealth, gm`isUnconscious, profile
      ensures var step := SaveStep(old(failureCount), roll, old(gm.playerHealth));
        (step.Revive? ==>
          exhaustionLevel == old(exhaustionLevel) + 1 && failureCount == 0
          && gm.playerHealth == 1 && !gm.isUnconscious && screen == Hidden)
        && (!step.Revive? ==>
          failureCount == old(failureCount) + 1 && exhaustionLevel == old(exhaustionLevel)
          && gm.playerHealth == old(gm.playerHealth) && gm.isUnconscious == old(gm.isUnconscious))
        && (step.TryAgain? ==> screen == PvESave)
        && (step.Dead? ==> screen == GameOverScreen)
      ensures SaveStep(old(failureCount), roll, old(gm.playerHealth)).Dead? && lobby != null && profile != null ==>
        RecordedResult(profile, Placement(lobby))
      ensures !(SaveStep(old(failureCount), roll, old(gm.playerHealth)).Dead? && lobby != null) && profile != null ==>
        unchanged(profile)
    {
      var targetDC := AbsInt(gm.playerHealth) + 1;
      if roll >= targetDC {
        PvERevive(gm);
      } else {
        HandlePvEFailure(lobby, profile);
      }
    }

    /** `PvERevive`: back to the shop at 1 health, one level more tired. */
    method PvERevive(gm: GameManager.GameManager)
      modifies this`failureCount, this`exhaustionLevel, this`screen, gm`playerHealth, gm`isUnconscious
      ensures exhaustionLevel == old(exhaustionLevel) + 1 && failureCount == 0
      ensures gm.playerHealth == 1 && !gm.isUnconscious && screen == Hidden
    {
      screen := Hidden;
      exhaustionLevel := exhaustionLevel + 1;
      failureCount := 0;
      gm.playerHealth := 1;
      gm.isUnconscious := false;
    }

    /** `HandlePvEFailure`: the third failure ends the game, earlier ones
        offer another roll. */
    method HandlePvEFailure(lobby: LobbyManager.LobbyManager?, profile: PlayerProfile.PlayerProfile?)
      modifies this`failureCount, this`screen, profile
      ensures failureCount == old(failureCount) + 1
      ensures failureCount >= MAX_FAILURES ==> screen == GameOverScreen
      ensures failureCount < MAX_FAILURES ==> screen == PvESave
      ensures failureCount >= MAX_FAILURES && lobby != null && profile != null ==>
        RecordedResult(profile, Placement(lobby))
      ensures !(failureCount >= MAX_FAILURES && lobby != null) && profile != null ==> unchanged(profile)
    {
      failureCount := failureCount + 1;
      if failureCount >= 3 {
        var _ := GameOver(lobby, profile);
      } else {
        screen := PvESave;
      }
    }

    /** `FlipCoin` with `outcome` the draw `Random.value`, followed by
        `PvPRevive` or `GameOver`. */
    method FlipCoin(outcome: real, gm: GameManager.GameManager, lobby: LobbyManager.LobbyManager?,
                    profile: PlayerProfile.PlayerProfile?)
      requires 0.0 <= outcome <= 1.0
      modifies this`screen, gm`playerHealth, gm`isUnconscious, profile
      ensures outcome > 0.5 ==> gm.playerHealth == 1 && !gm.isUnconscious && screen == Hidden
      ensures outcome <= 0.5 ==>
        gm.playerHealth == old(gm.playerHealth) && gm.isUnconscious == old(gm.isUnconscious)
        && screen == GameOverScreen
      ensures outcome <= 0.5 && lobby != null && profile != null ==> RecordedResult(profile, Placement(lobby))
      ensures !(outcome <= 0.5 && lobby != null) && profile != null ==> unchanged(profile)
    {
      if outcome > 0.5 {
        PvPRevive(gm);
      } else {
        var _ := GameOver(lobby, profile);
      }
    }

    /** `PvPRevive`: back to the shop at 1 health; no exhaustion in PvP. */
    method PvPRevive(gm: GameManager.GameManager)
      modifies this`screen, gm`playerHealth, gm`isUnconscious
      ensures gm.playerHealth == 1 && !gm.isUnconscious && screen == Hidden
    {
      screen := Hidden;
      gm.playerHealth := 1;
      gm.isUnconscious := false;
    }

    /** `TriggerVictory`: the last one standing records a first place. */
    method TriggerVictory(profile: PlayerProfile.PlayerProfile?)
      modifies this`screen, profile
      ensures screen == VictoryScreen
      ensures profile != null ==> RecordedResult(profile, 1)
    {
      screen := VictoryScreen;
      if profile != null {
        profile.RecordMatchResult(1);
      }
    }

    /** `SuccumbToDeath`, and the "accept fate" and "succumb" buttons. */
    method SuccumbToDeath(lobby: LobbyManager.LobbyManager?, profile: PlayerProfile.PlayerProfile?)
      modifies this`screen, profile
      ensures screen == GameOverScreen
      ensures lobby != null && profile != null ==> RecordedResult(profile, Placement(lobby))
      ensures lobby == null && profile != null ==> unchanged(profile)
    {
      var _ := GameOver(lobby, profile);
    }

    /** `GameOver`: the placement is recorded in the profile only when both
        a lobby and a profile exist. */
    method GameOver(lobby: LobbyManager.LobbyManager?, profile: PlayerProfile.PlayerProfile?) returns (placement: int)
      modifies this`screen, profile
      ensures screen == GameOverScreen
      ensures placement == Placement(lobby)
      ensures lobby != null && profile != null ==> RecordedResult(profile, placement)
      ensures lobby == null && profile != null ==> unchanged(profile)
    {
      screen := GameOverScreen;
      placement := 8;
      if lobby != null {
        var living := CountLiving(lobby.opponents);
        placement := 1 + living;
        if profile != null {
          profile.RecordMatchResult(placement);
        }
      }
    }
  }

  /** `opponents.Count(x => !x.isDead)`. */
  method CountLiving(ops: seq<LobbyManager.Opponent>) returns (n: int)
    ensures n == |LobbyManager.Alive(ops)|
  {
    n := 0;
    for i := 0 to |ops|
      invariant n == |LobbyManager.Alive(ops[..i])|
    {
      assert ops[..i + 1][..i] == ops[..i];
      if !ops[i].isDead {
        n := n + 1;
      }
    }
    assert ops[..|ops|] == ops;
  }
}
