/** The simulated lobby: seven bots with an MMR and a rank, their health in
    the auto-resolved rounds, and the choice of the player's next opponent.
    Unity's random draws are parameters of the operations. */
module LobbyManager {
  import opened Common
  import opened GameData
  import PlayerProfile

  /** The rank bands, lowest first. */
  datatype Rank = Iron | Bronze | Silver | Gold | Platinum | Diamond

  function RankIndex(r: Rank): (k: nat)
    ensures k <= 5
  {
    match r
    case Iron => 0
    case Bronze => 1
    case Silver => 2
    case Gold => 3
    case Platinum => 4
    case Diamond => 5
  }

  /** `GetRankFromMMR`: bands of 2000 MMR, with everything at or above
      10000 in Diamond and everything below 2000 (negatives too) in Iron. */
  function GetRankFromMMR(mmr: int): (r: Rank)
    ensures mmr < 2000 ==> r == Iron
    ensures mmr >= 10000 ==> r == Diamond
    ensures mmr >= 0 ==> RankIndex(r) == Min(mmr / 2000, 5)
  {
    if mmr < 2000 then Iron
    else if mmr < 4000 then Bronze
    else if mmr < 6000 then Silver
    else if mmr < 8000 then Gold
    else if mmr < 10000 then Platinum
    else Diamond
  }

  /** More MMR never means a lower rank. */
  lemma RankMonotone(lower: int, higher: int)
    requires lower <= higher
    ensures RankIndex(GetRankFromMMR(lower)) <= RankIndex(GetRankFromMMR(higher))
  {
  }

  /** The rank bands are the player's default sticky floors: a non-negative
      MMR's rank is the index of the floor it stands on. */
  lemma RankMatchesDefaultFloor(mmr: int)
    requires mmr >= 0
    ensures RankIndex(GetRankFromMMR(mmr)) * 2000 == PlayerProfile.RankFloorOf(PlayerProfile.DEFAULT_FLOORS, mmr)
  {
    PlayerProfile.DefaultFloors(mmr);
  }

  const BOT_NAMES: seq<string> := [
    "The Woodsman", "Baba Yaga", "Big Bad Wolf", "Cinderella",
    "Hansel", "Gretel", "Snow White", "Prince Charming",
    "Rumpelstiltskin", "Red Riding Hood", "The Huntsman", "Geppetto",
    "Jack (Beanstalk)", "Alice", "The Hatter", "Cheshire"]

  /** `botNames.OrderBy(x => Random.value)`: an ordering of the name
      indices, each index once. */
  predicate IsShuffle(order: seq<int>)
  {
    |order| == |BOT_NAMES|
    && (forall k :: 0 <= k < |order| ==> 0 <= order[k] < |BOT_NAMES|)
    && (forall i, j :: 0 <= i < j < |order| ==> order[i] != order[j])
  }

  /** A bot's MMR: the player's starting MMR plus an offset, never negative. */
  function BotMMR(playerStartingMMR: int, offset: int): (mmr: int)
    ensures mmr >= 0
    ensures playerStartingMMR + offset >= 0 ==> mmr == playerStartingMMR + offset
    ensures playerStartingMMR + offset < 0 ==> mmr == 0
  {
    Max(0, playerStartingMMR + offset)
  }

  /** The offsets `Random.Range(-500, 500)` can draw put every bot within
      500 MMR of the player, unless that would be negative. */
  lemma BotMMRNearPlayer(playerStartingMMR: int, offset: int)
    requires -500 <= offset < 500 && playerStartingMMR >= 500
    ensures playerStartingMMR - 500 <= BotMMR(playerStartingMMR, offset) < playerStartingMMR + 500
  {
  }

  /** The part of a bot that the rounds change. */
  datatype BotState = BotState(health: int, isDead: bool, lastDamageTaken: int)

  /** The part of a bot that the rounds leave alone. */
  datatype BotProfile = BotProfile(name: string, heroName: string, mmr: int, rank: Rank,
                                   gold: int, tavernTier: int, roster: seq<UnitData>)

  /** A bot after taking damage: health drops by the damage and stops at 0,
      where the bot dies. */
  function Damaged(s: BotState, damage: int): (r: BotState)
    ensures r.lastDamageTaken == damage
    ensures r.health == Max(0, s.health - damage)
    ensures r.isDead <==> s.isDead || r.health == 0
  {
    var h := s.health - damage;
    if h <= 0 then BotState(0, true, damage) else BotState(h, s.isDead, damage)
  }

  /** One auto-resolved round for a bot that takes part: a winner records no
      damage, a loser is damaged. */
  function RoundOutcome(s: BotState, won: bool, damage: int): (r: BotState)
    ensures won ==> r == s.(lastDamageTaken := 0)
    ensures !won ==> r == Damaged(s, damage)
  {
    if won then s.(lastDamageTaken := 0) else Damaged(s, damage)
  }

  /** The sum of the tiers of a roster. */
  function TierSum(roster: seq<UnitData>): int
  {
    if roster == [] then 0 else TierSum(roster[..|roster| - 1]) + roster[|roster| - 1].tier
  }

  /** A bot's power: the tiers of its units plus one per unit. */
  function RosterPower(roster: seq<UnitData>): int
  {
    TierSum(roster) + |roster|
  }

  predicate TiersAtLeastOne(roster: seq<UnitData>)
  {
    forall k :: 0 <= k < |roster| ==> roster[k].tier >= 1
  }

  /** With tiers of at least 1, every unit adds at least 2 power. */
  lemma {:induction false} RosterPowerAtLeastTwicePerUnit(roster: seq<UnitData>)
    requires TiersAtLeastOne(roster)
    ensures RosterPower(roster) >= 2 * |roster|
  {
    if roster != [] {
      RosterPowerAtLeastTwicePerUnit(roster[..|roster| - 1]);
    }
  }

  /** The win test: power against twice the turn number plus a swing. */
  predicate BotWins(power: int, turnNumber: int, swing: int)
  {
    power >= turnNumber * 2 + swing
  }

  /** The round for one bot: dead bots and the player's current opponent sit
      it out. */
  function RoundFor(s: BotState, skip: bool, power: int, turnNumber: int, swing: int, damage: int): (r: BotState)
    ensures skip ==> r == s
    ensures !skip ==> r == RoundOutcome(s, BotWins(power, turnNumber, swing), damage)
  {
    if skip then s else RoundOutcome(s, BotWins(power, turnNumber, swing), damage)
  }

  /** The damage `Random.Range(2, 3 + turnNumber / 2)` can draw. */
  predicate DamageRoll(turnNumber: int, damage: int)
  {
    2 <= damage < 3 + CDiv(turnNumber, 2)
  }

  /** A losing bot takes between 2 and 2 + turn/2 damage, never falls below
      0 health and is dead exactly when it reaches 0; a winning bot keeps its
      health and records no damage. */
  lemma RoundBounds(s: BotState, power: int, turnNumber: int, swing: int, damage: int)
    requires turnNumber >= 0 && DamageRoll(turnNumber, damage) && !s.isDead
    ensures var r := RoundFor(s, false, power, turnNumber, swing, damage);
      if BotWins(power, turnNumber, swing) then
        r.health == s.health && !r.isDead && r.lastDamageTaken == 0
      else
        2 <= r.lastDamageTaken <= 2 + turnNumber / 2 && r.health >= 0
        && (r.health < s.health || r.health == 0)
        && (r.isDead <==> r.health == 0)
  {
  }

  /** A bot as `InitializeLobby` creates it. */
  predicate IsNewBot(o: Opponent, name: string, startingHealth: int, mmr: int)
    reads o
  {
    o.State() == BotState(startingHealth, false, 0)
    && o.Profile() == BotProfile(name, "Unknown", mmr, GetRankFromMMR(mmr), 3, 1, [])
  }

  /** All bots distinct: the list never holds one bot twice. */
  predicate Distinct(ops: seq<Opponent>)
  {
    forall i, j :: 0 <= i < j < |ops| ==> ops[i] != ops[j]
  }

  /** The bots still in the game, in lobby order. */
  function Alive(ops: seq<Opponent>): (alive: seq<Opponent>)
    reads set o | o in ops
    ensures |alive| <= |ops|
  {
    if ops == [] then []
    else Alive(ops[..|ops| - 1]) + (if ops[|ops| - 1].isDead then [] else [ops[|ops| - 1]])
  }

  /** The alive list holds exactly the bots that are not dead. */
  lemma {:induction false} AliveMembers(ops: seq<Opponent>)
    ensures forall o :: o in Alive(ops) ==> o in ops && !o.isDead
    ensures forall o :: o in ops && !o.isDead ==> o in Alive(ops)
  {
    if ops != [] {
      var init := ops[..|ops| - 1];
      AliveMembers(init);
      assert ops == init + [ops[|ops| - 1]];
    }
  }

  class Opponent {
    var name: string
    var heroName: string
    var health: int
    var isDead: bool
    var lastDamageTaken: int
    var mmr: int
    var rank: Rank
    var gold: int
    var tavernTier: int
    var roster: seq<UnitData>

    /** A new bot as the lobby sets it up: alive, at the starting health,
        with 3 gold, tier 1, an empty roster and its rank from its MMR. */
    constructor (name: string, startingHealth: int, mmr: int)
      ensures this.name == name && heroName == "Unknown"
      ensures health == startingHealth && !isDead && lastDamageTaken == 0
      ensures this.mmr == mmr && rank == GetRankFromMMR(mmr)
      ensures gold == 3 && tavernTier == 1 && roster == []
    {
      this.name := name;
      heroName := "Unknown";
      health := startingHealth;
      isDead := false;
      lastDamageTaken := 0;
      this.mmr := mmr;
      rank := GetRankFromMMR(mmr);
      gold := 3;
      tavernTier := 1;
      roster := [];
    }

    function State(): BotState
      reads this
    {
      BotState(health, isDead, lastDamageTaken)
    }

    function Profile(): BotProfile
      reads this
    {
      BotProfile(name, heroName, mmr, rank, gold, tavernTier, roster)
    }

    /** Losing a fight: the damage is subtracted and recorded, and the bot
        dies at 0 health. */
    method TakeDamage(damage: int)
      modifies this`health, this`isDead, this`lastDamageTaken
      ensures State() == Damaged(old(State()), damage)
    {
      health := health - damage;
      lastDamageTaken := damage;
      if health <= 0 {
        health := 0;
        isDead := true;
      }
    }
  }

  class LobbyManager {
    var totalPlayers: int
    var startingHealth: int
    var playerStartingMMR: int
    var opponents: seq<Opponent>
    var currentOpponent: Opponent?

    predicate Valid()
      reads this
    {
      Distinct(opponents)
    }

    /** The editor configuration: eight players, 30 health, 3000 MMR. */
    constructor ()
      ensures totalPlayers == 8 && startingHealth == 30 && playerStartingMMR == 3000
      ensures opponents == [] && currentOpponent == null
      ensures Valid()
    {
      totalPlayers, startingHealth, playerStartingMMR := 8, 30, 3000;
      opponents := [];
      currentOpponent := null;
    }

    /** The number of bots: one per other player, as many as there are names. */
    function BotCount(): (n: nat)
      reads this
      ensures n <= |BOT_NAMES|
      ensures 1 <= totalPlayers <= |BOT_NAMES| + 1 ==> n == totalPlayers - 1
    {
      Clamp(totalPlayers - 1, 0, |BOT_NAMES|)
    }

    /** `InitializeLobby`: one fresh bot per name, taken in the shuffled
        `order`, each with an MMR offset drawn in [-500, 500). */
    method InitializeLobby(order: seq<int>, offsets: seq<int>)
      requires IsShuffle(order)
      requires |offsets| >= BotCount()
      requires forall k :: 0 <= k < |offsets| ==> -500 <= offsets[k] < 500
      modifies this`opponents
      ensures Valid()
      ensures |opponents| == BotCount()
      ensures forall k :: 0 <= k < |opponents| ==> fresh(opponents[k])
      ensures forall k :: 0 <= k < |opponents| ==>
        IsNewBot(opponents[k], BOT_NAMES[order[k]], startingHealth, BotMMR(playerStartingMMR, offsets[k]))
      ensures forall k :: 0 <= k < |opponents| ==> opponents[k].mmr >= 0
    {
      var count := BotCount();
      var bots: seq<Opponent> := [];
      for i := 0 to count
        invariant |bots| == i
        invariant Distinct(bots)
        invariant forall k :: 0 <= k < i ==> fresh(bots[k])
        invariant forall k :: 0 <= k < i ==>
          IsNewBot(bots[k], BOT_NAMES[order[k]], startingHealth, BotMMR(playerStartingMMR, offsets[k]))
      {
        var bot := new Opponent(BOT_NAMES[order[i]], startingHealth, BotMMR(playerStartingMMR, offsets[i]));
        bots := bots + [bot];
      }
      opponents := bots;
    }

    /** `GetNextOpponent`: a bot picked among the living by `choice` (the
        draw `Random.Range(0, alive.Count)`), or null when all are dead. */
    method GetNextOpponent(choice: int) returns (next: Opponent?)
      requires Alive(opponents) != [] ==> 0 <= choice < |Alive(opponents)|
      modifies this`currentOpponent
      ensures currentOpponent == next
      ensures next == null <==> forall k :: 0 <= k < |opponents| ==> opponents[k].isDead
      ensures next != null ==> Alive(opponents) != [] && next == Alive(opponents)[choice] && next in opponents && !next.isDead
    {
      var alive: seq<Opponent> := [];
      for i := 0 to |opponents|
        invariant alive == Alive(opponents[..i])
      {
        assert opponents[..i + 1][..i] == opponents[..i];
        if !opponents[i].isDead {
          alive := alive + [opponents[i]];
        }
      }
      assert opponents[..|opponents|] == opponents;
      AliveMembers(opponents);
      if |alive| == 0 {
        currentOpponent := null;
        return null;
      }
      assert alive[choice] in alive;
      currentOpponent := alive[choice];
      return currentOpponent;
    }

    /** The second pass of `SimulateRoundForBots`: every living bot other
        than the current opponent wins or loses a round. `swings[k]` is the
        draw `Random.Range(-2, 3)` and `damages[k]` the draw
        `Random.Range(2, 3 + turnNumber / 2)` for the k-th bot. */
    method SimulateRoundForBots(turnNumber: int, swings: seq<int>, damages: seq<int>)
      requires Valid()
      requires turnNumber >= 0
      requires |swings| == |opponents| && |damages| == |opponents|
      requires forall k :: 0 <= k < |swings| ==> -2 <= swings[k] < 3
      requires forall k :: 0 <= k < |damages| ==> DamageRoll(turnNumber, damages[k])
      modifies set o | o in opponents
      ensures forall k :: 0 <= k < |opponents| ==>
        opponents[k].State() == RoundFor(old(opponents[k].State()), old(opponents[k].isDead) || opponents[k] == currentOpponent,
                                         RosterPower(opponents[k].roster), turnNumber, swings[k], damages[k])
      ensures forall k :: 0 <= k < |opponents| ==> opponents[k].Profile() == old(opponents[k].Profile())
    {
      for i := 0 to |opponents|
        invariant forall k :: 0 <= k < i ==>
          opponents[k].State() == RoundFor(old(opponents[k].State()), old(opponents[k].isDead) || opponents[k] == currentOpponent,
                                           RosterPower(opponents[k].roster), turnNumber, swings[k], damages[k])
        invariant forall k :: i <= k < |opponents| ==> opponents[k].State() == old(opponents[k].State())
        invariant forall k :: 0 <= k < |opponents| ==> opponents[k].Profile() == old(opponents[k].Profile())
      {
        ResolveBot(i, turnNumber, swings[i], damages[i]);
      }
    }

    /** One bot's turn in the round loop. */
    method ResolveBot(i: int, turnNumber: int, swing: int, damage: int)
      requires Valid() && 0 <= i < |opponents|
      modifies opponents[i]
      ensures opponents[i].State() == RoundFor(old(opponents[i].State()), old(opponents[i].isDead) || opponents[i] == currentOpponent,
                                               RosterPower(opponents[i].roster), turnNumber, swing, damage)
      ensures opponents[i].Profile() == old(opponents[i].Profile())
    {
      var bot := opponents[i];
      if bot.isDead || bot == currentOpponent {
        return;
      }
      var power := TierSum(bot.roster) + |bot.roster|;
      var won := power >= turnNumber * 2 + swing;
      if !won {
        bot.TakeDamage(damage);
      } else {
        bot.lastDamageTaken := 0;
      }
    }

    /** `ReportPlayerVsBotResult`: a player win damages the current opponent;
        a loss, or no opponent, changes nothing. */
    method ReportPlayerVsBotResult(playerWon: bool, damageToLoser: int)
      modifies currentOpponent
      ensures currentOpponent != null && playerWon ==>
        currentOpponent.State() == Damaged(old(currentOpponent.State()), damageToLoser)
      ensures currentOpponent != null && !playerWon ==>
        currentOpponent.State() == old(currentOpponent.State())
      ensures currentOpponent != null ==> currentOpponent.Profile() == old(currentOpponent.Profile())
    {
      if currentOpponent == null {
        return;
      }
      if playerWon {
        currentOpponent.TakeDamage(damageToLoser);
      }
    }
  }
}
