/** The enemy board generator: a tier cap that rises every two turns, and a
    bounded loop that buys random units within a gold budget. The budget
    (computed in floating point from the turn and the difficulty) and the
    random picks are parameters. */
module AIManager {
  import opened Common
  import opened GameData

  const MAX_BOARD_SIZE: nat := 7
  const MAX_ATTEMPTS: nat := 50

  /** The highest tier the AI may field: one more every two turns, from 1
      up to 6. */
  function MaxTier(turnNumber: int): (t: int)
    ensures 1 <= t <= 6
    ensures 0 <= turnNumber <= 10 ==> t == turnNumber / 2 + 1
    ensures turnNumber >= 10 ==> t == 6
  {
    Clamp(CDiv(turnNumber, 2) + 1, 1, 6)
  }

  /** Later turns never lower the cap. */
  lemma MaxTierMonotone(earlier: int, later: int)
    requires earlier <= later
    ensures MaxTier(earlier) <= MaxTier(later)
  {
  }

  /** The assigned units at or below the tier cap, in inspector order. */
  function ValidUnits(allUnits: seq<Option<UnitData>>, maxTier: int): (valid: seq<UnitData>)
    ensures |valid| <= |allUnits|
  {
    if allUnits == [] then []
    else
      var last := allUnits[|allUnits| - 1];
      ValidUnits(allUnits[..|allUnits| - 1], maxTier)
      + (if last.Some? && last.value.tier <= maxTier then [last.value] else [])
  }

  /** A unit is valid exactly when it is assigned in the list and within the
      cap. */
  lemma {:induction false} ValidUnitsMembers(allUnits: seq<Option<UnitData>>, maxTier: int)
    ensures forall u :: u in ValidUnits(allUnits, maxTier) <==> Some(u) in allUnits && u.tier <= maxTier
  {
    if allUnits != [] {
      var init := allUnits[..|allUnits| - 1];
      ValidUnitsMembers(init, maxTier);
      assert allUnits == init + [allUnits[|allUnits| - 1]];
    }
  }

  /** The gold a board costs. */
  function TotalCost(board: seq<UnitData>): int
  {
    if board == [] then 0 else TotalCost(board[..|board| - 1]) + board[|board| - 1].cost
  }

  /** Buying one more unit adds its cost. */
  lemma TotalCostPush(board: seq<UnitData>, u: UnitData)
    ensures TotalCost(board + [u]) == TotalCost(board) + u.cost
  {
    assert (board + [u])[..|board|] == board;
  }

  /** The picks `Random.Range(0, validUnits.Count)` can draw, one per
      attempt. */
  predicate PicksInRange(picks: seq<int>, count: int)
  {
    |picks| >= MAX_ATTEMPTS && forall k :: 0 <= k < |picks| ==> 0 <= picks[k] < count
  }

  class AIManager {
    /** The inspector's unit list; an entry may be unassigned. */
    var allUnits: seq<Option<UnitData>>

    constructor (allUnits: seq<Option<UnitData>>)
      ensures this.allUnits == allUnits
    {
      this.allUnits := allUnits;
    }

    /** `GenerateEnemyBoard`: the filter loop, then at most 50 random picks,
        each bought only when it still fits in the budget, until the budget
        is reached or the board holds 7 units. */
    method GenerateEnemyBoard(turnNumber: int, budget: int, picks: seq<int>) returns (board: seq<UnitData>)
      requires ValidUnits(allUnits, MaxTier(turnNumber)) != [] ==>
        PicksInRange(picks, |ValidUnits(allUnits, MaxTier(turnNumber))|)
      ensures forall u :: u in board ==> Some(u) in allUnits && u.tier <= MaxTier(turnNumber)
      ensures forall u :: u in board ==> u in ValidUnits(allUnits, MaxTier(turnNumber))
      ensures |board| <= MAX_BOARD_SIZE
      ensures board == [] || TotalCost(board) <= budget
      ensures budget <= 0 ==> board == []
      ensures ValidUnits(allUnits, MaxTier(turnNumber)) == [] ==> board == []
    {
      var maxTier := Clamp(CDiv(turnNumber, 2) + 1, 1, 6);
      var validUnits: seq<UnitData> := [];
      for i := 0 to |allUnits|
        invariant validUnits == ValidUnits(allUnits[..i], maxTier)
      {
        assert allUnits[..i + 1][..i] == allUnits[..i];
        var u := allUnits[i];
        if u.Some? && u.value.tier <= maxTier {
          validUnits := validUnits + [u.value];
        }
      }
      assert allUnits[..|allUnits|] == allUnits;
      ValidUnitsMembers(allUnits, maxTier);
      board := [];
      if |validUnits| == 0 {
        return;
      }
      board := SpendBudget(validUnits, budget, picks);
    }
  }

  /** The budget loop of `GenerateEnemyBoard` over the valid units. */
  method SpendBudget(validUnits: seq<UnitData>, budget: int, picks: seq<int>) returns (board: seq<UnitData>)
    requires PicksInRange(picks, |validUnits|)
    ensures forall u :: u in board ==> u in validUnits
    ensures |board| <= MAX_BOARD_SIZE
    ensures board == [] || TotalCost(board) <= budget
    ensures budget <= 0 ==> board == []
  {
    board := [];
    var currentCost := 0;
    var attempts := 0;
    while currentCost < budget && |board| < 7 && attempts < 50
      invariant 0 <= attempts <= MAX_ATTEMPTS
      invariant |board| <= MAX_BOARD_SIZE
      invariant currentCost == TotalCost(board)
      invariant board == [] || currentCost <= budget
      invariant budget <= 0 ==> board == []
      invariant forall u :: u in board ==> u in validUnits
      decreases MAX_ATTEMPTS - attempts
    {
      var index := picks[attempts];
      var pick := validUnits[index];
      assert pick in validUnits;
      attempts := attempts + 1;
      if currentCost + pick.cost <= budget {
        TotalCostPush(board, pick);
        board := board + [pick];
        currentCost := currentCost + pick.cost;
      }
    }
  }
}
