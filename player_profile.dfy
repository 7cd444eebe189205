/** The player's ranked profile: MMR, the current loss streak and the last
    fifteen results, with "sticky" rank floors that protect a player from
    dropping a tier until they have clearly earned it. */
module PlayerProfile {
  import opened Common

  const HISTORY_LENGTH: nat := 15

  /** The MMR change per placement, 1st to 8th. */
  const MMR_DELTAS: seq<int> := [100, 60, 40, 10, -10, -40, -60, -100]

  /** `CalculateMMRChange`: placements outside 1..8 count as 1st or 8th. */
  function CalculateMMRChange(placement: int): (delta: int)
    ensures delta == MMR_DELTAS[Clamp(placement - 1, 0, 7)]
    ensures delta > 0 <==> placement <= 4
    ensures -100 <= delta <= 100
  {
    MMR_DELTAS[Clamp(placement - 1, 0, 7)]
  }

  /** A better (smaller) placement never earns less. */
  lemma MMRChangeMonotone(better: int, worse: int)
    requires better <= worse
    ensures CalculateMMRChange(better) >= CalculateMMRChange(worse)
  {
  }

  /** First and eighth are symmetric: +100 and -100, and likewise for every
      mirrored pair of placements. */
  lemma MMRChangeSymmetric(placement: int)
    requires 1 <= placement <= 8
    ensures CalculateMMRChange(placement) == -CalculateMMRChange(9 - placement)
  {
  }

  /** The value `GetRankFloor` returns: scanning the floors from the last to
      the first, the first one at or below the MMR, else 0. */
  function RankFloorOf(floors: seq<int>, currentMMR: int): (floor: int)
    ensures floor == 0 || (floor in floors && floor <= currentMMR)
  {
    if floors == [] then 0
    else if currentMMR >= floors[|floors| - 1] then floors[|floors| - 1]
    else RankFloorOf(floors[..|floors| - 1], currentMMR)
  }

  predicate Ascending(floors: seq<int>)
  {
    forall i, j :: 0 <= i < j < |floors| ==> floors[i] < floors[j]
  }

  /** Whatever the order of the floors, the scan returns a floor the MMR
      has reached when there is one, and 0 when every floor is above it. */
  lemma {:induction false} RankFloorScan(floors: seq<int>, currentMMR: int)
    ensures (exists i :: 0 <= i < |floors| && floors[i] <= currentMMR) ==>
      RankFloorOf(floors, currentMMR) in floors && RankFloorOf(floors, currentMMR) <= currentMMR
    ensures (forall i :: 0 <= i < |floors| ==> floors[i] > currentMMR) ==> RankFloorOf(floors, currentMMR) == 0
  {
    if floors != [] {
      var n := |floors| - 1;
      var prefix := floors[..n];
      RankFloorScan(prefix, currentMMR);
      if currentMMR < floors[n] {
        if exists i :: 0 <= i < |floors| && floors[i] <= currentMMR {
          var i :| 0 <= i < |floors| && floors[i] <= currentMMR;
          assert prefix[i] == floors[i];
          var r := RankFloorOf(prefix, currentMMR);
          assert r in prefix;
          var k :| 0 <= k < |prefix| && prefix[k] == r;
          assert floors[k] == r;
        } else {
          forall i | 0 <= i < |prefix|
            ensures prefix[i] > currentMMR
          {
            assert prefix[i] == floors[i];
          }
        }
      }
    }
  }

  /** With ascending floors the scan finds the highest floor at or below the
      MMR, and 0 when every floor is above it. */
  lemma {:induction false} RankFloorIsHighestReached(floors: seq<int>, currentMMR: int)
    requires Ascending(floors)
    ensures (exists i :: 0 <= i < |floors| && floors[i] <= currentMMR) ==>
      RankFloorOf(floors, currentMMR) in floors
      && RankFloorOf(floors, currentMMR) <= currentMMR
      && forall j :: 0 <= j < |floors| && floors[j] <= currentMMR ==> floors[j] <= RankFloorOf(floors, currentMMR)
    ensures (forall i :: 0 <= i < |floors| ==> floors[i] > currentMMR) ==> RankFloorOf(floors, currentMMR) == 0
  {
    RankFloorScan(floors, currentMMR);
    if floors != [] {
      var n := |floors| - 1;
      var prefix := floors[..n];
      assert Ascending(prefix) by {
        forall i, j | 0 <= i < j < |prefix|
          ensures prefix[i] < prefix[j]
        {
          assert prefix[i] == floors[i] && prefix[j] == floors[j];
        }
      }
      RankFloorIsHighestReached(prefix, currentMMR);
      var r := RankFloorOf(floors, currentMMR);
      forall j | 0 <= j < |floors| && floors[j] <= currentMMR
        ensures floors[j] <= r
      {
        if currentMMR >= floors[n] {
          if j < n {
            assert floors[j] < floors[n];
          }
        } else {
          assert j < n && prefix[j] == floors[j];
          assert exists i :: 0 <= i < |prefix| && prefix[i] <= currentMMR;
        }
      }
    }
  }

  /** The default floors, 0 to 10000 in steps of 2000. */
  const DEFAULT_FLOORS: seq<int> := [0, 2000, 4000, 6000, 8000, 10000]

  /** With the default floors, the floor is the MMR rounded down to a
      multiple of 2000, capped at 10000. */
  lemma DefaultFloors(currentMMR: int)
    requires 0 <= currentMMR
    ensures RankFloorOf(DEFAULT_FLOORS, currentMMR) == Min(currentMMR / 2000, 5) * 2000
  {
    var f := DEFAULT_FLOORS;
    var f5, f4, f3, f2, f1 := f[..5], f[..4], f[..3], f[..2], f[..1];
    assert f5[..4] == f4 && f4[..3] == f3 && f3[..2] == f2 && f2[..1] == f1 && f1[..0] == [];
    if currentMMR < 10000 {
      assert RankFloorOf(f, currentMMR) == RankFloorOf(f5, currentMMR);
      if currentMMR < 8000 {
        assert RankFloorOf(f5, currentMMR) == RankFloorOf(f4, currentMMR);
        if currentMMR < 6000 {
          assert RankFloorOf(f4, currentMMR) == RankFloorOf(f3, currentMMR);
          if currentMMR < 4000 {
            assert RankFloorOf(f3, currentMMR) == RankFloorOf(f2, currentMMR);
            if currentMMR < 2000 {
              assert RankFloorOf(f2, currentMMR) == RankFloorOf(f1, currentMMR);
            }
          }
        }
      }
    }
  }

  /** Wins in a result history. */
  function WinCount(history: seq<bool>): (n: nat)
    ensures n <= |history|
  {
    if history == [] then 0 else (if history[0] then 1 else 0) + WinCount(history[1..])
  }

  lemma {:induction false} WinCountAppend(history: seq<bool>, isWin: bool)
    ensures WinCount(history + [isWin]) == WinCount(history) + (if isWin then 1 else 0)
  {
    if history != [] {
      assert (history + [isWin])[1..] == history[1..] + [isWin];
      WinCountAppend(history[1..], isWin);
    }
  }

  /** The history after one result: appended at the end, and the oldest
      entry dropped when that makes it longer than fifteen. */
  function PushResult(history: seq<bool>, isWin: bool): (r: seq<bool>)
    ensures |history| < HISTORY_LENGTH ==> r == history + [isWin]
    ensures |history| >= HISTORY_LENGTH ==> r == history[1..] + [isWin]
    ensures |history| <= HISTORY_LENGTH ==> |r| <= HISTORY_LENGTH
    ensures r[|r| - 1] == isWin
  {
    var added := history + [isWin];
    if |added| > HISTORY_LENGTH then added[1..] else added
  }

  /** Recording a win never lowers the recent-win count and recording a loss
      never raises it. */
  lemma PushResultWinCount(history: seq<bool>, isWin: bool)
    ensures isWin ==> WinCount(PushResult(history, isWin)) >= WinCount(history)
    ensures !isWin ==> WinCount(PushResult(history, isWin)) <= WinCount(history)
  {
    WinCountAppend(history, isWin);
    if |history| >= HISTORY_LENGTH {
      WinCountAppend(history[1..], isWin);
    }
  }

  /** The MMR after the sticky-floor rule: the raw result, unless it falls
      below the floor and dropping is not allowed. */
  function ApplyStickyFloor(oldMMR: int, change: int, floor: int, canDrop: bool): (r: int)
    ensures oldMMR + change >= floor ==> r == oldMMR + change
    ensures oldMMR + change < floor && !canDrop ==> r == floor
    ensures canDrop ==> r == oldMMR + change
    ensures r >= oldMMR + change
  {
    var newMMR := oldMMR + change;
    if newMMR < floor && !canDrop then floor else newMMR
  }

  /** A win always strictly raises the MMR, floor or no floor. */
  lemma WinRaisesMMR(oldMMR: int, floors: seq<int>, placement: int, canDrop: bool)
    requires placement <= 4
    ensures ApplyStickyFloor(oldMMR, CalculateMMRChange(placement), RankFloorOf(floors, oldMMR), canDrop) > oldMMR
  {
  }

  /** A loss never raises a non-negative MMR, and without a permitted drop
      never takes it below the floor. */
  lemma {:induction false} LossBoundedByFloor(oldMMR: int, floors: seq<int>, placement: int, canDrop: bool)
    requires placement > 4 && oldMMR >= 0
    ensures ApplyStickyFloor(oldMMR, CalculateMMRChange(placement), RankFloorOf(floors, oldMMR), canDrop) <= oldMMR
    ensures !canDrop ==>
      ApplyStickyFloor(oldMMR, CalculateMMRChange(placement), RankFloorOf(floors, oldMMR), canDrop) >= RankFloorOf(floors, oldMMR)
  {
    RankFloorScan(floors, oldMMR);
  }

  class PlayerProfile {
    var mmr: int
    var lossStreak: int
    var last15Games: seq<bool>
    var rankFloors: seq<int>

    /** The field initialisers. */
    constructor ()
      ensures mmr == 1000 && lossStreak == 0 && last15Games == [] && rankFloors == DEFAULT_FLOORS
    {
      mmr := 1000;
      lossStreak := 0;
      last15Games := [];
      rankFloors := DEFAULT_FLOORS;
    }

    /** `CheckDropCondition`: ten straight losses, or fewer than three wins
      in the recent history, let the player fall through a floor. */
    predicate CheckDropCondition()
      reads this
      ensures lossStreak >= 10 ==> CheckDropCondition()
      ensures |last15Games| < 3 ==> CheckDropCondition()
      ensures !CheckDropCondition() ==> lossStreak < 10 && |last15Games| >= 3
      ensures WinCount(last15Games) < 3 ==> CheckDropCondition()
      ensures !CheckDropCondition() ==> WinCount(last15Games) >= 3
    {
      lossStreak >= 10 || WinCount(last15Games) < 3
    }

    /** `GetRankFloor`: scans the floors from the highest index down. */
    method GetRankFloor(currentMMR: int) returns (floor: int)
      ensures floor == RankFloorOf(rankFloors, currentMMR)
      ensures floor in rankFloors || floor == 0
    {
      var i := |rankFloors| - 1;
      assert rankFloors[..i + 1] == rankFloors;
      while i >= 0
        invariant -1 <= i < |rankFloors|
        invariant RankFloorOf(rankFloors, currentMMR) == RankFloorOf(rankFloors[..i + 1], currentMMR)
        decreases i
      {
        assert rankFloors[..i + 1][..i] == rankFloors[..i];
        if currentMMR >= rankFloors[i] {
          return rankFloors[i];
        }
        i := i - 1;
      }
      return 0;
    }

    /** `RecordMatchResult`: a top-four placement is a win. The history and
      the streak are updated first, so the drop condition sees this match. */
    method RecordMatchResult(placement: int)
      modifies this`mmr, this`lossStreak, this`last15Games
      ensures last15Games == PushResult(old(last15Games), placement <= 4)
      ensures placement <= 4 ==> lossStreak == 0
      ensures placement > 4 ==> lossStreak == old(lossStreak) + 1
      ensures mmr == ApplyStickyFloor(old(mmr), CalculateMMRChange(placement),
                                      RankFloorOf(rankFloors, old(mmr)), CheckDropCondition())
      ensures (lossStreak < 10 && WinCount(last15Games) >= 3
               && old(mmr) + CalculateMMRChange(placement) < RankFloorOf(rankFloors, old(mmr)))
              ==> mmr == RankFloorOf(rankFloors, old(mmr))
      ensures lossStreak >= 10 || WinCount(last15Games) < 3 ==> mmr == old(mmr) + CalculateMMRChange(placement)
      ensures rankFloors == old(rankFloors)
    {
      var isWin := placement <= 4;
      last15Games := last15Games + [isWin];
      if |last15Games| > 15 {
        last15Games := last15Games[1..];
      }
      if isWin {
        lossStreak := 0;
      } else {
        lossStreak := lossStreak + 1;
      }
      var mmrChange := CalculateMMRChange(placement);
      var newMMR := mmr + mmrChange;
      var currentFloor := GetRankFloor(mmr);
      if newMMR < currentFloor {
        var canDrop := CheckDropCondition();
        if !canDrop {
          newMMR := currentFloor;
        }
      }
      mmr := newMMR;
    }
  }
}
