/** The post-game review screen: the summary of a finished game log, the
    per-turn rows filtered by an optional quality and an optional decision
    type picked from two dropdowns, and the colour bands for phase scores.
    Text layout, the detail panel and the clipboard export are not
    modelled. */
module PostMortemUI {
  import opened Common
  import opened DecisionTypes

  // ---------------------------------------------------------------------------
  // The decision filter
  // ---------------------------------------------------------------------------

  /** A decision passes the filters that are set. */
  predicate Matches(d: DecisionEvaluation, filterQuality: Option<PlayQuality>, filterType: Option<DecisionType>)
  {
    (filterQuality.None? || d.quality == filterQuality.value)
    && (filterType.None? || d.decisionType == filterType.value)
  }

  /** `Where(d => d.quality == q)`. */
  function WhereQuality(ds: seq<DecisionEvaluation>, q: PlayQuality): (r: seq<DecisionEvaluation>)
    ensures |r| <= |ds|
  {
    if ds == [] then []
    else WhereQuality(ds[..|ds| - 1], q) + (if ds[|ds| - 1].quality == q then [ds[|ds| - 1]] else [])
  }

  /** `Where(d => d.type == t)`. */
  function WhereType(ds: seq<DecisionEvaluation>, t: DecisionType): (r: seq<DecisionEvaluation>)
    ensures |r| <= |ds|
  {
    if ds == [] then []
    else WhereType(ds[..|ds| - 1], t) + (if ds[|ds| - 1].decisionType == t then [ds[|ds| - 1]] else [])
  }

  /** `FilterDecisions`: the quality filter, then the type filter, each
      applied only when it is set. */
  function FilterDecisions(ds: seq<DecisionEvaluation>, filterQuality: Option<PlayQuality>,
                           filterType: Option<DecisionType>): (r: seq<DecisionEvaluation>)
    ensures |r| <= |ds|
    ensures forall d :: d in r ==> d in ds && Matches(d, filterQuality, filterType)
    ensures filterQuality.None? && filterType.None? ==> r == ds
  {
    var byQuality := if filterQuality.Some? then WhereQuality(ds, filterQuality.value) else ds;
    var r := if filterType.Some? then WhereType(byQuality, filterType.value) else byQuality;
    assert byQuality == Select(ds, filterQuality, Option.None) by {
      if filterQuality.Some? {
        WhereQualityIsSelect(ds, filterQuality.value);
      } else {
        SelectNoFilter(ds);
      }
    }
    assert r == Select(ds, filterQuality, filterType) by {
      if filterType.Some? {
        WhereTypeAfterSelect(ds, filterQuality, filterType.value);
      }
    }
    SelectMembers(ds, filterQuality, filterType);
    r
  }

  /** The reference filter: one pass keeping the decisions that match. */
  function Select(ds: seq<DecisionEvaluation>, filterQuality: Option<PlayQuality>,
                  filterType: Option<DecisionType>): (r: seq<DecisionEvaluation>)
    ensures |r| <= |ds|
  {
    if ds == [] then []
    else Select(ds[..|ds| - 1], filterQuality, filterType)
         + (if Matches(ds[|ds| - 1], filterQuality, filterType) then [ds[|ds| - 1]] else [])
  }

  lemma {:induction false} WhereQualityIsSelect(ds: seq<DecisionEvaluation>, q: PlayQuality)
    ensures WhereQuality(ds, q) == Select(ds, Some(q), Option.None)
  {
    if ds != [] {
      WhereQualityIsSelect(ds[..|ds| - 1], q);
    }
  }

  /** Filtering by a type after any filter is one pass with both tests. */
  lemma {:induction false} WhereTypeAfterSelect(ds: seq<DecisionEvaluation>, fq: Option<PlayQuality>, t: DecisionType)
    ensures WhereType(Select(ds, fq, Option.None), t) == Select(ds, fq, Some(t))
  {
    if ds != [] {
      var init := ds[..|ds| - 1];
      var last := ds[|ds| - 1];
      WhereTypeAfterSelect(init, fq, t);
      var kept := Select(init, fq, Option.None);
      var tail := if Matches(last, fq, Option.None) then [last] else [];
      WhereTypeAppend(kept, tail, t);
    }
  }

  lemma {:induction false} WhereTypeAppend(xs: seq<DecisionEvaluation>, ys: seq<DecisionEvaluation>, t: DecisionType)
    requires |ys| <= 1
    ensures WhereType(xs + ys, t) == WhereType(xs, t) + WhereType(ys, t)
  {
    if ys == [] {
      assert xs + ys == xs;
    } else {
      assert (xs + ys)[..|xs + ys| - 1] == xs;
      assert WhereType(ys, t) == WhereType([], t) + (if ys[0].decisionType == t then [ys[0]] else []);
    }
  }

  lemma {:induction false} SelectNoFilter(ds: seq<DecisionEvaluation>)
    ensures Select(ds, Option.None, Option.None) == ds
  {
    if ds != [] {
      SelectNoFilter(ds[..|ds| - 1]);
      assert ds == ds[..|ds| - 1] + [ds[|ds| - 1]];
    }
  }

  /** The two-stage filter is the one-pass reference filter. */
  lemma FilterDecisionsIsSelect(ds: seq<DecisionEvaluation>, fq: Option<PlayQuality>, ft: Option<DecisionType>)
    ensures FilterDecisions(ds, fq, ft) == Select(ds, fq, ft)
  {
    if fq.Some? {
      WhereQualityIsSelect(ds, fq.value);
    } else {
      SelectNoFilter(ds);
    }
    if ft.Some? {
      WhereTypeAfterSelect(ds, fq, ft.value);
    }
  }

  /** Exactly the matching decisions survive. */
  lemma {:induction false} SelectMembers(ds: seq<DecisionEvaluation>, fq: Option<PlayQuality>, ft: Option<DecisionType>)
    ensures forall d :: d in Select(ds, fq, ft) ==> d in ds && Matches(d, fq, ft)
    ensures forall d :: d in ds && Matches(d, fq, ft) ==> d in Select(ds, fq, ft)
  {
    if ds != [] {
      var init := ds[..|ds| - 1];
      SelectMembers(init, fq, ft);
      assert ds == init + [ds[|ds| - 1]];
    }
  }

  /** Filtering keeps the original order: it distributes over
      concatenation. */
  lemma {:induction false} SelectAppend(xs: seq<DecisionEvaluation>, ys: seq<DecisionEvaluation>,
                                        fq: Option<PlayQuality>, ft: Option<DecisionType>)
    ensures Select(xs + ys, fq, ft) == Select(xs, fq, ft) + Select(ys, fq, ft)
  {
    if ys == [] {
      assert xs + ys == xs;
    } else {
      var yinit := ys[..|ys| - 1];
      SelectAppend(xs, yinit, fq, ft);
      assert (xs + ys)[..|xs + ys| - 1] == xs + yinit;
    }
  }

  /** Filtering what is already filtered changes nothing. */
  lemma {:induction false} SelectIdempotent(ds: seq<DecisionEvaluation>, fq: Option<PlayQuality>, ft: Option<DecisionType>)
    ensures Select(Select(ds, fq, ft), fq, ft) == Select(ds, fq, ft)
  {
    if ds != [] {
      var init := ds[..|ds| - 1];
      var last := ds[|ds| - 1];
      SelectIdempotent(init, fq, ft);
      var tail := if Matches(last, fq, ft) then [last] else [];
      SelectAppend(Select(init, fq, ft), tail, fq, ft);
      if tail != [] {
        assert Select(tail, fq, ft) == Select([], fq, ft) + tail by {
          assert tail[..0] == [];
        }
      }
    }
  }

  /** The properties of `FilterDecisions` itself: exactly the matching
      decisions, in order, the input when no filter is set, and the same
      result when applied twice. */
  lemma FilterDecisionsSpec(ds: seq<DecisionEvaluation>, fq: Option<PlayQuality>, ft: Option<DecisionType>)
    ensures forall d :: d in FilterDecisions(ds, fq, ft) <==> d in ds && Matches(d, fq, ft)
    ensures fq.None? && ft.None? ==> FilterDecisions(ds, fq, ft) == ds
    ensures FilterDecisions(FilterDecisions(ds, fq, ft), fq, ft) == FilterDecisions(ds, fq, ft)
  {
    FilterDecisionsIsSelect(ds, fq, ft);
    FilterDecisionsIsSelect(FilterDecisions(ds, fq, ft), fq, ft);
    SelectMembers(ds, fq, ft);
    SelectNoFilter(ds);
    SelectIdempotent(ds, fq, ft);
  }

  /** Order: two decisions that both pass keep their relative order, as
      the filter of a concatenation is the concatenation of the filters. */
  lemma FilterDecisionsOrder(xs: seq<DecisionEvaluation>, ys: seq<DecisionEvaluation>,
                             fq: Option<PlayQuality>, ft: Option<DecisionType>)
    ensures FilterDecisions(xs + ys, fq, ft) == FilterDecisions(xs, fq, ft) + FilterDecisions(ys, fq, ft)
  {
    FilterDecisionsIsSelect(xs + ys, fq, ft);
    FilterDecisionsIsSelect(xs, fq, ft);
    FilterDecisionsIsSelect(ys, fq, ft);
    SelectAppend(xs, ys, fq, ft);
  }

  // ---------------------------------------------------------------------------
  // The dropdowns
  // ---------------------------------------------------------------------------

  /** The quality dropdown: "All Qualities", then the six qualities in
      declaration order. */
  function QualityFilterFor(index: int): (f: Option<PlayQuality>)
    requires 0 <= index <= 6
    ensures f.None? <==> index == 0
    ensures f.Some? ==> Ordinal(f.value) == index - 1
  {
    if index == 0 then Option.None else Some(QualityOf(index - 1))
  }

  /** The type dropdown: "All Types", then the twelve types. */
  function TypeFilterFor(index: int): (f: Option<DecisionType>)
    requires 0 <= index <= 12
    ensures f.None? <==> index == 0
    ensures f.Some? ==> TypeOrdinal(f.value) == index - 1
  {
    if index == 0 then Option.None else Some(TypeOf(index - 1))
  }

  /** Every quality has its own dropdown entry, one below its position. */
  lemma QualityDropdownRoundTrip(q: PlayQuality)
    ensures QualityFilterFor(Ordinal(q) + 1) == Some(q)
  {
    OrdinalInjective(QualityFilterFor(Ordinal(q) + 1).value, q);
  }

  lemma TypeDropdownRoundTrip(t: DecisionType)
    ensures TypeFilterFor(TypeOrdinal(t) + 1) == Some(t)
  {
  }

  // ---------------------------------------------------------------------------
  // Score colours and the summary
  // ---------------------------------------------------------------------------

  datatype ScoreColor = Green | Yellow | Orange | Red

  function ColorRank(c: ScoreColor): nat
  {
    match c
    case Green => 3
    case Yellow => 2
    case Orange => 1
    case Red => 0
  }

  /** `GetScoreColor`: bands at 80, 60 and 40. */
  function GetScoreColor(score: real): (c: ScoreColor)
    ensures c == Green <==> score >= 80.0
    ensures c == Yellow <==> 60.0 <= score < 80.0
    ensures c == Orange <==> 40.0 <= score < 60.0
    ensures c == Red <==> score < 40.0
  {
    if score >= 80.0 then Green
    else if score >= 60.0 then Yellow
    else if score >= 40.0 then Orange
    else Red
  }

  /** A higher score never gets a worse colour. */
  lemma ScoreColorMonotone(lower: real, higher: real)
    requires lower <= higher
    ensures ColorRank(GetScoreColor(lower)) <= ColorRank(GetScoreColor(higher))
  {
  }

  /** The facts the summary text shows. */
  datatype Summary = Summary(
    heroName: string,
    placement: Option<int>,
    finalTurn: int,
    startingMMR: int,
    finalMMR: int,
    mmrChange: int,
    showPlus: bool,
    averageScore: real,
    optimalPlays: int,
    criticalMistakes: int)

  /** The summary of a log: "Incomplete" (no placement) for a placement of
      0 or less, and a '+' before a non-negative MMR change. */
  function SummaryOf(log: GameLog): (s: Summary)
    reads log
    ensures s.placement.None? <==> log.finalPlacement <= 0
    ensures s.placement.Some? ==> s.placement.value == log.finalPlacement
    ensures s.finalMMR - s.startingMMR == s.mmrChange
    ensures s.showPlus <==> log.finalMMR >= log.startingMMR
    ensures s.heroName == log.heroName && s.finalTurn == log.finalTurn
    ensures s.startingMMR == log.startingMMR && s.finalMMR == log.finalMMR
    ensures s.averageScore == log.averageScore
    ensures s.optimalPlays == log.optimalPlays && s.criticalMistakes == log.criticalMistakes
  {
    var change := log.finalMMR - log.startingMMR;
    Summary(log.heroName,
            if log.finalPlacement > 0 then Some(log.finalPlacement) else Option.None,
            log.finalTurn, log.startingMMR, log.finalMMR, change, change >= 0,
            log.averageScore, log.optimalPlays, log.criticalMistakes)
  }

  // ---------------------------------------------------------------------------
  // The phase list
  // ---------------------------------------------------------------------------

  /** A row of the phase list: its phase and the decisions shown for it. */
  datatype PhaseRow = PhaseRow(phase: PhaseEvaluation, decisions: seq<DecisionEvaluation>)

  /** The rows for some phases: one per phase with something left after the
      filters, in phase order. */
  function PhaseRows(phases: seq<PhaseEvaluation>, fq: Option<PlayQuality>, ft: Option<DecisionType>): (rows: seq<PhaseRow>)
    reads set p | p in phases
    ensures |rows| <= |phases|
  {
    if phases == [] then []
    else
      var p := phases[|phases| - 1];
      var shown := FilterDecisions(p.decisions, fq, ft);
      PhaseRows(phases[..|phases| - 1], fq, ft) + (if |shown| == 0 then [] else [PhaseRow(p, shown)])
  }

  /** Every row shows a non-empty filtered list of one of the phases, and
      every phase with a non-empty filtered list has a row. */
  lemma {:induction false} PhaseRowsSpec(phases: seq<PhaseEvaluation>, fq: Option<PlayQuality>, ft: Option<DecisionType>)
    ensures forall r :: r in PhaseRows(phases, fq, ft) ==>
      r.phase in phases && r.decisions == FilterDecisions(r.phase.decisions, fq, ft) && r.decisions != []
    ensures forall p :: p in phases && FilterDecisions(p.decisions, fq, ft) != [] ==>
      PhaseRow(p, FilterDecisions(p.decisions, fq, ft)) in PhaseRows(phases, fq, ft)
  {
    if phases != [] {
      var init := phases[..|phases| - 1];
      PhaseRowsSpec(init, fq, ft);
      assert phases == init + [phases[|phases| - 1]];
    }
  }

  class PostMortemUI {
    var currentLog: GameLog?
    var filterQuality: Option<PlayQuality>
    var filterType: Option<DecisionType>
    /** Whether the phase list container is assigned. */
    var phaseListWired: bool
    /** Whether the phase row prefab is assigned; without it the list is
        cleared but no row is created. */
    var rowPrefabWired: bool
    var panelVisible: bool
    var summary: Option<Summary>
    var rows: seq<PhaseRow>

    /** `Awake`: no log, no filters, the panel hidden. */
    constructor (phaseListWired: bool, rowPrefabWired: bool)
      ensures currentLog == null && filterQuality.None? && filterType.None?
      ensures this.phaseListWired == phaseListWired && this.rowPrefabWired == rowPrefabWired
      ensures !panelVisible && summary.None? && rows == []
    {
      currentLog := null;
      filterQuality, filterType := Option.None, Option.None;
      this.phaseListWired, this.rowPrefabWired := phaseListWired, rowPrefabWired;
      panelVisible := false;
      summary := Option.None;
      rows := [];
    }

    /** `RefreshPhaseList`: clears and rebuilds the rows from the current log,
        unless there is no log or no list to fill; without a row prefab the
        cleared list stays empty. */
    method RefreshPhaseList()
      modifies this`rows
      ensures phaseListWired && currentLog != null && rowPrefabWired ==>
        rows == PhaseRows(currentLog.phases, filterQuality, filterType)
      ensures phaseListWired && currentLog != null && !rowPrefabWired ==> rows == []
      ensures !(phaseListWired && currentLog != null) ==> rows == old(rows)
    {
      if !phaseListWired || currentLog == null {
        return;
      }
      rows := [];
      if !rowPrefabWired {
        // `CreatePhaseRow` returns at once for every phase: nothing is added.
        return;
      }
      var phases := currentLog.phases;
      var built: seq<PhaseRow> := [];
      for i := 0 to |phases|
        invariant built == PhaseRows(phases[..i], filterQuality, filterType)
      {
        assert phases[..i + 1][..i] == phases[..i];
        var phase := phases[i];
        var filtered := FilterDecisions(phase.decisions, filterQuality, filterType);
        if |filtered| == 0 {
          continue;
        }
        built := built + [PhaseRow(phase, filtered)];
      }
      assert phases[..|phases|] == phases;
      rows := built;
    }

    /** `DisplayPostMortem`: shows a log's summary and rows; a null log
        changes nothing. */
    method DisplayPostMortem(log: GameLog?)
      modifies this`currentLog, this`summary, this`rows, this`panelVisible
      ensures log == null ==>
        currentLog == old(currentLog) && summary == old(summary) && rows == old(rows)
        && panelVisible == old(panelVisible)
      ensures log != null ==> currentLog == log && summary == Some(SummaryOf(log)) && panelVisible
      ensures log != null && phaseListWired && rowPrefabWired ==> rows == PhaseRows(log.phases, filterQuality, filterType)
      ensures log != null && phaseListWired && !rowPrefabWired ==> rows == []
      ensures log != null && !phaseListWired ==> rows == old(rows)
    {
      if log == null {
        return;
      }
      currentLog := log;
      summary := Some(SummaryOf(log));
      RefreshPhaseList();
      panelVisible := true;
    }

    /** `OnQualityFilterChanged` with the dropdown index. */
    method OnQualityFilterChanged(index: int)
      requires 0 <= index <= 6
      modifies this`filterQuality, this`rows
      ensures filterQuality == QualityFilterFor(index)
      ensures phaseListWired && currentLog != null && rowPrefabWired ==>
        rows == PhaseRows(currentLog.phases, filterQuality, filterType)
      ensures phaseListWired && currentLog != null && !rowPrefabWired ==> rows == []
      ensures !(phaseListWired && currentLog != null) ==> rows == old(rows)
    {
      if index == 0 {
        filterQuality := Option.None;
      } else {
        filterQuality := Some(QualityOf(index - 1));
      }
      RefreshPhaseList();
    }

    /** `OnTypeFilterChanged` with the dropdown index. */
    method OnTypeFilterChanged(index: int)
      requires 0 <= index <= 12
      modifies this`filterType, this`rows
      ensures filterType == TypeFilterFor(index)
      ensures phaseListWired && currentLog != null && rowPrefabWired ==>
        rows == PhaseRows(currentLog.phases, filterQuality, filterType)
      ensures phaseListWired && currentLog != null && !rowPrefabWired ==> rows == []
      ensures !(phaseListWired && currentLog != null) ==> rows == old(rows)
    {
      if index == 0 {
        filterType := Option.None;
      } else {
        filterType := Some(TypeOf(index - 1));
      }
      RefreshPhaseList();
    }
  }
}
