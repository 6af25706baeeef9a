/** The overview page (views/overview.py): four KPI counters over all
    projects and, for each of the eight production stages, how many projects
    are done, in progress or waiting there. */
module Overview {
  import opened Models
  import opened Logic

  const DoneValue := "Valmis"
  const ProgressValue := "Töös"
  const WaitSet: set<string> := {"-", "Ootel"}

  /** Number of production stages shown in the chart. */
  const StageCount := 8

  /** The eight stage columns, in chart order (afterone … coating); the
      `delivered` column is not a stage. */
  function StageValues(p: Project): (r: seq<string>)
    ensures |r| == StageCount
    ensures r[0] == p.afterone && r[StageCount - 1] == p.coating
  {
    [p.afterone, p.cutting, p.laser, p.bending, p.drilling, p.welding, p.grinding, p.coating]
  }

  /** Which KPI counter a project adds to. */
  datatype Standing = Shipped | Busy | Idle | Mixed

  /** Delivery overrides the stages; otherwise any stage in progress makes the
      project in progress, and every stage waiting makes it waiting. */
  function StandingOf(p: Project): (s: Standing)
    ensures s == Shipped <==> p.delivered == DoneValue
    ensures s == Busy <==>
              p.delivered != DoneValue && exists i :: 0 <= i < StageCount && StageValues(p)[i] == ProgressValue
    ensures s == Idle <==>
              p.delivered != DoneValue && forall i :: 0 <= i < StageCount ==> StageValues(p)[i] in WaitSet
  {
    var stages := StageValues(p);
    if p.delivered == DoneValue then Shipped
    else if ProgressValue in stages then Busy
    else if forall v :: v in stages ==> v in WaitSet then Idle
    else Mixed
  }

  /** The value a project contributes to one stage's bar: a delivered
      project counts as done in every stage. */
  function ChartValue(p: Project, stage: nat): (v: string)
    requires stage < StageCount
    ensures p.delivered == DoneValue ==> v == DoneValue
    ensures p.delivered != DoneValue ==> v == StageValues(p)[stage]
  {
    if p.delivered == DoneValue then DoneValue else StageValues(p)[stage]
  }

  /** What one counter counts. */
  datatype Tally = OfStanding(standing: Standing) | OfBar(stage: nat, values: set<string>)

  predicate Counts(p: Project, t: Tally) {
    match t
    case OfStanding(s) => StandingOf(p) == s
    case OfBar(stage, values) => stage < StageCount && ChartValue(p, stage) in values
  }

  /** How many of the projects a counter counts. */
  function Count(projs: seq<Project>, t: Tally): (c: nat)
    ensures c <= |projs|
    decreases |projs|
  {
    if projs == [] then 0
    else Count(projs[..|projs| - 1], t) + (if Counts(projs[|projs| - 1], t) then 1 else 0)
  }

  // ───────── properties of the counters ─────────

  /** A counter that counts at least what another counts is at least as large. */
  lemma {:induction false} CountMonotone(projs: seq<Project>, t: Tally, u: Tally)
    requires forall p :: Counts(p, t) ==> Counts(p, u)
    ensures Count(projs, t) <= Count(projs, u)
    decreases |projs|
  {
    if projs != [] {
      CountMonotone(projs[..|projs| - 1], t, u);
    }
  }

  /** Two bars over disjoint value sets add up to the bar over their union. */
  lemma {:induction false} CountBarUnion(projs: seq<Project>, stage: nat, a: set<string>, b: set<string>)
    requires a !! b
    ensures Count(projs, OfBar(stage, a)) + Count(projs, OfBar(stage, b)) == Count(projs, OfBar(stage, a + b))
    decreases |projs|
  {
    if projs != [] {
      CountBarUnion(projs[..|projs| - 1], stage, a, b);
    }
  }

  /** Every project lands in exactly one of the four standings. */
  lemma {:induction false} StandingsPartition(projs: seq<Project>)
    ensures Count(projs, OfStanding(Shipped)) + Count(projs, OfStanding(Busy))
            + Count(projs, OfStanding(Idle)) + Count(projs, OfStanding(Mixed)) == |projs|
    decreases |projs|
  {
    if projs != [] {
      StandingsPartition(projs[..|projs| - 1]);
    }
  }

  /** The three KPI counters never exceed the total. */
  lemma KpisWithinTotal(projs: seq<Project>)
    ensures Count(projs, OfStanding(Shipped)) + Count(projs, OfStanding(Busy))
            + Count(projs, OfStanding(Idle)) <= |projs|
  {
    StandingsPartition(projs);
  }

  /** In one stage, the done, in-progress and waiting bars never stack
      higher than the number of projects. */
  lemma StageBarsWithinTotal(projs: seq<Project>, stage: nat)
    requires stage < StageCount
    ensures Count(projs, OfBar(stage, {DoneValue})) + Count(projs, OfBar(stage, {ProgressValue}))
            + Count(projs, OfBar(stage, WaitSet)) <= |projs|
  {
    CountBarUnion(projs, stage, {DoneValue}, {ProgressValue});
    CountBarUnion(projs, stage, {DoneValue} + {ProgressValue}, WaitSet);
  }

  /** Every delivered project is counted as done in every stage. */
  lemma DeliveredAreDoneEverywhere(projs: seq<Project>, stage: nat)
    requires stage < StageCount
    ensures Count(projs, OfStanding(Shipped)) <= Count(projs, OfBar(stage, {DoneValue}))
  {
    CountMonotone(projs, OfStanding(Shipped), OfBar(stage, {DoneValue}));
  }

  /** A stage's in-progress bar counts only projects the KPI counts as in progress. */
  lemma ProgressBarWithinKpi(projs: seq<Project>, stage: nat)
    requires stage < StageCount
    ensures Count(projs, OfBar(stage, {ProgressValue})) <= Count(projs, OfStanding(Busy))
  {
    forall p | Counts(p, OfBar(stage, {ProgressValue})) ensures Counts(p, OfStanding(Busy)) {
      assert StageValues(p)[stage] == ProgressValue;
    }
    CountMonotone(projs, OfBar(stage, {ProgressValue}), OfStanding(Busy));
  }

  /** A project the KPI counts as waiting is waiting in every stage's bar. */
  lemma WaitingKpiWithinBar(projs: seq<Project>, stage: nat)
    requires stage < StageCount
    ensures Count(projs, OfStanding(Idle)) <= Count(projs, OfBar(stage, WaitSet))
  {
    CountMonotone(projs, OfStanding(Idle), OfBar(stage, WaitSet));
  }

  // ───────── the loops of the page ─────────

  /** The KPI loop of `refresh`: delivered projects are skipped; the rest
      count as in progress or waiting. */
  method KpiCounts(projs: seq<Project>) returns (total: nat, delivered: nat, inProgress: nat, waiting: nat)
    ensures total == |projs|
    ensures delivered == Count(projs, OfStanding(Shipped))
    ensures inProgress == Count(projs, OfStanding(Busy))
    ensures waiting == Count(projs, OfStanding(Idle))
  {
    total := |projs|;
    delivered := Count(projs, OfStanding(Shipped));
    inProgress, waiting := 0, 0;
    var i := 0;
    while i < |projs|
      invariant 0 <= i <= |projs|
      invariant inProgress == Count(projs[..i], OfStanding(Busy))
      invariant waiting == Count(projs[..i], OfStanding(Idle))
    {
      var p := projs[i];
      assert projs[..i + 1][..i] == projs[..i];
      if p.delivered == DoneValue {
        i := i + 1;
        continue;
      }
      var stages := StageValues(p);
      if ProgressValue in stages {
        inProgress := inProgress + 1;
      } else if forall v :: v in stages ==> v in WaitSet {
        waiting := waiting + 1;
      }
      i := i + 1;
    }
    assert projs[..i] == projs;
  }

  /** One stage's bar heights: the inner loop of `_draw_chart`. */
  method StageBar(projs: seq<Project>, stage: nat) returns (done: nat, progress: nat, wait: nat)
    requires stage < StageCount
    ensures done == Count(projs, OfBar(stage, {DoneValue}))
    ensures progress == Count(projs, OfBar(stage, {ProgressValue}))
    ensures wait == Count(projs, OfBar(stage, WaitSet))
  {
    var vals: seq<string> := [];
    var i := 0;
    while i < |projs|
      invariant 0 <= i <= |projs| && |vals| == i
      invariant forall j :: 0 <= j < i ==> vals[j] == ChartValue(projs[j], stage)
    {
      var p := projs[i];
      var v := if p.delivered == DoneValue then DoneValue else StageValues(p)[stage];
      vals := vals + [v];
      i := i + 1;
    }
    done := Occurrences(vals, {DoneValue});
    progress := Occurrences(vals, {ProgressValue});
    wait := Occurrences(vals, WaitSet);
    OccurrencesOfChart(projs, stage, vals, {DoneValue});
    OccurrencesOfChart(projs, stage, vals, {ProgressValue});
    OccurrencesOfChart(projs, stage, vals, WaitSet);
  }

  /** `sum(v in values for v in vals)`. */
  function Occurrences(vals: seq<string>, values: set<string>): (c: nat)
    ensures c <= |vals|
    decreases |vals|
  {
    if vals == [] then 0
    else Occurrences(vals[..|vals| - 1], values) + (if vals[|vals| - 1] in values then 1 else 0)
  }

  lemma {:induction false} OccurrencesOfChart(projs: seq<Project>, stage: nat, vals: seq<string>, values: set<string>)
    requires stage < StageCount && |vals| == |projs|
    requires forall j :: 0 <= j < |projs| ==> vals[j] == ChartValue(projs[j], stage)
    ensures Occurrences(vals, values) == Count(projs, OfBar(stage, values))
    decreases |projs|
  {
    if projs != [] {
      OccurrencesOfChart(projs[..|projs| - 1], stage, vals[..|vals| - 1], values);
    }
  }

  /** `_draw_chart`: the three bar series, one entry per stage. */
  method ChartCounts(projs: seq<Project>) returns (done: seq<nat>, progress: seq<nat>, wait: seq<nat>)
    ensures |done| == StageCount && |progress| == StageCount && |wait| == StageCount
    ensures forall s :: 0 <= s < StageCount ==>
              && done[s] == Count(projs, OfBar(s, {DoneValue}))
              && progress[s] == Count(projs, OfBar(s, {ProgressValue}))
              && wait[s] == Count(projs, OfBar(s, WaitSet))
  {
    done, progress, wait := [], [], [];
    var s := 0;
    while s < StageCount
      invariant 0 <= s <= StageCount && |done| == s && |progress| == s && |wait| == s
      invariant forall t :: 0 <= t < s ==>
                  && done[t] == Count(projs, OfBar(t, {DoneValue}))
                  && progress[t] == Count(projs, OfBar(t, {ProgressValue}))
                  && wait[t] == Count(projs, OfBar(t, WaitSet))
    {
      var d, pr, w := StageBar(projs, s);
      done, progress, wait := done + [d], progress + [pr], wait + [w];
      s := s + 1;
    }
  }

  /** In every stage, the bars stay within the total and against the KPIs. */
  lemma BarsAgainstKpis(projs: seq<Project>)
    ensures forall s :: 0 <= s < StageCount ==>
      && Count(projs, OfBar(s, {DoneValue})) + Count(projs, OfBar(s, {ProgressValue}))
         + Count(projs, OfBar(s, WaitSet)) <= |projs|
      && Count(projs, OfStanding(Shipped)) <= Count(projs, OfBar(s, {DoneValue}))
      && Count(projs, OfBar(s, {ProgressValue})) <= Count(projs, OfStanding(Busy))
      && Count(projs, OfStanding(Idle)) <= Count(projs, OfBar(s, WaitSet))
  {
    forall s | 0 <= s < StageCount
      ensures Count(projs, OfBar(s, {DoneValue})) + Count(projs, OfBar(s, {ProgressValue}))
              + Count(projs, OfBar(s, WaitSet)) <= |projs|
      ensures Count(projs, OfStanding(Shipped)) <= Count(projs, OfBar(s, {DoneValue}))
      ensures Count(projs, OfBar(s, {ProgressValue})) <= Count(projs, OfStanding(Busy))
      ensures Count(projs, OfStanding(Idle)) <= Count(projs, OfBar(s, WaitSet))
    {
      StageBarsWithinTotal(projs, s);
      DeliveredAreDoneEverywhere(projs, s);
      ProgressBarWithinKpi(projs, s);
      WaitingKpiWithinBar(projs, s);
    }
  }

  // ───────── the page ─────────

  /** The numbers the page shows: the four KPI labels and the chart series. */
  class OverviewPage {
    var total: nat
    var delivered: nat
    var inProgress: nat
    var waiting: nat
    var stageDone: seq<nat>
    var stageProgress: seq<nat>
    var stageWait: seq<nat>

    /** A new page is built and refreshed at once, so it already shows the store. */
    constructor (store: Store)
      requires store.Valid()
      ensures Shows(store.GetProjects())
    {
      var projs := store.GetProjects();
      var t, d, p, w := KpiCounts(projs);
      var done, progress, wait := ChartCounts(projs);
      total, delivered, inProgress, waiting := t, d, p, w;
      stageDone, stageProgress, stageWait := done, progress, wait;
      KpisWithinTotal(projs);
      BarsAgainstKpis(projs);
    }

    /** The counters and chart series are the counts over `projs`. */
    ghost predicate Shows(projs: seq<Project>)
      reads this
    {
      && total == |projs|
      && delivered == Count(projs, OfStanding(Shipped))
      && inProgress == Count(projs, OfStanding(Busy))
      && waiting == Count(projs, OfStanding(Idle))
      && delivered + inProgress + waiting <= total
      && |stageDone| == StageCount && |stageProgress| == StageCount && |stageWait| == StageCount
      && forall s :: 0 <= s < StageCount ==>
           && stageDone[s] == Count(projs, OfBar(s, {DoneValue}))
           && stageProgress[s] == Count(projs, OfBar(s, {ProgressValue}))
           && stageWait[s] == Count(projs, OfBar(s, WaitSet))
           && stageDone[s] + stageProgress[s] + stageWait[s] <= total
           && delivered <= stageDone[s]
           && stageProgress[s] <= inProgress
           && waiting <= stageWait[s]
    }

    /** Reads every project and recomputes the counters and the chart. */
    method Refresh(store: Store)
      requires store.Valid()
      modifies this
      ensures Shows(store.GetProjects())
    {
      var projs := store.GetProjects();
      total, delivered, inProgress, waiting := KpiCounts(projs);
      stageDone, stageProgress, stageWait := ChartCounts(projs);
      KpisWithinTotal(projs);
      BarsAgainstKpis(projs);
    }
  }
}
