/** ProspectionView: inbound and outbound lead counts per pipeline stage with their totals, and
    a monthly graph of leads acquired whose plotted series depend on the selected filter. The
    per-stage count records are held as their entries in key order; the stage list and the
    stage-name formatting are those of the opportunities board. */
module Prospection {
  import opened Types
  import opened Seqs
  import opened Opportunities

  /** One entry of a per-stage count record. */
  datatype StageCount = StageCount(status: Status, count: int)

  /** The keys of a count record, in order. */
  function Keys(record: seq<StageCount>): (r: seq<Status>)
    ensures |r| == |record|
    ensures forall k :: 0 <= k < |record| ==> r[k] == record[k].status
  {
    if record == [] then [] else [record[0].status] + Keys(record[1..])
  }

  /** `Object.values(record).reduce((a, b) => a + b, 0)`. */
  function Total(record: seq<StageCount>): int {
    if record == [] then 0 else record[0].count + Total(record[1..])
  }

  /** `record[status] || 0`: the count shown for a stage, 0 for a stage the record lacks. */
  function DisplayCount(record: seq<StageCount>, s: Status): (r: int)
    ensures s !in Keys(record) ==> r == 0
    ensures forall k :: (0 <= k < |record| && record[k].status == s
      && forall j :: 0 <= j < k ==> record[j].status != s) ==> r == record[k].count
  {
    if record == [] then 0
    else if record[0].status == s then record[0].count
    else DisplayCount(record[1..], s)
  }

  /** The counts shown for the stages `stages`, added up. */
  function StageSum(stages: seq<Status>, record: seq<StageCount>): int {
    if stages == [] then 0 else DisplayCount(record, stages[0]) + StageSum(stages[1..], record)
  }

  lemma StageSumOfEmpty(stages: seq<Status>)
    ensures StageSum(stages, []) == 0
  {
  }

  /** Prepending an entry for a stage the rest lacks adds its count once, when the stage is
      listed. */
  lemma {:induction false} StageSumCons(stages: seq<Status>, e: StageCount, rest: seq<StageCount>)
    requires NoDuplicates(stages)
    requires e.status !in Keys(rest)
    ensures StageSum(stages, [e] + rest) == StageSum(stages, rest) + (if e.status in stages then e.count else 0)
  {
    if stages != [] {
      var rec := [e] + rest;
      assert rec[1..] == rest;
      var tail := stages[1..];
      NoDuplicatesTail(stages);
      StageSumCons(tail, e, rest);
      assert e.status in stages <==> e.status == stages[0] || e.status in tail;
    }
  }

  /** The header total equals the sum of the counts listed under it, for any record with one
      entry per key: every status is listed once. */
  lemma {:induction false} TotalIsSumOfListed(record: seq<StageCount>)
    requires NoDuplicates(Keys(record))
    ensures Total(record) == StageSum(KanbanStages, record)
  {
    KanbanStagesComplete();
    if record == [] {
      StageSumOfEmpty(KanbanStages);
    } else {
      var rest := record[1..];
      assert Keys(rest) == Keys(record)[1..];
      NoDuplicatesTail(Keys(record));
      TotalIsSumOfListed(rest);
      assert record == [record[0]] + rest;
      StageSumCons(KanbanStages, record[0], rest);
    }
  }

  const InboundLeadsByStatus: seq<StageCount> := [
    StageCount(New, 15), StageCount(Contacted, 25), StageCount(Qualified, 10), StageCount(ProposalSent, 5),
    StageCount(Negotiation, 2), StageCount(ClosedWon, 1), StageCount(ClosedLost, 3)]

  const OutboundLeadsByStatus: seq<StageCount> := [
    StageCount(New, 30), StageCount(Contacted, 40), StageCount(Qualified, 15), StageCount(ProposalSent, 8),
    StageCount(Negotiation, 4), StageCount(ClosedWon, 2), StageCount(ClosedLost, 10)]

  /** The two header totals of the mock data, which add up the listed counts. */
  lemma MockTotals()
    ensures Total(InboundLeadsByStatus) == 61 && Total(OutboundLeadsByStatus) == 109
  {
  }

  /** A record with one entry per stage, in stage order, has a header total that adds up the
      listed counts. */
  lemma StageOrderedTotal(record: seq<StageCount>)
    requires Keys(record) == KanbanStages
    ensures Total(record) == StageSum(KanbanStages, record)
  {
    KanbanStagesComplete();
    TotalIsSumOfListed(record);
  }

  /** The inbound mock record has one entry per stage, in stage order, so its header total
      adds up the listed counts. */
  lemma InboundTotalListed()
    ensures Total(InboundLeadsByStatus) == StageSum(KanbanStages, InboundLeadsByStatus)
  {
    StageOrderedTotal(InboundLeadsByStatus);
  }

  /** The same for the outbound mock record. */
  lemma OutboundTotalListed()
    ensures Total(OutboundLeadsByStatus) == StageSum(KanbanStages, OutboundLeadsByStatus)
  {
    StageOrderedTotal(OutboundLeadsByStatus);
  }

  // ---------------------------------------------------------------------------------------
  // The graph of leads acquired over time.

  datatype MonthCounts = MonthCounts(month: string, inbound: int, outbound: int)

  datatype GraphFilter = TotalFilter | InboundFilter | OutboundFilter

  /** A plotted point: the fields the filter did not assign are absent. */
  datatype ProspectionPoint = ProspectionPoint(month: string, total: Option<int>, inbound: Option<int>, outbound: Option<int>)

  const LeadsOverTime: seq<MonthCounts> := [
    MonthCounts("Jan", 5, 10), MonthCounts("Feb", 8, 15), MonthCounts("Mar", 12, 20),
    MonthCounts("Apr", 10, 18), MonthCounts("May", 15, 25), MonthCounts("Jun", 18, 28)]

  /** The point for one month: start from the month alone and assign the fields the filter
      selects. */
  function PointFor(item: MonthCounts, filter: GraphFilter): (p: ProspectionPoint)
    ensures p.month == item.month
    ensures p.inbound.Some? <==> filter != OutboundFilter
    ensures p.outbound.Some? <==> filter != InboundFilter
    ensures p.total.Some? <==> filter == TotalFilter
    ensures p.inbound.Some? ==> p.inbound.value == item.inbound
    ensures p.outbound.Some? ==> p.outbound.value == item.outbound
    ensures p.total.Some? ==> p.total.value == item.inbound + item.outbound
  {
    ProspectionPoint(
      item.month,
      if filter == TotalFilter then Some(item.inbound + item.outbound) else None,
      if filter == TotalFilter || filter == InboundFilter then Some(item.inbound) else None,
      if filter == TotalFilter || filter == OutboundFilter then Some(item.outbound) else None)
  }

  /** `leadsOverTime.map(...)`: one point per month, in order. */
  function GraphData(series: seq<MonthCounts>, filter: GraphFilter): (r: seq<ProspectionPoint>)
    ensures |r| == |series|
    ensures forall k :: 0 <= k < |r| ==> r[k] == PointFor(series[k], filter)
    ensures forall k :: 0 <= k < |r| ==> r[k].month == series[k].month
  {
    seq(|series|, k requires 0 <= k < |series| => PointFor(series[k], filter))
  }

  /** The months and counts a point still carries, an absent count read as 0. */
  function CountsOf(p: ProspectionPoint): MonthCounts {
    MonthCounts(p.month, p.inbound.GetOr(0), p.outbound.GetOr(0))
  }

  /** The "total" graph loses nothing: the series can be read back from it. Its total line is
      the sum of what the "inbound" and "outbound" graphs plot for the same month. */
  lemma TotalGraphRoundTrip(series: seq<MonthCounts>)
    ensures var g := GraphData(series, TotalFilter);
      seq(|g|, k requires 0 <= k < |g| => CountsOf(g[k])) == series
    ensures forall k :: 0 <= k < |series| ==>
      GraphData(series, TotalFilter)[k].total.value
        == GraphData(series, InboundFilter)[k].inbound.value + GraphData(series, OutboundFilter)[k].outbound.value
  {
  }

  class ProspectionView {
    var graphFilter: GraphFilter

    constructor()
      ensures graphFilter == TotalFilter && ButtonActive(TotalFilter)
    {
      graphFilter := TotalFilter;
    }

    /** A filter button's `onClick`. */
    method SetGraphFilter(filter: GraphFilter)
      modifies this
      ensures graphFilter == filter
      ensures ButtonActive(filter) && forall other :: other != filter ==> !ButtonActive(other)
    {
      graphFilter := filter;
    }

    /** The data handed to the chart under the current filter. */
    function CurrentGraphData(): (r: seq<ProspectionPoint>)
      reads this
      ensures |r| == |LeadsOverTime|
      ensures forall k :: 0 <= k < |r| ==> r[k].month == LeadsOverTime[k].month
    {
      GraphData(LeadsOverTime, graphFilter)
    }

    /** The highlighted button: exactly the one of the current filter. */
    predicate ButtonActive(filter: GraphFilter)
      reads this
    {
      graphFilter == filter
    }
  }
}
