/**
 * The homepage's protein chart: a doughnut with the proteins eaten and,
 * while the target is not met, the proteins still missing.
 */
module Homepage {
  import opened Wrappers
  import opened Dashboard

  /** A chart colour entry: one colour for every slice, or one per slice. */
  datatype ChartColor = Single(color: string) | PerSlice(colors: seq<string>)

  datatype Chart = Chart(labels: seq<string>, data: seq<seq<real>>, colors: seq<ChartColor>)

  const InitialLabels: seq<string> := ["Current Proteins", "Remaining Proteins"]
  const InitialColors: seq<ChartColor> := [PerSlice(["rgba(69, 130, 165, 0.61)", "#C4C4C4"])]
  const MetLabels: seq<string> := ["Current Proteins"]
  const MetColors: seq<ChartColor> := [Single("rgb(130,194,79,1)")]

  /** The chart fields as the component is constructed: two labels, no data yet. */
  const InitialChart := Chart(InitialLabels, [], InitialColors)

  /** hasMetTarget: the proteins eaten reach the target. */
  predicate HasMetTarget(info: DashboardInfo) {
    info.currentProteins >= info.targetProteins
  }

  /** The doughnut's slices: the proteins eaten alone, or eaten and remaining, which add up to the target. */
  function ProteinSlices(info: DashboardInfo): (slices: seq<real>)
    ensures HasMetTarget(info) ==> slices == [info.currentProteins]
    ensures !HasMetTarget(info) ==>
              && |slices| == 2
              && slices[0] == info.currentProteins
              && slices[0] + slices[1] == info.targetProteins
              && slices[1] > 0.0
  {
    if HasMetTarget(info) then [info.currentProteins]
    else [info.currentProteins, info.targetProteins - info.currentProteins]
  }

  /** The labels and colours belong to the slices the data holds. */
  predicate ChartInStep(c: Chart, met: bool) {
    && |c.data| == 1
    && |c.labels| == |c.data[0]|
    && c.labels == (if met then MetLabels else InitialLabels)
    && c.colors == (if met then MetColors else InitialColors)
  }

  /**
   * The chart after loadDashboardInfo as written: a met target sets the
   * single label and colour; a missed one sets only the data and keeps
   * whatever labels and colours the chart had.
   */
  function ChartAfterLoad(c: Chart, info: DashboardInfo): (r: Chart)
    ensures r.data == [ProteinSlices(info)]
    ensures HasMetTarget(info) ==> r.labels == MetLabels && r.colors == MetColors
    ensures !HasMetTarget(info) ==> r.labels == c.labels && r.colors == c.colors
  {
    if HasMetTarget(info) then Chart(MetLabels, [ProteinSlices(info)], MetColors)
    else c.(data := [ProteinSlices(info)])
  }

  /** The first load, from the constructed chart, leaves the chart in step. */
  lemma FirstLoadInStep(info: DashboardInfo)
    ensures ChartInStep(ChartAfterLoad(InitialChart, info), HasMetTarget(info))
  {
  }

  /**
   * A met target followed by a missed one (a recipe log removed, say) leaves
   * one label and one colour for all of two slices: the remaining proteins
   * are drawn unlabelled, in the "met" colour.
   */
  lemma LabelsFallOutOfStep(met: DashboardInfo, missed: DashboardInfo)
    requires HasMetTarget(met) && !HasMetTarget(missed)
    ensures var c := ChartAfterLoad(ChartAfterLoad(InitialChart, met), missed);
            && |c.labels| == 1 && |c.data[0]| == 2
            && c.colors == MetColors
            && !ChartInStep(c, HasMetTarget(missed))
  {
  }

  /** The evidently intended load: the missed branch restores the two labels and colours. */
  function ChartAfterLoadCorrected(c: Chart, info: DashboardInfo): (r: Chart)
    ensures ChartInStep(r, HasMetTarget(info))
    ensures r.data == [ProteinSlices(info)]
  {
    if HasMetTarget(info) then Chart(MetLabels, [ProteinSlices(info)], MetColors)
    else Chart(InitialLabels, [ProteinSlices(info)], InitialColors)
  }

  /** Both loads agree wherever the written one is right: on the first load and whenever the target is met. */
  lemma CorrectedAgreesWithWritten(c: Chart, info: DashboardInfo)
    ensures ChartAfterLoadCorrected(InitialChart, info) == ChartAfterLoad(InitialChart, info)
    ensures HasMetTarget(info) ==> ChartAfterLoadCorrected(c, info) == ChartAfterLoad(c, info)
  {
  }

  class HomepageComponent {
    var dashboardUserInfo: Option<DashboardInfo>
    var hasMetTarget: bool
    var doughnutChartLabels: seq<string>
    var doughnutChartData: seq<seq<real>>
    var doughnutChartColors: seq<ChartColor>

    function ChartState(): Chart
      reads this
    {
      Chart(doughnutChartLabels, doughnutChartData, doughnutChartColors)
    }

    /** No dashboard yet; hasMetTarget starts undefined, which reads as false. */
    constructor ()
      ensures ChartState() == InitialChart && dashboardUserInfo == None && !hasMetTarget
    {
      dashboardUserInfo := None;
      hasMetTarget := false;
      doughnutChartLabels := InitialLabels;
      doughnutChartData := [];
      doughnutChartColors := InitialColors;
    }

    /** loadDashboardInfo's subscription, as written. */
    method LoadDashboardInfo(data: DashboardInfo)
      modifies this
      ensures dashboardUserInfo == Some(data)
      ensures hasMetTarget == HasMetTarget(data)
      ensures ChartState() == ChartAfterLoad(old(ChartState()), data)
    {
      dashboardUserInfo := Some(data);
      if data.currentProteins >= data.targetProteins {
        hasMetTarget := true;
        doughnutChartLabels := MetLabels;
        doughnutChartData := [[data.currentProteins]];
        doughnutChartColors := MetColors;
      } else {
        hasMetTarget := false;
        doughnutChartData := [[data.currentProteins, data.targetProteins - data.currentProteins]];
      }
    }

    /** The subscription with the missed branch restoring labels and colours; the chart is then always in step. */
    method LoadDashboardInfoCorrected(data: DashboardInfo)
      modifies this
      ensures dashboardUserInfo == Some(data)
      ensures hasMetTarget == HasMetTarget(data)
      ensures ChartState() == ChartAfterLoadCorrected(old(ChartState()), data)
      ensures ChartInStep(ChartState(), hasMetTarget)
    {
      dashboardUserInfo := Some(data);
      if data.currentProteins >= data.targetProteins {
        hasMetTarget := true;
        doughnutChartLabels := MetLabels;
        doughnutChartData := [[data.currentProteins]];
        doughnutChartColors := MetColors;
      } else {
        hasMetTarget := false;
        doughnutChartLabels := InitialLabels;
        doughnutChartData := [[data.currentProteins, data.targetProteins - data.currentProteins]];
        doughnutChartColors := InitialColors;
      }
    }
  }
}
