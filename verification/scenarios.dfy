/**
 * Concrete walk-throughs of the chart pipelines on small inputs: a
 * two-quarter bar chart on desktop and mobile, the pie sample collapsed
 * for mobile, and an auto-render scan with one malformed container.
 */
module Scenarios {
  import opened Wrappers
  import opened Records
  import opened Breakpoints
  import opened Pagination
  import BarChart
  import PieChart
  import AutoRender

  const TwoQuarters: seq<Record> := [
    Record("Q1", [("volume", Number(100))]),
    Record("Q2", [("volume", Number(200))])
  ]

  /** On desktop both quarters fit on one page and the one numeric field becomes the one bar. */
  lemma TwoQuartersDesktop()
    ensures ItemsPerPage(Desktop, 2) == 2
    ensures TotalPages(Desktop, 2) == 1
    ensures VisibleData(TwoQuarters, Desktop, 0) == TwoQuarters
    ensures |BarChart.BarConfigs(TwoQuarters, Desktop)| == 1
    ensures BarChart.BarConfigs(TwoQuarters, Desktop)[0].key == "volume"
  {
    var keys := NumericKeys(TwoQuarters[0]);
    assert keys == ["volume"];
    var cs := BarChart.Candidates(Desktop);
    var volume := BarChart.BarSeries("volume", "Transaction volume", "#00dfb8");
    assert cs[0] == volume;
    assert forall j :: 1 <= j < |cs| ==> cs[j].key != "volume";
    assert BarChart.KeepPresent(cs[4..], keys) == [] by {
      assert cs[4..][1..] == cs[5..];
    }
    assert BarChart.KeepPresent(cs[3..], keys) == [] by {
      assert cs[3..][1..] == cs[4..];
    }
    assert BarChart.KeepPresent(cs[2..], keys) == [] by {
      assert cs[2..][1..] == cs[3..];
    }
    assert BarChart.KeepPresent(cs[1..], keys) == [] by {
      assert cs[1..][1..] == cs[2..];
    }
    assert BarChart.KeepPresent(cs, keys) == [volume];
  }

  /** On mobile the page would hold three records, so two need no pagination. */
  lemma TwoQuartersMobile()
    ensures ItemsPerPage(Mobile, 2) == 2
    ensures TotalPages(Mobile, 2) == 1
    ensures !ShowPagination(Mobile, 2)
  {
  }

  /** The pie sample plots its "volume" field and every record has one. */
  lemma PieSampleReady()
    ensures PieChart.PieKey(AutoRender.PieSample) == Some("volume")
    ensures PieChart.PieReady(AutoRender.PieSample)
  {
    var data := AutoRender.PieSample;
    assert NumericKeys(data[0]) == ["volume"];
    forall i | 0 <= i < |data|
      ensures NumberAt(data[i], "volume").Some?
    {
      assert data[i].fields[0].0 == "volume" && data[i].fields[0].1.Number?;
    }
  }

  /** The sample's slices, already in descending order of value. */
  lemma PieSampleSlices()
    ensures PieChart.PieReady(AutoRender.PieSample)
    ensures var pie := PieChart.PieData(AutoRender.PieSample);
            |pie| == 6 && pie[4].value == 12000 && pie[5].value == 3000 && PieChart.NonIncreasing(pie)
  {
    PieSampleReady();
    var data := AutoRender.PieSample;
    var pie := PieChart.PieData(data);
    assert pie[0].value == 145000 && pie[1].value == 89000 && pie[2].value == 67000;
    assert pie[3].value == 34000 && pie[4].value == 12000 && pie[5].value == 3000;
  }

  /** The six-slice sample on mobile: the four largest slices and "Other" holding the two smallest. */
  lemma PieSampleOnMobile()
    ensures PieChart.PieReady(AutoRender.PieSample)
    ensures |PieChart.MobileOptimised(PieChart.PieData(AutoRender.PieSample))| == 5
    ensures PieChart.MobileOptimised(PieChart.PieData(AutoRender.PieSample))[4].name == "Other"
    ensures PieChart.MobileOptimised(PieChart.PieData(AutoRender.PieSample))[4].value == 12000 + 3000
  {
    PieSampleSlices();
    var pie := PieChart.PieData(AutoRender.PieSample);
    PieChart.SortDescKeepsSorted(pie);
    assert pie[4..][1..] == pie[5..];
  }

  /** Three marked containers, the middle one with malformed data: the other two still render. */
  lemma OneMalformedAmongThree(good: AutoRender.Container, bad: AutoRender.Container, other: AutoRender.Container)
    requires good.chartData.Parsed? && other.chartData.Parsed?
    requires bad.chartData.Malformed?
    ensures var outs := seq(3, i requires 0 <= i < 3 => AutoRender.ReadContainer(AutoRender.Bar, [good, bad, other][i]));
            outs[0].Rendered? && outs[1] == AutoRender.Logged(bad.id) && outs[2].Rendered?
  {
  }
}
