/** The key figures of the analytics page (src/pages/analytics.tsx): folds
    over a fixed table of monthly spend, leads and cost per lead. */
module Analytics {
  import opened Wrappers
  import opened Numeric

  datatype MonthRow = MonthRow(month: string, cost: real, leads: real, cpl: real)

  /** The page's table, March to November 2024. */
  const Data: seq<MonthRow> := [
    MonthRow("Mar 2024", 27724.35, 1788.0, 15.51),
    MonthRow("Apr 2024", 34224.27, 2506.0, 13.66),
    MonthRow("May 2024", 45329.15, 2205.0, 20.56),
    MonthRow("Jun 2024", 48713.74, 2869.0, 16.98),
    MonthRow("Jul 2024", 53972.73, 2607.0, 20.70),
    MonthRow("Aug 2024", 59693.50, 3160.0, 18.89),
    MonthRow("Sep 2024", 61110.13, 2868.0, 21.31),
    MonthRow("Oct 2024", 75568.96, 3160.0, 23.91),
    MonthRow("Nov 2024", 78484.37, 2869.0, 27.36)
  ]

  /** The numeric columns the page folds over. */
  datatype Field = Cost | Leads | Cpl

  function Value(r: MonthRow, f: Field): real {
    match f
    case Cost => r.cost
    case Leads => r.leads
    case Cpl => r.cpl
  }

  /** One numeric column of the table, in row order. */
  function Column(rows: seq<MonthRow>, f: Field): (xs: seq<real>)
    ensures |xs| == |rows|
    ensures forall i :: 0 <= i < |rows| ==> xs[i] == Value(rows[i], f)
  {
    seq(|rows|, i requires 0 <= i < |rows| => Value(rows[i], f))
  }

  /** `data.reduce((acc, curr) => acc + curr.f, 0) / data.length`. */
  function Average(rows: seq<MonthRow>, f: Field): (a: real)
    requires rows != []
    ensures a * |rows| as real == Sum(Column(rows, f))
  {
    Mean(Column(rows, f))
  }

  /** Index of the row `data.reduce((max, curr) => curr.f > max.f ? curr : max,
      data[0])` returns: seeded with the first row and replaced only on
      a strictly larger value, so the earliest maximal row wins. */
  function FirstMax(rows: seq<MonthRow>, f: Field): (i: nat)
    requires rows != []
    ensures i < |rows|
    ensures forall j :: 0 <= j < |rows| ==> Value(rows[j], f) <= Value(rows[i], f)
    ensures forall j :: 0 <= j < i ==> Value(rows[j], f) < Value(rows[i], f)
  {
    if |rows| == 1 then 0
    else
      var m := FirstMax(rows[..|rows| - 1], f);
      assert rows[..|rows| - 1][m] == rows[m];
      if Value(rows[|rows| - 1], f) > Value(rows[m], f) then |rows| - 1 else m
  }

  /** Index of the row the `<` reduce returns: the earliest minimal row. */
  function FirstMin(rows: seq<MonthRow>, f: Field): (i: nat)
    requires rows != []
    ensures i < |rows|
    ensures forall j :: 0 <= j < |rows| ==> Value(rows[i], f) <= Value(rows[j], f)
    ensures forall j :: 0 <= j < i ==> Value(rows[i], f) < Value(rows[j], f)
  {
    if |rows| == 1 then 0
    else
      var m := FirstMin(rows[..|rows| - 1], f);
      assert rows[..|rows| - 1][m] == rows[m];
      if Value(rows[|rows| - 1], f) < Value(rows[m], f) then |rows| - 1 else m
  }

  /** `((last - first) / first * 100).toFixed(1)`; a zero first value gives a
      non-finite figure, here `None`. */
  function Growth(first: real, last: real): (r: Option<real>)
    ensures r.Some? <==> first != 0.0
    ensures r.Some? ==> -0.05 <= r.value - (last - first) / first * 100.0 <= 0.05
    ensures r.Some? && first > 0.0 && last >= first ==> r.value >= 0.0
    ensures r.Some? && first > 0.0 && last <= first ==> r.value <= 0.0
  {
    if first == 0.0 then None
    else
      var x := (last - first) / first * 100.0;
      assert first > 0.0 ==> (x >= 0.0 <==> last >= first) by {
        if first > 0.0 {
          assert x == (last - first) * (100.0 / first);
        }
      }
      Some(ToFixed(x, 1))
  }

  /** `(totalLeads / (totalSpend / 1000)).toFixed(1)`; no spend gives a
      non-finite figure, here `None`. */
  function LeadsPerThousand(totalLeads: real, totalSpend: real): (r: Option<real>)
    ensures r.Some? <==> totalSpend != 0.0
    ensures r.Some? ==> -0.05 <= r.value - totalLeads * 1000.0 / totalSpend <= 0.05
  {
    if totalSpend == 0.0 then None
    else
      assert totalLeads / (totalSpend / 1000.0) == totalLeads * 1000.0 / totalSpend;
      Some(ToFixed(totalLeads / (totalSpend / 1000.0), 1))
  }

  datatype Metrics = Metrics(
    totalSpend: real,
    totalLeads: real,
    avgCpl: real,
    monthlyAvgSpend: real,
    highestCpl: MonthRow,
    lowestCpl: MonthRow,
    bestLeadMonth: MonthRow,
    worstLeadMonth: MonthRow,
    spendGrowth: Option<real>,
    leadGrowth: Option<real>,
    cplGrowth: Option<real>)

  /** The page's `metrics` object.  Every figure seeds from the first row or
      divides by the row count, so the table must not be empty. */
  function ComputeMetrics(rows: seq<MonthRow>): (m: Metrics)
    requires rows != []
    ensures m.totalSpend == Sum(Column(rows, Cost))
    ensures m.totalLeads == Sum(Column(rows, Leads))
    ensures m.avgCpl == Average(rows, Cpl) && m.monthlyAvgSpend == Average(rows, Cost)
    ensures m.highestCpl == rows[FirstMax(rows, Cpl)] && m.lowestCpl == rows[FirstMin(rows, Cpl)]
    ensures m.bestLeadMonth == rows[FirstMax(rows, Leads)] && m.worstLeadMonth == rows[FirstMin(rows, Leads)]
    ensures m.spendGrowth == Growth(rows[0].cost, rows[|rows| - 1].cost)
    ensures m.leadGrowth == Growth(rows[0].leads, rows[|rows| - 1].leads)
    ensures m.cplGrowth == Growth(rows[0].cpl, rows[|rows| - 1].cpl)
  {
    var first := rows[0];
    var last := rows[|rows| - 1];
    var costs := Column(rows, Cost);
    Metrics(
      Sum(costs),
      Sum(Column(rows, Leads)),
      Average(rows, Cpl),
      Average(rows, Cost),
      rows[FirstMax(rows, Cpl)],
      rows[FirstMin(rows, Cpl)],
      rows[FirstMax(rows, Leads)],
      rows[FirstMin(rows, Leads)],
      Growth(first.cost, last.cost),
      Growth(first.leads, last.leads),
      Growth(first.cpl, last.cpl))
  }

  /** The average cost per lead is the mean of the monthly figures, so it lies
      between the lowest and the highest month. */
  lemma {:induction false} AvgCplBetweenExtremes(rows: seq<MonthRow>)
    requires rows != []
    ensures ComputeMetrics(rows).lowestCpl.cpl <= ComputeMetrics(rows).avgCpl <= ComputeMetrics(rows).highestCpl.cpl
  {
    var m := ComputeMetrics(rows);
    var cpls := Column(rows, Cpl);
    forall i | 0 <= i < |cpls| ensures m.lowestCpl.cpl <= cpls[i] <= m.highestCpl.cpl {
      assert rows[i] in rows;
    }
    MeanBetween(cpls, m.lowestCpl.cpl, m.highestCpl.cpl);
  }

  /** On the page's table, August and October tie on 3160 leads and the
      earlier month, August, is reported as the best. */
  lemma {:induction false} BestLeadMonthTie()
    ensures ComputeMetrics(Data).bestLeadMonth.month == "Aug 2024"
    ensures Data[7].leads == ComputeMetrics(Data).bestLeadMonth.leads
  {
    var i := FirstMax(Data, Leads);
    assert Data[5].leads == 3160.0;
    assert i == 5;
  }
}
