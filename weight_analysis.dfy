/** The singular-value chart of the weights view: one chart row per
    singular-value index, one series per head, and a colour per line. */
module WeightAnalysis {
  import opened Common
  import opened TokenText

  /** One entry of the `/weights` response. */
  datatype HeadSpectrum = HeadSpectrum(head: nat, singularValues: seq<real>)

  /** A chart row: `{ index: i + 1, "Head h": value, ... }`. A head whose
      list is too short contributes its key with the value `undefined`
      (`None`). */
  datatype WeightPoint = WeightPoint(index: nat, series: map<string, Option<real>>)

  /** `list[i]` in JavaScript: `undefined` past the end. */
  function ValueAt(xs: seq<real>, i: nat): (v: Option<real>)
    ensures v.Some? <==> i < |xs|
    ensures v.Some? ==> v.value == xs[i]
  {
    if i < |xs| then Some(xs[i]) else None
  }

  /** The keys set by the `forEach` over the first hEnd heads for row i;
      a later head with the same number overwrites an earlier one. */
  function RowSeries(data: seq<HeadSpectrum>, i: nat, hEnd: nat): map<string, Option<real>>
    requires hEnd <= |data|
  {
    if hEnd == 0 then map[]
    else RowSeries(data, i, hEnd - 1)[HeadKey(data[hEnd - 1].head) := ValueAt(data[hEnd - 1].singularValues, i)]
  }

  /** The number of rows: the first head's list length, none without data. */
  function RowCount(data: seq<HeadSpectrum>): nat
  {
    if |data| > 0 then |data[0].singularValues| else 0
  }

  function WeightChart(data: seq<HeadSpectrum>): seq<WeightPoint>
  {
    seq(RowCount(data), k requires 0 <= k => WeightPoint(k + 1, RowSeries(data, k, |data|)))
  }

  /** The `chartData` loop: rows 0 .. numSV - 1, each filled by a `forEach`
      over the heads. */
  method BuildWeightChart(data: seq<HeadSpectrum>) returns (chart: seq<WeightPoint>)
    ensures chart == WeightChart(data)
  {
    chart := [];
    if |data| > 0 {
      var numSV := |data[0].singularValues|;
      var i := 0;
      while i < numSV
        invariant 0 <= i <= numSV
        invariant chart == WeightChart(data)[..i]
      {
        var series: map<string, Option<real>> := map[];
        var h := 0;
        while h < |data|
          invariant 0 <= h <= |data|
          invariant series == RowSeries(data, i, h)
        {
          series := series[HeadKey(data[h].head) := ValueAt(data[h].singularValues, i)];
          h := h + 1;
        }
        chart := chart + [WeightPoint(i + 1, series)];
        i := i + 1;
      }
    }
  }

  /** Head numbers are pairwise different (the service numbers them 0 .. n - 1). */
  predicate DistinctHeads(data: seq<HeadSpectrum>)
  {
    forall a, b :: 0 <= a < b < |data| ==> data[a].head != data[b].head
  }

  /** Every row carries exactly one key per head number seen so far. */
  lemma {:induction false} RowSeriesKeys(data: seq<HeadSpectrum>, i: nat, hEnd: nat, key: string)
    requires hEnd <= |data|
    ensures key in RowSeries(data, i, hEnd) <==> exists h :: 0 <= h < hEnd && HeadKey(data[h].head) == key
  {
    if hEnd > 0 {
      RowSeriesKeys(data, i, hEnd - 1, key);
    }
  }

  /** The value under head h's key is head h's i-th value, unless a later
      head with the same number overwrote it. */
  lemma {:induction false} RowSeriesValue(data: seq<HeadSpectrum>, i: nat, hEnd: nat, h: nat)
    requires h < hEnd <= |data|
    requires forall g :: h < g < hEnd ==> data[g].head != data[h].head
    ensures HeadKey(data[h].head) in RowSeries(data, i, hEnd)
    ensures RowSeries(data, i, hEnd)[HeadKey(data[h].head)] == ValueAt(data[h].singularValues, i)
  {
    if h < hEnd - 1 {
      RowSeriesValue(data, i, hEnd - 1, h);
      HeadKeyInjective(data[hEnd - 1].head, data[h].head);
    }
  }

  /** The chart has one row per singular value of the first head, row k has
      index k + 1, and under distinct head numbers head h's series holds
      `singular_values[k]` of that head, `undefined` when it is shorter. */
  lemma WeightChartRows(data: seq<HeadSpectrum>, k: nat, h: nat)
    requires DistinctHeads(data)
    requires k < |WeightChart(data)| && h < |data|
    ensures |WeightChart(data)| == |data[0].singularValues|
    ensures WeightChart(data)[k].index == k + 1
    ensures HeadKey(data[h].head) in WeightChart(data)[k].series
    ensures WeightChart(data)[k].series[HeadKey(data[h].head)] == ValueAt(data[h].singularValues, k)
  {
    RowSeriesValue(data, k, |data|, h);
  }

  /** No data, or an empty list of heads, gives an empty chart. */
  lemma WeightChartEmpty(data: seq<HeadSpectrum>)
    ensures |data| == 0 ==> WeightChart(data) == []
    ensures |WeightChart(data)| == RowCount(data)
  {
  }

  const WeightColours: seq<string> := [
    "#4f46e5", "#10b981", "#ef4444", "#f59e0b", "#8b5cf6",
    "#ec4899", "#06b6d4", "#14b8a6", "#f97316", "#a855f7"]

  /** One `<Line>` of the chart. */
  datatype Line = Line(dataKey: string, stroke: string)

  /** `data.map((headData, i) => <Line dataKey=... stroke={colors[i % colors.length]}/>)`. */
  function WeightLines(data: seq<HeadSpectrum>): (lines: seq<Line>)
    ensures |lines| == |data|
    ensures forall i :: 0 <= i < |data| ==>
      lines[i].dataKey == HeadKey(data[i].head) && lines[i].stroke == WeightColours[i % 10]
  {
    seq(|data|, i requires 0 <= i < |data| => Line(HeadKey(data[i].head), WeightColours[i % |WeightColours|]))
  }

  /** The ten colours are pairwise different. */
  lemma WeightColoursDistinct(a: nat, b: nat)
    requires a < b < |WeightColours|
    ensures WeightColours[a] != WeightColours[b]
  {
  }

  /** Two lines share a colour exactly when their positions in the list are
      congruent modulo ten: the colours cycle with period ten and never
      repeat within a period. */
  lemma WeightLinesCycle(data: seq<HeadSpectrum>, i: nat, j: nat)
    requires i < |data| && j < |data|
    ensures WeightLines(data)[i].stroke == WeightLines(data)[j].stroke <==> i % 10 == j % 10
  {
    if i % 10 < j % 10 {
      WeightColoursDistinct(i % 10, j % 10);
    } else if j % 10 < i % 10 {
      WeightColoursDistinct(j % 10, i % 10);
    }
  }
}
