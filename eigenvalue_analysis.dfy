/** The eigenvalue-spectrum view: fetch state, the three render states and
    the chart pivot sized by the longest head, which skips missing entries. */
module EigenvalueAnalysis {
  import opened Common
  import opened TokenText
  import opened Backend
  import opened Fetch

  /** `Math.max(...lengths)` for at least one head. With no heads JavaScript
      yields -Infinity and the loop runs zero times, as it does for 0 here. */
  function MaxLen(data: seq<EigenEntry>): (m: nat)
    ensures forall h :: 0 <= h < |data| ==> |data[h].eigenvalues| <= m
    ensures |data| == 0 ==> m == 0
    ensures |data| > 0 ==> exists h :: 0 <= h < |data| && |data[h].eigenvalues| == m
  {
    if |data| == 0 then 0
    else
      var m := MaxLen(data[..|data| - 1]);
      assert forall h :: 0 <= h < |data| - 1 ==> data[..|data| - 1][h] == data[h];
      if |data[|data| - 1].eigenvalues| > m then |data[|data| - 1].eigenvalues| else m
  }

  /** A chart row: only heads long enough get a key. */
  datatype EigenPoint = EigenPoint(index: nat, series: map<string, real>)

  /** The keys set by the `forEach` over the first hEnd heads for row i. */
  function EigenSeries(data: seq<EigenEntry>, i: nat, hEnd: nat): map<string, real>
    requires hEnd <= |data|
  {
    if hEnd == 0 then map[]
    else
      var head := data[hEnd - 1];
      var m := EigenSeries(data, i, hEnd - 1);
      if i < |head.eigenvalues| then m[HeadKey(head.head) := head.eigenvalues[i]] else m
  }

  function EigenChart(data: seq<EigenEntry>): seq<EigenPoint>
  {
    seq(MaxLen(data), k requires 0 <= k => EigenPoint(k + 1, EigenSeries(data, k, |data|)))
  }

  /** The `chartData` loop of the view. */
  method BuildEigenChart(data: seq<EigenEntry>) returns (chart: seq<EigenPoint>)
    ensures chart == EigenChart(data)
  {
    chart := [];
    var maxLen := MaxLen(data);
    var i := 0;
    while i < maxLen
      invariant 0 <= i <= maxLen
      invariant chart == EigenChart(data)[..i]
    {
      var series: map<string, real> := map[];
      var h := 0;
      while h < |data|
        invariant 0 <= h <= |data|
        invariant series == EigenSeries(data, i, h)
      {
        if i < |data[h].eigenvalues| {
          series := series[HeadKey(data[h].head) := data[h].eigenvalues[i]];
        }
        h := h + 1;
      }
      chart := chart + [EigenPoint(i + 1, series)];
      i := i + 1;
    }
  }

  predicate DistinctHeads(data: seq<EigenEntry>)
  {
    forall a, b :: 0 <= a < b < |data| ==> data[a].head != data[b].head
  }

  /** With distinct head numbers, head h's key is in row i exactly when the
      head has an i-th value, and then holds that value: no padding. */
  lemma {:induction false} EigenSeriesEntry(data: seq<EigenEntry>, i: nat, hEnd: nat, h: nat)
    requires h < hEnd <= |data| && DistinctHeads(data)
    ensures HeadKey(data[h].head) in EigenSeries(data, i, hEnd) <==> i < |data[h].eigenvalues|
    ensures i < |data[h].eigenvalues| ==>
      HeadKey(data[h].head) in EigenSeries(data, i, hEnd)
      && EigenSeries(data, i, hEnd)[HeadKey(data[h].head)] == data[h].eigenvalues[i]
  {
    if h < hEnd - 1 {
      EigenSeriesEntry(data, i, hEnd - 1, h);
      HeadKeyInjective(data[hEnd - 1].head, data[h].head);
    } else {
      EigenSeriesNoKey(data, i, hEnd - 1, data[h].head);
    }
  }

  /** A key for a head number not among the first hEnd heads is absent. */
  lemma {:induction false} EigenSeriesNoKey(data: seq<EigenEntry>, i: nat, hEnd: nat, head: nat)
    requires hEnd <= |data|
    requires forall g :: 0 <= g < hEnd ==> data[g].head != head
    ensures HeadKey(head) !in EigenSeries(data, i, hEnd)
  {
    if hEnd > 0 {
      EigenSeriesNoKey(data, i, hEnd - 1, head);
      HeadKeyInjective(data[hEnd - 1].head, head);
    }
  }

  /** The chart has as many rows as the longest head (none for no heads),
      row k has index k + 1, and each head appears in exactly the rows its
      list reaches. */
  lemma EigenChartRows(data: seq<EigenEntry>, k: nat, h: nat)
    requires DistinctHeads(data)
    requires k < |EigenChart(data)| && h < |data|
    ensures |EigenChart(data)| == MaxLen(data)
    ensures EigenChart(data)[k].index == k + 1
    ensures HeadKey(data[h].head) in EigenChart(data)[k].series <==> k < |data[h].eigenvalues|
    ensures k < |data[h].eigenvalues| ==>
      HeadKey(data[h].head) in EigenChart(data)[k].series
      && EigenChart(data)[k].series[HeadKey(data[h].head)] == data[h].eigenvalues[k]
  {
    EigenSeriesEntry(data, k, |data|, h);
  }

  const EigenColours: seq<string> := [
    "#60A5FA", "#34D399", "#F87171", "#FBBF24", "#A78BFA",
    "#EC4899", "#6366F1", "#10B981", "#EF4444", "#F59E0B",
    "#8B5CF6", "#DB2777"]

  datatype Line = Line(dataKey: string, stroke: string)

  /** `eigenData.eigenvalues.map((headData, i) => <Line ... stroke={colors[i % colors.length]}/>)`. */
  function EigenLines(data: seq<EigenEntry>): (lines: seq<Line>)
    ensures |lines| == |data|
    ensures forall i :: 0 <= i < |data| ==>
      lines[i].dataKey == HeadKey(data[i].head) && lines[i].stroke == EigenColours[i % 12]
  {
    seq(|data|, i requires 0 <= i < |data| => Line(HeadKey(data[i].head), EigenColours[i % |EigenColours|]))
  }

  /** The twelve colours are pairwise different. */
  lemma EigenColoursDistinct(a: nat, b: nat)
    requires a < b < |EigenColours|
    ensures EigenColours[a] != EigenColours[b]
  {
  }

  /** Two lines share a colour exactly when their positions are congruent
      modulo twelve; with the service's twelve heads every line has its own. */
  lemma EigenLinesCycle(data: seq<EigenEntry>, i: nat, j: nat)
    requires i < |data| && j < |data|
    ensures EigenLines(data)[i].stroke == EigenLines(data)[j].stroke <==> i % 12 == j % 12
  {
    if i % 12 < j % 12 {
      EigenColoursDistinct(i % 12, j % 12);
    } else if j % 12 < i % 12 {
      EigenColoursDistinct(j % 12, i % 12);
    }
  }

  /** The `/eigenvalues` payload the view stores. */
  datatype EigenResponse = EigenResponse(eigenvalues: seq<EigenEntry>, tokens: seq<string>)

  /** What the component returns. */
  datatype EigenView = ShowLoading | ShowNothing | ShowChart(points: seq<EigenPoint>, lines: seq<Line>)

  function Render(screen: Screen<EigenResponse>): (v: EigenView)
    ensures v.ShowLoading? <==> screen.LoadingCard?
    ensures v.ShowNothing? <==> screen.Nothing?
    ensures screen.Content? ==>
              v == ShowChart(EigenChart(screen.value.eigenvalues), EigenLines(screen.value.eigenvalues))
  {
    match screen
    case LoadingCard => ShowLoading
    case Nothing => ShowNothing
    case Content(resp) => ShowChart(EigenChart(resp.eigenvalues), EigenLines(resp.eigenvalues))
  }

  /** The view's state: the shared fetch pattern over the eigenvalue payload. */
  class EigenvalueView {
    const fetch: ViewFetch<EigenResponse>

    constructor()
      ensures fresh(fetch) && fetch.data == None && !fetch.loading
    {
      fetch := new ViewFetch<EigenResponse>();
    }

    function View(): EigenView
      reads fetch
    {
      Render(fetch.Screen())
    }
  }

  /** A failed refetch: the old chart stays and the loading card goes away. */
  method FailedRefetchKeepsChart(text: string, answer: EigenResponse, message: string)
    returns (before: EigenView, after: EigenView)
    requires text != ""
    ensures before == after
    ensures after == ShowChart(EigenChart(answer.eigenvalues), EigenLines(answer.eigenvalues))
  {
    var view := new EigenvalueView();
    var issued := view.fetch.Begin(text);
    view.fetch.Settle(Ok(answer));
    before := view.View();
    issued := view.fetch.Begin(text);
    assert view.View() == ShowLoading;
    view.fetch.Settle(Err(message));
    after := view.View();
  }
}
