/** The attention-pattern view: a head selector, a heat map of the selected
    head whose cell shade is the weight divided by the largest weight, and
    a hover tooltip. */
module AttentionMap {
  import opened Common
  import opened TokenText

  predicate HasCell(m: seq<seq<real>>)
  {
    exists i :: 0 <= i < |m| && |m[i]| > 0
  }

  /** `Math.max(...currentAttention.flat())`: at least every weight of the
      matrix and equal to one of them. The view needs at least one cell. */
  function MaxValue(m: seq<seq<real>>): (mx: real)
    requires HasCell(m)
    ensures forall i, j :: 0 <= i < |m| && 0 <= j < |m[i]| ==> m[i][j] <= mx
    ensures exists i, j :: 0 <= i < |m| && 0 <= j < |m[i]| && m[i][j] == mx
  {
    var last := m[|m| - 1];
    var front := m[..|m| - 1];
    assert forall i :: 0 <= i < |front| ==> front[i] == m[i];
    if !HasCell(front) then
      assert |last| > 0;
      RowMax(last)
    else if |last| == 0 then
      MaxValue(front)
    else
      var a := MaxValue(front);
      var b := RowMax(last);
      if a >= b then a else b
  }

  function RowMax(row: seq<real>): (mx: real)
    requires |row| > 0
    ensures forall j :: 0 <= j < |row| ==> row[j] <= mx
    ensures exists j :: 0 <= j < |row| && row[j] == mx
  {
    if |row| == 1 then row[0]
    else
      var a := RowMax(row[..|row| - 1]);
      assert forall j :: 0 <= j < |row| - 1 ==> row[..|row| - 1][j] == row[j];
      if a >= row[|row| - 1] then a else row[|row| - 1]
  }

  /** The alpha of `rgba(99, 102, 241, val / maxValue)`. The division is not
      guarded: a matrix whose largest weight is 0 is outside the view's domain. */
  function Intensity(val: real, maxValue: real): real
    requires maxValue != 0.0
  {
    val / maxValue
  }

  predicate NonNegativeMatrix(m: seq<seq<real>>)
  {
    forall i, j :: 0 <= i < |m| && 0 <= j < |m[i]| ==> 0.0 <= m[i][j]
  }

  /** For non-negative weights with a positive maximum every shade lies in
      [0, 1] and a largest cell is fully opaque. */
  lemma IntensityInUnitInterval(m: seq<seq<real>>)
    requires HasCell(m) && NonNegativeMatrix(m) && MaxValue(m) > 0.0
    ensures forall i, j :: 0 <= i < |m| && 0 <= j < |m[i]| ==>
      0.0 <= Intensity(m[i][j], MaxValue(m)) <= 1.0
    ensures exists i, j :: 0 <= i < |m| && 0 <= j < |m[i]| && Intensity(m[i][j], MaxValue(m)) == 1.0
  {
    var mx := MaxValue(m);
    forall i, j | 0 <= i < |m| && 0 <= j < |m[i]|
      ensures 0.0 <= Intensity(m[i][j], mx) <= 1.0
    {
      DivideBounded(m[i][j], mx);
    }
    var i, j :| 0 <= i < |m| && 0 <= j < |m[i]| && m[i][j] == mx;
    SelfQuotient(mx);
  }

  lemma SelfQuotient(y: real)
    requires y > 0.0
    ensures y / y == 1.0
  {
  }

  lemma DivideBounded(x: real, y: real)
    requires 0.0 <= x <= y && y > 0.0
    ensures 0.0 <= x / y <= 1.0
  {
  }

  /** `Array.from({ length: nHeads }).map((_, i) => i)`: one button per head. */
  function HeadButtons(nHeads: nat): (b: seq<nat>)
    ensures |b| == nHeads
    ensures forall i :: 0 <= i < nHeads ==> b[i] == i
  {
    seq(nHeads, i requires 0 <= i => i as nat)
  }

  /** `{ i, j, val }` of the hovered cell. */
  datatype Cell = Cell(i: nat, j: nat, val: real)

  /** `hoveredCell?.i === i && hoveredCell?.j === j`. */
  predicate Highlighted(hovered: Option<Cell>, i: nat, j: nat)
  {
    hovered.Some? && hovered.value.i == i && hovered.value.j == j
  }

  /** At most one cell carries the highlight border. */
  lemma HighlightUnique(hovered: Option<Cell>, i1: nat, j1: nat, i2: nat, j2: nat)
    requires Highlighted(hovered, i1, j1) && Highlighted(hovered, i2, j2)
    ensures i1 == i2 && j1 == j2
  {
  }

  /** `token.replace(' ', '·')`. */
  function Label(token: string): (l: string)
    ensures |l| == |token|
  {
    MarkFirstSpace(token)
  }

  datatype Tooltip = Tooltip(from: string, to: string, weight: real)

  /** The tooltip for the hovered cell (i, j): attention flows from token j
      to token i. */
  function TooltipFor(hovered: Option<Cell>, tokens: seq<string>): (t: Option<Tooltip>)
    requires hovered.Some? ==> hovered.value.i < |tokens| && hovered.value.j < |tokens|
    ensures t.Some? <==> hovered.Some?
    ensures t.Some? ==> t.value.from == MarkFirstSpace(tokens[hovered.value.j])
                        && t.value.to == MarkFirstSpace(tokens[hovered.value.i])
                        && t.value.weight == hovered.value.val
  {
    match hovered
    case None => None
    case Some(c) => Some(Tooltip(Label(tokens[c.j]), Label(tokens[c.i]), c.val))
  }

  /** The view state over its `data` prop. */
  class AttentionMapView {
    var attention: seq<seq<seq<real>>>
    var tokens: seq<string>
    var selectedHead: nat
    var hoveredCell: Option<Cell>

    constructor(attention: seq<seq<seq<real>>>, tokens: seq<string>)
      ensures this.attention == attention && this.tokens == tokens
      ensures selectedHead == 0 && hoveredCell == None
    {
      this.attention := attention;
      this.tokens := tokens;
      selectedHead := 0;
      hoveredCell := None;
    }

    /** New props: React keeps both state fields as they were; nothing
        brings `selectedHead` back into range. */
    method ReceiveData(attention: seq<seq<seq<real>>>, tokens: seq<string>)
      modifies this
      ensures this.attention == attention && this.tokens == tokens
      ensures selectedHead == old(selectedHead) && hoveredCell == old(hoveredCell)
    {
      this.attention := attention;
      this.tokens := tokens;
    }

    /** A click on the button of head i (buttons exist for 0 .. nHeads - 1). */
    method ClickHead(i: nat)
      modifies this
      requires i < |attention|
      ensures selectedHead == i
      ensures hoveredCell == old(hoveredCell) && attention == old(attention) && tokens == old(tokens)
    {
      selectedHead := i;
    }

    method EnterCell(i: nat, j: nat, val: real)
      modifies this
      ensures hoveredCell == Some(Cell(i, j, val))
      ensures selectedHead == old(selectedHead) && attention == old(attention) && tokens == old(tokens)
    {
      hoveredCell := Some(Cell(i, j, val));
    }

    method LeaveCell()
      modifies this
      ensures hoveredCell == None
      ensures selectedHead == old(selectedHead) && attention == old(attention) && tokens == old(tokens)
    {
      hoveredCell := None;
    }

    /** `attention[selectedHead]`; the view indexes without a range check. */
    function Current(): seq<seq<real>>
      reads this
      requires selectedHead < |attention|
    {
      attention[selectedHead]
    }
  }

  /** Entering a cell highlights exactly that cell, and leaving clears it. */
  method HoverHighlightsOneCell(attention: seq<seq<seq<real>>>, tokens: seq<string>, i: nat, j: nat, val: real)
    returns (during: Option<Cell>, after: Option<Cell>)
    ensures forall a, b :: Highlighted(during, a, b) <==> a == i && b == j
    ensures forall a, b :: !Highlighted(after, a, b)
  {
    var view := new AttentionMapView(attention, tokens);
    view.EnterCell(i, j, val);
    during := view.hoveredCell;
    view.LeaveCell();
    after := view.hoveredCell;
  }

  /** Head 3 selected for a 4-head payload stays selected when a payload
      with only 2 heads arrives: `attention[selectedHead]` is then out of range. */
  method SelectionSurvivesFewerHeads(four: seq<seq<seq<real>>>, two: seq<seq<seq<real>>>, tokens: seq<string>)
    returns (selected: nat, inRange: bool)
    requires |four| == 4 && |two| == 2
    ensures selected == 3 && !inRange
  {
    var view := new AttentionMapView(four, tokens);
    view.ClickHead(3);
    view.ReceiveData(two, tokens);
    selected := view.selectedHead;
    inRange := selected < |view.attention|;
  }
}
