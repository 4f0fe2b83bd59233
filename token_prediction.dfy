/** The next-token prediction view: a bar chart and a ranked list over the
    top predictions, the first one emphasised. */
module TokenPrediction {
  import opened TokenText

  /** One entry of the `/predict` response, in the order the service ranks them. */
  datatype NextToken = NextToken(token: string, prob: real, id: nat)

  /** A bar's fill: the first bar is solid indigo, the others indigo with an
      alpha that grows with the probability. */
  datatype Fill = Solid(colour: string) | Translucent(alpha: real)

  const LeaderColour: string := "#6366f1"

  /** `index === 0 ? '#6366f1' : rgba(99, 102, 241, 0.3 + p * 0.7)`. */
  function BarFill(index: nat, p: real): (f: Fill)
    ensures f.Solid? <==> index == 0
    ensures f.Solid? ==> f.colour == LeaderColour
    ensures f.Translucent? && 0.0 <= p <= 1.0 ==> 0.3 <= f.alpha <= 1.0
    ensures f.Translucent? && p == 0.0 ==> f.alpha == 0.3
    ensures f.Translucent? && p == 1.0 ==> f.alpha == 1.0
  {
    if index == 0 then Solid(LeaderColour) else Translucent(0.3 + p * 0.7)
  }

  /** A more probable non-first bar is never more transparent. */
  lemma BarAlphaMonotone(index: nat, p: real, q: real)
    requires index > 0 && p <= q
    ensures BarFill(index, p).alpha <= BarFill(index, q).alpha
  {
  }

  /** One row of the list: rank label, token label, bar width in percent
      and whether it gets the highlighted background. */
  datatype ListRow = ListRow(rank: string, text: string, width: real, highlighted: bool)

  function ListRows(preds: seq<NextToken>): (rows: seq<ListRow>)
    ensures |rows| == |preds|
    ensures forall idx :: 0 <= idx < |preds| ==>
      rows[idx].rank == HashLabel(idx + 1)
      && rows[idx].text == MarkFirstSpace(preds[idx].token)
      && rows[idx].width == preds[idx].prob * 100.0
      && (rows[idx].highlighted <==> idx == 0)
  {
    seq(|preds|, idx requires 0 <= idx < |preds| =>
      ListRow(HashLabel(idx + 1), MarkFirstSpace(preds[idx].token), preds[idx].prob * 100.0, idx == 0))
  }

  /** Rank labels are pairwise different and only the top row is highlighted. */
  lemma ListRowsRanks(preds: seq<NextToken>, a: nat, b: nat)
    requires a < |preds| && b < |preds|
    ensures ListRows(preds)[a].rank == ListRows(preds)[b].rank <==> a == b
    ensures ListRows(preds)[a].highlighted && ListRows(preds)[b].highlighted ==> a == b
  {
    HashLabelInjective(a + 1, b + 1);
  }

  /** When every probability lies in [0, 1], every list bar stays inside its
      track: its width is between 0 and 100 percent. */
  lemma WidthBounded(preds: seq<NextToken>, idx: nat)
    requires forall k :: 0 <= k < |preds| ==> 0.0 <= preds[k].prob <= 1.0
    requires idx < |preds|
    ensures 0.0 <= ListRows(preds)[idx].width <= 100.0
  {
  }

  /** The bar chart cells, one per prediction in order. */
  function BarFills(preds: seq<NextToken>): (fills: seq<Fill>)
    ensures |fills| == |preds|
    ensures forall idx :: 0 <= idx < |preds| ==> fills[idx] == BarFill(idx, preds[idx].prob)
  {
    seq(|preds|, idx requires 0 <= idx < |preds| => BarFill(idx, preds[idx].prob))
  }

  /** Exactly one bar is solid whenever there is a prediction, and it is the
      first one whatever its probability. */
  lemma OneSolidBar(preds: seq<NextToken>, idx: nat)
    requires idx < |preds|
    ensures BarFills(preds)[idx].Solid? <==> idx == 0
    ensures |preds| > 0 ==> BarFills(preds)[0] == Solid(LeaderColour)
  {
  }
}
