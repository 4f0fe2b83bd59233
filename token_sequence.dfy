/** The interactive token sequence: one box per input token shaded by the
    probability the model gave that token, with a tooltip of the top five
    alternatives for the hovered box. */
module TokenSequence {
  import opened Common
  import opened TokenText
  import opened Fetch

  /** The view always asks for five alternatives per position. */
  const RequestTopK: nat := 5
  /** The tooltip shows at most this many of them. */
  const ShownAlternatives: nat := 5

  datatype Alternative = Alternative(token: string, prob: real, id: nat)

  /** One entry of `predictions` in the `/token-predictions` response. */
  datatype Prediction = Prediction(
    position: nat, actualToken: string, actualTokenId: nat, actualProb: real, topK: seq<Alternative>)

  datatype TokenResponse = TokenResponse(tokens: seq<string>, predictions: seq<Prediction>)

  function Request(text: string): (r: Option<Fetch.Request>)
    ensures r.None? <==> text == ""
    ensures r.Some? ==> r.value.topK == Some(RequestTopK)
  {
    RequestFor(text, Some(RequestTopK))
  }

  /** The alpha of `getConfidenceColor`: `min(2p, 1) * 0.6 + 0.1`. It rises
      linearly from 0.1 at p = 0 and saturates at 0.7 from p = 0.5 on. */
  function ConfidenceAlpha(p: real): (a: real)
    ensures p <= 0.5 ==> a == 1.2 * p + 0.1
    ensures p >= 0.5 ==> a == 0.7
    ensures 0.0 <= p ==> 0.1 <= a <= 0.7
  {
    MinReal(p * 2.0, 1.0) * 0.6 + 0.1
  }

  /** A more probable token is never drawn lighter. */
  lemma ConfidenceAlphaMonotone(p: real, q: real)
    requires p <= q
    ensures ConfidenceAlpha(p) <= ConfidenceAlpha(q)
  {
  }

  /** `pred.top_k.slice(0, 5)`. */
  function ShownAlternativesOf(pred: Prediction): (alts: seq<Alternative>)
    ensures |alts| == Min(ShownAlternatives, |pred.topK|)
    ensures alts == pred.topK[..|alts|]
    ensures |pred.topK| <= ShownAlternatives ==> alts == pred.topK
  {
    Take(pred.topK, ShownAlternatives)
  }

  /** What one alternative row of the tooltip shows. */
  datatype AlternativeRow = AlternativeRow(text: string, barWidth: real)

  datatype TokenTooltip = TokenTooltip(text: string, alternatives: seq<AlternativeRow>, position: nat, tokenId: nat)

  /** A token box: its text, its shade and, when hovered, its tooltip. */
  datatype TokenBox = TokenBox(text: string, alpha: real, tooltip: Option<TokenTooltip>)

  function AlternativeRows(alts: seq<Alternative>): (rows: seq<AlternativeRow>)
    ensures |rows| == |alts|
    ensures forall k :: 0 <= k < |alts| ==>
      rows[k].text == FormatToken(alts[k].token) && rows[k].barWidth == alts[k].prob * 100.0
  {
    seq(|alts|, k requires 0 <= k < |alts| => AlternativeRow(FormatToken(alts[k].token), alts[k].prob * 100.0))
  }

  /** `tokenData.predictions.map((pred, idx) => ...)` with the tooltip under
      `hoveredToken === idx`. */
  function Boxes(preds: seq<Prediction>, hovered: Option<nat>): (boxes: seq<TokenBox>)
    ensures |boxes| == |preds|
    ensures forall idx :: 0 <= idx < |preds| ==>
      boxes[idx].text == FormatToken(preds[idx].actualToken)
      && boxes[idx].alpha == ConfidenceAlpha(preds[idx].actualProb)
      && (boxes[idx].tooltip.Some? <==> hovered == Some(idx))
  {
    seq(|preds|, idx requires 0 <= idx < |preds| =>
      var pred := preds[idx];
      TokenBox(FormatToken(pred.actualToken), ConfidenceAlpha(pred.actualProb),
               if hovered == Some(idx)
               then Some(TokenTooltip(FormatToken(pred.actualToken), AlternativeRows(ShownAlternativesOf(pred)), idx, pred.actualTokenId))
               else None))
  }

  /** At most one box shows a tooltip, and its rows are the first five
      alternatives in service order. */
  lemma BoxesTooltip(preds: seq<Prediction>, hovered: Option<nat>, a: nat, b: nat)
    requires a < |preds| && b < |preds|
    requires Boxes(preds, hovered)[a].tooltip.Some? && Boxes(preds, hovered)[b].tooltip.Some?
    ensures a == b
    ensures var rows := Boxes(preds, hovered)[a].tooltip.value.alternatives;
      |rows| <= ShownAlternatives
      && forall k :: 0 <= k < |rows| ==> rows[k].text == FormatToken(preds[a].topK[k].token)
  {
  }

  datatype SequenceView = ShowLoading | ShowNothing | ShowBoxes(boxes: seq<TokenBox>)

  function Render(screen: Screen<TokenResponse>, hovered: Option<nat>): (v: SequenceView)
    ensures v.ShowLoading? <==> screen.LoadingCard?
    ensures v.ShowNothing? <==> screen.Nothing?
    ensures screen.Content? ==> v == ShowBoxes(Boxes(screen.value.predictions, hovered))
  {
    match screen
    case LoadingCard => ShowLoading
    case Nothing => ShowNothing
    case Content(data) => ShowBoxes(Boxes(data.predictions, hovered))
  }

  /** The view state: the shared fetch pattern plus `hoveredToken`. */
  class TokenSequenceView {
    const fetch: ViewFetch<TokenResponse>
    var hoveredToken: Option<nat>

    constructor()
      ensures fresh(fetch) && fetch.data == None && !fetch.loading && hoveredToken == None
    {
      fetch := new ViewFetch<TokenResponse>();
      hoveredToken := None;
    }

    method EnterToken(idx: nat)
      modifies this
      ensures hoveredToken == Some(idx)
    {
      hoveredToken := Some(idx);
    }

    method LeaveToken()
      modifies this
      ensures hoveredToken == None
    {
      hoveredToken := None;
    }

    function View(): SequenceView
      reads this, fetch
    {
      Render(fetch.Screen(), hoveredToken)
    }
  }

  /** Hovering box idx of a loaded payload shows exactly that box's tooltip;
      leaving hides every tooltip. */
  method HoverScenario(text: string, data: TokenResponse, idx: nat)
    returns (during: SequenceView, after: SequenceView)
    requires text != "" && idx < |data.predictions|
    ensures during.ShowBoxes? && after.ShowBoxes?
    ensures |during.boxes| == |after.boxes| == |data.predictions|
    ensures forall k :: 0 <= k < |data.predictions| ==>
      (during.boxes[k].tooltip.Some? <==> k == idx) && after.boxes[k].tooltip.None?
  {
    var view := new TokenSequenceView();
    var issued := view.fetch.Begin(text);
    view.fetch.Settle(Ok(data));
    view.EnterToken(idx);
    during := view.View();
    view.LeaveToken();
    after := view.View();
  }
}
