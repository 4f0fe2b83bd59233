/** The logit-lens view: for every position the top predictions read off
    before attention and at the output, each shown as a ranked list. */
module LogitLens {
  import opened Common
  import opened TokenText
  import opened Fetch

  const RequestTopK: nat := 5

  datatype LensPrediction = LensPrediction(token: string, prob: real)

  /** One entry of `lens` in the `/logit-lens` response. */
  datatype LensEntry = LensEntry(position: nat, token: string, preAttention: seq<LensPrediction>, final: seq<LensPrediction>)

  datatype LensResponse = LensResponse(lens: seq<LensEntry>, tokens: seq<string>)

  function Request(text: string): (r: Option<Fetch.Request>)
    ensures r.None? <==> text == ""
    ensures r.Some? ==> r.value.topK == Some(RequestTopK)
  {
    RequestFor(text, Some(RequestTopK))
  }

  /** A row `{i + 1}. token prob%`. */
  datatype RankedRow = RankedRow(rank: nat, text: string, percent: real)

  /** `preds.map((pred, i) => ...)`: ranks 1 .. n in the order received. */
  function RankedList(preds: seq<LensPrediction>): (rows: seq<RankedRow>)
    ensures |rows| == |preds|
    ensures forall i :: 0 <= i < |preds| ==> rows[i].text == FormatToken(preds[i].token)
  {
    seq(|preds|, i requires 0 <= i < |preds| => RankedRow(i + 1, FormatToken(preds[i].token), preds[i].prob * 100.0))
  }

  /** The ranks count up from 1 without gaps, so the list is never
      re-sorted: rank r is the r-th prediction the service sent. */
  lemma RankedListRanks(preds: seq<LensPrediction>, r: nat)
    requires 1 <= r <= |preds|
    ensures exists i :: 0 <= i < |preds| && RankedList(preds)[i].rank == r
    ensures forall i :: 0 <= i < |preds| && RankedList(preds)[i].rank == r ==>
      i == r - 1 && RankedList(preds)[i].text == FormatToken(preds[r - 1].token)
  {
    assert RankedList(preds)[r - 1].rank == r;
  }

  /** One card of the grid. */
  datatype LensCard = LensCard(position: string, text: string, pre: seq<RankedRow>, final: seq<RankedRow>)

  function Cards(lens: seq<LensEntry>): (cards: seq<LensCard>)
    ensures |cards| == |lens|
    ensures forall idx :: 0 <= idx < |lens| ==>
      cards[idx].position == HashLabel(idx) && cards[idx].text == FormatToken(lens[idx].token)
      && cards[idx].pre == RankedList(lens[idx].preAttention)
      && cards[idx].final == RankedList(lens[idx].final)
  {
    seq(|lens|, idx requires 0 <= idx < |lens| =>
      LensCard(HashLabel(idx), FormatToken(lens[idx].token), RankedList(lens[idx].preAttention), RankedList(lens[idx].final)))
  }

  /** Cards carry pairwise different position labels, in entry order. */
  lemma CardsPositionsDistinct(lens: seq<LensEntry>, a: nat, b: nat)
    requires a < |lens| && b < |lens|
    ensures Cards(lens)[a].position == Cards(lens)[b].position <==> a == b
  {
    HashLabelInjective(a, b);
  }

  datatype LensView = ShowLoading | ShowNothing | ShowCards(cards: seq<LensCard>)

  function Render(screen: Screen<LensResponse>): (v: LensView)
    ensures v.ShowLoading? <==> screen.LoadingCard?
    ensures v.ShowNothing? <==> screen.Nothing?
    ensures screen.Content? ==> v == ShowCards(Cards(screen.value.lens))
  {
    match screen
    case LoadingCard => ShowLoading
    case Nothing => ShowNothing
    case Content(data) => ShowCards(Cards(data.lens))
  }

  /** The view state: the shared fetch pattern alone. */
  class LogitLensView {
    const fetch: ViewFetch<LensResponse>

    constructor()
      ensures fresh(fetch) && fetch.data == None && !fetch.loading
    {
      fetch := new ViewFetch<LensResponse>();
    }

    function View(): LensView
      reads fetch
    {
      Render(fetch.Screen())
    }
  }
}
