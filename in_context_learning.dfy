/** The in-context-learning view: one card per head with a colour and an
    icon chosen by the head's behaviour label, and a detail panel for the
    selected head with four score bars and the example lists. */
module InContextLearning {
  import opened Common
  import opened TokenText
  import opened Fetch
  import opened HeadBehavior

  /** The `/induction-score` payload the view stores. */
  datatype InductionResponse = InductionResponse(behaviors: seq<HeadReport>, tokens: seq<string>)

  /** The label the six-entry lookup tables recognise, if any. */
  function ParseBehavior(t: string): (b: Option<Behavior>)
    ensures b.Some? ==> b.value.Name() == t
  {
    if t == Copying.Name() then Some(Copying)
    else if t == Induction.Name() then Some(Induction)
    else if t == SelfAttention.Name() then Some(SelfAttention)
    else if t == PreviousToken.Name() then Some(PreviousToken)
    else if t == Diffuse.Name() then Some(Diffuse)
    else if t == Mixed.Name() then Some(Mixed)
    else None
  }

  /** Every label is recognised as itself: the tables are keyed by the
      names the back end sends. */
  lemma ParseBehaviorName(b: Behavior)
    ensures ParseBehavior(b.Name()) == Some(b)
  {
    var n := b.Name();
    assert n[0] == b.Name()[0];
    match b
    case Copying =>
    case Induction => assert n[0] != Copying.Name()[0];
    case SelfAttention => assert n[0] != Copying.Name()[0] && n[0] != Induction.Name()[0];
    case PreviousToken =>
      assert n[0] != Copying.Name()[0] && n[0] != Induction.Name()[0] && n[0] != SelfAttention.Name()[0];
    case Diffuse =>
      assert n[0] != Copying.Name()[0] && n[0] != Induction.Name()[0] && n[0] != SelfAttention.Name()[0];
      assert n[0] != PreviousToken.Name()[0];
    case Mixed =>
      assert n[0] != Copying.Name()[0] && n[0] != Induction.Name()[0] && n[0] != SelfAttention.Name()[0];
      assert n[0] != PreviousToken.Name()[0] && n[0] != Diffuse.Name()[0];
  }

  const FallbackColour: string := "#64748b"
  const FallbackIcon: string := "\U{2753}"

  function Colour(b: Behavior): string
  {
    match b
    case Copying => "#34D399"
    case Induction => "#A78BFA"
    case SelfAttention => "#60A5FA"
    case PreviousToken => "#FBBF24"
    case Diffuse => "#64748b"
    case Mixed => "#94a3b8"
  }

  function Icon(b: Behavior): string
  {
    match b
    case Copying => "\U{1F4CB}"
    case Induction => "\U{1F504}"
    case SelfAttention => "\U{1F3AF}"
    case PreviousToken => "\U{2B05}\U{FE0F}"
    case Diffuse => "\U{1F4AB}"
    case Mixed => "\U{1F500}"
  }

  /** `getBehaviorColor`: the table entry, or the fallback for any other string. */
  function BehaviorColour(t: string): (c: string)
    ensures ParseBehavior(t).None? ==> c == FallbackColour
  {
    match ParseBehavior(t)
    case Some(b) => Colour(b)
    case None => FallbackColour
  }

  /** `getBehaviorIcon`: the table entry, or the fallback for any other string. */
  function BehaviorIcon(t: string): (i: string)
    ensures ParseBehavior(t).None? ==> i == FallbackIcon
  {
    match ParseBehavior(t)
    case Some(b) => Icon(b)
    case None => FallbackIcon
  }

  /** Each of the six labels gets its own colour and icon; the question-mark
      icon appears exactly for strings outside the table. */
  lemma LookupTables(b: Behavior, t: string)
    ensures BehaviorColour(b.Name()) == Colour(b)
    ensures BehaviorIcon(b.Name()) == Icon(b)
    ensures BehaviorIcon(t) == FallbackIcon <==> ParseBehavior(t).None?
  {
    ParseBehaviorName(b);
    match ParseBehavior(t)
    case None =>
    case Some(c) =>
      assert BehaviorIcon(t)[0] != FallbackIcon[0];
  }

  /** A diffuse head is drawn in the fallback colour: in the colour alone it
      cannot be told from an unknown label. */
  lemma DiffuseLooksUnknown()
    ensures BehaviorColour(Diffuse.Name()) == BehaviorColour("")
  {
    ParseBehaviorName(Diffuse);
  }

  /** Every label the back end can send gets a known icon. */
  lemma ReportedLabelsHaveIcons(copying: real, induction: real, diagonal: real, prevToken: real)
    ensures BehaviorIcon(Classify(copying, induction, diagonal, prevToken).Name()) != FallbackIcon
  {
    var b := Classify(copying, induction, diagonal, prevToken);
    LookupTables(b, b.Name());
  }

  /** One head card of the selector grid. */
  datatype HeadCard = HeadCard(border: string, icon: string, title: string, kind: string, active: bool)

  function HeadCards(behaviors: seq<HeadReport>, selected: nat): (cards: seq<HeadCard>)
    ensures |cards| == |behaviors|
    ensures forall idx :: 0 <= idx < |behaviors| ==>
      cards[idx].active == (selected == idx)
      && cards[idx].title == HeadKey(behaviors[idx].head)
      && cards[idx].icon == BehaviorIcon(behaviors[idx].behaviorType)
      && cards[idx].border == BehaviorColour(behaviors[idx].behaviorType)
  {
    seq(|behaviors|, idx requires 0 <= idx < |behaviors| =>
      var b := behaviors[idx];
      HeadCard(BehaviorColour(b.behaviorType), BehaviorIcon(b.behaviorType), HeadKey(b.head), b.behaviorType, selected == idx))
  }

  /** An example list, or the message shown in its place when it is empty. */
  datatype Panel<T> = NoneDetected(message: string) | Listed(items: seq<T>)

  function ExamplesPanel<T>(xs: seq<T>, message: string): (p: Panel<T>)
    ensures p.NoneDetected? <==> |xs| == 0
    ensures p.NoneDetected? ==> p.message == message
    ensures p.Listed? ==> p.items == xs
  {
    if |xs| > 0 then Listed(xs) else NoneDetected(message)
  }

  /** The detail panel: the four bar widths in percent and both example panels. */
  datatype Details = Details(
    copyingWidth: real, inductionWidth: real, selfAttentionWidth: real, prevTokenWidth: real,
    copying: Panel<CopyExample>, induction: Panel<InductionExample>)

  function DetailsOf(r: HeadReport): (d: Details)
    ensures d.copyingWidth == r.copyingScore * 100.0 && d.inductionWidth == r.inductionScore * 100.0
    ensures d.selfAttentionWidth == r.diagonalScore * 100.0 && d.prevTokenWidth == r.prevTokenScore * 100.0
    ensures d.copying.NoneDetected? <==> |r.copyingExamples| == 0
    ensures d.copying.NoneDetected? ==> d.copying.message == "No copying detected"
    ensures d.copying.Listed? ==> d.copying.items == r.copyingExamples
    ensures d.induction.NoneDetected? <==> |r.inductionExamples| == 0
    ensures d.induction.NoneDetected? ==> d.induction.message == "No induction detected"
    ensures d.induction.Listed? ==> d.induction.items == r.inductionExamples
  {
    Details(r.copyingScore * 100.0, r.inductionScore * 100.0, r.diagonalScore * 100.0, r.prevTokenScore * 100.0,
            ExamplesPanel(r.copyingExamples, "No copying detected"),
            ExamplesPanel(r.inductionExamples, "No induction detected"))
  }

  /** For a report with softmax-like attention every bar is 0 to 100 percent wide. */
  lemma DetailsWidthsBounded(h: nat, ids: seq<int>, tokens: seq<string>, attn: seq<seq<real>>)
    requires WellShaped(ids, tokens, attn) && |ids| > 0 && Stochastic(attn)
    ensures var d := DetailsOf(Report(h, ids, tokens, attn));
      0.0 <= d.copyingWidth <= 100.0 && 0.0 <= d.inductionWidth <= 100.0
      && 0.0 <= d.selfAttentionWidth <= 100.0 && 0.0 <= d.prevTokenWidth <= 100.0
  {
    ReportScoresInUnitInterval(h, ids, tokens, attn);
  }

  datatype BehaviorView = ShowLoading | ShowNothing | ShowHeads(cards: seq<HeadCard>, details: Details)

  /** `behaviorData.behaviors[selectedHead]` is read without a range check:
      the view is only defined while the selection is in range. */
  function Render(screen: Screen<InductionResponse>, selected: nat): (v: BehaviorView)
    requires screen.Content? ==> selected < |screen.value.behaviors|
    ensures v.ShowLoading? <==> screen.LoadingCard?
    ensures v.ShowNothing? <==> screen.Nothing?
    ensures screen.Content? ==>
              v == ShowHeads(HeadCards(screen.value.behaviors, selected), DetailsOf(screen.value.behaviors[selected]))
  {
    match screen
    case LoadingCard => ShowLoading
    case Nothing => ShowNothing
    case Content(data) => ShowHeads(HeadCards(data.behaviors, selected), DetailsOf(data.behaviors[selected]))
  }

  /** The view state: the shared fetch pattern plus `selectedHead`. */
  class InContextView {
    const fetch: ViewFetch<InductionResponse>
    var selectedHead: nat

    constructor()
      ensures fresh(fetch) && fetch.data == None && !fetch.loading && selectedHead == 0
    {
      fetch := new ViewFetch<InductionResponse>();
      selectedHead := 0;
    }

    /** A click on the card of head idx. */
    method ClickHead(idx: nat)
      modifies this
      requires fetch.data.Some? && idx < |fetch.data.value.behaviors|
      ensures selectedHead == idx
    {
      selectedHead := idx;
    }
  }

  /** Head 1 selected, then a refetch whose payload lists one head: the
      selection is kept and now points past the end of `behaviors`. */
  method SelectionNotClamped(text: string, nextText: string, first: InductionResponse, second: InductionResponse)
    returns (selected: nat, inRange: bool)
    requires text != "" && nextText != ""
    requires |first.behaviors| >= 2 && |second.behaviors| == 1
    ensures selected == 1 && !inRange
  {
    var view := new InContextView();
    var issued := view.fetch.Begin(text);
    view.fetch.Settle(Ok(first));
    view.ClickHead(1);
    issued := view.fetch.Begin(nextText);
    view.fetch.Settle(Ok(second));
    selected := view.selectedHead;
    inRange := selected < |view.fetch.data.value.behaviors|;
  }
}
