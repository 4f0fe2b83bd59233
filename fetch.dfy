/** The data-fetching pattern the text-driven views share: a `useEffect` on
    `text` that returns early for an empty text, otherwise sets `loading`,
    awaits the service, stores the payload on success, logs a failure and
    clears `loading`. There is no request counter and no cancellation: a
    response is stored whenever it arrives. */
module Fetch {
  import opened Common

  /** What a view renders from its fetch state. */
  datatype Screen<T> = LoadingCard | Nothing | Content(value: T)

  /** `if (loading) return <Loading/>; if (!data) return null; ...` */
  function ScreenOf<T>(loading: bool, data: Option<T>): (s: Screen<T>)
    ensures s.LoadingCard? <==> loading
    ensures s.Nothing? <==> !loading && data.None?
    ensures s.Content? <==> !loading && data.Some?
    ensures s.Content? ==> data == Some(s.value)
  {
    if loading then LoadingCard
    else if data.None? then Nothing
    else Content(data.value)
  }

  /** The body a view posts: the text and, for the ranked views, `top_k`. */
  datatype Request = Request(text: string, topK: Option<nat>)

  /** The effect's early return: no request for an empty text. */
  function RequestFor(text: string, topK: Option<nat>): (r: Option<Request>)
    ensures r.None? <==> text == ""
    ensures r.Some? ==> r.value.text == text && r.value.topK == topK
  {
    if text == "" then None else Some(Request(text, topK))
  }

  /** The `data` / `loading` pair of one view. */
  class ViewFetch<T> {
    var data: Option<T>
    var loading: bool

    /** `useState(null)` and `useState(false)`. */
    constructor()
      ensures data == None && !loading
    {
      data := None;
      loading := false;
    }

    function Screen(): Screen<T>
      reads this
    {
      ScreenOf(loading, data)
    }

    /** The effect body up to the `await`: nothing happens for an empty
        text, otherwise the view enters the loading state and keeps its
        previous payload. */
    method Begin(text: string) returns (issued: bool)
      modifies this
      ensures issued <==> text != ""
      ensures data == old(data)
      ensures loading == (old(loading) || issued)
    {
      if text == "" {
        return false;
      }
      loading := true;
      issued := true;
    }

    /** The effect body after the `await`, for whichever request this is:
        a payload replaces the data, a failure is only logged, and loading
        ends in both cases. */
    method Settle(outcome: Result<T, string>)
      modifies this
      ensures !loading
      ensures outcome.Ok? ==> data == Some(outcome.value)
      ensures outcome.Err? ==> data == old(data)
    {
      if outcome.Ok? {
        data := Some(outcome.value);
      }
      loading := false;
    }
  }

  /** Two requests in flight, the newer answered first: the older, stale
      response arrives last and is the one shown. */
  method LateResponseWins<T>(oldText: string, newText: string, oldAnswer: T, newAnswer: T)
    returns (shown: Screen<T>)
    requires oldText != "" && newText != ""
    ensures shown == Content(oldAnswer)
  {
    var view := new ViewFetch<T>();
    var first := view.Begin(oldText);
    var second := view.Begin(newText);
    view.Settle(Ok(newAnswer));
    view.Settle(Ok(oldAnswer));
    shown := view.Screen();
  }

  /** Two requests in flight: the first answer already ends the loading
      state although the second request is still pending. */
  method FirstAnswerEndsLoading<T>(oldText: string, newText: string, oldAnswer: T)
    returns (shown: Screen<T>)
    requires oldText != "" && newText != ""
    ensures shown == Content(oldAnswer)
  {
    var view := new ViewFetch<T>();
    var first := view.Begin(oldText);
    var second := view.Begin(newText);
    assert view.Screen() == LoadingCard;
    view.Settle(Ok(oldAnswer));
    shown := view.Screen();
  }

  /** A failed refetch leaves the previous payload on screen. */
  method FailureKeepsData<T>(text: string, nextText: string, answer: T, message: string)
    returns (shown: Screen<T>)
    requires text != "" && nextText != ""
    ensures shown == Content(answer)
  {
    var view := new ViewFetch<T>();
    var first := view.Begin(text);
    view.Settle(Ok(answer));
    var second := view.Begin(nextText);
    view.Settle(Err(message));
    shown := view.Screen();
  }

  /** A view whose first text is empty never fetches and renders nothing. */
  method EmptyTextRendersNothing<T>(text: string) returns (shown: Screen<T>)
    ensures text == "" ==> shown == Nothing
    ensures text != "" ==> shown == LoadingCard
  {
    var view := new ViewFetch<T>();
    var issued := view.Begin(text);
    shown := view.Screen();
  }
}
