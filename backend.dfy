/** The small exact rules of the back end around the tensor code: the
    empty-text rejection shared by the text endpoints, the post-filter of
    the analogy candidates and the eigenvalue threshold counts. */
module Backend {
  import opened Common
  import opened TokenText

  datatype HttpError = HttpError(status: int, detail: string)

  const EmptyTextError := HttpError(400, "Text cannot be empty")

  /** `if not text: raise HTTPException(400, ...)`, the first step of every
      endpoint that takes a text. */
  function RequireText(text: string): (r: Result<string, HttpError>)
    ensures r.Err? <==> |text| == 0
    ensures r.Err? ==> r.error.status == 400
    ensures r.Ok? ==> r.value == text
  {
    if text == "" then Err(EmptyTextError) else Ok(text)
  }

  // ---------------------------------------------------------------------
  // Analogy post-filter.
  // ---------------------------------------------------------------------

  /** One nearest-neighbour candidate, in the order `torch.topk` ranks them. */
  datatype Candidate = Candidate(token: string, score: real, id: nat)

  /** `set(request.positive + request.negative)`. */
  function InputWords(positive: seq<string>, negative: seq<string>): (words: set<string>)
    ensures forall w :: w in words <==> w in positive || w in negative
  {
    set w | w in positive + negative
  }

  /** A candidate is skipped when its stripped text is one of the input words. */
  predicate IsInputWord(c: Candidate, words: set<string>)
  {
    Trim(c.token) in words
  }

  /** The candidates that survive the input-word filter, in ranking order. */
  function Kept(cands: seq<Candidate>, words: set<string>): (r: seq<Candidate>)
    ensures |r| <= |cands|
    ensures forall k :: 0 <= k < |r| ==> !IsInputWord(r[k], words)
  {
    if cands == [] then []
    else Kept(cands[..|cands| - 1], words)
         + (if IsInputWord(cands[|cands| - 1], words) then [] else [cands[|cands| - 1]])
  }

  /** Every survivor is one of the candidates. */
  lemma {:induction false} KeptFromCandidates(cands: seq<Candidate>, words: set<string>)
    ensures forall c :: c in Kept(cands, words) ==> c in cands
  {
    if cands != [] {
      var front := cands[..|cands| - 1];
      KeptFromCandidates(front, words);
      assert forall c :: c in front ==> c in cands;
    }
  }

  /** Filtering a concatenation filters each part and keeps them in order:
      the filter never reorders candidates. */
  lemma {:induction false} KeptAppend(xs: seq<Candidate>, ys: seq<Candidate>, words: set<string>)
    ensures Kept(xs + ys, words) == Kept(xs, words) + Kept(ys, words)
  {
    if ys == [] {
      assert xs + ys == xs;
    } else {
      var zs := xs + ys;
      assert zs[..|zs| - 1] == xs + ys[..|ys| - 1];
      KeptAppend(xs, ys[..|ys| - 1], words);
    }
  }

  /** Every candidate that is not an input word survives the filter. */
  lemma {:induction false} KeptComplete(cands: seq<Candidate>, words: set<string>, c: Candidate)
    requires c in cands && !IsInputWord(c, words)
    ensures c in Kept(cands, words)
  {
    var last := cands[|cands| - 1];
    if c != last {
      assert c in cands[..|cands| - 1] by {
        var k :| 0 <= k < |cands| && cands[k] == c;
        assert cands[..|cands| - 1][k] == c;
      }
      KeptComplete(cands[..|cands| - 1], words, c);
    }
  }

  /** Ranked by descending similarity. */
  predicate ScoresDescending(cands: seq<Candidate>)
  {
    forall a, b :: 0 <= a < b < |cands| ==> cands[a].score >= cands[b].score
  }

  /** The filter keeps a descending ranking descending. */
  lemma {:induction false} KeptKeepsRanking(cands: seq<Candidate>, words: set<string>)
    requires ScoresDescending(cands)
    ensures ScoresDescending(Kept(cands, words))
  {
    if cands != [] {
      var front := cands[..|cands| - 1];
      var last := cands[|cands| - 1];
      assert ScoresDescending(front);
      KeptKeepsRanking(front, words);
      KeptFromCandidates(front, words);
      var kf := Kept(front, words);
      forall k | 0 <= k < |kf| ensures kf[k].score >= last.score {
        assert kf[k] in front;
        var m :| 0 <= m < |front| && front[m] == kf[k];
      }
    }
  }

  /** The `for` loop of `/analogy` after the candidate search: skip input
      words with `continue`, append, then `break` once `len(results) >= top_k`.
      Because the test follows the append, a `top_k` of zero or less still
      lets one result through. */
  method FilterCandidates(cands: seq<Candidate>, words: set<string>, topK: int)
    returns (results: seq<Candidate>)
    ensures results == Take(Kept(cands, words), Max(topK, 1))
  {
    results := [];
    var i := 0;
    while i < |cands|
      invariant 0 <= i <= |cands|
      invariant results == Kept(cands[..i], words)
      invariant |results| < Max(topK, 1)
    {
      assert cands[..i + 1][..i] == cands[..i];
      var c := cands[i];
      if IsInputWord(c, words) {
        i := i + 1;
        continue;
      }
      results := results + [c];
      if |results| >= topK {
        TakeOfLongerPrefix(cands, words, i + 1, |results|);
        return;
      }
      i := i + 1;
    }
    assert cands[..i] == cands;
  }

  /** Once `Kept` of a prefix has n elements, Take of n of the whole list is that prefix. */
  lemma TakeOfLongerPrefix(cands: seq<Candidate>, words: set<string>, i: nat, n: nat)
    requires i <= |cands| && n == |Kept(cands[..i], words)|
    ensures Take(Kept(cands, words), n) == Kept(cands[..i], words)
  {
    assert cands == cands[..i] + cands[i..];
    KeptAppend(cands[..i], cands[i..], words);
  }

  /** The analogy result contains no input word, keeps the ranking order of
      the candidates and holds at most `max(top_k, 1)` entries; it is every
      surviving candidate when fewer than that survive. */
  lemma FilterCandidatesSpec(cands: seq<Candidate>, words: set<string>, topK: int)
    ensures var r := Take(Kept(cands, words), Max(topK, 1));
      (forall k :: 0 <= k < |r| ==> !IsInputWord(r[k], words))
      && |r| <= Max(topK, 1)
      && (|Kept(cands, words)| < Max(topK, 1) ==> r == Kept(cands, words))
    ensures ScoresDescending(cands) ==> ScoresDescending(Take(Kept(cands, words), Max(topK, 1)))
  {
    var kept := Kept(cands, words);
    var r := Take(kept, Max(topK, 1));
    assert forall k :: 0 <= k < |r| ==> r[k] == kept[k];
    if ScoresDescending(cands) {
      KeptKeepsRanking(cands, words);
    }
  }

  /** With `top_k = 0` one surviving candidate is still returned. */
  lemma FilterCandidatesZeroTopK(c: Candidate, words: set<string>)
    requires !IsInputWord(c, words)
    ensures |Take(Kept([c], words), Max(0, 1))| == 1
  {
    assert [c][..0] == [];
  }

  /** The filter with the length test before the append: never more than
      `top_k` results, and none for a non-positive `top_k`. */
  method FilterCandidatesBounded(cands: seq<Candidate>, words: set<string>, topK: int)
    returns (results: seq<Candidate>)
    ensures results == Take(Kept(cands, words), Max(topK, 0))
    ensures |results| <= Max(topK, 0)
  {
    results := [];
    var i := 0;
    while i < |cands|
      invariant 0 <= i <= |cands|
      invariant results == Kept(cands[..i], words)
      invariant |results| <= Max(topK, 0)
    {
      if |results| >= topK {
        TakeOfLongerPrefix(cands, words, i, |results|);
        return;
      }
      assert cands[..i + 1][..i] == cands[..i];
      var c := cands[i];
      if !IsInputWord(c, words) {
        results := results + [c];
      }
      i := i + 1;
    }
    assert cands[..i] == cands;
  }

  // ---------------------------------------------------------------------
  // Eigenvalue threshold counts.
  // ---------------------------------------------------------------------

  /** `(values > t).sum()`. */
  function CountAbove(xs: seq<real>, t: real): (c: nat)
    ensures c <= |xs|
  {
    if xs == [] then 0 else CountAbove(xs[..|xs| - 1], t) + (if xs[|xs| - 1] > t then 1 else 0)
  }

  /** A higher threshold never counts more values. */
  lemma {:induction false} CountAboveMonotone(xs: seq<real>, low: real, high: real)
    requires low <= high
    ensures CountAbove(xs, high) <= CountAbove(xs, low)
  {
    if xs != [] {
      CountAboveMonotone(xs[..|xs| - 1], low, high);
    }
  }

  predicate Descending(xs: seq<real>)
  {
    forall a, b :: 0 <= a < b < |xs| ==> xs[a] >= xs[b]
  }

  /** On magnitudes sorted in descending order the count is the length of
      the leading run above the threshold. */
  lemma {:induction false} CountAboveSortedPrefix(xs: seq<real>, t: real)
    requires Descending(xs)
    ensures CountAbove(xs, t) <= |xs|
    ensures forall k :: 0 <= k < CountAbove(xs, t) ==> xs[k] > t
    ensures forall k :: CountAbove(xs, t) <= k < |xs| ==> xs[k] <= t
  {
    if xs != [] {
      var front := xs[..|xs| - 1];
      assert Descending(front);
      CountAboveSortedPrefix(front, t);
      assert forall k :: 0 <= k < |front| ==> front[k] == xs[k];
    }
  }

  const SignificantThreshold: real := 0.1
  const RankThreshold: real := 0.01

  /** One entry of the `/eigenvalues` response. */
  datatype EigenEntry = EigenEntry(head: nat, eigenvalues: seq<real>, numSignificant: nat, rankEstimate: nat)

  /** The entry for head h built from its magnitudes sorted in descending order. */
  function EigenSummary(h: nat, magnitudes: seq<real>): (e: EigenEntry)
    ensures e.head == h && e.eigenvalues == magnitudes
    ensures e.numSignificant <= e.rankEstimate <= |magnitudes|
  {
    CountAboveMonotone(magnitudes, RankThreshold, SignificantThreshold);
    EigenEntry(h, magnitudes, CountAbove(magnitudes, SignificantThreshold), CountAbove(magnitudes, RankThreshold))
  }

  /** The `/eigenvalues` endpoint after the per-head eigenvalue computation:
      the rejected empty text, or one entry per head in head order. */
  method Eigenvalues(text: string, magnitudes: seq<seq<real>>) returns (r: Result<seq<EigenEntry>, HttpError>)
    ensures r.Err? <==> text == ""
    ensures r.Err? ==> r.error == EmptyTextError
    ensures r.Ok? ==> |r.value| == |magnitudes|
    ensures r.Ok? ==> forall h :: 0 <= h < |magnitudes| ==>
      r.value[h].head == h && r.value[h].eigenvalues == magnitudes[h]
      && r.value[h].numSignificant == CountAbove(magnitudes[h], SignificantThreshold)
      && r.value[h].rankEstimate == CountAbove(magnitudes[h], RankThreshold)
      && r.value[h].numSignificant <= r.value[h].rankEstimate
  {
    var checked := RequireText(text);
    if checked.Err? {
      return Err(checked.error);
    }
    var entries: seq<EigenEntry> := [];
    var h := 0;
    while h < |magnitudes|
      invariant 0 <= h <= |magnitudes| && |entries| == h
      invariant forall g :: 0 <= g < h ==> entries[g] == EigenSummary(g, magnitudes[g])
    {
      entries := entries + [EigenSummary(h, magnitudes[h])];
      h := h + 1;
    }
    r := Ok(entries);
  }
}
