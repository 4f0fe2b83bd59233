# Attention-Lens in Dafny

Attention-Lens is an interpretability dashboard for a small transformer. A
FastAPI service runs the model and post-processes its attention patterns,
eigenvalue spectra and nearest-neighbour searches. A React front end draws the
results: an attention heat map, a token sequence shaded by confidence, next-token
bars, logit-lens cards, eigenvalue and singular-value charts, an embedding
scatter plot, an in-context-learning panel and a word-analogy panel.

This project models the exact, sequential rules around the tensor code and
proves what they promise.

- **Head-behaviour detector** (`HeadBehavior`).
  - `ScanHead` is the nested scan over token ids that sums the copying and
    induction attention and collects examples above 0.3.
  - It is proved equal to recursive specification functions.
  - Lemmas show that the examples are exactly the qualifying repeat pairs,
    listed in scan order.
  - `Classify` is `classify_head_behavior` with Python's first-maximum
    tie-break.
- **Back-end post-processing** (`Backend`):
  - the empty-text rejection;
  - the analogy post-filter, as a loop proved against a filter function;
  - the eigenvalue threshold counts.
- **Shared text rules** (`TokenText`):
  - `strip()`/`trim()`;
  - JavaScript's first-only `replace(' ', '·')`;
  - the special-token display map;
  - the decimal series keys `Head n` and position labels `#n`.
- **Front-end state** (`Fetch`, plus one class per view holding its hover or
  selection state).
  - `Fetch.ViewFetch` is the `useEffect` fetch pattern that four views share:
    no request for empty text, a loading card, a null render before data, and
    previous data kept on failure.
  - Views that keep more state (`AnalogyPanel`, `AttentionMapView`,
    `TokenSequenceView`, `InContextView`) are classes whose methods are the
    event handlers.
- **View encodings** (one module per component): chart pivots, colour cycling,
  confidence and bar alphas, the behaviour colour and icon tables, ranked
  lists, and the first-20 highlight of the scatter plot.

The model takes the following as inputs:

- attention matrices, candidate lists and sorted eigenvalue magnitudes, as
  sequences of `real`;
- token ids, as a sequence of integers;
- service responses, as values passed to the methods that settle a fetch.

Numbers are exact reals, not IEEE floats.

## Model

| member | source | states |
|---|---|---|
| Backend.RequireText | backend/main.py:37-39 | Rejects exactly the empty text, with status 400; any other text passes unchanged |
| Backend.InputWords | backend/main.py:255 | A word is an input word iff it is in the positive or the negative list |
| Backend.FilterCandidates | backend/main.py:254-276 | The loop returns the first max(top_k, 1) candidates whose stripped text is not an input word, in ranking order |
| Backend.FilterCandidatesSpec | backend/main.py:254-274 | Results: no input word, at most max(top_k, 1) entries, every survivor when fewer survive, and a descending ranking stays descending |
| Backend.KeptComplete | backend/main.py:264-271 | Every candidate that is not an input word survives the filter |
| Backend.KeptAppend | backend/main.py:257-271 | Filtering a concatenation is the concatenation of the filtered parts: the filter never reorders |
| Backend.KeptKeepsRanking | backend/main.py:257-271 | A list ranked by descending score stays ranked after filtering |
| Backend.FilterCandidatesZeroTopK | backend/main.py:273-274 | With top_k = 0, one surviving candidate is still returned |
| Backend.FilterCandidatesBounded | backend/main.py:254-276 | With the length test before the append: the first max(top_k, 0) survivors, never more than top_k |
| Backend.CountAboveMonotone | backend/main.py:355-356 | A higher threshold never counts more eigenvalues |
| Backend.CountAboveSortedPrefix | backend/main.py:350-356 | On descending magnitudes, the count is the length of the leading run above the threshold |
| Backend.EigenSummary | backend/main.py:352-357 | An entry keeps its head and magnitudes, with num_significant <= rank_estimate <= number of magnitudes |
| Backend.Eigenvalues | backend/main.py:325-362 | Error iff the text is empty; otherwise one entry per head, in head order, with both counts and num_significant <= rank_estimate |
| HeadBehavior.ScanHead | backend/main.py:388-421 | The nested scan yields the copying and induction sums and both example lists of the specification functions |
| HeadBehavior.RowCopySound | backend/main.py:398-408 | One row's copying examples are sound repeat pairs of that row, with columns below the bound |
| HeadBehavior.RowCopyOrdered | backend/main.py:398-408 | One row's copying examples are in ascending column order |
| HeadBehavior.RowCopyComplete | backend/main.py:398-408 | Every qualifying pair of the row is recorded |
| HeadBehavior.RowInductionSound | backend/main.py:398-421 | One row's induction examples are sound, and attend_to = pattern_pos + 1 <= query_pos |
| HeadBehavior.RowInductionOrdered | backend/main.py:398-421 | One row's induction examples are in ascending column order |
| HeadBehavior.RowInductionComplete | backend/main.py:410-421 | Every repeat pair whose next position gets attention above 0.3 is recorded |
| HeadBehavior.CopyExamplesSound | backend/main.py:396-408 | Each copying example has from_pos < to_pos, equal ids, attention above 0.3, and the token and weight of that cell |
| HeadBehavior.CopyExamplesOrdered | backend/main.py:396-408 | Copying examples are strictly in scan order: row first, then column |
| HeadBehavior.CopyExamplesComplete | backend/main.py:396-408 | Every repeat pair j < i with attention above 0.3 is a copying example |
| HeadBehavior.InductionExamplesSound | backend/main.py:396-421 | Each induction example has attend_to = pattern_pos + 1 <= query_pos, so the j + 1 < len(ids) guard always holds |
| HeadBehavior.InductionExamplesOrdered | backend/main.py:396-421 | Induction examples are strictly in scan order |
| HeadBehavior.InductionExamplesComplete | backend/main.py:396-421 | Every repeat pair whose next position gets attention above 0.3 is an induction example |
| HeadBehavior.RowSumsBounded | backend/main.py:399-412 | With non-negative rows, a row's copying and induction sums lie between 0 and the row's prefix sum |
| HeadBehavior.ScoreSumsBounded | backend/main.py:396-412 | With softmax-like rows, both sums lie in [0, T] |
| HeadBehavior.DiagonalBounded | backend/main.py:429-434 | With softmax-like rows, the diagonal and sub-diagonal sums lie in [0, T] and [0, T - 1] |
| HeadBehavior.Divisor | backend/main.py:425-426 | The normalising divisor max(T, 1) is at least 1 |
| HeadBehavior.Diagonal | backend/main.py:429 | The diagonal of the first n rows has n entries |
| HeadBehavior.SubDiagonal | backend/main.py:432-434 | The sub-diagonal of the first n rows has n - 1 entries, none for n <= 1 |
| HeadBehavior.FirstMaxIndex | backend/main.py:461 | Python's max(key=): an index of a largest value, with every earlier value strictly smaller |
| HeadBehavior.NameInjective | backend/main.py:464-475 | Distinct behaviour labels are distinct strings |
| HeadBehavior.Classify | backend/main.py:452-475 | Diffuse iff all four scores are below 0.1; otherwise the first largest score in the order copying, induction, diagonal, prev_token; never "mixed" |
| HeadBehavior.AnalyzeHead | backend/main.py:384-445 | One head's report, with at most 5 examples of each kind |
| HeadBehavior.InductionScore | backend/main.py:364-450 | Error iff the text is empty; otherwise one report per head, in head order |
| HeadBehavior.ReportScoresInUnitInterval | backend/main.py:423-434 | With softmax-like rows, all four scores of a report lie in [0, 1] |
| HeadBehavior.ReportExamples | backend/main.py:442-443 | A report's examples are a prefix of at most 5 of the full lists: sound and in scan order |
| HeadBehavior.ReportBehavior | backend/main.py:444 | A report is labelled "diffuse" iff all scores are below 0.1, "copying" iff copying reaches 0.1 and is a largest score, and never "mixed" |
| Common.Take | backend/main.py:442-443 | A slice [:n] has min(n, length) elements and is a prefix of the list |
| Common.SumPrefixMonotone | backend/main.py:401 | For non-negative values, a longer prefix never has a smaller sum |
| Common.ElementAtMostSum | backend/main.py:401 | A non-negative element is at most the whole sum |
| TokenText.TrimStartFacts | frontend/src/components/VectorArithmetic.jsx:24-25 | Trimming the start removes a blank prefix and stops at a non-blank character |
| TokenText.TrimEndFacts | frontend/src/components/VectorArithmetic.jsx:24-25 | Trimming the end removes a blank suffix and stops at a non-blank character |
| TokenText.Trim | backend/main.py:264 | A stripped text is no longer than the input, and has no whitespace at either end |
| TokenText.TrimIsInfix | backend/main.py:264 | A stripped text is the infix between a blank prefix and a blank suffix |
| TokenText.TrimEmptyIffBlank | frontend/src/components/VectorArithmetic.jsx:24 | word.trim() is empty iff the word is blank |
| TokenText.TrimIdempotent | frontend/src/components/VectorArithmetic.jsx:25 | Trimming twice removes nothing more |
| TokenText.MarkFirstSpace | frontend/src/components/AttentionMap.jsx:112 | Only the first space becomes "·"; every other character is unchanged |
| TokenText.MarkFirstSpaceChangesAtMostOne | frontend/src/components/TokenPrediction.jsx:144 | A label differs from its token in at most one position |
| TokenText.FormatToken | frontend/src/components/TokenSequence.jsx:34-40 | Maps exactly "\n", "\t" and " " to glyphs; any other string, including every string of length other than 1, is unchanged |
| TokenText.DecimalString | frontend/src/components/WeightAnalysis.jsx:12 | A number renders as at least one decimal digit |
| TokenText.ParseDecimalInverts | frontend/src/components/WeightAnalysis.jsx:12 | Reading a rendered number back gives the number |
| TokenText.DecimalStringInjective | frontend/src/components/LogitLens.jsx:54 | Different numbers render differently |
| TokenText.HeadKeyInjective | frontend/src/components/WeightAnalysis.jsx:12 | Two heads share a series key "Head h" iff they share a head number |
| TokenText.HashLabelInjective | frontend/src/components/TokenPrediction.jsx:132 | Two "#n" labels are equal iff their numbers are |
| Fetch.ScreenOf | frontend/src/components/EigenvalueAnalysis.jsx:26-32 | Loading card iff loading; nothing iff not loading and no data; otherwise the stored data |
| Fetch.RequestFor | frontend/src/components/EigenvalueAnalysis.jsx:10 | No request iff the text is empty; otherwise the text and the view's top_k |
| Fetch.ViewFetch.constructor | frontend/src/components/EigenvalueAnalysis.jsx:6-7 | Starts with no data and not loading |
| Fetch.ViewFetch.Begin | frontend/src/components/EigenvalueAnalysis.jsx:9-13 | Issues a request iff the text is non-empty; sets loading then, and keeps the data |
| Fetch.ViewFetch.Settle | frontend/src/components/EigenvalueAnalysis.jsx:14-20 | Always clears loading; success replaces the data, failure keeps it |
| Fetch.LateResponseWins | frontend/src/components/EigenvalueAnalysis.jsx:9-24 | With two requests in flight, whichever answer arrives last is shown, even the older request's |
| Fetch.FirstAnswerEndsLoading | frontend/src/components/EigenvalueAnalysis.jsx:13-20 | The first answer of two in flight already removes the loading card |
| Fetch.FailureKeepsData | frontend/src/components/EigenvalueAnalysis.jsx:17-20 | A failed refetch leaves the previous payload on screen |
| Fetch.EmptyTextRendersNothing | frontend/src/components/EigenvalueAnalysis.jsx:9-32 | A view whose text is empty never fetches and renders nothing |
| WeightAnalysis.ValueAt | frontend/src/components/WeightAnalysis.jsx:12 | list[i] is present iff i is in range, and it is then that element |
| WeightAnalysis.BuildWeightChart | frontend/src/components/WeightAnalysis.jsx:6-16 | The nested loop builds the chart the pivot function specifies |
| WeightAnalysis.RowSeriesKeys | frontend/src/components/WeightAnalysis.jsx:11-13 | A row has a key iff some head has that key "Head h" |
| WeightAnalysis.RowSeriesValue | frontend/src/components/WeightAnalysis.jsx:11-13 | The value under head h's key is head h's value at the row (undefined past its end) unless a later head reuses the key |
| WeightAnalysis.WeightChartRows | frontend/src/components/WeightAnalysis.jsx:8-14 | Rows = the first head's length; row k has index k + 1 and every head's k-th value, undefined for shorter heads |
| WeightAnalysis.WeightChartEmpty | frontend/src/components/WeightAnalysis.jsx:6-7 | No heads, no rows |
| WeightAnalysis.WeightLines | frontend/src/components/WeightAnalysis.jsx:100-105 | One line per head, in order; line i is keyed "Head h" and drawn in colour i mod 10 of the ten-colour list |
| WeightAnalysis.WeightLinesCycle | frontend/src/components/WeightAnalysis.jsx:18-21 | Two lines share a colour iff their positions are congruent modulo ten |
| EigenvalueAnalysis.MaxLen | frontend/src/components/EigenvalueAnalysis.jsx:36 | The longest eigenvalue list length: at least every length, reached by some head, 0 for no heads |
| EigenvalueAnalysis.BuildEigenChart | frontend/src/components/EigenvalueAnalysis.jsx:35-46 | The nested loop builds the chart the pivot function specifies |
| EigenvalueAnalysis.EigenSeriesEntry | frontend/src/components/EigenvalueAnalysis.jsx:40-44 | Head h's key is in row i iff i is below its length, with its i-th eigenvalue |
| EigenvalueAnalysis.EigenSeriesNoKey | frontend/src/components/EigenvalueAnalysis.jsx:40-44 | A row carries no key for a head not in the payload |
| EigenvalueAnalysis.EigenChartRows | frontend/src/components/EigenvalueAnalysis.jsx:36-45 | Rows = the longest length; row k has index k + 1; head h's key is present iff k < its length, with no padding |
| EigenvalueAnalysis.EigenLines | frontend/src/components/EigenvalueAnalysis.jsx:100-105 | One line per head, in order; line i is keyed "Head h" and drawn in colour i mod 12 of the twelve-colour list |
| EigenvalueAnalysis.EigenLinesCycle | frontend/src/components/EigenvalueAnalysis.jsx:48-52 | Two lines share a colour iff their positions are congruent modulo twelve, so twelve heads get twelve different colours |
| EigenvalueAnalysis.Render | frontend/src/components/EigenvalueAnalysis.jsx:26-46 | Loading card iff loading, nothing iff there is no data, otherwise exactly the pivoted chart and its lines |
| EigenvalueAnalysis.EigenvalueView.constructor | frontend/src/components/EigenvalueAnalysis.jsx:6-7 | Starts with no data and not loading |
| EigenvalueAnalysis.FailedRefetchKeepsChart | frontend/src/components/EigenvalueAnalysis.jsx:14-20 | After a failed refetch the same chart is drawn as before |
| VectorArithmetic.AddWord | frontend/src/components/VectorArithmetic.jsx:23-28 | A blank input changes nothing; otherwise the trimmed word is appended and the input is cleared |
| VectorArithmetic.AddWordKeepsListsClean | frontend/src/components/VectorArithmetic.jsx:23-28 | Lists only ever hold non-blank, trimmed words |
| VectorArithmetic.RemoveWord | frontend/src/components/VectorArithmetic.jsx:30-34 | A valid index yields the list without that word, one shorter; an index past the end changes nothing |
| VectorArithmetic.RemoveUndoesAdd | frontend/src/components/VectorArithmetic.jsx:23-34 | Removing the word just added restores the list |
| VectorArithmetic.RemoveWordMultiset | frontend/src/components/VectorArithmetic.jsx:30-34 | Removal takes out exactly that occurrence |
| VectorArithmetic.AsTerms | frontend/src/components/VectorArithmetic.jsx:72-113 | Each word becomes one signed term, in order |
| VectorArithmetic.OccurrencesAppend | frontend/src/components/VectorArithmetic.jsx:72-150 | Counting over a concatenation adds the counts |
| VectorArithmetic.TermsAppend | frontend/src/components/VectorArithmetic.jsx:72-150 | The terms of a concatenation are the concatenated terms |
| VectorArithmetic.PositiveItemsFacts | frontend/src/components/VectorArithmetic.jsx:72-74 | n positive words give n - 1 plus signs, no minus and the words in order |
| VectorArithmetic.NegativeItemsFacts | frontend/src/components/VectorArithmetic.jsx:108-113 | n negative words give n minus signs, no plus and the words in order |
| VectorArithmetic.PositiveItemsLayout | frontend/src/components/VectorArithmetic.jsx:72-74 | The positive part alternates words, in order, at even positions with a "+" at every odd position |
| VectorArithmetic.NegativeTermsFollowMinus | frontend/src/components/VectorArithmetic.jsx:108-113 | The negative part alternates a "-" at every even position with the words, in order, at odd positions |
| VectorArithmetic.EquationSigns | frontend/src/components/VectorArithmetic.jsx:72-150 | The line has n - 1 "+" signs for n positive words and one "-" per negative word |
| VectorArithmetic.EquationSignPositions | frontend/src/components/VectorArithmetic.jsx:72-150 | Every "+" sits between positive words i and i + 1, every "-" is followed by a negative word, and every negative word follows a "-" |
| VectorArithmetic.EquationTerms | frontend/src/components/VectorArithmetic.jsx:72-150 | The line lists the positive then the negative words in order, and ends in "= ?" |
| VectorArithmetic.AnalogyPanel.constructor | frontend/src/components/VectorArithmetic.jsx:5-10 | positive = king, woman; negative = man; no results; not loading; empty inputs |
| VectorArithmetic.AnalogyPanel.TypePositive | frontend/src/components/VectorArithmetic.jsx:169 | Typing sets only the positive input |
| VectorArithmetic.AnalogyPanel.TypeNegative | frontend/src/components/VectorArithmetic.jsx:223 | Typing sets only the negative input |
| VectorArithmetic.AnalogyPanel.AddPositive | frontend/src/components/VectorArithmetic.jsx:170-189 | The positive list and input become AddWord of their old values; nothing else changes |
| VectorArithmetic.AnalogyPanel.AddNegative | frontend/src/components/VectorArithmetic.jsx:224-243 | The negative list and input become AddWord of their old values; nothing else changes |
| VectorArithmetic.AnalogyPanel.RemovePositive | frontend/src/components/VectorArithmetic.jsx:88 | The positive list loses word i; nothing else changes |
| VectorArithmetic.AnalogyPanel.RemoveNegative | frontend/src/components/VectorArithmetic.jsx:127 | The negative list loses word i; nothing else changes |
| VectorArithmetic.AnalogyPanel.BeginCalculate | frontend/src/components/VectorArithmetic.jsx:12-15 | Sets loading and sends both lists; nothing is sent while the disabled button is loading |
| VectorArithmetic.AnalogyPanel.FinishCalculate | frontend/src/components/VectorArithmetic.jsx:15-20 | Always clears loading; success replaces the results, failure keeps them |
| VectorArithmetic.InitialPanel | frontend/src/components/VectorArithmetic.jsx:5-10 | The first render reads "king + woman - man = ?" and shows the hint |
| VectorArithmetic.CalculateCycle | frontend/src/components/VectorArithmetic.jsx:330 | The hint hides while a request runs and returns after a failed one that leaves the results empty |
| AttentionMap.MaxValue | frontend/src/components/AttentionMap.jsx:9-10 | The largest weight of the selected head: at least every cell, equal to some cell |
| AttentionMap.RowMax | frontend/src/components/AttentionMap.jsx:10 | The largest value of a row: at least every value, equal to one of them |
| AttentionMap.IntensityInUnitInterval | frontend/src/components/AttentionMap.jsx:140 | With non-negative weights and a positive maximum, every shade lies in [0, 1], and a maximal cell gets 1 |
| AttentionMap.HeadButtons | frontend/src/components/AttentionMap.jsx:45-48 | The buttons are exactly heads 0 .. nHeads - 1 |
| AttentionMap.Label | frontend/src/components/AttentionMap.jsx:129 | A label has as many characters as its token |
| AttentionMap.TooltipFor | frontend/src/components/AttentionMap.jsx:170-181 | A tooltip iff a cell is hovered; From is token j and To is token i, each with its first space marked |
| AttentionMap.AttentionMapView.constructor | frontend/src/components/AttentionMap.jsx:5-6 | Head 0 selected and no hovered cell |
| AttentionMap.AttentionMapView.ReceiveData | frontend/src/components/AttentionMap.jsx:3-6 | New props keep the selection and the hover as they were |
| AttentionMap.AttentionMapView.ClickHead | frontend/src/components/AttentionMap.jsx:48 | A click sets selectedHead to i and changes nothing else |
| AttentionMap.AttentionMapView.EnterCell | frontend/src/components/AttentionMap.jsx:147 | Hovering records the cell {i, j, val} |
| AttentionMap.AttentionMapView.LeaveCell | frontend/src/components/AttentionMap.jsx:148 | Leaving clears the hovered cell |
| AttentionMap.HoverHighlightsOneCell | frontend/src/components/AttentionMap.jsx:145-148 | Entering highlights exactly that cell; leaving highlights none |
| AttentionMap.SelectionSurvivesFewerHeads | frontend/src/components/AttentionMap.jsx:5-9 | Head 3 stays selected when a two-head payload arrives, out of range, because nothing clamps it |
| TokenSequence.Request | frontend/src/components/TokenSequence.jsx:10-15 | No request for empty text; otherwise top_k is 5 |
| TokenSequence.ConfidenceAlpha | frontend/src/components/TokenSequence.jsx:42-46 | 1.2p + 0.1 up to p = 0.5 and 0.7 from there; for p >= 0 it lies in [0.1, 0.7] |
| TokenSequence.ConfidenceAlphaMonotone | frontend/src/components/TokenSequence.jsx:44-45 | A more probable token is never drawn lighter |
| TokenSequence.ShownAlternativesOf | frontend/src/components/TokenSequence.jsx:78 | The tooltip lists the first min(5, n) alternatives in service order |
| TokenSequence.AlternativeRows | frontend/src/components/TokenSequence.jsx:78-88 | One row per alternative, with its formatted token and a width of p * 100 |
| TokenSequence.Boxes | frontend/src/components/TokenSequence.jsx:59-97 | One box per prediction, with the formatted token and confidence shade; a tooltip iff its index is hovered |
| TokenSequence.BoxesTooltip | frontend/src/components/TokenSequence.jsx:69-89 | At most one box shows a tooltip, with at most five alternatives |
| TokenSequence.Render | frontend/src/components/TokenSequence.jsx:26-32 | Loading card, nothing, or the boxes, following the fetch state |
| TokenSequence.TokenSequenceView.constructor | frontend/src/components/TokenSequence.jsx:5-7 | No data, nothing hovered, not loading |
| TokenSequence.TokenSequenceView.EnterToken | frontend/src/components/TokenSequence.jsx:64 | Hovering sets hoveredToken to the index |
| TokenSequence.TokenSequenceView.LeaveToken | frontend/src/components/TokenSequence.jsx:65 | Leaving resets hoveredToken to null |
| TokenSequence.HoverScenario | frontend/src/components/TokenSequence.jsx:59-97 | Hovering box idx shows exactly that tooltip; leaving shows none |
| InContextLearning.ParseBehavior | frontend/src/components/InContextLearning.jsx:34-56 | A recognised label is the name of the behaviour it is recognised as |
| InContextLearning.ParseBehaviorName | frontend/src/components/InContextLearning.jsx:34-56 | Every one of the six labels is recognised as itself |
| InContextLearning.BehaviorColour | frontend/src/components/InContextLearning.jsx:34-44 | Any string outside the table gets "#64748b" |
| InContextLearning.BehaviorIcon | frontend/src/components/InContextLearning.jsx:46-56 | Any string outside the table gets the question mark |
| InContextLearning.LookupTables | frontend/src/components/InContextLearning.jsx:34-56 | Each of the six labels gets its colour and icon; the question mark appears iff the label is unknown |
| InContextLearning.DiffuseLooksUnknown | frontend/src/components/InContextLearning.jsx:40-43 | A diffuse head has the same colour as an unknown label |
| InContextLearning.ReportedLabelsHaveIcons | frontend/src/components/InContextLearning.jsx:46-56 | Every label the classifier can send gets a known icon |
| InContextLearning.HeadCards | frontend/src/components/InContextLearning.jsx:72-83 | One card per head, bordered in its behaviour colour; active iff it is the selected one |
| InContextLearning.ExamplesPanel | frontend/src/components/InContextLearning.jsx:127-141 | The fallback message iff the list is empty; otherwise the list as given |
| InContextLearning.DetailsOf | frontend/src/components/InContextLearning.jsx:88-163 | Four bar widths of score * 100; "No copying detected" and "No induction detected" iff a list is empty; examples in the order given |
| InContextLearning.DetailsWidthsBounded | frontend/src/components/InContextLearning.jsx:88-120 | With softmax-like attention, every bar is 0 to 100 percent wide |
| InContextLearning.Render | frontend/src/components/InContextLearning.jsx:26-58 | Loading card iff loading, nothing iff there is no data, otherwise exactly the head cards and the details of behaviors[selectedHead] |
| InContextLearning.InContextView.constructor | frontend/src/components/InContextLearning.jsx:5-7 | No data, not loading, head 0 selected |
| InContextLearning.InContextView.ClickHead | frontend/src/components/InContextLearning.jsx:75 | A click selects that head |
| InContextLearning.SelectionNotClamped | frontend/src/components/InContextLearning.jsx:7-58 | Head 1 stays selected after a refetch that lists one head: the selection is out of range |
| LogitLens.Request | frontend/src/components/LogitLens.jsx:9-14 | No request for empty text; otherwise top_k is 5 |
| LogitLens.RankedList | frontend/src/components/LogitLens.jsx:63-69 | One row per prediction in service order, with its formatted token |
| LogitLens.RankedListRanks | frontend/src/components/LogitLens.jsx:80-86 | Ranks run 1 .. n without gaps, each on exactly one row, in service order |
| LogitLens.Cards | frontend/src/components/LogitLens.jsx:51-91 | One card per lens entry, labelled "#idx", with both ranked lists |
| LogitLens.CardsPositionsDistinct | frontend/src/components/LogitLens.jsx:51-56 | Two cards share a position label iff they are the same card |
| LogitLens.Render | frontend/src/components/LogitLens.jsx:25-31 | Loading card, nothing, or the cards, following the fetch state |
| LogitLens.LogitLensView.constructor | frontend/src/components/LogitLens.jsx:5-6 | No data, not loading |
| TokenPrediction.BarFill | frontend/src/components/TokenPrediction.jsx:76-80 | The first bar is solid "#6366f1"; the others are translucent, with alpha 0.3 + 0.7p in [0.3, 1] |
| TokenPrediction.BarAlphaMonotone | frontend/src/components/TokenPrediction.jsx:79 | A more probable non-first bar is never more transparent |
| TokenPrediction.BarFills | frontend/src/components/TokenPrediction.jsx:76-81 | One fill per prediction, in order |
| TokenPrediction.OneSolidBar | frontend/src/components/TokenPrediction.jsx:76-81 | Exactly the first bar is solid |
| TokenPrediction.ListRows | frontend/src/components/TokenPrediction.jsx:102-175 | Row idx shows "#(idx + 1)", the first-space label, and a width of p * 100; it is highlighted iff idx = 0 |
| TokenPrediction.ListRowsRanks | frontend/src/components/TokenPrediction.jsx:110-132 | Rank labels are pairwise different, and only one row is highlighted |
| TokenPrediction.WidthBounded | frontend/src/components/TokenPrediction.jsx:156 | When every probability lies in [0, 1], every list row's bar width lies in [0, 100] percent |
| EmbeddingSpace.StyleAt | frontend/src/components/EmbeddingSpace.jsx:81-83 | Index < 20 gets the red fill and stroke; every later index gets the indigo ones |
| EmbeddingSpace.Cells | frontend/src/components/EmbeddingSpace.jsx:78-86 | One cell per point, in order, styled by its index |
| EmbeddingSpace.CellsIgnoreCoordinates | frontend/src/components/EmbeddingSpace.jsx:78-86 | Styling ignores the coordinates: equal-length payloads get the same cells |
| EmbeddingSpace.HighlightedPrefix | frontend/src/components/EmbeddingSpace.jsx:81 | A cell is highlighted iff its index is below 20 |

## Left out

- The tensor and machine-learning calls are not modelled: the forward pass in `backend/model.py`, softmax, `torch.topk`, `torch.linalg.eigvals`, SVD, PCA, `F.normalize` and the analogy target vector. Their outputs are inputs of the model.
- The tokenizer is a parameter: the token ids, decoded tokens and the number of heads are given to `HeadBehavior.InductionScore`. It requires that a non-empty text has at least one token. For zero tokens `np.mean` would give NaN, which exact reals cannot express.
- `HeadBehavior.InductionScore` does not return the response's `tokens` field (the decoded tokens list). `Backend.Eigenvalues` does not return it either.
- The other endpoints (`/predict`, `/attention`, `/embeddings`, `/weights`, `/token-predictions`, `/logit-lens`) are tensor code apart from the empty-text check. `Backend.RequireText` models that check once for all of them.
- FastAPI and CORS setup, model loading, HTTP transport, `frontend/src/api.js` (axios wrappers) and `frontend/src/App.jsx` (tab navigation and the `Promise.all` fan-out) are not modelled.
- Rendering is not modelled: recharts layout, CSS, hover opacity and border tweaks done through `e.currentTarget.style`, and `toFixed` number formatting.
- `console.error` logging on a failed fetch is not modelled; the model keeps only the state change.
- Asynchrony is modelled as interleavings a caller writes out. `Fetch.ViewFetch.Begin` and `Fetch.ViewFetch.Settle` are called in any order the scenario methods choose; no scheduler is modelled.
- The views have no generation counter, stale-response discard, clamp of the selected head, or guard for a zero maximum weight; the model has none either.
  - `AttentionMap.Intensity` requires a non-zero maximum, because the code divides by it unguarded.
  - `InContextLearning.Render` and `AttentionMap.AttentionMapView.Current` require the selected head to be in range, because the code indexes without a check.
- `TokenText.IsWhitespace` covers the six ASCII whitespace characters only. Python's `strip()` and JavaScript's `trim()` also remove Unicode spaces, which are not modelled.
- `InContextLearning.BehaviorColour` and `InContextLearning.BehaviorIcon` use a six-entry table with a fallback. JavaScript object lookup also finds inherited keys such as "constructor"; that prototype-chain quirk is not modelled.
- `AttentionMap.Label`: its contract states only the length. Its content is stated by `TokenText.MarkFirstSpace`, which it calls.
- `WeightAnalysis.RowSeriesValue` and `EigenvalueAnalysis.EigenSeriesEntry` assume pairwise different head numbers, as the service sends them. With repeated numbers, the later head's value overwrites the earlier one in the same key.
- Probabilities and scores are exact reals. Bounds such as `TokenSequence.ConfidenceAlpha` in [0.1, 0.7] are stated for the real-valued formulas, not for floating-point rounding.

## Findings

| source | as written | input that shows it | evidently intended | confidence | as-written member | corrected member |
|---|---|---|---|---|---|---|
| backend/main.py:267-274 | The length test `len(results) >= top_k` runs after the append, so at least one result is returned for any top_k | top_k = 0 with one candidate that is not an input word: one result is returned | at most top_k results | low (a top_k of 0 may never be sent); not executed | Backend.FilterCandidatesZeroTopK | Backend.FilterCandidatesBounded |
