/** The induction-score endpoint of the back end: for every attention head,
    a scan over repeated token ids that scores copying and induction, the
    diagonal and previous-token means, and a label for the head. */
module HeadBehavior {
  import opened Common
  import opened Backend

  /** Attention above this weight makes a repeat pair an example. */
  const ExampleThreshold: real := 0.3
  /** A head whose best score is below this is "diffuse". */
  const DiffuseThreshold: real := 0.1
  /** Only this many examples of each kind are returned per head. */
  const MaxExamples: nat := 5

  /** A query position `toPos` attending to an earlier identical token at `fromPos`. */
  datatype CopyExample = CopyExample(fromPos: nat, toPos: nat, token: string, attention: real)

  /** A query position attending to the token right after an earlier occurrence of itself. */
  datatype InductionExample = InductionExample(
    patternPos: nat, queryPos: nat, attendTo: nat,
    patternToken: string, nextToken: string, attention: real)

  /** One entry of the `behaviors` list the endpoint returns. */
  datatype HeadReport = HeadReport(
    head: nat,
    copyingScore: real, inductionScore: real, diagonalScore: real, prevTokenScore: real,
    copyingExamples: seq<CopyExample>, inductionExamples: seq<InductionExample>,
    behaviorType: string)

  /** `ids` are the token ids, `tokens` their decoded strings, `attn` the
      T x T pattern of one head (row = query position, column = key). */
  predicate WellShaped(ids: seq<int>, tokens: seq<string>, attn: seq<seq<real>>)
  {
    |tokens| == |ids| && |attn| == |ids| && forall i :: 0 <= i < |attn| ==> |attn[i]| == |ids|
  }

  // ---------------------------------------------------------------------
  // The scan, stated row by row: row i visits j = 0, 1, ..., i - 1.
  // ---------------------------------------------------------------------

  /** Sum of `attn[i][j]` over the repeat pairs (j, i) with j < jEnd. */
  function RowCopySum(ids: seq<int>, attn: seq<seq<real>>, i: nat, jEnd: nat): real
    requires |attn| == |ids| && forall r :: 0 <= r < |attn| ==> |attn[r]| == |ids|
    requires jEnd <= i < |ids|
  {
    if jEnd == 0 then 0.0
    else RowCopySum(ids, attn, i, jEnd - 1)
         + (if ids[jEnd - 1] == ids[i] then attn[i][jEnd - 1] else 0.0)
  }

  /** Sum of `attn[i][j + 1]` over the repeat pairs (j, i) with j < jEnd. */
  function RowInductionSum(ids: seq<int>, attn: seq<seq<real>>, i: nat, jEnd: nat): real
    requires |attn| == |ids| && forall r :: 0 <= r < |attn| ==> |attn[r]| == |ids|
    requires jEnd <= i < |ids|
  {
    if jEnd == 0 then 0.0
    else RowInductionSum(ids, attn, i, jEnd - 1)
         + (if ids[jEnd - 1] == ids[i] then attn[i][jEnd] else 0.0)
  }

  /** Copying accumulator after rows 0 .. iEnd - 1. */
  function CopySum(ids: seq<int>, attn: seq<seq<real>>, iEnd: nat): real
    requires |attn| == |ids| && forall r :: 0 <= r < |attn| ==> |attn[r]| == |ids|
    requires iEnd <= |ids|
  {
    if iEnd == 0 then 0.0 else CopySum(ids, attn, iEnd - 1) + RowCopySum(ids, attn, iEnd - 1, iEnd - 1)
  }

  /** Induction accumulator after rows 0 .. iEnd - 1. */
  function InductionSum(ids: seq<int>, attn: seq<seq<real>>, iEnd: nat): real
    requires |attn| == |ids| && forall r :: 0 <= r < |attn| ==> |attn[r]| == |ids|
    requires iEnd <= |ids|
  {
    if iEnd == 0 then 0.0
    else InductionSum(ids, attn, iEnd - 1) + RowInductionSum(ids, attn, iEnd - 1, iEnd - 1)
  }

  function RowCopyExamples(ids: seq<int>, tokens: seq<string>, attn: seq<seq<real>>, i: nat, jEnd: nat): seq<CopyExample>
    requires WellShaped(ids, tokens, attn)
    requires jEnd <= i < |ids|
  {
    if jEnd == 0 then []
    else
      var j := jEnd - 1;
      RowCopyExamples(ids, tokens, attn, i, j)
      + (if ids[j] == ids[i] && attn[i][j] > ExampleThreshold
         then [CopyExample(j, i, tokens[i], attn[i][j])] else [])
  }

  function RowInductionExamples(ids: seq<int>, tokens: seq<string>, attn: seq<seq<real>>, i: nat, jEnd: nat): seq<InductionExample>
    requires WellShaped(ids, tokens, attn)
    requires jEnd <= i < |ids|
  {
    if jEnd == 0 then []
    else
      var j := jEnd - 1;
      RowInductionExamples(ids, tokens, attn, i, j)
      + (if ids[j] == ids[i] && attn[i][j + 1] > ExampleThreshold
         then [InductionExample(j, i, j + 1, tokens[j], tokens[j + 1], attn[i][j + 1])] else [])
  }

  /** All copying examples of rows 0 .. iEnd - 1, in scan order. */
  function CopyExamples(ids: seq<int>, tokens: seq<string>, attn: seq<seq<real>>, iEnd: nat): seq<CopyExample>
    requires WellShaped(ids, tokens, attn)
    requires iEnd <= |ids|
  {
    if iEnd == 0 then []
    else CopyExamples(ids, tokens, attn, iEnd - 1) + RowCopyExamples(ids, tokens, attn, iEnd - 1, iEnd - 1)
  }

  /** All induction examples of rows 0 .. iEnd - 1, in scan order. */
  function InductionExamples(ids: seq<int>, tokens: seq<string>, attn: seq<seq<real>>, iEnd: nat): seq<InductionExample>
    requires WellShaped(ids, tokens, attn)
    requires iEnd <= |ids|
  {
    if iEnd == 0 then []
    else InductionExamples(ids, tokens, attn, iEnd - 1) + RowInductionExamples(ids, tokens, attn, iEnd - 1, iEnd - 1)
  }

  /** The nested `for i` / `for j` scan of one head. The `j + 1 < len(ids)`
      guard of the source is kept; it never fails because j < i < T. */
  method ScanHead(ids: seq<int>, tokens: seq<string>, attn: seq<seq<real>>)
    returns (copySum: real, copyEx: seq<CopyExample>, indSum: real, indEx: seq<InductionExample>)
    requires WellShaped(ids, tokens, attn)
    ensures copySum == CopySum(ids, attn, |ids|)
    ensures indSum == InductionSum(ids, attn, |ids|)
    ensures copyEx == CopyExamples(ids, tokens, attn, |ids|)
    ensures indEx == InductionExamples(ids, tokens, attn, |ids|)
  {
    var n := |ids|;
    copySum, copyEx, indSum, indEx := 0.0, [], 0.0, [];
    var i := 0;
    while i < n
      invariant 0 <= i <= n
      invariant copySum == CopySum(ids, attn, i) && indSum == InductionSum(ids, attn, i)
      invariant copyEx == CopyExamples(ids, tokens, attn, i)
      invariant indEx == InductionExamples(ids, tokens, attn, i)
    {
      var j := 0;
      while j < i
        invariant 0 <= j <= i
        invariant copySum == CopySum(ids, attn, i) + RowCopySum(ids, attn, i, j)
        invariant indSum == InductionSum(ids, attn, i) + RowInductionSum(ids, attn, i, j)
        invariant copyEx == CopyExamples(ids, tokens, attn, i) + RowCopyExamples(ids, tokens, attn, i, j)
        invariant indEx == InductionExamples(ids, tokens, attn, i) + RowInductionExamples(ids, tokens, attn, i, j)
      {
        if ids[j] == ids[i] {
          copySum := copySum + attn[i][j];
          if attn[i][j] > ExampleThreshold {
            copyEx := copyEx + [CopyExample(j, i, tokens[i], attn[i][j])];
          }
          if j + 1 < n {
            indSum := indSum + attn[i][j + 1];
            if attn[i][j + 1] > ExampleThreshold {
              indEx := indEx + [InductionExample(j, i, j + 1, tokens[j], tokens[j + 1], attn[i][j + 1])];
            }
          }
        }
        j := j + 1;
      }
      i := i + 1;
    }
  }

  // ---------------------------------------------------------------------
  // What the examples are: exactly the qualifying repeat pairs, in order.
  // ---------------------------------------------------------------------

  /** A copying example is a repeat pair j < i with attention above 0.3. */
  ghost predicate CopySound(ids: seq<int>, tokens: seq<string>, attn: seq<seq<real>>, e: CopyExample)
    requires WellShaped(ids, tokens, attn)
  {
    e.fromPos < e.toPos < |ids| && ids[e.fromPos] == ids[e.toPos]
    && attn[e.toPos][e.fromPos] > ExampleThreshold
    && e.attention == attn[e.toPos][e.fromPos] && e.token == tokens[e.toPos]
  }

  /** An induction example looks one past an earlier occurrence of the query token. */
  ghost predicate InductionSound(ids: seq<int>, tokens: seq<string>, attn: seq<seq<real>>, e: InductionExample)
    requires WellShaped(ids, tokens, attn)
  {
    e.patternPos < e.queryPos < |ids| && e.attendTo == e.patternPos + 1 <= e.queryPos
    && ids[e.patternPos] == ids[e.queryPos]
    && attn[e.queryPos][e.attendTo] > ExampleThreshold
    && e.attention == attn[e.queryPos][e.attendTo]
    && e.patternToken == tokens[e.patternPos] && e.nextToken == tokens[e.attendTo]
  }

  /** (row1, col1) is visited before (row2, col2) in the scan: row first, then column. */
  predicate ScanBefore(row1: nat, col1: nat, row2: nat, col2: nat)
  {
    row1 < row2 || (row1 == row2 && col1 < col2)
  }

  ghost predicate AllCopySound(ids: seq<int>, tokens: seq<string>, attn: seq<seq<real>>, xs: seq<CopyExample>)
    requires WellShaped(ids, tokens, attn)
  {
    forall k :: 0 <= k < |xs| ==> CopySound(ids, tokens, attn, xs[k])
  }

  ghost predicate AllInductionSound(ids: seq<int>, tokens: seq<string>, attn: seq<seq<real>>, xs: seq<InductionExample>)
    requires WellShaped(ids, tokens, attn)
  {
    forall k :: 0 <= k < |xs| ==> InductionSound(ids, tokens, attn, xs[k])
  }

  /** Every copying example is visited before position (rowEnd, colEnd) of the scan. */
  predicate CopyWithin(xs: seq<CopyExample>, rowEnd: nat, colEnd: nat)
  {
    forall k :: 0 <= k < |xs| ==> ScanBefore(xs[k].toPos, xs[k].fromPos, rowEnd, colEnd)
  }

  predicate InductionWithin(xs: seq<InductionExample>, rowEnd: nat, colEnd: nat)
  {
    forall k :: 0 <= k < |xs| ==> ScanBefore(xs[k].queryPos, xs[k].patternPos, rowEnd, colEnd)
  }

  /** Examples listed strictly in scan order. */
  predicate CopyOrdered(xs: seq<CopyExample>)
  {
    forall a, b :: 0 <= a < b < |xs| ==> ScanBefore(xs[a].toPos, xs[a].fromPos, xs[b].toPos, xs[b].fromPos)
  }

  predicate InductionOrdered(xs: seq<InductionExample>)
  {
    forall a, b :: 0 <= a < b < |xs| ==> ScanBefore(xs[a].queryPos, xs[a].patternPos, xs[b].queryPos, xs[b].patternPos)
  }

  /** Row i yields sound examples of row i only, with columns below jEnd. */
  lemma {:induction false} RowCopySound(ids: seq<int>, tokens: seq<string>, attn: seq<seq<real>>, i: nat, jEnd: nat)
    requires WellShaped(ids, tokens, attn)
    requires jEnd <= i < |ids|
    ensures AllCopySound(ids, tokens, attn, RowCopyExamples(ids, tokens, attn, i, jEnd))
    ensures forall k :: 0 <= k < |RowCopyExamples(ids, tokens, attn, i, jEnd)| ==>
      RowCopyExamples(ids, tokens, attn, i, jEnd)[k].toPos == i
    ensures CopyWithin(RowCopyExamples(ids, tokens, attn, i, jEnd), i, jEnd)
  {
    if jEnd > 0 {
      RowCopySound(ids, tokens, attn, i, jEnd - 1);
    }
  }

  /** Within a row, copying examples come in column order. */
  lemma {:induction false} RowCopyOrdered(ids: seq<int>, tokens: seq<string>, attn: seq<seq<real>>, i: nat, jEnd: nat)
    requires WellShaped(ids, tokens, attn)
    requires jEnd <= i < |ids|
    ensures CopyOrdered(RowCopyExamples(ids, tokens, attn, i, jEnd))
  {
    if jEnd > 0 {
      RowCopyOrdered(ids, tokens, attn, i, jEnd - 1);
      RowCopySound(ids, tokens, attn, i, jEnd - 1);
    }
  }

  lemma {:induction false} RowCopyComplete(ids: seq<int>, tokens: seq<string>, attn: seq<seq<real>>, i: nat, jEnd: nat, j: nat)
    requires WellShaped(ids, tokens, attn)
    requires j < jEnd <= i < |ids|
    requires ids[j] == ids[i] && attn[i][j] > ExampleThreshold
    ensures CopyExample(j, i, tokens[i], attn[i][j]) in RowCopyExamples(ids, tokens, attn, i, jEnd)
  {
    if j < jEnd - 1 {
      RowCopyComplete(ids, tokens, attn, i, jEnd - 1, j);
    }
  }

  lemma {:induction false} RowInductionSound(ids: seq<int>, tokens: seq<string>, attn: seq<seq<real>>, i: nat, jEnd: nat)
    requires WellShaped(ids, tokens, attn)
    requires jEnd <= i < |ids|
    ensures AllInductionSound(ids, tokens, attn, RowInductionExamples(ids, tokens, attn, i, jEnd))
    ensures forall k :: 0 <= k < |RowInductionExamples(ids, tokens, attn, i, jEnd)| ==>
      RowInductionExamples(ids, tokens, attn, i, jEnd)[k].queryPos == i
    ensures InductionWithin(RowInductionExamples(ids, tokens, attn, i, jEnd), i, jEnd)
  {
    if jEnd > 0 {
      RowInductionSound(ids, tokens, attn, i, jEnd - 1);
    }
  }

  lemma {:induction false} RowInductionOrdered(ids: seq<int>, tokens: seq<string>, attn: seq<seq<real>>, i: nat, jEnd: nat)
    requires WellShaped(ids, tokens, attn)
    requires jEnd <= i < |ids|
    ensures InductionOrdered(RowInductionExamples(ids, tokens, attn, i, jEnd))
  {
    if jEnd > 0 {
      RowInductionOrdered(ids, tokens, attn, i, jEnd - 1);
      RowInductionSound(ids, tokens, attn, i, jEnd - 1);
    }
  }

  lemma {:induction false} RowInductionComplete(ids: seq<int>, tokens: seq<string>, attn: seq<seq<real>>, i: nat, jEnd: nat, j: nat)
    requires WellShaped(ids, tokens, attn)
    requires j < jEnd <= i < |ids|
    requires ids[j] == ids[i] && attn[i][j + 1] > ExampleThreshold
    ensures InductionExample(j, i, j + 1, tokens[j], tokens[j + 1], attn[i][j + 1]) in RowInductionExamples(ids, tokens, attn, i, jEnd)
  {
    if j < jEnd - 1 {
      RowInductionComplete(ids, tokens, attn, i, jEnd - 1, j);
    }
  }

  /** Every copying example is a qualifying repeat pair from rows below iEnd. */
  lemma {:induction false} CopyExamplesSound(ids: seq<int>, tokens: seq<string>, attn: seq<seq<real>>, iEnd: nat)
    requires WellShaped(ids, tokens, attn)
    requires iEnd <= |ids|
    ensures AllCopySound(ids, tokens, attn, CopyExamples(ids, tokens, attn, iEnd))
    ensures CopyWithin(CopyExamples(ids, tokens, attn, iEnd), iEnd, 0)
  {
    if iEnd > 0 {
      CopyExamplesSound(ids, tokens, attn, iEnd - 1);
      RowCopySound(ids, tokens, attn, iEnd - 1, iEnd - 1);
    }
  }

  /** Copying examples come in scan order: by query row, then by column. */
  lemma {:induction false} CopyExamplesOrdered(ids: seq<int>, tokens: seq<string>, attn: seq<seq<real>>, iEnd: nat)
    requires WellShaped(ids, tokens, attn)
    requires iEnd <= |ids|
    ensures CopyOrdered(CopyExamples(ids, tokens, attn, iEnd))
  {
    if iEnd > 0 {
      CopyExamplesOrdered(ids, tokens, attn, iEnd - 1);
      CopyExamplesSound(ids, tokens, attn, iEnd - 1);
      RowCopySound(ids, tokens, attn, iEnd - 1, iEnd - 1);
      RowCopyOrdered(ids, tokens, attn, iEnd - 1, iEnd - 1);
      var front := CopyExamples(ids, tokens, attn, iEnd - 1);
      var row := RowCopyExamples(ids, tokens, attn, iEnd - 1, iEnd - 1);
      var xs := front + row;
      forall a, b | 0 <= a < b < |xs|
        ensures ScanBefore(xs[a].toPos, xs[a].fromPos, xs[b].toPos, xs[b].fromPos)
      {
        if b < |front| {
          assert xs[a] == front[a] && xs[b] == front[b];
        } else if a < |front| {
          assert xs[a] == front[a] && xs[b] == row[b - |front|];
        } else {
          assert xs[a] == row[a - |front|] && xs[b] == row[b - |front|];
        }
      }
    }
  }

  /** Every repeat pair with attention above 0.3 is a copying example. */
  lemma {:induction false} CopyExamplesComplete(ids: seq<int>, tokens: seq<string>, attn: seq<seq<real>>, iEnd: nat, i: nat, j: nat)
    requires WellShaped(ids, tokens, attn)
    requires j < i < iEnd <= |ids|
    requires ids[j] == ids[i] && attn[i][j] > ExampleThreshold
    ensures CopyExample(j, i, tokens[i], attn[i][j]) in CopyExamples(ids, tokens, attn, iEnd)
  {
    if i < iEnd - 1 {
      CopyExamplesComplete(ids, tokens, attn, iEnd - 1, i, j);
    } else {
      RowCopyComplete(ids, tokens, attn, i, i, j);
    }
  }

  lemma {:induction false} InductionExamplesSound(ids: seq<int>, tokens: seq<string>, attn: seq<seq<real>>, iEnd: nat)
    requires WellShaped(ids, tokens, attn)
    requires iEnd <= |ids|
    ensures AllInductionSound(ids, tokens, attn, InductionExamples(ids, tokens, attn, iEnd))
    ensures InductionWithin(InductionExamples(ids, tokens, attn, iEnd), iEnd, 0)
  {
    if iEnd > 0 {
      InductionExamplesSound(ids, tokens, attn, iEnd - 1);
      RowInductionSound(ids, tokens, attn, iEnd - 1, iEnd - 1);
    }
  }

  lemma {:induction false} InductionExamplesOrdered(ids: seq<int>, tokens: seq<string>, attn: seq<seq<real>>, iEnd: nat)
    requires WellShaped(ids, tokens, attn)
    requires iEnd <= |ids|
    ensures InductionOrdered(InductionExamples(ids, tokens, attn, iEnd))
  {
    if iEnd > 0 {
      InductionExamplesOrdered(ids, tokens, attn, iEnd - 1);
      InductionExamplesSound(ids, tokens, attn, iEnd - 1);
      RowInductionSound(ids, tokens, attn, iEnd - 1, iEnd - 1);
      RowInductionOrdered(ids, tokens, attn, iEnd - 1, iEnd - 1);
      var front := InductionExamples(ids, tokens, attn, iEnd - 1);
      var row := RowInductionExamples(ids, tokens, attn, iEnd - 1, iEnd - 1);
      var xs := front + row;
      forall a, b | 0 <= a < b < |xs|
        ensures ScanBefore(xs[a].queryPos, xs[a].patternPos, xs[b].queryPos, xs[b].patternPos)
      {
        if b < |front| {
          assert xs[a] == front[a] && xs[b] == front[b];
        } else if a < |front| {
          assert xs[a] == front[a] && xs[b] == row[b - |front|];
        } else {
          assert xs[a] == row[a - |front|] && xs[b] == row[b - |front|];
        }
      }
    }
  }

  lemma {:induction false} InductionExamplesComplete(ids: seq<int>, tokens: seq<string>, attn: seq<seq<real>>, iEnd: nat, i: nat, j: nat)
    requires WellShaped(ids, tokens, attn)
    requires j < i < iEnd <= |ids|
    requires ids[j] == ids[i] && attn[i][j + 1] > ExampleThreshold
    ensures InductionExample(j, i, j + 1, tokens[j], tokens[j + 1], attn[i][j + 1]) in InductionExamples(ids, tokens, attn, iEnd)
  {
    if i < iEnd - 1 {
      InductionExamplesComplete(ids, tokens, attn, iEnd - 1, i, j);
    } else {
      RowInductionComplete(ids, tokens, attn, i, i, j);
    }
  }
  // ---------------------------------------------------------------------
  // Scores.
  // ---------------------------------------------------------------------

  /** `max(num_tokens, 1)` as the normalising divisor. */
  function Divisor(n: nat): (d: real)
    ensures d >= 1.0
  {
    if n >= 1 then n as real else 1.0
  }

  /** `attn[i][i]` for i < iEnd. */
  function Diagonal(attn: seq<seq<real>>, iEnd: nat): (d: seq<real>)
    requires iEnd <= |attn| && forall r :: 0 <= r < |attn| ==> |attn[r]| == |attn|
    ensures |d| == iEnd
  {
    if iEnd == 0 then [] else Diagonal(attn, iEnd - 1) + [attn[iEnd - 1][iEnd - 1]]
  }

  /** `attn[i][i - 1]` for 1 <= i < iEnd. */
  function SubDiagonal(attn: seq<seq<real>>, iEnd: nat): (d: seq<real>)
    requires iEnd <= |attn| && forall r :: 0 <= r < |attn| ==> |attn[r]| == |attn|
    ensures |d| == if iEnd == 0 then 0 else iEnd - 1
  {
    if iEnd <= 1 then [] else SubDiagonal(attn, iEnd - 1) + [attn[iEnd - 1][iEnd - 2]]
  }

  /** `np.mean` of the diagonal; the source would produce NaN for T = 0. */
  function DiagonalScore(attn: seq<seq<real>>): real
    requires |attn| > 0 && forall r :: 0 <= r < |attn| ==> |attn[r]| == |attn|
  {
    Sum(Diagonal(attn, |attn|)) / (|attn| as real)
  }

  /** 0 for fewer than two tokens, otherwise the mean of `attn[i][i - 1]`. */
  function PrevTokenScore(attn: seq<seq<real>>): real
    requires forall r :: 0 <= r < |attn| ==> |attn[r]| == |attn|
  {
    if |attn| > 1 then Sum(SubDiagonal(attn, |attn|)) / ((|attn| - 1) as real) else 0.0
  }

  // ---------------------------------------------------------------------
  // Classification.
  // ---------------------------------------------------------------------

  /** Python's `max(scores, key=scores.get)`: the first position holding the
      largest value (a later equal value never replaces it). */
  function FirstMaxIndex(s: seq<real>): (k: nat)
    requires |s| > 0
    ensures k < |s|
    ensures forall m :: 0 <= m < |s| ==> s[m] <= s[k]
    ensures forall m :: 0 <= m < k ==> s[m] < s[k]
  {
    if |s| == 1 then 0
    else
      var k := FirstMaxIndex(s[..|s| - 1]);
      assert forall m :: 0 <= m < |s| - 1 ==> s[..|s| - 1][m] == s[m];
      if s[|s| - 1] > s[k] then |s| - 1 else k
  }

  /** The labels `classify_head_behavior` can name; the JSON carries `Name()`. */
  datatype Behavior = Copying | Induction | SelfAttention | PreviousToken | Diffuse | Mixed
  {
    function Name(): string
    {
      match this
      case Copying => "copying"
      case Induction => "induction"
      case SelfAttention => "self-attention"
      case PreviousToken => "previous-token"
      case Diffuse => "diffuse"
      case Mixed => "mixed"
    }
  }

  /** Distinct behaviours are sent as distinct strings. */
  lemma NameInjective(a: Behavior, b: Behavior)
    requires a.Name() == b.Name()
    ensures a == b
  {
    assert a.Name()[0] == b.Name()[0];
  }

  /** `classify_head_behavior`: diffuse when every score is below 0.1,
      otherwise the first largest score in the order copying, induction,
      diagonal, previous token. The final "mixed" branch is dead. */
  function Classify(copying: real, induction: real, diagonal: real, prevToken: real): (b: Behavior)
    ensures b == Diffuse <==>
      copying < DiffuseThreshold && induction < DiffuseThreshold
      && diagonal < DiffuseThreshold && prevToken < DiffuseThreshold
    ensures b == Copying <==>
      copying >= DiffuseThreshold && copying >= induction && copying >= diagonal && copying >= prevToken
    ensures b == Induction <==>
      induction >= DiffuseThreshold && induction > copying && induction >= diagonal && induction >= prevToken
    ensures b == SelfAttention <==>
      diagonal >= DiffuseThreshold && diagonal > copying && diagonal > induction && diagonal >= prevToken
    ensures b == PreviousToken <==>
      prevToken >= DiffuseThreshold && prevToken > copying && prevToken > induction && prevToken > diagonal
    ensures b != Mixed
  {
    var scores := [copying, induction, diagonal, prevToken];
    assert scores[0] == copying && scores[1] == induction && scores[2] == diagonal && scores[3] == prevToken;
    var best := FirstMaxIndex(scores);
    if scores[best] < DiffuseThreshold then Diffuse
    else if best == 0 then Copying
    else if best == 1 then Induction
    else if best == 2 then SelfAttention
    else if best == 3 then PreviousToken
    else Mixed
  }

  // ---------------------------------------------------------------------
  // One head and the endpoint.
  // ---------------------------------------------------------------------

  /** The report the source builds for head `h`. */
  function Report(h: nat, ids: seq<int>, tokens: seq<string>, attn: seq<seq<real>>): HeadReport
    requires WellShaped(ids, tokens, attn) && |ids| > 0
  {
    var copying := CopySum(ids, attn, |ids|) / Divisor(|ids|);
    var induction := InductionSum(ids, attn, |ids|) / Divisor(|ids|);
    var diagonal := DiagonalScore(attn);
    var prev := PrevTokenScore(attn);
    HeadReport(h, copying, induction, diagonal, prev,
               Take(CopyExamples(ids, tokens, attn, |ids|), MaxExamples),
               Take(InductionExamples(ids, tokens, attn, |ids|), MaxExamples),
               Classify(copying, induction, diagonal, prev).Name())
  }

  method AnalyzeHead(h: nat, ids: seq<int>, tokens: seq<string>, attn: seq<seq<real>>) returns (report: HeadReport)
    requires WellShaped(ids, tokens, attn) && |ids| > 0
    ensures report == Report(h, ids, tokens, attn)
    ensures |report.copyingExamples| <= MaxExamples && |report.inductionExamples| <= MaxExamples
  {
    var copySum, copyEx, indSum, indEx := ScanHead(ids, tokens, attn);
    var numTokens := |ids|;
    var copying := copySum / Divisor(numTokens);
    var induction := indSum / Divisor(numTokens);
    var diagonal := DiagonalScore(attn);
    var prev := PrevTokenScore(attn);
    report := HeadReport(h, copying, induction, diagonal, prev,
                         Take(copyEx, MaxExamples), Take(indEx, MaxExamples),
                         Classify(copying, induction, diagonal, prev).Name());
  }

  /** Every head's attention pattern is T x T for the same token list. */
  predicate PatternShaped(ids: seq<int>, tokens: seq<string>, pattern: seq<seq<seq<real>>>)
  {
    forall h :: 0 <= h < |pattern| ==> WellShaped(ids, tokens, pattern[h])
  }

  /** The `/induction-score` endpoint after tokenising and the forward pass:
      the rejected empty text, or one report per head in head order.
      A non-empty text always encodes to at least one token. */
  method InductionScore(text: string, ids: seq<int>, tokens: seq<string>, pattern: seq<seq<seq<real>>>)
    returns (r: Result<seq<HeadReport>, HttpError>)
    requires text != "" ==> |ids| > 0 && PatternShaped(ids, tokens, pattern)
    ensures r.Err? <==> text == ""
    ensures r.Err? ==> r.error == EmptyTextError
    ensures r.Ok? ==> |r.value| == |pattern|
    ensures r.Ok? ==> forall h :: 0 <= h < |pattern| ==> r.value[h] == Report(h, ids, tokens, pattern[h])
  {
    var checked := RequireText(text);
    if checked.Err? {
      return Err(checked.error);
    }
    var behaviors: seq<HeadReport> := [];
    var h := 0;
    while h < |pattern|
      invariant 0 <= h <= |pattern| && |behaviors| == h
      invariant forall g :: 0 <= g < h ==> behaviors[g] == Report(g, ids, tokens, pattern[g])
    {
      var report := AnalyzeHead(h, ids, tokens, pattern[h]);
      behaviors := behaviors + [report];
      h := h + 1;
    }
    r := Ok(behaviors);
  }

  // ---------------------------------------------------------------------
  // Properties of a report.
  // ---------------------------------------------------------------------

  /** Each row is a causal-softmax row: non-negative weights summing to at most 1. */
  predicate Stochastic(attn: seq<seq<real>>)
  {
    forall r :: 0 <= r < |attn| ==> NonNegative(attn[r]) && Sum(attn[r]) <= 1.0
  }

  lemma {:induction false} RowSumsBounded(ids: seq<int>, attn: seq<seq<real>>, i: nat, jEnd: nat)
    requires |attn| == |ids| && forall r :: 0 <= r < |attn| ==> |attn[r]| == |ids|
    requires Stochastic(attn)
    requires jEnd <= i < |ids|
    ensures 0.0 <= RowCopySum(ids, attn, i, jEnd) <= Sum(attn[i][..jEnd])
    ensures 0.0 <= RowInductionSum(ids, attn, i, jEnd) <= Sum(attn[i][..jEnd + 1])
  {
    var s := attn[i];
    if jEnd == 0 {
      assert s[..0] == [];
      SumPrefixMonotone(s, 0, 1);
    } else {
      RowSumsBounded(ids, attn, i, jEnd - 1);
      SumSnoc(s, jEnd - 1);
      SumSnoc(s, jEnd);
    }
  }

  lemma {:induction false} ScoreSumsBounded(ids: seq<int>, attn: seq<seq<real>>, iEnd: nat)
    requires |attn| == |ids| && forall r :: 0 <= r < |attn| ==> |attn[r]| == |ids|
    requires Stochastic(attn)
    requires iEnd <= |ids|
    ensures 0.0 <= CopySum(ids, attn, iEnd) <= iEnd as real
    ensures 0.0 <= InductionSum(ids, attn, iEnd) <= iEnd as real
  {
    if iEnd > 0 {
      var i := iEnd - 1;
      ScoreSumsBounded(ids, attn, i);
      RowSumsBounded(ids, attn, i, i);
      SumPrefixMonotone(attn[i], i, |attn[i]|);
      SumPrefixMonotone(attn[i], i + 1, |attn[i]|);
      assert attn[i][..|attn[i]|] == attn[i];
    }
  }

  lemma {:induction false} DiagonalBounded(attn: seq<seq<real>>, iEnd: nat)
    requires forall r :: 0 <= r < |attn| ==> |attn[r]| == |attn|
    requires Stochastic(attn)
    requires iEnd <= |attn|
    ensures 0.0 <= Sum(Diagonal(attn, iEnd)) <= iEnd as real
    ensures 0.0 <= Sum(SubDiagonal(attn, iEnd)) <= (if iEnd == 0 then 0 else iEnd - 1) as real
  {
    if iEnd > 0 {
      var i := iEnd - 1;
      DiagonalBounded(attn, i);
      ElementAtMostSum(attn[i], i);
      var d := Diagonal(attn, iEnd);
      assert d[..|d| - 1] == Diagonal(attn, i);
      if iEnd > 1 {
        ElementAtMostSum(attn[i], i - 1);
        var sd := SubDiagonal(attn, iEnd);
        assert sd[..|sd| - 1] == SubDiagonal(attn, i);
      }
    }
  }

  lemma MeanBounded(total: real, n: real)
    requires n >= 1.0 && 0.0 <= total <= n
    ensures 0.0 <= total / n <= 1.0
  {
  }

  /** With softmax-like rows every score of a report lies in [0, 1]. */
  lemma ReportScoresInUnitInterval(h: nat, ids: seq<int>, tokens: seq<string>, attn: seq<seq<real>>)
    requires WellShaped(ids, tokens, attn) && |ids| > 0
    requires Stochastic(attn)
    ensures var r := Report(h, ids, tokens, attn);
      0.0 <= r.copyingScore <= 1.0 && 0.0 <= r.inductionScore <= 1.0
      && 0.0 <= r.diagonalScore <= 1.0 && 0.0 <= r.prevTokenScore <= 1.0
  {
    var n := |ids|;
    ScoreSumsBounded(ids, attn, n);
    DiagonalBounded(attn, n);
    MeanBounded(CopySum(ids, attn, n), n as real);
    MeanBounded(InductionSum(ids, attn, n), n as real);
    MeanBounded(Sum(Diagonal(attn, n)), n as real);
    if n > 1 {
      MeanBounded(Sum(SubDiagonal(attn, n)), (n - 1) as real);
    }
  }

  /** A report's examples are the first five qualifying pairs of the scan,
      each one sound, and its label is one of the five the source returns. */
  lemma ReportExamples(h: nat, ids: seq<int>, tokens: seq<string>, attn: seq<seq<real>>)
    requires WellShaped(ids, tokens, attn) && |ids| > 0
    ensures |Report(h, ids, tokens, attn).copyingExamples| <= MaxExamples
    ensures |Report(h, ids, tokens, attn).inductionExamples| <= MaxExamples
    ensures Report(h, ids, tokens, attn).copyingExamples
            <= CopyExamples(ids, tokens, attn, |ids|)
    ensures Report(h, ids, tokens, attn).inductionExamples
            <= InductionExamples(ids, tokens, attn, |ids|)
    ensures AllCopySound(ids, tokens, attn, Report(h, ids, tokens, attn).copyingExamples)
    ensures AllInductionSound(ids, tokens, attn, Report(h, ids, tokens, attn).inductionExamples)
    ensures CopyOrdered(Report(h, ids, tokens, attn).copyingExamples)
    ensures InductionOrdered(Report(h, ids, tokens, attn).inductionExamples)
  {
    var n := |ids|;
    CopyExamplesSound(ids, tokens, attn, n);
    InductionExamplesSound(ids, tokens, attn, n);
    CopyExamplesOrdered(ids, tokens, attn, n);
    InductionExamplesOrdered(ids, tokens, attn, n);
    var all := CopyExamples(ids, tokens, attn, n);
    var ind := InductionExamples(ids, tokens, attn, n);
    var r := Report(h, ids, tokens, attn);
    assert forall k :: 0 <= k < |r.copyingExamples| ==> r.copyingExamples[k] == all[k];
    assert forall k :: 0 <= k < |r.inductionExamples| ==> r.inductionExamples[k] == ind[k];
  }

  /** A report is labelled "diffuse" exactly when all four of its scores are
      below 0.1, "copying" exactly when its copying score reaches 0.1 and is
      a largest score, and never "mixed". */
  lemma ReportBehavior(h: nat, ids: seq<int>, tokens: seq<string>, attn: seq<seq<real>>)
    requires WellShaped(ids, tokens, attn) && |ids| > 0
    ensures Report(h, ids, tokens, attn).behaviorType != Mixed.Name()
    ensures var r := Report(h, ids, tokens, attn);
      r.behaviorType == Diffuse.Name() <==>
        r.copyingScore < DiffuseThreshold && r.inductionScore < DiffuseThreshold
        && r.diagonalScore < DiffuseThreshold && r.prevTokenScore < DiffuseThreshold
    ensures var r := Report(h, ids, tokens, attn);
      r.behaviorType == Copying.Name() <==>
        r.copyingScore >= DiffuseThreshold && r.copyingScore >= r.inductionScore
        && r.copyingScore >= r.diagonalScore && r.copyingScore >= r.prevTokenScore
  {
    var r := Report(h, ids, tokens, attn);
    var b := Classify(r.copyingScore, r.inductionScore, r.diagonalScore, r.prevTokenScore);
    if r.behaviorType == Mixed.Name() {
      NameInjective(b, Mixed);
    }
    if r.behaviorType == Diffuse.Name() {
      NameInjective(b, Diffuse);
    }
    if r.behaviorType == Copying.Name() {
      NameInjective(b, Copying);
    }
  }
}
