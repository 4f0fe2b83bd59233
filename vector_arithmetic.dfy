/** The word-analogy panel: two editable word lists, the equation built
    from them, and the calculate button's request cycle. */
module VectorArithmetic {
  import opened Common
  import opened TokenText
  import opened Backend

  /** A word list together with its text input. */
  datatype Edit = Edit(list: seq<string>, input: string)

  /** `addWord`: a non-blank input is appended trimmed and the input is
      cleared; a blank input changes neither. */
  function AddWord(list: seq<string>, input: string): (e: Edit)
    ensures IsBlank(input) ==> e == Edit(list, input)
    ensures !IsBlank(input) ==> e.list == list + [Trim(input)] && e.input == ""
  {
    TrimEmptyIffBlank(input);
    if Trim(input) != [] then Edit(list + [Trim(input)], "") else Edit(list, input)
  }

  /** Words that reach a list are never blank and carry no surrounding
      whitespace. */
  lemma AddWordKeepsListsClean(list: seq<string>, input: string)
    requires forall k :: 0 <= k < |list| ==> !IsBlank(list[k]) && Trim(list[k]) == list[k]
    ensures var e := AddWord(list, input);
      forall k :: 0 <= k < |e.list| ==> !IsBlank(e.list[k]) && Trim(e.list[k]) == e.list[k]
  {
    if !IsBlank(input) {
      TrimEmptyIffBlank(input);
      TrimIdempotent(input);
      TrimEmptyIffBlank(Trim(input));
    }
  }

  /** `[...list]` then `splice(index, 1)`: the copy loses the word at
      `index`; an index past the end removes nothing. */
  function RemoveWord(list: seq<string>, index: nat): (r: seq<string>)
    ensures index < |list| ==> |r| == |list| - 1
    ensures index < |list| ==> forall k :: 0 <= k < |r| ==> r[k] == (if k < index then list[k] else list[k + 1])
    ensures index >= |list| ==> r == list
  {
    if index < |list| then list[..index] + list[index + 1..] else list
  }

  /** Removing the word just added restores the list. */
  lemma RemoveUndoesAdd(list: seq<string>, input: string)
    requires !IsBlank(input)
    ensures RemoveWord(AddWord(list, input).list, |list|) == list
  {
  }

  /** Removing a word takes exactly that occurrence out of the multiset of words. */
  lemma RemoveWordMultiset(list: seq<string>, index: nat)
    requires index < |list|
    ensures multiset(RemoveWord(list, index)) + multiset{list[index]} == multiset(list)
  {
    assert list == list[..index] + [list[index]] + list[index + 1..];
  }

  /** One item of the equation line. */
  datatype Item = Plus | Minus | EqualsSign | Unknown | Term(word: string, positive: bool)

  /** `positive.map((word, i) => <>{i > 0 && "+"}<Term/></>)` for the first n words. */
  function PositiveItems(pos: seq<string>, n: nat): seq<Item>
    requires n <= |pos|
  {
    if n == 0 then []
    else PositiveItems(pos, n - 1) + (if n > 1 then [Plus] else []) + [Term(pos[n - 1], true)]
  }

  /** The leading "-" and `{i > 0 && "-"}` together put one "-" before every
      negative word. */
  function NegativeItems(neg: seq<string>, n: nat): seq<Item>
    requires n <= |neg|
  {
    if n == 0 then [] else NegativeItems(neg, n - 1) + [Minus, Term(neg[n - 1], false)]
  }

  /** The whole equation line, ending in "= ?". */
  function Equation(pos: seq<string>, neg: seq<string>): seq<Item>
  {
    PositiveItems(pos, |pos|) + (if |neg| > 0 then NegativeItems(neg, |neg|) else []) + [EqualsSign, Unknown]
  }

  function Occurrences(items: seq<Item>, x: Item): nat
  {
    if items == [] then 0 else Occurrences(items[..|items| - 1], x) + (if items[|items| - 1] == x then 1 else 0)
  }

  lemma {:induction false} OccurrencesAppend(a: seq<Item>, b: seq<Item>, x: Item)
    ensures Occurrences(a + b, x) == Occurrences(a, x) + Occurrences(b, x)
  {
    if b == [] {
      assert a + b == a;
    } else {
      assert (a + b)[..|a + b| - 1] == a + b[..|b| - 1];
      OccurrencesAppend(a, b[..|b| - 1], x);
    }
  }

  /** The words of the line, in order, with their sign. */
  function Terms(items: seq<Item>): seq<Item>
  {
    if items == [] then []
    else Terms(items[..|items| - 1]) + (if items[|items| - 1].Term? then [items[|items| - 1]] else [])
  }

  lemma {:induction false} TermsAppend(a: seq<Item>, b: seq<Item>)
    ensures Terms(a + b) == Terms(a) + Terms(b)
  {
    if b == [] {
      assert a + b == a;
    } else {
      assert (a + b)[..|a + b| - 1] == a + b[..|b| - 1];
      TermsAppend(a, b[..|b| - 1]);
    }
  }

  function AsTerms(words: seq<string>, positive: bool): (r: seq<Item>)
    ensures |r| == |words|
    ensures forall k :: 0 <= k < |words| ==> r[k] == Term(words[k], positive)
  {
    seq(|words|, k requires 0 <= k < |words| => Term(words[k], positive))
  }

  lemma {:induction false} PositiveItemsFacts(pos: seq<string>, n: nat)
    requires n <= |pos|
    ensures Occurrences(PositiveItems(pos, n), Plus) == (if n == 0 then 0 else n - 1)
    ensures Occurrences(PositiveItems(pos, n), Minus) == 0
    ensures Terms(PositiveItems(pos, n)) == AsTerms(pos[..n], true)
  {
    if n > 0 {
      PositiveItemsFacts(pos, n - 1);
      var front := PositiveItems(pos, n - 1);
      var sep: seq<Item> := if n > 1 then [Plus] else [];
      OccurrencesAppend(front + sep, [Term(pos[n - 1], true)], Plus);
      OccurrencesAppend(front, sep, Plus);
      OccurrencesAppend(front + sep, [Term(pos[n - 1], true)], Minus);
      OccurrencesAppend(front, sep, Minus);
      TermsAppend(front + sep, [Term(pos[n - 1], true)]);
      TermsAppend(front, sep);
      assert [Term(pos[n - 1], true)][..0] == [];
      assert sep != [] ==> sep[..0] == [];
    }
  }

  lemma {:induction false} NegativeItemsFacts(neg: seq<string>, n: nat)
    requires n <= |neg|
    ensures Occurrences(NegativeItems(neg, n), Minus) == n
    ensures Occurrences(NegativeItems(neg, n), Plus) == 0
    ensures Terms(NegativeItems(neg, n)) == AsTerms(neg[..n], false)
  {
    if n > 0 {
      NegativeItemsFacts(neg, n - 1);
      var front := NegativeItems(neg, n - 1);
      var tail: seq<Item> := [Minus, Term(neg[n - 1], false)];
      OccurrencesAppend(front, tail, Minus);
      OccurrencesAppend(front, tail, Plus);
      TermsAppend(front, tail);
      assert tail[..1] == [Minus] && [Minus][..0] == [];
    }
  }

  /** The positive part alternates word, "+", word, ...: words at even
      positions, in order, and a "+" at every odd position. */
  lemma {:induction false} PositiveItemsLayout(pos: seq<string>, n: nat)
    requires n <= |pos|
    ensures |PositiveItems(pos, n)| == if n == 0 then 0 else 2 * n - 1
    ensures forall k :: 0 <= k < |PositiveItems(pos, n)| ==>
      (k % 2 == 0 ==> PositiveItems(pos, n)[k] == Term(pos[k / 2], true))
      && (k % 2 == 1 ==> PositiveItems(pos, n)[k] == Plus)
  {
    if n > 0 {
      PositiveItemsLayout(pos, n - 1);
    }
  }

  /** The negative part alternates "-", word, "-", word, ...: a "-" at every
      even position and the words, in order, at odd positions. */
  lemma {:induction false} NegativeTermsFollowMinus(neg: seq<string>, n: nat)
    requires n <= |neg|
    ensures |NegativeItems(neg, n)| == 2 * n
    ensures forall k :: 0 <= k < |NegativeItems(neg, n)| ==>
      (k % 2 == 0 ==> NegativeItems(neg, n)[k] == Minus)
      && (k % 2 == 1 ==> NegativeItems(neg, n)[k] == Term(neg[k / 2], false))
  {
    if n > 0 {
      NegativeTermsFollowMinus(neg, n - 1);
    }
  }

  /** The line has n - 1 "+" signs for n positive words and one "-" per
      negative word. */
  lemma EquationSigns(pos: seq<string>, neg: seq<string>)
    ensures Occurrences(Equation(pos, neg), Plus) == (if |pos| == 0 then 0 else |pos| - 1)
    ensures Occurrences(Equation(pos, neg), Minus) == |neg|
  {
    var p := PositiveItems(pos, |pos|);
    var m: seq<Item> := if |neg| > 0 then NegativeItems(neg, |neg|) else [];
    var tail: seq<Item> := [EqualsSign, Unknown];
    PositiveItemsFacts(pos, |pos|);
    NegativeItemsFacts(neg, |neg|);
    OccurrencesAppend(p + m, tail, Plus);
    OccurrencesAppend(p, m, Plus);
    OccurrencesAppend(p + m, tail, Minus);
    OccurrencesAppend(p, m, Minus);
    assert tail[..1] == [EqualsSign] && [EqualsSign][..0] == [];
  }

  /** Item k of line e is placed as the view places it: a "+" sits between
      positive words i and i + 1, a "-" is followed by a negative word, and
      a negative word follows a "-". */
  predicate SignPlaced(pos: seq<string>, e: seq<Item>, k: nat)
    requires k < |e|
  {
    (e[k] == Plus ==>
      k % 2 == 1 && k / 2 + 1 < |pos| && k + 1 < |e|
      && e[k - 1] == Term(pos[k / 2], true) && e[k + 1] == Term(pos[k / 2 + 1], true))
    && (e[k] == Minus ==> k + 1 < |e| && e[k + 1].Term? && !e[k + 1].positive)
    && (e[k].Term? && !e[k].positive ==> 0 < k && e[k - 1] == Minus)
  }

  /** Every "+" of the line sits between two consecutive positive words,
      every "-" is followed by a negative word, and every negative word
      follows a "-". */
  lemma EquationSignPositions(pos: seq<string>, neg: seq<string>)
    ensures forall k :: 0 <= k < |Equation(pos, neg)| ==> SignPlaced(pos, Equation(pos, neg), k)
  {
    var e := Equation(pos, neg);
    var p := PositiveItems(pos, |pos|);
    var m: seq<Item> := if |neg| > 0 then NegativeItems(neg, |neg|) else [];
    assert e == p + m + [EqualsSign, Unknown];
    PositiveItemsLayout(pos, |pos|);
    NegativeTermsFollowMinus(neg, |neg|);
    forall k | 0 <= k < |e|
      ensures SignPlaced(pos, e, k)
    {
      if k < |p| {
        PlacedInPositivePart(pos, e, p, k);
      } else if k < |p| + |m| {
        PlacedInNegativePart(pos, neg, e, |p|, k);
      } else {
        assert e[k] == [EqualsSign, Unknown][k - |p| - |m|];
      }
    }
  }

  lemma PlacedInPositivePart(pos: seq<string>, e: seq<Item>, p: seq<Item>, k: nat)
    requires |p| == (if |pos| == 0 then 0 else 2 * |pos| - 1)
    requires forall i :: 0 <= i < |p| ==>
      (i % 2 == 0 ==> p[i] == Term(pos[i / 2], true)) && (i % 2 == 1 ==> p[i] == Plus)
    requires k < |p| <= |e| && e[..|p|] == p
    ensures SignPlaced(pos, e, k)
  {
    assert e[k] == p[k];
    if k % 2 == 1 {
      assert e[k - 1] == p[k - 1] && e[k + 1] == p[k + 1];
      assert (k - 1) / 2 == k / 2 && (k + 1) / 2 == k / 2 + 1;
    }
  }

  lemma PlacedInNegativePart(pos: seq<string>, neg: seq<string>, e: seq<Item>, start: nat, k: nat)
    requires |neg| > 0
    requires start + 2 * |neg| <= |e| && e[start..start + 2 * |neg|] == NegativeItems(neg, |neg|)
    requires |NegativeItems(neg, |neg|)| == 2 * |neg|
    requires forall i :: 0 <= i < |NegativeItems(neg, |neg|)| ==>
      (i % 2 == 0 ==> NegativeItems(neg, |neg|)[i] == Minus)
      && (i % 2 == 1 ==> NegativeItems(neg, |neg|)[i] == Term(neg[i / 2], false))
    requires start <= k < start + 2 * |neg|
    ensures SignPlaced(pos, e, k)
  {
    var m := NegativeItems(neg, |neg|);
    var d := k - start;
    assert e[k] == m[d];
    if d % 2 == 0 {
      assert e[k + 1] == m[d + 1];
    } else {
      assert e[k - 1] == m[d - 1];
    }
  }

  /** The line lists the positive then the negative words, each in order,
      and ends in "= ?". */
  lemma EquationTerms(pos: seq<string>, neg: seq<string>)
    ensures Terms(Equation(pos, neg)) == AsTerms(pos, true) + AsTerms(neg, false)
    ensures Equation(pos, neg)[|Equation(pos, neg)| - 2..] == [EqualsSign, Unknown]
  {
    var p := PositiveItems(pos, |pos|);
    var m: seq<Item> := if |neg| > 0 then NegativeItems(neg, |neg|) else [];
    var tail: seq<Item> := [EqualsSign, Unknown];
    PositiveItemsFacts(pos, |pos|);
    NegativeItemsFacts(neg, |neg|);
    assert pos[..|pos|] == pos && neg[..|neg|] == neg;
    TermsAppend(p + m, tail);
    TermsAppend(p, m);
    assert tail[..1] == [EqualsSign] && [EqualsSign][..0] == [];
    assert Terms(tail) == [];
    assert |neg| == 0 ==> AsTerms(neg, false) == [];
  }

  /** The "Add words and calculate…" hint. */
  predicate EmptyHintShown(results: seq<Candidate>, loading: bool)
  {
    |results| == 0 && !loading
  }

  /** The component state. */
  class AnalogyPanel {
    var positive: seq<string>
    var negative: seq<string>
    var results: seq<Candidate>
    var loading: bool
    var newPosWord: string
    var newNegWord: string

    constructor()
      ensures positive == ["king", "woman"] && negative == ["man"]
      ensures results == [] && !loading && newPosWord == "" && newNegWord == ""
    {
      positive := ["king", "woman"];
      negative := ["man"];
      results := [];
      loading := false;
      newPosWord := "";
      newNegWord := "";
    }

    method TypePositive(text: string)
      modifies this
      ensures newPosWord == text
      ensures positive == old(positive) && negative == old(negative) && newNegWord == old(newNegWord)
      ensures results == old(results) && loading == old(loading)
    {
      newPosWord := text;
    }

    method TypeNegative(text: string)
      modifies this
      ensures newNegWord == text
      ensures positive == old(positive) && negative == old(negative) && newPosWord == old(newPosWord)
      ensures results == old(results) && loading == old(loading)
    {
      newNegWord := text;
    }

    /** The "+ Add" button or Enter in the positive input. */
    method AddPositive()
      modifies this
      ensures Edit(positive, newPosWord) == AddWord(old(positive), old(newPosWord))
      ensures negative == old(negative) && newNegWord == old(newNegWord)
      ensures results == old(results) && loading == old(loading)
    {
      var e := AddWord(positive, newPosWord);
      positive, newPosWord := e.list, e.input;
    }

    /** The "- Add" button or Enter in the negative input. */
    method AddNegative()
      modifies this
      ensures Edit(negative, newNegWord) == AddWord(old(negative), old(newNegWord))
      ensures positive == old(positive) && newPosWord == old(newPosWord)
      ensures results == old(results) && loading == old(loading)
    {
      var e := AddWord(negative, newNegWord);
      negative, newNegWord := e.list, e.input;
    }

    /** The × on positive word i. */
    method RemovePositive(index: nat)
      modifies this
      ensures positive == RemoveWord(old(positive), index)
      ensures negative == old(negative) && newPosWord == old(newPosWord) && newNegWord == old(newNegWord)
      ensures results == old(results) && loading == old(loading)
    {
      positive := RemoveWord(positive, index);
    }

    /** The × on negative word i. */
    method RemoveNegative(index: nat)
      modifies this
      ensures negative == RemoveWord(old(negative), index)
      ensures positive == old(positive) && newPosWord == old(newPosWord) && newNegWord == old(newNegWord)
      ensures results == old(results) && loading == old(loading)
    {
      negative := RemoveWord(negative, index);
    }

    /** `handleCalculate` up to the `await`; the button is disabled while
        loading, so a click then does nothing. Returns the words sent. */
    method BeginCalculate() returns (request: Option<(seq<string>, seq<string>)>)
      modifies this
      ensures old(loading) ==> request == None && loading
      ensures !old(loading) ==> request == Some((positive, negative)) && loading
      ensures positive == old(positive) && negative == old(negative) && results == old(results)
      ensures newPosWord == old(newPosWord) && newNegWord == old(newNegWord)
    {
      if loading {
        return None;
      }
      loading := true;
      request := Some((positive, negative));
    }

    /** `handleCalculate` after the `await`: results are replaced on
        success, kept on failure, and loading always ends. */
    method FinishCalculate(outcome: Result<seq<Candidate>, string>)
      modifies this
      ensures !loading
      ensures outcome.Ok? ==> results == outcome.value
      ensures outcome.Err? ==> results == old(results)
      ensures positive == old(positive) && negative == old(negative)
      ensures newPosWord == old(newPosWord) && newNegWord == old(newNegWord)
    {
      if outcome.Ok? {
        results := outcome.value;
      }
      loading := false;
    }

    function EquationLine(): seq<Item>
      reads this
    {
      Equation(positive, negative)
    }

    predicate HintShown()
      reads this
    {
      EmptyHintShown(results, loading)
    }
  }

  /** The initial equation reads "king + woman - man = ?" and the hint shows. */
  method InitialPanel() returns (line: seq<Item>, hint: bool)
    ensures line == [Term("king", true), Plus, Term("woman", true), Minus, Term("man", false), EqualsSign, Unknown]
    ensures hint
  {
    var panel := new AnalogyPanel();
    var pos, neg := panel.positive, panel.negative;
    assert PositiveItems(pos, 1) == [Term("king", true)];
    assert PositiveItems(pos, 2) == [Term("king", true), Plus, Term("woman", true)];
    assert NegativeItems(neg, 1) == [Minus, Term("man", false)];
    line := panel.EquationLine();
    hint := panel.HintShown();
  }

  /** From the initial state: the hint hides while the request runs and
      returns when the request fails, since the results stay empty. */
  method CalculateCycle(message: string) returns (during: bool, after: bool, sent: Option<(seq<string>, seq<string>)>)
    ensures !during && after
    ensures sent == Some((["king", "woman"], ["man"]))
  {
    var panel := new AnalogyPanel();
    sent := panel.BeginCalculate();
    during := panel.HintShown();
    panel.FinishCalculate(Err(message));
    after := panel.HintShown();
  }
}
