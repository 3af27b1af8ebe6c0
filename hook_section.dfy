/**
 * The cycling word of the hook section: a fixed table of six words, each
 * with one letter to highlight, and an index that a timer advances one word
 * at a time, wrapping back to the first.
 */
module HookSection {

  datatype Word = Word(text: string, highlight: nat)

  /** One rendered letter of the current word and whether it carries the highlight class. */
  datatype Span = Span(letter: char, highlighted: bool)

  const Words: seq<Word> := [
    Word("Emotion", 2),
    Word("Curiosity", 4),
    Word("Fear", 1),
    Word("Identity", 3),
    Word("Controversy", 5),
    Word("Desire", 2)
  ]

  /** Every highlight index falls inside its word. */
  ghost predicate InRange(w: Word) {
    w.highlight < |w.text|
  }

  lemma HighlightsInRange()
    ensures forall k :: 0 <= k < |Words| ==> InRange(Words[k])
  {
    assert InRange(Words[0]) && InRange(Words[1]) && InRange(Words[2]);
    assert InRange(Words[3]) && InRange(Words[4]) && InRange(Words[5]);
  }

  /** The highlighted letter of each word, as the table's comments name them. */
  lemma HighlightedLetters()
    ensures |Words| == 6
    ensures Words[0].text[Words[0].highlight] == 'o'
    ensures Words[1].text[Words[1].highlight] == 'o'
    ensures Words[2].text[Words[2].highlight] == 'e'
    ensures Words[3].text[Words[3].highlight] == 'n'
    ensures Words[4].text[Words[4].highlight] == 'o'
    ensures Words[5].text[Words[5].highlight] == 's'
  {
  }

  /** The texts serve as animation keys, so no two words share one. */
  lemma WordTextsDistinct()
    ensures forall a, b :: 0 <= a < b < |Words| ==> Words[a].text != Words[b].text
  {
    assert Words[0].text[0] == 'E' && Words[1].text[0] == 'C' && Words[2].text[0] == 'F';
    assert Words[3].text[0] == 'I' && Words[4].text[0] == 'C' && Words[5].text[0] == 'D';
    assert |Words[1].text| != |Words[4].text|;
  }

  /** The timer's step: the next word, wrapping from the last back to the first. */
  function Next(i: nat): (j: nat)
    ensures j < |Words|
    ensures i + 1 < |Words| ==> j == i + 1
    ensures i + 1 == |Words| ==> j == 0
  {
    (i + 1) % |Words|
  }

  /** The index after `n` ticks from `i`. */
  function Advance(i: nat, n: nat): nat
    decreases n
  {
    if n == 0 then i else Advance(Next(i), n - 1)
  }

  lemma {:induction false} AdvanceIsModular(i: nat, n: nat)
    requires i < |Words|
    ensures Advance(i, n) == (i + n) % |Words|
    decreases n
  {
    if n > 0 {
      AdvanceIsModular(Next(i), n - 1);
      if i + 1 == |Words| {
        assert (i + n) % |Words| == (n - 1) % |Words|;
      }
    }
  }

  /** Six ticks show every word once and come back to the word shown at the start. */
  lemma SixTicksReturn(i: nat)
    requires i < |Words|
    ensures Advance(i, |Words|) == i
    ensures forall n :: 0 < n < |Words| ==> Advance(i, n) != i
  {
    AdvanceIsModular(i, |Words|);
    forall n | 0 < n < |Words|
      ensures Advance(i, n) != i
    {
      AdvanceIsModular(i, n);
    }
  }

  /** Every tick changes the animation key, so each word animates in. */
  lemma KeyChangesOnEveryTick(i: nat)
    requires i < |Words|
    ensures Words[Next(i)].text != Words[i].text
  {
    WordTextsDistinct();
  }

  /** The word split into letters, the letter at the highlight index marked. */
  function Letters(w: Word): (spans: seq<Span>)
    ensures |spans| == |w.text|
    ensures forall k :: 0 <= k < |spans| ==> spans[k].letter == w.text[k]
  {
    seq(|w.text|, k requires 0 <= k < |w.text| => Span(w.text[k], k == w.highlight))
  }

  function HighlightCount(spans: seq<Span>): nat {
    if spans == [] then 0
    else (if spans[0].highlighted then 1 else 0) + HighlightCount(spans[1..])
  }

  lemma {:induction false} NoneHighlighted(spans: seq<Span>)
    requires forall k :: 0 <= k < |spans| ==> !spans[k].highlighted
    ensures HighlightCount(spans) == 0
  {
    if spans != [] {
      NoneHighlighted(spans[1..]);
    }
  }

  lemma {:induction false} OneHighlighted(spans: seq<Span>, at: nat)
    requires at < |spans|
    requires forall k :: 0 <= k < |spans| ==> (spans[k].highlighted <==> k == at)
    ensures HighlightCount(spans) == 1
    decreases at
  {
    if at == 0 {
      NoneHighlighted(spans[1..]);
    } else {
      OneHighlighted(spans[1..], at - 1);
    }
  }

  /** Exactly one letter of a word is highlighted, and it is the one at its highlight index. */
  lemma ExactlyOneLetterHighlighted(w: Word)
    requires InRange(w)
    ensures HighlightCount(Letters(w)) == 1
    ensures Letters(w)[w.highlight] == Span(w.text[w.highlight], true)
  {
    OneHighlighted(Letters(w), w.highlight);
  }

  class HookSection {
    var index: nat

    ghost predicate Valid()
      reads this
    {
      index < |Words|
    }

    constructor ()
      ensures Valid() && index == 0
    {
      index := 0;
    }

    /** One timer tick. */
    method Tick()
      requires Valid()
      modifies this
      ensures Valid() && index == Next(old(index))
    {
      index := (index + 1) % |Words|;
    }

    /** The word on display. */
    function Current(): (w: Word)
      reads this
      requires Valid()
      ensures w in Words && InRange(w)
    {
      HighlightsInRange();
      Words[index]
    }

    /** The letters on display, exactly one of them highlighted. */
    function Display(): (spans: seq<Span>)
      reads this
      requires Valid()
      ensures HighlightCount(spans) == 1
      ensures |spans| == |Words[index].text|
    {
      ExactlyOneLetterHighlighted(Current());
      Letters(Current())
    }
  }

  /**
   * The section mounts on "Emotion", with its "o" highlighted; one tick later
   * it shows "Curiosity"; after six ticks it is back on "Emotion".
   */
  method FirstCycle() returns (first: string, lit: Span, second: string, later: string)
    ensures first == "Emotion" && lit == Span('o', true)
    ensures second == "Curiosity"
    ensures later == first
  {
    var hook := new HookSection();
    first := hook.Current().text;
    lit := hook.Display()[2];
    hook.Tick();
    second := hook.Current().text;
    hook.Tick();
    hook.Tick();
    hook.Tick();
    hook.Tick();
    hook.Tick();
    later := hook.Current().text;
  }
}
