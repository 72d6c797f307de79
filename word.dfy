/**
 * A word is an ordered chain of Letters. Labelling a guessed word against
 * the hidden word marks each of its letters correct, used or unused.
 */
module Words {
  import opened Letters

  /** The characters of a sequence of letters, in order. */
  function Chars(ls: seq<Letter>): (cs: seq<char>)
    ensures |cs| == |ls|
    ensures forall i :: 0 <= i < |ls| ==> cs[i] == ls[i].letter
  {
    seq(|ls|, i requires 0 <= i < |ls| => ls[i].letter)
  }

  /** The feedback a guess g earns at index i against the hidden word m:
      correct at a matching index, used when the character occurs anywhere
      in m (with no counting of occurrences), unused otherwise; an index
      past the end of m is always unused. */
  function Classify(g: seq<char>, m: seq<char>, i: nat): Label
    requires i < |g|
  {
    if i < |m| && g[i] == m[i] then Correct
    else if i < |m| && g[i] in m then Used
    else Unused
  }

  /** The labels of the whole guess, index by index. */
  function Labels(g: seq<char>, m: seq<char>): (r: seq<Label>)
    ensures |r| == |g|
    ensures forall i :: 0 <= i < |g| ==> r[i] == Classify(g, m, i)
  {
    seq(|g|, i requires 0 <= i < |g| => Classify(g, m, i))
  }

  /** The rendering of a run of letters: each letter's text and one space. */
  function LettersText(ls: seq<Letter>): string
    reads ls
  {
    if ls == [] then ""
    else LettersText(ls[..|ls| - 1]) + ls[|ls| - 1].ToString() + " "
  }

  class Word {
    /** The letters of the word, in order; the chain is never relinked. */
    const letters: seq<Letter>

    /** Links the given letters, in their order, into a new word. */
    constructor (ls: array<Letter>)
      ensures letters == ls[..]
    {
      var chain: seq<Letter> := [];
      var i := 0;
      while i < ls.Length
        invariant 0 <= i <= ls.Length
        invariant chain == ls[..i]
      {
        chain := chain + [ls[i]];
        i := i + 1;
      }
      letters := chain;
    }

    /** No Letter object occurs twice in the word. */
    predicate OwnsDistinctLetters() {
      forall i, j :: 0 <= i < j < |letters| ==> letters[i] != letters[j]
    }

    /** "Word: " followed by every letter's text and a space, in order. */
    function Text(): string
      reads letters
    {
      "Word: " + LettersText(letters)
    }

    method ToString() returns (s: string)
      ensures s == Text()
    {
      s := "Word: ";
      var i := 0;
      while i < |letters|
        invariant 0 <= i <= |letters|
        invariant s == "Word: " + LettersText(letters[..i])
      {
        assert letters[..i + 1][..i] == letters[..i];
        s := s + letters[i].ToString() + " ";
        i := i + 1;
      }
      assert letters[..i] == letters;
    }

    /** Whether some letter of this word equals the given one. */
    method Contains(l: Letter) returns (found: bool)
      ensures found <==> exists k :: 0 <= k < |letters| && letters[k].Equals(l)
    {
      var i := 0;
      while i < |letters|
        invariant 0 <= i <= |letters|
        invariant forall k :: 0 <= k < i ==> !letters[k].Equals(l)
      {
        if letters[i].Equals(l) {
          return true;
        }
        i := i + 1;
      }
      return false;
    }

    /** Labels every letter of this word against the hidden word and tells
        whether the two words are equal: the same length and the same
        character at every index. Only the labels of this word's letters
        change. */
    method LabelWord(mystery: Word) returns (isEqual: bool)
      requires OwnsDistinctLetters()
      modifies letters
      ensures forall i :: 0 <= i < |letters| ==>
                letters[i].state == Classify(Chars(letters), Chars(mystery.letters), i)
      ensures forall i :: 0 <= i < |letters| ==> letters[i].position == old(letters[i].position)
      ensures forall l :: l in mystery.letters && l !in letters ==> l.state == old(l.state)
      ensures isEqual <==> Chars(letters) == Chars(mystery.letters)
    {
      ghost var g, m := Chars(letters), Chars(mystery.letters);
      var thisNode, otherNode := 0, 0;
      isEqual := true;
      while thisNode < |letters| && otherNode < |mystery.letters|
        invariant thisNode == otherNode <= |letters| && otherNode <= |mystery.letters|
        invariant forall k :: 0 <= k < thisNode ==> letters[k].state == Classify(g, m, k)
        invariant forall k :: 0 <= k < |letters| ==> letters[k].position == old(letters[k].position)
        invariant isEqual <==> g[..thisNode] == m[..thisNode]
      {
        var current := letters[thisNode];
        if current.Equals(mystery.letters[otherNode]) {
          current.SetCorrect();
        } else {
          var found := mystery.Contains(current);
          assert found <==> g[thisNode] in m by {
            if g[thisNode] in m {
              var k :| 0 <= k < |m| && m[k] == g[thisNode];
              assert mystery.letters[k].Equals(current);
            }
          }
          if found {
            current.SetUsed();
          } else {
            current.SetUnused();
          }
          isEqual := false;
        }
        assert g[..thisNode + 1] == g[..thisNode] + [g[thisNode]];
        assert m[..thisNode + 1] == m[..thisNode] + [m[thisNode]];
        thisNode, otherNode := thisNode + 1, otherNode + 1;
      }
      if thisNode == |letters| && otherNode == |mystery.letters| {
        assert g[..thisNode] == g && m[..otherNode] == m;
      }
      while thisNode < |letters|
        invariant otherNode <= thisNode <= |letters|
        invariant thisNode > otherNode ==> otherNode == |mystery.letters| && !isEqual
        invariant thisNode == |letters| ==> (isEqual && otherNode == |mystery.letters| <==> g == m)
        invariant forall k :: 0 <= k < thisNode ==> letters[k].state == Classify(g, m, k)
        invariant forall k :: 0 <= k < |letters| ==> letters[k].position == old(letters[k].position)
      {
        letters[thisNode].SetUnused();
        thisNode := thisNode + 1;
        isEqual := false;
      }
      isEqual := isEqual && otherNode == |mystery.letters|;
    }
  }

  /** Every letter contributes exactly four characters to the rendering. */
  lemma {:induction false} LettersTextLength(ls: seq<Letter>)
    ensures |LettersText(ls)| == 4 * |ls|
  {
    if ls != [] {
      LettersTextLength(ls[..|ls| - 1]);
    }
  }

  /** The k-th block of four characters is the k-th letter's text and a
      space, so the letters are rendered in order. */
  lemma {:induction false} LettersTextAt(ls: seq<Letter>, k: nat)
    requires k < |ls|
    ensures |LettersText(ls)| == 4 * |ls|
    ensures LettersText(ls)[4 * k .. 4 * k + 4] == ls[k].ToString() + " "
  {
    var init := ls[..|ls| - 1];
    LettersTextLength(init);
    LettersTextLength(ls);
    if k < |ls| - 1 {
      LettersTextAt(init, k);
      assert init[k] == ls[k];
    }
  }

  /** The game is won exactly when every index is correct and the lengths
      agree. */
  lemma AllCorrectIffEqual(g: seq<char>, m: seq<char>)
    ensures (|g| == |m| && forall i :: 0 <= i < |g| ==> Classify(g, m, i) == Correct) <==> g == m
  {
    if |g| == |m| && forall i :: 0 <= i < |g| ==> Classify(g, m, i) == Correct {
      forall i | 0 <= i < |g| ensures g[i] == m[i] {
        assert Classify(g, m, i) == Correct;
      }
    }
  }

  /** A guess that is an anagram of the hidden word: the swapped letters
      are used, the rest correct, and the game is not won. */
  lemma AnagramScenario()
    ensures Labels("ARISE", "RAISE") == [Used, Used, Correct, Correct, Correct]
    ensures "ARISE" != "RAISE"
  {
  }

  /** A guess one letter longer than the hidden word: the extra letter is
      unused and the game is not won. */
  lemma LongerGuessScenario()
    ensures Labels("CATS", "CAT") == [Correct, Correct, Correct, Unused]
    ensures "CATS" != "CAT"
  {
  }

  /** Occurrences are not counted: both copies of a letter that the hidden
      word holds once are marked used. */
  lemma DuplicateLettersBothUsed()
    ensures Labels("EEZ", "XYE") == [Used, Used, Unused]
    ensures multiset("XYE")['E'] == 1
  {
  }
}
