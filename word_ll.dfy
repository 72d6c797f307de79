/**
 * The history of guesses made against one hidden word, newest first.
 */
module WordHistory {
  import opened Letters
  import opened Words

  /** Every letter of every word in a history. */
  ghost function HistoryLetters(h: seq<Word>): set<Letter> {
    if h == [] then {} else (set l | l in h[0].letters) + HistoryLetters(h[1..])
  }

  /** Each word's text followed by a newline, from the front of the
      history (the newest guess) to its back (the oldest). */
  function HistoryText(h: seq<Word>): string
    reads HistoryLetters(h)
  {
    if h == [] then ""
    else h[0].Text() + "\n" + HistoryText(h[1..])
  }

  class WordLL {
    /** The hidden word; fixed when the history is created. */
    const mysteryWord: Word
    /** The guesses so far, the most recent first. */
    var history: seq<Word>

    constructor (mystery: Word)
      ensures mysteryWord == mystery && history == []
    {
      mysteryWord := mystery;
      history := [];
    }

    /** Records the guess in front of all earlier ones, labels it against
        the hidden word and tells whether it equals the hidden word. */
    method TryWord(guess: Word) returns (won: bool)
      requires guess.OwnsDistinctLetters()
      modifies this`history, guess.letters
      ensures history == [guess] + old(history)
      ensures |history| == |old(history)| + 1 && history[1..] == old(history)
      ensures forall i :: 0 <= i < |guess.letters| ==>
                guess.letters[i].state == Classify(Chars(guess.letters), Chars(mysteryWord.letters), i)
      ensures won <==> Chars(guess.letters) == Chars(mysteryWord.letters)
      ensures forall i :: 0 <= i < |guess.letters| ==>
                guess.letters[i].position == old(guess.letters[i].position)
    {
      history := [guess] + history;
      won := guess.LabelWord(mysteryWord);
    }

    method ToString() returns (s: string)
      ensures s == HistoryText(history)
    {
      var h := history;
      s := "";
      var i := 0;
      while i < |h|
        invariant 0 <= i <= |h|
        invariant s + HistoryText(h[i..]) == HistoryText(h)
      {
        assert h[i..][1..] == h[i + 1..];
        var text := h[i].Text();
        s := s + text + "\n";
        i := i + 1;
      }
      assert h[i..] == [];
    }
  }

  /** The rendering of a suffix of a history starts with its first word. */
  lemma HistoryTextUnfold(h: seq<Word>, i: nat)
    requires i < |h|
    ensures HistoryText(h[i..]) == h[i].Text() + "\n" + HistoryText(h[i + 1..])
  {
    var rest := h[i..];
    assert rest[0] == h[i] && rest[1..] == h[i + 1..];
  }

  /** The rendering of a history splits at any point into the rendering of
      its newer part followed by that of its older part. */
  lemma {:induction false} HistoryTextSplit(h: seq<Word>, k: nat)
    requires k <= |h|
    ensures HistoryText(h) == HistoryText(h[..k]) + HistoryText(h[k..])
  {
    if k > 0 {
      HistoryTextSplit(h[1..], k - 1);
      assert h[..k][0] == h[0] && h[..k][1..] == h[1..][..k - 1];
      assert h[1..][k - 1..] == h[k..];
    }
  }

  /** A history of n guesses renders as n lines, in the order the words are
      kept: the text of the word at index k is the k-th line. */
  lemma {:induction false} HistoryTextAt(h: seq<Word>, k: nat)
    requires k < |h|
    ensures HistoryText(h) == HistoryText(h[..k]) + h[k].Text() + "\n" + HistoryText(h[k + 1..])
  {
    HistoryTextSplit(h, k);
    HistoryTextUnfold(h, k);
  }

  /** A guess against "RAISE", as a caller sees it through the contracts
      alone: the anagram "ARISE" is labelled and recorded, and does not win. */
  method RaiseAnagram() {
    var hidden := Letter.FromString("RAISE");
    var mystery := new Word(hidden);
    var game := new WordLL(mystery);
    assert Chars(mystery.letters) == "RAISE";

    var first := Letter.FromString("ARISE");
    var anagram := new Word(first);
    assert Chars(anagram.letters) == "ARISE";
    var won := game.TryWord(anagram);
    assert !won && game.history == [anagram];
    assert anagram.letters[0].state == Used && anagram.letters[1].state == Used by {
      assert 'A' in "RAISE" && 'R' in "RAISE";
    }
    assert anagram.letters[2].state == Correct;
    assert anagram.letters[4].GetPosition() == 4;
  }

  /** Two guesses against "CAT": a wrong one, then the hidden word itself,
      which wins and is recorded in front of the first. */
  method CatGame() {
    var hidden := Letter.FromString("CAT");
    var mystery := new Word(hidden);
    var game := new WordLL(mystery);
    assert Chars(mystery.letters) == "CAT";

    var first := Letter.FromString("CATS");
    var longer := new Word(first);
    assert Chars(longer.letters) == "CATS";
    var won := game.TryWord(longer);
    assert !won && longer.letters[3].state == Unused;

    var second := Letter.FromString("CAT");
    var exact := new Word(second);
    assert Chars(exact.letters) == "CAT";
    won := game.TryWord(exact);
    assert won && game.history == [exact, longer];
  }
}
