# Wordle-style feedback engine in Dafny

This project models the core of a Wordle-style game. A hidden word (the
mystery word) and each guess are chains of letters. Labelling a guess
against the mystery word marks each guessed letter correct, used or unused.
A guess history keeps every guess, newest first, and renders them as text.
A variant letter, ExtendedLetter, holds a string and an integer family; comparing
two of these marks the receiver as related when their families agree.

Four modules, one per source class:

- `Letters` (`letter.dfy`): the `Label` datatype (unset, unused, used,
  correct; codes 0 to 3 in the source) and the class `Letter`. Its
  character is a `const`; its label (`state`) and position are mutable
  fields. It has equality, the decorator and rendering, the three setters
  and `FromString`.
- `Words` (`word.dfy`): the class `Word`, whose node chain is a
  `const letters: seq<Letter>`. It has the constructor loop, rendering,
  `Contains` and `LabelWord`. Beside them are the specification functions
  `Classify` (the label one index earns) and `LettersText` (the rendering),
  with lemmas about both.
- `WordHistory` (`word_ll.dfy`): the class `WordLL`. Its mystery word is a
  `const`; its history is a `seq<Word>` field that `TryWord` prepends to.
  `HistoryText` specifies the rendering, and lemmas show how the rendering
  splits. `RaiseAnagram` and `CatGame` are clients that play guesses
  against "RAISE" and "CAT" using only the contracts.
- `ExtendedLetters` (`extended_letter.dfy`): the class `ExtendedLetter`.
  Its inherited Letter part is a `const base: Letter` built with the
  placeholder character `' '`. It has both constructors, `Equals` with the
  `related` side effect, the dotted rendering and `FromStrings`.

The source's prose and its code disagree in two places. In both, the model
follows the code:

- `ExtendedLetter.equals` sets only the receiver's `related` flag, not the
  argument's (ExtendedLetter.java:57-59).
- Two SINGLETON letters have equal families (-1 == -1). Comparing them
  therefore does mark the receiver related. `SingletonsScenario` shows this.

Labelling does not count letter frequencies. Every guessed letter that
occurs anywhere in the mystery word, but not at its own index, is marked
used, even when the mystery word holds it only once. The source does not
count occurrences and the model keeps that rule; `DuplicateLettersBothUsed`
shows it.

## Model

| member | source | states |
|---|---|---|
| Letters.Letter.constructor | provided/Letter.java:46-49 | the new letter holds the given character with label Unset and position 0 |
| Letters.Letter.Equals | provided/Letter.java:57-63 | true iff the argument is a Letter (non-null) with the same character; it reads no mutable field, so label and position are ignored and nothing changes |
| Letters.EqualsIsEquivalence | provided/Letter.java:57-63 | letter equality is reflexive, symmetric and transitive |
| Letters.Letter.Decorator | provided/Letter.java:70-81 | a one-character marker that is "-" iff unused, "+" iff used, "!" iff correct and " " iff unset |
| Letters.Letter.ToString | provided/Letter.java:88-90 | three characters: the character in the middle, framed on both sides by the label's marker |
| Letters.ToStringInjective | provided/Letter.java:70-90 | two renderings are equal iff the letters have the same character and the same label, so the rendering loses nothing |
| Letters.Letter.IsUnused | provided/Letter.java:118-120 | true iff the label is Unused |
| Letters.Letter.SetUnused | provided/Letter.java:95-97 | the label becomes Unused whatever it was, IsUnused holds, and only the label field changes |
| Letters.Letter.SetUsed | provided/Letter.java:102-104 | the label becomes Used whatever it was, IsUnused is false, and only the label field changes |
| Letters.Letter.SetCorrect | provided/Letter.java:109-111 | the label becomes Correct whatever it was, IsUnused is false, and only the label field changes |
| Letters.Letter.GetPosition | provided/Letter.java:142-144 | returns the letter's stored position, the index FromString gave it |
| Letters.Letter.FromString | provided/Letter.java:128-135 | a fresh array of length \|s\|; element i is a fresh, distinct letter holding s[i], label Unset, and GetPosition() == i |
| Words.Word.constructor | provided/Word.java:17-29 | the word's letters are exactly the array's letters, in order (the same objects; an empty array gives an empty word) |
| Words.Word.ToString | provided/Word.java:36-45 | the result is "Word: " followed by LettersText of the letters |
| Words.LettersTextLength | provided/Word.java:36-45 | every letter adds exactly four characters to the rendering |
| Words.LettersTextAt | provided/Word.java:36-45 | the k-th four-character block of the rendering is letter k's text followed by one space, so the letters appear in order |
| Words.Word.Contains | provided/Word.java:53-62 | true iff some letter of the word equals the given letter |
| Words.Word.LabelWord | provided/Word.java:72-100 | each letter i gets Classify(guess, mystery, i): Correct at a matching index, else Used if the character occurs anywhere in the mystery word, else Unused; every index past the mystery word's end gets Unused. The result is true iff both words have the same characters, length included. Only labels of this word's letters change; positions and the labels of the mystery word's other letters stay unchanged. The new labels depend only on the characters, so labelling again gives the same labels and result |
| Words.AllCorrectIffEqual | provided/Word.java:75-99 | every index is labelled Correct and the lengths agree iff the guess equals the mystery word (both directions) |
| Words.AnagramScenario | provided/Word.java:77-91 | "ARISE" against "RAISE" is labelled used, used, correct, correct, correct and does not win |
| Words.LongerGuessScenario | provided/Word.java:77-99 | "CATS" against "CAT" is labelled correct three times then unused, and does not win |
| Words.DuplicateLettersBothUsed | provided/Word.java:81-88 | both E's of "EEZ" are marked used against "XYE", which holds one E: occurrences are not counted |
| WordHistory.WordLL.constructor | provided/WordLL.java:29-32 | the history is empty and the mystery word is the given one; being a const, it is never reassigned |
| WordHistory.WordLL.TryWord | provided/WordLL.java:40-50 | the history becomes [guess] followed by the old history, one longer, with nothing removed or reordered; the guess is labelled against the fixed mystery word, and the result is LabelWord's; the guess letters' positions are unchanged |
| WordHistory.WordLL.ToString | provided/WordLL.java:58-69 | the result is HistoryText(history): each word's text and a newline, newest first; an empty history gives "" |
| WordHistory.HistoryTextUnfold | provided/WordLL.java:62-66 | the rendering of the history from index i starts with word i's text and a newline, followed by the rest |
| WordHistory.HistoryTextSplit | provided/WordLL.java:62-66 | the rendering of a history is the rendering of its first k (newer) words followed by that of the rest |
| WordHistory.HistoryTextAt | provided/WordLL.java:62-66 | word k's line comes after the lines of the k newer words and before those of the older ones |
| ExtendedLetters.ExtendedLetter.constructor | provided/ExtendedLetter.java:24-29 | content is the given string, family is SINGLETON (-1), related is false, and the Letter part is a fresh unset letter with character ' ' and position 0 |
| ExtendedLetters.ExtendedLetter.WithFamily | provided/ExtendedLetter.java:37-42 | content and family are the given ones, related is false, and the Letter part is a fresh unset letter with character ' ' and position 0 |
| ExtendedLetters.ExtendedLetter.Equals | provided/ExtendedLetter.java:52-61 | false when the argument is not an ExtendedLetter, with nothing changed. Otherwise true iff the contents are equal, whatever the families. Related becomes true iff the families are equal or it already was, including when contents differ and between two singletons; it never goes back to false, and the argument's flag is untouched |
| ExtendedLetters.ExtendedLetter.ToString | provided/ExtendedLetter.java:69-75 | the content framed by two equal markers; the marker is "." iff the letter is unused and related, and the label's decorator otherwise |
| ExtendedLetters.RendersLikeLetter | provided/ExtendedLetter.java:69-75 | with one-character content and no dots, the rendering equals a plain Letter's with that character and label |
| ExtendedLetters.ExtendedLetter.FromStrings | provided/ExtendedLetter.java:85-95 | a fresh array with one fresh, distinct, unrelated, unset letter per content string, holding content[i]; the family is SINGLETON when codes is null, else codes[i]; each letter's Letter part is fresh, has character ' ' and position 0 (positions are never assigned), and is shared with no other letter |

## Left out

- The `LinearNode` chains of Word and WordLL are Dafny sequences. `LinearNode` is not part of this model.
- Words.Word.LabelWord requires the word's Letter objects to be pairwise distinct. The source accepts a word in which one Letter object sits at two indices. There the later index's label would overwrite the earlier one's, and the model does not describe that case. `FromString` always yields distinct letters.
- WordHistory.WordLL.TryWord carries the same distinct-letters requirement, since it calls LabelWord.
- WordHistory.WordLL.ToString builds each line from the `Text` function. It does not call the `Word.ToString` method, which is proved to return the same string.
- Java's dynamic dispatch between `Letter` and `ExtendedLetter` is left out. The model does not cover `Letter.equals` applied to an ExtendedLetter, which compares the placeholder characters. It also does not cover labelling words built from ExtendedLetters, where each comparison inside `contains` would flip `related` flags. ExtendedLetter's inheritance is modelled as a `base` Letter part.
- An argument that is not a Letter (or not an ExtendedLetter) is represented by `null`.
- Null arrays, null array elements and null strings are excluded by the non-null Dafny types. In the source, `fromString(null)`, `new Word(null)`, a `Word` holding a null element, and `equals` on an ExtendedLetter with null content all throw a null-pointer exception, and null content renders as "null". The model does not cover these inputs.
- The integer label field is the datatype `Label`. The field is private and only ever holds the four constants, so the decorator's default branch is reached only by Unset.
- ExtendedLetters.ExtendedLetter.FromStrings requires a non-null `codes` array to be at least as long as `content`. The source would throw an out-of-bounds exception otherwise.
- `StringBuilder` is replaced by string concatenation, and Java `String` identity is not modelled.
- Letters.Letter.FromString: Java's `char` is a UTF-16 code unit and `fromString` splits by `length()`/`charAt`, while Dafny's `char` is a Unicode scalar value. A character outside the Basic Multilingual Plane gives two Letters in the source and one in the model, so `|s|` counts scalar values, not UTF-16 units.
- There is no I/O, input reading or game loop in these classes, and none is modelled.
