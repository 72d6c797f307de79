/**
 * A single character cell of a guessed or hidden word, with the position it
 * had in its source string and a mutable feedback label.
 */
module Letters {

  /** The feedback state of a letter; the source encodes these as the
      integer constants 0 (unset), 1 (unused), 2 (used) and 3 (correct). */
  datatype Label = Unset | Unused | Used | Correct

  class Letter {
    /** The character; never changed after construction. */
    const letter: char
    /** The feedback label, rewritten by every labelling pass. */
    var state: Label
    /** The index in the source string; written once by FromString. */
    var position: int

    constructor (c: char)
      ensures letter == c && state == Unset && position == 0
    {
      letter := c;
      state := Unset;
      position := 0;
    }

    /** Letters are equal exactly when their characters are; the label and
        the position take no part, and no field is read or written. A null
        argument stands for an object that is not a Letter. */
    function Equals(other: Letter?): (r: bool)
      ensures r <==> other != null && other.letter == letter
    {
      other != null && letter == other.letter
    }

    /** The one-character marker of the current label. */
    function Decorator(): (d: string)
      reads this
      ensures |d| == 1
      ensures d == "-" <==> state == Unused
      ensures d == "+" <==> state == Used
      ensures d == "!" <==> state == Correct
      ensures d == " " <==> state == Unset
    {
      match state
      case Unused => "-"
      case Used => "+"
      case Correct => "!"
      case Unset => " "
    }

    /** The character framed on both sides by the label's marker. */
    function ToString(): (s: string)
      reads this
      ensures |s| == 3 && s[1] == letter
      ensures s[0] == s[2] && [s[0]] == Decorator()
    {
      Decorator() + [letter] + Decorator()
    }

    function IsUnused(): (b: bool)
      reads this
      ensures b <==> state == Unused
    {
      state == Unused
    }

    function GetPosition(): (p: int)
      reads this
      ensures p == position
    {
      position
    }

    /** Each setter overwrites the label whatever it was before. */
    method SetUnused()
      modifies this`state
      ensures state == Unused && IsUnused()
    {
      state := Unused;
    }

    method SetUsed()
      modifies this`state
      ensures state == Used && !IsUnused()
    {
      state := Used;
    }

    method SetCorrect()
      modifies this`state
      ensures state == Correct && !IsUnused()
    {
      state := Correct;
    }

    /** One fresh, unset Letter per character of s, each knowing its index. */
    static method FromString(s: string) returns (letters: array<Letter>)
      ensures fresh(letters) && letters.Length == |s|
      ensures forall i :: 0 <= i < |s| ==>
                fresh(letters[i]) && letters[i].letter == s[i] &&
                letters[i].GetPosition() == i && letters[i].state == Unset
      ensures forall i, j :: 0 <= i < j < letters.Length ==> letters[i] != letters[j]
    {
      var made: seq<Letter> := [];
      for i := 0 to |s|
        invariant |made| == i
        invariant forall k :: 0 <= k < i ==>
                    fresh(made[k]) && made[k].letter == s[k] &&
                    made[k].position == k && made[k].state == Unset
        invariant forall k, j :: 0 <= k < j < i ==> made[k] != made[j]
      {
        var l := new Letter(s[i]);
        l.position := i;
        made := made + [l];
      }
      letters := new Letter[|s|](k requires 0 <= k < |s| => made[k]);
    }
  }

  /** Equality of Letters is an equivalence that only sees the character. */
  lemma EqualsIsEquivalence(a: Letter, b: Letter, c: Letter)
    ensures a.Equals(a)
    ensures a.Equals(b) == b.Equals(a)
    ensures a.Equals(b) && b.Equals(c) ==> a.Equals(c)
  {
  }

  /** The rendering loses nothing: it determines both the character and
      the label of the letter. */
  lemma ToStringInjective(a: Letter, b: Letter)
    ensures a.ToString() == b.ToString() <==> a.letter == b.letter && a.state == b.state
  {
  }
}
