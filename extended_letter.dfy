/**
 * A letter whose content is a whole string and which belongs to a family;
 * comparing it with a letter of the same family marks it as related.
 */
module ExtendedLetters {
  import opened Letters

  /** The family of a letter that belongs to no family. */
  const SINGLETON: int := -1

  class ExtendedLetter {
    /** The Letter part this letter extends, made with the placeholder
        character ' '; it carries the label. */
    const base: Letter
    const content: string
    const family: int
    /** Set once some comparison met a letter of the same family. */
    var related: bool

    constructor (s: string)
      ensures content == s && family == SINGLETON && !related
      ensures fresh(base) && base.letter == ' ' && base.state == Unset && base.position == 0
    {
      base := new Letter(' ');
      content := s;
      related := false;
      family := SINGLETON;
    }

    constructor WithFamily(s: string, fam: int)
      ensures content == s && family == fam && !related
      ensures fresh(base) && base.letter == ' ' && base.state == Unset && base.position == 0
    {
      base := new Letter(' ');
      content := s;
      related := false;
      family := fam;
    }

    /** Equal exactly when the other is an ExtendedLetter with the same
        content, whatever its family. As a side effect this letter (and only
        this one) becomes related when the families agree, even if the
        contents differ; related is never cleared. A null argument stands
        for an object that is not an ExtendedLetter. */
    method Equals(other: ExtendedLetter?) returns (r: bool)
      modifies this`related
      ensures r <==> other != null && content == other.content
      ensures related == (old(related) || (other != null && family == other.family))
      ensures old(related) ==> related
      ensures other != null && other != this ==> other.related == old(other.related)
    {
      if other == null {
        return false;
      }
      if family == other.family {
        related := true;
      }
      r := content == other.content;
    }

    /** The content between two markers: dots when the letter is unused and
        related, otherwise the marker of its label. */
    function ToString(): (s: string)
      reads this, base
      ensures |s| == |content| + 2 && s[1..|s| - 1] == content
      ensures s[0] == s[|s| - 1]
      ensures s[0] == '.' <==> base.IsUnused() && related
      ensures s[0] != '.' ==> [s[0]] == base.Decorator()
    {
      if base.IsUnused() && related then "." + content + "."
      else base.Decorator() + content + base.Decorator()
    }

    /** One fresh ExtendedLetter per content string; a missing codes array
        makes every letter a singleton, otherwise letter i gets family
        codes[i]. */
    static method FromStrings(content: array<string>, codes: array?<int>)
      returns (letters: array<ExtendedLetter>)
      requires codes != null ==> codes.Length >= content.Length
      ensures fresh(letters) && letters.Length == content.Length
      ensures forall i :: 0 <= i < content.Length ==>
                fresh(letters[i]) && letters[i].content == content[i] &&
                !letters[i].related && letters[i].base.state == Unset &&
                letters[i].family == (if codes == null then SINGLETON else codes[i]) &&
                fresh(letters[i].base) && letters[i].base.letter == ' ' &&
                letters[i].base.position == 0
      ensures forall i, j :: 0 <= i < j < letters.Length ==>
                letters[i] != letters[j] && letters[i].base != letters[j].base
    {
      var made: seq<ExtendedLetter> := [];
      for i := 0 to content.Length
        invariant |made| == i
        invariant forall k :: 0 <= k < i ==>
                    fresh(made[k]) && made[k].content == content[k] &&
                    !made[k].related && made[k].base.state == Unset &&
                    made[k].family == (if codes == null then SINGLETON else codes[k]) &&
                    fresh(made[k].base) && made[k].base.letter == ' ' &&
                    made[k].base.position == 0
        invariant forall k, j :: 0 <= k < j < i ==> made[k] != made[j] && made[k].base != made[j].base
      {
        var l;
        if codes == null {
          l := new ExtendedLetter(content[i]);
        } else {
          l := new ExtendedLetter.WithFamily(content[i], codes[i]);
        }
        made := made + [l];
      }
      letters := new ExtendedLetter[content.Length](k requires 0 <= k < content.Length => made[k]);
    }
  }

  /** When the content is one character and the letter is not shown as
      unused-and-related, it renders exactly as a plain Letter with that
      character and label would. */
  lemma RendersLikeLetter(e: ExtendedLetter, l: Letter)
    requires e.content == [l.letter] && e.base.state == l.state
    requires !(e.base.IsUnused() && e.related)
    ensures e.ToString() == l.ToString()
  {
  }

  /** Two singletons compared with each other: they are not equal, yet the
      receiver becomes related, since both families are SINGLETON; the
      argument stays unrelated. */
  method SingletonsScenario() {
    var content := new string[2];
    content[0], content[1] := "a", "b";
    var letters := ExtendedLetter.FromStrings(content, null);
    var a, b := letters[0], letters[1];
    var same := a.Equals(b);
    assert !same && a.related;
    assert !b.related;
    a.base.SetUnused();
    assert b.base.state == Unset;
    assert a.ToString() == ".a." && b.ToString() == " b ";
    assert a.base.GetPosition() == 0 && b.base.GetPosition() == 0;
  }
}
