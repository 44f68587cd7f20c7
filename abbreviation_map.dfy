/**
 * The abbreviation table: a dictionary from abbreviated words to their full
 * form, consulted word by word when comments are synthesised.
 */
module Abbreviations {

  /** The word a table maps w to, or w itself when it is not a key. */
  function Expand(values: map<string, string>, w: string): (r: string)
    ensures w in values ==> r == values[w]
    ensures w !in values ==> r == w
  {
    if w in values then values[w] else w
  }

  class AbbreviationMap {
    var values: map<string, string>

    constructor()
      ensures values == map[]
    {
      values := map[];
    }

    /**
     * Dictionary.Add: a new key is stored; a key already present is an
     * error (the source throws), reported as ok == false with the table
     * left as it was.
     */
    method Add(abbreviation: string, unabbreviated: string) returns (ok: bool)
      modifies this
      ensures ok <==> abbreviation !in old(values)
      ensures ok ==> values == old(values)[abbreviation := unabbreviated]
      ensures !ok ==> values == old(values)
      ensures Contains(abbreviation) && (ok ==> Unabbreviate(abbreviation) == unabbreviated)
      ensures forall w :: w != abbreviation ==> Unabbreviate(w) == old(Unabbreviate(w))
      ensures forall w :: w != abbreviation ==> (Contains(w) <==> old(Contains(w)))
    {
      if abbreviation in values {
        ok := false;
      } else {
        values := values[abbreviation := unabbreviated];
        ok := true;
      }
    }

    /** Exact, case-sensitive key lookup. */
    function Contains(abbreviation: string): (r: bool)
      reads this
      ensures r <==> abbreviation in values
    {
      abbreviation in values
    }

    function Unabbreviate(abbreviation: string): (r: string)
      reads this
      ensures !Contains(abbreviation) ==> r == abbreviation
      ensures Contains(abbreviation) ==> r == values[abbreviation]
    {
      Expand(values, abbreviation)
    }
  }
}
