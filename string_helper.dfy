/**
 * The word helpers of StringHelper.cs: capitalising, splitting camel-case
 * identifiers into lower-case words, and conjugating a verb to the third
 * person. The two regular expressions of the source are written out as the
 * character-level functions Spaced and EndsInSibilantClass.
 */
module StringHelper {
  import opened Strings

  /** Upper-cases the first character and keeps the rest. */
  function Capitalize(s: string): (r: string)
    ensures |r| == |s|
    ensures s == "" ==> r == ""
    ensures s != "" ==> r[0] == ToUpperChar(s[0])
    ensures forall i :: 1 <= i < |s| ==> r[i] == s[i]
  {
    if s == "" then "" else [ToUpperChar(s[0])] + s[1..]
  }

  /** A text that does not start with a lower-case letter is left as it is. */
  lemma CapitalizeKeeps(s: string)
    requires s != "" && !IsLower(s[0])
    ensures Capitalize(s) == s
  {
    assert s == [s[0]] + s[1..];
  }

  /** Capitalising twice is the same as capitalising once. */
  lemma CapitalizeIdempotent(s: string)
    ensures Capitalize(Capitalize(s)) == Capitalize(s)
  {
    if s != "" {
      var c := s[0];
      assert ToUpperChar(ToUpperChar(c)) == ToUpperChar(c);
      assert Capitalize(s)[1..] == s[1..];
    }
  }

  /** The replacement of "([A-Z])" by " $1": a space before every upper-case letter. */
  function Spaced(s: string): (r: string)
    ensures |r| >= |s|
    decreases |s|
  {
    if s == [] then []
    else (if IsUpper(s[0]) then [' ', s[0]] else [s[0]]) + Spaced(s[1..])
  }

  const WordSeparators: set<char> := {' ', '_'}

  /** Split a camel-case identifier into lower-case words, breaking at spaces and underscores too. */
  function SplitCamelCase(s: string): (r: seq<string>)
    ensures s == "" ==> r == []
    ensures forall i :: 0 <= i < |r| ==> r[i] != [] && NoneIn(r[i], WordSeparators)
    ensures forall i :: 0 <= i < |r| ==> forall c :: c in r[i] ==> !IsUpper(c)
  {
    var lowered := Lower(Trim(Spaced(s)));
    var r := SplitRemoveEmpty(lowered, WordSeparators);
    assert forall c :: c in lowered ==> !IsUpper(c);
    r
  }

  /** The input holds no white space other than the plain space. */
  predicate OnlySpaceWhitespace(s: string) {
    forall i :: 0 <= i < |s| ==> IsSpace(s[i]) ==> s[i] == ' '
  }

  lemma {:induction false} SpacedAppend(x: string, y: string)
    ensures Spaced(x + y) == Spaced(x) + Spaced(y)
    decreases |x|
  {
    if x == [] {
      assert x + y == y;
    } else {
      assert (x + y)[0] == x[0];
      assert (x + y)[1..] == x[1..] + y;
      SpacedAppend(x[1..], y);
    }
  }

  /** Spaced inserts nothing but plain spaces. */
  lemma {:induction false} SpacedOnlySpace(s: string)
    requires OnlySpaceWhitespace(s)
    ensures OnlySpaceWhitespace(Spaced(s))
    decreases |s|
  {
    if s != [] {
      SpacedOnlySpace(s[1..]);
      var head := if IsUpper(s[0]) then [' ', s[0]] else [s[0]];
      var t := Spaced(s[1..]);
      assert Spaced(s) == head + t;
      forall i | 0 <= i < |head + t| && IsSpace((head + t)[i])
        ensures (head + t)[i] == ' '
      {
        if i >= |head| {
          assert (head + t)[i] == t[i - |head|];
        }
      }
    }
  }

  lemma LowerAppend(x: string, y: string)
    ensures Lower(x + y) == Lower(x) + Lower(y)
  {
  }

  /** Lower-casing keeps plain spaces (and never produces a separator from a letter). */
  lemma LowerKeepsSpaces(s: string)
    requires forall i :: 0 <= i < |s| ==> s[i] == ' '
    ensures Lower(s) == s
  {
  }

  /** When the only white space is the plain space, trimming does not change the tokens. */
  lemma TrimIrrelevant(x: string)
    requires OnlySpaceWhitespace(x)
    ensures SplitRemoveEmpty(Lower(Trim(x)), WordSeparators) == SplitRemoveEmpty(Lower(x), WordSeparators)
  {
    var lo: nat, hi: nat :| SpacedSlice(x, Trim(x), lo, hi);
    SliceTokens(x, Trim(x), lo, hi);
  }

  /** Cutting only white space off both ends does not change the tokens. */
  lemma SliceTokens(x: string, r: string, lo: nat, hi: nat)
    requires OnlySpaceWhitespace(x) && SpacedSlice(x, r, lo, hi)
    ensures SplitRemoveEmpty(Lower(r), WordSeparators) == SplitRemoveEmpty(Lower(x), WordSeparators)
  {
    var a, m, b := x[..lo], x[lo..hi], x[hi..];
    assert x == a + m + b;
    LowerAppend(a + m, b);
    LowerAppend(a, m);
    assert forall i :: 0 <= i < |a| ==> a[i] == x[i];
    assert forall i :: 0 <= i < |b| ==> b[i] == x[hi + i];
    LowerKeepsSpaces(a);
    LowerKeepsSpaces(b);
    SplitRemoveEmptyPadded(a, Lower(m), b, WordSeparators);
  }

  /** On such inputs SplitCamelCase is the plain split of the lower-cased spaced text. */
  lemma SplitCamelCaseUntrimmed(s: string)
    requires OnlySpaceWhitespace(s)
    ensures SplitCamelCase(s) == Words(s)
  {
    SpacedOnlySpace(s);
    TrimIrrelevant(Spaced(s));
  }

  /** Spaces added by Spaced disappear together with the separators. */
  lemma {:induction false} WithoutLowerSpaced(s: string)
    ensures Without(Lower(Spaced(s)), WordSeparators) == Without(Lower(s), WordSeparators)
    decreases |s|
  {
    if s != [] {
      WithoutLowerSpaced(s[1..]);
      var head := if IsUpper(s[0]) then [' ', s[0]] else [s[0]];
      assert Spaced(s) == head + Spaced(s[1..]);
      LowerAppend(head, Spaced(s[1..]));
      WithoutAppend(Lower(head), Lower(Spaced(s[1..])), WordSeparators);
      assert s == [s[0]] + s[1..];
      LowerAppend([s[0]], s[1..]);
      WithoutAppend(Lower([s[0]]), Lower(s[1..]), WordSeparators);
      if IsUpper(s[0]) {
        assert Lower(head) == [' '] + Lower([s[0]]);
        WithoutAppend([' '], Lower([s[0]]), WordSeparators);
      }
    }
  }

  /** With spaces as the only white space, the words put together are the lower-cased input without separators. */
  lemma SplitCamelCaseConcat(s: string)
    requires OnlySpaceWhitespace(s)
    ensures Concat(SplitCamelCase(s)) == Without(Lower(s), WordSeparators)
  {
    SplitCamelCaseUntrimmed(s);
    SplitRemoveEmptyConcat(Lower(Spaced(s)), WordSeparators);
    WithoutLowerSpaced(s);
  }

  lemma OnlySpaceParts(x: string, y: string)
    requires OnlySpaceWhitespace(x + y)
    ensures OnlySpaceWhitespace(x) && OnlySpaceWhitespace(y)
  {
    forall i | 0 <= i < |x| ensures IsSpace(x[i]) ==> x[i] == ' ' {
      assert x[i] == (x + y)[i];
    }
    forall i | 0 <= i < |y| ensures IsSpace(y[i]) ==> y[i] == ' ' {
      assert y[i] == (x + y)[|x| + i];
    }
  }

  /** The lower-cased spaced text of a word that starts with an upper-case letter: a space, then the letter lower-cased. */
  lemma LowerSpacedUpper(u: char, b: string)
    requires IsUpper(u)
    ensures Lower(Spaced([u] + b)) == [' '] + Lower([u] + Spaced(b))
  {
    var ub := [u] + b;
    assert ub[0] == u && ub[1..] == b;
    assert Spaced(ub) == [' '] + ([u] + Spaced(b));
    LowerAppend([' '], [u] + Spaced(b));
  }

  /** The words of the spaced, lower-cased text, before trimming. */
  function Words(s: string): seq<string> {
    SplitRemoveEmpty(Lower(Spaced(s)), WordSeparators)
  }

  lemma WordsAtUpper(a: string, u: char, b: string)
    requires IsUpper(u)
    ensures Words(a + ([u] + b)) == Words(a) + Words([u] + b)
  {
    var ub := [u] + b;
    var la := Lower(Spaced(a));
    var lr := Lower([u] + Spaced(b));
    assert Lower(Spaced(ub)) == [' '] + lr by {
      LowerSpacedUpper(u, b);
    }
    assert Lower(Spaced(a + ub)) == la + [' '] + lr by {
      SpacedAppend(a, ub);
      LowerAppend(Spaced(a), Spaced(ub));
    }
    SplitRemoveEmptyAt(la, ' ', lr, WordSeparators);
    assert [' '] + lr == [] + [' '] + lr;
    SplitRemoveEmptyAt([], ' ', lr, WordSeparators);
  }

  lemma WordsUpperStart(u: char, b: string)
    requires IsUpper(u)
    ensures |Words([u] + b)| > 0 && Words([u] + b)[0][0] == ToLowerChar(u)
  {
    var lr := Lower([u] + Spaced(b));
    LowerSpacedUpper(u, b);
    assert Lower(Spaced([u] + b)) == [] + [' '] + lr;
    SplitRemoveEmptyAt([], ' ', lr, WordSeparators);
    assert lr[0] == ToLowerChar(u);
    var k := FirstIn(lr, WordSeparators);
    assert k > 0;
    assert SplitRemoveEmpty(lr, WordSeparators)[0] == lr[..k];
  }

  /** Every upper-case letter starts a new word: the words of a + [u] + b are those of a followed by those of [u] + b. */
  lemma SplitCamelCaseAtUpper(a: string, u: char, b: string)
    requires IsUpper(u)
    requires OnlySpaceWhitespace(a + [u] + b)
    ensures SplitCamelCase(a + [u] + b) == SplitCamelCase(a) + SplitCamelCase([u] + b)
  {
    assert a + [u] + b == a + ([u] + b);
    OnlySpaceParts(a, [u] + b);
    SplitCamelCaseUntrimmed(a + ([u] + b));
    SplitCamelCaseUntrimmed(a);
    SplitCamelCaseUntrimmed([u] + b);
    WordsAtUpper(a, u, b);
  }

  /** A word that starts with an upper-case letter yields a first token that starts with that letter lower-cased. */
  lemma SplitCamelCaseUpperStart(u: char, b: string)
    requires IsUpper(u)
    requires OnlySpaceWhitespace([u] + b)
    ensures |SplitCamelCase([u] + b)| > 0 && SplitCamelCase([u] + b)[0][0] == ToLowerChar(u)
  {
    SplitCamelCaseUntrimmed([u] + b);
    WordsUpperStart(u, b);
  }

  /** The regular expression "[ch|s|sh|x|z]$": a character of {c, h, |, s, x, z} at the end, or just before a final line feed. */
  predicate EndsInSibilantClass(v: string) {
    var cls := {'c', 'h', '|', 's', 'x', 'z'};
    (|v| >= 1 && v[|v| - 1] in cls) || (|v| >= 2 && v[|v| - 1] == '\n' && v[|v| - 2] in cls)
  }

  /** Third-person singular of an English verb. */
  function GetThirdPersonVerb(verb: string): (r: string)
    ensures EndsWith(r, "s")
    ensures |r| == |verb| + 1 || |r| == |verb| + 2
    ensures verb != "" ==> StartsWith(r, verb[..|verb| - 1])
  {
    if verb == "do" then "does"
    else if EndsWith(verb, "y") then verb[..|verb| - 1] + "ies"
    else if EndsInSibilantClass(verb) then verb + "es"
    else verb + "s"
  }

  /** The plain "+s" form is used exactly when no earlier rule applies. */
  lemma ThirdPersonPlainS(verb: string)
    ensures GetThirdPersonVerb(verb) == verb + "s"
            <==> verb != "do" && !EndsWith(verb, "y") && !EndsInSibilantClass(verb)
  {
    var r := GetThirdPersonVerb(verb);
    if verb == "do" {
      assert r[2] == 'e';
    } else if EndsWith(verb, "y") {
      assert r[|verb| - 1] == 'i';
      assert verb[|verb| - 1] == 'y';
      assert r != verb + "s" by {
        assert (verb + "s")[|verb| - 1] == 'y';
      }
    } else if EndsInSibilantClass(verb) {
      assert |r| == |verb| + 2;
    }
  }

  lemma ThirdPersonExamples()
    ensures GetThirdPersonVerb("do") == "does"
    ensures GetThirdPersonVerb("try") == "tries"
    ensures GetThirdPersonVerb("fetch") == "fetches"
    ensures GetThirdPersonVerb("fix") == "fixes"
    ensures GetThirdPersonVerb("run") == "runs"
    ensures GetThirdPersonVerb("sync") == "synces"
  {
    assert EndsWith("try", "y");
    assert EndsInSibilantClass("fetch");
    assert EndsInSibilantClass("fix");
    assert !EndsWith("run", "y") && !EndsInSibilantClass("run");
    assert !EndsWith("sync", "y") && EndsInSibilantClass("sync");
  }
}
