/**
 * Recognisers for the four line patterns of the comment engine, written out
 * instead of a regular-expression engine (tc is the configured tag
 * character, written with a backslash in the pattern):
 *
 *   tparam line:  \s*\*\s+\tc tparam\s+(\w+)(?:\s+(.*))?$
 *   param line:   \s*\*\s+\tc param\s+(\[[a-z,]+\])\s+(\w+)(?:\s+(.*))?$
 *   tag line:     \s*\*\s+\tc([a-z]+)(?:\s+(.*))?$
 *   text line:    \s*\*\s+(.+)$
 *
 * Each pattern is unanchored on the left, so a match is looked for at
 * every '*' from left to right and the first one that succeeds is taken.
 * Every repeated class in these patterns is followed by something the class
 * cannot contain, so backtracking never helps and each run is maximal. The
 * optional trailing group follows .NET rules: '.' does not match a line
 * feed and '$' matches at the end or before a final line feed.
 */
module CommentGrammar {
  import opened Wrappers
  import opened Strings

  // ---------------------------------------------------------------------
  // Runs and the optional trailing text
  // ---------------------------------------------------------------------

  /** The end of the maximal run of characters satisfying p that starts at i. */
  function RunEnd(s: string, i: nat, p: char -> bool): (r: nat)
    requires i <= |s|
    ensures i <= r <= |s|
    ensures forall k :: i <= k < r ==> p(s[k])
    ensures r < |s| ==> !p(s[r])
    decreases |s| - i
  {
    if i < |s| && p(s[i]) then RunEnd(s, i + 1, p) else i
  }

  /** w occurs in s at index i. */
  predicate LiteralAt(s: string, i: nat, w: string) {
    i + |w| <= |s| && s[i..i + |w|] == w
  }

  /** Characters allowed inside the brackets of a direction: [a-z,]. */
  predicate IsDirChar(c: char) { IsLower(c) || c == ',' }

  /** No line feed occurs in s from g on, except possibly as the last character. */
  predicate NoInnerLineFeed(s: string, g: nat) {
    forall k :: g <= k < |s| - 1 ==> s[k] != '\n'
  }

  /** The optional trailing group "(?:\s+(.*))?": absent, or present with its capture starting at start. */
  datatype Tail = NoTail | TailAt(start: nat)

  /** The Index of the trailing capture; .NET reports 0 for a group that did not take part. */
  function CaptureIndex(t: Tail): nat {
    match t
    case NoTail => 0
    case TailAt(g) => g
  }

  /**
   * "(?:\s+(.*))?$" matched at f. When white space follows, the group is
   * taken with the whole white-space run, and it succeeds unless a line
   * feed other than a final one follows; no shorter run can do better.
   * Without white space only the end of the text satisfies "$".
   */
  function MatchTail(s: string, f: nat): (r: Option<Tail>)
    requires f <= |s|
    ensures r == Some(NoTail) <==> f == |s|
    ensures r.Some? && r.value.TailAt? ==>
              f < r.value.start <= |s| && IsSpace(s[r.value.start - 1])
              && (forall k :: f <= k < r.value.start ==> IsSpace(s[k]))
              && (r.value.start < |s| ==> !IsSpace(s[r.value.start]))
              && NoInnerLineFeed(s, r.value.start)
    ensures f < |s| && IsSpace(s[f]) && '\n' !in s ==> r.Some? && r.value.TailAt?
  {
    if f < |s| && IsSpace(s[f]) then
      var g := RunEnd(s, f, IsSpace);
      if NoInnerLineFeed(s, g) then Some(TailAt(g)) else None
    else if f == |s| then Some(NoTail)
    else None
  }

  /** The text the trailing group captured: up to the first line feed; empty when the group is absent. */
  function CaptureValue(s: string, t: Tail): (r: string)
    ensures '\n' !in r && CharsFrom(r, s)
    ensures t.TailAt? && t.start <= |s| && '\n' !in s ==> r == s[t.start..]
  {
    match t
    case NoTail => ""
    case TailAt(g) =>
      if g <= |s| then
        var h := FirstIn(s[g..], {'\n'});
        s[g..][..h]
      else ""
  }

  // ---------------------------------------------------------------------
  // The four line patterns at a given '*'
  // ---------------------------------------------------------------------

  datatype TParamMatch = TParamMatch(star: nat, name: string, tail: Tail)

  datatype ParamMatch = ParamMatch(star: nat, direction: string, name: string, tail: Tail)

  datatype TagMatch = TagMatch(star: nat, tagName: string, tail: Tail)

  /** The white space after the '*' at q: where it ends, if there is any. */
  function AfterStar(s: string, q: nat): (r: Option<nat>)
    requires q < |s|
    ensures r.Some? ==> q + 1 < r.value <= |s| && (r.value < |s| ==> !IsSpace(s[r.value]))
    ensures r.Some? ==> forall k :: q < k < r.value ==> IsSpace(s[k])
    ensures r.None? <==> q + 1 == |s| || !IsSpace(s[q + 1])
  {
    var e := RunEnd(s, q + 1, IsSpace);
    if e == q + 1 then None else Some(e)
  }

  function TParamAt(s: string, tc: char, q: nat): (r: Option<TParamMatch>)
    requires q < |s| && s[q] == '*'
    ensures r.Some? ==> r.value.star == q && r.value.name != [] && forall k :: 0 <= k < |r.value.name| ==> IsWordChar(r.value.name[k])
  {
    match AfterStar(s, q)
    case None => None
    case Some(e) =>
      if !LiteralAt(s, e, [tc] + "tparam") then None
      else
        var a := e + 7;
        var b := RunEnd(s, a, IsSpace);
        if b == a then None
        else
          var c := RunEnd(s, b, IsWordChar);
          if c == b then None
          else
            match MatchTail(s, c)
            case None => None
            case Some(t) => Some(TParamMatch(q, s[b..c], t))
  }

  function ParamAt(s: string, tc: char, q: nat): (r: Option<ParamMatch>)
    requires q < |s| && s[q] == '*'
    ensures r.Some? ==> r.value.star == q && r.value.name != [] && forall k :: 0 <= k < |r.value.name| ==> IsWordChar(r.value.name[k])
    ensures r.Some? ==> |r.value.direction| >= 3 && r.value.direction[0] == '[' && r.value.direction[|r.value.direction| - 1] == ']'
  {
    match AfterStar(s, q)
    case None => None
    case Some(e) =>
      if !LiteralAt(s, e, [tc] + "param") then None
      else
        var a := e + 6;
        var b := RunEnd(s, a, IsSpace);
        if b == a || b == |s| || s[b] != '[' then None
        else
          match BracketEnd(s, b)
          case None => None
          case Some(d) =>
            BracketShape(s, b, d);
            ParamNameAt(s, q, s[b..d + 1], d + 1)
  }

  lemma BracketShape(s: string, b: nat, d: nat)
    requires b + 1 < d < |s| && s[b] == '[' && s[d] == ']'
    ensures var w := s[b..d + 1]; |w| >= 3 && w[0] == '[' && w[|w| - 1] == ']'
  {
  }

  /** The direction in brackets opened at b: where its ']' stands, if the brackets hold a name. */
  function BracketEnd(s: string, b: nat): (r: Option<nat>)
    requires b < |s|
    ensures r.Some? ==> b + 1 < r.value < |s| && s[r.value] == ']'
    ensures r.Some? ==> forall k :: b < k < r.value ==> IsDirChar(s[k])
  {
    var d := RunEnd(s, b + 1, IsDirChar);
    if d == b + 1 || d == |s| || s[d] != ']' then None else Some(d)
  }

  /** After the direction, ending at i: white space, the parameter's name and the tail. */
  function ParamNameAt(s: string, q: nat, direction: string, i: nat): (r: Option<ParamMatch>)
    requires i <= |s|
    ensures r.Some? ==> r.value.star == q && r.value.direction == direction
    ensures r.Some? ==> r.value.name != [] && forall k :: 0 <= k < |r.value.name| ==> IsWordChar(r.value.name[k])
  {
    var f := RunEnd(s, i, IsSpace);
    if f == i then None
    else
      var c := RunEnd(s, f, IsWordChar);
      if c == f then None
      else
        match MatchTail(s, c)
        case None => None
        case Some(t) => Some(ParamMatch(q, direction, s[f..c], t))
  }

  function TagAt(s: string, tc: char, q: nat): (r: Option<TagMatch>)
    requires q < |s| && s[q] == '*'
    ensures r.Some? ==> r.value.star == q && r.value.tagName != [] && forall k :: 0 <= k < |r.value.tagName| ==> IsLower(r.value.tagName[k])
  {
    match AfterStar(s, q)
    case None => None
    case Some(e) =>
      if !LiteralAt(s, e, [tc]) then None
      else
        var a := e + 1;
        var c := RunEnd(s, a, IsLower);
        if c == a then None
        else
          match MatchTail(s, c)
          case None => None
          case Some(t) => Some(TagMatch(q, s[a..c], t))
  }

  /**
   * "\s+(.+)$" after the '*' at q, on a text without line feeds: the capture
   * starts after the white space, or on its last character when nothing
   * else follows and the run is long enough to leave one for "\s+".
   */
  function TextAt(s: string, q: nat): (r: Option<nat>)
    requires q < |s| && s[q] == '*'
    ensures r.Some? ==> q + 1 < r.value < |s| && IsSpace(s[r.value - 1])
  {
    match AfterStar(s, q)
    case None => None
    case Some(e) =>
      if e < |s| then Some(e)
      else if e >= q + 3 then Some(e - 1)
      else None
  }

  // ---------------------------------------------------------------------
  // Leftmost search
  // ---------------------------------------------------------------------

  function FindTParamFrom(s: string, tc: char, q: nat): Option<TParamMatch>
    requires q <= |s|
    decreases |s| - q
  {
    if q == |s| then None
    else if s[q] == '*' && TParamAt(s, tc, q).Some? then TParamAt(s, tc, q)
    else FindTParamFrom(s, tc, q + 1)
  }

  function FindParamFrom(s: string, tc: char, q: nat): Option<ParamMatch>
    requires q <= |s|
    decreases |s| - q
  {
    if q == |s| then None
    else if s[q] == '*' && ParamAt(s, tc, q).Some? then ParamAt(s, tc, q)
    else FindParamFrom(s, tc, q + 1)
  }

  function FindTagFrom(s: string, tc: char, q: nat): Option<TagMatch>
    requires q <= |s|
    decreases |s| - q
  {
    if q == |s| then None
    else if s[q] == '*' && TagAt(s, tc, q).Some? then TagAt(s, tc, q)
    else FindTagFrom(s, tc, q + 1)
  }

  function FindTextFrom(s: string, q: nat): (r: Option<nat>)
    requires q <= |s|
    ensures r.Some? ==> q + 1 < r.value < |s|
    decreases |s| - q
  {
    if q == |s| then None
    else if s[q] == '*' && TextAt(s, q).Some? then TextAt(s, q)
    else FindTextFrom(s, q + 1)
  }

  // The searches find the match at the leftmost '*' where the pattern
  // matches, and fail only when it matches at none.

  lemma FindTParamLeftmost(s: string, tc: char, q: nat)
    requires q <= |s|
    ensures var r := FindTParamFrom(s, tc, q);
      && (r.Some? ==> q <= r.value.star < |s| && s[r.value.star] == '*' && TParamAt(s, tc, r.value.star) == r)
      && (r.Some? ==> forall k :: q <= k < r.value.star && s[k] == '*' ==> TParamAt(s, tc, k).None?)
      && (r.None? ==> forall k :: q <= k < |s| && s[k] == '*' ==> TParamAt(s, tc, k).None?)
  {
    FindTParamSound(s, tc, q);
    FindTParamFirst(s, tc, q);
  }

  lemma {:induction false} FindTParamSound(s: string, tc: char, q: nat)
    requires q <= |s|
    ensures var r := FindTParamFrom(s, tc, q);
      r.Some? ==> q <= r.value.star < |s| && s[r.value.star] == '*' && TParamAt(s, tc, r.value.star) == r
    decreases |s| - q
  {
    if q < |s| && !(s[q] == '*' && TParamAt(s, tc, q).Some?) {
      FindTParamSound(s, tc, q + 1);
    }
  }

  lemma {:induction false} FindTParamFirst(s: string, tc: char, q: nat)
    requires q <= |s|
    ensures var r := FindTParamFrom(s, tc, q);
      && (r.Some? ==> forall k :: q <= k < |s| && k < r.value.star && s[k] == '*' ==> TParamAt(s, tc, k).None?)
      && (r.None? ==> forall k :: q <= k < |s| && s[k] == '*' ==> TParamAt(s, tc, k).None?)
    decreases |s| - q
  {
    if q < |s| && !(s[q] == '*' && TParamAt(s, tc, q).Some?) {
      FindTParamFirst(s, tc, q + 1);
    }
  }

  lemma FindParamLeftmost(s: string, tc: char, q: nat)
    requires q <= |s|
    ensures var r := FindParamFrom(s, tc, q);
      && (r.Some? ==> q <= r.value.star < |s| && s[r.value.star] == '*' && ParamAt(s, tc, r.value.star) == r)
      && (r.Some? ==> forall k :: q <= k < r.value.star && s[k] == '*' ==> ParamAt(s, tc, k).None?)
      && (r.None? ==> forall k :: q <= k < |s| && s[k] == '*' ==> ParamAt(s, tc, k).None?)
  {
    FindParamSound(s, tc, q);
    FindParamFirst(s, tc, q);
  }

  lemma {:induction false} FindParamSound(s: string, tc: char, q: nat)
    requires q <= |s|
    ensures var r := FindParamFrom(s, tc, q);
      r.Some? ==> q <= r.value.star < |s| && s[r.value.star] == '*' && ParamAt(s, tc, r.value.star) == r
    decreases |s| - q
  {
    if q < |s| && !(s[q] == '*' && ParamAt(s, tc, q).Some?) {
      FindParamSound(s, tc, q + 1);
    }
  }

  lemma {:induction false} FindParamFirst(s: string, tc: char, q: nat)
    requires q <= |s|
    ensures var r := FindParamFrom(s, tc, q);
      && (r.Some? ==> forall k :: q <= k < |s| && k < r.value.star && s[k] == '*' ==> ParamAt(s, tc, k).None?)
      && (r.None? ==> forall k :: q <= k < |s| && s[k] == '*' ==> ParamAt(s, tc, k).None?)
    decreases |s| - q
  {
    if q < |s| && !(s[q] == '*' && ParamAt(s, tc, q).Some?) {
      FindParamFirst(s, tc, q + 1);
    }
  }

  /** A recognised tag name is made of lower-case letters only. */
  lemma MatchTagLower(s: string, tc: char)
    ensures MatchTag(s, tc).Some? ==> forall k :: 0 <= k < |MatchTag(s, tc).value.tagName| ==> IsLower(MatchTag(s, tc).value.tagName[k])
  {
    FindTagLeftmost(s, tc, 0);
  }

  lemma FindTagLeftmost(s: string, tc: char, q: nat)
    requires q <= |s|
    ensures var r := FindTagFrom(s, tc, q);
      && (r.Some? ==> q <= r.value.star < |s| && s[r.value.star] == '*' && TagAt(s, tc, r.value.star) == r)
      && (r.Some? ==> forall k :: q <= k < r.value.star && s[k] == '*' ==> TagAt(s, tc, k).None?)
      && (r.None? ==> forall k :: q <= k < |s| && s[k] == '*' ==> TagAt(s, tc, k).None?)
  {
    FindTagSound(s, tc, q);
    FindTagFirst(s, tc, q);
  }

  lemma {:induction false} FindTagSound(s: string, tc: char, q: nat)
    requires q <= |s|
    ensures var r := FindTagFrom(s, tc, q);
      r.Some? ==> q <= r.value.star < |s| && s[r.value.star] == '*' && TagAt(s, tc, r.value.star) == r
    decreases |s| - q
  {
    if q < |s| && !(s[q] == '*' && TagAt(s, tc, q).Some?) {
      FindTagSound(s, tc, q + 1);
    }
  }

  lemma {:induction false} FindTagFirst(s: string, tc: char, q: nat)
    requires q <= |s|
    ensures var r := FindTagFrom(s, tc, q);
      && (r.Some? ==> forall k :: q <= k < |s| && k < r.value.star && s[k] == '*' ==> TagAt(s, tc, k).None?)
      && (r.None? ==> forall k :: q <= k < |s| && s[k] == '*' ==> TagAt(s, tc, k).None?)
    decreases |s| - q
  {
    if q < |s| && !(s[q] == '*' && TagAt(s, tc, q).Some?) {
      FindTagFirst(s, tc, q + 1);
    }
  }

  lemma {:induction false} FindTextLeftmost(s: string, q: nat)
    requires q <= |s|
    ensures var r := FindTextFrom(s, q);
      && (r.Some? ==> exists k :: q <= k < |s| && s[k] == '*' && TextAt(s, k) == r
                        && forall k' :: q <= k' < k && s[k'] == '*' ==> TextAt(s, k').None?)
      && (r.None? ==> forall k :: q <= k < |s| && s[k] == '*' ==> TextAt(s, k).None?)
    decreases |s| - q
  {
    if q < |s| {
      if s[q] == '*' && TextAt(s, q).Some? {
        assert q <= q < |s| && s[q] == '*' && TextAt(s, q) == FindTextFrom(s, q);
      } else {
        FindTextLeftmost(s, q + 1);
        var r := FindTextFrom(s, q);
        if r.Some? {
          var k :| q + 1 <= k < |s| && s[k] == '*' && TextAt(s, k) == r
                   && forall k' :: q + 1 <= k' < k && s[k'] == '*' ==> TextAt(s, k').None?;
          assert q <= k < |s| && s[k] == '*' && TextAt(s, k) == r;
        }
      }
    }
  }

  /** The tparam pattern, unanchored: a match is the pattern at some '*' of the line. */
  function MatchTParam(s: string, tc: char): (r: Option<TParamMatch>)
    ensures r.Some? ==> r.value.star < |s| && s[r.value.star] == '*' && TParamAt(s, tc, r.value.star) == r
  {
    FindTParamLeftmost(s, tc, 0);
    FindTParamFrom(s, tc, 0)
  }

  /** The param pattern, unanchored: a match is the pattern at some '*' of the line. */
  function MatchParam(s: string, tc: char): (r: Option<ParamMatch>)
    ensures r.Some? ==> r.value.star < |s| && s[r.value.star] == '*' && ParamAt(s, tc, r.value.star) == r
  {
    FindParamLeftmost(s, tc, 0);
    FindParamFrom(s, tc, 0)
  }

  /** The tag pattern, unanchored: a match is the pattern at some '*' of the line. */
  function MatchTag(s: string, tc: char): (r: Option<TagMatch>)
    ensures r.Some? ==> r.value.star < |s| && s[r.value.star] == '*' && TagAt(s, tc, r.value.star) == r
  {
    FindTagLeftmost(s, tc, 0);
    FindTagFrom(s, tc, 0)
  }

  /** The text pattern, used on lines without line feeds; the result is the captured text. */
  function MatchText(s: string): (r: Option<string>)
    requires '\n' !in s
    ensures r.Some? ==> 0 < |r.value| < |s| && r.value == s[|s| - |r.value|..]
  {
    match FindTextFrom(s, 0)
    case None => None
    case Some(g) => Some(s[g..])
  }

  /** The captured text is a non-empty proper suffix of the line. */
  lemma MatchTextSuffix(s: string)
    requires '\n' !in s
    ensures MatchText(s).Some? ==> var t := MatchText(s).value;
      t != [] && |t| < |s| && t == s[|s| - |t|..] && CharsFrom(t, s)
  {
    if MatchText(s).Some? {
      var g := FindTextFrom(s, 0).value;
      var t := s[g..];
      forall k | 0 <= k < |t| ensures t[k] in s {
        assert t[k] == s[g + k];
      }
    }
  }

  // ---------------------------------------------------------------------
  // A tparam or param line is also a tag line
  // ---------------------------------------------------------------------

  /** A run is determined by where its class stops holding. */
  lemma {:induction false} RunEndAt(s: string, i: nat, j: nat, p: char -> bool)
    requires i <= j <= |s|
    requires forall k :: i <= k < j ==> p(s[k])
    requires j < |s| ==> !p(s[j])
    ensures RunEnd(s, i, p) == j
    decreases j - i
  {
    if i < j {
      RunEndAt(s, i + 1, j, p);
    }
  }

  /** Where a tag word w is followed by white space, the tag pattern matches at the same '*'. */
  lemma TagAtWord(s: string, tc: char, q: nat, e: nat, w: string)
    requires q < |s| && s[q] == '*' && '\n' !in s
    requires AfterStar(s, q) == Some(e) && LiteralAt(s, e, [tc] + w)
    requires w != [] && forall k :: 0 <= k < |w| ==> IsLower(w[k])
    requires e + 1 + |w| < |s| && IsSpace(s[e + 1 + |w|])
    ensures TagAt(s, tc, q).Some? && TagAt(s, tc, q).value.tagName == w
  {
    var a := e + 1;
    var c := a + |w|;
    assert s[e..e + 1 + |w|] == [tc] + w;
    forall k | a <= k < c ensures IsLower(s[k]) {
      assert s[k] == ([tc] + w)[k - e];
    }
    assert !IsLower(s[c]);
    RunEndAt(s, a, c, IsLower);
    assert LiteralAt(s, e, [tc]);
    assert s[a..c] == w by {
      forall k | 0 <= k < |w| ensures s[a + k] == w[k] {
        assert s[a + k] == ([tc] + w)[1 + k];
      }
    }
  }

  lemma TParamAtIsTag(s: string, tc: char, q: nat)
    requires q < |s| && s[q] == '*' && '\n' !in s && TParamAt(s, tc, q).Some?
    ensures TagAt(s, tc, q).Some? && TagAt(s, tc, q).value.tagName == "tparam"
  {
    var e := AfterStar(s, q).value;
    TagAtWord(s, tc, q, e, "tparam");
  }

  lemma ParamAtIsTag(s: string, tc: char, q: nat)
    requires q < |s| && s[q] == '*' && '\n' !in s && ParamAt(s, tc, q).Some?
    ensures TagAt(s, tc, q).Some? && TagAt(s, tc, q).value.tagName == "param"
  {
    var e := AfterStar(s, q).value;
    TagAtWord(s, tc, q, e, "param");
  }

  /**
   * On a line without line feeds, a line the tparam or the param pattern
   * accepts is accepted by the tag pattern as well, so the tag pattern can
   * stand for "any tag line".
   */
  lemma TParamOrParamIsTag(s: string, tc: char)
    requires '\n' !in s
    ensures MatchTParam(s, tc).Some? ==> MatchTag(s, tc).Some?
    ensures MatchParam(s, tc).Some? ==> MatchTag(s, tc).Some?
  {
    FindTParamLeftmost(s, tc, 0);
    FindParamLeftmost(s, tc, 0);
    FindTagLeftmost(s, tc, 0);
    if MatchTParam(s, tc).Some? {
      TParamAtIsTag(s, tc, MatchTParam(s, tc).value.star);
    }
    if MatchParam(s, tc).Some? {
      ParamAtIsTag(s, tc, MatchParam(s, tc).value.star);
    }
  }
}
