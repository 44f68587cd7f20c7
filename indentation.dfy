/**
 * Smart indentation (GenerateIndentation): when a new line is started
 * inside a comment, the caret is moved under the text of the tag line
 * above it. The offsets are the editor's 1-based character offsets, so
 * the 0-based index g of the trailing capture is column g + 1.
 */
module Indentation {
  import opened Wrappers
  import opened Strings
  import opened Config
  import opened CommentGrammar

  /**
   * The trailing capture of the pattern that decides: the tparam pattern
   * if it matches the previous line, else the param pattern, else the tag
   * pattern; None when no pattern matches.
   */
  function DecidingTail(prevLine: string, tc: char): (r: Option<Tail>)
    ensures r.Some? <==> MatchTParam(prevLine, tc).Some? || MatchParam(prevLine, tc).Some? || MatchTag(prevLine, tc).Some?
  {
    match MatchTParam(prevLine, tc)
    case Some(m) => Some(m.tail)
    case None =>
      match MatchParam(prevLine, tc)
      case Some(m) => Some(m.tail)
      case None =>
        match MatchTag(prevLine, tc)
        case Some(m) => Some(m.tail)
        case None => None
  }

  /** The outcome for a line whose deciding capture starts at index g. */
  function Decide(curOffset: int, g: int): (bool, int) {
    if g - curOffset > 0 then (true, g + 1) else (false, curOffset)
  }

  /**
   * GenerateIndentation: success and the new offset. It succeeds exactly
   * when a pattern decides and its capture starts right of the caret, and
   * then names the column of the capture; otherwise the offset is kept.
   */
  function GenerateIndentation(cfg: DoxygenConfig, curOffset: int, prevLine: string): (r: (bool, int))
    ensures var t := DecidingTail(prevLine, cfg.TagChar());
            r.0 <==> t.Some? && CaptureIndex(t.value) > curOffset
    ensures !r.0 ==> r.1 == curOffset
    ensures r.0 ==> r.1 == CaptureIndex(DecidingTail(prevLine, cfg.TagChar()).value) + 1 && r.1 > curOffset + 1
    // The patterns are tried in order and the first that matches decides,
    // even when its capture is left of the caret and a later one's is not.
    ensures var tc := cfg.TagChar();
            && (MatchTParam(prevLine, tc).Some? ==>
                  r == Decide(curOffset, CaptureIndex(MatchTParam(prevLine, tc).value.tail)))
            && (MatchTParam(prevLine, tc).None? && MatchParam(prevLine, tc).Some? ==>
                  r == Decide(curOffset, CaptureIndex(MatchParam(prevLine, tc).value.tail)))
            && (MatchTParam(prevLine, tc).None? && MatchParam(prevLine, tc).None? && MatchTag(prevLine, tc).Some? ==>
                  r == Decide(curOffset, CaptureIndex(MatchTag(prevLine, tc).value.tail)))
            && (MatchTag(prevLine, tc).None? && MatchTParam(prevLine, tc).None? && MatchParam(prevLine, tc).None? ==>
                  r == (false, curOffset))
  {
    match DecidingTail(prevLine, cfg.TagChar())
    case None => (false, curOffset)
    case Some(t) => Decide(curOffset, CaptureIndex(t))
  }

  /** Only a line the tag pattern accepts can move the caret. */
  lemma OnlyTagLinesIndent(cfg: DoxygenConfig, curOffset: int, prevLine: string)
    requires '\n' !in prevLine
    requires MatchTag(prevLine, cfg.TagChar()).None?
    ensures GenerateIndentation(cfg, curOffset, prevLine) == (false, curOffset)
  {
    TParamOrParamIsTag(prevLine, cfg.TagChar());
  }

  // ---------------------------------------------------------------------
  // Where the caret lands
  // ---------------------------------------------------------------------

  /** A trailing capture that is present starts inside the line, right after white space. */
  predicate TailInLine(s: string, t: Tail) {
    t.TailAt? ==> 0 < t.start <= |s| && IsSpace(s[t.start - 1])
  }

  lemma {:induction false} TParamTailInLine(s: string, tc: char, q: nat)
    requires q <= |s| && FindTParamFrom(s, tc, q).Some?
    ensures TailInLine(s, FindTParamFrom(s, tc, q).value.tail)
    decreases |s| - q
  {
    if !(s[q] == '*' && TParamAt(s, tc, q).Some?) {
      TParamTailInLine(s, tc, q + 1);
    }
  }

  lemma {:induction false} ParamTailInLine(s: string, tc: char, q: nat)
    requires q <= |s| && FindParamFrom(s, tc, q).Some?
    ensures TailInLine(s, FindParamFrom(s, tc, q).value.tail)
    decreases |s| - q
  {
    if !(s[q] == '*' && ParamAt(s, tc, q).Some?) {
      ParamTailInLine(s, tc, q + 1);
    }
  }

  lemma {:induction false} TagTailInLine(s: string, tc: char, q: nat)
    requires q <= |s| && FindTagFrom(s, tc, q).Some?
    ensures TailInLine(s, FindTagFrom(s, tc, q).value.tail)
    decreases |s| - q
  {
    if !(s[q] == '*' && TagAt(s, tc, q).Some?) {
      TagTailInLine(s, tc, q + 1);
    }
  }

  /**
   * With the caret at a column (offset at least 1), a successful
   * indentation lands on a column of the previous line that directly
   * follows white space: the start of the tag's trailing text.
   */
  lemma IndentLandsAfterSpace(cfg: DoxygenConfig, curOffset: int, prevLine: string)
    requires curOffset >= 1
    requires GenerateIndentation(cfg, curOffset, prevLine).0
    ensures var n := GenerateIndentation(cfg, curOffset, prevLine).1;
            2 <= n <= |prevLine| + 1 && IsSpace(prevLine[n - 2])
  {
    var tc := cfg.TagChar();
    if MatchTParam(prevLine, tc).Some? {
      TParamTailInLine(prevLine, tc, 0);
    } else if MatchParam(prevLine, tc).Some? {
      ParamTailInLine(prevLine, tc, 0);
    } else {
      TagTailInLine(prevLine, tc, 0);
    }
  }
}
