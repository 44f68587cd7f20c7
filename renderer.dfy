/**
 * Writing a Doxygen comment block (GenerateComment and its Write*Comment
 * helpers, AppendComments, UseSingleLineComment, GenerateTagString).
 *
 * The source appends to one StringBuilder; here the builder is a string
 * that every method takes and returns extended. What a block consists of
 * is described by a sequence of pieces: a line break, plain text, or the
 * text of a tag (the "@param [in] name " part of a line). Flatten turns
 * the pieces into the characters the builder receives, so every method is
 * proved to append Flatten of its specification, while alignment, the
 * presence of lines and the single-line collapse are proved on the pieces.
 */
module Renderer {
  import opened Wrappers
  import opened Strings
  import opened Config
  import opened CodeModel
  import opened ParamDirections
  import opened CommentParser
  import opened Heuristics

  // ---------------------------------------------------------------------
  // Pieces of a comment block
  // ---------------------------------------------------------------------

  datatype Piece = Break | Text(s: string) | Tag(s: string)

  /** The line break the builder receives. */
  const NewLine: string := "\r\n"

  function PieceString(p: Piece, nl: string): string {
    match p
    case Break => nl
    case Text(s) => s
    case Tag(s) => s
  }

  /** The characters of the pieces, line breaks spelled nl. */
  function Flatten(ps: seq<Piece>, nl: string): string
    decreases |ps|
  {
    if ps == [] then "" else PieceString(ps[0], nl) + Flatten(ps[1..], nl)
  }

  lemma {:induction false} FlattenAppend(a: seq<Piece>, b: seq<Piece>, nl: string)
    ensures Flatten(a + b, nl) == Flatten(a, nl) + Flatten(b, nl)
    decreases |a|
  {
    if a == [] {
      assert a + b == b;
    } else {
      assert (a + b)[1..] == a[1..] + b;
      FlattenAppend(a[1..], b, nl);
    }
  }

  lemma FlattenCons(p: Piece, rest: seq<Piece>, nl: string)
    ensures Flatten([p] + rest, nl) == PieceString(p, nl) + Flatten(rest, nl)
  {
    assert ([p] + rest)[1..] == rest;
  }

  lemma FlattenOne(p: Piece, nl: string)
    ensures Flatten([p], nl) == PieceString(p, nl)
  {
    FlattenCons(p, [], nl);
  }

  /** Flatten of a small fixed sequence of pieces. */
  lemma FlattenTwo(p: Piece, q: Piece, nl: string)
    ensures Flatten([p, q], nl) == PieceString(p, nl) + PieceString(q, nl)
  {
    FlattenCons(p, [q], nl);
    FlattenOne(q, nl);
  }

  lemma FlattenThree(p: Piece, q: Piece, u: Piece, nl: string)
    ensures Flatten([p, q, u], nl) == PieceString(p, nl) + PieceString(q, nl) + PieceString(u, nl)
  {
    assert [p, q, u] == [p] + [q, u];
    FlattenCons(p, [q, u], nl);
    FlattenTwo(q, u, nl);
  }

  /** Extending a builder by the pieces of b after it holds those of a. */
  lemma FlattenExtend(sb: string, a: seq<Piece>, b: seq<Piece>, nl: string)
    ensures sb + Flatten(a + b, nl) == (sb + Flatten(a, nl)) + Flatten(b, nl)
  {
    FlattenAppend(a, b, nl);
  }

  /** A new comment line: line break, the indentation, " *  " and a tag. */
  function TagLine(spaces: string, tagLine: string): seq<Piece> {
    [Break, Text(spaces + " *  "), Tag(tagLine)]
  }

  /** A new comment line holding text. */
  function TextLine(spaces: string, text: string): seq<Piece> {
    [Break, Text(spaces + " *  " + text)]
  }

  /** The empty " *" line that separates groups. */
  function BlankLine(spaces: string): seq<Piece> {
    [Break, Text(spaces + " *")]
  }

  lemma FlattenTagLine(spaces: string, tagLine: string)
    ensures Flatten(TagLine(spaces, tagLine), NewLine) == "\r\n" + spaces + " *  " + tagLine
  {
    FlattenThree(Break, Text(spaces + " *  "), Tag(tagLine), NewLine);
  }

  lemma FlattenTextLine(spaces: string, text: string)
    ensures Flatten(TextLine(spaces, text), NewLine) == "\r\n" + spaces + " *  " + text
  {
    FlattenTwo(Break, Text(spaces + " *  " + text), NewLine);
  }

  lemma FlattenBlankLine(spaces: string)
    ensures Flatten(BlankLine(spaces), NewLine) == "\r\n" + spaces + " *"
  {
    FlattenTwo(Break, Text(spaces + " *"), NewLine);
  }

  // ---------------------------------------------------------------------
  // AppendComments
  // ---------------------------------------------------------------------

  /** One further line per comment, each indented by indent after " *  ". */
  function Continuations(comments: seq<string>, spaces: string, indent: string): seq<Piece>
    decreases |comments|
  {
    if comments == [] then []
    else Continuations(comments[..|comments| - 1], spaces, indent) + TextLine(spaces, indent + comments[|comments| - 1])
  }

  /**
   * The text AppendComments writes: the first comment where the builder
   * stands, every further one on a line of its own, indented by
   * indentCount spaces so that it lines up under the first.
   */
  function CommentBlock(comments: seq<string>, spaces: string, indentCount: nat): seq<Piece>
    requires |comments| > 0
  {
    [Text(comments[0])] + Continuations(comments[1..], spaces, Spaces(indentCount))
  }

  lemma {:induction false} ContinuationsShape(comments: seq<string>, spaces: string, indent: string)
    ensures var ps := Continuations(comments, spaces, indent);
      && |ps| == 2 * |comments|
      && forall k :: 0 <= k < |comments| ==>
           ps[2 * k] == Break && ps[2 * k + 1] == Text(spaces + " *  " + indent + comments[k])
    decreases |comments|
  {
    if comments != [] {
      var init := comments[..|comments| - 1];
      ContinuationsShape(init, spaces, indent);
      var ps := Continuations(comments, spaces, indent);
      var ps0 := Continuations(init, spaces, indent);
      assert ps == ps0 + TextLine(spaces, indent + comments[|comments| - 1]);
      forall k | 0 <= k < |comments|
        ensures ps[2 * k] == Break && ps[2 * k + 1] == Text(spaces + " *  " + indent + comments[k])
      {
        if k < |init| {
          assert ps[2 * k] == ps0[2 * k] && ps[2 * k + 1] == ps0[2 * k + 1];
          assert comments[k] == init[k];
        }
      }
    }
  }

  /**
   * The block is one piece for the first comment, then a line break and a
   * line for each further comment k, which holds comments[k] after the
   * indentation, " *  " and indentCount spaces.
   */
  lemma CommentBlockShape(comments: seq<string>, spaces: string, indentCount: nat)
    requires |comments| > 0
    ensures var ps := CommentBlock(comments, spaces, indentCount);
      && |ps| == 2 * |comments| - 1
      && ps[0] == Text(comments[0])
      && forall k :: 1 <= k < |comments| ==>
           ps[2 * k - 1] == Break && ps[2 * k] == Text(spaces + " *  " + Spaces(indentCount) + comments[k])
  {
    var rest := comments[1..];
    ContinuationsShape(rest, spaces, Spaces(indentCount));
    var ps := CommentBlock(comments, spaces, indentCount);
    forall k | 1 <= k < |comments|
      ensures ps[2 * k - 1] == Break && ps[2 * k] == Text(spaces + " *  " + Spaces(indentCount) + comments[k])
    {
      assert rest[k - 1] == comments[k];
      assert 2 * k - 1 == 1 + 2 * (k - 1);
    }
  }

  /** AppendComments: the loop over the comments after the first. */
  method AppendComments(sb: string, comments: seq<string>, spaces: string, indentCount: nat) returns (r: string)
    requires |comments| > 0
    ensures r == sb + Flatten(CommentBlock(comments, spaces, indentCount), NewLine)
  {
    // First comment line as a special case: no indentation is written.
    r := sb + comments[0];
    FlattenOne(Text(comments[0]), NewLine);
    var indentString := Spaces(indentCount);
    var i := 1;
    while i < |comments|
      invariant 1 <= i <= |comments|
      invariant r == sb + Flatten([Text(comments[0])] + Continuations(comments[1..i], spaces, indentString), NewLine)
    {
      BlockStep(sb, comments, spaces, indentString, i);
      r := r + ("\r\n" + spaces + " *  " + indentString + comments[i]);
      i := i + 1;
    }
    assert comments[1..i] == comments[1..];
  }

  /** One turn of the AppendComments loop. */
  lemma BlockStep(sb: string, comments: seq<string>, spaces: string, indent: string, i: nat)
    requires 1 <= i < |comments|
    ensures sb + Flatten([Text(comments[0])] + Continuations(comments[1..i + 1], spaces, indent), NewLine)
         == (sb + Flatten([Text(comments[0])] + Continuations(comments[1..i], spaces, indent), NewLine))
            + ("\r\n" + spaces + " *  " + indent + comments[i])
  {
    var head := [Text(comments[0])] + Continuations(comments[1..i], spaces, indent);
    var line := TextLine(spaces, indent + comments[i]);
    assert comments[1..i + 1][..i - 1] == comments[1..i];
    assert [Text(comments[0])] + Continuations(comments[1..i + 1], spaces, indent) == head + line;
    FlattenExtend(sb, head, line, NewLine);
    FlattenTextLine(spaces, indent + comments[i]);
  }

  // ---------------------------------------------------------------------
  // Tag strings and the single-line switch
  // ---------------------------------------------------------------------

  /** GenerateTagString: the tag indentation, the tag character, the tag and one space. */
  function GenerateTagString(cfg: DoxygenConfig, tag: string): (r: string)
    ensures |r| == cfg.tagIndentation + |tag| + 2 && r[cfg.tagIndentation] == cfg.TagChar()
    ensures r[cfg.tagIndentation + 1..|r| - 1] == tag
  {
    Spaces(cfg.tagIndentation) + [cfg.TagChar()] + tag + " "
  }

  /** UseSingleLineComment: the switch is on and there is no element, or it is a variable. */
  predicate UseSingleLineComment(cfg: DoxygenConfig, e: Option<CodeElement>)
    ensures UseSingleLineComment(cfg, e) ==> cfg.useSingleLineComment && (e.None? || !e.value.IsFunction())
  {
    cfg.useSingleLineComment && (e.None? || e.value.IsVariable())
  }

  function ReturnTagLine(cfg: DoxygenConfig): string {
    Spaces(cfg.tagIndentation) + [cfg.TagChar()] + "return "
  }

  // ---------------------------------------------------------------------
  // The brief part
  // ---------------------------------------------------------------------

  /** WriteBriefComment consults TryGenerateBriefDesc only with smart comments on and no brief line. */
  predicate BriefDescUsed(cfg: DoxygenConfig, brief: seq<string>) {
    cfg.smartComments && brief == []
  }

  /** The name splits into words whenever the synthesised brief is consulted. */
  predicate BriefRenderable(cfg: DoxygenConfig, e: Option<CodeElement>, brief: seq<string>) {
    BriefDescUsed(cfg, brief) ==> BriefDescDefined(e)
  }

  /** The synthesised brief where WriteBriefComment asks for it, and "" (never written) elsewhere. */
  function BriefDesc(cfg: DoxygenConfig, e: Option<CodeElement>, brief: seq<string>): string
    requires BriefRenderable(cfg, e, brief)
  {
    if BriefDescUsed(cfg, brief) then TryGenerateBriefDesc(cfg, e) else ""
  }

  /**
   * WriteBriefComment, as pieces: single tells whether the block is a
   * one-liner, desc is the synthesised brief used when there is none.
   */
  function BriefPieces(cfg: DoxygenConfig, spaces: string, single: bool, brief: seq<string>, desc: string): seq<Piece> {
    var smart := if cfg.smartComments then [Text(desc)] else [];
    if cfg.useBriefTag then
      var tagLine := if !single || cfg.useSingleLineBrief then GenerateTagString(cfg, "brief") else "";
      var head :=
        if !single then TagLine(spaces, tagLine)
        else if cfg.useSingleLineBrief then [Text(" "), Tag(tagLine)]
        else [];
      head + (if |brief| > 0 then CommentBlock(brief, spaces, |tagLine|) else smart)
    else if |brief| > 0 then Continuations(brief, spaces, "")
    else TextLine(spaces, "") + smart
  }

  // ---------------------------------------------------------------------
  // Template parameters
  // ---------------------------------------------------------------------

  /** The largest length among the names (0 for none), as the Math.Max loops compute it. */
  function MaxLength(names: seq<string>): (r: nat)
    ensures forall k :: 0 <= k < |names| ==> |names[k]| <= r
    ensures names == [] ==> r == 0
    decreases |names|
  {
    if names == [] then 0
    else
      var m := MaxLength(names[..|names| - 1]);
      var n := |names[|names| - 1]|;
      if m < n then n else m
  }

  /** The maximum is the length of one of the names. */
  lemma {:induction false} MaxLengthAttained(names: seq<string>) returns (k: nat)
    requires names != []
    ensures k < |names| && |names[k]| == MaxLength(names)
    decreases |names|
  {
    var init := names[..|names| - 1];
    if init == [] || MaxLength(init) < |names[|names| - 1]| {
      k := |names| - 1;
    } else {
      k := MaxLengthAttained(init);
      assert names[k] == init[k];
    }
  }

  /** The tag of one template parameter: its name padded to maxLen plus one space. */
  function TParamTagLine(cfg: DoxygenConfig, name: string, maxLen: nat): string
    requires |name| <= maxLen
  {
    Spaces(cfg.tagIndentation) + [cfg.TagChar()] + "tparam " + name + Spaces(maxLen - |name| + 1)
  }

  /** One template parameter line, followed by its existing comment if there is one. */
  function TParamEntry(cfg: DoxygenConfig, spaces: string, name: string, tparams: map<string, ParsedParam>, maxLen: nat): seq<Piece>
    requires |name| <= maxLen && GoodParams(tparams)
  {
    var tagLine := TParamTagLine(cfg, name, maxLen);
    TagLine(spaces, tagLine)
    + (if name in tparams then CommentBlock(tparams[name].comments, spaces, |tagLine|) else [])
  }

  function TParamEntries(cfg: DoxygenConfig, spaces: string, names: seq<string>, tparams: map<string, ParsedParam>, maxLen: nat): seq<Piece>
    requires forall k :: 0 <= k < |names| ==> |names[k]| <= maxLen
    requires GoodParams(tparams)
    decreases |names|
  {
    if names == [] then []
    else
      TParamEntries(cfg, spaces, names[..|names| - 1], tparams, maxLen)
      + TParamEntry(cfg, spaces, names[|names| - 1], tparams, maxLen)
  }

  /** WriteTemplateParamComments, as pieces: nothing without template arguments. */
  function TemplateParamPieces(cfg: DoxygenConfig, spaces: string, e: CodeElement, tparams: map<string, ParsedParam>): seq<Piece>
    requires GoodParams(tparams)
  {
    var names := ParseTemplateParams(e.fullName);
    if names == [] then []
    else BlankLine(spaces) + TParamEntries(cfg, spaces, names, tparams, MaxLength(names))
  }

  // ---------------------------------------------------------------------
  // Function parameters
  // ---------------------------------------------------------------------

  function ParsedFor(params: map<string, ParsedParam>, name: string): (r: Option<ParsedParam>)
    ensures r.Some? <==> name in params
    ensures r.Some? ==> r.value == params[name]
  {
    if name in params then Some(params[name]) else None
  }

  /** The direction marker written for p. */
  function DirName(f: CodeElement, p: Parameter, params: map<string, ParsedParam>): string {
    DirectionToString(GetParamDirection(f, p, ParsedFor(params, p.name)))
  }

  /** The direction markers of the parameters, in order. */
  function DirNames(f: CodeElement, ps: seq<Parameter>, params: map<string, ParsedParam>): (r: seq<string>)
    ensures |r| == |ps|
    decreases |ps|
  {
    if ps == [] then []
    else DirNames(f, ps[..|ps| - 1], params) + [DirName(f, ps[|ps| - 1], params)]
  }

  lemma {:induction false} DirNamesAt(f: CodeElement, ps: seq<Parameter>, params: map<string, ParsedParam>, k: nat)
    requires k < |ps|
    ensures DirNames(f, ps, params)[k] == DirName(f, ps[k], params)
    decreases |ps|
  {
    if k < |ps| - 1 {
      DirNamesAt(f, ps[..|ps| - 1], params, k);
    }
  }

  function MaxNameLength(ps: seq<Parameter>): (r: nat)
    ensures forall k :: 0 <= k < |ps| ==> |ps[k].name| <= r
    decreases |ps|
  {
    if ps == [] then 0
    else
      var m := MaxNameLength(ps[..|ps| - 1]);
      var n := |ps[|ps| - 1].name|;
      if m < n then n else m
  }

  /** The tag of one parameter: the marker padded to maxDir, then the name padded to maxName, one space each. */
  function ParamTagLine(cfg: DoxygenConfig, dir: string, maxDir: nat, name: string, maxName: nat): string
    requires |dir| <= maxDir && |name| <= maxName
  {
    Spaces(cfg.tagIndentation) + [cfg.TagChar()] + "param " + dir + Spaces(maxDir - |dir| + 1) + name + Spaces(maxName - |name| + 1)
  }

  /**
   * The description synthesised for a parameter without comment. Only a
   * function with exactly one parameter gets one, so it is computed once,
   * for that parameter.
   */
  function SmartParamDesc(cfg: DoxygenConfig, f: CodeElement): string {
    if |f.parameters| == 1 then TryGenerateParamDesc(cfg, f, f.parameters[0]) else ""
  }

  /**
   * One parameter line: its existing comment if there is one, otherwise
   * smartDesc (SmartParamDesc, in a block) when smart comments are on and
   * the function has exactly one parameter.
   */
  function ParamEntry(cfg: DoxygenConfig, spaces: string, f: CodeElement, p: Parameter, params: map<string, ParsedParam>, maxDir: nat, maxName: nat, smartDesc: string): seq<Piece>
    requires |DirName(f, p, params)| <= maxDir && |p.name| <= maxName
    requires GoodParams(params)
  {
    var tagLine := ParamTagLine(cfg, DirName(f, p, params), maxDir, p.name, maxName);
    TagLine(spaces, tagLine)
    + (match ParsedFor(params, p.name)
       case Some(pp) => CommentBlock(pp.comments, spaces, |tagLine|)
       case None =>
         if cfg.smartComments && |f.parameters| == 1 then [Text(smartDesc)] else [])
  }

  /** Every direction marker fits in maxDir and every name in maxName. */
  predicate Fits(f: CodeElement, params: map<string, ParsedParam>, maxDir: nat, maxName: nat) {
    forall k :: 0 <= k < |f.parameters| ==> |DirName(f, f.parameters[k], params)| <= maxDir && |f.parameters[k].name| <= maxName
  }

  /** The entries of the first n parameters. */
  function ParamEntries(cfg: DoxygenConfig, spaces: string, f: CodeElement, params: map<string, ParsedParam>, maxDir: nat, maxName: nat, smartDesc: string, n: nat): seq<Piece>
    requires n <= |f.parameters| && Fits(f, params, maxDir, maxName)
    requires GoodParams(params)
    decreases n
  {
    if n == 0 then []
    else
      ParamEntries(cfg, spaces, f, params, maxDir, maxName, smartDesc, n - 1)
      + ParamEntry(cfg, spaces, f, f.parameters[n - 1], params, maxDir, maxName, smartDesc)
  }

  /** The widest marker and the longest name are bounds for every parameter. */
  lemma ParamsFit(f: CodeElement, params: map<string, ParsedParam>)
    ensures Fits(f, params, MaxLength(DirNames(f, f.parameters, params)), MaxNameLength(f.parameters))
  {
    var dirs := DirNames(f, f.parameters, params);
    forall k | 0 <= k < |f.parameters|
      ensures |DirName(f, f.parameters[k], params)| <= MaxLength(dirs)
    {
      DirNamesAt(f, f.parameters, params, k);
    }
  }

  /** WriteParamComments, as pieces: nothing for a function without parameters. */
  function ParamPieces(cfg: DoxygenConfig, spaces: string, f: CodeElement, params: map<string, ParsedParam>): seq<Piece>
    requires GoodParams(params)
  {
    var ps := f.parameters;
    if |ps| > 0 then
      var maxDir := MaxLength(DirNames(f, ps, params));
      var maxName := MaxNameLength(ps);
      ParamsFit(f, params);
      BlankLine(spaces) + ParamEntries(cfg, spaces, f, params, maxDir, maxName, SmartParamDesc(cfg, f), |ps|)
    else []
  }

  // ---------------------------------------------------------------------
  // Return value and other sections
  // ---------------------------------------------------------------------

  /** WriteReturnComment, as pieces: nothing for a void function. */
  function ReturnPieces(cfg: DoxygenConfig, spaces: string, f: CodeElement, returnSection: Option<ParsedSection>): seq<Piece>
    requires returnSection.Some? ==> |returnSection.value.comments| > 0
  {
    if f.typeName != "void" then
      var tagLine := ReturnTagLine(cfg);
      BlankLine(spaces) + TagLine(spaces, tagLine)
      + (if returnSection.Some? then CommentBlock(returnSection.value.comments, spaces, |tagLine|)
         else if cfg.smartComments then [Text(TryGenerateReturnDesc(cfg, f))]
         else [])
    else []
  }

  /** One preserved section: a blank line, its tag line and its comment. */
  function SectionPieces(cfg: DoxygenConfig, spaces: string, section: ParsedSection): seq<Piece>
    requires |section.comments| > 0
  {
    var tagLine := GenerateTagString(cfg, section.tagName);
    BlankLine(spaces) + TagLine(spaces, tagLine) + CommentBlock(section.comments, spaces, |tagLine|)
  }

  function SectionsPieces(cfg: DoxygenConfig, spaces: string, sections: seq<ParsedSection>): seq<Piece>
    requires forall k :: 0 <= k < |sections| ==> |sections[k].comments| > 0
    decreases |sections|
  {
    if sections == [] then []
    else
      SectionsPieces(cfg, spaces, sections[..|sections| - 1])
      + SectionPieces(cfg, spaces, sections[|sections| - 1])
  }

  // ---------------------------------------------------------------------
  // The whole block
  // ---------------------------------------------------------------------

  /** What is written for the element itself: template parameters, then a function's parameters and return value. */
  function ElementPieces(cfg: DoxygenConfig, spaces: string, e: Option<CodeElement>, pc: ParsedComment): seq<Piece>
    requires WellFormed(pc)
  {
    match e
    case None => []
    case Some(x) =>
      TemplateParamPieces(cfg, spaces, x, pc.templateParameters)
      + (if x.IsFunction() then ParamPieces(cfg, spaces, x, pc.parameters) + ReturnPieces(cfg, spaces, x, pc.returnSection)
         else [])
  }

  /** The comment block GenerateComment builds, before the single-line collapse. */
  function BlockPieces(cfg: DoxygenConfig, spaces: string, e: Option<CodeElement>, pc: ParsedComment): seq<Piece>
    requires BriefRenderable(cfg, e, pc.briefComments) && WellFormed(pc)
  {
    Frame(cfg.FirstLineString(),
          BriefPieces(cfg, spaces, UseSingleLineComment(cfg, e), pc.briefComments, BriefDesc(cfg, e, pc.briefComments)),
          ElementPieces(cfg, spaces, e, pc),
          SectionsPieces(cfg, spaces, pc.tagSections),
          spaces + " */")
  }

  /** A first line, the brief, the element's part, the other sections and the closing line. */
  function Frame(first: string, brief: seq<Piece>, elem: seq<Piece>, secs: seq<Piece>, closing: string): seq<Piece> {
    [Text(first)] + brief + elem + secs + [Break, Text(closing)]
  }

  /** The block as text; in single-line mode every CR LF pair is deleted. */
  function Render(cfg: DoxygenConfig, spaces: string, e: Option<CodeElement>, pc: ParsedComment): string
    requires BriefRenderable(cfg, e, pc.briefComments) && WellFormed(pc)
  {
    var s := Flatten(BlockPieces(cfg, spaces, e, pc), NewLine);
    if UseSingleLineComment(cfg, e) then Replace(s, NewLine, "") else s
  }

  /** GenerateComment: the existing comment is parsed, then the block is rendered from it. */
  function CommentText(cfg: DoxygenConfig, spaces: string, e: Option<CodeElement>, existingComment: string): string
    requires BriefRenderable(cfg, e, ParseSpec(cfg.TagChar(), existingComment).briefComments)
  {
    var pc := ParseSpec(cfg.TagChar(), existingComment);
    ParseSpecWellFormed(cfg.TagChar(), existingComment);
    Render(cfg, spaces, e, pc)
  }

  // ---------------------------------------------------------------------
  // The writers
  // ---------------------------------------------------------------------

  /** WriteBriefComment: the brief tag line or placeholder, then the existing or synthesised brief. */
  method WriteBriefComment(cfg: DoxygenConfig, sb: string, spaces: string, e: Option<CodeElement>, pc: ParsedComment)
    returns (r: string)
    requires BriefRenderable(cfg, e, pc.briefComments)
    ensures r == sb + Flatten(BriefPieces(cfg, spaces, UseSingleLineComment(cfg, e), pc.briefComments, BriefDesc(cfg, e, pc.briefComments)), NewLine)
  {
    var desc := BriefDesc(cfg, e, pc.briefComments);
    var single := UseSingleLineComment(cfg, e);
    if cfg.useBriefTag {
      r := WriteTaggedBrief(cfg, sb, spaces, single, pc.briefComments, desc);
    } else {
      r := WritePlainBrief(cfg, sb, spaces, pc.briefComments, desc);
    }
  }

  /** The branch of WriteBriefComment for configurations that use the brief tag. */
  method WriteTaggedBrief(cfg: DoxygenConfig, sb: string, spaces: string, single: bool, brief: seq<string>, desc: string)
    returns (r: string)
    requires cfg.useBriefTag
    ensures r == sb + Flatten(BriefPieces(cfg, spaces, single, brief, desc), NewLine)
  {
    var smart: seq<Piece> := if cfg.smartComments then [Text(desc)] else [];
    var tagLine := "";
    ghost var head: seq<Piece> := [];
    if !single {
      tagLine := GenerateTagString(cfg, "brief");
      r := sb + ("\r\n" + spaces + " *  " + tagLine);
      head := TagLine(spaces, tagLine);
      FlattenTagLine(spaces, tagLine);
    } else if cfg.useSingleLineBrief {
      tagLine := GenerateTagString(cfg, "brief");
      r := sb + (" " + tagLine);
      head := [Text(" "), Tag(tagLine)];
      FlattenTwo(Text(" "), Tag(tagLine), NewLine);
    } else {
      r := sb;
    }
    assert r == sb + Flatten(head, NewLine);
    ghost var tail := if |brief| > 0 then CommentBlock(brief, spaces, |tagLine|) else smart;
    ghost var before := r;
    if |brief| > 0 {
      r := AppendComments(r, brief, spaces, |tagLine|);
    } else if cfg.smartComments {
      r := r + desc;
      FlattenOne(Text(desc), NewLine);
    }
    assert r == before + Flatten(tail, NewLine);
    FlattenExtend(sb, head, tail, NewLine);
  }

  /** The branch of WriteBriefComment without the brief tag. */
  method WritePlainBrief(cfg: DoxygenConfig, sb: string, spaces: string, brief: seq<string>, desc: string)
    returns (r: string)
    requires !cfg.useBriefTag
    ensures r == sb + Flatten(BriefPieces(cfg, spaces, false, brief, desc), NewLine)
  {
    var smart: seq<Piece> := if cfg.smartComments then [Text(desc)] else [];
    if |brief| > 0 {
      // Write the main comment from the existing one.
      r := WriteLines(sb, spaces, brief);
      assert BriefPieces(cfg, spaces, false, brief, desc) == Continuations(brief, spaces, "");
    } else {
      // A placeholder line for the main comment.
      r := sb + ("\r\n" + spaces + " *  ");
      assert r == sb + Flatten(TextLine(spaces, ""), NewLine) by {
        FlattenTextLine(spaces, "");
        assert spaces + " *  " + "" == spaces + " *  ";
      }
      ghost var before := r;
      if cfg.smartComments {
        r := r + desc;
        FlattenOne(Text(desc), NewLine);
      }
      assert r == before + Flatten(smart, NewLine);
      FlattenExtend(sb, TextLine(spaces, ""), smart, NewLine);
      assert BriefPieces(cfg, spaces, false, brief, desc) == TextLine(spaces, "") + smart;
    }
  }

  /** The foreach loop writing each existing brief line on a line of its own. */
  method WriteLines(sb: string, spaces: string, lines: seq<string>) returns (r: string)
    ensures r == sb + Flatten(Continuations(lines, spaces, ""), NewLine)
  {
    r := sb;
    var i := 0;
    while i < |lines|
      invariant 0 <= i <= |lines|
      invariant r == sb + Flatten(Continuations(lines[..i], spaces, ""), NewLine)
    {
      assert lines[..i + 1][..i] == lines[..i];
      assert "" + lines[i] == lines[i];
      FlattenExtend(sb, Continuations(lines[..i], spaces, ""), TextLine(spaces, lines[i]), NewLine);
      FlattenTextLine(spaces, lines[i]);
      r := r + ("\r\n" + spaces + " *  " + lines[i]);
      i := i + 1;
    }
    assert lines[..i] == lines;
  }

  // ---------------------------------------------------------------------
  // Writers for template parameters, parameters, return value, sections
  // ---------------------------------------------------------------------

  /** The Math.Max loop over the template parameter names. */
  method MaxNameLen(names: seq<string>) returns (m: nat)
    ensures m == MaxLength(names)
  {
    m := 0;
    var i := 0;
    while i < |names|
      invariant 0 <= i <= |names|
      invariant m == MaxLength(names[..i])
    {
      assert names[..i + 1][..i] == names[..i];
      m := if m < |names[i]| then |names[i]| else m;
      i := i + 1;
    }
    assert names[..i] == names;
  }

  lemma TParamEntriesStep(cfg: DoxygenConfig, spaces: string, names: seq<string>, tparams: map<string, ParsedParam>, maxLen: nat, i: nat)
    requires i < |names| && forall k :: 0 <= k < |names| ==> |names[k]| <= maxLen
    requires GoodParams(tparams)
    ensures BlankLine(spaces) + TParamEntries(cfg, spaces, names[..i + 1], tparams, maxLen)
         == (BlankLine(spaces) + TParamEntries(cfg, spaces, names[..i], tparams, maxLen)) + TParamEntry(cfg, spaces, names[i], tparams, maxLen)
  {
    assert names[..i + 1][..i] == names[..i];
  }

  /** One turn of the second loop of WriteTemplateParamComments. */
  method WriteTParamEntry(cfg: DoxygenConfig, sb: string, spaces: string, name: string, tparams: map<string, ParsedParam>, maxLen: nat)
    returns (r: string)
    requires |name| <= maxLen && GoodParams(tparams)
    ensures r == sb + Flatten(TParamEntry(cfg, spaces, name, tparams, maxLen), NewLine)
  {
    var paramAlignSpaces := Spaces(maxLen - |name| + 1);
    var tagLine := Spaces(cfg.tagIndentation) + [cfg.TagChar()] + "tparam " + name + paramAlignSpaces;
    r := sb + ("\r\n" + spaces + " *  " + tagLine);
    FlattenTagLine(spaces, tagLine);
    if name in tparams {
      // Add the existing comments.
      r := AppendComments(r, tparams[name].comments, spaces, |tagLine|);
      FlattenExtend(sb, TagLine(spaces, tagLine), CommentBlock(tparams[name].comments, spaces, |tagLine|), NewLine);
    } else {
      assert TagLine(spaces, tagLine) + [] == TagLine(spaces, tagLine);
    }
  }

  /** WriteTemplateParamComments: a blank line, then one aligned tparam line per template argument. */
  method WriteTemplateParamComments(cfg: DoxygenConfig, sb: string, spaces: string, e: CodeElement, tparams: map<string, ParsedParam>)
    returns (r: string)
    requires GoodParams(tparams)
    ensures r == sb + Flatten(TemplateParamPieces(cfg, spaces, e, tparams), NewLine)
  {
    var names := ParseTemplateParams(e.fullName);
    if |names| == 0 {
      return sb;
    }
    var maxLen := MaxNameLen(names);
    r := sb + ("\r\n" + spaces + " *");
    FlattenBlankLine(spaces);
    assert BlankLine(spaces) + TParamEntries(cfg, spaces, names[..0], tparams, maxLen) == BlankLine(spaces);
    var i := 0;
    while i < |names|
      invariant 0 <= i <= |names|
      invariant r == sb + Flatten(BlankLine(spaces) + TParamEntries(cfg, spaces, names[..i], tparams, maxLen), NewLine)
    {
      TParamEntriesStep(cfg, spaces, names, tparams, maxLen, i);
      FlattenExtend(sb, BlankLine(spaces) + TParamEntries(cfg, spaces, names[..i], tparams, maxLen), TParamEntry(cfg, spaces, names[i], tparams, maxLen), NewLine);
      r := WriteTParamEntry(cfg, r, spaces, names[i], tparams, maxLen);
      i := i + 1;
    }
    assert names[..i] == names;
  }

  lemma DirNamesStep(f: CodeElement, ps: seq<Parameter>, params: map<string, ParsedParam>, i: nat)
    requires i < |ps|
    ensures DirNames(f, ps[..i + 1], params) == DirNames(f, ps[..i], params) + [DirName(f, ps[i], params)]
  {
    assert ps[..i + 1][..i] == ps[..i];
  }

  lemma MaxLengthSnoc(names: seq<string>, name: string)
    ensures MaxLength(names + [name]) == if MaxLength(names) < |name| then |name| else MaxLength(names)
  {
    assert (names + [name])[..|names|] == names;
  }

  /** maxDir and maxName are the maxima over the first i parameters. */
  predicate MaxSoFar(f: CodeElement, params: map<string, ParsedParam>, i: nat, maxDir: nat, maxName: nat)
    requires i <= |f.parameters|
  {
    maxDir == MaxLength(DirNames(f, f.parameters[..i], params)) && maxName == MaxNameLength(f.parameters[..i])
  }

  /** One turn of the first loop of WriteParamComments: both maxima take in parameter i. */
  method MaxParamStep(f: CodeElement, params: map<string, ParsedParam>, i: nat, maxDir: nat, maxName: nat)
    returns (maxDir': nat, maxName': nat)
    requires i < |f.parameters| && MaxSoFar(f, params, i, maxDir, maxName)
    ensures MaxSoFar(f, params, i + 1, maxDir', maxName')
  {
    var ps := f.parameters;
    var p := ps[i];
    // Check whether the existing comment holds this parameter.
    var parsedParam := ParsedFor(params, p.name);
    var typeDirName := DirectionToString(GetParamDirection(f, p, parsedParam));
    DirNamesStep(f, ps, params, i);
    MaxLengthSnoc(DirNames(f, ps[..i], params), typeDirName);
    assert ps[..i + 1][..i] == ps[..i];
    maxDir' := if maxDir < |typeDirName| then |typeDirName| else maxDir;
    maxName' := if maxName < |p.name| then |p.name| else maxName;
  }

  /** The first loop of WriteParamComments: the widest direction marker and the longest name. */
  method MaxParamLengths(f: CodeElement, params: map<string, ParsedParam>) returns (maxDir: nat, maxName: nat)
    ensures maxDir == MaxLength(DirNames(f, f.parameters, params))
    ensures maxName == MaxNameLength(f.parameters)
  {
    maxDir, maxName := 0, 0;
    var i := 0;
    assert MaxSoFar(f, params, 0, 0, 0);
    while i < |f.parameters|
      invariant i <= |f.parameters| && MaxSoFar(f, params, i, maxDir, maxName)
    {
      maxDir, maxName := MaxParamStep(f, params, i, maxDir, maxName);
      i := i + 1;
    }
    assert f.parameters[..i] == f.parameters;
  }

  /**
   * One turn of the second loop of WriteParamComments. The entry is stated
   * with the block's synthesised description smartDesc, which is the one
   * this turn generates whenever that text is written.
   */
  method WriteParamEntry(cfg: DoxygenConfig, sb: string, spaces: string, f: CodeElement, p: Parameter, params: map<string, ParsedParam>, maxDir: nat, maxName: nat, ghost smartDesc: string)
    returns (r: string)
    requires |DirName(f, p, params)| <= maxDir && |p.name| <= maxName
    requires GoodParams(params)
    requires p.name !in params && cfg.smartComments && |f.parameters| == 1 ==> smartDesc == TryGenerateParamDesc(cfg, f, p)
    ensures r == sb + Flatten(ParamEntry(cfg, spaces, f, p, params, maxDir, maxName, smartDesc), NewLine)
  {
    // Check whether the existing comment holds this parameter.
    var parsedParam := ParsedFor(params, p.name);
    // Determine the direction of the parameter (in, out or inout).
    var typeDirName := DirectionToString(GetParamDirection(f, p, parsedParam));
    var paramAlignSpaces := Spaces(maxName - |p.name| + 1);
    var typeAlignSpaces := Spaces(maxDir - |typeDirName| + 1);
    var tagLine := Spaces(cfg.tagIndentation) + [cfg.TagChar()] + "param " + typeDirName + typeAlignSpaces + p.name + paramAlignSpaces;
    assert typeDirName == DirName(f, p, params);
    assert tagLine == ParamTagLine(cfg, typeDirName, maxDir, p.name, maxName);
    r := sb + ("\r\n" + spaces + " *  " + tagLine);
    FlattenTagLine(spaces, tagLine);
    ghost var before := r;
    ghost var tail: seq<Piece> := [];
    if parsedParam.Some? {
      // Add the existing comments.
      tail := CommentBlock(parsedParam.value.comments, spaces, |tagLine|);
      r := AppendComments(r, parsedParam.value.comments, spaces, |tagLine|);
    } else if cfg.smartComments && |f.parameters| == 1 {
      var desc := TryGenerateParamDesc(cfg, f, p);
      tail := [Text(desc)];
      r := r + desc;
      FlattenOne(Text(desc), NewLine);
    }
    assert r == before + Flatten(tail, NewLine);
    assert ParamEntry(cfg, spaces, f, p, params, maxDir, maxName, smartDesc) == TagLine(spaces, tagLine) + tail;
    FlattenExtend(sb, TagLine(spaces, tagLine), tail, NewLine);
  }

  /** r is sb followed by the blank line and the entries of the first i parameters. */
  predicate ParamsWritten(cfg: DoxygenConfig, sb: string, spaces: string, f: CodeElement, params: map<string, ParsedParam>, maxDir: nat, maxName: nat, smartDesc: string, i: nat, r: string) {
    && i <= |f.parameters| && Fits(f, params, maxDir, maxName) && GoodParams(params)
    && r == sb + Flatten(BlankLine(spaces) + ParamEntries(cfg, spaces, f, params, maxDir, maxName, smartDesc, i), NewLine)
  }

  /** Appending the entry of parameter i extends the written prefix by one parameter. */
  lemma ParamEntriesSnoc(cfg: DoxygenConfig, sb: string, spaces: string, f: CodeElement, params: map<string, ParsedParam>, maxDir: nat, maxName: nat, smartDesc: string, i: nat)
    requires i < |f.parameters| && Fits(f, params, maxDir, maxName) && GoodParams(params)
    ensures |DirName(f, f.parameters[i], params)| <= maxDir && |f.parameters[i].name| <= maxName
    ensures (sb + Flatten(BlankLine(spaces) + ParamEntries(cfg, spaces, f, params, maxDir, maxName, smartDesc, i), NewLine))
            + Flatten(ParamEntry(cfg, spaces, f, f.parameters[i], params, maxDir, maxName, smartDesc), NewLine)
         == sb + Flatten(BlankLine(spaces) + ParamEntries(cfg, spaces, f, params, maxDir, maxName, smartDesc, i + 1), NewLine)
  {
    var front := ParamEntries(cfg, spaces, f, params, maxDir, maxName, smartDesc, i);
    var entry := ParamEntry(cfg, spaces, f, f.parameters[i], params, maxDir, maxName, smartDesc);
    assert ParamEntries(cfg, spaces, f, params, maxDir, maxName, smartDesc, i + 1) == front + entry;
    FlattenSnoc(sb, BlankLine(spaces), front, entry, NewLine);
  }

  /** Writing one more run after a head and a front is writing the head and the longer front. */
  lemma FlattenSnoc(sb: string, head: seq<Piece>, front: seq<Piece>, entry: seq<Piece>, nl: string)
    ensures (sb + Flatten(head + front, nl)) + Flatten(entry, nl) == sb + Flatten(head + (front + entry), nl)
  {
    assert head + (front + entry) == (head + front) + entry;
    FlattenExtend(sb, head + front, entry, nl);
  }

  /** One turn of the second loop of WriteParamComments, with its bookkeeping. */
  method WriteParamStep(cfg: DoxygenConfig, sb: string, spaces: string, f: CodeElement, params: map<string, ParsedParam>, maxDir: nat, maxName: nat, ghost smartDesc: string, i: nat, r: string)
    returns (r': string)
    requires i < |f.parameters| && ParamsWritten(cfg, sb, spaces, f, params, maxDir, maxName, smartDesc, i, r)
    requires |f.parameters| == 1 ==> smartDesc == TryGenerateParamDesc(cfg, f, f.parameters[0])
    ensures ParamsWritten(cfg, sb, spaces, f, params, maxDir, maxName, smartDesc, i + 1, r')
  {
    ParamEntriesSnoc(cfg, sb, spaces, f, params, maxDir, maxName, smartDesc, i);
    r' := WriteParamEntry(cfg, r, spaces, f, f.parameters[i], params, maxDir, maxName, smartDesc);
  }

  /** WriteParamComments: a blank line, then one aligned param line per parameter. */
  method WriteParamComments(cfg: DoxygenConfig, sb: string, spaces: string, f: CodeElement, params: map<string, ParsedParam>)
    returns (r: string)
    requires GoodParams(params)
    ensures r == sb + Flatten(ParamPieces(cfg, spaces, f, params), NewLine)
  {
    var maxDir, maxName := MaxParamLengths(f, params);
    if |f.parameters| == 0 {
      return sb;
    }
    ParamsFit(f, params);
    r := sb + ("\r\n" + spaces + " *");
    FlattenBlankLine(spaces);
    assert BlankLine(spaces) + ParamEntries(cfg, spaces, f, params, maxDir, maxName, SmartParamDesc(cfg, f), 0) == BlankLine(spaces);
    r := WriteParamLines(cfg, sb, spaces, f, params, maxDir, maxName, SmartParamDesc(cfg, f), r);
  }

  /** The second loop of WriteParamComments: the entries of all parameters, in order. */
  method WriteParamLines(cfg: DoxygenConfig, sb: string, spaces: string, f: CodeElement, params: map<string, ParsedParam>, maxDir: nat, maxName: nat, ghost smartDesc: string, r0: string)
    returns (r: string)
    requires ParamsWritten(cfg, sb, spaces, f, params, maxDir, maxName, smartDesc, 0, r0)
    requires |f.parameters| == 1 ==> smartDesc == TryGenerateParamDesc(cfg, f, f.parameters[0])
    ensures ParamsWritten(cfg, sb, spaces, f, params, maxDir, maxName, smartDesc, |f.parameters|, r)
  {
    r := r0;
    var i := 0;
    while i < |f.parameters|
      invariant ParamsWritten(cfg, sb, spaces, f, params, maxDir, maxName, smartDesc, i, r)
    {
      r := WriteParamStep(cfg, sb, spaces, f, params, maxDir, maxName, smartDesc, i, r);
      i := i + 1;
    }
  }

  /** WriteReturnComment: for a non-void function, a blank line, the return tag and its comment. */
  method WriteReturnComment(cfg: DoxygenConfig, sb: string, spaces: string, f: CodeElement, returnSection: Option<ParsedSection>)
    returns (r: string)
    requires returnSection.Some? ==> |returnSection.value.comments| > 0
    ensures r == sb + Flatten(ReturnPieces(cfg, spaces, f, returnSection), NewLine)
  {
    if f.typeName == "void" {
      return sb;
    }
    var tagLine := Spaces(cfg.tagIndentation) + [cfg.TagChar()] + "return ";
    r := WriteTagHead(sb, spaces, tagLine);
    ghost var head := BlankLine(spaces) + TagLine(spaces, tagLine);
    ghost var before := r;
    ghost var tail: seq<Piece> := [];
    if returnSection.Some? {
      tail := CommentBlock(returnSection.value.comments, spaces, |tagLine|);
      r := AppendComments(r, returnSection.value.comments, spaces, |tagLine|);
    } else if cfg.smartComments {
      var desc := TryGenerateReturnDesc(cfg, f);
      tail := [Text(desc)];
      r := r + desc;
      FlattenOne(Text(desc), NewLine);
    }
    assert r == before + Flatten(tail, NewLine);
    assert ReturnPieces(cfg, spaces, f, returnSection) == head + tail;
    FlattenExtend(sb, head, tail, NewLine);
  }

  /** The blank line and the tag line that open the return comment and every kept section. */
  method WriteTagHead(sb: string, spaces: string, tagLine: string) returns (r: string)
    ensures r == sb + Flatten(BlankLine(spaces) + TagLine(spaces, tagLine), NewLine)
  {
    r := sb + ("\r\n" + spaces + " *");
    FlattenBlankLine(spaces);
    r := r + ("\r\n" + spaces + " *  " + tagLine);
    FlattenTagLine(spaces, tagLine);
    FlattenExtend(sb, BlankLine(spaces), TagLine(spaces, tagLine), NewLine);
  }

  /** One turn of the GenerateComment loop over the remaining sections. */
  method WriteSection(cfg: DoxygenConfig, sb: string, spaces: string, section: ParsedSection) returns (r: string)
    requires |section.comments| > 0
    ensures r == sb + Flatten(SectionPieces(cfg, spaces, section), NewLine)
  {
    var tagLine := GenerateTagString(cfg, section.tagName);
    r := WriteTagHead(sb, spaces, tagLine);
    ghost var head := BlankLine(spaces) + TagLine(spaces, tagLine);
    r := AppendComments(r, section.comments, spaces, |tagLine|);
    FlattenExtend(sb, head, CommentBlock(section.comments, spaces, |tagLine|), NewLine);
  }

  lemma SectionsStep(cfg: DoxygenConfig, spaces: string, sections: seq<ParsedSection>, i: nat)
    requires i < |sections| && forall k :: 0 <= k < |sections| ==> |sections[k].comments| > 0
    ensures SectionsPieces(cfg, spaces, sections[..i + 1])
         == SectionsPieces(cfg, spaces, sections[..i]) + SectionPieces(cfg, spaces, sections[i])
  {
    assert sections[..i + 1][..i] == sections[..i];
  }

  /** The GenerateComment loop over the sections kept from the existing comment. */
  method WriteSections(cfg: DoxygenConfig, sb: string, spaces: string, sections: seq<ParsedSection>) returns (r: string)
    requires forall k :: 0 <= k < |sections| ==> |sections[k].comments| > 0
    ensures r == sb + Flatten(SectionsPieces(cfg, spaces, sections), NewLine)
  {
    r := sb;
    var i := 0;
    while i < |sections|
      invariant 0 <= i <= |sections|
      invariant r == sb + Flatten(SectionsPieces(cfg, spaces, sections[..i]), NewLine)
    {
      SectionsStep(cfg, spaces, sections, i);
      FlattenExtend(sb, SectionsPieces(cfg, spaces, sections[..i]), SectionPieces(cfg, spaces, sections[i]), NewLine);
      r := WriteSection(cfg, r, spaces, sections[i]);
      i := i + 1;
    }
    assert sections[..i] == sections;
  }

  /** The part of GenerateComment that depends on the element. */
  method WriteElementComments(cfg: DoxygenConfig, sb: string, spaces: string, e: Option<CodeElement>, pc: ParsedComment)
    returns (r: string)
    requires WellFormed(pc)
    ensures r == sb + Flatten(ElementPieces(cfg, spaces, e, pc), NewLine)
  {
    if e.None? {
      return sb;
    }
    var x := e.value;
    // Comments for template parameters, if any.
    r := WriteTemplateParamComments(cfg, sb, spaces, x, pc.templateParameters);
    ghost var tps := TemplateParamPieces(cfg, spaces, x, pc.templateParameters);
    if x.IsFunction() {
      // Comments for the parameters and the return value.
      ghost var mid := r;
      r := WriteParamComments(cfg, r, spaces, x, pc.parameters);
      ghost var pps := ParamPieces(cfg, spaces, x, pc.parameters);
      ghost var rps := ReturnPieces(cfg, spaces, x, pc.returnSection);
      r := WriteReturnComment(cfg, r, spaces, x, pc.returnSection);
      FlattenExtend(mid, pps, rps, NewLine);
      FlattenExtend(sb, tps, pps + rps, NewLine);
    } else {
      assert tps + [] == tps;
    }
  }

  /** The block's text is the concatenation of its parts' texts, in the order GenerateComment writes them. */
  lemma BlockFlatten(cfg: DoxygenConfig, spaces: string, e: Option<CodeElement>, pc: ParsedComment)
    requires BriefRenderable(cfg, e, pc.briefComments) && WellFormed(pc)
    ensures Flatten(BlockPieces(cfg, spaces, e, pc), NewLine)
         == (((cfg.FirstLineString()
               + Flatten(BriefPieces(cfg, spaces, UseSingleLineComment(cfg, e), pc.briefComments, BriefDesc(cfg, e, pc.briefComments)), NewLine))
              + Flatten(ElementPieces(cfg, spaces, e, pc), NewLine))
             + Flatten(SectionsPieces(cfg, spaces, pc.tagSections), NewLine))
            + ("\r\n" + spaces + " */")
  {
    var brief := BriefPieces(cfg, spaces, UseSingleLineComment(cfg, e), pc.briefComments, BriefDesc(cfg, e, pc.briefComments));
    var elem := ElementPieces(cfg, spaces, e, pc);
    var secs := SectionsPieces(cfg, spaces, pc.tagSections);
    assert BlockPieces(cfg, spaces, e, pc) == Frame(cfg.FirstLineString(), brief, elem, secs, spaces + " */");
    FlattenFrame(cfg.FirstLineString(), brief, elem, secs, spaces);
  }

  /** A first line, three runs of pieces and a closing line on a new line, as text. */
  lemma FlattenFrame(first: string, brief: seq<Piece>, elem: seq<Piece>, secs: seq<Piece>, spaces: string)
    ensures Flatten(Frame(first, brief, elem, secs, spaces + " */"), NewLine)
         == (((first + Flatten(brief, NewLine)) + Flatten(elem, NewLine)) + Flatten(secs, NewLine)) + ("\r\n" + spaces + " */")
  {
    var closing := spaces + " */";
    AppendAssoc("\r\n", spaces, " */");
    var head := [Text(first)];
    var last := [Break, Text(closing)];
    FlattenOne(Text(first), NewLine);
    FlattenAppend(head, brief, NewLine);
    FlattenAppend(head + brief, elem, NewLine);
    FlattenAppend(head + brief + elem, secs, NewLine);
    FlattenTwo(Break, Text(closing), NewLine);
    FlattenAppend(head + brief + elem + secs, last, NewLine);
  }

  /** The writing part of GenerateComment, up to the closing line. */
  method WriteBlock(cfg: DoxygenConfig, spaces: string, e: Option<CodeElement>, pc: ParsedComment) returns (sb: string)
    requires BriefRenderable(cfg, e, pc.briefComments) && WellFormed(pc)
    ensures sb == Flatten(BlockPieces(cfg, spaces, e, pc), NewLine)
  {
    // Start writing a new comment.
    sb := cfg.FirstLineString();
    // The brief summary.
    sb := WriteBriefComment(cfg, sb, spaces, e, pc);
    sb := WriteElementComments(cfg, sb, spaces, e, pc);
    // The other sections of the existing comment.
    sb := WriteSections(cfg, sb, spaces, pc.tagSections);
    sb := sb + ("\r\n" + spaces + " */");
    BlockFlatten(cfg, spaces, e, pc);
  }

  /**
   * GenerateComment: parse the existing comment, write the block and, in
   * single-line mode, delete every CR LF pair.
   */
  method GenerateComment(cfg: DoxygenConfig, spaces: string, e: Option<CodeElement>, existingComment: string)
    returns (r: string)
    requires BriefRenderable(cfg, e, ParseSpec(cfg.TagChar(), existingComment).briefComments)
    ensures r == CommentText(cfg, spaces, e, existingComment)
  {
    var pc := ParseComment(cfg.TagChar(), existingComment);
    r := WriteBlock(cfg, spaces, e, pc);
    if UseSingleLineComment(cfg, e) {
      r := Replace(r, NewLine, "");
    }
  }
}
