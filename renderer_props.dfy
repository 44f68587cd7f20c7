/**
 * What GenerateComment promises about the block it writes: the frame of
 * the block, the single-line collapse, the presence of the return line and
 * the column alignment of the tparam and param lines.
 */
module RendererProperties {
  import opened Wrappers
  import opened Strings
  import opened Config
  import opened CodeModel
  import opened ParamDirections
  import opened CommentParser
  import opened Heuristics
  import opened Renderer

  // ---------------------------------------------------------------------
  // Frame
  // ---------------------------------------------------------------------

  /** A block opens with the configured first line and ends with the closing line of the block. */
  lemma BlockFrame(cfg: DoxygenConfig, spaces: string, e: Option<CodeElement>, pc: ParsedComment)
    requires BriefRenderable(cfg, e, pc.briefComments) && WellFormed(pc)
    ensures StartsWith(Flatten(BlockPieces(cfg, spaces, e, pc), NewLine), cfg.FirstLineString())
    ensures EndsWith(Flatten(BlockPieces(cfg, spaces, e, pc), NewLine), "\r\n" + spaces + " */")
  {
    var s := Flatten(BlockPieces(cfg, spaces, e, pc), NewLine);
    BlockFlatten(cfg, spaces, e, pc);
    var first := cfg.FirstLineString();
    var last := "\r\n" + spaces + " */";
    assert s[..|first|] == first;
    assert s[|s| - |last|..] == last;
  }

  // ---------------------------------------------------------------------
  // Single-line collapse
  // ---------------------------------------------------------------------

  /** A piece without CR or LF in its text. */
  predicate Plain(p: Piece) {
    match p
    case Break => true
    case Text(s) => SingleLine(s)
    case Tag(s) => SingleLine(s)
  }

  predicate AllPlain(ps: seq<Piece>) {
    forall k :: 0 <= k < |ps| ==> Plain(ps[k])
  }

  lemma NoneInAppend(a: string, b: string, cs: set<char>)
    requires NoneIn(a, cs) && NoneIn(b, cs)
    ensures NoneIn(a + b, cs)
  {
    forall k | 0 <= k < |a + b| ensures (a + b)[k] !in cs {
      if k >= |a| {
        assert (a + b)[k] == b[k - |a|];
      }
    }
  }

  lemma AllPlainAppend(a: seq<Piece>, b: seq<Piece>)
    requires AllPlain(a) && AllPlain(b)
    ensures AllPlain(a + b)
  {
    forall k | 0 <= k < |a + b| ensures Plain((a + b)[k]) {
      if k >= |a| {
        assert (a + b)[k] == b[k - |a|];
      }
    }
  }

  /** Deleting CR LF pairs passes over a leading text without CR. */
  lemma {:induction false} ReplaceLeadingPlain(t: string, rest: string)
    requires SingleLine(t)
    ensures Replace(t + rest, NewLine, "") == t + Replace(rest, NewLine, "")
    decreases |t|
  {
    if t != [] {
      var u := t[1..];
      assert t[0] !in LineBreaks;
      assert SingleLine(u) by {
        forall k | 0 <= k < |u| ensures u[k] !in LineBreaks {
          assert u[k] == t[k + 1];
        }
      }
      assert t + rest == [t[0]] + (u + rest);
      ReplaceCons(t[0], u + rest, NewLine, "");
      ReplaceLeadingPlain(u, rest);
      assert [t[0]] + (u + Replace(rest, NewLine, "")) == t + Replace(rest, NewLine, "");
    } else {
      assert t + rest == rest;
    }
  }

  /** With plain pieces, deleting every CR LF of the block leaves the pieces joined without breaks. */
  lemma {:induction false} CollapseFlatten(ps: seq<Piece>)
    requires AllPlain(ps)
    ensures Replace(Flatten(ps, NewLine), NewLine, "") == Flatten(ps, "")
    ensures SingleLine(Flatten(ps, ""))
    decreases |ps|
  {
    if ps != [] {
      assert AllPlain(ps[1..]) by {
        forall k | 0 <= k < |ps[1..]| ensures Plain(ps[1..][k]) {
          assert ps[1..][k] == ps[k + 1];
        }
      }
      CollapseFlatten(ps[1..]);
      var rest := Flatten(ps[1..], NewLine);
      assert Plain(ps[0]);
      match ps[0]
      case Break =>
        var s := NewLine + rest;
        assert s[..2] == NewLine && s[2..] == rest;
        assert Flatten(ps, "") == "" + Flatten(ps[1..], "");
      case Text(t) =>
        ReplaceLeadingPlain(t, rest);
        NoneInAppend(t, Flatten(ps[1..], ""), LineBreaks);
      case Tag(t) =>
        ReplaceLeadingPlain(t, rest);
        NoneInAppend(t, Flatten(ps[1..], ""), LineBreaks);
    }
  }

  lemma SpacesSingleLine(n: nat)
    ensures SingleLine(Spaces(n))
  {
  }

  lemma TagLinePlain(spaces: string, tagLine: string)
    requires SingleLine(spaces) && SingleLine(tagLine)
    ensures AllPlain(TagLine(spaces, tagLine))
  {
    NoneInAppend(spaces, " *  ", LineBreaks);
  }

  lemma TextLinePlain(spaces: string, text: string)
    requires SingleLine(spaces) && SingleLine(text)
    ensures AllPlain(TextLine(spaces, text))
  {
    NoneInAppend(spaces, " *  ", LineBreaks);
    NoneInAppend(spaces + " *  ", text, LineBreaks);
  }

  lemma BlankLinePlain(spaces: string)
    requires SingleLine(spaces)
    ensures AllPlain(BlankLine(spaces))
  {
    NoneInAppend(spaces, " *", LineBreaks);
  }

  lemma {:induction false} ContinuationsPlain(comments: seq<string>, spaces: string, indent: string)
    requires GoodLines(comments) && SingleLine(spaces) && SingleLine(indent)
    ensures AllPlain(Continuations(comments, spaces, indent))
    decreases |comments|
  {
    if comments != [] {
      var init := comments[..|comments| - 1];
      var c := comments[|comments| - 1];
      assert GoodLines(init) by {
        forall k | 0 <= k < |init| ensures init[k] != [] && SingleLine(init[k]) {
          assert init[k] == comments[k];
        }
      }
      ContinuationsPlain(init, spaces, indent);
      NoneInAppend(indent, c, LineBreaks);
      TextLinePlain(spaces, indent + c);
      AllPlainAppend(Continuations(init, spaces, indent), TextLine(spaces, indent + c));
    }
  }

  lemma CommentBlockPlain(comments: seq<string>, spaces: string, indentCount: nat)
    requires |comments| > 0 && GoodLines(comments) && SingleLine(spaces)
    ensures AllPlain(CommentBlock(comments, spaces, indentCount))
  {
    assert GoodLines(comments[1..]) by {
      forall k | 0 <= k < |comments[1..]| ensures comments[1..][k] != [] && SingleLine(comments[1..][k]) {
        assert comments[1..][k] == comments[k + 1];
      }
    }
    SpacesSingleLine(indentCount);
    ContinuationsPlain(comments[1..], spaces, Spaces(indentCount));
    AllPlainAppend([Text(comments[0])], Continuations(comments[1..], spaces, Spaces(indentCount)));
  }

  lemma TagStringSingleLine(cfg: DoxygenConfig, tag: string)
    requires SingleLine(tag)
    ensures SingleLine(GenerateTagString(cfg, tag))
  {
    SpacesSingleLine(cfg.tagIndentation);
    NoneInAppend(Spaces(cfg.tagIndentation), [cfg.TagChar()], LineBreaks);
    NoneInAppend(Spaces(cfg.tagIndentation) + [cfg.TagChar()], tag, LineBreaks);
    NoneInAppend(Spaces(cfg.tagIndentation) + [cfg.TagChar()] + tag, " ", LineBreaks);
  }

  /** In single-line mode the brief part is plain: no element text reaches it. */
  lemma BriefPlain(cfg: DoxygenConfig, spaces: string, brief: seq<string>)
    requires GoodLines(brief) && SingleLine(spaces)
    ensures AllPlain(BriefPieces(cfg, spaces, true, brief, ""))
  {
    if cfg.useBriefTag {
      var tagLine := if cfg.useSingleLineBrief then GenerateTagString(cfg, "brief") else "";
      TagStringSingleLine(cfg, "brief");
      var head: seq<Piece> := if cfg.useSingleLineBrief then [Text(" "), Tag(tagLine)] else [];
      var smart: seq<Piece> := if cfg.smartComments then [Text("")] else [];
      if |brief| > 0 {
        CommentBlockPlain(brief, spaces, |tagLine|);
        AllPlainAppend(head, CommentBlock(brief, spaces, |tagLine|));
      } else {
        AllPlainAppend(head, smart);
      }
    } else if |brief| > 0 {
      ContinuationsPlain(brief, spaces, "");
    } else {
      TextLinePlain(spaces, "");
      var smart: seq<Piece> := if cfg.smartComments then [Text("")] else [];
      AllPlainAppend(TextLine(spaces, ""), smart);
    }
  }

  lemma WithoutSingleLine(s: string, cs: set<char>)
    requires SingleLine(s)
    ensures SingleLine(Without(s, cs))
    decreases |s|
  {
    if s != [] {
      assert SingleLine(s[1..]) by {
        forall k | 0 <= k < |s[1..]| ensures s[1..][k] !in LineBreaks {
          assert s[1..][k] == s[k + 1];
        }
      }
      WithoutSingleLine(s[1..], cs);
      NoneInAppend(if s[0] in cs then [] else [s[0]], Without(s[1..], cs), LineBreaks);
    }
  }

  /** The template arguments of a one-line name are one-line. */
  lemma TemplateParamsSingleLine(name: string)
    requires SingleLine(name)
    ensures forall k :: 0 <= k < |ParseTemplateParams(name)| ==> SingleLine(ParseTemplateParams(name)[k])
  {
    if EndsWith(name, ">") && IndexOf(name, "<") >= 0 {
      var interior := TemplateInterior(name);
      assert SingleLine(interior) by {
        var start := IndexOf(name, "<");
        assert name[start..start + 1] == "<" && name[|name| - 1..] == ">";
        assert name[start] == '<' && name[|name| - 1] == '>';
        assert interior == name[start + 1..|name| - 1];
        forall k | 0 <= k < |interior| ensures interior[k] !in LineBreaks {
          assert interior[k] == name[start + 1 + k];
        }
      }
      ReplaceCharByNothing(interior, ' ');
      assert " " == [' '];
      WithoutSingleLine(interior, {' '});
      SplitNoneIn(Replace(interior, " ", ""), ',', LineBreaks);
    }
  }

  lemma TParamTagLineSingleLine(cfg: DoxygenConfig, name: string, maxLen: nat)
    requires |name| <= maxLen && SingleLine(name)
    ensures SingleLine(TParamTagLine(cfg, name, maxLen))
  {
    var head := Spaces(cfg.tagIndentation) + [cfg.TagChar()] + "tparam ";
    SpacesSingleLine(cfg.tagIndentation);
    NoneInAppend(Spaces(cfg.tagIndentation), [cfg.TagChar()], LineBreaks);
    NoneInAppend(Spaces(cfg.tagIndentation) + [cfg.TagChar()], "tparam ", LineBreaks);
    NoneInAppend(head, name, LineBreaks);
    SpacesSingleLine(maxLen - |name| + 1);
    NoneInAppend(head + name, Spaces(maxLen - |name| + 1), LineBreaks);
  }

  lemma {:induction false} TParamEntriesPlain(cfg: DoxygenConfig, spaces: string, names: seq<string>, tparams: map<string, ParsedParam>, maxLen: nat)
    requires forall k :: 0 <= k < |names| ==> |names[k]| <= maxLen && SingleLine(names[k])
    requires GoodParams(tparams) && SingleLine(spaces)
    ensures AllPlain(TParamEntries(cfg, spaces, names, tparams, maxLen))
    decreases |names|
  {
    if names != [] {
      var init := names[..|names| - 1];
      var name := names[|names| - 1];
      assert forall k :: 0 <= k < |init| ==> init[k] == names[k];
      TParamEntriesPlain(cfg, spaces, init, tparams, maxLen);
      var tagLine := TParamTagLine(cfg, name, maxLen);
      TParamTagLineSingleLine(cfg, name, maxLen);
      TagLinePlain(spaces, tagLine);
      var tail := if name in tparams then CommentBlock(tparams[name].comments, spaces, |tagLine|) else [];
      if name in tparams {
        CommentBlockPlain(tparams[name].comments, spaces, |tagLine|);
      }
      AllPlainAppend(TagLine(spaces, tagLine), tail);
      AllPlainAppend(TParamEntries(cfg, spaces, init, tparams, maxLen), TParamEntry(cfg, spaces, name, tparams, maxLen));
    }
  }

  lemma TemplateParamPiecesPlain(cfg: DoxygenConfig, spaces: string, e: CodeElement, tparams: map<string, ParsedParam>)
    requires GoodParams(tparams) && SingleLine(spaces) && SingleLine(e.fullName)
    ensures AllPlain(TemplateParamPieces(cfg, spaces, e, tparams))
  {
    var names := ParseTemplateParams(e.fullName);
    if names != [] {
      TemplateParamsSingleLine(e.fullName);
      assert forall k :: 0 <= k < |names| ==> |names[k]| <= MaxLength(names) && SingleLine(names[k]);
      TParamEntriesPlain(cfg, spaces, names, tparams, MaxLength(names));
      BlankLinePlain(spaces);
      AllPlainAppend(BlankLine(spaces), TParamEntries(cfg, spaces, names, tparams, MaxLength(names)));
    }
  }

  lemma {:induction false} SectionsPlain(cfg: DoxygenConfig, spaces: string, sections: seq<ParsedSection>)
    requires forall k :: 0 <= k < |sections| ==> GoodSection(sections[k])
    requires SingleLine(spaces)
    ensures forall k :: 0 <= k < |sections| ==> |sections[k].comments| > 0
    ensures AllPlain(SectionsPieces(cfg, spaces, sections))
    decreases |sections|
  {
    if sections != [] {
      var init := sections[..|sections| - 1];
      var s := sections[|sections| - 1];
      assert forall k :: 0 <= k < |init| ==> init[k] == sections[k];
      SectionsPlain(cfg, spaces, init);
      var tagLine := GenerateTagString(cfg, s.tagName);
      TagStringSingleLine(cfg, s.tagName);
      BlankLinePlain(spaces);
      TagLinePlain(spaces, tagLine);
      CommentBlockPlain(s.comments, spaces, |tagLine|);
      AllPlainAppend(BlankLine(spaces), TagLine(spaces, tagLine));
      AllPlainAppend(BlankLine(spaces) + TagLine(spaces, tagLine), CommentBlock(s.comments, spaces, |tagLine|));
      AllPlainAppend(SectionsPieces(cfg, spaces, init), SectionPieces(cfg, spaces, s));
    }
  }

  /** In single-line mode every piece of the block is plain, given one-line indentation and name. */
  lemma BlockPlain(cfg: DoxygenConfig, spaces: string, e: Option<CodeElement>, pc: ParsedComment)
    requires BriefRenderable(cfg, e, pc.briefComments) && WellFormed(pc) && UseSingleLineComment(cfg, e)
    requires SingleLine(spaces) && (e.Some? ==> SingleLine(e.value.fullName))
    ensures AllPlain(BlockPieces(cfg, spaces, e, pc))
  {
    var first := [Text(cfg.FirstLineString())];
    if BriefDescUsed(cfg, pc.briefComments) {
      BriefDescFixed(cfg, e);
    }
    BriefPlain(cfg, spaces, pc.briefComments);
    var brief := BriefPieces(cfg, spaces, true, pc.briefComments, "");
    var elem := ElementPieces(cfg, spaces, e, pc);
    if e.Some? {
      TemplateParamPiecesPlain(cfg, spaces, e.value, pc.templateParameters);
      assert elem == TemplateParamPieces(cfg, spaces, e.value, pc.templateParameters) + [];
    }
    var secs := SectionsPieces(cfg, spaces, pc.tagSections);
    SectionsPlain(cfg, spaces, pc.tagSections);
    var last := [Break, Text(spaces + " */")];
    NoneInAppend(spaces, " */", LineBreaks);
    AllPlainAppend(first, brief);
    AllPlainAppend(first + brief, elem);
    AllPlainAppend(first + brief + elem, secs);
    AllPlainAppend(first + brief + elem + secs, last);
  }

  /**
   * In single-line mode (the flag on, and no element or a variable) the
   * comment holds no CR or LF at all, and is still framed by the first
   * line and the closing star and slash, provided the indentation and the element's full name
   * hold none.
   */
  lemma SingleLineComment(cfg: DoxygenConfig, spaces: string, e: Option<CodeElement>, existingComment: string)
    requires BriefRenderable(cfg, e, ParseSpec(cfg.TagChar(), existingComment).briefComments) && UseSingleLineComment(cfg, e)
    requires SingleLine(spaces) && (e.Some? ==> SingleLine(e.value.fullName))
    ensures SingleLine(CommentText(cfg, spaces, e, existingComment))
    ensures StartsWith(CommentText(cfg, spaces, e, existingComment), cfg.FirstLineString())
    ensures EndsWith(CommentText(cfg, spaces, e, existingComment), spaces + " */")
  {
    var pc := ParseSpec(cfg.TagChar(), existingComment);
    ParseSpecWellFormed(cfg.TagChar(), existingComment);
    BlockPlain(cfg, spaces, e, pc);
    CollapseFlatten(BlockPieces(cfg, spaces, e, pc));
    JoinedFrame(cfg, spaces, e, pc);
  }

  /** Joined without line breaks, the block still opens with the first line and ends with the closing one. */
  lemma JoinedFrame(cfg: DoxygenConfig, spaces: string, e: Option<CodeElement>, pc: ParsedComment)
    requires BriefRenderable(cfg, e, pc.briefComments) && WellFormed(pc)
    ensures StartsWith(Flatten(BlockPieces(cfg, spaces, e, pc), ""), cfg.FirstLineString())
    ensures EndsWith(Flatten(BlockPieces(cfg, spaces, e, pc), ""), spaces + " */")
  {
    var brief := BriefPieces(cfg, spaces, UseSingleLineComment(cfg, e), pc.briefComments, BriefDesc(cfg, e, pc.briefComments));
    var elem := ElementPieces(cfg, spaces, e, pc);
    var secs := SectionsPieces(cfg, spaces, pc.tagSections);
    assert BlockPieces(cfg, spaces, e, pc) == Frame(cfg.FirstLineString(), brief, elem, secs, spaces + " */");
    FrameEnds(cfg.FirstLineString(), brief, elem, secs, spaces + " */", "");
  }

  /** A frame's text opens with its first line and ends with its closing line, whatever the line break. */
  lemma FrameEnds(first: string, brief: seq<Piece>, elem: seq<Piece>, secs: seq<Piece>, closing: string, nl: string)
    ensures StartsWith(Flatten(Frame(first, brief, elem, secs, closing), nl), first)
    ensures EndsWith(Flatten(Frame(first, brief, elem, secs, closing), nl), closing)
  {
    var head := [Text(first)];
    var mid := brief + elem + secs;
    var last := [Break, Text(closing)];
    assert Frame(first, brief, elem, secs, closing) == head + mid + last;
    FlattenAppend(head, mid, nl);
    FlattenAppend(head + mid, last, nl);
    FlattenOne(Text(first), nl);
    FlattenTwo(Break, Text(closing), nl);
    var body := Flatten(mid, nl) + nl;
    assert Flatten(Frame(first, brief, elem, secs, closing), nl) == first + body + closing;
    Enclosed(first, body, closing);
  }

  lemma Enclosed(a: string, b: string, c: string)
    ensures StartsWith(a + b + c, a) && EndsWith(a + b + c, c)
  {
    assert (a + b + c)[..|a|] == a;
    assert (a + b + c)[|a + b + c| - |c|..] == c;
  }

  // ---------------------------------------------------------------------
  // The return line
  // ---------------------------------------------------------------------

  /** Pieces with no tag among them. */
  predicate NoTags(ps: seq<Piece>) {
    forall k :: 0 <= k < |ps| ==> !ps[k].Tag?
  }

  lemma NoTagsAppend(a: seq<Piece>, b: seq<Piece>)
    requires NoTags(a) && NoTags(b)
    ensures NoTags(a + b)
  {
    forall k | 0 <= k < |a + b| ensures !(a + b)[k].Tag? {
      if k >= |a| {
        assert (a + b)[k] == b[k - |a|];
      }
    }
  }

  lemma {:induction false} ContinuationsNoTags(comments: seq<string>, spaces: string, indent: string)
    ensures NoTags(Continuations(comments, spaces, indent))
    decreases |comments|
  {
    if comments != [] {
      var init := comments[..|comments| - 1];
      ContinuationsNoTags(init, spaces, indent);
      NoTagsAppend(Continuations(init, spaces, indent), TextLine(spaces, indent + comments[|comments| - 1]));
    }
  }

  /** Existing comment text is written as text, never as a tag. */
  lemma CommentBlockNoTags(comments: seq<string>, spaces: string, indentCount: nat)
    requires |comments| > 0
    ensures NoTags(CommentBlock(comments, spaces, indentCount))
  {
    ContinuationsNoTags(comments[1..], spaces, Spaces(indentCount));
    NoTagsAppend([Text(comments[0])], Continuations(comments[1..], spaces, Spaces(indentCount)));
  }

  /** The tag string of a tag is the return tag line exactly for "return". */
  lemma TagStringIsReturn(cfg: DoxygenConfig, tag: string)
    ensures GenerateTagString(cfg, tag) == ReturnTagLine(cfg) <==> tag == "return"
  {
    var p := Spaces(cfg.tagIndentation) + [cfg.TagChar()];
    assert ReturnTagLine(cfg) == p + "return" + " ";
    if GenerateTagString(cfg, tag) == ReturnTagLine(cfg) {
      var s := p + tag + " ";
      assert tag == s[|p|..|s| - 1];
      assert "return" == (p + "return" + " ")[|p|..|s| - 1];
    }
  }

  /** Tag strings differ from the return line in the letter after the tag character. */
  lemma ReturnLetter(cfg: DoxygenConfig)
    ensures |ReturnTagLine(cfg)| > cfg.tagIndentation + 1 && ReturnTagLine(cfg)[cfg.tagIndentation + 1] == 'r'
  {
  }

  lemma BriefNoReturnTag(cfg: DoxygenConfig, spaces: string, single: bool, brief: seq<string>, desc: string)
    ensures Tag(ReturnTagLine(cfg)) !in BriefPieces(cfg, spaces, single, brief, desc)
  {
    var rt := Tag(ReturnTagLine(cfg));
    TagStringIsReturn(cfg, "brief");
    if |brief| > 0 {
      var n := if !single || cfg.useSingleLineBrief then |GenerateTagString(cfg, "brief")| else 0;
      CommentBlockNoTags(brief, spaces, n);
      assert rt !in CommentBlock(brief, spaces, n);
    }
    ContinuationsNoTags(brief, spaces, "");
    assert rt !in Continuations(brief, spaces, "");
  }

  lemma {:induction false} TParamEntriesNoReturnTag(cfg: DoxygenConfig, spaces: string, names: seq<string>, tparams: map<string, ParsedParam>, maxLen: nat)
    requires forall k :: 0 <= k < |names| ==> |names[k]| <= maxLen
    requires GoodParams(tparams)
    ensures Tag(ReturnTagLine(cfg)) !in TParamEntries(cfg, spaces, names, tparams, maxLen)
    decreases |names|
  {
    if names != [] {
      var init := names[..|names| - 1];
      var name := names[|names| - 1];
      TParamEntriesNoReturnTag(cfg, spaces, init, tparams, maxLen);
      var tagLine := TParamTagLine(cfg, name, maxLen);
      ReturnLetter(cfg);
      assert tagLine[cfg.tagIndentation + 1] == 't';
      if name in tparams {
        CommentBlockNoTags(tparams[name].comments, spaces, |tagLine|);
        assert Tag(ReturnTagLine(cfg)) !in CommentBlock(tparams[name].comments, spaces, |tagLine|);
      }
    }
  }

  lemma {:induction false} ParamEntriesNoReturnTag(cfg: DoxygenConfig, spaces: string, f: CodeElement, params: map<string, ParsedParam>, maxDir: nat, maxName: nat, smartDesc: string, n: nat)
    requires n <= |f.parameters| && Fits(f, params, maxDir, maxName) && GoodParams(params)
    ensures Tag(ReturnTagLine(cfg)) !in ParamEntries(cfg, spaces, f, params, maxDir, maxName, smartDesc, n)
    decreases n
  {
    if n > 0 {
      ParamEntriesNoReturnTag(cfg, spaces, f, params, maxDir, maxName, smartDesc, n - 1);
      ParamEntryNoReturnTag(cfg, spaces, f, f.parameters[n - 1], params, maxDir, maxName, smartDesc);
    }
  }

  lemma ParamEntryNoReturnTag(cfg: DoxygenConfig, spaces: string, f: CodeElement, p: Parameter, params: map<string, ParsedParam>, maxDir: nat, maxName: nat, smartDesc: string)
    requires |DirName(f, p, params)| <= maxDir && |p.name| <= maxName && GoodParams(params)
    ensures Tag(ReturnTagLine(cfg)) !in ParamEntry(cfg, spaces, f, p, params, maxDir, maxName, smartDesc)
  {
    var tagLine := ParamTagLine(cfg, DirName(f, p, params), maxDir, p.name, maxName);
    ReturnLetter(cfg);
    assert tagLine[cfg.tagIndentation + 1] == 'p';
    if p.name in params {
      CommentBlockNoTags(params[p.name].comments, spaces, |tagLine|);
      assert Tag(ReturnTagLine(cfg)) !in CommentBlock(params[p.name].comments, spaces, |tagLine|);
    }
  }

  lemma {:induction false} SectionsNoReturnTag(cfg: DoxygenConfig, spaces: string, sections: seq<ParsedSection>)
    requires forall k :: 0 <= k < |sections| ==> |sections[k].comments| > 0 && RoutedToSections(sections[k].tagName)
    ensures Tag(ReturnTagLine(cfg)) !in SectionsPieces(cfg, spaces, sections)
    decreases |sections|
  {
    if sections != [] {
      var init := sections[..|sections| - 1];
      var s := sections[|sections| - 1];
      assert forall k :: 0 <= k < |init| ==> init[k] == sections[k];
      SectionsNoReturnTag(cfg, spaces, init);
      TagStringIsReturn(cfg, s.tagName);
      var tagLine := GenerateTagString(cfg, s.tagName);
      CommentBlockNoTags(s.comments, spaces, |tagLine|);
      assert Tag(ReturnTagLine(cfg)) !in CommentBlock(s.comments, spaces, |tagLine|);
    }
  }

  /** The template and parameter parts never hold the return line. */
  lemma ArgumentsNoReturnTag(cfg: DoxygenConfig, spaces: string, f: CodeElement, pc: ParsedComment)
    requires WellFormed(pc)
    ensures Tag(ReturnTagLine(cfg)) !in TemplateParamPieces(cfg, spaces, f, pc.templateParameters)
    ensures Tag(ReturnTagLine(cfg)) !in ParamPieces(cfg, spaces, f, pc.parameters)
  {
    var names := ParseTemplateParams(f.fullName);
    if names != [] {
      TParamEntriesNoReturnTag(cfg, spaces, names, pc.templateParameters, MaxLength(names));
    }
    if |f.parameters| > 0 {
      ParamsFit(f, pc.parameters);
      ParamEntriesNoReturnTag(cfg, spaces, f, pc.parameters, MaxLength(DirNames(f, f.parameters, pc.parameters)), MaxNameLength(f.parameters), SmartParamDesc(cfg, f), |f.parameters|);
    }
  }

  /**
   * A function's block holds the return tag line exactly when its type is
   * not "void"; existing return text is never written anywhere else.
   */
  lemma ReturnLineIffNonVoid(cfg: DoxygenConfig, spaces: string, f: CodeElement, pc: ParsedComment)
    requires f.IsFunction() && BriefRenderable(cfg, Some(f), pc.briefComments) && WellFormed(pc)
    ensures Tag(ReturnTagLine(cfg)) in BlockPieces(cfg, spaces, Some(f), pc) <==> f.typeName != "void"
  {
    var rt := Tag(ReturnTagLine(cfg));
    var brief := BriefPieces(cfg, spaces, UseSingleLineComment(cfg, Some(f)), pc.briefComments, BriefDesc(cfg, Some(f), pc.briefComments));
    var elem := ElementPieces(cfg, spaces, Some(f), pc);
    var secs := SectionsPieces(cfg, spaces, pc.tagSections);
    var tps := TemplateParamPieces(cfg, spaces, f, pc.templateParameters);
    var pps := ParamPieces(cfg, spaces, f, pc.parameters);
    var rps := ReturnPieces(cfg, spaces, f, pc.returnSection);
    assert BlockPieces(cfg, spaces, Some(f), pc) == Frame(cfg.FirstLineString(), brief, elem, secs, spaces + " */");
    InFrame(rt, cfg.FirstLineString(), brief, elem, secs, spaces + " */");
    assert elem == tps + (pps + rps);
    BriefNoReturnTag(cfg, spaces, UseSingleLineComment(cfg, Some(f)), pc.briefComments, BriefDesc(cfg, Some(f), pc.briefComments));
    ArgumentsNoReturnTag(cfg, spaces, f, pc);
    SectionsNoReturnTag(cfg, spaces, pc.tagSections);
    ReturnPiecesReturnTag(cfg, spaces, f, pc.returnSection);
  }

  /** A tag is in a frame exactly when it is in the brief, the element's part or the other sections. */
  lemma InFrame(x: Piece, first: string, brief: seq<Piece>, elem: seq<Piece>, secs: seq<Piece>, closing: string)
    requires x.Tag?
    ensures x in Frame(first, brief, elem, secs, closing) <==> x in brief || x in elem || x in secs
  {
    assert Frame(first, brief, elem, secs, closing) == [Text(first)] + brief + elem + secs + [Break, Text(closing)];
  }

  /** The return pieces hold the return tag line exactly for a non-void function. */
  lemma ReturnPiecesReturnTag(cfg: DoxygenConfig, spaces: string, f: CodeElement, returnSection: Option<ParsedSection>)
    requires returnSection.Some? ==> |returnSection.value.comments| > 0
    ensures Tag(ReturnTagLine(cfg)) in ReturnPieces(cfg, spaces, f, returnSection) <==> f.typeName != "void"
  {
    if f.typeName != "void" {
      assert ReturnPieces(cfg, spaces, f, returnSection)[4] == Tag(ReturnTagLine(cfg));
    }
  }

  // ---------------------------------------------------------------------
  // Alignment of the template-parameter and parameter lines
  // ---------------------------------------------------------------------

  /** A template parameter tag: the name at column tagIndentation + 8, then spaces up to a fixed width. */
  lemma TParamTagLineLayout(cfg: DoxygenConfig, name: string, maxLen: nat)
    requires |name| <= maxLen
    ensures var t := TParamTagLine(cfg, name, maxLen);
            var col := cfg.tagIndentation + 8;
            && |t| == col + maxLen + 1
            && t[col..col + |name|] == name
            && (forall i :: col + |name| <= i < |t| ==> t[i] == ' ')
  {
    var col := cfg.tagIndentation + 8;
    var p := Spaces(cfg.tagIndentation) + [cfg.TagChar()] + "tparam ";
    var pad := Spaces(maxLen - |name| + 1);
    var t := p + name + pad;
    assert t == TParamTagLine(cfg, name, maxLen);
    assert t[col..col + |name|] == name;
    forall i | col + |name| <= i < |t| ensures t[i] == ' ' {
      assert t[i] == pad[i - col - |name|];
    }
  }

  /**
   * A parameter tag: the direction marker at column tagIndentation + 7,
   * the name at column tagIndentation + 8 + maxDir, spaces between and after.
   */
  lemma ParamTagLineLayout(cfg: DoxygenConfig, dir: string, maxDir: nat, name: string, maxName: nat)
    requires |dir| <= maxDir && |name| <= maxName
    ensures var t := ParamTagLine(cfg, dir, maxDir, name, maxName);
            var dcol := cfg.tagIndentation + 7;
            var ncol := cfg.tagIndentation + 8 + maxDir;
            && |t| == ncol + maxName + 1
            && t[dcol..dcol + |dir|] == dir
            && (forall i :: dcol + |dir| <= i < ncol ==> t[i] == ' ')
            && t[ncol..ncol + |name|] == name
            && (forall i :: ncol + |name| <= i < |t| ==> t[i] == ' ')
  {
    var dcol := cfg.tagIndentation + 7;
    var ncol := cfg.tagIndentation + 8 + maxDir;
    var p := Spaces(cfg.tagIndentation) + [cfg.TagChar()] + "param ";
    var pad1 := Spaces(maxDir - |dir| + 1);
    var pad2 := Spaces(maxName - |name| + 1);
    var a := p + dir + pad1;
    var t := a + name + pad2;
    assert t == ParamTagLine(cfg, dir, maxDir, name, maxName);
    assert |a| == ncol;
    assert t[dcol..dcol + |dir|] == a[dcol..dcol + |dir|] == dir;
    forall i | dcol + |dir| <= i < ncol ensures t[i] == ' ' {
      assert t[i] == a[i] == pad1[i - dcol - |dir|];
    }
    assert t[ncol..ncol + |name|] == name;
    forall i | ncol + |name| <= i < |t| ensures t[i] == ' ' {
      assert t[i] == pad2[i - ncol - |name|];
    }
  }

  /** The tag piece of parameter j. */
  function ParamTagOf(cfg: DoxygenConfig, f: CodeElement, params: map<string, ParsedParam>, maxDir: nat, maxName: nat, j: nat): Piece
    requires j < |f.parameters| && Fits(f, params, maxDir, maxName)
  {
    Tag(ParamTagLine(cfg, DirName(f, f.parameters[j], params), maxDir, f.parameters[j].name, maxName))
  }

  /** Each tag among the template-parameter entries is the tag line of one of the names. */
  lemma {:induction false} TParamTagAt(cfg: DoxygenConfig, spaces: string, names: seq<string>, tparams: map<string, ParsedParam>, maxLen: nat, k: nat)
    returns (j: nat)
    requires forall k :: 0 <= k < |names| ==> |names[k]| <= maxLen
    requires GoodParams(tparams)
    requires k < |TParamEntries(cfg, spaces, names, tparams, maxLen)|
    requires TParamEntries(cfg, spaces, names, tparams, maxLen)[k].Tag?
    ensures j < |names|
    ensures TParamEntries(cfg, spaces, names, tparams, maxLen)[k] == Tag(TParamTagLine(cfg, names[j], maxLen))
    decreases |names|
  {
    var init := names[..|names| - 1];
    var name := names[|names| - 1];
    var front := TParamEntries(cfg, spaces, init, tparams, maxLen);
    var tagLine := TParamTagLine(cfg, name, maxLen);
    var tail := if name in tparams then CommentBlock(tparams[name].comments, spaces, |tagLine|) else [];
    var ps := front + (TagLine(spaces, tagLine) + tail);
    assert TParamEntries(cfg, spaces, names, tparams, maxLen) == ps;
    if k < |front| {
      assert ps[k] == front[k];
      j := TParamTagAt(cfg, spaces, init, tparams, maxLen, k);
      assert init[j] == names[j];
    } else {
      if name in tparams {
        CommentBlockNoTags(tparams[name].comments, spaces, |tagLine|);
      }
      var entry := TagLine(spaces, tagLine) + tail;
      var m := k - |front|;
      assert ps[k] == entry[m];
      assert forall i :: 3 <= i < |entry| ==> entry[i] == tail[i - 3];
      assert m == 2;
      j := |names| - 1;
    }
  }

  lemma IndexAppend(a: seq<Piece>, b: seq<Piece>, k: nat)
    requires k < |a| + |b|
    ensures (a + b)[k] == if k < |a| then a[k] else b[k - |a|]
  {
  }

  /** Each tag among the first n parameter entries is the tag line of one of those parameters. */
  lemma {:induction false} ParamTagAt(cfg: DoxygenConfig, spaces: string, f: CodeElement, params: map<string, ParsedParam>, maxDir: nat, maxName: nat, smartDesc: string, n: nat, k: nat)
    returns (j: nat)
    requires n <= |f.parameters| && Fits(f, params, maxDir, maxName) && GoodParams(params)
    requires k < |ParamEntries(cfg, spaces, f, params, maxDir, maxName, smartDesc, n)|
    requires ParamEntries(cfg, spaces, f, params, maxDir, maxName, smartDesc, n)[k].Tag?
    ensures j < n
    ensures ParamEntries(cfg, spaces, f, params, maxDir, maxName, smartDesc, n)[k] == ParamTagOf(cfg, f, params, maxDir, maxName, j)
    decreases n
  {
    var es := ParamEntries(cfg, spaces, f, params, maxDir, maxName, smartDesc, n);
    var front := ParamEntries(cfg, spaces, f, params, maxDir, maxName, smartDesc, n - 1);
    if k < |front| {
      ParamEntriesFront(cfg, spaces, f, params, maxDir, maxName, smartDesc, n, k);
      j := ParamTagAt(cfg, spaces, f, params, maxDir, maxName, smartDesc, n - 1, k);
      assert es[k] == front[k];
      assert front[k] == ParamTagOf(cfg, f, params, maxDir, maxName, j);
    } else {
      ParamEntriesLast(cfg, spaces, f, params, maxDir, maxName, smartDesc, n, k);
      j := n - 1;
      assert es[k] == ParamTagOf(cfg, f, params, maxDir, maxName, j);
    }
  }

  /** The entries of the first n - 1 parameters are a prefix of those of the first n. */
  lemma ParamEntriesFront(cfg: DoxygenConfig, spaces: string, f: CodeElement, params: map<string, ParsedParam>, maxDir: nat, maxName: nat, smartDesc: string, n: nat, k: nat)
    requires 0 < n <= |f.parameters| && Fits(f, params, maxDir, maxName) && GoodParams(params)
    requires k < |ParamEntries(cfg, spaces, f, params, maxDir, maxName, smartDesc, n - 1)|
    ensures k < |ParamEntries(cfg, spaces, f, params, maxDir, maxName, smartDesc, n)|
    ensures ParamEntries(cfg, spaces, f, params, maxDir, maxName, smartDesc, n)[k] == ParamEntries(cfg, spaces, f, params, maxDir, maxName, smartDesc, n - 1)[k]
  {
    var front := ParamEntries(cfg, spaces, f, params, maxDir, maxName, smartDesc, n - 1);
    var entry := ParamEntry(cfg, spaces, f, f.parameters[n - 1], params, maxDir, maxName, smartDesc);
    assert ParamEntries(cfg, spaces, f, params, maxDir, maxName, smartDesc, n) == front + entry;
    IndexAppend(front, entry, k);
  }

  /** A tag after the first n - 1 parameters' entries is the tag line of parameter n - 1. */
  lemma ParamEntriesLast(cfg: DoxygenConfig, spaces: string, f: CodeElement, params: map<string, ParsedParam>, maxDir: nat, maxName: nat, smartDesc: string, n: nat, k: nat)
    requires 0 < n <= |f.parameters| && Fits(f, params, maxDir, maxName) && GoodParams(params)
    requires |ParamEntries(cfg, spaces, f, params, maxDir, maxName, smartDesc, n - 1)| <= k < |ParamEntries(cfg, spaces, f, params, maxDir, maxName, smartDesc, n)|
    requires ParamEntries(cfg, spaces, f, params, maxDir, maxName, smartDesc, n)[k].Tag?
    ensures ParamEntries(cfg, spaces, f, params, maxDir, maxName, smartDesc, n)[k] == ParamTagOf(cfg, f, params, maxDir, maxName, n - 1)
  {
    var p := f.parameters[n - 1];
    var front := ParamEntries(cfg, spaces, f, params, maxDir, maxName, smartDesc, n - 1);
    var entry := ParamEntry(cfg, spaces, f, p, params, maxDir, maxName, smartDesc);
    assert ParamEntries(cfg, spaces, f, params, maxDir, maxName, smartDesc, n) == front + entry;
    IndexAppend(front, entry, k);
    ParamEntryTagAt(cfg, spaces, f, p, params, maxDir, maxName, smartDesc, k - |front|);
  }

  /** The only tag among one parameter's pieces is its tag line. */
  lemma ParamEntryTagAt(cfg: DoxygenConfig, spaces: string, f: CodeElement, p: Parameter, params: map<string, ParsedParam>, maxDir: nat, maxName: nat, smartDesc: string, m: nat)
    requires |DirName(f, p, params)| <= maxDir && |p.name| <= maxName && GoodParams(params)
    requires m < |ParamEntry(cfg, spaces, f, p, params, maxDir, maxName, smartDesc)|
    requires ParamEntry(cfg, spaces, f, p, params, maxDir, maxName, smartDesc)[m].Tag?
    ensures ParamEntry(cfg, spaces, f, p, params, maxDir, maxName, smartDesc)[m] == Tag(ParamTagLine(cfg, DirName(f, p, params), maxDir, p.name, maxName))
  {
    var entry := ParamEntry(cfg, spaces, f, p, params, maxDir, maxName, smartDesc);
    var tagLine := ParamTagLine(cfg, DirName(f, p, params), maxDir, p.name, maxName);
    var tail := entry[3..];
    assert entry == TagLine(spaces, tagLine) + tail;
    if p.name in params {
      CommentBlockNoTags(params[p.name].comments, spaces, |tagLine|);
      assert tail == CommentBlock(params[p.name].comments, spaces, |tagLine|);
    }
    assert forall i :: 3 <= i < |entry| ==> entry[i] == tail[i - 3];
    assert m == 2;
  }

  /**
   * Every template-parameter line of a block has the same width, with its
   * name starting at the same column and spaces after it.
   */
  lemma TemplateTagsAligned(cfg: DoxygenConfig, spaces: string, e: CodeElement, tparams: map<string, ParsedParam>, k: nat)
    returns (j: nat)
    requires GoodParams(tparams)
    requires k < |TemplateParamPieces(cfg, spaces, e, tparams)| && TemplateParamPieces(cfg, spaces, e, tparams)[k].Tag?
    ensures var names := ParseTemplateParams(e.fullName);
            var t := TemplateParamPieces(cfg, spaces, e, tparams)[k].s;
            var col := cfg.tagIndentation + 8;
            && j < |names|
            && |t| == col + MaxLength(names) + 1
            && t[col..col + |names[j]|] == names[j]
            && (forall i :: col + |names[j]| <= i < |t| ==> t[i] == ' ')
  {
    var names := ParseTemplateParams(e.fullName);
    var entries := TParamEntries(cfg, spaces, names, tparams, MaxLength(names));
    var ps := BlankLine(spaces) + entries;
    assert TemplateParamPieces(cfg, spaces, e, tparams) == ps;
    assert k >= 2 && ps[k] == entries[k - 2];
    j := TParamTagAt(cfg, spaces, names, tparams, MaxLength(names), k - 2);
    TParamTagLineLayout(cfg, names[j], MaxLength(names));
  }

  /** The layout of every tag among the first n parameter entries, for given widths. */
  lemma ParamEntriesAligned(cfg: DoxygenConfig, spaces: string, f: CodeElement, params: map<string, ParsedParam>, maxDir: nat, maxName: nat, smartDesc: string, n: nat, k: nat)
    returns (j: nat)
    requires n <= |f.parameters| && Fits(f, params, maxDir, maxName) && GoodParams(params)
    requires k < |ParamEntries(cfg, spaces, f, params, maxDir, maxName, smartDesc, n)|
    requires ParamEntries(cfg, spaces, f, params, maxDir, maxName, smartDesc, n)[k].Tag?
    ensures j < n
    ensures var p := f.parameters[j];
            var d := DirName(f, p, params);
            var t := ParamEntries(cfg, spaces, f, params, maxDir, maxName, smartDesc, n)[k].s;
            var dcol := cfg.tagIndentation + 7;
            var ncol := cfg.tagIndentation + 8 + maxDir;
            && |d| <= maxDir
            && |t| == ncol + maxName + 1
            && t[dcol..dcol + |d|] == d
            && t[ncol..ncol + |p.name|] == p.name
  {
    j := ParamTagAt(cfg, spaces, f, params, maxDir, maxName, smartDesc, n, k);
    ParamTagLineLayout(cfg, DirName(f, f.parameters[j], params), maxDir, f.parameters[j].name, maxName);
  }

  /**
   * The parameter part of a block: a blank line, then the entries of all
   * parameters at the widths of the widest marker and the longest name,
   * so that ParamEntriesAligned describes every one of its tags.
   */
  lemma ParamPiecesEntries(cfg: DoxygenConfig, spaces: string, f: CodeElement, params: map<string, ParsedParam>)
    requires GoodParams(params) && |f.parameters| > 0
    ensures var maxDir := MaxLength(DirNames(f, f.parameters, params));
            var maxName := MaxNameLength(f.parameters);
            && Fits(f, params, maxDir, maxName)
            && ParamPieces(cfg, spaces, f, params) == BlankLine(spaces) + ParamEntries(cfg, spaces, f, params, maxDir, maxName, SmartParamDesc(cfg, f), |f.parameters|)
  {
    ParamsFit(f, params);
  }
}
