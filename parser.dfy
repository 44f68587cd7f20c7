/**
 * Parsing an existing Doxygen comment (ParseComment, ParseExtraComments).
 *
 * The comment is cut into lines at CR and LF, empty pieces dropped, and
 * every line trimmed in place. A scan then classifies each line, in this
 * order: a tparam line, a param line, any other tag line, a plain text
 * line. A tag with trailing text opens an entry whose further lines are
 * gathered by ParseExtraComments, and the scan resumes at the first line
 * that is not such a continuation.
 *
 * The declarative reading is Step / ParseFrom / ParseSpec; the methods
 * ParseExtraComments and ParseComment are the loops of the source, proved
 * to compute exactly that.
 */
module CommentParser {
  import opened Wrappers
  import opened Strings
  import opened ParamDirections
  import opened CommentGrammar

  datatype ParsedParam = ParsedParam(name: string, direction: ParamDirection, comments: seq<string>)

  datatype ParsedSection = ParsedSection(tagName: string, comments: seq<string>)

  datatype ParsedComment = ParsedComment(
    briefComments: seq<string>,
    templateParameters: map<string, ParsedParam>,
    parameters: map<string, ParsedParam>,
    returnSection: Option<ParsedSection>,
    tagSections: seq<ParsedSection>)

  const EmptyComment := ParsedComment([], map[], map[], None, [])

  const LineBreaks: set<char> := {'\r', '\n'}

  /** No CR and no LF. */
  predicate SingleLine(s: string) { NoneIn(s, LineBreaks) }

  predicate AllSingleLine(lines: seq<string>) {
    forall k :: 0 <= k < |lines| ==> SingleLine(lines[k])
  }

  // ---------------------------------------------------------------------
  // The lines of a comment
  // ---------------------------------------------------------------------

  function TrimAll(parts: seq<string>): (r: seq<string>)
    ensures |r| == |parts| && forall k :: 0 <= k < |parts| ==> r[k] == Trim(parts[k])
  {
    seq(|parts|, k requires 0 <= k < |parts| => Trim(parts[k]))
  }

  /** Split at CR and LF without empty pieces, then trim every piece. */
  function CommentLines(comment: string): (r: seq<string>)
    ensures AllSingleLine(r)
  {
    var parts := SplitRemoveEmpty(comment, LineBreaks);
    var r := TrimAll(parts);
    forall k | 0 <= k < |r| ensures SingleLine(r[k]) {
      TrimNoneIn(parts[k], LineBreaks);
    }
    r
  }

  // ---------------------------------------------------------------------
  // Continuation lines (ParseExtraComments)
  // ---------------------------------------------------------------------

  /** Lines on which ParseExtraComments stops: blank, "*", "*\/", a tag line, or not a text line. */
  predicate EndsContinuation(tc: char, line: string)
    requires SingleLine(line)
  {
    line == "" || line == "*" || line == "*/" || MatchTag(line, tc).Some? || MatchText(line).None?
  }

  /** The first line at or after i that ends a run of continuation lines. */
  function ContinuationEnd(tc: char, lines: seq<string>, i: nat): (j: nat)
    requires i <= |lines| && AllSingleLine(lines)
    ensures i <= j <= |lines|
    ensures forall k {:trigger EndsContinuation(tc, lines[k])} :: i <= k < j ==> !EndsContinuation(tc, lines[k])
    ensures j < |lines| ==> EndsContinuation(tc, lines[j])
    decreases |lines| - i
  {
    if i == |lines| || EndsContinuation(tc, lines[i]) then i
    else ContinuationEnd(tc, lines, i + 1)
  }

  /** The text a line's text pattern captures; empty when there is none. */
  function TextOf(line: string): (r: string)
    ensures '\n' !in line && MatchText(line).Some? ==> r == MatchText(line).value
  {
    if '\n' in line then ""
    else match MatchText(line)
      case Some(t) => t
      case None => ""
  }

  /** The captured texts of lines[i..j]. */
  function Texts(lines: seq<string>, i: nat, j: nat): (r: seq<string>)
    requires i <= j <= |lines|
    ensures |r| == j - i && forall k :: i <= k < j ==> r[k - i] == TextOf(lines[k])
    decreases j - i
  {
    if i == j then [] else Texts(lines, i, j - 1) + [TextOf(lines[j - 1])]
  }

  /**
   * ParseExtraComments: appends the texts of the continuation lines from
   * startIndex on and returns the index of the last one (startIndex - 1
   * when there is none).
   */
  method ParseExtraComments(tc: char, lines: array<string>, startIndex: nat, comments: seq<string>)
    returns (last: int, comments': seq<string>)
    requires startIndex <= lines.Length && AllSingleLine(lines[..])
    ensures last + 1 == ContinuationEnd(tc, lines[..], startIndex)
    ensures startIndex - 1 <= last < lines.Length
    ensures comments' == comments + Texts(lines[..], startIndex, last + 1)
  {
    ghost var ls := lines[..];
    var i := startIndex;
    comments' := comments;
    assert Texts(ls, startIndex, startIndex) == [];
    assert comments' == comments + Texts(ls, startIndex, i);
    while i < lines.Length
      invariant lines.Length == |ls| && ls == lines[..]
      invariant ScannedSoFar(tc, ls, startIndex, i, comments, comments')
      decreases lines.Length - i
    {
      var text := ContinuationText(tc, lines[i]);
      if text.None? {
        ContinuationStops(tc, ls, i);
        break;
      }
      ScanTurn(tc, ls, startIndex, i, comments, comments', text.value);
      comments' := comments' + [text.value];
      i := i + 1;
    }
    last := i - 1;
  }

  /** The loop invariant of ParseExtraComments: the texts of lines start..i-1 collected, and the same end ahead. */
  predicate ScannedSoFar(tc: char, ls: seq<string>, start: nat, i: nat, comments: seq<string>, collected: seq<string>) {
    && start <= i <= |ls| && AllSingleLine(ls)
    && collected == comments + Texts(ls, start, i)
    && ContinuationEnd(tc, ls, start) == ContinuationEnd(tc, ls, i)
  }

  /** One turn of ParseExtraComments over a continuation line keeps its invariant. */
  lemma ScanTurn(tc: char, ls: seq<string>, start: nat, i: nat, comments: seq<string>, collected: seq<string>, text: string)
    requires ScannedSoFar(tc, ls, start, i, comments, collected) && i < |ls|
    requires !EndsContinuation(tc, ls[i]) && MatchText(ls[i]) == Some(text)
    ensures ScannedSoFar(tc, ls, start, i + 1, comments, collected + [text])
  {
    ContinuationAdvance(tc, ls, start, i);
    AppendAssoc(comments, Texts(ls, start, i), [text]);
  }

  /** The checks of one turn of ParseExtraComments: the line's text, or None where the scan stops. */
  method ContinuationText(tc: char, line: string) returns (text: Option<string>)
    requires SingleLine(line)
    ensures text.None? <==> EndsContinuation(tc, line)
    ensures text.Some? ==> MatchText(line) == text
  {
    if |line| == 0 || line == "*" || line == "*/" {
      return None;
    }
    var tagMatch := MatchTag(line, tc);
    if tagMatch.Some? {
      return None;
    }
    text := MatchText(line);
  }

  /** The scan ends at a line that ends a run of continuation lines. */
  lemma ContinuationStops(tc: char, lines: seq<string>, i: nat)
    requires i < |lines| && AllSingleLine(lines) && EndsContinuation(tc, lines[i])
    ensures ContinuationEnd(tc, lines, i) == i
  {
  }

  /** Past a continuation line the scan goes on, and that line's text is the next one collected. */
  lemma ContinuationAdvance(tc: char, lines: seq<string>, start: nat, i: nat)
    requires start <= i < |lines| && AllSingleLine(lines) && !EndsContinuation(tc, lines[i])
    ensures ContinuationEnd(tc, lines, i) == ContinuationEnd(tc, lines, i + 1)
    ensures MatchText(lines[i]).Some?
    ensures Texts(lines, start, i + 1) == Texts(lines, start, i) + [MatchText(lines[i]).value]
  {
    assert '\n' !in lines[i];
    assert TextOf(lines[i]) == MatchText(lines[i]).value;
  }

  // ---------------------------------------------------------------------
  // One step of the scan
  // ---------------------------------------------------------------------

  /** Lines the scan passes over: blank lines and the comment's opening and closing lines. */
  predicate IsSkipped(line: string) {
    line == "" || line == "*" || line == "/*!" || line == "/**" || line == "*/"
  }

  /** A tparam line: a new name with trailing text is stored with its continuation lines. */
  function StepTParam(tc: char, lines: seq<string>, i: nat, pc: ParsedComment, m: TParamMatch): (r: (nat, ParsedComment))
    requires i < |lines| && AllSingleLine(lines)
    ensures i < r.0 <= |lines|
  {
    var first := CaptureValue(lines[i], m.tail);
    if m.name !in pc.templateParameters && |first| > 0 then
      var j := ContinuationEnd(tc, lines, i + 1);
      var p := ParsedParam(m.name, In, [first] + Texts(lines, i + 1, j));
      (j, pc.(templateParameters := pc.templateParameters[m.name := p]))
    else (i + 1, pc)
  }

  /** A param line: as a tparam line, with the direction read from its marker. */
  function StepParam(tc: char, lines: seq<string>, i: nat, pc: ParsedComment, m: ParamMatch): (r: (nat, ParsedComment))
    requires i < |lines| && AllSingleLine(lines)
    ensures i < r.0 <= |lines|
  {
    var first := CaptureValue(lines[i], m.tail);
    if m.name !in pc.parameters && |first| > 0 then
      var j := ContinuationEnd(tc, lines, i + 1);
      var p := ParsedParam(m.name, ToDirection(m.direction), [first] + Texts(lines, i + 1, j));
      (j, pc.(parameters := pc.parameters[m.name := p]))
    else (i + 1, pc)
  }

  predicate IsReturnTag(tagName: string) { tagName == "return" || tagName == "returns" }

  /** Where a completed section goes: the return slot, the brief lines, or the other sections. */
  function AddSection(pc: ParsedComment, section: ParsedSection): ParsedComment {
    if IsReturnTag(section.tagName) then pc.(returnSection := Some(section))
    else if section.tagName == "brief" then pc.(briefComments := pc.briefComments + section.comments)
    else pc.(tagSections := pc.tagSections + [section])
  }

  function StepTag(tc: char, lines: seq<string>, i: nat, pc: ParsedComment, m: TagMatch): (r: (nat, ParsedComment))
    requires i < |lines| && AllSingleLine(lines)
    ensures i < r.0 <= |lines|
  {
    var first := CaptureValue(lines[i], m.tail);
    if |first| > 0 then
      var j := ContinuationEnd(tc, lines, i + 1);
      (j, AddSection(pc, ParsedSection(m.tagName, [first] + Texts(lines, i + 1, j))))
    else (i + 1, pc)
  }

  /** The next index of the scan and the comment so far, after line i. */
  function Step(tc: char, lines: seq<string>, i: nat, pc: ParsedComment): (r: (nat, ParsedComment))
    requires i < |lines| && AllSingleLine(lines)
    ensures i < r.0 <= |lines|
  {
    var line := lines[i];
    if IsSkipped(line) then (i + 1, pc)
    else
      match MatchTParam(line, tc)
      case Some(m) => StepTParam(tc, lines, i, pc, m)
      case None =>
        match MatchParam(line, tc)
        case Some(m) => StepParam(tc, lines, i, pc, m)
        case None =>
          match MatchTag(line, tc)
          case Some(m) => StepTag(tc, lines, i, pc, m)
          case None =>
            match MatchText(line)
            case Some(t) => (i + 1, pc.(briefComments := pc.briefComments + [t]))
            case None => (i + 1, pc)
  }

  function ParseFrom(tc: char, lines: seq<string>, i: nat, pc: ParsedComment): ParsedComment
    requires i <= |lines| && AllSingleLine(lines)
    decreases |lines| - i
  {
    if i == |lines| then pc
    else
      var (next, pc') := Step(tc, lines, i, pc);
      ParseFrom(tc, lines, next, pc')
  }

  /** What ParseComment computes. */
  function ParseSpec(tc: char, comment: string): ParsedComment {
    if |comment| == 0 then EmptyComment
    else ParseFrom(tc, CommentLines(comment), 0, EmptyComment)
  }

  // ---------------------------------------------------------------------
  // The scan
  // ---------------------------------------------------------------------

  /**
   * ParseComment: split, trim every line in place, then scan. The scan
   * body is factored into ParseLine and its three tag branches.
   */
  method ParseComment(tc: char, comment: string) returns (pc: ParsedComment)
    ensures pc == ParseSpec(tc, comment)
    ensures comment == "" ==> pc == EmptyComment
    ensures WellFormed(pc)
  {
    pc := EmptyComment;
    if |comment| > 0 {
      var parts := SplitRemoveEmpty(comment, LineBreaks);
      var lines := new string[|parts|](k requires 0 <= k < |parts| => parts[k]);
      assert lines[..] == parts;
      // Trim leading and trailing white space before any parsing.
      TrimLines(lines);
      assert lines[..] == CommentLines(comment);

      var i := 0;
      while i < lines.Length
        invariant 0 <= i <= lines.Length
        invariant lines[..] == CommentLines(comment)
        invariant ParseFrom(tc, lines[..], i, pc) == ParseSpec(tc, comment)
        decreases lines.Length - i
      {
        i, pc := ParseLine(tc, lines, i, pc);
      }
    }
    ParseSpecWellFormed(tc, comment);
  }

  /** Trims every line in place. */
  method TrimLines(lines: array<string>)
    modifies lines
    ensures lines[..] == TrimAll(old(lines[..]))
  {
    var i := 0;
    while i < lines.Length
      invariant 0 <= i <= lines.Length
      invariant forall k :: 0 <= k < i ==> lines[k] == Trim(old(lines[k]))
      invariant forall k :: i <= k < lines.Length ==> lines[k] == old(lines[k])
    {
      lines[i] := Trim(lines[i]);
      i := i + 1;
    }
  }

  /** One pass of the scan loop: classify line i and return the next index. */
  method ParseLine(tc: char, lines: array<string>, i: nat, pc: ParsedComment) returns (next: nat, pc': ParsedComment)
    requires i < lines.Length && AllSingleLine(lines[..])
    ensures (next, pc') == Step(tc, lines[..], i, pc)
  {
    var line := lines[i];
    next, pc' := i + 1, pc;
    if IsSkipped(line) {
      return;
    }
    var tparamMatch := MatchTParam(line, tc);
    if tparamMatch.Some? {
      next, pc' := ParseTParamLine(tc, lines, i, pc, tparamMatch.value);
      return;
    }
    var paramMatch := MatchParam(line, tc);
    if paramMatch.Some? {
      next, pc' := ParseParamLine(tc, lines, i, pc, paramMatch.value);
      return;
    }
    var sectionMatch := MatchTag(line, tc);
    if sectionMatch.Some? {
      next, pc' := ParseTagLine(tc, lines, i, pc, sectionMatch.value);
      return;
    }
    var textMatch := MatchText(line);
    if textMatch.Some? {
      pc' := pc.(briefComments := pc.briefComments + [textMatch.value]);
    }
  }

  method ParseTParamLine(tc: char, lines: array<string>, i: nat, pc: ParsedComment, m: TParamMatch)
    returns (next: nat, pc': ParsedComment)
    requires i < lines.Length && AllSingleLine(lines[..])
    ensures (next, pc') == StepTParam(tc, lines[..], i, pc, m)
  {
    next, pc' := i + 1, pc;
    var firstComment := CaptureValue(lines[i], m.tail);
    if m.name !in pc.templateParameters && |firstComment| > 0 {
      var last, comments := ParseExtraComments(tc, lines, i + 1, [firstComment]);
      next := last + 1;
      pc' := pc.(templateParameters := pc.templateParameters[m.name := ParsedParam(m.name, In, comments)]);
    }
  }

  method ParseParamLine(tc: char, lines: array<string>, i: nat, pc: ParsedComment, m: ParamMatch)
    returns (next: nat, pc': ParsedComment)
    requires i < lines.Length && AllSingleLine(lines[..])
    ensures (next, pc') == StepParam(tc, lines[..], i, pc, m)
  {
    next, pc' := i + 1, pc;
    var firstComment := CaptureValue(lines[i], m.tail);
    if m.name !in pc.parameters && |firstComment| > 0 {
      var last, comments := ParseExtraComments(tc, lines, i + 1, [firstComment]);
      next := last + 1;
      var param := ParsedParam(m.name, ToDirection(m.direction), comments);
      pc' := pc.(parameters := pc.parameters[m.name := param]);
    }
  }

  method ParseTagLine(tc: char, lines: array<string>, i: nat, pc: ParsedComment, m: TagMatch)
    returns (next: nat, pc': ParsedComment)
    requires i < lines.Length && AllSingleLine(lines[..])
    ensures (next, pc') == StepTag(tc, lines[..], i, pc, m)
  {
    next, pc' := i + 1, pc;
    var firstComment := CaptureValue(lines[i], m.tail);
    if |firstComment| > 0 {
      var last, comments := ParseExtraComments(tc, lines, i + 1, [firstComment]);
      next := last + 1;
      var section := ParsedSection(m.tagName, comments);
      if IsReturnTag(section.tagName) {
        pc' := pc.(returnSection := Some(section));
      } else if section.tagName == "brief" {
        pc' := pc.(briefComments := pc.briefComments + section.comments);
      } else {
        pc' := pc.(tagSections := pc.tagSections + [section]);
      }
    }
  }

  // ---------------------------------------------------------------------
  // What a parsed comment always satisfies
  // ---------------------------------------------------------------------

  predicate GoodLines(ls: seq<string>) {
    forall k :: 0 <= k < |ls| ==> ls[k] != [] && SingleLine(ls[k])
  }

  predicate GoodParams(m: map<string, ParsedParam>) {
    forall n :: n in m ==> m[n].name == n && |m[n].comments| > 0 && GoodLines(m[n].comments)
  }

  predicate GoodSection(s: ParsedSection) {
    |s.comments| > 0 && GoodLines(s.comments) && SingleLine(s.tagName)
  }

  /**
   * Every stored line is non-empty and holds no line break, every stored
   * parameter and section has at least one line, a parameter is keyed by
   * its own name, the return slot holds a return or returns section, and
   * no return, returns or brief section is among the other sections.
   */
  predicate WellFormed(pc: ParsedComment) {
    && GoodLines(pc.briefComments)
    && GoodParams(pc.templateParameters)
    && GoodParams(pc.parameters)
    && (pc.returnSection.Some? ==> GoodSection(pc.returnSection.value))
    && (forall k :: 0 <= k < |pc.tagSections| ==> GoodSection(pc.tagSections[k]))
    && (pc.returnSection.Some? ==> IsReturnTag(pc.returnSection.value.tagName))
    && (forall k :: 0 <= k < |pc.tagSections| ==> RoutedToSections(pc.tagSections[k].tagName))
  }

  /** Tags other than return, returns and brief, which are kept as separate sections. */
  predicate RoutedToSections(tagName: string) { !IsReturnTag(tagName) && tagName != "brief" }

  lemma CaptureSingleLine(line: string, t: Tail)
    requires SingleLine(line)
    ensures SingleLine(CaptureValue(line, t))
  {
    var v := CaptureValue(line, t);
    forall k | 0 <= k < |v| ensures v[k] !in LineBreaks {
      assert v[k] in v;
    }
  }

  lemma TextSingleLine(line: string)
    requires SingleLine(line) && MatchText(line).Some?
    ensures SingleLine(MatchText(line).value)
  {
    var v := MatchText(line).value;
    MatchTextSuffix(line);
    forall k | 0 <= k < |v| ensures v[k] !in LineBreaks {
      assert v[k] in v;
    }
  }

  /** The texts of a run of continuation lines are non-empty single lines. */
  lemma ContinuationTextsGood(tc: char, lines: seq<string>, i: nat)
    requires i <= |lines| && AllSingleLine(lines)
    ensures GoodLines(Texts(lines, i, ContinuationEnd(tc, lines, i)))
  {
    var j := ContinuationEnd(tc, lines, i);
    var t := Texts(lines, i, j);
    forall k | 0 <= k < |t| ensures t[k] != [] && SingleLine(t[k]) {
      var line := lines[i + k];
      assert !EndsContinuation(tc, line);
      MatchTextSuffix(line);
      TextSingleLine(line);
    }
  }

  lemma StepTParamWellFormed(tc: char, lines: seq<string>, i: nat, pc: ParsedComment, m: TParamMatch)
    requires i < |lines| && AllSingleLine(lines) && WellFormed(pc)
    ensures WellFormed(StepTParam(tc, lines, i, pc, m).1)
  {
    CaptureSingleLine(lines[i], m.tail);
    ContinuationTextsGood(tc, lines, i + 1);
  }

  lemma StepParamWellFormed(tc: char, lines: seq<string>, i: nat, pc: ParsedComment, m: ParamMatch)
    requires i < |lines| && AllSingleLine(lines) && WellFormed(pc)
    ensures WellFormed(StepParam(tc, lines, i, pc, m).1)
  {
    CaptureSingleLine(lines[i], m.tail);
    ContinuationTextsGood(tc, lines, i + 1);
  }

  lemma AddSectionWellFormed(pc: ParsedComment, section: ParsedSection)
    requires WellFormed(pc) && GoodSection(section)
    ensures WellFormed(AddSection(pc, section))
  {
  }

  lemma StepTagWellFormed(tc: char, lines: seq<string>, i: nat, pc: ParsedComment, m: TagMatch)
    requires i < |lines| && AllSingleLine(lines) && WellFormed(pc) && SingleLine(m.tagName)
    ensures WellFormed(StepTag(tc, lines, i, pc, m).1)
  {
    var first := CaptureValue(lines[i], m.tail);
    if |first| > 0 {
      CaptureSingleLine(lines[i], m.tail);
      var j := ContinuationEnd(tc, lines, i + 1);
      ContinuationTextsGood(tc, lines, i + 1);
      var section := ParsedSection(m.tagName, [first] + Texts(lines, i + 1, j));
      assert GoodSection(section);
      AddSectionWellFormed(pc, section);
    }
  }

  lemma StepWellFormed(tc: char, lines: seq<string>, i: nat, pc: ParsedComment)
    requires i < |lines| && AllSingleLine(lines) && WellFormed(pc)
    ensures WellFormed(Step(tc, lines, i, pc).1)
  {
    var line := lines[i];
    if !IsSkipped(line) {
      match MatchTParam(line, tc)
      case Some(m) => StepTParamWellFormed(tc, lines, i, pc, m);
      case None =>
        match MatchParam(line, tc)
        case Some(m) => StepParamWellFormed(tc, lines, i, pc, m);
        case None =>
          match MatchTag(line, tc)
          case Some(m) =>
            MatchTagLower(line, tc);
            StepTagWellFormed(tc, lines, i, pc, m);
          case None =>
            match MatchText(line)
            case Some(t) => TextSingleLine(line); MatchTextSuffix(line);
            case None =>
    }
  }

  lemma {:induction false} ParseFromWellFormed(tc: char, lines: seq<string>, i: nat, pc: ParsedComment)
    requires i <= |lines| && AllSingleLine(lines) && WellFormed(pc)
    ensures WellFormed(ParseFrom(tc, lines, i, pc))
    decreases |lines| - i
  {
    if i < |lines| {
      StepWellFormed(tc, lines, i, pc);
      var (next, pc') := Step(tc, lines, i, pc);
      ParseFromWellFormed(tc, lines, next, pc');
    }
  }

  lemma ParseSpecWellFormed(tc: char, comment: string)
    ensures WellFormed(ParseSpec(tc, comment))
  {
    if |comment| > 0 {
      ParseFromWellFormed(tc, CommentLines(comment), 0, EmptyComment);
    }
  }

  // ---------------------------------------------------------------------
  // Keying and ordering
  // ---------------------------------------------------------------------

  /**
   * r extends pc: every template parameter and parameter of pc is still
   * there unchanged (the first occurrence of a name wins), and the brief
   * lines and the other sections of pc are a prefix of those of r.
   */
  predicate Extends(pc: ParsedComment, r: ParsedComment) {
    && (forall n :: n in pc.templateParameters ==> n in r.templateParameters && r.templateParameters[n] == pc.templateParameters[n])
    && (forall n :: n in pc.parameters ==> n in r.parameters && r.parameters[n] == pc.parameters[n])
    && pc.briefComments <= r.briefComments
    && pc.tagSections <= r.tagSections
  }

  lemma ExtendsTransitive(a: ParsedComment, b: ParsedComment, c: ParsedComment)
    requires Extends(a, b) && Extends(b, c)
    ensures Extends(a, c)
  {
  }

  lemma AddSectionExtends(pc: ParsedComment, section: ParsedSection)
    ensures Extends(pc, AddSection(pc, section))
  {
  }

  lemma StepExtends(tc: char, lines: seq<string>, i: nat, pc: ParsedComment)
    requires i < |lines| && AllSingleLine(lines)
    ensures Extends(pc, Step(tc, lines, i, pc).1)
  {
    var line := lines[i];
    if !IsSkipped(line) {
      match MatchTParam(line, tc)
      case Some(m) => StepTParamExtends(tc, lines, i, pc, m);
      case None =>
        match MatchParam(line, tc)
        case Some(m) => StepParamExtends(tc, lines, i, pc, m);
        case None =>
          match MatchTag(line, tc)
          case Some(m) => StepTagExtends(tc, lines, i, pc, m);
          case None =>
    }
  }

  lemma StepTParamExtends(tc: char, lines: seq<string>, i: nat, pc: ParsedComment, m: TParamMatch)
    requires i < |lines| && AllSingleLine(lines)
    ensures Extends(pc, StepTParam(tc, lines, i, pc, m).1)
  {
  }

  lemma StepParamExtends(tc: char, lines: seq<string>, i: nat, pc: ParsedComment, m: ParamMatch)
    requires i < |lines| && AllSingleLine(lines)
    ensures Extends(pc, StepParam(tc, lines, i, pc, m).1)
  {
  }

  lemma StepTagExtends(tc: char, lines: seq<string>, i: nat, pc: ParsedComment, m: TagMatch)
    requires i < |lines| && AllSingleLine(lines)
    ensures Extends(pc, StepTag(tc, lines, i, pc, m).1)
  {
    var first := CaptureValue(lines[i], m.tail);
    if |first| > 0 {
      var j := ContinuationEnd(tc, lines, i + 1);
      AddSectionExtends(pc, ParsedSection(m.tagName, [first] + Texts(lines, i + 1, j)));
    }
  }

  lemma {:induction false} ParseFromExtends(tc: char, lines: seq<string>, i: nat, pc: ParsedComment)
    requires i <= |lines| && AllSingleLine(lines)
    ensures Extends(pc, ParseFrom(tc, lines, i, pc))
    decreases |lines| - i
  {
    if i < |lines| {
      var (next, pc') := Step(tc, lines, i, pc);
      StepExtends(tc, lines, i, pc);
      ParseFromExtends(tc, lines, next, pc');
      ExtendsTransitive(pc, pc', ParseFrom(tc, lines, next, pc'));
    }
  }

  /**
   * Nothing ever removes or replaces what a scan has stored, except the
   * return slot: parsing the lines from i on keeps every entry of pc.
   */
  lemma ParseSpecFirstWins(tc: char, comment: string, i: nat, pc: ParsedComment)
    requires comment != [] && i <= |CommentLines(comment)|
    requires ParseFrom(tc, CommentLines(comment), i, pc) == ParseSpec(tc, comment)
    ensures Extends(pc, ParseSpec(tc, comment))
  {
    ParseFromExtends(tc, CommentLines(comment), i, pc);
  }

  /** A tparam line whose name is already stored, or whose trailing text is empty, adds nothing. */
  lemma TParamIgnored(tc: char, lines: seq<string>, i: nat, pc: ParsedComment)
    requires i < |lines| && AllSingleLine(lines) && !IsSkipped(lines[i])
    requires MatchTParam(lines[i], tc).Some?
    requires var m := MatchTParam(lines[i], tc).value;
      m.name in pc.templateParameters || CaptureValue(lines[i], m.tail) == ""
    ensures Step(tc, lines, i, pc) == (i + 1, pc)
  {
  }

  /** A param line whose name is already stored, or whose trailing text is empty, adds nothing. */
  lemma ParamIgnored(tc: char, lines: seq<string>, i: nat, pc: ParsedComment)
    requires i < |lines| && AllSingleLine(lines) && !IsSkipped(lines[i])
    requires MatchTParam(lines[i], tc).None? && MatchParam(lines[i], tc).Some?
    requires var m := MatchParam(lines[i], tc).value;
      m.name in pc.parameters || CaptureValue(lines[i], m.tail) == ""
    ensures Step(tc, lines, i, pc) == (i + 1, pc)
  {
  }

  /** Any other tag line with empty trailing text adds nothing. */
  lemma EmptyTagIgnored(tc: char, lines: seq<string>, i: nat, pc: ParsedComment)
    requires i < |lines| && AllSingleLine(lines) && !IsSkipped(lines[i])
    requires MatchTParam(lines[i], tc).None? && MatchParam(lines[i], tc).None?
    requires MatchTag(lines[i], tc).Some? && CaptureValue(lines[i], MatchTag(lines[i], tc).value.tail) == ""
    ensures Step(tc, lines, i, pc) == (i + 1, pc)
  {
  }

  /**
   * A return or returns line with trailing text replaces the return slot,
   * whatever it held, and leaves everything else alone; so the last such
   * section wins.
   */
  lemma ReturnOverwrites(tc: char, lines: seq<string>, i: nat, pc: ParsedComment)
    requires i < |lines| && AllSingleLine(lines) && !IsSkipped(lines[i])
    requires MatchTParam(lines[i], tc).None? && MatchParam(lines[i], tc).None?
    requires MatchTag(lines[i], tc).Some? && IsReturnTag(MatchTag(lines[i], tc).value.tagName)
    requires CaptureValue(lines[i], MatchTag(lines[i], tc).value.tail) != ""
    ensures var m := MatchTag(lines[i], tc).value;
      var j := ContinuationEnd(tc, lines, i + 1);
      Step(tc, lines, i, pc) ==
        (j, pc.(returnSection := Some(ParsedSection(m.tagName, [CaptureValue(lines[i], m.tail)] + Texts(lines, i + 1, j)))))
  {
  }

  /** A brief line with trailing text appends that text and its continuation to the brief lines. */
  lemma BriefAppends(tc: char, lines: seq<string>, i: nat, pc: ParsedComment)
    requires i < |lines| && AllSingleLine(lines) && !IsSkipped(lines[i])
    requires MatchTParam(lines[i], tc).None? && MatchParam(lines[i], tc).None?
    requires MatchTag(lines[i], tc).Some? && MatchTag(lines[i], tc).value.tagName == "brief"
    requires CaptureValue(lines[i], MatchTag(lines[i], tc).value.tail) != ""
    ensures var m := MatchTag(lines[i], tc).value;
      var j := ContinuationEnd(tc, lines, i + 1);
      Step(tc, lines, i, pc) ==
        (j, pc.(briefComments := pc.briefComments + ([CaptureValue(lines[i], m.tail)] + Texts(lines, i + 1, j))))
  {
  }

  /** Any other tag line with trailing text is appended, in order, to the other sections. */
  lemma SectionAppends(tc: char, lines: seq<string>, i: nat, pc: ParsedComment)
    requires i < |lines| && AllSingleLine(lines) && !IsSkipped(lines[i])
    requires MatchTParam(lines[i], tc).None? && MatchParam(lines[i], tc).None?
    requires MatchTag(lines[i], tc).Some? && RoutedToSections(MatchTag(lines[i], tc).value.tagName)
    requires CaptureValue(lines[i], MatchTag(lines[i], tc).value.tail) != ""
    ensures var m := MatchTag(lines[i], tc).value;
      var j := ContinuationEnd(tc, lines, i + 1);
      Step(tc, lines, i, pc) ==
        (j, pc.(tagSections := pc.tagSections + [ParsedSection(m.tagName, [CaptureValue(lines[i], m.tail)] + Texts(lines, i + 1, j))]))
  {
  }

  /**
   * Continuation lines never include a tparam or a param line: both are
   * tag lines, and a tag line ends a run of continuation lines.
   */
  lemma ContinuationStopsAtParams(tc: char, line: string)
    requires SingleLine(line)
    requires MatchTParam(line, tc).Some? || MatchParam(line, tc).Some?
    ensures EndsContinuation(tc, line)
  {
    TParamOrParamIsTag(line, tc);
  }
}
