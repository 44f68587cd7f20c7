/**
 * The generator's settings record (DoxygenConfig.cs): tag style, first-line
 * style, flags, the abbreviation table and the text templates, with the two
 * derived getters and the default values. Templates are filled in by
 * Format, the subset of string.Format that the templates use: every
 * "{d}" with a single digit d below the number of arguments is replaced by
 * that argument, and all other text is copied.
 */
module Config {
  import opened Strings

  datatype DoxygenStyle = Qt | JavaDoc

  datatype DoxygenFirstLineStyle = SlashStarStar | SlashStarExclamation

  datatype DoxygenConfig = DoxygenConfig(
    tagIndentation: nat,
    tagStyle: DoxygenStyle,
    firstLineStyle: DoxygenFirstLineStyle,
    fileCommentTemplate: string,
    useSingleLineComment: bool,
    useBriefTag: bool,
    useSingleLineBrief: bool,
    smartComments: bool,
    smartCommentsForAllFunctions: bool,
    abbreviations: map<string, string>,
    briefSetterDescFormat: string,
    briefGetterDescFormat: string,
    briefBoolGetterDescFormat: string,
    paramSetterDescFormat: string,
    returnDescFormat: string,
    returnBooleanDescFormat: string,
    paramBooleanFormat: string,
    fileCommentIsHeader: string,
    fileCommentIsSource: string,
    fileCommentIsInline: string)
  {
    /** The character that introduces a tag: backslash for Qt, '@' for JavaDoc. */
    function TagChar(): (c: char)
      ensures c == '\\' || c == '@'
      ensures c == '\\' <==> tagStyle == Qt
    {
      match tagStyle
      case Qt => '\\'
      case JavaDoc => '@'
    }

    // The opening of a comment: slash-star-bang or slash-star-star.
    function FirstLineString(): (s: string)
      ensures |s| == 3 && s[0] == '/' && s[1] == '*'
      ensures s[2] == '!' <==> firstLineStyle == SlashStarExclamation
      ensures s[2] == '*' <==> firstLineStyle == SlashStarStar
    {
      match firstLineStyle
      case SlashStarExclamation => "/*!"
      case SlashStarStar => "/**"
    }
  }

  /** The settings a freshly constructed configuration holds. */
  const Default: DoxygenConfig := DoxygenConfig(
    0, JavaDoc, SlashStarStar, "",
    true, true, false, true, true,
    map[],
    "Sets the {1}{0}.",
    "Returns the {1}{0}.",
    "Returns true if the {1}{2} {0}.",
    "{0} to set.",
    "The {0}.",
    "True if {0}. False if not.",
    "If true, {0}. Otherwise not {0}.",
    "Declares the {0}.",
    "Implements the {0}.",
    "Implements the {0}.")

  lemma DefaultStyle()
    ensures Default.tagIndentation == 0 && Default.TagChar() == '@'
    ensures Default.FirstLineString() == "/**"
    ensures Default.useSingleLineComment && Default.useBriefTag
    ensures Default.smartComments && Default.smartCommentsForAllFunctions
  {
  }

  // ---------------------------------------------------------------------
  // Templates
  // ---------------------------------------------------------------------

  /** "{d}" starts the text. */
  predicate SlotAt(t: string) {
    |t| >= 3 && t[0] == '{' && IsDigit(t[1]) && t[2] == '}'
  }

  function SlotIndex(t: string): nat
    requires SlotAt(t)
  {
    t[1] as int - '0' as int
  }

  /** The placeholder "{d}". */
  function Slot(d: nat): (r: string)
    requires d < 10
    ensures SlotAt(r) && SlotIndex(r) == d && |r| == 3
  {
    ['{', (d + '0' as int) as char, '}']
  }

  /** string.Format restricted to single-digit placeholders without format specifiers. */
  function Format(t: string, args: seq<string>): (r: string)
    ensures args == [] ==> r == t
    decreases |t|
  {
    if t == [] then []
    else if SlotAt(t) && SlotIndex(t) < |args| then args[SlotIndex(t)] + Format(t[3..], args)
    else [t[0]] + Format(t[1..], args)
  }

  /** The indices of the placeholders a template mentions. */
  function Placeholders(t: string): set<nat>
    decreases |t|
  {
    if t == [] then {}
    else if SlotAt(t) then {SlotIndex(t)} + Placeholders(t[3..])
    else Placeholders(t[1..])
  }

  /** Text without an opening brace. */
  predicate NoBrace(s: string) {
    forall i :: 0 <= i < |s| ==> s[i] != '{'
  }

  lemma {:induction false} FormatPlain(x: string, y: string, args: seq<string>)
    requires NoBrace(x)
    ensures Format(x + y, args) == x + Format(y, args)
    ensures Placeholders(x + y) == Placeholders(y)
    decreases |x|
  {
    if x != [] {
      assert (x + y)[0] == x[0];
      assert (x + y)[1..] == x[1..] + y;
      assert NoBrace(x[1..]) by {
        forall i | 0 <= i < |x| - 1 ensures x[1..][i] != '{' {
          assert x[1..][i] == x[i + 1];
        }
      }
      FormatPlain(x[1..], y, args);
      assert x == [x[0]] + x[1..];
    } else {
      assert x + y == y;
    }
  }

  lemma FormatSlot(d: nat, y: string, args: seq<string>)
    requires d < 10 && d < |args|
    ensures Format(Slot(d) + y, args) == args[d] + Format(y, args)
    ensures Placeholders(Slot(d) + y) == {d} + Placeholders(y)
  {
    var t := Slot(d) + y;
    assert t[..3] == Slot(d) && t[3..] == y;
  }

  lemma FormatEmpty(args: seq<string>)
    ensures Format("", args) == "" && Placeholders("") == {}
  {
  }

  /** A plain text is copied by Format and has no placeholder. */
  lemma FormatPlainText(x: string, args: seq<string>)
    requires NoBrace(x)
    ensures Format(x, args) == x && Placeholders(x) == {}
  {
    FormatPlain(x, "", args);
    assert x + "" == x;
  }

  lemma SlotSpelled()
    ensures Slot(0) == "{0}" && Slot(1) == "{1}" && Slot(2) == "{2}"
  {
  }

  /** A plain segment followed by a placeholder: the segment is copied, the placeholder filled. */
  lemma FormatSegment(p: string, d: nat, rest: string, args: seq<string>)
    requires NoBrace(p) && d < 10 && d < |args|
    ensures Format(p + Slot(d) + rest, args) == p + args[d] + Format(rest, args)
    ensures Placeholders(p + Slot(d) + rest) == {d} + Placeholders(rest)
  {
    assert p + Slot(d) + rest == p + (Slot(d) + rest);
    FormatPlain(p, Slot(d) + rest, args);
    FormatSlot(d, rest, args);
  }

  /** One placeholder between plain segments. */
  lemma FormatOneSlot(t: string, p: string, d: nat, q: string, args: seq<string>)
    requires d < 10 && d < |args|
    requires t == p + Slot(d) + q
    requires NoBrace(p) && NoBrace(q)
    ensures Format(t, args) == p + args[d] + q
    ensures Placeholders(t) == {d}
  {
    FormatSegment(p, d, q, args);
    FormatPlainText(q, args);
  }

  /** Two placeholders between plain segments. */
  lemma FormatTwoSlots(t: string, p: string, d1: nat, m: string, d2: nat, q: string, args: seq<string>)
    requires d1 < 10 && d2 < 10 && d1 < |args| && d2 < |args|
    requires t == p + Slot(d1) + m + Slot(d2) + q
    requires NoBrace(p) && NoBrace(m) && NoBrace(q)
    ensures Format(t, args) == p + args[d1] + m + args[d2] + q
    ensures Placeholders(t) == {d1, d2}
  {
    var rest := m + Slot(d2) + q;
    assert t == p + Slot(d1) + rest;
    FormatSegment(p, d1, rest, args);
    FormatOneSlot(rest, m, d2, q, args);
    assert p + args[d1] + (m + args[d2] + q) == p + args[d1] + m + args[d2] + q;
  }

  /** Two adjacent placeholders between plain segments. */
  lemma FormatAdjacentSlots(t: string, p: string, d1: nat, d2: nat, q: string, args: seq<string>)
    requires d1 < 10 && d2 < 10 && d1 < |args| && d2 < |args|
    requires t == p + Slot(d1) + Slot(d2) + q
    requires NoBrace(p) && NoBrace(q)
    ensures Format(t, args) == p + args[d1] + args[d2] + q
    ensures Placeholders(t) == {d1, d2}
  {
    FormatTwoSlots(t, p, d1, "", d2, q, args);
  }

  /** A leading placeholder followed by plain text. */
  lemma FormatLeadingSlot(t: string, d: nat, q: string, args: seq<string>)
    requires d < 10 && d < |args|
    requires t == Slot(d) + q
    requires NoBrace(q)
    ensures Format(t, args) == args[d] + q
    ensures Placeholders(t) == {d}
  {
    FormatOneSlot(t, "", d, q, args);
  }

  /** A leading placeholder, a plain segment, a second placeholder and plain text. */
  lemma FormatSlotTextSlot(t: string, d1: nat, m: string, d2: nat, q: string, args: seq<string>)
    requires d1 < 10 && d2 < 10 && d1 < |args| && d2 < |args|
    requires t == Slot(d1) + m + Slot(d2) + q
    requires NoBrace(m) && NoBrace(q)
    ensures Format(t, args) == args[d1] + m + args[d2] + q
  {
    var rest := m + Slot(d2) + q;
    assert t == Slot(d1) + rest;
    FormatSlot(d1, rest, args);
    FormatOneSlot(rest, m, d2, q, args);
  }

  /** Two adjacent placeholders, a plain segment and a third placeholder. */
  lemma FormatThreeSlots(t: string, p: string, d1: nat, d2: nat, m: string, d3: nat, q: string, args: seq<string>)
    requires d1 < 10 && d2 < 10 && d3 < 10 && d1 < |args| && d2 < |args| && d3 < |args|
    requires t == p + Slot(d1) + Slot(d2) + m + Slot(d3) + q
    requires NoBrace(p) && NoBrace(m) && NoBrace(q)
    ensures Format(t, args) == p + args[d1] + args[d2] + m + args[d3] + q
  {
    var rest2 := m + Slot(d3) + q;
    var rest := Slot(d2) + rest2;
    assert t == p + Slot(d1) + rest;
    FormatSegment(p, d1, rest, args);
    FormatSlot(d2, rest2, args);
    FormatOneSlot(rest2, m, d3, q, args);
  }

  lemma PlaceholdersThreeSlots(t: string, p: string, d1: nat, d2: nat, m: string, d3: nat, q: string)
    requires d1 < 10 && d2 < 10 && d3 < 10
    requires t == p + Slot(d1) + Slot(d2) + m + Slot(d3) + q
    requires NoBrace(p) && NoBrace(m) && NoBrace(q)
    ensures Placeholders(t) == {d1, d2, d3}
  {
    var args := [[], [], [], [], [], [], [], [], [], []];
    var rest2 := m + Slot(d3) + q;
    var rest := Slot(d2) + rest2;
    assert t == p + Slot(d1) + rest;
    FormatSegment(p, d1, rest, args);
    FormatSlot(d2, rest2, args);
    FormatOneSlot(rest2, m, d3, q, args);
  }

  // The default templates, written as plain text and placeholders.

  lemma SetterTemplateSpelled()
    ensures Default.briefSetterDescFormat == "Sets the " + "{1}" + "{0}" + "."
  {
  }

  lemma GetterTemplateSpelled()
    ensures Default.briefGetterDescFormat == "Returns the " + "{1}" + "{0}" + "."
  {
  }

  lemma BoolGetterTemplateSpelled()
    ensures Default.briefBoolGetterDescFormat == "Returns true if the " + "{1}" + "{2}" + " " + "{0}" + "."
  {
  }

  lemma ParamSetterTemplateSpelled()
    ensures Default.paramSetterDescFormat == "{0}" + " to set."
  {
  }

  lemma ReturnTemplateSpelled()
    ensures Default.returnDescFormat == "The " + "{0}" + "."
  {
  }

  lemma ReturnBooleanTemplateSpelled()
    ensures Default.returnBooleanDescFormat == "True if " + "{0}" + ". False if not."
  {
  }

  lemma ParamBooleanTemplateSpelled()
    ensures Default.paramBooleanFormat == "If true, " + "{0}" + ". Otherwise not " + "{0}" + "."
  {
  }

  lemma FileTemplatesSpelled()
    ensures Default.fileCommentIsHeader == "Declares the " + "{0}" + "."
    ensures Default.fileCommentIsSource == "Implements the " + "{0}" + "."
    ensures Default.fileCommentIsInline == "Implements the " + "{0}" + "."
  {
  }

  // What the default templates produce, and which arguments they use.

  lemma DefaultBriefSetter(t: string, words: string, owner: string)
    requires t == Default.briefSetterDescFormat
    ensures Format(t, [words, owner]) == "Sets the " + owner + words + "."
    ensures Placeholders(t) == {0, 1}
  {
    SetterTemplateSpelled();
    SlotSpelled();
    FormatAdjacentSlots(t, "Sets the ", 1, 0, ".", [words, owner]);
  }

  lemma DefaultBriefGetter(t: string, words: string, owner: string)
    requires t == Default.briefGetterDescFormat
    ensures Format(t, [words, owner]) == "Returns the " + owner + words + "."
    ensures Placeholders(t) == {0, 1}
  {
    GetterTemplateSpelled();
    SlotSpelled();
    FormatAdjacentSlots(t, "Returns the ", 1, 0, ".", [words, owner]);
  }

  lemma DefaultBriefBoolGetter(t: string, words: string, cls: string, verb: string)
    requires t == Default.briefBoolGetterDescFormat
    ensures Format(t, [words, cls, verb]) == "Returns true if the " + cls + verb + " " + words + "."
    ensures Placeholders(t) == {0, 1, 2}
  {
    BoolGetterTemplateSpelled();
    SlotSpelled();
    FormatThreeSlots(t, "Returns true if the ", 1, 2, " ", 0, ".", [words, cls, verb]);
    PlaceholdersThreeSlots(t, "Returns true if the ", 1, 2, " ", 0, ".");
  }

  lemma DefaultParamSetter(t: string, words: string)
    requires t == Default.paramSetterDescFormat
    ensures Format(t, [words]) == words + " to set."
    ensures Placeholders(t) == {0}
  {
    ParamSetterTemplateSpelled();
    SlotSpelled();
    FormatLeadingSlot(t, 0, " to set.", [words]);
  }

  lemma DefaultReturn(t: string, words: string)
    requires t == Default.returnDescFormat
    ensures Format(t, [words]) == "The " + words + "."
    ensures Placeholders(t) == {0}
  {
    ReturnTemplateSpelled();
    SlotSpelled();
    FormatOneSlot(t, "The ", 0, ".", [words]);
  }

  lemma DefaultReturnBoolean(t: string, words: string)
    requires t == Default.returnBooleanDescFormat
    ensures Format(t, [words]) == "True if " + words + ". False if not."
    ensures Placeholders(t) == {0}
  {
    ReturnBooleanTemplateSpelled();
    SlotSpelled();
    FormatOneSlot(t, "True if ", 0, ". False if not.", [words]);
  }

  lemma DefaultParamBoolean(t: string, words: string)
    requires t == Default.paramBooleanFormat
    ensures Format(t, [words]) == "If true, " + words + ". Otherwise not " + words + "."
    ensures Placeholders(t) == {0}
  {
    ParamBooleanTemplateSpelled();
    SlotSpelled();
    FormatTwoSlots(t, "If true, ", 0, ". Otherwise not ", 0, ".", [words]);
  }

  lemma DefaultFileHeader(t: string, name: string)
    requires t == Default.fileCommentIsHeader
    ensures Format(t, [name]) == "Declares the " + name + "."
    ensures Placeholders(t) == {0}
  {
    FileTemplatesSpelled();
    SlotSpelled();
    FormatOneSlot(t, "Declares the ", 0, ".", [name]);
  }

  /** The source and inline templates are the same text. */
  lemma DefaultFileSource(t: string, name: string)
    requires t == Default.fileCommentIsSource || t == Default.fileCommentIsInline
    ensures Format(t, [name]) == "Implements the " + name + "."
    ensures Placeholders(t) == {0}
  {
    FileTemplatesSpelled();
    SlotSpelled();
    FormatOneSlot(t, "Implements the ", 0, ".", [name]);
  }
}
