# CppDoxyComplete comment engine in Dafny

CppDoxyComplete is a Visual Studio extension that writes Doxygen comment
blocks for C++ code. This project models its comment engine, the
`DoxygenGenerator` class, together with the parts it relies on: the string
helpers, the abbreviation map and the configuration record. The model
covers these operations:

- **Parser** (`CommentParser`). It reads an existing comment line by line:
  - the lines are split and trimmed;
  - each line is classified in priority order: `tparam`, `param [dir]`,
    any other tag, then plain `* text`;
  - the result is a `ParsedComment` holding brief lines, tparam and param
    maps (the first name wins), one return slot (the last one wins) and an
    ordered list of further sections.
- **Recognisers** (`CommentGrammar`). The .NET regular expressions the parser
  uses are modelled as explicit recognisers:
  - the match is the leftmost one;
  - every run is maximal;
  - the optional trailing capture follows the .NET rules for `.` and `$`;
  - a failed capture group reports index 0, as .NET does.
- **Renderer** (`Renderer`, `RendererProperties`). It writes the new block:
  - the brief section comes first;
  - then the aligned `tparam` and `param` lines with their `[in]`/`[in,out]`
    markers;
  - then the return line, then the other preserved sections;
  - single-line mode deletes every `"\r\n"`.

  Each `Write*` method threads the StringBuilder as a string and is proved
  to produce `Flatten` of a declarative list of pieces (`Break`, `Text`,
  `Tag`). The properties are proved about those pieces.
- **Heuristics** (`Heuristics`, `ParamDirections`). These cover:
  - parameter direction inference;
  - template-argument extraction;
  - the "smart" descriptions built from camel-case names and the
    configured `{0}`/`{1}`/`{2}` templates.
- **Smart indentation** (`Indentation`) and the **file header**
  (`FileHeader`).
- **Helpers**: `StringHelper` (Capitalize, SplitCamelCase,
  GetThirdPersonVerb), `Abbreviations` (a class over a map field that `Add`
  updates) and `Config` (the settings record and its defaults).

`Strings` holds the .NET string operations the code uses, written out on
`seq<char>`: Trim, Split, Replace, IndexOf, Join and others.

Some behaviours of the code are easy to misread; the model follows the
code:

- `ParseTemplateParams("Foo<T, U>::Bar")` is empty, because the name must
  end with `>`.
- The class name in generated text is lower-case ("user profile's"),
  because SplitCamelCase lower-cases every word.
- `ParseExtraComments` returns the index of the last line it consumed. Its
  doc comment says "the first line not treated", but the code returns
  `i - 1`.
- `GetThirdPersonVerb` uses the character class `[ch|s|sh|x|z]` as written:
  a verb ending in `c`, `h`, `|`, `s`, `x` or `z` takes "es". So "sync"
  becomes "synces".

## Model

| member | source | states |
|---|---|---|
| Config.TagChar | CppDoxyComplete/DoxygenConfig.cs:68-82 | The tag character is `\` exactly for the Qt style and `@` otherwise, so it is always one of the two |
| Config.FirstLineString | CppDoxyComplete/DoxygenConfig.cs:44-58 | The first line is three characters starting with `/*`; it ends in `!` exactly for SlashStarExclamation and in `*` exactly for SlashStarStar |
| Config.DefaultStyle | CppDoxyComplete/DoxygenConfig.cs:29-102 | The default settings have tag indentation 0, tag character `@` and first line `/**`, and UseSingleLineComment, UseBriefTag, SmartComments and SmartCommentsForAllFunctions all on |
| Config.DefaultBriefSetter | CppDoxyComplete/DoxygenConfig.cs:112 | The default setter template uses exactly the placeholders {0} and {1} and formats to "Sets the <owner><words>." |
| Config.DefaultBriefGetter | CppDoxyComplete/DoxygenConfig.cs:113 | The default getter template uses exactly {0} and {1} and formats to "Returns the <owner><words>." |
| Config.DefaultBriefBoolGetter | CppDoxyComplete/DoxygenConfig.cs:114 | The default bool-getter template uses exactly {0}, {1} and {2} |
| Config.DefaultParamSetter | CppDoxyComplete/DoxygenConfig.cs:115 | The default parameter-setter template uses {0} only |
| Config.DefaultReturn | CppDoxyComplete/DoxygenConfig.cs:116 | The default return template uses {0} only |
| Config.DefaultReturnBoolean | CppDoxyComplete/DoxygenConfig.cs:117 | The default boolean return template uses {0} only |
| Config.DefaultParamBoolean | CppDoxyComplete/DoxygenConfig.cs:118 | The default boolean parameter template uses {0} only, twice |
| Config.DefaultFileHeader | CppDoxyComplete/DoxygenConfig.cs:119 | The default header-file template uses {0} only |
| Config.DefaultFileSource | CppDoxyComplete/DoxygenConfig.cs:120-121 | The default source- and inline-file templates use {0} only |
| Config.FormatOneSlot | CppDoxyComplete/DoxygenGenerator.cs:855-863 | Formatting a template with one placeholder puts that argument in its place and keeps the text around it |
| Config.FormatTwoSlots | CppDoxyComplete/DoxygenGenerator.cs:793-797 | Formatting a template with two separated placeholders substitutes both and reports exactly those two indices |
| Config.FormatThreeSlots | CppDoxyComplete/DoxygenGenerator.cs:801 | Formatting a template with three placeholders substitutes each argument at its slot |
| Config.Format | CppDoxyComplete/DoxygenGenerator.cs:855-863 | With no arguments the template comes back unchanged; the substitution itself is stated by FormatOneSlot, FormatTwoSlots and FormatThreeSlots |
| StringHelper.Capitalize | CppDoxyComplete/StringHelper.cs:17-25 | Empty stays empty; otherwise the length is kept, the first character is upper-cased and every other character is unchanged |
| StringHelper.CapitalizeIdempotent | CppDoxyComplete/StringHelper.cs:17-25 | Capitalizing twice is the same as capitalizing once |
| StringHelper.CapitalizeKeeps | CppDoxyComplete/StringHelper.cs:17-25 | A string not starting with a lower-case letter is returned unchanged |
| StringHelper.SplitCamelCase | CppDoxyComplete/StringHelper.cs:32-36 | The empty string has no words; no word is empty, contains a space or an underscore, or contains an upper-case letter |
| StringHelper.SplitCamelCaseConcat | CppDoxyComplete/StringHelper.cs:34-35 | For input whose only white space is spaces, the words concatenated are the lower-cased input without spaces and underscores |
| StringHelper.SplitCamelCaseAtUpper | CppDoxyComplete/StringHelper.cs:34 | An upper-case letter always starts a new word: the words of a + U + b are those of a followed by those of U + b |
| StringHelper.SplitCamelCaseUpperStart | CppDoxyComplete/StringHelper.cs:34 | The word an upper-case letter starts begins with that letter lower-cased |
| StringHelper.SplitCamelCaseUntrimmed | CppDoxyComplete/StringHelper.cs:34-35 | Trimming before splitting changes nothing for input whose only white space is spaces |
| StringHelper.GetThirdPersonVerb | CppDoxyComplete/StringHelper.cs:43-61 | The result always ends in "s", is one or two characters longer than the verb and keeps all but the verb's last character |
| StringHelper.ThirdPersonPlainS | CppDoxyComplete/StringHelper.cs:45-60 | The plain "+s" form is produced exactly when the verb is not "do", does not end in "y" and does not end in the class {c,h,\|,s,x,z} |
| StringHelper.ThirdPersonExamples | CppDoxyComplete/StringHelper.cs:45-60 | "do" gives "does", a final "y" becomes "ies", a final class character takes "es" ("sync" gives "synces"), anything else takes "s" |
| Abbreviations.Expand | CppDoxyComplete/AbbreviationMap.cs:50-58 | A key maps to its value; any other word is returned as it is |
| Abbreviations.AbbreviationMap.constructor | CppDoxyComplete/AbbreviationMap.cs:21-23 | A new map is empty |
| Abbreviations.AbbreviationMap.Add | CppDoxyComplete/AbbreviationMap.cs:30-33 | Succeeds exactly on an absent key and then maps it to the new value; on a present key it fails and leaves the map unchanged; either way no other key's lookup changes |
| Abbreviations.AbbreviationMap.Contains | CppDoxyComplete/AbbreviationMap.cs:40-43 | True exactly when the abbreviation is a key (exact, case-sensitive match); reads only |
| Abbreviations.AbbreviationMap.Unabbreviate | CppDoxyComplete/AbbreviationMap.cs:50-58 | A key gives its stored value and any other word is returned unchanged; reads only |
| ParamDirections.DirectionToString | CppDoxyComplete/DoxygenGenerator.cs:958-972 | Every direction is written as a bracketed marker of lower-case letters and commas |
| ParamDirections.DirectionRoundTrip | CppDoxyComplete/DoxygenGenerator.cs:958-993 | Reading back the marker of any direction gives that direction |
| ParamDirections.DirectionToStringInjective | CppDoxyComplete/DoxygenGenerator.cs:958-972 | Distinct directions have distinct markers |
| ParamDirections.ToDirectionDefault | CppDoxyComplete/DoxygenGenerator.cs:979-993 | Any string that is not a direction marker reads as In |
| ParamDirections.ToDirection | CppDoxyComplete/DoxygenGenerator.cs:979-993 | The result is In, or a direction whose marker is exactly the input string |
| Heuristics.ParseTemplateParamsSpec | CppDoxyComplete/DoxygenGenerator.cs:1000-1016 | Empty unless the name ends with `>` and contains `<`; otherwise (commas + 1) names with no space or comma, whose comma-join is the text between the first `<` and the last `>` without spaces |
| Heuristics.ParseTemplateParams | CppDoxyComplete/DoxygenGenerator.cs:1000-1016 | The result is non-empty exactly when the name ends with `>` and contains `<` |
| Heuristics.IsInput | CppDoxyComplete/DoxygenGenerator.cs:435-463 | The flag loop over the space-separated tokens computes IsInputType: a `const` token, or no `&`/`*` token and no trailing `&`/`*` |
| Heuristics.GetParamDirectionSpec | CppDoxyComplete/DoxygenGenerator.cs:589-608 | A parsed entry's direction is kept; without one the result is never Out, is In for a constructor, and otherwise is InOut exactly when the type is not an input type |
| Heuristics.GetParamDirection | CppDoxyComplete/DoxygenGenerator.cs:589-608 | A parsed entry's direction is returned as it is; without a parsed entry the result is never Out |
| Heuristics.FindOutParam | CppDoxyComplete/DoxygenGenerator.cs:885-896 | The search loop reports an out parameter exactly when some parameter's inferred direction is not In |
| Heuristics.AnyOutParamWitness | CppDoxyComplete/DoxygenGenerator.cs:885-896 | When an out parameter is reported, a parameter whose direction is not In exists |
| Heuristics.AnyOutParamAt | CppDoxyComplete/DoxygenGenerator.cs:885-896 | Any parameter whose direction is not In makes the report true |
| Heuristics.ConstructorHasNoOutParams | CppDoxyComplete/DoxygenGenerator.cs:589-608 | A constructor never has out parameters |
| Heuristics.UnabbreviateAll | CppDoxyComplete/DoxygenGenerator.cs:926-940 | Each word is expanded through the abbreviation map, position by position |
| Heuristics.LongWords | CppDoxyComplete/DoxygenGenerator.cs:685-697 | Only words longer than one character of the input are kept |
| Heuristics.GetClassName | CppDoxyComplete/DoxygenGenerator.cs:678-700 | The accumulator loop computes the class display name: the camel-case words longer than one character, expanded and joined by spaces |
| Heuristics.JoinLongWords | CppDoxyComplete/DoxygenGenerator.cs:685-697 | The loop's result is the space-join of the expanded long words |
| Heuristics.ClassNameStep | CppDoxyComplete/DoxygenGenerator.cs:687-696 | One more word is skipped when it has at most one character, else appended with a separating space |
| Heuristics.ClassNameWords | CppDoxyComplete/DoxygenGenerator.cs:678-700 | An empty class name gives ""; otherwise the display name splits back on spaces into exactly the expanded long words |
| Heuristics.VerbTemplateFormat | CppDoxyComplete/DoxygenGenerator.cs:827 | The verb template formats to "<verb> the <object>." |
| Heuristics.BriefDescFixed | CppDoxyComplete/DoxygenGenerator.cs:749-765 | No element or a non-function gives ""; a constructor gives "Constructor." and a destructor "Destructor." |
| Heuristics.BriefDescAccessor | CppDoxyComplete/DoxygenGenerator.cs:768-798 | Under the default templates a get-name gives "Returns the <owner's ><rest>." and a set-name "Sets the <owner's ><rest>." |
| Heuristics.BriefDescBoolGetter | CppDoxyComplete/DoxygenGenerator.cs:784-802 | Under the default template an is- or has-name gives "Returns true if the <class> <is/has> <rest>." |
| Heuristics.BriefDescVerb | CppDoxyComplete/DoxygenGenerator.cs:805-828 | Any other name, with smart comments for all functions, gives "<Verb>s the <object>.", with the object being the rest of the name or the owning class |
| Heuristics.BriefDescSingleFreeWord | CppDoxyComplete/DoxygenGenerator.cs:786-829 | A one-word free function gets no brief text |
| Heuristics.TryGenerateBriefDesc | CppDoxyComplete/DoxygenGenerator.cs:749-831 | No element, or an element that is not a function, gets no brief text |
| Heuristics.ParamDescDefault | CppDoxyComplete/DoxygenGenerator.cs:842-864 | A bool parameter gives "If true, w. Otherwise not w."; in a setter "W to set."; in a getter an output parameter gives "The w." |
| Heuristics.ParamDescNone | CppDoxyComplete/DoxygenGenerator.cs:842-867 | Every other parameter gets no text |
| Heuristics.TryGenerateParamDesc | CppDoxyComplete/DoxygenGenerator.cs:842-867 | Text is produced only for a bool parameter, in a set-name function, or in a get-name function for a parameter whose inferred direction is not In |
| Heuristics.ReturnDescDefault | CppDoxyComplete/DoxygenGenerator.cs:874-919 | A get-name returns "The <rest>." (or "True if successful. False if not." for a bool getter with out parameters); is- and has-names return "True if ... False if not." |
| Heuristics.ReturnDescNone | CppDoxyComplete/DoxygenGenerator.cs:874-919 | Any other name gets no return text |
| Heuristics.TryGenerateReturnDesc | CppDoxyComplete/DoxygenGenerator.cs:874-917 | Text is produced only for a name of more than one camel-case word whose first word is get, is or has |
| Heuristics.SplitExtension | CppDoxyComplete/DoxygenGenerator.cs:715-716 | The base name and the extension concatenate to the file name; the extension is empty (no dot at all) or a dot followed by no further dot |
| Heuristics.FileDescDefault | CppDoxyComplete/DoxygenGenerator.cs:707-742 | Under the default templates `.h`/`.hpp` give "Declares the <name>.", `.c`/`.cpp`/`.cxx`/`.inl` give "Implements the <name>.", with " interface" for an I-prefixed name, and other extensions give "" |
| Heuristics.FileDescOff | CppDoxyComplete/DoxygenGenerator.cs:712 | With smart comments off no file description is made |
| Heuristics.TryGenerateFileDesc | CppDoxyComplete/DoxygenGenerator.cs:707-742 | Text is produced only with smart comments on and an extension among .h, .hpp, .c, .cpp, .cxx and .inl |
| CommentGrammar.MatchTail | CppDoxyComplete/DoxygenGenerator.cs:948-950 | The optional trailing group `(?:\s+(.*))?$`: absent exactly at the end of the line; when present it starts after a maximal run of white space with no line feed inside, and it always matches white space in a line without line feeds |
| CommentGrammar.CaptureValue | CppDoxyComplete/DoxygenGenerator.cs:948-950 | The captured text has no line feed, is made of the line's characters, and is the rest of the line from the capture start |
| CommentGrammar.TParamAt | CppDoxyComplete/DoxygenGenerator.cs:949 | A tparam match records its `*` and a non-empty word-character name |
| CommentGrammar.ParamAt | CppDoxyComplete/DoxygenGenerator.cs:948 | A param match records a non-empty name and a bracketed direction marker |
| CommentGrammar.TagAt | CppDoxyComplete/DoxygenGenerator.cs:950 | A tag match records a non-empty lower-case tag name |
| CommentGrammar.MatchTParam | CppDoxyComplete/DoxygenGenerator.cs:949 | A tparam match returned is anchored at a `*` of the line and is the pattern's match at that `*` |
| CommentGrammar.MatchParam | CppDoxyComplete/DoxygenGenerator.cs:948 | A param match returned is anchored at a `*` of the line and is the pattern's match at that `*` |
| CommentGrammar.MatchTag | CppDoxyComplete/DoxygenGenerator.cs:950 | A tag match returned is anchored at a `*` of the line and is the pattern's match at that `*` |
| CommentGrammar.MatchText | CppDoxyComplete/DoxygenGenerator.cs:1069 | A text capture returned is a non-empty proper suffix of the line |
| CommentGrammar.FindTParamLeftmost | CppDoxyComplete/DoxygenGenerator.cs:949 | The match found is at the leftmost `*` where the pattern matches; none is found only when no `*` matches |
| CommentGrammar.FindParamLeftmost | CppDoxyComplete/DoxygenGenerator.cs:948 | The same leftmost-match property for the param pattern |
| CommentGrammar.FindTagLeftmost | CppDoxyComplete/DoxygenGenerator.cs:950 | The same leftmost-match property for the tag pattern |
| CommentGrammar.FindTextLeftmost | CppDoxyComplete/DoxygenGenerator.cs:1069 | The same leftmost-match property for the text pattern |
| CommentGrammar.MatchTextSuffix | CppDoxyComplete/DoxygenGenerator.cs:1069 | The text capture is a non-empty proper suffix of the line |
| CommentGrammar.TagAtWord | CppDoxyComplete/DoxygenGenerator.cs:950 | A `*`, white space, the tag character, a lower-case word and white space make a tag match with that word |
| CommentGrammar.TParamOrParamIsTag | CppDoxyComplete/DoxygenGenerator.cs:948-950 | Every line the tparam or param pattern accepts is also accepted by the tag pattern |
| CommentParser.CommentLines | CppDoxyComplete/DoxygenGenerator.cs:476-482 | Splitting the comment on CR and LF and trimming gives lines without line breaks |
| CommentParser.TrimLines | CppDoxyComplete/DoxygenGenerator.cs:480-482 | The in-place loop replaces every line by its trimmed form |
| CommentParser.ContinuationEnd | CppDoxyComplete/DoxygenGenerator.cs:617-650 | The continuation stops at the first line that ends it (blank, `*`, `*/`, a tag or a non-text line), and no earlier line ends it |
| CommentParser.ParseExtraComments | CppDoxyComplete/DoxygenGenerator.cs:617-650 | Returns r with startIndex-1 <= r < |lines|, r+1 the continuation end, having appended exactly the text captures of lines[startIndex..r] |
| CommentParser.ContinuationText | CppDoxyComplete/DoxygenGenerator.cs:624-646 | The checks stop the loop exactly at a line that ends a continuation (blank, `*`, `*/`, a tag line or a non-text line); otherwise they yield that line's text capture |
| CommentParser.ContinuationStopsAtParams | CppDoxyComplete/DoxygenGenerator.cs:630-636 | A tparam or param line always ends a continuation |
| CommentParser.Step | CppDoxyComplete/DoxygenGenerator.cs:489-576 | Every classification step strictly advances the scan index and stays within the lines, so no line is consumed twice |
| CommentParser.ParseLine | CppDoxyComplete/DoxygenGenerator.cs:489-576 | The loop body for one line computes the declarative step |
| CommentParser.ParseTParamLine | CppDoxyComplete/DoxygenGenerator.cs:495-511 | The tparam branch computes the declarative tparam step |
| CommentParser.ParseParamLine | CppDoxyComplete/DoxygenGenerator.cs:515-532 | The param branch computes the declarative param step |
| CommentParser.ParseTagLine | CppDoxyComplete/DoxygenGenerator.cs:536-563 | The tag branch computes the declarative tag step |
| CommentParser.ParseComment | CppDoxyComplete/DoxygenGenerator.cs:470-580 | The parse equals the declarative scan; an empty comment gives the empty result; every stored line and section is non-empty and single-line |
| CommentParser.ParseSpecWellFormed | CppDoxyComplete/DoxygenGenerator.cs:502-571 | Every stored line (brief, tparam, param, return, sections) is non-empty and every section has at least one line, as AppendComments needs |
| CommentParser.ParseFromWellFormed | CppDoxyComplete/DoxygenGenerator.cs:487-576 | The scan keeps the result well formed from any starting point |
| CommentParser.ParseFromExtends | CppDoxyComplete/DoxygenGenerator.cs:487-576 | The scan never removes or rebinds an entry: stored names keep their entries, brief lines and sections only grow |
| CommentParser.ParseSpecFirstWins | CppDoxyComplete/DoxygenGenerator.cs:502-522 | Whatever the scan has stored at any point is still in the final result, so the first tparam or param name wins |
| CommentParser.TParamIgnored | CppDoxyComplete/DoxygenGenerator.cs:502 | A tparam whose name is already present or whose text is empty adds nothing |
| CommentParser.ParamIgnored | CppDoxyComplete/DoxygenGenerator.cs:522 | A param whose name is already present or whose text is empty adds nothing |
| CommentParser.EmptyTagIgnored | CppDoxyComplete/DoxygenGenerator.cs:543 | A tag with empty trailing text adds nothing |
| CommentParser.ReturnOverwrites | CppDoxyComplete/DoxygenGenerator.cs:550-553 | A return or returns section replaces any earlier one |
| CommentParser.BriefAppends | CppDoxyComplete/DoxygenGenerator.cs:554-557 | A brief section appends its lines to the brief lines |
| CommentParser.SectionAppends | CppDoxyComplete/DoxygenGenerator.cs:558-561 | Any other section is appended to the sections in the order met |
| Renderer.AppendComments | CppDoxyComplete/DoxygenGenerator.cs:659-671 | Appends the first line as it is and each later line on a new ` *  ` line indented by indentCount spaces |
| Renderer.UseSingleLineComment | CppDoxyComplete/DoxygenGenerator.cs:84-96 | Single-line mode is chosen only when the switch is on and the element is absent or not a function |
| Renderer.GenerateTagString | CppDoxyComplete/DoxygenGenerator.cs:166-169 | The tag line has length indentation + tag length + 2, the tag character at column indentation and the tag right after it |
| Renderer.CommentBlockShape | CppDoxyComplete/DoxygenGenerator.cs:659-671 | The block is the first line followed, for each later line, by a break and that line's indented text |
| Renderer.WriteBriefComment | CppDoxyComplete/DoxygenGenerator.cs:224-277 | The brief section written is the declarative brief pieces for the element's single-line mode, the preserved brief lines and the generated description; the description is consulted only when smart comments are on and no brief line was preserved |
| Renderer.WriteTaggedBrief | CppDoxyComplete/DoxygenGenerator.cs:228-253 | The brief section in the tagged style, written as the brief pieces say |
| Renderer.WritePlainBrief | CppDoxyComplete/DoxygenGenerator.cs:255-276 | The brief section in the untagged style, written as the brief pieces say |
| Renderer.MaxLength | CppDoxyComplete/DoxygenGenerator.cs:299-304 | The width bounds every name and is 0 for no names |
| Renderer.MaxLengthAttained | CppDoxyComplete/DoxygenGenerator.cs:299-304 | Some name has exactly that width |
| Renderer.MaxNameLen | CppDoxyComplete/DoxygenGenerator.cs:299-304 | The maximum loop computes the widest template-parameter name |
| Renderer.WriteTemplateParamComments | CppDoxyComplete/DoxygenGenerator.cs:286-331 | Writes nothing when the full name has no template arguments; otherwise a blank line then one aligned tag line per argument, followed by its preserved text when there is one |
| Renderer.MaxParamLengths | CppDoxyComplete/DoxygenGenerator.cs:344-365 | The first loop computes the widest direction marker and the widest parameter name |
| Renderer.MaxParamStep | CppDoxyComplete/DoxygenGenerator.cs:347-364 | One loop iteration keeps both running maxima over the parameters seen so far |
| Renderer.ParamsFit | CppDoxyComplete/DoxygenGenerator.cs:344-365 | Every parameter's marker and name fit in the computed widths |
| Renderer.WriteParamComments | CppDoxyComplete/DoxygenGenerator.cs:340-405 | Writes nothing without parameters; otherwise a blank line then, for each parameter, an aligned tag line with its direction, followed by its preserved text, or by a generated description when smart comments are on and it is the only parameter |
| Renderer.WriteParamEntry | CppDoxyComplete/DoxygenGenerator.cs:374-400 | One parameter's aligned tag line, then its preserved text, or the synthesised description when it has no comment, smart comments are on and it is the function's only parameter |
| Renderer.WriteParamLines | CppDoxyComplete/DoxygenGenerator.cs:372-402 | The loop over the parameters appends, in order, exactly the entry of every parameter after the blank line |
| Renderer.WriteReturnComment | CppDoxyComplete/DoxygenGenerator.cs:414-433 | Writes nothing for `void`; otherwise a blank line and the return tag line, followed by the preserved return section, or by the generated description when smart comments are on |
| Renderer.WriteSections | CppDoxyComplete/DoxygenGenerator.cs:133-139 | Writes every preserved section, in order, as a blank line, its tag line and its comment block |
| Renderer.WriteElementComments | CppDoxyComplete/DoxygenGenerator.cs:118-130 | Template parameters for any element; parameters and the return line for functions only |
| Renderer.WriteBlock | CppDoxyComplete/DoxygenGenerator.cs:113-141 | The builder holds the first line, the brief, the element's sections, the preserved sections and the closing line; the brief heuristic is consulted only with smart comments on and no preserved brief line |
| Renderer.BlockFlatten | CppDoxyComplete/DoxygenGenerator.cs:113-141 | The block text is those five parts in that order |
| Renderer.GenerateComment | CppDoxyComplete/DoxygenGenerator.cs:105-149 | The comment is the rendering of the parsed existing comment, with every `"\r\n"` deleted in single-line mode; the brief heuristic runs only when smart comments are on and the existing comment has no brief line |
| RendererProperties.BlockFrame | CppDoxyComplete/DoxygenGenerator.cs:113-141 | The block starts with the first-line string and ends with a break, the indentation and ` */` |
| RendererProperties.JoinedFrame | CppDoxyComplete/DoxygenGenerator.cs:141-146 | With the breaks removed the text still starts with the first-line string and ends with the indentation and ` */` |
| RendererProperties.CollapseFlatten | CppDoxyComplete/DoxygenGenerator.cs:143-146 | For pieces without line breaks, deleting every `"\r\n"` gives the pieces joined without breaks, which has no line break |
| RendererProperties.BlockPlain | CppDoxyComplete/DoxygenGenerator.cs:84-146 | In single-line mode every piece of the block is free of CR and LF when the indentation and the name are |
| RendererProperties.SingleLineComment | CppDoxyComplete/DoxygenGenerator.cs:84-146 | In single-line mode the comment has no line break, starts with the first-line string and ends with ` */`, whatever the existing comment |
| RendererProperties.TagStringIsReturn | CppDoxyComplete/DoxygenGenerator.cs:166-169 | A tag line equals the return line exactly when the tag is `return` |
| RendererProperties.ReturnLineIffNonVoid | CppDoxyComplete/DoxygenGenerator.cs:414-433 | A function's block holds the return tag line exactly when its type is not `void` |
| RendererProperties.ArgumentsNoReturnTag | CppDoxyComplete/DoxygenGenerator.cs:286-405 | The template-parameter and parameter lines never hold the return tag line |
| RendererProperties.SectionsNoReturnTag | CppDoxyComplete/DoxygenGenerator.cs:133-139 | The preserved sections, which are never return sections, never hold the return tag line |
| RendererProperties.TParamTagLineLayout | CppDoxyComplete/DoxygenGenerator.cs:307-321 | A tparam tag line has length indent+8+width+1, the name at column indent+8 and spaces after it |
| RendererProperties.TemplateTagsAligned | CppDoxyComplete/DoxygenGenerator.cs:299-321 | Every tparam tag line of a block has the same length, its name at the same column and only spaces after it |
| RendererProperties.ParamTagLineLayout | CppDoxyComplete/DoxygenGenerator.cs:368-391 | A param tag line has the marker at column indent+7, the name at the common column indent+8+marker width, spaces between and after, and a fixed length |
| RendererProperties.ParamEntriesAligned | CppDoxyComplete/DoxygenGenerator.cs:344-391 | At given widths every param tag line has the same length, its marker at one common column and its name at another |
| RendererProperties.ParamPiecesEntries | CppDoxyComplete/DoxygenGenerator.cs:340-405 | The parameter pieces of a block are a blank line and the entries at the widths the block computes, and every parameter fits those widths |
| Indentation.DecidingTail | CppDoxyComplete/DoxygenGenerator.cs:35-77 | A capture decides exactly when one of the three patterns matches |
| Indentation.GenerateIndentation | CppDoxyComplete/DoxygenGenerator.cs:35-77 | On failure the offset is unchanged; on success it is capture index + 1 with the capture right of the caret; tparam, param and tag are tried in that order and the first match decides |
| Indentation.OnlyTagLinesIndent | CppDoxyComplete/DoxygenGenerator.cs:35-77 | A line the tag pattern rejects never moves the caret |
| Indentation.IndentLandsAfterSpace | CppDoxyComplete/DoxygenGenerator.cs:35-77 | A successful move lands inside the previous line, just after white space, at the start of the tag's trailing text |
| FileHeader.GenerateFileComment | CppDoxyComplete/DoxygenGenerator.cs:185-214 | Removing the cursor marker keeps the line count and the text before the first marker, and the caret line is the number of line breaks before it (the last line when there is no marker) |
| FileHeader.ReplaceUpToFirst | CppDoxyComplete/DoxygenGenerator.cs:200-203 | Replacing from the left keeps everything before the first occurrence |
| FileHeader.PlainTemplate | CppDoxyComplete/DoxygenGenerator.cs:185-214 | A template without placeholders is the header as it is, with the caret on its last line |
| FileHeader.FillPlaceholder | CppDoxyComplete/DoxygenGenerator.cs:185-214 | A template with one placeholder between brace-free texts, filled with brace-free values, is those texts around the placeholder's value, with the caret on its last line |

## Left out

- The editor host in TripleSlashCompletionCommandHandler.cs (command chain, keystrokes, caret and buffer edits, completion sessions) is not part of this model. The offsets and lines it passes to GenerateIndentation and GenerateFileComment are parameters.
- GenerateTagStartLine (DoxygenGenerator.cs:156-159) is used only by that editor host, so it is not modelled.
- The EnvDTE code model is replaced by the `CodeElement` descriptor:
  - the kind, name, full name, function kind and parameters (name and type text);
  - the return type text and the enclosing class.
  The FunctionKind bit mask is one value, so a function cannot be both constructor and destructor.
- The file and project names, the user name (Environment.UserName) and the date (DateTime.Now) in GenerateFileComment are parameters, because they come from the editor, the environment and the clock.
- Path.GetExtension and Path.GetFileNameWithoutExtension are modelled as a split at the last dot. Directories and other path rules are not modelled.
- A general .NET regex engine is not modelled. The four patterns and the StringHelper expressions are dedicated recognisers.
- The text pattern is modelled only on lines without line feeds. Those are the only lines the code applies it to.
- Unicode and culture rules for case mapping, white space and Trim are not modelled. ASCII is modelled.
- string.Format is modelled as substitution of single-digit `{n}` slots. Brace escaping, format specifiers and multi-digit indices are not modelled.
- Settings persistence (the serialization attribute on AbbreviationMap) is not modelled.
- UseSingleLineBrief is read by the code but not declared in the configuration, so it is a field of the configuration record. Its default is off.
- A negative TagIndentation, which makes InitStyle throw, is excluded by using `nat`.
- Heuristics.TryGenerateBriefDesc requires a function name with at least one camel-case word (BriefDescDefined). The code indexes the first word without checking. The renderer asks for this only when it consults the heuristic, that is with smart comments on and no preserved brief line (Renderer.BriefRenderable).
- Renderer.AppendComments requires a non-empty list, as the code reads `comments[0]`. The parser guarantees this for every list it stores (CommentParser.ParseSpecWellFormed).
- The StringBuilder is a string threaded through the Write methods, not a shared object.
- The synthesised parameter description (TryGenerateParamDesc) is computed once per block, for the sole parameter (Renderer.SmartParamDesc), not inside the loop. Only a function with exactly one parameter uses it, so the text is the same.
- RendererProperties.ParamEntriesAligned states the parameter alignment on the entries at given widths, not on the whole block. RendererProperties.ParamPiecesEntries connects it to the block's own widths.
- RendererProperties.ReturnLineIffNonVoid and the alignment lemmas are stated on the rendered pieces. Stating them on the final string is not proved.
- Renderer.WriteParamComments: the descriptor's parameters stand for the function's Children. The blank-line test (DoxygenGenerator.cs:368) counts Children; the model counts parameters. Children that are not a CodeParameter, which the casts at DoxygenGenerator.cs:350-351 and 375-376 skip, are not modelled.
- Renderer.WriteParamEntry: the only-parameter test (DoxygenGenerator.cs:398) uses the number of parameters in place of the number of Children, for the same reason.
- Heuristics.TryGenerateReturnDesc: the out-parameter search (DoxygenGenerator.cs:887-891) runs over the parameters; a non-parameter child, which the code would pass to GetParamDirection as null, is not modelled.
- Config.Format: string.Format throws a FormatException for a `{n}` whose index is not below the argument count and for an unmatched brace. The model copies such text unchanged. The templates come from the settings, so only a user-edited template reaches this case.
- FileHeader.FillPlaceholder covers templates with one placeholder. Templates with several placeholders are covered only by the definition of FillTemplate as one replacement per placeholder, in the code's order.
- A parse-after-render round trip is not proved.
- FileHeader.GenerateFileComment does not claim that no "{CURSOR}" remains. As in the code, a replacement text can bring one back, because the text is not rescanned.
- The private helpers built into the methods (InitStyle, the regex fields) are folded into the functions that use them.
