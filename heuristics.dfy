/**
 * The heuristics of the generator (DoxygenGenerator.cs): template
 * arguments read from a full name, the direction of a parameter guessed
 * from its type, and the "smart" texts synthesised from the words of a
 * name through the configured templates and the abbreviation table.
 */
module Heuristics {
  import opened Wrappers
  import opened Strings
  import opened StringHelper
  import opened Config
  import opened CodeModel
  import opened ParamDirections
  import opened CommentParser
  import Abbreviations

  // ---------------------------------------------------------------------
  // Template arguments
  // ---------------------------------------------------------------------

  /**
   * ParseTemplateParams: for a name ending in '>' that holds a '<', the
   * text between the first '<' and the final '>', spaces removed, split at
   * commas; no arguments otherwise.
   */
  function ParseTemplateParams(name: string): (r: seq<string>)
    ensures r != [] <==> EndsWith(name, ">") && IndexOf(name, "<") >= 0
  {
    if EndsWith(name, ">") && IndexOf(name, "<") >= 0 then
      Split(Replace(TemplateInterior(name), " ", ""), ',')
    else []
  }

  /** The text between the first '<' and the final '>' (Substring(start + 1, Length - start - 2)). */
  function TemplateInterior(name: string): string
    requires EndsWith(name, ">") && IndexOf(name, "<") >= 0
  {
    var start := IndexOf(name, "<");
    assert name[start..start + 1] == "<" && name[|name| - 1..] == ">";
    assert name[start] == '<' && name[|name| - 1] == '>';
    name[start + 1..|name| - 1]
  }

  lemma ParseTemplateParamsSpec(name: string)
    ensures !(EndsWith(name, ">") && IndexOf(name, "<") >= 0) ==> ParseTemplateParams(name) == []
    ensures EndsWith(name, ">") && IndexOf(name, "<") >= 0 ==>
      var r := ParseTemplateParams(name);
      var interior := TemplateInterior(name);
      && |r| == CountChar(interior, ',') + 1
      && (forall i :: 0 <= i < |r| ==> ' ' !in r[i] && ',' !in r[i])
      && Join(",", r) == Without(interior, {' '})
  {
    if EndsWith(name, ">") && IndexOf(name, "<") >= 0 {
      var interior := TemplateInterior(name);
      var flat := Replace(interior, " ", "");
      ReplaceCharByNothing(interior, ' ');
      ReplaceByNothingKeepsCount(interior, " ", ',');
      SplitNoneIn(flat, ',', {' '});
      SplitJoin(flat, ',');
      SplitCount(flat, ',');
      var r := Split(flat, ',');
      forall i | 0 <= i < |r| ensures ' ' !in r[i] {
        assert NoneIn(r[i], {' '});
      }
    }
  }

  // ---------------------------------------------------------------------
  // Parameter directions
  // ---------------------------------------------------------------------

  /**
   * A type is an input when one of its space-separated words is "const",
   * or when none of them is "&" or "*" and the type does not end in '&'
   * or '*'.
   */
  predicate IsInputType(typeName: string) {
    var words := Split(typeName, ' ');
    "const" in words || !("&" in words || "*" in words || EndsWith(typeName, "&") || EndsWith(typeName, "*"))
  }

  /** IsInput: the word scan of the source, stopping at "const". */
  method IsInput(typeName: string) returns (r: bool)
    ensures r == IsInputType(typeName)
  {
    var isConst := false;
    var isRef := false;
    var expressions := Split(typeName, ' ');
    var i := 0;
    while i < |expressions|
      invariant 0 <= i <= |expressions|
      invariant !isConst && "const" !in expressions[..i]
      invariant isRef <==> "&" in expressions[..i] || "*" in expressions[..i]
    {
      var e := expressions[i];
      assert expressions[..i + 1] == expressions[..i] + [e];
      if e == "const" {
        isConst := true;
        assert "const" in expressions;
        break;
      } else if e == "&" || e == "*" {
        isRef := true;
      }
      i := i + 1;
    }
    if !isConst {
      assert expressions[..i] == expressions;
    }
    if EndsWith(typeName, "&") || EndsWith(typeName, "*") {
      isRef := true;
    }
    r := isConst || !isRef;
  }

  /**
   * GetParamDirection: a direction found in the existing comment is kept;
   * otherwise a constructor's parameters are inputs, and any other
   * function's parameter is in-out exactly when its type is not an input.
   */
  function GetParamDirection(f: CodeElement, p: Parameter, parsed: Option<ParsedParam>): (r: ParamDirection)
    ensures parsed.Some? ==> r == parsed.value.direction
    ensures parsed.None? ==> r != Out
  {
    match parsed
    case Some(pp) => pp.direction
    case None => if !f.IsConstructor() && !IsInputType(p.typeName) then InOut else In
  }

  lemma GetParamDirectionSpec(f: CodeElement, p: Parameter, parsed: Option<ParsedParam>)
    ensures parsed.Some? ==> GetParamDirection(f, p, parsed) == parsed.value.direction
    ensures parsed.None? ==> GetParamDirection(f, p, parsed) != Out
    ensures parsed.None? && f.IsConstructor() ==> GetParamDirection(f, p, parsed) == In
    ensures parsed.None? && !f.IsConstructor() ==> (GetParamDirection(f, p, parsed) == InOut <==> !IsInputType(p.typeName))
  {
  }

  /** Some parameter of ps would be documented as not purely an input. */
  predicate AnyOutParam(f: CodeElement, ps: seq<Parameter>)
    decreases |ps|
  {
    ps != [] && (GetParamDirection(f, ps[|ps| - 1], None) != In || AnyOutParam(f, ps[..|ps| - 1]))
  }

  predicate HasOutParams(f: CodeElement) {
    AnyOutParam(f, f.parameters)
  }

  /** When AnyOutParam holds, some parameter of ps is not an input... */
  lemma {:induction false} AnyOutParamWitness(f: CodeElement, ps: seq<Parameter>) returns (k: nat)
    requires AnyOutParam(f, ps)
    ensures k < |ps| && GetParamDirection(f, ps[k], None) != In
    decreases |ps|
  {
    var init := ps[..|ps| - 1];
    if GetParamDirection(f, ps[|ps| - 1], None) != In {
      k := |ps| - 1;
    } else {
      k := AnyOutParamWitness(f, init);
      assert ps[k] == init[k];
    }
  }

  /** ... and any parameter that is not an input makes it hold. */
  lemma {:induction false} AnyOutParamAt(f: CodeElement, ps: seq<Parameter>, k: nat)
    requires k < |ps| && GetParamDirection(f, ps[k], None) != In
    ensures AnyOutParam(f, ps)
    decreases |ps|
  {
    if k < |ps| - 1 {
      var init := ps[..|ps| - 1];
      assert init[k] == ps[k];
      AnyOutParamAt(f, init, k);
    }
  }

  /** The hasOutParams loop of TryGenerateReturnDesc. */
  method FindOutParam(f: CodeElement) returns (hasOutParams: bool)
    ensures hasOutParams == HasOutParams(f)
  {
    hasOutParams := false;
    var i := 0;
    while i < |f.parameters|
      invariant 0 <= i <= |f.parameters|
      invariant !hasOutParams && !AnyOutParam(f, f.parameters[..i])
    {
      var p := f.parameters[i];
      var direction := GetParamDirection(f, p, None);
      assert f.parameters[..i + 1][..i] == f.parameters[..i];
      if direction != In {
        hasOutParams := true;
        AnyOutParamAt(f, f.parameters, i);
        break;
      }
      i := i + 1;
    }
    if !hasOutParams {
      assert f.parameters[..i] == f.parameters;
    }
  }

  /** A constructor has no out parameters, whatever their types. */
  lemma ConstructorHasNoOutParams(f: CodeElement)
    requires f.IsConstructor()
    ensures !HasOutParams(f)
  {
    if HasOutParams(f) {
      var k := AnyOutParamWitness(f, f.parameters);
    }
  }

  // ---------------------------------------------------------------------
  // Words and names
  // ---------------------------------------------------------------------

  function Unabbreviate(cfg: DoxygenConfig, w: string): string {
    Abbreviations.Expand(cfg.abbreviations, w)
  }

  function UnabbreviateAll(cfg: DoxygenConfig, words: seq<string>): (r: seq<string>)
    ensures |r| == |words| && forall i :: 0 <= i < |words| ==> r[i] == Unabbreviate(cfg, words[i])
  {
    seq(|words|, i requires 0 <= i < |words| => Unabbreviate(cfg, words[i]))
  }

  /** UnabbreviateAndJoin: the words from start on, unabbreviated and joined by single spaces. */
  function UnabbreviateAndJoin(cfg: DoxygenConfig, words: seq<string>, start: nat): string
    requires start <= |words|
  {
    Join(" ", UnabbreviateAll(cfg, words[start..]))
  }

  /** The words longer than one character, in order. */
  function LongWords(words: seq<string>): (r: seq<string>)
    ensures forall i :: 0 <= i < |r| ==> |r[i]| > 1 && r[i] in words
    decreases |words|
  {
    if words == [] then []
    else
      var rest := LongWords(words[..|words| - 1]);
      var w := words[|words| - 1];
      if |w| > 1 then rest + [w] else rest
  }

  /** The readable class name: its words longer than one character, unabbreviated, joined by spaces. */
  function ClassName(cfg: DoxygenConfig, className: string): string {
    Join(" ", UnabbreviateAll(cfg, LongWords(SplitCamelCase(className))))
  }

  /** GetClassName: the accumulation loop of the source with its first-word flag. */
  method GetClassName(cfg: DoxygenConfig, className: string) returns (objectName: string)
    ensures objectName == ClassName(cfg, className)
  {
    var parentWords := SplitCamelCase(className);
    objectName := JoinLongWords(cfg, parentWords);
  }

  /** The loop of GetClassName over the camel-case words of the class name. */
  method JoinLongWords(cfg: DoxygenConfig, parentWords: seq<string>) returns (objectName: string)
    ensures objectName == Join(" ", UnabbreviateAll(cfg, LongWords(parentWords)))
  {
    objectName := "";
    var first := true;
    var i := 0;
    while i < |parentWords|
      invariant 0 <= i <= |parentWords|
      invariant first <==> LongWords(parentWords[..i]) == []
      invariant objectName == Join(" ", UnabbreviateAll(cfg, LongWords(parentWords[..i])))
    {
      assert parentWords[..i + 1] == parentWords[..i] + [parentWords[i]];
      ClassNameStep(cfg, parentWords[..i], parentWords[i]);
      if |parentWords[i]| > 1 {
        if !first {
          objectName := objectName + " ";
        }
        objectName := objectName + Unabbreviate(cfg, parentWords[i]);
        first := false;
      }
      i := i + 1;
    }
    assert parentWords[..i] == parentWords;
  }

  /** One more camel-case word: skipped when short, else appended after a space unless it is the first. */
  lemma ClassNameStep(cfg: DoxygenConfig, words: seq<string>, w: string)
    ensures |w| <= 1 ==> LongWords(words + [w]) == LongWords(words)
    ensures |w| > 1 ==> LongWords(words + [w]) == LongWords(words) + [w]
    ensures |w| > 1 ==> (Join(" ", UnabbreviateAll(cfg, LongWords(words + [w]))) ==
      if LongWords(words) == [] then Unabbreviate(cfg, w)
      else Join(" ", UnabbreviateAll(cfg, LongWords(words))) + " " + Unabbreviate(cfg, w))
  {
    assert (words + [w])[..|words|] == words;
    if |w| > 1 {
      var done := LongWords(words);
      assert UnabbreviateAll(cfg, done + [w]) == UnabbreviateAll(cfg, done) + [Unabbreviate(cfg, w)];
      JoinAppend(" ", UnabbreviateAll(cfg, done), Unabbreviate(cfg, w));
    }
  }

  /**
   * With abbreviations that hold no space, the readable class name splits
   * back at its spaces into the words it was made of. The empty name has
   * the empty readable name.
   */
  lemma ClassNameWords(cfg: DoxygenConfig, className: string)
    requires forall w :: w in cfg.abbreviations ==> ' ' !in cfg.abbreviations[w]
    ensures className == "" ==> ClassName(cfg, className) == ""
    ensures var words := UnabbreviateAll(cfg, LongWords(SplitCamelCase(className)));
      words != [] ==> Split(ClassName(cfg, className), ' ') == words
  {
    var long := LongWords(SplitCamelCase(className));
    var words := UnabbreviateAll(cfg, long);
    forall i | 0 <= i < |words| ensures ' ' !in words[i] {
      var k :| 0 <= k < |SplitCamelCase(className)| && SplitCamelCase(className)[k] == long[i];
      assert NoneIn(long[i], WordSeparators);
    }
    if words != [] {
      JoinSplit(words, ' ');
    }
  }

  // ---------------------------------------------------------------------
  // Brief descriptions
  // ---------------------------------------------------------------------

  /** The literal template of the general case, "{0} the {1}.". */
  const VerbTemplate: string := "{0} the {1}."

  lemma VerbTemplateSpelled()
    ensures VerbTemplate == "{0}" + " the " + "{1}" + "."
  {
  }

  lemma VerbTemplateFormat(t: string, verb: string, dest: string)
    requires t == VerbTemplate
    ensures Format(t, [verb, dest]) == verb + " the " + dest + "."
  {
    VerbTemplateSpelled();
    SlotSpelled();
    FormatSlotTextSlot(t, 0, " the ", 1, ".", [verb, dest]);
  }

  /** What TryGenerateBriefDesc needs: a function name that splits into at least one word. */
  predicate BriefDescDefined(e: Option<CodeElement>) {
    e.Some? && e.value.IsFunction() && !e.value.IsConstructor() && !e.value.IsDestructor()
    ==> SplitCamelCase(e.value.name) != []
  }

  /** The readable name of the enclosing class, or "" outside a class. */
  function OwnerClassName(cfg: DoxygenConfig, f: CodeElement): string {
    match f.parentClass
    case Some(c) => ClassName(cfg, c)
    case None => ""
  }

  function TryGenerateBriefDesc(cfg: DoxygenConfig, e: Option<CodeElement>): (r: string)
    requires BriefDescDefined(e)
    ensures e.None? || !e.value.IsFunction() ==> r == ""
  {
    if e.None? || !e.value.IsFunction() then ""
    else
      var f := e.value;
      if f.IsConstructor() then "Constructor."
      else if f.IsDestructor() then "Destructor."
      else
        var funcNameWords := SplitCamelCase(f.name);
        var className := OwnerClassName(cfg, f);
        var owner := if f.parentClass.Some? then className + "'s " else "";
        var setter := funcNameWords[0] == "set";
        var getter := funcNameWords[0] == "get";
        var boolGetter := funcNameWords[0] == "is" || funcNameWords[0] == "has";
        if getter || setter || boolGetter then
          if |funcNameWords| > 1 then
            var rest := UnabbreviateAndJoin(cfg, funcNameWords, 1);
            if getter then Format(cfg.briefGetterDescFormat, [rest, owner])
            else if setter then Format(cfg.briefSetterDescFormat, [rest, owner])
            else Format(cfg.briefBoolGetterDescFormat, [rest, className + " ", funcNameWords[0]])
          else ""
        else if cfg.smartCommentsForAllFunctions then
          if |funcNameWords| > 1 || f.parentClass.Some? then
            var verb := GetThirdPersonVerb(Unabbreviate(cfg, funcNameWords[0]));
            var dest := if |funcNameWords| == 1 then className else UnabbreviateAndJoin(cfg, funcNameWords, 1);
            Capitalize(Format(VerbTemplate, [verb, dest]))
          else ""
        else ""
  }

  /** Only functions get a brief description; constructors and destructors get a fixed one. */
  lemma BriefDescFixed(cfg: DoxygenConfig, e: Option<CodeElement>)
    requires BriefDescDefined(e)
    ensures e.None? || !e.value.IsFunction() ==> TryGenerateBriefDesc(cfg, e) == ""
    ensures e.Some? && e.value.IsFunction() && e.value.IsConstructor() ==> TryGenerateBriefDesc(cfg, e) == "Constructor."
    ensures e.Some? && e.value.IsFunction() && e.value.IsDestructor() && !e.value.IsConstructor() ==>
              TryGenerateBriefDesc(cfg, e) == "Destructor."
  {
  }

  /**
   * With the default getter and setter templates, "getFooBar" of class C
   * reads "Returns the C's foo bar." and "setFooBar" reads "Sets the C's
   * foo bar.".
   */
  lemma BriefDescAccessor(cfg: DoxygenConfig, f: CodeElement)
    requires f.IsFunction() && !f.IsConstructor() && !f.IsDestructor()
    requires cfg.briefGetterDescFormat == Default.briefGetterDescFormat
    requires cfg.briefSetterDescFormat == Default.briefSetterDescFormat
    requires |SplitCamelCase(f.name)| > 1
    ensures var words := SplitCamelCase(f.name);
      var owner := if f.parentClass.Some? then OwnerClassName(cfg, f) + "'s " else "";
      var rest := UnabbreviateAndJoin(cfg, words, 1);
      && (words[0] == "get" ==> TryGenerateBriefDesc(cfg, Some(f)) == "Returns the " + owner + rest + ".")
      && (words[0] == "set" ==> TryGenerateBriefDesc(cfg, Some(f)) == "Sets the " + owner + rest + ".")
  {
    var words := SplitCamelCase(f.name);
    var owner := if f.parentClass.Some? then OwnerClassName(cfg, f) + "'s " else "";
    var rest := UnabbreviateAndJoin(cfg, words, 1);
    AccessorBrief(cfg, f);
    DefaultBriefGetter(cfg.briefGetterDescFormat, rest, owner);
    DefaultBriefSetter(cfg.briefSetterDescFormat, rest, owner);
  }

  /** The accessor branch of TryGenerateBriefDesc: the template of the accessor kind, filled in. */
  lemma AccessorBrief(cfg: DoxygenConfig, f: CodeElement)
    requires f.IsFunction() && !f.IsConstructor() && !f.IsDestructor()
    requires |SplitCamelCase(f.name)| > 1
    ensures var words := SplitCamelCase(f.name);
      var className := OwnerClassName(cfg, f);
      var owner := if f.parentClass.Some? then className + "'s " else "";
      var rest := UnabbreviateAndJoin(cfg, words, 1);
      && (words[0] == "get" ==> TryGenerateBriefDesc(cfg, Some(f)) == Format(cfg.briefGetterDescFormat, [rest, owner]))
      && (words[0] == "set" ==> TryGenerateBriefDesc(cfg, Some(f)) == Format(cfg.briefSetterDescFormat, [rest, owner]))
      && (words[0] == "is" || words[0] == "has" ==>
            TryGenerateBriefDesc(cfg, Some(f)) == Format(cfg.briefBoolGetterDescFormat, [rest, className + " ", words[0]]))
  {
  }

  /**
   * With the default bool-getter template, "isOpen" of class "File"
   * reads "Returns true if the file is open.".
   */
  lemma BriefDescBoolGetter(cfg: DoxygenConfig, f: CodeElement)
    requires f.IsFunction() && !f.IsConstructor() && !f.IsDestructor()
    requires cfg.briefBoolGetterDescFormat == Default.briefBoolGetterDescFormat
    requires |SplitCamelCase(f.name)| > 1
    requires SplitCamelCase(f.name)[0] == "is" || SplitCamelCase(f.name)[0] == "has"
    ensures var words := SplitCamelCase(f.name);
      TryGenerateBriefDesc(cfg, Some(f)) ==
        "Returns true if the " + (OwnerClassName(cfg, f) + " ") + words[0] + " " + UnabbreviateAndJoin(cfg, words, 1) + "."
  {
    var words := SplitCamelCase(f.name);
    var className := OwnerClassName(cfg, f);
    var rest := UnabbreviateAndJoin(cfg, words, 1);
    AccessorBrief(cfg, f);
    DefaultBriefBoolGetter(cfg.briefBoolGetterDescFormat, rest, className + " ", words[0]);
  }

  /**
   * Any other function name, when smart comments cover all functions,
   * reads "<Verb>s the <rest>.": the first word conjugated and capitalised,
   * then the remaining words or, for a one-word member, the class name.
   */
  lemma BriefDescVerb(cfg: DoxygenConfig, f: CodeElement)
    requires f.IsFunction() && !f.IsConstructor() && !f.IsDestructor()
    requires cfg.smartCommentsForAllFunctions
    requires SplitCamelCase(f.name) != []
    requires var w := SplitCamelCase(f.name)[0]; w != "get" && w != "set" && w != "is" && w != "has"
    requires |SplitCamelCase(f.name)| > 1 || f.parentClass.Some?
    ensures var words := SplitCamelCase(f.name);
      var verb := GetThirdPersonVerb(Unabbreviate(cfg, words[0]));
      var dest := if |words| == 1 then OwnerClassName(cfg, f) else UnabbreviateAndJoin(cfg, words, 1);
      TryGenerateBriefDesc(cfg, Some(f)) == Capitalize(verb + " the " + dest + ".")
  {
    var words := SplitCamelCase(f.name);
    var verb := GetThirdPersonVerb(Unabbreviate(cfg, words[0]));
    var dest := if |words| == 1 then OwnerClassName(cfg, f) else UnabbreviateAndJoin(cfg, words, 1);
    VerbBrief(cfg, f);
    VerbTemplateFormat(VerbTemplate, verb, dest);
  }

  /** The verb branch of TryGenerateBriefDesc: the verb template, filled in and capitalised. */
  lemma VerbBrief(cfg: DoxygenConfig, f: CodeElement)
    requires f.IsFunction() && !f.IsConstructor() && !f.IsDestructor()
    requires cfg.smartCommentsForAllFunctions
    requires SplitCamelCase(f.name) != []
    requires var w := SplitCamelCase(f.name)[0]; w != "get" && w != "set" && w != "is" && w != "has"
    requires |SplitCamelCase(f.name)| > 1 || f.parentClass.Some?
    ensures var words := SplitCamelCase(f.name);
      var verb := GetThirdPersonVerb(Unabbreviate(cfg, words[0]));
      var dest := if |words| == 1 then OwnerClassName(cfg, f) else UnabbreviateAndJoin(cfg, words, 1);
      TryGenerateBriefDesc(cfg, Some(f)) == Capitalize(Format(VerbTemplate, [verb, dest]))
  {
  }

  /** A one-word free function that is not an accessor gets no brief description. */
  lemma BriefDescSingleFreeWord(cfg: DoxygenConfig, f: CodeElement)
    requires f.IsFunction() && !f.IsConstructor() && !f.IsDestructor()
    requires |SplitCamelCase(f.name)| == 1 && f.parentClass.None?
    ensures TryGenerateBriefDesc(cfg, Some(f)) == ""
  {
  }

  // ---------------------------------------------------------------------
  // Parameter and return descriptions
  // ---------------------------------------------------------------------

  /**
   * TryGenerateParamDesc: a bool parameter, a parameter of a function
   * whose name starts with "set", and a non-input parameter of a function
   * whose name starts with "get" get a description; others get none.
   */
  function TryGenerateParamDesc(cfg: DoxygenConfig, parent: CodeElement, param: Parameter): (r: string)
    ensures r != "" ==> param.typeName == "bool" || StartsWith(parent.name, "set")
                        || (StartsWith(parent.name, "get") && GetParamDirection(parent, param, None) != In)
  {
    var setter := StartsWith(parent.name, "set");
    var getter := StartsWith(parent.name, "get");
    var isBoolean := param.typeName == "bool";
    if isBoolean || setter || (getter && GetParamDirection(parent, param, None) != In) then
      var template := if isBoolean then cfg.paramBooleanFormat else if setter then cfg.paramSetterDescFormat else cfg.returnDescFormat;
      Capitalize(Format(template, [UnabbreviateAndJoin(cfg, SplitCamelCase(param.name), 0)]))
    else ""
  }

  /** With the default templates the parameter texts read as follows. */
  lemma ParamDescDefault(cfg: DoxygenConfig, parent: CodeElement, param: Parameter)
    requires cfg.paramBooleanFormat == Default.paramBooleanFormat
    requires cfg.paramSetterDescFormat == Default.paramSetterDescFormat
    requires cfg.returnDescFormat == Default.returnDescFormat
    ensures var w := UnabbreviateAndJoin(cfg, SplitCamelCase(param.name), 0);
      && (param.typeName == "bool" ==>
            TryGenerateParamDesc(cfg, parent, param) == Capitalize("If true, " + w + ". Otherwise not " + w + "."))
      && (param.typeName != "bool" && StartsWith(parent.name, "set") ==>
            TryGenerateParamDesc(cfg, parent, param) == Capitalize(w + " to set."))
      && (param.typeName != "bool" && !StartsWith(parent.name, "set") && StartsWith(parent.name, "get")
          && !parent.IsConstructor() && !IsInputType(param.typeName) ==>
            TryGenerateParamDesc(cfg, parent, param) == Capitalize("The " + w + "."))
  {
    var w := UnabbreviateAndJoin(cfg, SplitCamelCase(param.name), 0);
    DefaultParamBoolean(cfg.paramBooleanFormat, w);
    DefaultParamSetter(cfg.paramSetterDescFormat, w);
    DefaultReturn(cfg.returnDescFormat, w);
  }

  /** Outside bool parameters, setters and getters nothing is synthesised; nor for inputs of a getter. */
  lemma ParamDescNone(cfg: DoxygenConfig, parent: CodeElement, param: Parameter)
    requires param.typeName != "bool" && !StartsWith(parent.name, "set")
    requires !StartsWith(parent.name, "get") || parent.IsConstructor() || IsInputType(param.typeName)
    ensures TryGenerateParamDesc(cfg, parent, param) == ""
  {
  }

  /**
   * TryGenerateReturnDesc: for a name of two or more words starting with
   * "get", "is" or "has"; a bool getter with out parameters returns
   * "successful".
   */
  function TryGenerateReturnDesc(cfg: DoxygenConfig, f: CodeElement): (r: string)
    ensures r != "" ==> var words := SplitCamelCase(f.name);
                        |words| > 1 && (words[0] == "get" || words[0] == "is" || words[0] == "has")
  {
    var words := SplitCamelCase(f.name);
    if |words| > 1 then
      if words[0] == "get" then
        if f.typeName == "bool" && HasOutParams(f) then
          Capitalize(Format(cfg.returnBooleanDescFormat, ["successful"]))
        else Capitalize(Format(cfg.returnDescFormat, [UnabbreviateAndJoin(cfg, words, 1)]))
      else if words[0] == "is" then
        Capitalize(Format(cfg.returnBooleanDescFormat, [UnabbreviateAndJoin(cfg, words, 1)]))
      else if words[0] == "has" then
        Capitalize(Format(cfg.returnBooleanDescFormat, ["has " + UnabbreviateAndJoin(cfg, words, 1)]))
      else ""
    else ""
  }

  /** With the default templates the return texts read as follows. */
  lemma ReturnDescDefault(cfg: DoxygenConfig, f: CodeElement)
    requires cfg.returnDescFormat == Default.returnDescFormat
    requires cfg.returnBooleanDescFormat == Default.returnBooleanDescFormat
    requires |SplitCamelCase(f.name)| > 1
    ensures var words := SplitCamelCase(f.name);
      var rest := UnabbreviateAndJoin(cfg, words, 1);
      && (words[0] == "get" && f.typeName == "bool" && HasOutParams(f) ==>
            TryGenerateReturnDesc(cfg, f) == "True if " + "successful" + ". False if not.")
      && (words[0] == "get" && !(f.typeName == "bool" && HasOutParams(f)) ==>
            TryGenerateReturnDesc(cfg, f) == Capitalize("The " + rest + "."))
      && (words[0] == "is" ==> TryGenerateReturnDesc(cfg, f) == Capitalize("True if " + rest + ". False if not."))
      && (words[0] == "has" ==> TryGenerateReturnDesc(cfg, f) == "True if " + ("has " + rest) + ". False if not.")
  {
    var words := SplitCamelCase(f.name);
    var rest := UnabbreviateAndJoin(cfg, words, 1);
    if words[0] == "get" {
      if f.typeName == "bool" && HasOutParams(f) {
        var t := Format(cfg.returnBooleanDescFormat, ["successful"]);
        DefaultReturnBoolean(cfg.returnBooleanDescFormat, "successful");
        assert t[0] == 'T';
        CapitalizeKeeps(t);
      } else {
        DefaultReturn(cfg.returnDescFormat, rest);
      }
    } else if words[0] == "is" {
      DefaultReturnBoolean(cfg.returnBooleanDescFormat, rest);
    } else if words[0] == "has" {
      var t := Format(cfg.returnBooleanDescFormat, ["has " + rest]);
      DefaultReturnBoolean(cfg.returnBooleanDescFormat, "has " + rest);
      assert t[0] == 'T';
      CapitalizeKeeps(t);
    }
  }

  /** A single-word name, or one not starting with get, is or has, gets no return text. */
  lemma ReturnDescNone(cfg: DoxygenConfig, f: CodeElement)
    requires var words := SplitCamelCase(f.name);
      |words| <= 1 || (words[0] != "get" && words[0] != "is" && words[0] != "has")
    ensures TryGenerateReturnDesc(cfg, f) == ""
  {
  }

  // ---------------------------------------------------------------------
  // File descriptions
  // ---------------------------------------------------------------------

  /** The file name without its extension, and the extension with its dot (empty without a dot). */
  function SplitExtension(filename: string): (r: (string, string))
    ensures r.0 + r.1 == filename
    ensures r.1 == "" || (r.1[0] == '.' && '.' !in r.1[1..])
    ensures r.1 == "" ==> '.' !in filename
  {
    var k := LastIndexOf(filename, '.');
    if k < 0 then
      assert '.' !in filename by {
        forall i | 0 <= i < |filename| ensures filename[i] != '.' { }
      }
      (filename, "")
    else
      assert filename == filename[..k] + filename[k..];
      var tail := filename[k + 1..];
      assert '.' !in tail by {
        forall i | 0 <= i < |tail| ensures tail[i] != '.' {
          assert tail[i] == filename[k + 1 + i];
        }
      }
      assert filename[k..][1..] == filename[k + 1..];
      (filename[..k], filename[k..])
  }

  /**
   * TryGenerateFileDesc: the readable name of the file's base name
   * (followed by " interface" for a name like IFooBar) put in the header,
   * source or inline template according to the extension.
   */
  function TryGenerateFileDesc(cfg: DoxygenConfig, filename: string): (r: string)
    ensures r != "" ==> cfg.smartComments && SplitExtension(filename).1 in {".h", ".hpp", ".c", ".cpp", ".cxx", ".inl"}
  {
    if cfg.smartComments then
      var (baseName, ext) := SplitExtension(filename);
      var words := SplitCamelCase(baseName);
      var className := ClassName(cfg, baseName) + (if |words| > 1 && words[0] == "i" then " interface" else "");
      if ext == ".h" || ext == ".hpp" then Format(cfg.fileCommentIsHeader, [className])
      else if ext == ".c" || ext == ".cpp" || ext == ".cxx" then Format(cfg.fileCommentIsSource, [className])
      else if ext == ".inl" then Format(cfg.fileCommentIsInline, [className])
      else ""
    else ""
  }

  /** With the default templates a header is "Declares the ..." and a source or inline file "Implements the ...". */
  lemma FileDescDefault(cfg: DoxygenConfig, filename: string)
    requires cfg.smartComments
    requires cfg.fileCommentIsHeader == Default.fileCommentIsHeader
    requires cfg.fileCommentIsSource == Default.fileCommentIsSource
    requires cfg.fileCommentIsInline == Default.fileCommentIsInline
    ensures var (baseName, ext) := SplitExtension(filename);
      var words := SplitCamelCase(baseName);
      var name := ClassName(cfg, baseName) + (if |words| > 1 && words[0] == "i" then " interface" else "");
      && (ext == ".h" || ext == ".hpp" ==> TryGenerateFileDesc(cfg, filename) == "Declares the " + name + ".")
      && (ext == ".c" || ext == ".cpp" || ext == ".cxx" || ext == ".inl" ==>
            TryGenerateFileDesc(cfg, filename) == "Implements the " + name + ".")
      && (ext !in {".h", ".hpp", ".c", ".cpp", ".cxx", ".inl"} ==> TryGenerateFileDesc(cfg, filename) == "")
  {
    var (baseName, ext) := SplitExtension(filename);
    var words := SplitCamelCase(baseName);
    var name := ClassName(cfg, baseName) + (if |words| > 1 && words[0] == "i" then " interface" else "");
    DefaultFileHeader(cfg.fileCommentIsHeader, name);
    DefaultFileSource(cfg.fileCommentIsSource, name);
    DefaultFileSource(cfg.fileCommentIsInline, name);
  }

  /** Without smart comments no file description is produced. */
  lemma FileDescOff(cfg: DoxygenConfig, filename: string)
    requires !cfg.smartComments
    ensures TryGenerateFileDesc(cfg, filename) == ""
  {
  }
}
