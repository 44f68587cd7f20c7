/**
 * The file header comment (GenerateFileComment): the configured template
 * with its placeholders filled in, and the line that receives the caret.
 * The file and project names, the user name and the date come from the
 * editor, the environment and the clock, so they are parameters here.
 */
module FileHeader {
  import opened Strings
  import opened Config
  import opened Heuristics

  /** The header text and the 0-based line on which the caret is placed. */
  datatype FileComment = FileComment(text: string, selectedLine: nat)

  const Cursor: string := "{CURSOR}"

  /** The placeholders FillTemplate replaces, in the order it replaces them. */
  const FileTokens: seq<string> :=
    ["{FILENAME}", "{PROJECTNAME}", "{AUTHOR}", "{YEAR}", "{MONTH}", "{DAY}", "{SMARTCOMMENT}"]

  /** The value each placeholder of FileTokens is replaced by. */
  function FileValues(cfg: DoxygenConfig, filename: string, projectName: string, author: string,
                      year: string, month: string, day: string): seq<string>
  {
    [filename, projectName, author, year, month, day, TryGenerateFileDesc(cfg, filename)]
  }

  /** Each pattern replaced in turn, each replacement working on the result of the previous one. */
  function ReplaceEach(s: string, pats: seq<string>, reps: seq<string>): string
    requires |pats| == |reps| && forall j :: 0 <= j < |pats| ==> |pats[j]| > 0
    decreases |pats|
  {
    if pats == [] then s else ReplaceEach(Replace(s, pats[0], reps[0]), pats[1..], reps[1..])
  }

  /**
   * The template with {FILENAME}, {PROJECTNAME}, {AUTHOR}, {YEAR},
   * {MONTH}, {DAY} and then {SMARTCOMMENT} replaced, one after the other,
   * each replacement working on the result of the previous one.
   */
  function FillTemplate(cfg: DoxygenConfig, filename: string, projectName: string, author: string,
                        year: string, month: string, day: string): string
  {
    ReplaceEach(cfg.fileCommentTemplate, FileTokens, FileValues(cfg, filename, projectName, author, year, month, day))
  }

  /**
   * GenerateFileComment. The caret goes where the first {CURSOR} stood:
   * the text before it is kept as it is and the selected line is the
   * number of line feeds in it. Without a {CURSOR} the text is the filled
   * template and the caret goes to its last line. Either way the selected
   * line is a line of the result.
   */
  function GenerateFileComment(cfg: DoxygenConfig, filename: string, projectName: string, author: string,
                               year: string, month: string, day: string): (r: FileComment)
    ensures var s := FillTemplate(cfg, filename, projectName, author, year, month, day);
            var i := IndexOf(s, Cursor);
            && CountChar(r.text, '\n') == CountChar(s, '\n')
            && r.selectedLine <= CountChar(r.text, '\n')
            && (i == -1 ==> r.text == s && r.selectedLine == CountChar(s, '\n'))
            && (i >= 0 ==> i <= |r.text| && r.text[..i] == s[..i] && r.selectedLine == CountChar(r.text[..i], '\n'))
  {
    PlaceCaret(FillTemplate(cfg, filename, projectName, author, year, month, day))
  }

  /** The filled template s with its {CURSOR} taken out and the caret's line. */
  function PlaceCaret(s: string): (r: FileComment)
    ensures var i := IndexOf(s, Cursor);
            && CountChar(r.text, '\n') == CountChar(s, '\n')
            && r.selectedLine <= CountChar(r.text, '\n')
            && (i == -1 ==> r.text == s && r.selectedLine == CountChar(s, '\n'))
            && (i >= 0 ==> i <= |r.text| && r.text[..i] == s[..i] && r.selectedLine == CountChar(r.text[..i], '\n'))
  {
    var i := IndexOf(s, Cursor);
    if i == -1 then
      FileComment(s, CountChar(s, '\n'))
    else
      CursorRemoved(s, i);
      FileComment(Replace(s, Cursor, ""), CountChar(s[..i], '\n'))
  }

  /** Removing the markers from the first one at i on keeps the text before it and the line count. */
  lemma CursorRemoved(s: string, i: nat)
    requires IndexOf(s, Cursor) == i
    ensures var text := Replace(s, Cursor, "");
            && CountChar(text, '\n') == CountChar(s, '\n')
            && i <= |text| && text[..i] == s[..i]
            && CountChar(s[..i], '\n') <= CountChar(text, '\n')
  {
    ReplaceByNothingKeepsCount(s, Cursor, '\n');
    ReplaceUpToFirst(s, Cursor, "", i);
    assert s == s[..i] + s[i..];
    CountCharAppend(s[..i], s[i..], '\n');
    var text := Replace(s, Cursor, "");
    assert text[..i] == s[..i];
  }

  /**
   * Replacing from the left: everything before the first occurrence of
   * the pattern is kept, and that occurrence is the first one replaced.
   */
  lemma ReplaceUpToFirst(s: string, pat: string, rep: string, i: nat)
    requires |pat| > 0 && OccursAt(s, pat, i)
    requires forall k: nat :: k < i ==> !OccursAt(s, pat, k)
    ensures Replace(s, pat, rep) == s[..i] + rep + Replace(s[i + |pat|..], pat, rep)
  {
    ReplaceKeptFrom(s, pat, rep, i, 0);
    assert s[0..] == s;
    assert s[0..i] == s[..i];
  }

  /** From any index j up to the first occurrence at i, the text is kept. */
  lemma {:induction false} ReplaceKeptFrom(s: string, pat: string, rep: string, i: nat, j: nat)
    requires |pat| > 0 && j <= i && OccursAt(s, pat, i)
    requires forall k: nat :: j <= k < i ==> !OccursAt(s, pat, k)
    ensures Replace(s[j..], pat, rep) == s[j..i] + rep + Replace(s[i + |pat|..], pat, rep)
    decreases i - j
  {
    if j == i {
      ReplaceHitAt(s, pat, rep, i);
    } else {
      ReplaceSkipAt(s, pat, rep, j);
      ReplaceKeptFrom(s, pat, rep, i, j + 1);
      assert [s[j]] + s[j + 1..i] == s[j..i];
      ConsAssoc(s[j], s[j + 1..i], s[j..i], rep, Replace(s[i + |pat|..], pat, rep));
    }
  }

  lemma ReplaceHitAt(s: string, pat: string, rep: string, i: nat)
    requires |pat| > 0 && OccursAt(s, pat, i)
    ensures Replace(s[i..], pat, rep) == s[i..i] + rep + Replace(s[i + |pat|..], pat, rep)
  {
    var u := s[i..];
    assert u[0..|pat|] == s[i..i + |pat|];
    ReplaceHit(u, pat, rep);
    assert u[|pat|..] == s[i + |pat|..];
    assert s[i..i] == u[..0];
  }

  lemma ReplaceSkipAt(s: string, pat: string, rep: string, j: nat)
    requires 0 < |pat| && j + |pat| <= |s| && !OccursAt(s, pat, j)
    ensures Replace(s[j..], pat, rep) == [s[j]] + Replace(s[j + 1..], pat, rep)
  {
    var u := s[j..];
    assert u[0..|pat|] == s[j..j + |pat|];
    ReplaceSkip(u, pat, rep);
    assert u[1..] == s[j + 1..];
  }

  /** Where the pattern starts, it is replaced. */
  lemma ReplaceHit(s: string, pat: string, rep: string)
    requires |pat| > 0 && OccursAt(s, pat, 0)
    ensures Replace(s, pat, rep) == s[..0] + rep + Replace(s[|pat|..], pat, rep)
  {
    assert s[..|pat|] == pat;
    assert s[..0] + rep == rep;
  }

  /** Where the pattern does not start, the first character is kept. */
  lemma ReplaceSkip(s: string, pat: string, rep: string)
    requires 0 < |pat| <= |s| && !OccursAt(s, pat, 0)
    ensures Replace(s, pat, rep) == [s[0]] + Replace(s[1..], pat, rep)
  {
  }

  lemma ConsAssoc(c: char, x: string, cx: string, y: string, z: string)
    requires [c] + x == cx
    ensures [c] + (x + y + z) == cx + y + z
  {
  }

  /** A placeholder (a pattern starting with '{') is left alone in a text without '{'. */
  lemma NoBraceKept(s: string, pat: string, rep: string)
    requires '{' !in s && |pat| > 0 && pat[0] == '{'
    ensures Replace(s, pat, rep) == s && IndexOf(s, pat) == -1
  {
    forall k: nat ensures !OccursAt(s, pat, k) {
      if k + |pat| <= |s| {
        assert s[k..k + |pat|][0] == s[k];
      }
    }
    ReplaceAbsent(s, pat, rep);
  }

  /** A template without placeholders is the header as it is, the caret on its last line. */
  lemma PlainTemplate(cfg: DoxygenConfig, filename: string, projectName: string, author: string, year: string, month: string, day: string)
    requires '{' !in cfg.fileCommentTemplate
    ensures var r := GenerateFileComment(cfg, filename, projectName, author, year, month, day);
            r.text == cfg.fileCommentTemplate && r.selectedLine == CountChar(cfg.fileCommentTemplate, '\n')
  {
    var t := cfg.fileCommentTemplate;
    FileTokensDistinct();
    ReplaceEachPlain(t, FileTokens, FileValues(cfg, filename, projectName, author, year, month, day));
    NoBraceKept(t, Cursor, "");
  }

  // ---------------------------------------------------------------------
  // The placeholders and their values
  // ---------------------------------------------------------------------

  /** A placeholder: an opening brace, then at least one character and no further brace. */
  predicate TokenShape(tok: string) {
    |tok| >= 2 && tok[0] == '{' && forall i :: 1 <= i < |tok| ==> tok[i] != '{'
  }

  /** Placeholders that already differ in their second character. */
  predicate DistinctTokens(pats: seq<string>) {
    && (forall j :: 0 <= j < |pats| ==> TokenShape(pats[j]))
    && (forall i, j :: 0 <= i < j < |pats| ==> pats[i][1] != pats[j][1])
  }

  lemma FileTokensDistinct()
    ensures |FileTokens| == 7 && DistinctTokens(FileTokens)
  {
    forall j | 0 <= j < |FileTokens| ensures TokenShape(FileTokens[j]) {
      TokenShaped(FileTokens[j]);
    }
    var seconds := "FPAYMDS";
    forall j | 0 <= j < |FileTokens| ensures FileTokens[j][1] == seconds[j] {
    }
    forall i, j | 0 <= i < j < |FileTokens| ensures FileTokens[i][1] != FileTokens[j][1] {
      assert seconds[i] != seconds[j];
    }
  }

  /** Each placeholder of FileTokens opens with its only brace. */
  lemma TokenShaped(tok: string)
    requires tok in FileTokens
    ensures TokenShape(tok)
  {
  }

  /** The placeholder between two brace-free texts is replaced, once. */
  lemma ReplaceOnce(a: string, tok: string, b: string, rep: string)
    requires '{' !in a && '{' !in b && TokenShape(tok)
    ensures Replace(a + tok + b, tok, rep) == a + rep + b
  {
    var s := a + tok + b;
    var i := |a|;
    assert s[i..i + |tok|] == tok;
    forall k: nat | k < i ensures !OccursAt(s, tok, k) {
      assert s[k..k + |tok|][0] == s[k] == a[k];
    }
    ReplaceUpToFirst(s, tok, rep, i);
    assert s[..i] == a;
    assert s[i + |tok|..] == b;
    NoBraceKept(b, tok, rep);
  }

  /** A different placeholder does not occur in a brace-free text around one placeholder. */
  lemma ReplaceOther(a: string, tok: string, b: string, pat: string, rep: string)
    requires '{' !in a && '{' !in b && TokenShape(tok) && TokenShape(pat) && tok[1] != pat[1]
    ensures Replace(a + tok + b, pat, rep) == a + tok + b
  {
    var s := a + tok + b;
    forall k: nat ensures !OccursAt(s, pat, k) {
      if k + |pat| <= |s| {
        assert s[k..k + |pat|][0] == s[k];
        assert s[k..k + |pat|][1] == s[k + 1];
        if k < |a| {
          assert s[k] == a[k];
        } else if k == |a| {
          assert s[k + 1] == tok[1];
        } else if k < |a| + |tok| {
          assert s[k] == tok[k - |a|];
        } else {
          assert s[k] == b[k - |a| - |tok|];
        }
      }
    }
    ReplaceAbsent(s, pat, rep);
  }

  /** Replacing placeholders leaves a brace-free text alone. */
  lemma {:induction false} ReplaceEachPlain(s: string, pats: seq<string>, reps: seq<string>)
    requires |pats| == |reps| && DistinctTokens(pats) && '{' !in s
    ensures ReplaceEach(s, pats, reps) == s
    decreases |pats|
  {
    if pats != [] {
      NoBraceKept(s, pats[0], reps[0]);
      assert DistinctTokens(pats[1..]) by {
        forall i, j | 0 <= i < j < |pats| - 1 ensures pats[1..][i][1] != pats[1..][j][1] {
          assert pats[1..][i] == pats[i + 1] && pats[1..][j] == pats[j + 1];
        }
      }
      ReplaceEachPlain(s, pats[1..], reps[1..]);
    }
  }

  /** In a brace-free text around the k-th placeholder, only that placeholder is replaced. */
  lemma {:induction false} ReplaceEachOne(a: string, b: string, pats: seq<string>, reps: seq<string>, k: nat)
    requires |pats| == |reps| && DistinctTokens(pats) && k < |pats|
    requires '{' !in a && '{' !in b && forall j :: 0 <= j < |reps| ==> '{' !in reps[j]
    ensures ReplaceEach(a + pats[k] + b, pats, reps) == a + reps[k] + b
    decreases |pats|
  {
    assert DistinctTokens(pats[1..]) by {
      forall i, j | 0 <= i < j < |pats| - 1 ensures pats[1..][i][1] != pats[1..][j][1] {
        assert pats[1..][i] == pats[i + 1] && pats[1..][j] == pats[j + 1];
      }
    }
    if k == 0 {
      ReplaceOnce(a, pats[0], b, reps[0]);
      assert '{' !in a + reps[0] + b;
      ReplaceEachPlain(a + reps[0] + b, pats[1..], reps[1..]);
    } else {
      ReplaceOther(a, pats[k], b, pats[0], reps[0]);
      assert pats[1..][k - 1] == pats[k] && reps[1..][k - 1] == reps[k];
      ReplaceEachOne(a, b, pats[1..], reps[1..], k - 1);
    }
  }

  /**
   * A template holding one placeholder between brace-free texts gets that
   * placeholder's value in its place, when the values hold no brace; the
   * caret then goes to the last line.
   */
  lemma FillPlaceholder(cfg: DoxygenConfig, filename: string, projectName: string, author: string,
                        year: string, month: string, day: string, a: string, b: string, k: nat)
    requires k < |FileTokens| && cfg.fileCommentTemplate == a + FileTokens[k] + b
    requires '{' !in a && '{' !in b
    requires var vs := FileValues(cfg, filename, projectName, author, year, month, day);
             forall j :: 0 <= j < |vs| ==> '{' !in vs[j]
    ensures var v := FileValues(cfg, filename, projectName, author, year, month, day)[k];
            && FillTemplate(cfg, filename, projectName, author, year, month, day) == a + v + b
            && GenerateFileComment(cfg, filename, projectName, author, year, month, day)
               == FileComment(a + v + b, CountChar(a + v + b, '\n'))
  {
    var vs := FileValues(cfg, filename, projectName, author, year, month, day);
    FileTokensDistinct();
    ReplaceEachOne(a, b, FileTokens, vs, k);
    PlaceCaretPlain(a + vs[k] + b);
  }

  /** A filled template without a brace keeps its text; the caret goes to its last line. */
  lemma PlaceCaretPlain(s: string)
    requires '{' !in s
    ensures PlaceCaret(s) == FileComment(s, CountChar(s, '\n'))
  {
    NoBraceKept(s, Cursor, "");
  }
}
