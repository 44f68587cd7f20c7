/**
 * ASCII models of the .NET string and character operations that the comment
 * engine relies on: character classes, trimming, splitting, joining,
 * replacing and searching. Culture and Unicode behaviour are not modelled.
 */
module Strings {

  // ---------------------------------------------------------------------
  // Character classes (ASCII readings of Char.IsWhiteSpace, [A-Z], \w, ...)
  // ---------------------------------------------------------------------

  predicate IsSpace(c: char) {
    c == ' ' || c == '\t' || c == '\n' || c == '\r' || c == '\U{000B}' || c == '\U{000C}'
  }

  predicate IsUpper(c: char) { 'A' <= c <= 'Z' }

  predicate IsLower(c: char) { 'a' <= c <= 'z' }

  predicate IsDigit(c: char) { '0' <= c <= '9' }

  /** The regex class \w restricted to ASCII. */
  predicate IsWordChar(c: char) { IsUpper(c) || IsLower(c) || IsDigit(c) || c == '_' }

  function ToLowerChar(c: char): (r: char)
    ensures IsUpper(c) ==> IsLower(r)
    ensures !IsUpper(c) ==> r == c
  {
    if IsUpper(c) then (c as int + 32) as char else c
  }

  function ToUpperChar(c: char): (r: char)
    ensures IsLower(c) ==> IsUpper(r)
    ensures !IsLower(c) ==> r == c
  {
    if IsLower(c) then (c as int - 32) as char else c
  }

  /** String.ToLower on ASCII. */
  function Lower(s: string): (r: string)
    ensures |r| == |s|
    ensures forall i :: 0 <= i < |s| ==> r[i] == ToLowerChar(s[i])
  {
    seq(|s|, i requires 0 <= i < |s| => ToLowerChar(s[i]))
  }

  /** new string(' ', n) */
  function Spaces(n: nat): (r: string)
    ensures |r| == n
    ensures forall i :: 0 <= i < n ==> r[i] == ' '
  {
    seq(n, _ => ' ')
  }

  predicate StartsWith(s: string, p: string) { |p| <= |s| && s[..|p|] == p }

  predicate EndsWith(s: string, p: string) { |p| <= |s| && s[|s| - |p|..] == p }

  /** No character of t belongs to cs. */
  predicate NoneIn(t: string, cs: set<char>) {
    forall k :: 0 <= k < |t| ==> t[k] !in cs
  }

  /** Every character of t occurs in s. */
  predicate CharsFrom(t: string, s: string) {
    forall c :: c in t ==> c in s
  }

  /** Number of occurrences of c, as in s.Count(x => x == c). */
  function CountChar(s: string, c: char): nat {
    multiset(s)[c]
  }

  // ---------------------------------------------------------------------
  // Searching
  // ---------------------------------------------------------------------

  /** Index of the first character of s that belongs to cs, or |s| if none. */
  function FirstIn(s: string, cs: set<char>): (r: nat)
    ensures r <= |s|
    ensures forall i :: 0 <= i < r ==> s[i] !in cs
    ensures r < |s| ==> s[r] in cs
    decreases |s|
  {
    if s == [] || s[0] in cs then 0 else 1 + FirstIn(s[1..], cs)
  }

  /** pat occurs in s at index k. */
  predicate OccursAt(s: string, pat: string, k: nat) {
    k + |pat| <= |s| && s[k..k + |pat|] == pat
  }

  /** String.IndexOf(string), ordinal: the first occurrence of pat at or after i, or -1. */
  function IndexFrom(s: string, pat: string, i: nat): (r: int)
    requires i <= |s|
    ensures r == -1 || (i <= r && OccursAt(s, pat, r))
    ensures r == -1 ==> forall k: nat :: i <= k ==> !OccursAt(s, pat, k)
    ensures r != -1 ==> forall k: nat :: i <= k < r ==> !OccursAt(s, pat, k)
    decreases |s| - i
  {
    if i + |pat| > |s| then -1
    else if s[i..i + |pat|] == pat then i
    else IndexFrom(s, pat, i + 1)
  }

  /** String.LastIndexOf(char): the last index of c in s, or -1. */
  function LastIndexOf(s: string, c: char): (r: int)
    ensures -1 <= r < |s|
    ensures r >= 0 ==> s[r] == c
    ensures forall k :: r < k < |s| ==> s[k] != c
    decreases |s|
  {
    if s == [] then -1
    else if s[|s| - 1] == c then |s| - 1
    else LastIndexOf(s[..|s| - 1], c)
  }

  function IndexOf(s: string, pat: string): (r: int)
    ensures r == -1 || (0 <= r && OccursAt(s, pat, r))
    ensures r == -1 ==> forall k: nat :: !OccursAt(s, pat, k)
    ensures r != -1 ==> forall k: nat :: k < r ==> !OccursAt(s, pat, k)
  {
    IndexFrom(s, pat, 0)
  }

  // ---------------------------------------------------------------------
  // Trimming
  // ---------------------------------------------------------------------

  function TrimStart(s: string): (r: string)
    ensures |r| <= |s| && r == s[|s| - |r|..]
    ensures forall i :: 0 <= i < |s| - |r| ==> IsSpace(s[i])
    ensures r != [] ==> !IsSpace(r[0])
    decreases |s|
  {
    if s != [] && IsSpace(s[0]) then TrimStart(s[1..]) else s
  }

  function TrimEnd(s: string): (r: string)
    ensures |r| <= |s| && r == s[..|r|]
    ensures forall i :: |r| <= i < |s| ==> IsSpace(s[i])
    ensures r != [] ==> !IsSpace(r[|r| - 1])
    decreases |s|
  {
    if s != [] && IsSpace(s[|s| - 1]) then TrimEnd(s[..|s| - 1]) else s
  }

  /** r is the slice s[lo..hi], and only white space lies outside it. */
  predicate SpacedSlice(s: string, r: string, lo: nat, hi: nat) {
    && lo <= hi <= |s| && r == s[lo..hi]
    && (forall i :: 0 <= i < lo ==> IsSpace(s[i]))
    && (forall i :: hi <= i < |s| ==> IsSpace(s[i]))
  }

  /** String.Trim: the slice s[lo..hi] between the leading and the trailing white space. */
  function Trim(s: string): (r: string)
    ensures exists lo: nat, hi: nat :: SpacedSlice(s, r, lo, hi)
    ensures r != [] ==> !IsSpace(r[0]) && !IsSpace(r[|r| - 1])
  {
    var t := TrimStart(s);
    var r := TrimEnd(t);
    TrimSlice(s, t, r);
    assert SpacedSlice(s, r, |s| - |t|, |s| - |t| + |r|);
    r
  }

  /** Trimming the end of the trimmed start leaves a slice between white space. */
  lemma TrimSlice(s: string, t: string, r: string)
    requires |t| <= |s| && t == s[|s| - |t|..] && forall i :: 0 <= i < |s| - |t| ==> IsSpace(s[i])
    requires |r| <= |t| && r == t[..|r|] && forall i :: |r| <= i < |t| ==> IsSpace(t[i])
    requires t != [] ==> !IsSpace(t[0])
    requires r != [] ==> !IsSpace(r[|r| - 1])
    ensures SpacedSlice(s, r, |s| - |t|, |s| - |t| + |r|)
    ensures r != [] ==> !IsSpace(r[0]) && !IsSpace(r[|r| - 1])
  {
    var lo := |s| - |t|;
    assert r == s[lo..lo + |r|];
    forall i | lo + |r| <= i < |s| ensures IsSpace(s[i]) {
      assert s[i] == t[i - lo];
    }
  }

  /** Trimming only removes characters, so a character absent before is absent after. */
  lemma TrimNoneIn(s: string, cs: set<char>)
    requires NoneIn(s, cs)
    ensures NoneIn(Trim(s), cs)
  {
    var lo: nat, hi: nat :| SpacedSlice(s, Trim(s), lo, hi);
    SliceNoneIn(s, Trim(s), lo, hi, cs);
  }

  lemma SliceNoneIn(s: string, r: string, lo: nat, hi: nat, cs: set<char>)
    requires NoneIn(s, cs) && SpacedSlice(s, r, lo, hi)
    ensures NoneIn(r, cs)
  {
    assert forall j :: 0 <= j < |r| ==> r[j] == s[lo + j];
  }

  // ---------------------------------------------------------------------
  // Removing, splitting, joining, replacing
  // ---------------------------------------------------------------------

  /** s with every character of cs removed. */
  function Without(s: string, cs: set<char>): (r: string)
    ensures NoneIn(r, cs)
    ensures |r| <= |s|
    decreases |s|
  {
    if s == [] then [] else (if s[0] in cs then [] else [s[0]]) + Without(s[1..], cs)
  }

  /** String.Split(c): the pieces between the occurrences of c, empty pieces kept. */
  function Split(s: string, c: char): (r: seq<string>)
    ensures r != []
    ensures forall i :: 0 <= i < |r| ==> c !in r[i]
    decreases |s|
  {
    var k := FirstIn(s, {c});
    if k == |s| then
      [s]
    else
      assert c !in s[..k];
      [s[..k]] + Split(s[k + 1..], c)
  }

  /** There is one more piece than there are separators. */
  lemma {:induction false} SplitCount(s: string, c: char)
    ensures |Split(s, c)| == CountChar(s, c) + 1
    decreases |s|
  {
    var k := FirstIn(s, {c});
    if k == |s| {
      assert multiset(s)[c] == 0 by { assert c !in s; }
    } else {
      SplitCount(s[k + 1..], c);
      assert s == s[..k] + [c] + s[k + 1..];
      assert c !in s[..k];
      assert multiset(s) == multiset(s[..k]) + multiset([c]) + multiset(s[k + 1..]);
    }
  }

  /** String.Split(separators, RemoveEmptyEntries): the maximal non-empty runs without a separator. */
  function SplitRemoveEmpty(s: string, seps: set<char>): (r: seq<string>)
    ensures forall i :: 0 <= i < |r| ==> r[i] != [] && NoneIn(r[i], seps) && CharsFrom(r[i], s)
    decreases |s|
  {
    if s == [] then []
    else if s[0] in seps then SplitRemoveEmpty(s[1..], seps)
    else
      var k := FirstIn(s, seps);
      [s[..k]] + SplitRemoveEmpty(s[k..], seps)
  }

  /** String.Join(sep, parts). */
  function Join(sep: string, parts: seq<string>): string
    decreases |parts|
  {
    if parts == [] then ""
    else if |parts| == 1 then parts[0]
    else parts[0] + sep + Join(sep, parts[1..])
  }

  function Concat(parts: seq<string>): string
    decreases |parts|
  {
    if parts == [] then "" else parts[0] + Concat(parts[1..])
  }

  /** String.Replace(pat, rep), ordinal, left to right, non-overlapping, no rescanning. */
  function Replace(s: string, pat: string, rep: string): string
    requires |pat| > 0
    decreases |s|
  {
    if |s| < |pat| then s
    else if s[..|pat|] == pat then rep + Replace(s[|pat|..], pat, rep)
    else [s[0]] + Replace(s[1..], pat, rep)
  }

  // ---------------------------------------------------------------------
  // Lemmas
  // ---------------------------------------------------------------------

  /** Sequence concatenation is associative. */
  lemma AppendAssoc<T>(a: seq<T>, b: seq<T>, c: seq<T>)
    ensures (a + b) + c == a + (b + c)
  {
  }

  /** A first character that cannot start the pattern is copied as it is. */
  lemma ReplaceCons(c: char, s: string, pat: string, rep: string)
    requires |pat| > 0 && c != pat[0]
    ensures Replace([c] + s, pat, rep) == [c] + Replace(s, pat, rep)
  {
    var t := [c] + s;
    assert t[1..] == s;
    if |t| >= |pat| {
      assert t[..|pat|][0] == c;
    }
  }

  lemma {:induction false} ConcatAppend(parts: seq<string>, x: string)
    ensures Concat(parts + [x]) == Concat(parts) + x
    decreases |parts|
  {
    if parts == [] {
      assert parts + [x] == [x];
    } else {
      assert (parts + [x])[1..] == parts[1..] + [x];
      ConcatAppend(parts[1..], x);
    }
  }

  lemma {:induction false} JoinAppend(sep: string, parts: seq<string>, x: string)
    ensures Join(sep, parts + [x]) == if parts == [] then x else Join(sep, parts) + sep + x
    decreases |parts|
  {
    if parts == [] {
      assert parts + [x] == [x];
    } else if |parts| == 1 {
      assert parts + [x] == [parts[0], x];
      assert [parts[0], x][1..] == [x];
    } else {
      assert (parts + [x])[1..] == parts[1..] + [x];
      JoinAppend(sep, parts[1..], x);
    }
  }

  lemma {:induction false} WithoutAppend(a: string, b: string, cs: set<char>)
    ensures Without(a + b, cs) == Without(a, cs) + Without(b, cs)
    decreases |a|
  {
    if a == [] {
      assert a + b == b;
    } else {
      var h := if a[0] in cs then [] else [a[0]];
      WithoutHead(a, b, cs);
      WithoutAppend(a[1..], b, cs);
      AppendAssoc(h, Without(a[1..], cs), Without(b, cs));
    }
  }

  lemma WithoutHead(a: string, b: string, cs: set<char>)
    requires a != []
    ensures Without(a + b, cs) == (if a[0] in cs then [] else [a[0]]) + Without(a[1..] + b, cs)
  {
    assert (a + b)[0] == a[0];
    assert (a + b)[1..] == a[1..] + b;
  }

  lemma {:induction false} WithoutAll(s: string, cs: set<char>)
    requires forall i :: 0 <= i < |s| ==> s[i] in cs
    ensures Without(s, cs) == []
    decreases |s|
  {
    if s != [] {
      WithoutAll(s[1..], cs);
    }
  }

  lemma {:induction false} WithoutNone(s: string, cs: set<char>)
    requires NoneIn(s, cs)
    ensures Without(s, cs) == s
    decreases |s|
  {
    if s != [] {
      WithoutNone(s[1..], cs);
      assert s == [s[0]] + s[1..];
    }
  }

  lemma JoinCons(sep: string, x: string, parts: seq<string>)
    requires parts != []
    ensures Join(sep, [x] + parts) == x + sep + Join(sep, parts)
  {
    assert ([x] + parts)[1..] == parts;
  }

  /** Joining the pieces of Split with the separator gives back the input. */
  lemma {:induction false} SplitJoin(s: string, c: char)
    ensures Join([c], Split(s, c)) == s
    decreases |s|
  {
    var k := FirstIn(s, {c});
    if k < |s| {
      var rest := s[k + 1..];
      SplitJoin(rest, c);
      var tail := Split(rest, c);
      assert tail != [];
      assert Split(s, c) == [s[..k]] + tail;
      JoinCons([c], s[..k], tail);
      assert s == s[..k] + [c] + rest;
    } else {
      assert Split(s, c) == [s];
    }
  }

  /** A separator cuts the token list in two: nothing crosses it. */
  lemma {:induction false} SplitRemoveEmptyAt(p: string, c: char, q: string, seps: set<char>)
    requires c in seps
    ensures SplitRemoveEmpty(p + [c] + q, seps) == SplitRemoveEmpty(p, seps) + SplitRemoveEmpty(q, seps)
    decreases |p|
  {
    if p == [] {
      SplitAtEmpty(c, q, seps);
    } else if p[0] in seps {
      SplitAtSkip(p, c, q, seps);
      SplitRemoveEmptyAt(p[1..], c, q, seps);
    } else if FirstIn(p, seps) < |p| {
      var k := FirstIn(p, seps);
      SplitAtWord(p, c, q, seps);
      SplitRemoveEmptyAt(p[k..], c, q, seps);
      AppendAssoc([p[..k]], SplitRemoveEmpty(p[k..], seps), SplitRemoveEmpty(q, seps));
    } else {
      SplitAtLast(p, c, q, seps);
    }
  }

  lemma SplitAtEmpty(c: char, q: string, seps: set<char>)
    requires c in seps
    ensures SplitRemoveEmpty([] + [c] + q, seps) == SplitRemoveEmpty([], seps) + SplitRemoveEmpty(q, seps)
  {
    var s := [] + [c] + q;
    assert s[0] == c && s[1..] == q;
  }

  lemma SplitAtSkip(p: string, c: char, q: string, seps: set<char>)
    requires p != [] && p[0] in seps
    ensures SplitRemoveEmpty(p + [c] + q, seps) == SplitRemoveEmpty(p[1..] + [c] + q, seps)
    ensures SplitRemoveEmpty(p, seps) == SplitRemoveEmpty(p[1..], seps)
  {
    var s := p + [c] + q;
    assert s[0] == p[0] && s[1..] == p[1..] + [c] + q;
  }

  lemma SplitAtWord(p: string, c: char, q: string, seps: set<char>)
    requires p != [] && p[0] !in seps && FirstIn(p, seps) < |p|
    ensures var k := FirstIn(p, seps);
            && SplitRemoveEmpty(p + [c] + q, seps) == [p[..k]] + SplitRemoveEmpty(p[k..] + [c] + q, seps)
            && SplitRemoveEmpty(p, seps) == [p[..k]] + SplitRemoveEmpty(p[k..], seps)
  {
    var s := p + [c] + q;
    var k := FirstIn(p, seps);
    FirstInExtend(p, [c] + q, seps);
    assert p + [c] + q == p + ([c] + q);
    assert s[..k] == p[..k];
    assert s[k..] == p[k..] + [c] + q;
  }

  lemma SplitAtLast(p: string, c: char, q: string, seps: set<char>)
    requires c in seps && p != [] && p[0] !in seps && FirstIn(p, seps) == |p|
    ensures SplitRemoveEmpty(p + [c] + q, seps) == SplitRemoveEmpty(p, seps) + SplitRemoveEmpty(q, seps)
  {
    var s := p + [c] + q;
    FirstInExtend(p, [c] + q, seps);
    assert p + [c] + q == p + ([c] + q);
    assert s[..|p|] == p;
    assert s[|p|..] == [c] + q;
    assert ([c] + q)[1..] == q;
    assert SplitRemoveEmpty([c] + q, seps) == SplitRemoveEmpty(q, seps);
    assert p[..|p|] == p && p[|p|..] == [];
  }

  /** FirstIn is decided inside a prefix that holds a separator, or at the start of what follows. */
  lemma FirstInExtend(x: string, y: string, seps: set<char>)
    requires FirstIn(x, seps) < |x| || (y != [] && y[0] in seps)
    ensures FirstIn(x + y, seps) == FirstIn(x, seps)
  {
    var k := FirstIn(x, seps);
    FirstInAt(x + y, seps, k);
  }

  /** FirstIn is the index of the first separator. */
  lemma {:induction false} FirstInAt(s: string, seps: set<char>, k: nat)
    requires k <= |s| && (forall i :: 0 <= i < k ==> s[i] !in seps) && (k < |s| ==> s[k] in seps)
    ensures FirstIn(s, seps) == k
    decreases k
  {
    if k > 0 {
      FirstInAt(s[1..], seps, k - 1);
    }
  }

  /** Separators alone produce no token. */
  lemma {:induction false} SplitRemoveEmptyOfSeps(s: string, seps: set<char>)
    requires forall i :: 0 <= i < |s| ==> s[i] in seps
    ensures SplitRemoveEmpty(s, seps) == []
    decreases |s|
  {
    if s != [] {
      SplitRemoveEmptyOfSeps(s[1..], seps);
    }
  }

  /** Leading and trailing separators do not change the tokens. */
  lemma SplitRemoveEmptyPadded(a: string, m: string, b: string, seps: set<char>)
    requires forall i :: 0 <= i < |a| ==> a[i] in seps
    requires forall i :: 0 <= i < |b| ==> b[i] in seps
    ensures SplitRemoveEmpty(a + m + b, seps) == SplitRemoveEmpty(m, seps)
  {
    if a != [] {
      assert a + m + b == a[..|a| - 1] + [a[|a| - 1]] + (m + b);
      SplitRemoveEmptyAt(a[..|a| - 1], a[|a| - 1], m + b, seps);
      SplitRemoveEmptyOfSeps(a[..|a| - 1], seps);
    } else {
      assert a + m + b == m + b;
    }
    assert SplitRemoveEmpty(a + m + b, seps) == SplitRemoveEmpty(m + b, seps);
    if b != [] {
      assert m + b == m + [b[0]] + b[1..];
      SplitRemoveEmptyAt(m, b[0], b[1..], seps);
      SplitRemoveEmptyOfSeps(b[1..], seps);
    } else {
      assert m + b == m;
    }
  }

  /** The tokens, concatenated, are the input without its separators. */
  lemma {:induction false} SplitRemoveEmptyConcat(s: string, seps: set<char>)
    ensures Concat(SplitRemoveEmpty(s, seps)) == Without(s, seps)
    decreases |s|
  {
    if s == [] {
    } else if s[0] in seps {
      SplitRemoveEmptyConcat(s[1..], seps);
    } else {
      var k := FirstIn(s, seps);
      SplitRemoveEmptyConcat(s[k..], seps);
      assert s == s[..k] + s[k..];
      WithoutAppend(s[..k], s[k..], seps);
      WithoutNone(s[..k], seps);
      assert ([s[..k]] + SplitRemoveEmpty(s[k..], seps))[1..] == SplitRemoveEmpty(s[k..], seps);
    }
  }

  /** Replacing a single character by nothing removes exactly that character. */
  lemma {:induction false} ReplaceCharByNothing(s: string, c: char)
    ensures Replace(s, [c], "") == Without(s, {c})
    decreases |s|
  {
    if s != [] {
      ReplaceCharByNothing(s[1..], c);
      if s[0] == c {
        assert s[..1] == [c];
      } else {
        assert s[..1] != [c];
      }
    }
  }

  lemma {:induction false} CountCharAppend(a: string, b: string, c: char)
    ensures CountChar(a + b, c) == CountChar(a, c) + CountChar(b, c)
  {
    assert multiset(a + b) == multiset(a) + multiset(b);
  }

  /** Removing a pattern that does not contain c keeps the number of c's. */
  lemma {:induction false} ReplaceByNothingKeepsCount(s: string, pat: string, c: char)
    requires |pat| > 0 && c !in pat
    ensures CountChar(Replace(s, pat, ""), c) == CountChar(s, c)
    decreases |s|
  {
    if |s| < |pat| {
    } else if s[..|pat|] == pat {
      ReplaceByNothingKeepsCount(s[|pat|..], pat, c);
      assert s == pat + s[|pat|..];
      CountCharAppend(pat, s[|pat|..], c);
      assert multiset(pat)[c] == 0;
    } else {
      ReplaceByNothingKeepsCount(s[1..], pat, c);
      assert s == [s[0]] + s[1..];
      CountCharAppend([s[0]], s[1..], c);
      CountCharAppend([s[0]], Replace(s[1..], pat, ""), c);
    }
  }

  /** A text in which the pattern never occurs is left as it is. */
  lemma {:induction false} ReplaceAbsent(s: string, pat: string, rep: string)
    requires |pat| > 0
    requires forall k: nat :: !OccursAt(s, pat, k)
    ensures Replace(s, pat, rep) == s
    decreases |s|
  {
    if |s| >= |pat| {
      assert !OccursAt(s, pat, 0);
      forall k: nat
        ensures !OccursAt(s[1..], pat, k)
      {
        if k + |pat| <= |s[1..]| {
          assert s[1..][k..k + |pat|] == s[k + 1..k + 1 + |pat|];
          assert !OccursAt(s, pat, k + 1);
        }
      }
      ReplaceAbsent(s[1..], pat, rep);
      assert s == [s[0]] + s[1..];
    }
  }

  /** The pieces of Split only hold characters of the input. */
  lemma {:induction false} SplitNoneIn(s: string, c: char, cs: set<char>)
    requires NoneIn(s, cs)
    ensures forall i :: 0 <= i < |Split(s, c)| ==> NoneIn(Split(s, c)[i], cs)
    decreases |s|
  {
    var k := FirstIn(s, {c});
    if k < |s| {
      NoneInDrop(s, k + 1, cs);
      NoneInTake(s, k, cs);
      SplitNoneIn(s[k + 1..], c, cs);
      SplitFirst(s, c, k);
      NoneInCons(s[..k], Split(s[k + 1..], c), Split(s, c), cs);
    }
  }

  lemma NoneInDrop(s: string, j: nat, cs: set<char>)
    requires NoneIn(s, cs) && j <= |s|
    ensures NoneIn(s[j..], cs)
  {
    assert forall i :: 0 <= i < |s[j..]| ==> s[j..][i] == s[j + i];
  }

  lemma NoneInTake(s: string, j: nat, cs: set<char>)
    requires NoneIn(s, cs) && j <= |s|
    ensures NoneIn(s[..j], cs)
  {
    assert forall i :: 0 <= i < j ==> s[..j][i] == s[i];
  }

  /** Where the separator occurs, the first piece is split off. */
  lemma SplitFirst(s: string, c: char, k: nat)
    requires k == FirstIn(s, {c}) && k < |s|
    ensures Split(s, c) == [s[..k]] + Split(s[k + 1..], c)
  {
  }

  lemma NoneInCons(x: string, rest: seq<string>, all: seq<string>, cs: set<char>)
    requires all == [x] + rest && NoneIn(x, cs)
    requires forall i :: 0 <= i < |rest| ==> NoneIn(rest[i], cs)
    ensures forall i :: 0 <= i < |all| ==> NoneIn(all[i], cs)
  {
    forall i | 0 <= i < |all| ensures NoneIn(all[i], cs) {
      if i > 0 {
        assert all[i] == rest[i - 1];
      }
    }
  }

  /** Splitting a join at its separator gives back the parts, when no part holds the separator. */
  lemma {:induction false} JoinSplit(parts: seq<string>, c: char)
    requires parts != []
    requires forall i :: 0 <= i < |parts| ==> c !in parts[i]
    ensures Split(Join([c], parts), c) == parts
    decreases |parts|
  {
    var x := parts[0];
    if |parts| == 1 {
      assert FirstIn(x, {c}) == |x|;
    } else {
      var rest := parts[1..];
      JoinSplit(rest, c);
      var j := Join([c], rest);
      JoinCons([c], x, rest);
      assert [x] + rest == parts;
      assert x + [c] + j == x + ([c] + j);
      SplitCons(x, j, c);
    }
  }

  /** A piece without the separator, followed by the separator, is split off first. */
  lemma SplitCons(x: string, t: string, c: char)
    requires c !in x
    ensures Split(x + ([c] + t), c) == [x] + Split(t, c)
  {
    var s := x + ([c] + t);
    FirstInPrefix(x, [c] + t, c);
    assert s[..|x|] == x;
    assert s[|x| + 1..] == t;
  }

  lemma {:induction false} FirstInPrefix(x: string, y: string, c: char)
    requires c !in x && y != [] && y[0] == c
    ensures FirstIn(x + y, {c}) == |x|
    decreases |x|
  {
    if x != [] {
      assert (x + y)[1..] == x[1..] + y;
      FirstInPrefix(x[1..], y, c);
    }
  }
}
