/** Transcript clean-up (`postprocess.rs`): whitespace collapse, sentence
    capitalisation and terminal punctuation, and case-insensitive duplicate
    detection. Case mapping is modelled on ASCII letters. */
module Postprocess {
  import opened Wrappers
  import opened Strings

  /** One item of `split_whitespace`: non-empty and free of whitespace. */
  predicate IsWord(w: string) {
    w != [] && NoneBlank(w, RustBlanks)
  }

  /** The longest whitespace-free prefix of `s`. */
  function WordPrefix(s: string): (w: string)
    ensures |w| <= |s| && w == s[..|w|]
    ensures NoneBlank(w, RustBlanks)
    ensures |w| < |s| ==> IsWhitespace(s[|w|])
    ensures s != [] && !IsWhitespace(s[0]) ==> w != []
  {
    if s == [] || IsWhitespace(s[0]) then [] else [s[0]] + WordPrefix(s[1..])
  }

  /** `str::split_whitespace`, collected. */
  function Words(s: string): seq<string>
    decreases |s|
  {
    var t := TrimStartBy(s, RustBlanks);
    if t == [] then []
    else
      var w := WordPrefix(t);
      [w] + Words(t[|w|..])
  }

  /** Every item of the split is a word. */
  lemma {:induction false} WordsAreWords(s: string)
    ensures forall k :: 0 <= k < |Words(s)| ==> IsWord(Words(s)[k])
    decreases |s|
  {
    var t := TrimStartBy(s, RustBlanks);
    if t != [] {
      var w := WordPrefix(t);
      var rest := t[|w|..];
      WordsAreWords(rest);
      assert Words(s) == [w] + Words(rest);
      forall k | 0 <= k < |Words(s)|
        ensures IsWord(Words(s)[k])
      {
        if k > 0 {
          assert Words(s)[k] == Words(rest)[k - 1];
        }
      }
    }
  }

  /** `join(" ")`. */
  function JoinSpaces(ws: seq<string>): string {
    if ws == [] then "" else if |ws| == 1 then ws[0] else ws[0] + " " + JoinSpaces(ws[1..])
  }

  /** The `collapsed` value: words joined by single spaces, then trimmed. */
  function Collapse(s: string): string {
    Trim(JoinSpaces(Words(s)))
  }

  /** Shape of a collapsed text: no whitespace at either end, the only
      whitespace character is the plain space, and no two whitespace characters
      are adjacent. */
  predicate IsCollapsed(c: string) {
    && (c == [] || (!IsWhitespace(c[0]) && !IsWhitespace(c[|c| - 1])))
    && (forall i :: 0 <= i < |c| && IsWhitespace(c[i]) ==> c[i] == ' ')
    && (forall i, j :: 0 <= i < |c| && 0 <= j < |c| && j == i + 1 ==> !(IsWhitespace(c[i]) && IsWhitespace(c[j])))
  }

  predicate IsTerminalMark(c: char) {
    c == '.' || c == '!' || c == '?'
  }

  lemma WordsEmptyIff(s: string)
    ensures Words(s) == [] <==> AllBlank(s, RustBlanks)
  {
    LeadingAreBlank(s, RustBlanks);
  }

  lemma {:induction false} JoinSpacesIsCollapsed(ws: seq<string>)
    requires forall k :: 0 <= k < |ws| ==> IsWord(ws[k])
    ensures IsCollapsed(JoinSpaces(ws))
    ensures JoinSpaces(ws) == [] <==> ws == []
  {
    if |ws| >= 2 {
      var w, rest := ws[0], JoinSpaces(ws[1..]);
      JoinSpacesIsCollapsed(ws[1..]);
      var c := w + " " + rest;
      assert c == JoinSpaces(ws);
      assert c[0] == w[0];
      assert c[|c| - 1] == rest[|rest| - 1];
      forall i | 0 <= i < |c| && IsWhitespace(c[i])
        ensures c[i] == ' '
      {
        if i > |w| {
          assert c[i] == rest[i - |w| - 1];
        }
      }
      forall i, j | 0 <= i < |c| && 0 <= j < |c| && j == i + 1
        ensures !(IsWhitespace(c[i]) && IsWhitespace(c[j]))
      {
        if i == |w| {
          assert c[j] == rest[0];
        } else if i > |w| {
          assert c[i] == rest[i - |w| - 1];
          assert c[j] == rest[j - |w| - 1];
        } else if j < |w| {
          assert c[j] == w[j];
        }
      }
    }
  }

  /** The collapse step is exactly the join: its result has nothing left to trim. */
  lemma CollapseIsJoin(s: string)
    ensures Collapse(s) == JoinSpaces(Words(s))
    ensures IsCollapsed(Collapse(s))
  {
    WordsAreWords(s);
    JoinSpacesIsCollapsed(Words(s));
    TrimOfTrimmed(JoinSpaces(Words(s)), RustBlanks);
  }

  lemma {:induction false} WordPrefixOfWord(w: string, rest: string)
    requires NoneBlank(w, RustBlanks)
    requires rest == [] || IsWhitespace(rest[0])
    ensures WordPrefix(w + rest) == w
  {
    if w != [] {
      assert (w + rest)[1..] == w[1..] + rest;
      WordPrefixOfWord(w[1..], rest);
    }
  }

  /** The split only looks at what is left after the leading whitespace. */
  lemma WordsOfTrimmedStart(s: string)
    ensures Words(TrimStartBy(s, RustBlanks)) == Words(s)
  {
    TrimStartIdempotent(s, RustBlanks);
  }

  /** Leading whitespace does not change the split. */
  lemma WordsAfterBlank(b: string, x: string)
    requires AllBlank(b, RustBlanks)
    ensures Words(b + x) == Words(x)
  {
    TrimStartAfterBlank(b, x, RustBlanks);
    WordsOfTrimmedStart(b + x);
    WordsOfTrimmedStart(x);
  }

  lemma WordsAfterSpace(x: string)
    ensures Words(" " + x) == Words(x)
  {
    WordsAfterBlank(" ", x);
  }

  lemma WordsOfWordStart(w: string, rest: string)
    requires IsWord(w) && (rest == [] || IsWhitespace(rest[0]))
    ensures Words(w + rest) == [w] + Words(rest)
  {
    var c := w + rest;
    assert c[0] == w[0];
    assert TrimStartBy(c, RustBlanks) == c;
    WordPrefixOfWord(w, rest);
    assert c[|w|..] == rest;
  }

  lemma WordsOfSingleWord(w: string)
    requires IsWord(w)
    ensures Words(JoinSpaces([w])) == [w]
  {
    WordsOfWordStart(w, []);
    assert w + [] == w;
  }

  lemma WordsOfJoinCons(w: string, tail: seq<string>)
    requires IsWord(w) && Words(JoinSpaces(tail)) == tail
    ensures Words(w + " " + JoinSpaces(tail)) == [w] + tail
  {
    var rest := JoinSpaces(tail);
    assert w + " " + rest == w + (" " + rest);
    WordsOfWordStart(w, " " + rest);
    WordsAfterSpace(rest);
  }

  /** Splitting a space-joined list of words gives the words back. */
  lemma {:induction false} WordsOfJoin(ws: seq<string>)
    requires forall k :: 0 <= k < |ws| ==> IsWord(ws[k])
    ensures Words(JoinSpaces(ws)) == ws
  {
    if |ws| == 1 {
      WordsOfSingleWord(ws[0]);
    } else if |ws| >= 2 {
      WordsOfJoin(ws[1..]);
      WordsOfJoinStep(ws);
    }
  }

  lemma WordsOfJoinStep(ws: seq<string>)
    requires |ws| >= 2 && IsWord(ws[0]) && Words(JoinSpaces(ws[1..])) == ws[1..]
    ensures Words(JoinSpaces(ws)) == ws
  {
    assert JoinSpaces(ws) == ws[0] + " " + JoinSpaces(ws[1..]);
    WordsOfJoinCons(ws[0], ws[1..]);
    assert ws == [ws[0]] + ws[1..];
  }

  lemma JoinSpacesCons(w: string, ws: seq<string>)
    requires ws != []
    ensures JoinSpaces([w] + ws) == w + " " + JoinSpaces(ws)
  {
    assert ([w] + ws)[1..] == ws;
  }

  lemma WordsOfNonSpaceStart(c: string)
    requires c != [] && !IsWhitespace(c[0])
    ensures Words(c) == [WordPrefix(c)] + Words(c[|WordPrefix(c)|..])
  {
    assert TrimStartBy(c, RustBlanks) == c;
  }

  /** After the first word of a collapsed text that does not end there come one
      space and a collapsed remainder. */
  lemma CollapsedTail(c: string, k: nat)
    requires IsCollapsed(c) && k < |c| && IsWhitespace(c[k])
    ensures k + 1 < |c| && c[k] == ' '
    ensures var tail := c[k + 1..];
      IsCollapsed(tail) && !IsWhitespace(tail[0]) && c[k..] == " " + tail && c == c[..k] + " " + tail
  {
    assert k + 1 < |c|;
    var tail := c[k + 1..];
    assert !(IsWhitespace(c[k]) && IsWhitespace(c[k + 1]));
    assert tail[0] == c[k + 1];
    assert tail[|tail| - 1] == c[|c| - 1];
    forall i | 0 <= i < |tail| && IsWhitespace(tail[i])
      ensures tail[i] == ' '
    {
      assert tail[i] == c[k + 1 + i];
    }
    forall i, j | 0 <= i < |tail| && 0 <= j < |tail| && j == i + 1
      ensures !(IsWhitespace(tail[i]) && IsWhitespace(tail[j]))
    {
      assert tail[i] == c[k + 1 + i] && tail[j] == c[k + 1 + j];
    }
    assert c == c[..k] + [c[k]] + tail;
  }

  /** Joining the words of a collapsed text gives the text back. */
  lemma {:induction false} JoinOfWords(c: string)
    requires IsCollapsed(c)
    ensures JoinSpaces(Words(c)) == c
    decreases |c|
  {
    if c != [] {
      var w := WordPrefix(c);
      WordsOfNonSpaceStart(c);
      if |w| == |c| {
        assert c[|w|..] == [];
        assert Words(c) == [w];
      } else {
        var k := |w|;
        CollapsedTail(c, k);
        var tail := c[k + 1..];
        WordsAfterSpace(tail);
        JoinOfWords(tail);
        WordsOfNonSpaceStart(tail);
        JoinSpacesCons(w, Words(tail));
      }
    }
  }

  /** Collapsing changes a text exactly when it is not already collapsed. */
  lemma CollapseFixedPoints(s: string)
    ensures Collapse(s) == s <==> IsCollapsed(s)
  {
    CollapseIsJoin(s);
    if IsCollapsed(s) {
      JoinOfWords(s);
    }
  }

  /** Collapsing keeps the words and their order. */
  lemma CollapseKeepsWords(s: string)
    ensures Words(Collapse(s)) == Words(s)
  {
    CollapseIsJoin(s);
    WordsAreWords(s);
    WordsOfJoin(Words(s));
  }

  lemma CollapseEmptyIff(s: string)
    ensures Collapse(s) == [] <==> AllBlank(s, RustBlanks)
  {
    CollapseIsJoin(s);
    WordsAreWords(s);
    JoinSpacesIsCollapsed(Words(s));
    WordsEmptyIff(s);
  }

  /** Upper-cases the first character, keeps the rest: only a lower-case
      first letter changes, and it changes into its own upper-case form. */
  function Capitalize(c: string): (r: string)
    requires c != []
    ensures |r| == |c| && r[1..] == c[1..]
    ensures !('a' <= r[0] <= 'z')
    ensures AsciiLowerChar(r[0]) == AsciiLowerChar(c[0])
    ensures !('a' <= c[0] <= 'z') ==> r == c
  {
    [AsciiUpperChar(c[0])] + c[1..]
  }

  /** The sentence step of `normalize_transcript` on an already collapsed text:
      upper-case the first character, then add a period unless the text already
      ends with a terminal mark. */
  function FinishSentence(c: string): string {
    if c == [] then []
    else
      var sentence := Capitalize(c);
      if IsTerminalMark(sentence[|sentence| - 1]) then sentence else sentence + "."
  }

  /** `normalize_transcript`. */
  function NormalizeTranscript(input: string): string {
    FinishSentence(Collapse(input))
  }

  lemma FinishSentenceEdits(c: string)
    requires c != []
    ensures var r := FinishSentence(c);
      && r[0] == AsciiUpperChar(c[0])
      && r[1..|c|] == c[1..]
      && (IsTerminalMark(c[|c| - 1]) ==> r == Capitalize(c))
      && (!IsTerminalMark(c[|c| - 1]) ==> r == Capitalize(c) + ".")
  {
    var sentence := Capitalize(c);
    assert IsTerminalMark(sentence[|sentence| - 1]) <==> IsTerminalMark(c[|c| - 1]);
    assert (sentence + ".")[1..|c|] == sentence[1..];
  }

  lemma FinishSentenceShape(c: string)
    requires c != [] && IsCollapsed(c)
    ensures var r := FinishSentence(c);
      r != [] && IsCollapsed(r) && IsTerminalMark(r[|r| - 1])
  {
    CapitalizeKeepsCollapsed(c);
    var sentence := Capitalize(c);
    if !IsTerminalMark(sentence[|sentence| - 1]) {
      AppendPeriodKeepsCollapsed(sentence);
    }
  }

  /** The result is empty exactly when the input is empty or all whitespace. */
  lemma NormalizeEmptyIff(input: string)
    ensures NormalizeTranscript(input) == [] <==> AllBlank(input, RustBlanks)
  {
    CollapseEmptyIff(input);
  }

  /** A non-empty result is collapsed (no whitespace at the ends, single spaces
      inside) and ends with a terminal mark. */
  lemma NormalizeShape(input: string)
    ensures var r := NormalizeTranscript(input);
      r != [] ==> IsCollapsed(r) && IsTerminalMark(r[|r| - 1])
  {
    var c := Collapse(input);
    if c != [] {
      CollapseIsJoin(input);
      FinishSentenceShape(c);
    }
    assert NormalizeTranscript(input) == FinishSentence(c);
  }

  /** Relative to the collapsed input: the first character is upper-cased, the
      others are kept, and a period is added exactly when the text does not
      already end with a terminal mark. */
  lemma NormalizeEdits(input: string)
    requires !AllBlank(input, RustBlanks)
    ensures var c, r := Collapse(input), NormalizeTranscript(input);
      && c != []
      && r[0] == AsciiUpperChar(c[0])
      && r[1..|c|] == c[1..]
      && (IsTerminalMark(c[|c| - 1]) ==> r == Capitalize(c))
      && (!IsTerminalMark(c[|c| - 1]) ==> r == Capitalize(c) + ".")
  {
    CollapseEmptyIff(input);
    FinishSentenceEdits(Collapse(input));
  }

  lemma CapitalizeKeepsCollapsed(c: string)
    requires c != [] && IsCollapsed(c)
    ensures IsCollapsed(Capitalize(c))
  {
    var r := Capitalize(c);
    assert forall i :: 1 <= i < |c| ==> r[i] == c[i];
    forall i, j | 0 <= i < |r| && 0 <= j < |r| && j == i + 1
      ensures !(IsWhitespace(r[i]) && IsWhitespace(r[j]))
    {
      assert r[j] == c[j];
      if i > 0 {
        assert r[i] == c[i];
      }
    }
  }

  lemma AppendPeriodKeepsCollapsed(c: string)
    requires c != [] && IsCollapsed(c)
    ensures IsCollapsed(c + ".")
  {
    var r := c + ".";
    assert forall i :: 0 <= i < |c| ==> r[i] == c[i];
    forall i, j | 0 <= i < |r| && 0 <= j < |r| && j == i + 1
      ensures !(IsWhitespace(r[i]) && IsWhitespace(r[j]))
    {
      assert r[i] == c[i];
      if j < |c| {
        assert r[j] == c[j];
      }
    }
  }

  /** Two words with blank padding around and between them collapse to the two
      words and one space. */
  lemma CollapseOfTwoWords(p: string, a: string, q: string, b: string, r: string)
    requires IsWord(a) && IsWord(b)
    requires AllBlank(p, RustBlanks) && AllBlank(q, RustBlanks) && q != [] && AllBlank(r, RustBlanks)
    ensures Collapse(p + a + q + b + r) == a + " " + b
  {
    var s := p + a + q + b + r;
    var t3 := a + (q + (b + r));
    assert s == p + t3;
    WordsOfTwo(a, q, b, r);
    WordsAfterBlank(p, t3);
    CollapseIsJoin(s);
  }

  /** A word, blank padding, a word and trailing padding split into the two
      words. */
  lemma WordsOfTwo(a: string, q: string, b: string, r: string)
    requires IsWord(a) && IsWord(b)
    requires AllBlank(q, RustBlanks) && q != [] && AllBlank(r, RustBlanks)
    ensures Words(a + (q + (b + r))) == [a, b]
  {
    WordsEmptyIff(r);
    WordsOfWordStart(b, r);
    WordsAfterBlank(q, b + r);
    WordsOfWordStart(a, q + (b + r));
  }

  /** Normalising a normalised transcript changes nothing. */
  lemma NormalizeIdempotent(input: string)
    ensures NormalizeTranscript(NormalizeTranscript(input)) == NormalizeTranscript(input)
  {
    var c := Collapse(input);
    if c != [] {
      CollapseIsJoin(input);
      var r := FinishSentence(c);
      FinishSentenceShape(c);
      FinishSentenceEdits(c);
      CollapseFixedPoints(r);
      AsciiUpperIdempotent(c[0]);
      FinishSentenceOfFinished(c);
    }
  }

  lemma FinishSentenceOfFinished(c: string)
    requires c != [] && IsCollapsed(c)
    ensures FinishSentence(FinishSentence(c)) == FinishSentence(c)
  {
    var r := FinishSentence(c);
    FinishSentenceShape(c);
    FinishSentenceEdits(c);
    AsciiUpperIdempotent(c[0]);
    assert Capitalize(r) == r;
  }

  /** The comparison key of duplicate detection: trimmed and lower-cased. */
  function CompareKey(s: string): string {
    AsciiLower(Trim(s))
  }

  /** `is_duplicate_transcript`. */
  function IsDuplicateTranscript(previous: Option<string>, current: string): bool {
    var key := CompareKey(current);
    if key == [] then true
    else
      match previous
      case Some(p) => CompareKey(p) == key
      case None => false
  }

  /** A blank current text always counts as a duplicate; otherwise it is one
      exactly when there is a previous text whose trimmed form has the same
      length and agrees with the trimmed current text letter by letter up to
      ASCII case. */
  lemma DuplicateCharacterisation(previous: Option<string>, current: string)
    ensures Trim(current) == [] ==> IsDuplicateTranscript(previous, current)
    ensures Trim(current) != [] && previous.None? ==> !IsDuplicateTranscript(previous, current)
    ensures Trim(current) != [] && previous.Some? ==>
              (IsDuplicateTranscript(previous, current) <==> SameUpToAsciiCase(Trim(previous.value), Trim(current)))
  {
    if previous.Some? {
      AsciiLowerEqIff(Trim(previous.value), Trim(current));
    }
  }

  /** Same length, and letter by letter equal up to ASCII case. */
  predicate SameUpToAsciiCase(p: string, c: string) {
    |p| == |c| && forall i :: 0 <= i < |c| ==> AsciiLowerChar(p[i]) == AsciiLowerChar(c[i])
  }

  lemma AsciiLowerEqIff(p: string, c: string)
    ensures AsciiLower(p) == AsciiLower(c) <==> SameUpToAsciiCase(p, c)
  {
    if SameUpToAsciiCase(p, c) {
      assert forall i :: 0 <= i < |c| ==> AsciiLower(p)[i] == AsciiLower(c)[i];
    }
  }

  /** A transcript is a duplicate of itself. */
  lemma DuplicateIsReflexive(s: string)
    ensures IsDuplicateTranscript(Some(s), s)
  {
  }

  /** Between two non-blank texts, being a duplicate does not depend on which one
      came first. */
  lemma DuplicateIsSymmetric(a: string, b: string)
    requires Trim(a) != [] && Trim(b) != []
    ensures IsDuplicateTranscript(Some(a), b) == IsDuplicateTranscript(Some(b), a)
  {
  }

  lemma AsciiLowerIdempotent(s: string)
    ensures AsciiLower(AsciiLower(s)) == AsciiLower(s)
  {
  }

  lemma CompareKeyIgnoresCase(s: string)
    ensures CompareKey(AsciiLower(s)) == CompareKey(s)
  {
    LowerTrimCommute(s, RustBlanks);
    AsciiLowerIdempotent(Trim(s));
  }

  /** Lower-casing the current text first does not change the verdict. */
  lemma DuplicateIgnoresCase(previous: Option<string>, current: string)
    ensures IsDuplicateTranscript(previous, AsciiLower(current)) == IsDuplicateTranscript(previous, current)
  {
    CompareKeyIgnoresCase(current);
  }

  /** The examples of the source: a repeat differing only in case is a
      duplicate, a different text is not, and a blank text always is. */
  lemma DuplicateExamples()
    ensures IsDuplicateTranscript(Some("Hello world."), "hello world.")
  {
    var x := "ello world.";
    assert "Hello world." == ['H'] + x && "hello world." == ['h'] + x;
    DuplicateOfCaseVariant('H', 'h', x);
  }

  /** Two texts that differ only in the case of their first letter are duplicates. */
  lemma DuplicateOfCaseVariant(a: char, b: char, x: string)
    requires AsciiLowerChar(a) == AsciiLowerChar(b) && !IsWhitespace(a) && !IsWhitespace(b)
    requires x != [] && !IsWhitespace(x[|x| - 1])
    ensures IsDuplicateTranscript(Some([a] + x), [b] + x)
  {
    var p, c := [a] + x, [b] + x;
    TrimOfTrimmed(p, RustBlanks);
    TrimOfTrimmed(c, RustBlanks);
    SameUpToCaseOfFirst(a, b, x);
    DuplicateCharacterisation(Some(p), c);
  }

  /** Changing only the case of the first letter keeps a text the same up to
      ASCII case. */
  lemma SameUpToCaseOfFirst(a: char, b: char, x: string)
    requires AsciiLowerChar(a) == AsciiLowerChar(b)
    ensures SameUpToAsciiCase([a] + x, [b] + x)
  {
    var p, c := [a] + x, [b] + x;
    assert forall i :: 1 <= i < |c| ==> p[i] == x[i - 1] == c[i];
  }

  lemma DifferentTextExample()
    ensures !IsDuplicateTranscript(Some("Hello world."), "different")
  {
    TrimOfTrimmed("Hello world.", RustBlanks);
    TrimOfTrimmed("different", RustBlanks);
    DuplicateCharacterisation(Some("Hello world."), "different");
  }

  lemma BlankExample()
    ensures IsDuplicateTranscript(None, "   ")
  {
    assert AllBlank("   ", RustBlanks);
    TrimEmptyIff("   ", RustBlanks);
  }
}
