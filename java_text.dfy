/** The pieces of java.lang.String, java.util.regex and Apache commons-lang StringUtils that
    the plugin uses, written out for the exact patterns it passes:
    `\s`, `\w`, `replaceAll("\\s+", "")`, `split("[\r\n]+")`, `split("\\r?\\n")`,
    `Pattern.compile("\\w+=\\w+").matcher(..).matches()`, `isEmpty` and `isBlank`. */
module JavaText {
  import opened JavaLang

  // ---------------------------------------------------------------------------
  // Character classes
  // ---------------------------------------------------------------------------

  /** The regex class `\s`: `[ \t\n\x0B\f\r]`. */
  predicate IsRegexSpace(c: char) {
    c == ' ' || c == '\t' || c == '\n' || c == '\U{0B}' || c == '\U{0C}' || c == '\r'
  }

  /** The regex class `\w` (no UNICODE_CHARACTER_CLASS flag): `[a-zA-Z_0-9]`. */
  predicate IsWordChar(c: char) {
    ('a' <= c <= 'z') || ('A' <= c <= 'Z') || ('0' <= c <= '9') || c == '_'
  }

  /** Character.isWhitespace, on which StringUtils.isBlank rests: the Unicode space,
      line and paragraph separators except the no-break spaces U+00A0, U+2007 and
      U+202F, and the controls U+0009..U+000D and U+001C..U+001F. */
  predicate IsJavaWhitespace(c: char) {
    ('\t' <= c <= '\r') || ('\U{1C}' <= c <= ' ') || c == '\U{1680}'
    || ('\U{2000}' <= c <= '\U{2006}') || ('\U{2008}' <= c <= '\U{200A}')
    || c == '\U{2028}' || c == '\U{2029}' || c == '\U{205F}' || c == '\U{3000}'
  }

  /** The regex class `[\r\n]`. */
  predicate IsLineBreak(c: char) {
    c == '\r' || c == '\n'
  }

  predicate NoRegexSpace(s: string) {
    forall i :: 0 <= i < |s| ==> !IsRegexSpace(s[i])
  }

  predicate NoLineBreak(s: string) {
    forall i :: 0 <= i < |s| ==> !IsLineBreak(s[i])
  }

  predicate AllLineBreaks(s: string) {
    forall i :: 0 <= i < |s| ==> IsLineBreak(s[i])
  }

  predicate AllWordChars(s: string) {
    forall i :: 0 <= i < |s| ==> IsWordChar(s[i])
  }

  predicate StartsWith(s: string, prefix: string) {
    |prefix| <= |s| && s[..|prefix|] == prefix
  }

  // ---------------------------------------------------------------------------
  // StringUtils.isEmpty and StringUtils.isBlank on a possibly-null string
  // ---------------------------------------------------------------------------

  /** `null` or `""`. */
  predicate IsEmpty(s: Option<string>) {
    s.None? || s.value == ""
  }

  /** `null`, `""`, or only Character.isWhitespace characters. */
  predicate IsBlank(s: Option<string>) {
    s.None? || forall i :: 0 <= i < |s.value| ==> IsJavaWhitespace(s.value[i])
  }

  /** An empty string is blank, but a blank string need not be empty. */
  lemma EmptyIsBlank(s: Option<string>)
    ensures IsEmpty(s) ==> IsBlank(s)
    ensures IsBlank(Some(" ")) && !IsEmpty(Some(" "))
  {
  }

  // ---------------------------------------------------------------------------
  // replaceAll("\\s+", "") and replaceAll("\\s", ""): both delete every `\s` character
  // ---------------------------------------------------------------------------

  function RemoveRegexSpaces(s: string): (r: string)
    ensures NoRegexSpace(r)
    ensures |r| <= |s|
    ensures NoRegexSpace(s) ==> r == s
  {
    if s == "" then ""
    else if IsRegexSpace(s[0]) then RemoveRegexSpaces(s[1..])
    else [s[0]] + RemoveRegexSpaces(s[1..])
  }

  /** Removing whitespace works piece by piece, so it keeps every other character in order. */
  lemma {:induction false} RemoveRegexSpacesConcat(a: string, b: string)
    ensures RemoveRegexSpaces(a + b) == RemoveRegexSpaces(a) + RemoveRegexSpaces(b)
    decreases |a|
  {
    if a != "" {
      assert (a + b)[0] == a[0];
      assert (a + b)[1..] == a[1..] + b;
      RemoveRegexSpacesConcat(a[1..], b);
    } else {
      assert a + b == b;
    }
  }

  // ---------------------------------------------------------------------------
  // String.split(regex) with limit 0
  // ---------------------------------------------------------------------------

  /** Java's split with limit 0 removes the empty strings at the end of the piece list. */
  function DropTrailingEmpty(pieces: seq<string>): (r: seq<string>)
    ensures |r| <= |pieces|
    ensures r == [] || r[|r| - 1] != ""
  {
    if pieces == [] then []
    else
      var rest := DropTrailingEmpty(pieces[1..]);
      if rest == [] && pieces[0] == "" then [] else [pieces[0]] + rest
  }

  /** What DropTrailingEmpty keeps is a prefix, and what it drops is empty. */
  lemma {:induction false} DropTrailingEmptyPrefix(pieces: seq<string>)
    ensures var r := DropTrailingEmpty(pieces);
      r == pieces[..|r|] && forall i :: |r| <= i < |pieces| ==> pieces[i] == ""
    decreases |pieces|
  {
    if pieces != [] {
      DropTrailingEmptyPrefix(pieces[1..]);
      var rest := DropTrailingEmpty(pieces[1..]);
      if !(rest == [] && pieces[0] == "") {
        assert forall i :: 1 <= i < |pieces| ==> pieces[i] == pieces[1..][i - 1];
      }
    }
  }

  /** Adds a character to the front of the first piece. */
  function PrependToFirst(c: char, pieces: seq<string>): (r: seq<string>)
    requires |pieces| > 0
  {
    [[c] + pieces[0]] + pieces[1..]
  }

  function SkipLineBreaks(s: string): (r: string)
    ensures |r| <= |s|
    ensures r == "" || !IsLineBreak(r[0])
    ensures (s == "" || !IsLineBreak(s[0])) ==> r == s
    ensures AllLineBreaks(s) ==> r == ""
  {
    if s != "" && IsLineBreak(s[0]) then SkipLineBreaks(s[1..]) else s
  }

  /** The pieces between the matches of `[\r\n]+` (a maximal run of line breaks),
      trailing empty pieces included. */
  function LineRunPieces(s: string): (pieces: seq<string>)
    ensures |pieces| >= 1
    ensures forall i :: 0 <= i < |pieces| ==> NoLineBreak(pieces[i])
    ensures forall i :: 0 < i < |pieces| - 1 ==> pieces[i] != ""
    ensures s != "" && !IsLineBreak(s[0]) ==> pieces[0] != ""
    decreases |s|
  {
    if s == "" then [""]
    else if IsLineBreak(s[0]) then [""] + LineRunPieces(SkipLineBreaks(s[1..]))
    else PrependToFirst(s[0], LineRunPieces(s[1..]))
  }

  /** The pieces between the matches of `\r?\n`, trailing empty pieces included. */
  function NewlinePieces(s: string): (pieces: seq<string>)
    ensures |pieces| >= 1
    ensures forall i :: 0 <= i < |pieces| ==> '\n' !in pieces[i]
    decreases |s|
  {
    if s == "" then [""]
    else if s[0] == '\n' then [""] + NewlinePieces(s[1..])
    else if s[0] == '\r' && |s| > 1 && s[1] == '\n' then [""] + NewlinePieces(s[2..])
    else PrependToFirst(s[0], NewlinePieces(s[1..]))
  }

  /** `s.split("[\r\n]+")`: a string without a match, `""` included, is its own only piece;
      otherwise the pieces between runs of line breaks, trailing empty pieces dropped.
      No piece holds a line break and only the first piece can be empty. */
  function SplitLineRuns(s: string): (r: seq<string>)
    ensures forall i :: 0 <= i < |r| ==> NoLineBreak(r[i])
    ensures forall i :: 0 < i < |r| ==> r[i] != ""
  {
    if NoLineBreak(s) then [s]
    else DropTrailingEmptyPrefix(LineRunPieces(s)); DropTrailingEmpty(LineRunPieces(s))
  }

  /** `s.split("\\r?\\n")`: a string without a `\n`, `""` included, is its own only piece;
      otherwise the pieces between the `\n` or `\r\n` separators, trailing empty pieces
      dropped. An empty line between two others stays an empty piece. */
  function SplitNewlines(s: string): (r: seq<string>)
    ensures forall i :: 0 <= i < |r| ==> '\n' !in r[i]
    ensures r == [] || r[|r| - 1] != "" || r == [s]
  {
    if '\n' !in s then [s]
    else DropTrailingEmptyPrefix(NewlinePieces(s)); DropTrailingEmpty(NewlinePieces(s))
  }

  // ---------------------------------------------------------------------------
  // Text made only of `\s` characters
  // ---------------------------------------------------------------------------

  predicate AllRegexSpaces(s: string) {
    forall i :: 0 <= i < |s| ==> IsRegexSpace(s[i])
  }

  /** Every `\s` character is also Character.isWhitespace, so such a text is blank. */
  lemma RegexSpacesAreBlank(s: string)
    requires AllRegexSpaces(s)
    ensures IsBlank(Some(s))
  {
  }

  /** Removing whitespace from a text made only of whitespace leaves nothing. */
  lemma {:induction false} RemoveAllRegexSpaces(s: string)
    requires AllRegexSpaces(s)
    ensures RemoveRegexSpaces(s) == ""
    decreases |s|
  {
    if s != "" {
      assert AllRegexSpaces(s[1..]) by {
        assert forall i :: 0 <= i < |s| - 1 ==> s[1..][i] == s[i + 1];
      }
      RemoveAllRegexSpaces(s[1..]);
    }
  }

  lemma {:induction false} SkipLineBreaksAllSpaces(s: string)
    requires AllRegexSpaces(s)
    ensures AllRegexSpaces(SkipLineBreaks(s))
    decreases |s|
  {
    if s != "" && IsLineBreak(s[0]) {
      assert AllRegexSpaces(s[1..]) by {
        assert forall i :: 0 <= i < |s| - 1 ==> s[1..][i] == s[i + 1];
      }
      SkipLineBreaksAllSpaces(s[1..]);
    }
  }

  /** Cutting a text made only of whitespace gives pieces made only of whitespace. */
  lemma {:induction false} LineRunPiecesAllSpaces(s: string)
    requires AllRegexSpaces(s)
    ensures forall i :: 0 <= i < |LineRunPieces(s)| ==> AllRegexSpaces(LineRunPieces(s)[i])
    decreases |s|
  {
    if s != "" {
      assert AllRegexSpaces(s[1..]) by {
        assert forall i :: 0 <= i < |s| - 1 ==> s[1..][i] == s[i + 1];
      }
      if IsLineBreak(s[0]) {
        SkipLineBreaksAllSpaces(s[1..]);
        LineRunPiecesAllSpaces(SkipLineBreaks(s[1..]));
      } else {
        var rest := LineRunPieces(s[1..]);
        LineRunPiecesAllSpaces(s[1..]);
        var first := [s[0]] + rest[0];
        assert AllRegexSpaces(first) by {
          assert forall i :: 1 <= i < |first| ==> first[i] == rest[0][i - 1];
        }
      }
    }
  }

  /** Every piece `split("[\r\n]+")` gives of a text made only of whitespace is itself
      made only of whitespace. */
  lemma SplitLineRunsAllSpaces(s: string)
    requires AllRegexSpaces(s)
    ensures forall i :: 0 <= i < |SplitLineRuns(s)| ==> AllRegexSpaces(SplitLineRuns(s)[i])
  {
    if !NoLineBreak(s) {
      LineRunPiecesAllSpaces(s);
      DropTrailingEmptyPrefix(LineRunPieces(s));
    }
  }

  // ---------------------------------------------------------------------------
  // The inverse of both splits: lines joined by "\n"
  // ---------------------------------------------------------------------------

  function JoinLines(lines: seq<string>): string
  {
    if |lines| == 0 then ""
    else if |lines| == 1 then lines[0]
    else lines[0] + "\n" + JoinLines(lines[1..])
  }

  lemma {:induction false} JoinLinesNoBreak(lines: seq<string>)
    requires |lines| == 1 && NoLineBreak(lines[0])
    ensures NoLineBreak(JoinLines(lines)) && '\n' !in JoinLines(lines)
  {
    assert JoinLines(lines) == lines[0];
  }

  /** A line without breaks, put in front of text that starts a new piece, becomes the
      start of the first piece. */
  lemma {:induction false} NewlinePiecesPrefix(line: string, t: string)
    requires NoLineBreak(line)
    requires t == "" || t[0] == '\n' || (t[0] == '\r' && |t| > 1 && t[1] == '\n')
    ensures NewlinePieces(line + t) == [line + NewlinePieces(t)[0]] + NewlinePieces(t)[1..]
    decreases |line|
  {
    if line == "" {
      assert line + t == t;
    } else {
      var s := line + t;
      assert s[0] == line[0] && !IsLineBreak(s[0]);
      assert s[1..] == line[1..] + t;
      NewlinePiecesPrefix(line[1..], t);
      assert [line[0]] + (line[1..] + NewlinePieces(t)[0]) == line + NewlinePieces(t)[0];
    }
  }

  lemma {:induction false} LineRunPiecesPrefix(line: string, t: string)
    requires NoLineBreak(line)
    requires t == "" || IsLineBreak(t[0])
    ensures LineRunPieces(line + t) == [line + LineRunPieces(t)[0]] + LineRunPieces(t)[1..]
    decreases |line|
  {
    if line == "" {
      assert line + t == t;
    } else {
      var s := line + t;
      assert s[0] == line[0] && !IsLineBreak(s[0]);
      assert s[1..] == line[1..] + t;
      LineRunPiecesPrefix(line[1..], t);
      assert [line[0]] + (line[1..] + LineRunPieces(t)[0]) == line + LineRunPieces(t)[0];
    }
  }

  /** Joining break-free lines with "\n" and cutting at each `\r?\n` gives the lines back,
      empty ones included. */
  lemma {:induction false} NewlinePiecesOfJoin(lines: seq<string>)
    requires |lines| >= 1
    requires forall i :: 0 <= i < |lines| ==> NoLineBreak(lines[i])
    ensures NewlinePieces(JoinLines(lines)) == lines
    decreases |lines|
  {
    if |lines| == 1 {
      NewlinePiecesPrefix(lines[0], "");
      assert lines[0] + "" == lines[0];
    } else {
      var rest := JoinLines(lines[1..]);
      NewlinePiecesOfJoin(lines[1..]);
      var t := "\n" + rest;
      assert t[1..] == rest;
      assert NewlinePieces(t) == [""] + lines[1..];
      NewlinePiecesPrefix(lines[0], t);
      assert JoinLines(lines) == lines[0] + t;
      assert lines[0] + "" == lines[0];
    }
  }

  /** Joining break-free lines, all but the first non-empty, and cutting at each run of
      line breaks gives the lines back. */
  lemma {:induction false} LineRunPiecesOfJoin(lines: seq<string>)
    requires |lines| >= 1
    requires forall i :: 0 <= i < |lines| ==> NoLineBreak(lines[i])
    requires forall i :: 0 < i < |lines| - 1 ==> lines[i] != ""
    ensures LineRunPieces(JoinLines(lines)) == lines
    decreases |lines|
  {
    if |lines| == 1 {
      LineRunPiecesPrefix(lines[0], "");
      assert lines[0] + "" == lines[0];
    } else {
      var rest := JoinLines(lines[1..]);
      LineRunPiecesOfJoin(lines[1..]);
      assert rest == "" || !IsLineBreak(rest[0]) by {
        if |lines| == 2 {
          assert rest == lines[1];
        } else {
          assert rest == lines[1] + "\n" + JoinLines(lines[2..]);
          assert lines[1] != "";
          assert rest[0] == lines[1][0];
        }
      }
      var t := "\n" + rest;
      assert t[1..] == rest;
      assert SkipLineBreaks(rest) == rest;
      assert LineRunPieces(t) == [""] + lines[1..];
      LineRunPiecesPrefix(lines[0], t);
      assert JoinLines(lines) == lines[0] + t;
      assert lines[0] + "" == lines[0];
    }
  }

  /** `split("\\r?\\n")` undoes joining break-free lines whose last line is not empty. */
  lemma SplitNewlinesOfJoin(lines: seq<string>)
    requires |lines| >= 1
    requires forall i :: 0 <= i < |lines| ==> NoLineBreak(lines[i])
    requires lines[|lines| - 1] != ""
    ensures SplitNewlines(JoinLines(lines)) == lines
  {
    if |lines| == 1 {
      JoinLinesNoBreak(lines);
    } else {
      var s := JoinLines(lines);
      assert s == lines[0] + "\n" + JoinLines(lines[1..]);
      assert s[|lines[0]|] == '\n';
      NewlinePiecesOfJoin(lines);
      DropTrailingEmptyKeeps(lines);
    }
  }

  /** `split("[\r\n]+")` undoes joining break-free lines that are non-empty after the first. */
  lemma SplitLineRunsOfJoin(lines: seq<string>)
    requires |lines| >= 1
    requires forall i :: 0 <= i < |lines| ==> NoLineBreak(lines[i])
    requires forall i :: 0 < i < |lines| ==> lines[i] != ""
    ensures SplitLineRuns(JoinLines(lines)) == lines
  {
    if |lines| == 1 {
      JoinLinesNoBreak(lines);
    } else {
      var s := JoinLines(lines);
      assert s == lines[0] + "\n" + JoinLines(lines[1..]);
      assert IsLineBreak(s[|lines[0]|]);
      LineRunPiecesOfJoin(lines);
      DropTrailingEmptyKeeps(lines);
    }
  }

  /** A line break after the last line adds one empty line. */
  lemma {:induction false} JoinLinesAppendEmpty(lines: seq<string>)
    requires |lines| >= 1
    ensures JoinLines(lines + [""]) == JoinLines(lines) + "\n"
    decreases |lines|
  {
    var padded := lines + [""];
    if |lines| == 1 {
      assert padded[1..] == [""];
      assert JoinLines(padded) == lines[0] + "\n" + "";
    } else {
      assert padded[1..] == lines[1..] + [""];
      JoinLinesAppendEmpty(lines[1..]);
    }
  }

  /** An empty piece after a non-empty last piece is dropped, and nothing else is. */
  lemma {:induction false} DropTrailingEmptyOfPadded(p: seq<string>)
    requires |p| >= 1 && p[|p| - 1] != ""
    ensures DropTrailingEmpty(p + [""]) == p
    decreases |p|
  {
    var padded := p + [""];
    if |p| == 1 {
      assert padded[1..] == [""] && [""][1..] == [];
    } else {
      assert padded[1..] == p[1..] + [""];
      DropTrailingEmptyOfPadded(p[1..]);
      assert [p[0]] + p[1..] == p;
    }
  }

  /** Validation's split ignores a line break after the last line: Java's `split` drops the
      empty piece it leaves. */
  lemma SplitNewlinesOfJoinWithBreak(lines: seq<string>)
    requires |lines| >= 1
    requires forall i :: 0 <= i < |lines| ==> NoLineBreak(lines[i])
    requires lines[|lines| - 1] != ""
    ensures SplitNewlines(JoinLines(lines) + "\n") == lines
  {
    var text := JoinLines(lines) + "\n";
    NewlinePiecesOfJoinWithBreak(lines);
    assert text[|text| - 1] == '\n';
    DropTrailingEmptyOfPadded(lines);
  }

  lemma NewlinePiecesOfJoinWithBreak(lines: seq<string>)
    requires |lines| >= 1
    requires forall i :: 0 <= i < |lines| ==> NoLineBreak(lines[i])
    ensures NewlinePieces(JoinLines(lines) + "\n") == lines + [""]
  {
    var padded := lines + [""];
    JoinLinesAppendEmpty(lines);
    forall i | 0 <= i < |padded| ensures NoLineBreak(padded[i]) {
      if i < |lines| { assert padded[i] == lines[i]; }
    }
    NewlinePiecesOfJoin(padded);
  }

  /** Text typed in a browser form ends its lines with `\r\n`. Validation's split takes the
      pair as one separator. */
  lemma CrlfNewlines()
    ensures SplitNewlines("a=b\r\nc=d") == ["a=b", "c=d"]
  {
    assert "a=b\r\nc=d"[4] == '\n';
    CrlfNewlinePieces();
    DropTrailingEmptyKeeps(["a=b", "c=d"]);
  }

  lemma CrlfNewlinePieces()
    ensures NewlinePieces("a=b\r\nc=d") == ["a=b", "c=d"]
  {
    assert "a=b\r\nc=d" == "a=b" + "\r\nc=d" && "a=b" + "" == "a=b";
    CrlfNewlinePiecesTail();
    NewlinePiecesPrefix("a=b", "\r\nc=d");
  }

  lemma CrlfNewlinePiecesTail()
    ensures NewlinePieces("\r\nc=d") == ["", "c=d"]
  {
    assert "\r\nc=d"[2..] == "c=d" + "";
    NewlinePiecesPrefix("c=d", "");
  }

  /** The command's split takes a run of `\r\n` pairs as one separator, so a blank line
      between two `\r\n`-ended lines leaves no empty piece. */
  lemma CrlfLineRuns()
    ensures SplitLineRuns("a\r\n\r\nb") == ["a", "b"]
  {
    assert "a\r\n\r\nb"[1] == '\r';
    CrlfLineRunPieces();
    DropTrailingEmptyKeeps(["a", "b"]);
  }

  lemma CrlfLineRunPieces()
    ensures LineRunPieces("a\r\n\r\nb") == ["a", "b"]
  {
    assert "a\r\n\r\nb" == "a" + "\r\n\r\nb" && "a" + "" == "a";
    CrlfLineRunPiecesTail();
    LineRunPiecesPrefix("a", "\r\n\r\nb");
  }

  lemma CrlfLineRunPiecesTail()
    ensures LineRunPieces("\r\n\r\nb") == ["", "b"]
  {
    assert "\r\n\r\nb"[1..] == "\n\r\nb" && "\n\r\nb"[1..] == "\r\nb" && "\r\nb"[1..] == "\nb"
      && "\nb"[1..] == "b";
    assert SkipLineBreaks("\n\r\nb") == "b";
    assert "b" + "" == "b";
    LineRunPiecesPrefix("b", "");
  }

  // ---------------------------------------------------------------------------
  // Where the two splits agree
  // ---------------------------------------------------------------------------

  /** Every `\r` is the first half of a `\r\n`. */
  predicate NoLoneCarriageReturn(s: string) {
    forall i :: 0 <= i < |s| && s[i] == '\r' ==> i + 1 < |s| && s[i + 1] == '\n'
  }

  predicate NonEmptyAfterFirst(pieces: seq<string>) {
    forall i :: 0 < i < |pieces| ==> pieces[i] != ""
  }

  lemma DropTrailingEmptyCons(x: string, rest: seq<string>)
    ensures DropTrailingEmpty([x] + rest)
         == if DropTrailingEmpty(rest) == [] && x == "" then [] else [x] + DropTrailingEmpty(rest)
  {
    assert ([x] + rest)[1..] == rest;
  }

  lemma DropTrailingEmptyHeadTail(p: seq<string>, q: seq<string>)
    requires |p| >= 1 && |q| >= 1
    requires DropTrailingEmpty(p) == DropTrailingEmpty(q)
    ensures p[0] == q[0] && DropTrailingEmpty(p[1..]) == DropTrailingEmpty(q[1..])
  {
    var dp, dq := DropTrailingEmpty(p[1..]), DropTrailingEmpty(q[1..]);
    assert p == [p[0]] + p[1..] && q == [q[0]] + q[1..];
    DropTrailingEmptyCons(p[0], p[1..]);
    DropTrailingEmptyCons(q[0], q[1..]);
    if !(dp == [] && p[0] == "") {
      assert ([p[0]] + dp)[0] == p[0] && ([p[0]] + dp)[1..] == dp;
      assert ([q[0]] + dq)[0] == q[0] && ([q[0]] + dq)[1..] == dq;
    }
  }

  /** Nothing is dropped when the last piece is not empty. */
  lemma {:induction false} DropTrailingEmptyKeeps(p: seq<string>)
    requires |p| >= 1 && p[|p| - 1] != ""
    ensures DropTrailingEmpty(p) == p
    decreases |p|
  {
    if |p| > 1 {
      DropTrailingEmptyKeeps(p[1..]);
      assert [p[0]] + p[1..] == p;
    }
  }

  /** Only separators leave no piece behind. */
  lemma {:induction false} NoPiecesMeansOnlyBreaks(t: string)
    requires NoLoneCarriageReturn(t)
    requires DropTrailingEmpty(NewlinePieces(t)) == []
    ensures AllLineBreaks(t)
    decreases |t|
  {
    if t != "" {
      if t[0] == '\n' {
        DropTrailingEmptyCons("", NewlinePieces(t[1..]));
        NoPiecesMeansOnlyBreaks(t[1..]);
        assert forall i :: 1 <= i < |t| ==> t[i] == t[1..][i - 1];
      } else if t[0] == '\r' {
        assert |t| > 1 && t[1] == '\n';
        DropTrailingEmptyCons("", NewlinePieces(t[2..]));
        NoPiecesMeansOnlyBreaks(t[2..]);
        assert forall i :: 2 <= i < |t| ==> t[i] == t[2..][i - 2];
      } else {
        assert false;
      }
    }
  }

  /** When no piece after the first is empty, cutting at runs of line breaks and cutting at
      each `\r?\n` give the same pieces, provided no `\r` stands alone. */
  lemma {:induction false} LineRunPiecesAgree(s: string)
    requires NoLoneCarriageReturn(s)
    requires NonEmptyAfterFirst(DropTrailingEmpty(NewlinePieces(s)))
    ensures DropTrailingEmpty(LineRunPieces(s)) == DropTrailingEmpty(NewlinePieces(s))
    decreases |s|, 1
  {
    if s == "" {
    } else if IsLineBreak(s[0]) {
      LineRunPiecesAgreeAtBreak(s);
    } else {
      LineRunPiecesAgreeAtChar(s);
    }
  }

  /** The step of LineRunPiecesAgree for a text that starts with a separator. */
  lemma {:induction false} LineRunPiecesAgreeAtBreak(s: string)
    requires s != "" && IsLineBreak(s[0])
    requires NoLoneCarriageReturn(s)
    requires NonEmptyAfterFirst(DropTrailingEmpty(NewlinePieces(s)))
    ensures DropTrailingEmpty(LineRunPieces(s)) == DropTrailingEmpty(NewlinePieces(s))
    decreases |s|, 0
  {
    var t := AfterFirstBreak(s);
    var n := NewlinePieces(t);
    DropTrailingEmptyCons("", n);
    DropTrailingEmptyCons("", LineRunPieces(SkipLineBreaks(t)));
    var dn := DropTrailingEmpty(n);
    if dn == [] {
      NoPiecesMeansOnlyBreaks(t);
    } else {
      NonEmptyAfterFirstOfTail(dn);
      DropTrailingEmptyPrefix(n);
      if t == "" || IsLineBreak(t[0]) {
        BreakFirstGivesEmptyPiece(t);
      }
      LineRunPiecesAgree(t);
    }
  }

  /** The text after the first `\n` or `\r\n` separator of `s`: both cuttings of `s` start
      with an empty piece and go on as the cuttings of that text. */
  lemma AfterFirstBreak(s: string) returns (t: string)
    requires s != "" && IsLineBreak(s[0])
    requires NoLoneCarriageReturn(s)
    ensures |t| < |s| && NoLoneCarriageReturn(t)
    ensures NewlinePieces(s) == [""] + NewlinePieces(t)
    ensures LineRunPieces(s) == [""] + LineRunPieces(SkipLineBreaks(t))
  {
    t := if s[0] == '\n' then s[1..] else s[2..];
    assert s[0] == '\r' ==> |s| > 1 && s[1] == '\n';
    assert SkipLineBreaks(s[1..]) == SkipLineBreaks(t);
    forall i | 0 <= i < |t| && t[i] == '\r' ensures i + 1 < |t| && t[i + 1] == '\n' {
      var k := i + |s| - |t|;
      assert s[k] == t[i];
    }
  }

  /** Below a leading empty piece, the rest of the pieces are all non-empty. */
  lemma NonEmptyAfterFirstOfTail(dn: seq<string>)
    requires dn != [] && NonEmptyAfterFirst([""] + dn)
    ensures dn[0] != "" && NonEmptyAfterFirst(dn)
  {
    assert ([""] + dn)[1] == dn[0];
    forall i | 0 < i < |dn| ensures dn[i] != "" {
      assert ([""] + dn)[i + 1] == dn[i];
    }
  }

  /** A text that is empty or starts with a separator has an empty first `\r?\n` piece. */
  lemma BreakFirstGivesEmptyPiece(t: string)
    requires NoLoneCarriageReturn(t)
    requires t == "" || IsLineBreak(t[0])
    ensures NewlinePieces(t)[0] == ""
  {
    if t != "" && t[0] == '\r' {
      assert |t| > 1 && t[1] == '\n';
    }
  }

  /** The step of LineRunPiecesAgree for a text that starts with an ordinary character. */
  lemma {:induction false} LineRunPiecesAgreeAtChar(s: string)
    requires s != "" && !IsLineBreak(s[0])
    requires NoLoneCarriageReturn(s)
    requires NonEmptyAfterFirst(DropTrailingEmpty(NewlinePieces(s)))
    ensures DropTrailingEmpty(LineRunPieces(s)) == DropTrailingEmpty(NewlinePieces(s))
    decreases |s|, 0
  {
    var t := AfterFirstChar(s);
    var n, l := NewlinePieces(t), LineRunPieces(t);
    NonEmptyAfterFirstOfCons([s[0]] + n[0], n[0], n[1..]);
    assert n == [n[0]] + n[1..];
    LineRunPiecesAgree(t);
    AgreeAfterPrepend(s[0], l, n);
  }

  /** The text after the first character of `s`, when that is an ordinary one: both cuttings
      of `s` are the cuttings of that text with the character put in front. */
  lemma AfterFirstChar(s: string) returns (t: string)
    requires s != "" && !IsLineBreak(s[0])
    requires NoLoneCarriageReturn(s)
    ensures |t| < |s| && NoLoneCarriageReturn(t)
    ensures NewlinePieces(s) == [[s[0]] + NewlinePieces(t)[0]] + NewlinePieces(t)[1..]
    ensures LineRunPieces(s) == [[s[0]] + LineRunPieces(t)[0]] + LineRunPieces(t)[1..]
  {
    t := s[1..];
    forall i | 0 <= i < |t| && t[i] == '\r' ensures i + 1 < |t| && t[i + 1] == '\n' {
      assert s[i + 1] == t[i];
    }
  }

  /** Whether the pieces after the first are non-empty does not depend on the first piece,
      as long as it is not empty. */
  lemma NonEmptyAfterFirstOfCons(x: string, y: string, rest: seq<string>)
    requires x != ""
    requires NonEmptyAfterFirst(DropTrailingEmpty([x] + rest))
    ensures NonEmptyAfterFirst(DropTrailingEmpty([y] + rest))
  {
    var d := DropTrailingEmpty(rest);
    DropTrailingEmptyCons(x, rest);
    DropTrailingEmptyCons(y, rest);
    forall i | 0 <= i < |d| ensures d[i] != "" {
      assert ([x] + d)[i + 1] == d[i];
    }
    forall i | 0 < i < |([y] + d)| ensures ([y] + d)[i] != "" {
      assert ([y] + d)[i] == d[i - 1];
    }
  }

  /** Piece lists that agree once trailing empties are dropped still agree after a
      character is put in front of their first pieces. */
  lemma AgreeAfterPrepend(c: char, l: seq<string>, n: seq<string>)
    requires |l| >= 1 && |n| >= 1
    requires DropTrailingEmpty(l) == DropTrailingEmpty(n)
    ensures DropTrailingEmpty([[c] + l[0]] + l[1..]) == DropTrailingEmpty([[c] + n[0]] + n[1..])
  {
    DropTrailingEmptyCons([c] + n[0], n[1..]);
    DropTrailingEmptyCons([c] + l[0], l[1..]);
    DropTrailingEmptyHeadTail(l, n);
  }

  /** `split("[\r\n]+")` and `split("\\r?\\n")` agree on a text whose `\r?\n` pieces are all
      non-empty and that has no lone `\r`. */
  lemma SplitsAgree(s: string)
    requires NoLoneCarriageReturn(s)
    requires forall i :: 0 <= i < |SplitNewlines(s)| ==> SplitNewlines(s)[i] != ""
    ensures SplitLineRuns(s) == SplitNewlines(s)
  {
    if '\n' !in s {
      assert NoLineBreak(s) by {
        forall i | 0 <= i < |s| ensures !IsLineBreak(s[i]) {
          assert s[i] != '\n';
          assert i + 1 < |s| ==> s[i + 1] != '\n';
        }
      }
    } else {
      var k :| 0 <= k < |s| && s[k] == '\n';
      assert !NoLineBreak(s) by { assert IsLineBreak(s[k]); }
      assert SplitNewlines(s) == DropTrailingEmpty(NewlinePieces(s));
      LineRunPiecesAgree(s);
    }
  }

  // ---------------------------------------------------------------------------
  // Matcher.matches() for the pattern \w+=\w+
  // ---------------------------------------------------------------------------

  /** Position of the first `c` in `s`, or `|s|` when there is none. */
  function IndexOf(s: string, c: char): (k: nat)
    ensures k <= |s|
    ensures k < |s| ==> s[k] == c
    ensures forall j :: 0 <= j < k ==> s[j] != c
  {
    if s == "" then 0 else if s[0] == c then 0 else 1 + IndexOf(s[1..], c)
  }

  /** The whole of `s` is a non-empty run of word characters, `=`, and a non-empty run of
      word characters. */
  function MatchesNameValue(s: string): (r: bool)
    ensures r <==> exists k :: 0 < k < |s| - 1 && s[k] == '='
                                && AllWordChars(s[..k]) && AllWordChars(s[k + 1..])
  {
    var k := IndexOf(s, '=');
    var r := 0 < k < |s| - 1 && AllWordChars(s[..k]) && AllWordChars(s[k + 1..]);
    assert !r ==> forall k' :: 0 < k' < |s| - 1 && s[k'] == '=' && AllWordChars(s[..k'])
                              ==> !AllWordChars(s[k' + 1..]) by {
      if !r {
        forall k' | 0 < k' < |s| - 1 && s[k'] == '=' && AllWordChars(s[..k'])
          ensures !AllWordChars(s[k' + 1..])
        {
          assert forall j :: 0 <= j < k' ==> s[j] == s[..k'][j];
          assert k == k';
        }
      }
    }
    r
  }

  /** In an accepted line every `=` is the separator: a line has exactly one `=`, with at
      least one word character on each side. */
  lemma EqualsSignIsSeparator(s: string, k: int)
    requires MatchesNameValue(s)
    requires 0 <= k < |s| && s[k] == '='
    ensures 0 < k < |s| - 1 && AllWordChars(s[..k]) && AllWordChars(s[k + 1..])
  {
  }

  /** An accepted line is at least three characters long. */
  lemma MatchesNameValueNonEmpty(s: string)
    requires MatchesNameValue(s)
    ensures |s| >= 3
  {
  }
}
