/** Text as a list of lines that end in LF, CR or CRLF. */
module LineBreaks {
  import opened TextLines

  predicate Breaks(c: char) {
    c == '\n' || c == '\r'
  }

  predicate StartsCrLf(s: string) {
    |s| >= 2 && s[0] == '\r' && s[1] == '\n'
  }

  /** Lines with their endings; CRLF is one ending. */
  function SplitLines(s: string): seq<string> {
    if s == "" then []
    else if |s| == 1 || (Breaks(s[0]) && !StartsCrLf(s)) then [[s[0]]] + SplitLines(s[1..])
    else
      var rest := SplitLines(s[1..]);
      if rest == [] then [[s[0]]] else [[s[0]] + rest[0]] + rest[1..]
  }

  predicate EndsCrLf(line: string) {
    |line| >= 2 && line[|line| - 2] == '\r' && line[|line| - 1] == '\n'
  }

  predicate Closes(line: string) {
    |line| > 0 && Breaks(line[|line| - 1])
  }

  /** No break but at the end. */
  predicate IsTextLine(line: string) {
    |line| > 0 && forall i :: 0 <= i < |line| - 1 && Breaks(line[i]) ==> i == |line| - 2 && EndsCrLf(line)
  }

  /** A CR before a LF would be one break. */
  predicate Seam(a: string, b: string) {
    |a| > 0 && |b| > 0 && a[|a| - 1] == '\r' && b[0] == '\n'
  }

  /** What `SplitLines` produces. */
  predicate AreTextLines(lines: seq<string>) {
    && (forall i :: 0 <= i < |lines| ==> IsTextLine(lines[i]))
    && (forall i :: 0 <= i < |lines| - 1 ==> Closes(lines[i]) && !Seam(lines[i], lines[i + 1]))
  }

  ghost predicate AllClose(lines: seq<string>) {
    AreTextLines(lines) && (lines != [] ==> Closes(lines[|lines| - 1]))
  }

  lemma ConsTextLines(line: string, rest: seq<string>)
    requires IsTextLine(line) && AreTextLines(rest) && (rest != [] ==> Closes(line) && !Seam(line, rest[0]))
    ensures AreTextLines([line] + rest)
  {
    hide IsTextLine, Closes, Seam;
  }

  lemma GrowTextLine(c: char, lines: seq<string>)
    requires AreTextLines(lines) && lines != [] && (Breaks(c) ==> c == '\r' && lines[0][0] == '\n')
    ensures AreTextLines([[c] + lines[0]] + lines[1..])
  {
    var grown := [c] + lines[0];
    assert IsTextLine(lines[0]);
    forall i | 0 <= i < |grown| - 1 && Breaks(grown[i]) ensures i == |grown| - 2 && EndsCrLf(grown) {
      if i > 0 {
        assert grown[i] == lines[0][i - 1];
      }
    }
    var rest := lines[1..];
    assert AreTextLines(rest) && (rest != [] ==> Closes(grown) && !Seam(grown, rest[0])) by {
      assert forall i :: 0 <= i < |rest| ==> rest[i] == lines[i + 1];
    }
    ConsTextLines(grown, rest);
  }

  lemma {:induction false} JoinSplitLines(s: string)
    ensures Join(SplitLines(s)) == s && AreTextLines(SplitLines(s)) && (s != "" ==> SplitLines(s) != [])
  {
    if s != "" {
      JoinSplitLines(s[1..]);
      var rest := SplitLines(s[1..]);
      assert s == [s[0]] + s[1..];
      if rest != [] {
        FirstChar(rest);
        assert rest[0][0] == s[1];
      }
      if |s| == 1 || (Breaks(s[0]) && !StartsCrLf(s)) {
        hide SplitLines;
        JoinCons([s[0]], rest);
        ConsTextLines([s[0]], rest);
      } else {
        hide SplitLines;
        Regrown(s[0], rest);
        GrowTextLine(s[0], rest);
      }
    }
  }

  lemma FirstChar(lines: seq<string>)
    requires AreTextLines(lines) && lines != []
    ensures Join(lines) != "" && lines[0] != "" && Join(lines)[0] == lines[0][0]
  {
    assert IsTextLine(lines[0]);
    assert Join(lines) == lines[0] + Join(lines[1..]);
  }

  lemma Regrown(c: char, rest: seq<string>)
    requires rest != []
    ensures Join([[c] + rest[0]] + rest[1..]) == [c] + Join(rest)
  {
    JoinCons([c] + rest[0], rest[1..]);
    JoinCons(rest[0], rest[1..]);
    assert rest == [rest[0]] + rest[1..];
    hide Join;
    Together([c], rest[0], Join(rest[1..]));
  }

  /** Splitting in front of a whole line gives that line first. */
  lemma {:induction false} SplitFirst(line: string, rest: string)
    requires IsTextLine(line) && (rest == "" || (Closes(line) && !Seam(line, rest)))
    ensures SplitLines(line + rest) == [line] + SplitLines(rest)
  {
    var s := line + rest;
    assert s[1..] == line[1..] + rest;
    if |line| == 1 {
      assert line == [s[0]] && s[1..] == rest;
    } else {
      assert forall i :: 0 <= i < |line| - 1 ==> line[1..][i] == line[i + 1];
      SplitFirst(line[1..], rest);
      assert line == [s[0]] + line[1..];
      assert ([line[1..]] + SplitLines(rest))[1..] == SplitLines(rest);
    }
  }

  lemma {:induction false} SplitLinesJoin(lines: seq<string>)
    requires AreTextLines(lines)
    ensures SplitLines(Join(lines)) == lines
  {
    if lines != [] {
      FirstApart(lines);
      hide SplitLines, AreTextLines, IsTextLine, Closes, Seam;
      SplitLinesJoin(lines[1..]);
      SplitFirst(lines[0], Join(lines[1..]));
      assert lines == [lines[0]] + lines[1..];
    }
  }

  /** The first line can be split off. */
  lemma FirstApart(lines: seq<string>)
    requires AreTextLines(lines) && lines != []
    ensures var rest := Join(lines[1..]);
            && AreTextLines(lines[1..]) && IsTextLine(lines[0])
            && (rest == "" || (Closes(lines[0]) && !Seam(lines[0], rest)))
  {
    var rest := lines[1..];
    assert forall i :: 0 <= i < |rest| ==> rest[i] == lines[i + 1];
    hide IsTextLine, Closes;
    if rest != [] {
      FirstChar(rest);
    }
  }

  lemma CloseThenLines(a: seq<string>, b: seq<string>)
    requires AllClose(a) && AreTextLines(b) && (a != [] && b != [] ==> !Seam(a[|a| - 1], b[0]))
    ensures AreTextLines(a + b) && (AllClose(b) ==> AllClose(a + b))
  {
    hide IsTextLine, Closes, Seam;
  }

  /** A piece of the lines, and all but its last line are closed. */
  lemma Piece(lines: seq<string>, i: nat, j: nat)
    requires AreTextLines(lines) && i <= j <= |lines|
    ensures AreTextLines(lines[i..j]) && (j < |lines| ==> AllClose(lines[i..j]))
  {
    hide IsTextLine, Closes, Seam;
  }

  /** A line without breaks, ended. */
  lemma EndLine(s: string, nl: string)
    requires (nl == "\n" || nl == "\r\n") && '\n' !in s && '\r' !in s
    ensures IsTextLine(s + nl) && Closes(s + nl) && (EndsCrLf(s + nl) <==> nl == "\r\n")
  {
    var line := s + nl;
    assert forall i :: 0 <= i < |s| ==> line[i] == s[i];
  }

  // ----- CRLF in a text and in its lines -----

  predicate HasCrLf(s: string) {
    exists i :: 0 <= i < |s| - 1 && s[i] == '\r' && s[i + 1] == '\n'
  }

  /** No line ends in CRLF. */
  ghost predicate Plain(lines: seq<string>) {
    forall i :: 0 <= i < |lines| ==> !EndsCrLf(lines[i])
  }

  lemma CrLfAppend(a: string, b: string)
    requires !Seam(a, b)
    ensures HasCrLf(a + b) <==> HasCrLf(a) || HasCrLf(b)
  {
    var s := a + b;
    if i :| 0 <= i < |a| - 1 && a[i] == '\r' && a[i + 1] == '\n' {
      assert s[i] == '\r' && s[i + 1] == '\n';
    }
    if i :| 0 <= i < |b| - 1 && b[i] == '\r' && b[i + 1] == '\n' {
      assert s[|a| + i] == '\r' && s[|a| + i + 1] == '\n';
    }
    if i :| 0 <= i < |s| - 1 && s[i] == '\r' && s[i + 1] == '\n' {
      if i < |a| - 1 {
        assert a[i] == '\r' && a[i + 1] == '\n';
      } else if i >= |a| {
        assert b[i - |a|] == '\r' && b[i - |a| + 1] == '\n';
      }
    }
  }

  lemma LineCrLf(line: string)
    requires IsTextLine(line)
    ensures HasCrLf(line) <==> EndsCrLf(line)
  {
    if EndsCrLf(line) {
      assert line[|line| - 2] == '\r' && line[|line| - 2 + 1] == '\n';
    }
  }

  lemma {:induction false} JoinCrLf(lines: seq<string>)
    requires AreTextLines(lines)
    ensures HasCrLf(Join(lines)) <==> !Plain(lines)
  {
    if lines == [] {
      assert Join(lines) == "";
    } else {
      var rest := lines[1..];
      assert AreTextLines(rest);
      JoinCrLf(rest);
      if rest != [] {
        FirstChar(rest);
      }
      assert lines == [lines[0]] + rest;
      JoinCons(lines[0], rest);
      LineCrLf(lines[0]);
      CrLfAppend(lines[0], Join(rest));
      hide HasCrLf, Join, AreTextLines, EndsCrLf;
      assert Plain(lines) <==> !EndsCrLf(lines[0]) && Plain(rest);
    }
  }
}
