/** Text as a list of lines, and the string operations the editors of configuration files use. */
module TextLines {

  // ----- lines -----

  function Join(lines: seq<string>): string {
    if lines == [] then "" else lines[0] + Join(lines[1..])
  }

  /** Lines with their newlines; only LF ends a line here. */
  function Split(s: string): seq<string> {
    if s == "" then []
    else if s[0] == '\n' || |s| == 1 then [[s[0]]] + Split(s[1..])
    else
      var rest := Split(s[1..]);
      if rest == [] then [[s[0]]] else [[s[0]] + rest[0]] + rest[1..]
  }

  predicate Ended(line: string) {
    |line| > 0 && line[|line| - 1] == '\n'
  }

  predicate IsLine(line: string) {
    |line| > 0 && forall i :: 0 <= i < |line| - 1 ==> line[i] != '\n'
  }

  /** What `Split` produces: nonempty lines, all ended but perhaps the last. */
  predicate AreLines(lines: seq<string>) {
    (forall i :: 0 <= i < |lines| ==> IsLine(lines[i])) && (forall i :: 0 <= i < |lines| - 1 ==> Ended(lines[i]))
  }

  lemma JoinCons(line: string, rest: seq<string>)
    ensures Join([line] + rest) == line + Join(rest)
  {
    assert ([line] + rest)[1..] == rest;
  }

  lemma ConsLines(line: string, rest: seq<string>)
    requires IsLine(line) && AreLines(rest) && (Ended(line) || rest == [])
    ensures AreLines([line] + rest)
  {}

  lemma GrowLine(c: char, lines: seq<string>)
    requires c != '\n' && AreLines(lines) && lines != []
    ensures AreLines([[c] + lines[0]] + lines[1..])
  {
    var grown := [[c] + lines[0]] + lines[1..];
    assert IsLine(grown[0]) && (Ended(lines[0]) ==> Ended(grown[0]));
    assert forall i :: 1 <= i < |grown| ==> grown[i] == lines[i];
  }

  lemma {:induction false} JoinSplit(s: string)
    ensures Join(Split(s)) == s && AreLines(Split(s)) && (s != "" ==> Split(s) != [])
  {
    if s != "" {
      JoinSplit(s[1..]);
      var rest := Split(s[1..]);
      assert s == [s[0]] + s[1..];
      if s[0] == '\n' || |s| == 1 {
        assert Split(s) == [[s[0]]] + rest;
        JoinCons([s[0]], rest);
        ConsLines([s[0]], rest);
      } else {
        hide Split;
        JoinCons([s[0]] + rest[0], rest[1..]);
        JoinCons(rest[0], rest[1..]);
        assert rest == [rest[0]] + rest[1..];
        GrowLine(s[0], rest);
        assert [s[0]] + rest[0] + Join(rest[1..]) == [s[0]] + (rest[0] + Join(rest[1..]));
      }
    }
  }

  /** Splitting in front of a whole line gives that line first. */
  lemma {:induction false} SplitLine(line: string, rest: string)
    requires IsLine(line) && (Ended(line) || rest == "")
    ensures Split(line + rest) == [line] + Split(rest)
  {
    var s := line + rest;
    assert s[1..] == line[1..] + rest;
    if |line| == 1 {
      assert line == [s[0]] && s[1..] == rest;
    } else {
      SplitLine(line[1..], rest);
      assert line == [s[0]] + line[1..];
      assert ([line[1..]] + Split(rest))[1..] == Split(rest);
    }
  }

  lemma {:induction false} SplitJoin(lines: seq<string>)
    requires AreLines(lines)
    ensures Split(Join(lines)) == lines
  {
    if lines != [] {
      SplitJoin(lines[1..]);
      SplitLine(lines[0], Join(lines[1..]));
      assert lines == [lines[0]] + lines[1..];
    }
  }

  lemma HeadFirst(a: seq<string>, b: seq<string>)
    requires a != []
    ensures a + b == [a[0]] + (a[1..] + b) && a == [a[0]] + a[1..]
  {}

  lemma Together(a: string, b: string, c: string)
    ensures a + (b + c) == a + b + c
  {}

  lemma {:induction false} JoinAppend(a: seq<string>, b: seq<string>)
    ensures Join(a + b) == Join(a) + Join(b)
  {
    if a == [] {
      assert a + b == b;
    } else {
      JoinAppend(a[1..], b);
      HeadFirst(a, b);
      JoinCons(a[0], a[1..] + b);
      JoinCons(a[0], a[1..]);
      Together(a[0], Join(a[1..]), Join(b));
      hide Join;
    }
  }

  // ----- characters -----

  predicate IsSpace(c: char) {
    c == ' ' || c == '\t' || c == '\n' || c == '\r' || c == 0x0b as char || c == 0x0c as char
  }

  predicate Blank(s: string) {
    forall i :: 0 <= i < |s| ==> IsSpace(s[i])
  }

  function LStrip(s: string): (r: string)
    ensures |r| <= |s|
  {
    if s != "" && IsSpace(s[0]) then LStrip(s[1..]) else s
  }

  function RStrip(s: string): string {
    if s != "" && IsSpace(s[|s| - 1]) then RStrip(s[..|s| - 1]) else s
  }

  function Strip(s: string): string {
    LStrip(RStrip(s))
  }

  function Count(s: string, c: char): int {
    if s == "" then 0 else (if s[0] == c then 1 else 0) + Count(s[1..], c)
  }

  function Delta(line: string): int {
    Count(line, '{') - Count(line, '}')
  }

  /** str.count: occurrences that do not overlap. */
  function Occurrences(s: string, p: string): nat
    requires p != ""
  {
    if |s| < |p| then 0
    else if s[..|p|] == p then 1 + Occurrences(s[|p|..], p)
    else Occurrences(s[1..], p)
  }

  lemma {:induction false} CountAppend(a: string, b: string, c: char)
    ensures Count(a + b, c) == Count(a, c) + Count(b, c)
  {
    if a == "" {
      assert a + b == b;
    } else {
      CountAppend(a[1..], b, c);
      assert (a + b)[0] == a[0] && (a + b)[1..] == a[1..] + b;
    }
  }

  lemma {:induction false} CountAbsent(s: string, c: char)
    requires c !in s
    ensures Count(s, c) == 0
  {
    if s != "" {
      CountAbsent(s[1..], c);
    }
  }

  lemma {:induction false} StripCore(left: string, core: string, right: string)
    requires Blank(left) && Blank(right) && core != "" && !IsSpace(core[0]) && !IsSpace(core[|core| - 1])
    ensures Strip(left + core + right) == core
  {
    RStripTail(left + core, right);
    LStripHead(left, core);
  }

  lemma {:induction false} RStripTail(s: string, right: string)
    requires s != "" && !IsSpace(s[|s| - 1]) && Blank(right)
    ensures RStrip(s + right) == s
  {
    if right == "" {
      assert s + right == s;
    } else {
      var front := right[..|right| - 1];
      RStripTail(s, front);
      assert (s + right)[..|s + right| - 1] == s + front;
    }
  }

  lemma {:induction false} LStripHead(left: string, s: string)
    requires Blank(left) && s != "" && !IsSpace(s[0])
    ensures LStrip(left + s) == s
  {
    if left == "" {
      assert left + s == s;
    } else {
      LStripHead(left[1..], s);
      assert (left + s)[1..] == left[1..] + s;
    }
  }

  /** A line is blanks around its stripped core. */
  lemma {:induction false} StripParts(s: string) returns (left: string, right: string)
    ensures s == left + Strip(s) + right && Blank(left) && Blank(right)
    ensures Strip(s) != "" ==> !IsSpace(Strip(s)[0]) && !IsSpace(Strip(s)[|Strip(s)| - 1])
  {
    right := RStripParts(s);
    left := LStripParts(RStrip(s));
    assert Strip(s) != "" ==> RStrip(s)[|RStrip(s)| - 1] == Strip(s)[|Strip(s)| - 1];
  }

  lemma {:induction false} RStripParts(s: string) returns (right: string)
    ensures s == RStrip(s) + right && Blank(right)
    ensures RStrip(s) != "" ==> !IsSpace(RStrip(s)[|RStrip(s)| - 1])
  {
    if s != "" && IsSpace(s[|s| - 1]) {
      var tail := RStripParts(s[..|s| - 1]);
      right := tail + [s[|s| - 1]];
    } else {
      right := "";
    }
  }

  lemma {:induction false} LStripParts(s: string) returns (left: string)
    ensures s == left + LStrip(s) && Blank(left) && (LStrip(s) != "" ==> !IsSpace(LStrip(s)[0]))
  {
    if s != "" && IsSpace(s[0]) {
      var head := LStripParts(s[1..]);
      left := [s[0]] + head;
      hide LStrip;
      assert s == [s[0]] + s[1..];
      Together([s[0]], head, LStrip(s[1..]));
    } else {
      left := "";
    }
  }

  lemma BlankCount(s: string, c: char)
    requires Blank(s) && !IsSpace(c)
    ensures Count(s, c) == 0
  {
    CountAbsent(s, c);
  }

  /** Braces are counted in the core alone. */
  lemma StripDelta(s: string)
    ensures Delta(s) == Delta(Strip(s))
  {
    var left, right := StripParts(s);
    PaddedDelta(left, Strip(s), right);
  }

  lemma PaddedDelta(left: string, core: string, right: string)
    requires Blank(left) && Blank(right)
    ensures Delta(left + core + right) == Delta(core)
  {
    CountAppend(left + core, right, '{');
    CountAppend(left + core, right, '}');
    CountAppend(left, core, '{');
    CountAppend(left, core, '}');
    BlankCount(left, '{');
    BlankCount(left, '}');
    BlankCount(right, '{');
    BlankCount(right, '}');
  }

  /** A final newline changes neither the core nor the braces. */
  lemma StripNewline(s: string)
    ensures Strip(s + "\n") == Strip(s) && Delta(s + "\n") == Delta(s)
  {
    assert (s + "\n")[..|s + "\n"| - 1] == s;
    StripDelta(s);
    StripDelta(s + "\n");
  }

  // ----- occurrences -----

  lemma {:induction false} OccurrencesNone(s: string, p: string)
    requires p != "" && p[0] !in s
    ensures Occurrences(s, p) == 0
  {
    if |s| >= |p| {
      assert s[..|p|][0] == s[0];
      OccurrencesNone(s[1..], p);
    }
  }

  /** Nothing that holds no newline spans the end of an ended line. */
  lemma {:induction false} OccurrencesAppend(a: string, b: string, p: string)
    requires p != "" && '\n' !in p && (a == "" || Ended(a))
    ensures Occurrences(a + b, p) == Occurrences(a, p) + Occurrences(b, p)
    decreases |a|
  {
    var s := a + b;
    if a == "" {
      assert s == b;
    } else if |s| >= |p| && s[..|p|] == p {
      assert |p| < |a| by {
        assert s[|a| - 1] == '\n';
        assert forall i :: 0 <= i < |p| ==> s[i] == p[i] && s[i] in p;
      }
      assert a[..|p|] == s[..|p|] && s[|p|..] == a[|p|..] + b;
      OccurrencesAppend(a[|p|..], b, p);
    } else {
      assert s[1..] == a[1..] + b;
      OccurrencesAppend(a[1..], b, p);
      assert |a| >= |p| ==> a[..|p|] == s[..|p|];
    }
  }

  function OccurrencesIn(lines: seq<string>, p: string): nat
    requires p != ""
  {
    if lines == [] then 0 else Occurrences(lines[0], p) + OccurrencesIn(lines[1..], p)
  }

  lemma {:induction false} JoinOccurrences(lines: seq<string>, p: string)
    requires AreLines(lines) && p != "" && '\n' !in p
    ensures Occurrences(Join(lines), p) == OccurrencesIn(lines, p)
  {
    if |lines| == 1 {
      assert Join(lines) == lines[0] + Join(lines[1..]) && lines[1..] == [];
      assert lines[0] + "" == lines[0];
    } else if lines != [] {
      JoinOccurrences(lines[1..], p);
      OccurrencesAppend(lines[0], Join(lines[1..]), p);
    }
  }

  /** A string that starts with the only place the pattern can start holds it once. */
  lemma {:induction false} OccursOnce(left: string, p: string)
    requires p != "" && p[0] !in left && '\n' != p[0]
    ensures Occurrences(left + p + "\n", p) == 1
  {
    var s := left + p + "\n";
    if left == "" {
      assert s[..|p|] == p && s[|p|..] == "\n";
      OccurrencesNone("\n", p);
    } else {
      assert s[..|p|][0] == left[0] && s[1..] == left[1..] + p + "\n";
      OccursOnce(left[1..], p);
    }
  }

  ghost predicate AllEnded(lines: seq<string>) {
    forall i :: 0 <= i < |lines| ==> IsLine(lines[i]) && Ended(lines[i])
  }

  lemma EndedThenLast(front: seq<string>, last: string)
    requires AllEnded(front) && IsLine(last)
    ensures AreLines(front + [last])
  {}

  lemma EndedAppend(a: seq<string>, b: seq<string>)
    requires AllEnded(a) && AllEnded(b)
    ensures AreLines(a + b)
  {}

  lemma OneLine(s: string)
    requires '\n' !in s
    ensures IsLine(s + "\n") && Ended(s + "\n")
  {}

  lemma Regroup(a: seq<string>, b: seq<string>, c: seq<string>, n: nat)
    requires n <= |c|
    ensures a + b + c == a + (b + c) && (a + b + c)[..|a| + |b| + n] == a + b + c[..n]
  {}
}
