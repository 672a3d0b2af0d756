/** When the Caddyfile edit succeeds on an unmarked file, and that it only inserts. */
module CaddyResults {
  import opened TextLines
  import opened CaddyTransform
  import opened CaddyHardening

  /** The file the rule is put into: the input, with the import added when it has none. */
  function Extended(lines: seq<string>, path: string): seq<string> {
    if Imports(lines, path) == 1 then lines else Terminated(lines) + Tail(path)
  }

  lemma TailFacts(domain: string, path: string)
    requires ConfigOk(domain, path)
    ensures Unmarked(Tail(path)) && AllEnded(Tail(path)) && Imports(Tail(path), path) == 1
    ensures forall i :: 0 <= i < 2 ==> !IsTarget(Tail(path)[i], domain)
  {
    ImportCore(path);
    ImportApart(domain, path);
    BlankCore();
    hide ImportLine, Strip, Marker, ConfigOk;
    var tail := Tail(path);
    assert tail[1..] == [tail[1]] && tail[1..][1..] == [];
    assert Imports(tail[1..], path) == 1;
    assert ImportLine(path) != "" by { ImportThere(path); }
    OccurrencesNone("\n", Marker());
    ImportUnmarked(domain, path);
  }

  lemma ImportThere(path: string)
    ensures ImportLine(path) != ""
  {
    assert |ImportLine(path)| == 7 + |path|;
  }

  lemma BlankCore()
    ensures Strip("\n") == ""
  {}

  lemma ImportCore(path: string)
    requires path != "" && !IsSpace(path[|path| - 1])
    ensures Strip(ImportLine(path) + "\n") == ImportLine(path)
  {
    var line := ImportLine(path);
    assert line[0] == 'i' && line[|line| - 1] == path[|path| - 1];
    StripCore("", line, "\n");
    assert "" + line + "\n" == line + "\n";
  }

  lemma ImportApart(domain: string, path: string)
    requires ConfigOk(domain, path)
    ensures ImportLine(path) != PORT + " {" && ImportLine(path) != domain + " {"
    ensures "" != PORT + " {" && "" != domain + " {"
  {
    var line := ImportLine(path);
    assert line[|line| - 1] == path[|path| - 1] && path[|path| - 1] in path;
    assert (PORT + " {")[|PORT| + 1] == '{' && (domain + " {")[|domain| + 1] == '{';
  }

  lemma ImportUnmarked(domain: string, path: string)
    requires ConfigOk(domain, path)
    ensures IsLine(ImportLine(path) + "\n") && Ended(ImportLine(path) + "\n")
    ensures Occurrences(ImportLine(path) + "\n", Marker()) == 0
  {
    var word := "import ";
    assert '#' !in word && '\n' !in word;
    assert '#' !in path && '\n' !in path;
    assert '#' !in word + path && '\n' !in word + path;
    hide Marker;
    OneLine(word + path);
    OccurrencesNone(word + path + "\n", Marker());
  }

  // ----- adding the import before or after the rule -----

  lemma UnmarkedAppend(a: seq<string>, b: seq<string>)
    requires Unmarked(a) && Unmarked(b) && AllEnded(a)
    ensures Unmarked(a + b)
  {
    hide Marker;
  }

  /** The terminated file: every line ended, nothing marked, the same headers and imports. */
  lemma TerminatedFacts(lines: seq<string>, domain: string, path: string, target: string)
    requires Unmarked(lines)
    ensures var t := Terminated(lines);
            && Unmarked(t) && AllEnded(t) && Headers(t, target, 0) == Headers(lines, target, 0)
            && Imports(t, path) == Imports(lines, path)
  {
    hide Marker, Headers, Imports, IsHeader;
    if lines != [] {
      var front, last := Parts(lines);
      if !Ended(last) {
        EndedUnmarked(last);
        UnmarkedAppend(front, [last + "\n"]);
        StripNewline(last);
        HeadersAppend(front, [last], target, 0);
        HeadersAppend(front, [last + "\n"], target, 0);
        ImportsAppend(front, [last], path);
        ImportsAppend(front, [last + "\n"], path);
        OneHeader(last, last + "\n", target, Sum(front), path);
      }
    }
  }

  lemma OneHeader(a: string, b: string, target: string, depth: int, path: string)
    requires Strip(a) == Strip(b)
    ensures Headers([a], target, depth) == Headers([b], target, depth) && Imports([a], path) == Imports([b], path)
  {
    hide Strip, Delta;
    assert [a][1..] == [] && [b][1..] == [];
  }

  /** Terminating after inserting is inserting after terminating. */
  lemma TerminatedHardened(lines: seq<string>, domain: string)
    requires Unmarked(lines) && lines != [] && !Lone(lines, domain)
    ensures Terminated(Hardened(lines, 0, domain)) == Hardened(Terminated(lines), 0, domain)
  {
    HardenedLines(lines, domain);
    var front, last := Parts(lines);
    hide Unmarked, Hardened, Sum, Delta, IsHeader;
    if !Ended(last) {
      EndedUnmarked(last);
      StripNewline(last);
      assert Unmarked(front + [last + "\n"]) by { UnmarkedAppend(front, [last + "\n"]); }
      HardenedAppend(front, [last + "\n"], 0, domain);
      HardenedOne(last + "\n", Sum(front), domain);
      SameTarget(last, last + "\n", domain);
    }
  }

  lemma SameTarget(a: string, b: string, domain: string)
    requires Strip(a) == Strip(b)
    ensures IsTarget(a, domain) == IsTarget(b, domain)
  {
    hide Strip;
  }

  lemma TailUntouched(domain: string, path: string, depth: int)
    requires ConfigOk(domain, path)
    ensures Hardened(Tail(path), depth, domain) == Tail(path)
  {
    TailFacts(domain, path);
    var tail := Tail(path);
    hide Unmarked, ImportLine, IsTarget, Delta, Rule, Inserts, ConfigOk;
    HardenedStep(tail, depth, domain);
    HardenedStep(tail[1..], depth + Delta(tail[0]), domain);
    assert tail[1..][1..] == [] && tail == [tail[0]] + ([tail[1]] + []);
  }

  /** The two ways round agree: the result is the rule put into the extended file. */
  lemma ResultIs(lines: seq<string>, domain: string, path: string)
    requires Unmarked(lines) && lines != [] && !Lone(lines, domain) && ConfigOk(domain, path)
    requires Imports(lines, path) <= 1
    ensures var h, l := Hardened(lines, 0, domain), Extended(lines, path);
            && (if Imports(lines, path) == 1 then h else Terminated(h) + Tail(path)) == Hardened(l, 0, domain)
            && AreLines(Hardened(l, 0, domain)) && Unmarked(l)
  {
    hide Terminated, Unmarked, Hardened, Tail, ConfigOk, Imports, Lone, AreLines, AllEnded, IsTarget, Ended, Sum;
    HardenedLines(lines, domain);
    if Imports(lines, path) != 1 {
      TerminatedHardened(lines, domain);
      TerminatedFacts(lines, domain, path, PORT);
      TailFacts(domain, path);
      var t, tail := Terminated(lines), Tail(path);
      UnmarkedAppend(t, tail);
      HardenedAppend(t, tail, 0, domain);
      TailUntouched(domain, path, Sum(t));
      HardenedEnded(t, 0, domain);
      EndedAppend(Hardened(t, 0, domain), tail);
    }
  }

  lemma ExtendedFacts(lines: seq<string>, domain: string, path: string, target: string)
    requires Unmarked(lines) && ConfigOk(domain, path) && Imports(lines, path) <= 1
    requires (target == PORT || target == domain)
    ensures Headers(Extended(lines, path), target, 0) == Headers(lines, target, 0)
             && Imports(Extended(lines, path), path) == 1
  {
    if Imports(lines, path) != 1 {
      TerminatedFacts(lines, domain, path, target);
      TailFacts(domain, path);
      var t, tail := Terminated(lines), Tail(path);
      assert !IsHeader(tail[0], target) && !IsHeader(tail[1], target) by { hide Strip; }
      hide Terminated, Unmarked, Tail, ConfigOk, IsHeader;
      HeadersAppend(t, tail, target, 0);
      ImportsAppend(t, tail, path);
      NoHeaders(tail, target, Sum(t));
    }
  }

  lemma NoHeaders(tail: seq<string>, target: string, depth: int)
    requires |tail| == 2 && !IsHeader(tail[0], target) && !IsHeader(tail[1], target)
    ensures Headers(tail, target, depth) == 0
  {
    hide IsHeader, Delta;
    assert tail[1..][0] == tail[1] && tail[1..][1..] == [];
    assert Headers(tail[1..], target, depth + Delta(tail[0])) == 0;
  }

  // ----- success -----

  /** The final check accepts a hardened file exactly when each target had one top-level header
      and the import is there once. */
  lemma CheckAccepts(lines: seq<string>, domain: string, path: string)
    requires Unmarked(lines) && ConfigOk(domain, path) && AreLines(Hardened(lines, 0, domain))
    ensures var h := Hardened(lines, 0, domain);
            Check(Join(h), domain, path).Ok?
            <==> Headers(lines, PORT, 0) == 1 && Headers(lines, domain, 0) == 1 && Imports(lines, path) == 1
  {
    CoresApart(domain, path);
    var h := Hardened(lines, 0, domain);
    hide Unmarked, Hardened, Pattern, ConfigOk, Matches, Cores, Block, Headers, Imports, Occurrences, Marker, Join,
      Split;
    SplitJoin(h);
    HeadersKept(lines, 0, domain, PORT);
    HeadersKept(lines, 0, domain, domain);
    ImportsKept(lines, 0, domain, path);
    Differs(domain, path);
    MarkersAdded(lines, 0, domain);
    JoinOccurrences(h, Marker());
    if Headers(lines, PORT, 0) == 1 && Headers(lines, domain, 0) == 1 {
      RuleOnce(lines, 0, domain, path, PORT);
      RuleOnce(lines, 0, domain, path, domain);
    }
  }

  // ----- a header without its newline -----

  lemma {:induction false} JoinMerged(a: seq<string>, x: string, y: string, b: seq<string>)
    ensures Join(a + [x, y] + b) == Join(a + [x + y] + b)
  {
    JoinAppend(a + [x, y], b);
    JoinAppend(a + [x + y], b);
    JoinAppend(a, [x, y]);
    JoinAppend(a, [x + y]);
    assert [x, y][1..] == [y] && [y][1..] == [] && [x + y][1..] == [];
    hide AreLines;
    assert Join([y]) == y && Join([x + y]) == x + y && Join([x, y]) == x + y;
  }

  /** The rule lands on the header's own line, which then is none. */
  function Glued(last: string): seq<string> {
    var r := Rule(Indent(last));
    [last + r[0], r[1], r[2], r[3]]
  }

  lemma GluedFacts(last: string, domain: string, path: string, target: string)
    requires IsLine(last) && !Ended(last) && IsTarget(last, domain) && ConfigOk(domain, path)
             && (target == PORT || target == domain)
    ensures AllEnded(Glued(last)) && OccurrencesIn(Glued(last), Marker()) == 1
    ensures forall i :: 0 <= i < 4 ==> !IsHeader(Glued(last)[i], target)
  {
    hide Strip, Delta, Indent, IsTarget, ConfigOk, Pattern, Marker, Handle, Respond, Close, Rule, Blank,
      IsLine, Ended, IsHeader,
      OccurrencesIn;
    var indent := Indent(last);
    var r := Rule(indent);
    IndentLine(last, domain);
    IndentBlank(last);
    BlankHash(indent);
    TargetFacts(last, domain, path);
    RuleAreLines(indent);
    RuleCores(indent);
    CoresApart(domain, path);
    Apart(r, target);
    GluedHash(last, indent);
    GluedNotHeader(last + r[0], target, domain, path);
    GluedLine(last, r[0]);
    GluedOccurs(last, indent);
  }

  lemma BlankHash(s: string)
    requires Blank(s)
    ensures '#' !in s
  {}

  lemma GluedHash(last: string, indent: string)
    ensures '#' in last + Rule(indent)[0]
  {
    var line := last + Rule(indent)[0];
    assert Rule(indent)[0] == indent + Marker() + "\n";
    assert Rule(indent)[0][|indent|] == Marker()[0];
    assert line[|last| + |indent|] == Rule(indent)[0][|indent|];
    hide Marker, Rule;
  }

  lemma GluedNotHeader(line: string, target: string, domain: string, path: string)
    requires '#' in line && ConfigOk(domain, path) && (target == PORT || target == domain)
    ensures !IsHeader(line, target)
  {
    var left, right := StripParts(line);
    assert '#' !in target + " {" by { assert '#' !in " {"; }
    hide Strip;
    assert '#' in Strip(line);
  }

  lemma GluedLine(last: string, first: string)
    requires IsLine(last) && !Ended(last) && IsLine(first) && Ended(first)
    ensures IsLine(last + first) && Ended(last + first)
  {}

  lemma GluedOccurs(last: string, indent: string)
    requires '#' !in last && Blank(indent) && '#' !in indent
    ensures var r := Rule(indent); OccurrencesIn([last + r[0], r[1], r[2], r[3]], Marker()) == 1
  {
    var r := Rule(indent);
    HandleFacts();
    RespondFacts();
    CloseFacts();
    hide Handle, Respond, Close, Delta, Strip;
    assert last + r[0] == last + indent + Marker() + "\n";
    assert '#' !in last + indent;
    hide Marker;
    OccursOnce(last + indent, Marker());
    OccurrencesNone(r[1], Marker());
    OccurrencesNone(r[2], Marker());
    OccurrencesNone(r[3], Marker());
    Four([last + r[0], r[1], r[2], r[3]], Marker());
  }

  lemma NoneHeaders(lines: seq<string>, target: string, depth: int)
    requires forall i :: 0 <= i < |lines| ==> !IsHeader(lines[i], target)
    ensures Headers(lines, target, depth) == 0
  {
    hide IsHeader, Delta;
    if lines != [] {
      NoneHeaders(lines[1..], target, depth + Delta(lines[0]));
    }
  }

  lemma GluedHeaders(h: seq<string>, last: string, tail: seq<string>, domain: string, path: string, target: string)
    requires IsLine(last) && !Ended(last) && IsTarget(last, domain) && ConfigOk(domain, path)
             && (target == PORT || target == domain)
    requires forall i :: 0 <= i < |tail| ==> !IsTarget(tail[i], domain)
    ensures Headers(h + (Glued(last) + tail), target, 0) == Headers(h, target, 0)
  {
    GluedFacts(last, domain, path, target);
    forall i | 0 <= i < |tail| ensures !IsHeader(tail[i], target) {
      hide IsHeader;
      assert !IsTarget(tail[i], domain);
    }
    hide Glued, Headers, IsHeader, IsTarget, ConfigOk, IsLine, Ended, Sum;
    HeadersAppend(h, Glued(last) + tail, target, 0);
    NoneHeaders(Glued(last) + tail, target, Sum(h));
  }

  lemma GluedMarkers(h: seq<string>, last: string, tail: seq<string>, domain: string, path: string)
    requires AllEnded(h) && IsLine(last) && !Ended(last) && IsTarget(last, domain) && ConfigOk(domain, path)
    requires Unmarked(tail) && AllEnded(tail)
    ensures AreLines(h + (Glued(last) + tail))
    ensures Occurrences(Join(h + (Glued(last) + tail)), Marker()) == OccurrencesIn(h, Marker()) + 1
  {
    GluedFacts(last, domain, path, domain);
    hide Glued, IsTarget, ConfigOk, Marker, OccurrencesIn, Occurrences, Join, IsHeader;
    UnmarkedSum(tail);
    hide Unmarked;
    EndedAppend(h, Glued(last) + tail);
    OccurrencesInAppend(h, Glued(last) + tail, Marker());
    OccurrencesInAppend(Glued(last), tail, Marker());
    JoinOccurrences(h + (Glued(last) + tail), Marker());
  }

  /** With a lone header, the glued file carries one marker more than it has headers. */
  lemma GluedFails(front: seq<string>, last: string, tail: seq<string>, domain: string, path: string)
    requires Unmarked(front) && AllEnded(front) && IsLine(last) && !Ended(last) && IsTarget(last, domain)
             && ConfigOk(domain, path)
    requires Unmarked(tail) && AllEnded(tail) && forall i :: 0 <= i < |tail| ==> !IsTarget(tail[i], domain)
    ensures Check(Join(Hardened(front, 0, domain) + Glued(last) + tail), domain, path).Err?
  {
    hide Unmarked, AllEnded, Hardened, Glued, Pattern, ConfigOk, Matches, Cores, Block, Headers, Imports,
      Occurrences, Marker,
      Join, Split, IsTarget, IsHeader, OccurrencesIn, IsLine, Ended, AreLines;
    var h := Hardened(front, 0, domain);
    var g := Glued(last) + tail;
    assert h + Glued(last) + tail == h + g;
    HardenedEnded(front, 0, domain);
    GluedHeaders(h, last, tail, domain, path, PORT);
    GluedHeaders(h, last, tail, domain, path, domain);
    GluedMarkers(h, last, tail, domain, path);
    SplitJoin(h + g);
    CoresApart(domain, path);
    Differs(domain, path);
    HeadersKept(front, 0, domain, PORT);
    HeadersKept(front, 0, domain, domain);
    MarkersAdded(front, 0, domain);
  }

  lemma LoneFails(lines: seq<string>, domain: string, path: string)
    requires Unmarked(lines) && Lone(lines, domain) && ConfigOk(domain, path)
    ensures var h := Hardened(lines, 0, domain);
            && Check(Join(h), domain, path).Err? && Check(Join(Terminated(h) + Tail(path)), domain, path).Err?
  {
    hide Unmarked, Hardened, Check, Marker, ConfigOk, IsTarget, IsHeader, Rule, Indent, Join, Tail, Sum,
      IsLine, Ended, AllEnded;
    var front, last := Parts(lines);
    HardenedAppend(front, [last], 0, domain);
    HardenedOne(last, Sum(front), domain);
    TailFacts(domain, path);
    IndentLine(last, domain);
    RuleAreLines(Indent(last));
    var h, hf, r := Hardened(lines, 0, domain), Hardened(front, 0, domain), Rule(Indent(last));
    assert h == hf + [last] + r;
    assert h[|h| - 1] == r[3];
    assert Terminated(h) == h;
    GluedJoin(hf, last, r, []);
    GluedJoin(hf, last, r, Tail(path));
    assert h + [] == h;
    NothingUnmarked();
    GluedFails(front, last, [], domain, path);
    GluedFails(front, last, Tail(path), domain, path);
  }

  lemma NothingUnmarked()
    ensures Unmarked([]) && AllEnded([])
  {}

  lemma GluedJoin(hf: seq<string>, last: string, r: seq<string>, tail: seq<string>)
    requires |r| == 4
    ensures Join(hf + [last] + r + tail) == Join(hf + [last + r[0], r[1], r[2], r[3]] + tail)
  {
    var b := [r[1], r[2], r[3]] + tail;
    assert hf + [last] + r + tail == hf + [last, r[0]] + b;
    assert hf + [last + r[0], r[1], r[2], r[3]] + tail == hf + [last + r[0]] + b;
    JoinMerged(hf, last, r[0], b);
  }

  /** On a file without the marker the edit succeeds exactly when each target heads one top-level
      block, the import is there at most once, and no such header is an unfinished last line. */
  lemma SucceedsExactly(text: string, domain: string, path: string)
    requires ConfigOk(domain, path) && Occurrences(text, Marker()) == 0
    ensures var lines := Split(text);
            Harden(text, domain, path).Ok?
            <==> Headers(lines, PORT, 0) == 1 && Headers(lines, domain, 0) == 1 && Imports(lines, path) <= 1
                 && !Lone(lines, domain)
  {
    var lines := Split(text);
    TextUnmarked(text);
    ImportsKept(lines, 0, domain, path);
    hide Unmarked, Hardened, Check, Marker, ConfigOk, Headers, Imports, Split, Join, Terminated, Tail,
      Occurrences, Lone, Extended;
    if Lone(lines, domain) {
      LoneFails(lines, domain, path);
    } else if lines != [] && Imports(lines, path) <= 1 {
      ResultIs(lines, domain, path);
      ExtendedFacts(lines, domain, path, PORT);
      ExtendedFacts(lines, domain, path, domain);
      CheckAccepts(Extended(lines, path), domain, path);
    }
  }

  /** A file with one block per target whose last line is the header of the second, not finished. */
  function Unfinished(domain: string): seq<string> {
    [domain + " {" + "\n", Close() + "\n", PORT + " {"]
  }

  lemma HeaderLine(target: string)
    requires target != "" && forall c :: c in target ==> !IsSpace(c) && c != '{' && c != '}' && c != '#'
    ensures var core := target + " {";
            && IsHeader(core, target) && Delta(core) == 1 && '#' !in core && '\n' !in core && IsLine(core)
            && IsHeader(core + "\n", target) && Delta(core + "\n") == 1 && IsLine(core + "\n") && Ended(core + "\n")
            && !Ended(core)
  {
    var core := target + " {";
    assert core[0] == target[0] && target[0] in target && core[|core| - 1] == '{';
    StripCore("", core, "");
    StripCore("", core, "\n");
    assert "" + core + "" == core && "" + core + "\n" == core + "\n";
    hide Strip, Delta;
    OneLine(core);
    HeaderFacts(core, target);
    HeaderFacts(core + "\n", target);
  }

  lemma UnfinishedLines(domain: string, path: string)
    requires ConfigOk(domain, path)
    ensures var lines := Unfinished(domain);
            && AreLines(lines) && '#' !in lines[0] && '#' !in lines[1] && '#' !in lines[2]
            && IsHeader(lines[0], domain) && IsHeader(lines[2], PORT) && Strip(lines[1]) == Close() && !Ended(lines[2])
            && Delta(lines[0]) == 1 && Delta(lines[1]) == -1
  {
    HeaderLine(domain);
    HeaderLine(PORT);
    CloseFacts();
    Padded("", Close());
    assert "" + Close() + "\n" == Close() + "\n";
    hide Close, Delta, Strip, IsHeader, ConfigOk;
    OneLine(Close());
  }

  lemma UnfinishedCounts(domain: string, path: string)
    requires ConfigOk(domain, path)
    ensures var lines := Unfinished(domain);
            && Headers(lines, PORT, 0) == 1 && Headers(lines, domain, 0) == 1 && Imports(lines, path) == 0
            && Lone(lines, domain)
  {
    UnfinishedLines(domain, path);
    ImportApart(domain, path);
    Differs(domain, path);
    var a, b, c := Unfinished(domain)[0], Unfinished(domain)[1], Unfinished(domain)[2];
    OneTarget(a, domain);
    OneTarget(c, domain);
    NotHeader(Close(), domain);
    assert Close() != PORT + " {" && Close() != ImportLine(path) && !IsHeader(b, domain) && !IsHeader(b, PORT);
    hide Strip, Delta, ConfigOk, IsHeader, Close;
    assert Unfinished(domain) == [a] + ([b] + ([c] + []));
    OneByOne(a, b, c, PORT, path);
    OneByOne(a, b, c, domain, path);
    assert Unfinished(domain)[..2] == [a, b] && [a, b][1..] == [b] && [b][1..] == [];
    assert Sum([b]) == Delta(b) + Sum([]);
  }

  lemma OneByOne(a: string, b: string, c: string, target: string, path: string)
    requires Delta(a) == 1 && Delta(b) == -1 && !IsHeader(b, target)
    requires Strip(a) != ImportLine(path) && Strip(b) != ImportLine(path) && Strip(c) != ImportLine(path)
    ensures Headers([a] + ([b] + ([c] + [])), target, 0)
            == (if IsHeader(a, target) then 1 else 0) + (if IsHeader(c, target) then 1 else 0)
    ensures Imports([a] + ([b] + ([c] + [])), path) == 0
  {
    HeadersCons(a, [b] + ([c] + []), target, 0);
    HeadersCons(b, [c] + [], target, 1);
    HeadersCons(c, [], target, 0);
    ImportsAppend([a], [b] + ([c] + []), path);
    ImportsAppend([b], [c] + [], path);
    ImportsAppend([c], [], path);
    NoImport(a, path);
    NoImport(b, path);
    NoImport(c, path);
    hide Delta, Strip, IsHeader;
  }

  lemma NoImport(line: string, path: string)
    requires Strip(line) != ImportLine(path)
    ensures Imports([line], path) == 0
  {
    hide Strip;
    assert [line][1..] == [];
  }

  /** One block per target and no import do not suffice: for every domain this file has both, and
      the edit fails on it. */
  lemma OneBlockEachMayFail(domain: string, path: string)
    requires ConfigOk(domain, path)
    ensures var text := Join(Unfinished(domain));
            var lines := Split(text);
            && lines == Unfinished(domain) && Occurrences(text, Marker()) == 0
            && Headers(lines, PORT, 0) == 1 && Headers(lines, domain, 0) == 1 && Imports(lines, path) == 0
            && Lone(lines, domain) && Harden(text, domain, path).Err?
  {
    var lines := Unfinished(domain);
    UnfinishedLines(domain, path);
    UnfinishedCounts(domain, path);
    hide Unfinished, Marker, ConfigOk, Headers, Imports, Split, Join, Occurrences, Lone, IsHeader, Strip, Delta, Harden;
    SplitJoin(lines);
    forall i | 0 <= i < 3 ensures Occurrences(lines[i], Marker()) == 0 {
      OccurrencesNone(lines[i], Marker());
    }
    UnmarkedSum(lines);
    JoinOccurrences(lines, Marker());
    SucceedsExactly(Join(lines), domain, path);
  }

  lemma JoinThree(a: string, b: string, c: string)
    ensures Join([a, b, c]) == a + b + c
  {
    JoinCons(a, [b, c]);
    JoinCons(b, [c]);
    JoinLast(c);
    hide Join;
    assert [a] + [b, c] == [a, b, c] && [b] + [c] == [b, c];
    assert a + (b + c) == a + b + c;
  }

  lemma ConfigExample()
    ensures ConfigOk("e.f", "/s")
  {
    assert forall c :: c in "e.f" ==> c == 'e' || c == '.' || c == 'f';
    assert forall c :: c in "/s" ==> c == '/' || c == 's';
  }

  /** At a concrete input. */
  lemma UnfinishedHeaderFails()
    ensures ConfigOk("e.f", "/s") && Harden("e.f {\n" + "}\n" + ":80 {", "e.f", "/s").Err?
  {
    ConfigExample();
    OneBlockEachMayFail("e.f", "/s");
    assert "e.f" + " {" + "\n" == "e.f {\n" && Close() + "\n" == "}\n" && PORT + " {" == ":80 {";
    hide Harden, ConfigOk, Join, Split, Close;
    JoinThree("e.f {\n", "}\n", ":80 {");
  }

  lemma TextUnmarked(text: string)
    requires Occurrences(text, Marker()) == 0
    ensures Unmarked(Split(text))
  {
    hide Marker;
    JoinSplit(text);
    JoinOccurrences(Split(text), Marker());
    UnmarkedSum(Split(text));
  }

  // ----- only insertions -----

  /** Drop each marker line and the three lines after it. */
  function Erased(lines: seq<string>): seq<string> {
    if lines == [] then []
    else if Strip(lines[0]) == Marker() && |lines| >= 4 then Erased(lines[4..])
    else [lines[0]] + Erased(lines[1..])
  }

  lemma {:induction false} ErasedHardened(lines: seq<string>, depth: int, domain: string)
    requires Unmarked(lines)
    ensures Erased(Hardened(lines, depth, domain)) == lines
  {
    hide Marker, Unmarked, IsTarget, Delta, Rule, Inserts, Indent, Strip;
    if lines != [] {
      hide Hardened, Erased;
      HardenedStep(lines, depth, domain);
      var rest := Hardened(lines[1..], depth + Delta(lines[0]), domain);
      ErasedHardened(lines[1..], depth + Delta(lines[0]), domain);
      PlainLine(lines);
      ErasedStep(lines[0], Indent(lines[0]), rest);
      assert lines == [lines[0]] + lines[1..];
    }
  }

  /** A plain line with or without the rule behind it. */
  lemma ErasedStep(line: string, indent: string, rest: seq<string>)
    requires Strip(line) != Marker() && indent == Indent(line)
    ensures Erased([line] + rest) == [line] + Erased(rest)
    ensures Erased([line] + Rule(indent) + rest) == [line] + Erased(rest)
  {
    IndentBlank(line);
    RuleCores(indent);
    var rule := Rule(indent);
    hide Marker, Rule, Strip, Erased;
    assert [line] + rule + rest == [line] + (rule + rest);
    ErasedPlain(line, rule + rest);
    ErasedPlain(line, rest);
    ErasedRule(rule, rest);
  }

  lemma PlainLine(lines: seq<string>)
    requires Unmarked(lines) && lines != []
    ensures Strip(lines[0]) != Marker()
  {
    hide Marker;
    if Strip(lines[0]) == Marker() {
      CoreOccurs(lines[0]);
    }
  }

  lemma ErasedPlain(line: string, rest: seq<string>)
    requires Strip(line) != Marker()
    ensures Erased([line] + rest) == [line] + Erased(rest)
  {
    hide Marker, Strip;
    assert ([line] + rest)[1..] == rest;
  }

  lemma ErasedRule(rule: seq<string>, rest: seq<string>)
    requires |rule| == 4 && Strip(rule[0]) == Marker()
    ensures Erased(rule + rest) == Erased(rest)
  {
    hide Marker, Strip;
    assert (rule + rest)[4..] == rest && (rule + rest)[0] == rule[0];
  }

  /** Taking the rule out of the result gives the input back, up to a final newline and the import. */
  lemma OnlyInserts(text: string, domain: string, path: string)
    requires ConfigOk(domain, path) && Occurrences(text, Marker()) == 0 && Harden(text, domain, path).Ok?
    ensures var plain := Join(Erased(Split(Harden(text, domain, path).text)));
            if Imports(Split(text), path) == 1 then plain == text
            else plain == text + Join(Tail(path)) || plain == text + "\n" + Join(Tail(path))
  {
    hide Unmarked, Hardened, Marker, ConfigOk, Headers, Imports, Split, Join, Terminated, Tail, Occurrences,
      Lone, Erased, AreLines,
      Check;
    var lines := Split(text);
    TextUnmarked(text);
    SucceedsExactly(text, domain, path);
    ImportsKept(lines, 0, domain, path);
    SomeLine(lines, domain);
    ResultIs(lines, domain, path);
    var l := Extended(lines, path);
    CheckReturns(Join(Hardened(l, 0, domain)), domain, path);
    SplitJoin(Hardened(l, 0, domain));
    ErasedHardened(l, 0, domain);
    JoinSplit(text);
    TerminatedText(lines, path);
  }

  lemma SomeLine(lines: seq<string>, domain: string)
    requires Headers(lines, PORT, 0) == 1
    ensures lines != []
  {}

  lemma CheckReturns(text: string, domain: string, path: string)
    ensures Check(text, domain, path).Ok? ==> Check(text, domain, path) == Ok(text)
  {
    hide Headers, Matches, Cores, Block, Imports, Occurrences, Split;
  }

  lemma TerminatedText(lines: seq<string>, path: string)
    ensures var t := Join(Terminated(lines) + Tail(path));
            t == Join(lines) + Join(Tail(path)) || t == Join(lines) + "\n" + Join(Tail(path))
  {
    JoinAppend(Terminated(lines), Tail(path));
    if lines != [] && !Ended(Last(lines)) {
      var front := lines[..|lines| - 1];
      assert lines == front + [Last(lines)];
      JoinAppend(front, [Last(lines)]);
      JoinAppend(front, [Last(lines) + "\n"]);
      JoinLast(Last(lines));
      JoinLast(Last(lines) + "\n");
      hide Join, Tail;
      assert Join(front) + (Last(lines) + "\n") == Join(front) + Last(lines) + "\n";
    }
  }

  lemma JoinLast(line: string)
    ensures Join([line]) == line
  {
    assert [line][1..] == [];
    assert line + "" == line;
  }

  // ----- the rule, in its own words -----

  /** A header of the target with the rule right behind it. */
  ghost predicate RuleAt(lines: seq<string>, k: nat, target: string) {
    && k + 4 < |lines| && Strip(lines[k]) == target + " {"
    && var indent := Indent(lines[k]);
       && lines[k + 1] == indent + "# noi-orchestrator-private-submit\n"
       && lines[k + 2] == indent + "handle /orchestrator/submit* {\n"
       && lines[k + 3] == indent + "  respond 404\n"
       && lines[k + 4] == indent + "}\n"
  }

  lemma RuleText(indent: string)
    ensures Rule(indent) == [indent + "# noi-orchestrator-private-submit\n",
                             indent + "handle /orchestrator/submit* {\n",
                             indent + "  respond 404\n", indent + "}\n"]
  {
    assert Marker() + "\n" == "# noi-orchestrator-private-submit\n";
    assert Handle() + "\n" == "handle /orchestrator/submit* {\n";
    assert "  " + Respond() + "\n" == "  respond 404\n" && Close() + "\n" == "}\n";
    Regroup(indent, Marker());
    Regroup(indent, Handle());
    Regroup(indent, Close());
    assert indent + "  " + Respond() + "\n" == indent + ("  " + Respond() + "\n");
    hide Marker, Handle, Respond, Close;
  }

  lemma Regroup(a: string, b: string)
    ensures a + b + "\n" == a + (b + "\n")
  {}

  lemma {:induction false} HardenedRule(lines: seq<string>, depth: int, domain: string, target: string) returns (k: nat)
    requires Unmarked(lines) && (target == PORT || target == domain) && Headers(lines, target, depth) >= 1
    ensures RuleAt(Hardened(lines, depth, domain), k, target)
  {
    HardenedStep(lines, depth, domain);
    HeadersBehind(lines, target, depth);
    hide *;
    var next := depth + Delta(lines[0]);
    var rest, rule := Hardened(lines[1..], next, domain), Rule(Indent(lines[0]));
    if depth == 0 && IsHeader(lines[0], target) {
      k := 0;
      TargetOf(lines[0], domain, target);
      RuleHere(lines[0], rest, target);
    } else {
      k := HardenedRule(lines[1..], next, domain, target);
      if depth == 0 && IsTarget(lines[0], domain) {
        RuleShifts([lines[0]] + rule, rest, k, target);
        k := k + 5;
      } else {
        RuleShifts([lines[0]], rest, k, target);
        k := k + 1;
      }
    }
  }

  lemma TargetOf(line: string, domain: string, target: string)
    requires IsHeader(line, target) && (target == PORT || target == domain)
    ensures IsTarget(line, domain)
  {
    hide IsHeader;
  }

  lemma HeadersBehind(lines: seq<string>, target: string, depth: int)
    requires Headers(lines, target, depth) >= 1
    ensures lines != []
    ensures !(depth == 0 && IsHeader(lines[0], target)) ==> Headers(lines[1..], target, depth + Delta(lines[0])) >= 1
  {
    hide IsHeader, Delta;
  }

  lemma RuleHere(line: string, rest: seq<string>, target: string)
    requires IsHeader(line, target)
    ensures RuleAt([line] + Rule(Indent(line)) + rest, 0, target)
  {
    RuleText(Indent(line));
    hide Rule, Indent, Strip;
    FirstFive(line, Rule(Indent(line)), rest);
  }

  lemma FirstFive(line: string, rule: seq<string>, rest: seq<string>)
    requires |rule| == 4
    ensures var all := [line] + rule + rest;
            && |all| >= 5 && all[0] == line && all[1] == rule[0] && all[2] == rule[1] && all[3] == rule[2]
            && all[4] == rule[3]
  {}

  lemma FirstOf(s: seq<string>, k: nat)
    requires k + 5 <= |s|
    ensures var t := s[k..k + 5];
            t[0] == s[k] && t[1] == s[k + 1] && t[2] == s[k + 2] && t[3] == s[k + 3] && t[4] == s[k + 4]
  {}

  lemma RuleShifts(a: seq<string>, b: seq<string>, k: nat, target: string)
    requires RuleAt(b, k, target)
    ensures RuleAt(a + b, |a| + k, target)
  {
    hide Strip, Indent;
    assert (a + b)[|a| + k..|a| + k + 5] == b[k..k + 5];
    FirstOf(a + b, |a| + k);
    FirstOf(b, k);
  }

  /** In every result, right behind a header of each target stands the rule that answers 404 to every
      submission from outside. */
  lemma RuleFollowsHeader(text: string, domain: string, path: string, target: string) returns (k: nat)
    requires ConfigOk(domain, path) && Occurrences(text, Marker()) == 0 && Harden(text, domain, path).Ok?
    requires target == PORT || target == domain
    ensures RuleAt(Split(Harden(text, domain, path).text), k, target)
  {
    hide Unmarked, Hardened, Marker, ConfigOk, Headers, Imports, Split, Join, Terminated, Tail, Occurrences,
      Lone, AreLines, Check, RuleAt;
    var lines := Split(text);
    TextUnmarked(text);
    SucceedsExactly(text, domain, path);
    ImportsKept(lines, 0, domain, path);
    SomeLine(lines, domain);
    ResultIs(lines, domain, path);
    ExtendedFacts(lines, domain, path, target);
    var l := Extended(lines, path);
    CheckReturns(Join(Hardened(l, 0, domain)), domain, path);
    SplitJoin(Hardened(l, 0, domain));
    k := HardenedRule(l, 0, domain, target);
  }
}
