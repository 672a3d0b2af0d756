/** What the Caddyfile edit does to files that do not carry the rule yet. */
module CaddyHardening {
  import opened TextLines
  import opened CaddyTransform

  // ----- lines of the rule -----

  lemma Padded(left: string, core: string)
    requires Blank(left) && core != "" && !IsSpace(core[0]) && !IsSpace(core[|core| - 1])
    ensures Strip(left + core + "\n") == core && Delta(left + core + "\n") == Delta(core)
  {
    StripCore(left, core, "\n");
    StripDelta(left + core + "\n");
  }

  lemma IndentBlank(line: string)
    ensures Blank(Indent(line))
  {
    var left := LStripParts(line);
    hide LStrip, IsSpace;
    assert line[..|line| - |LStrip(line)|] == left;
    BlankMore(left);
  }

  lemma BlankMore(left: string)
    requires Blank(left)
    ensures Blank(left + "  ")
  {}

  /** A core that is not blank at its ends and holds no newline. */
  predicate IsCore(s: string) {
    s != "" && !IsSpace(s[0]) && !IsSpace(s[|s| - 1]) && '\n' !in s
  }

  lemma MarkerFacts()
    ensures IsCore(Marker()) && Delta(Marker()) == 0
  {
    hide Delta;
    assert '{' !in Marker() && '}' !in Marker();
    NoBraces(Marker());
  }

  lemma NoBraces(s: string)
    requires '{' !in s && '}' !in s
    ensures Delta(s) == 0
  {
    CountAbsent(s, '{');
    CountAbsent(s, '}');
  }

  lemma RespondFacts()
    ensures IsCore(Respond()) && Delta(Respond()) == 0 && '#' !in Respond()
  {
    hide Delta;
    assert '{' !in Respond() && '}' !in Respond();
    NoBraces(Respond());
  }

  lemma CloseFacts()
    ensures IsCore(Close()) && Delta(Close()) == -1 && '#' !in Close()
  {
    assert Close()[1..] == "";
  }

  lemma HandleFacts()
    ensures IsCore(Handle()) && Delta(Handle()) == 1 && '#' !in Handle()
  {
    HandleIs();
    HandleFront();
    hide Handle, Delta;
    OpenAtEnd("handle /orchestrator/submit* ");
  }

  lemma HandleIs()
    ensures Handle() == "handle /orchestrator/submit* " + ['{'] && IsCore(Handle())
  {}

  lemma HandleFront()
    ensures var front := "handle /orchestrator/submit* "; '{' !in front && '}' !in front && '#' !in front
  {}

  lemma OpenAtEnd(front: string)
    requires '{' !in front && '}' !in front
    ensures Delta(front + ['{']) == 1
  {
    CountAppend(front, ['{'], '{');
    CountAppend(front, ['{'], '}');
    CountAbsent(front, '{');
    CountAbsent(front, '}');
    assert ['{'][1..] == "";
  }

  /** The cores of the four lines and their braces. */
  lemma RuleCores(indent: string)
    requires Blank(indent)
    ensures var r := Rule(indent);
            && Strip(r[0]) == Marker() && Strip(r[1]) == Handle() && Strip(r[2]) == Respond() && Strip(r[3]) == Close()
            && Delta(r[0]) == 0 && Delta(r[1]) == 1 && Delta(r[2]) == 0 && Delta(r[3]) == -1
  {
    MarkerFacts();
    HandleFacts();
    RespondFacts();
    CloseFacts();
    hide Marker, Handle, Respond, Close, Strip, Delta;
    Padded(indent, Marker());
    Padded(indent, Handle());
    Padded(indent + "  ", Respond());
    Padded(indent, Close());
  }

  /** Only the first line holds the marker. */
  lemma RuleOccurrences(indent: string)
    requires Blank(indent)
    ensures OccurrencesIn(Rule(indent), Marker()) == 1
  {
    HandleFacts();
    RespondFacts();
    CloseFacts();
    hide Marker, Handle, Respond, Close, Delta;
    OccursOnce(indent, Marker());
    OccurrencesNone(indent + Handle() + "\n", Marker());
    OccurrencesNone(indent + "  " + Respond() + "\n", Marker());
    OccurrencesNone(indent + Close() + "\n", Marker());
    Four(Rule(indent), Marker());
  }

  lemma Four(r: seq<string>, p: string)
    requires |r| == 4 && p != ""
    ensures OccurrencesIn(r, p)
            == Occurrences(r[0], p) + Occurrences(r[1], p) + Occurrences(r[2], p) + Occurrences(r[3], p)
  {
    hide Occurrences;
    assert r[1..][1..] == r[2..] && r[2..][1..] == r[3..] && r[3..][1..] == [];
    assert OccurrencesIn(r[3..], p) == Occurrences(r[3], p);
    assert OccurrencesIn(r[2..], p) == Occurrences(r[2], p) + OccurrencesIn(r[3..], p);
    assert OccurrencesIn(r[1..], p) == Occurrences(r[1], p) + OccurrencesIn(r[2..], p);
  }

  lemma RuleAreLines(indent: string)
    requires '\n' !in indent
    ensures var r := Rule(indent); forall i :: 0 <= i < 4 ==> IsLine(r[i]) && Ended(r[i])
  {
    MarkerFacts();
    HandleFacts();
    RespondFacts();
    CloseFacts();
    hide Marker, Handle, Respond, Close, Delta;
    OneLine(indent + Marker());
    OneLine(indent + Handle());
    OneLine(indent + "  " + Respond());
    OneLine(indent + Close());
  }

  lemma HeaderFacts(line: string, target: string)
    requires IsHeader(line, target) && target != ""
    requires (forall c :: c in target ==> !IsSpace(c) && c != '{' && c != '}' && c != '#')
    ensures Delta(line) == 1 && '#' !in line
  {
    StripDelta(line);
    CountAppend(target, " {", '{');
    CountAppend(target, " {", '}');
    CountAbsent(target, '{');
    CountAbsent(target, '}');
    assert Count(" {", '{') == 1 && Count(" {", '}') == 0 by {
      assert " {"[1..] == "{" && "{"[1..] == "";
    }
    var left, right := StripParts(line);
    assert '#' !in left && '#' !in right && '#' !in Strip(line);
  }

  lemma TargetFacts(line: string, domain: string, path: string)
    requires ConfigOk(domain, path) && IsTarget(line, domain)
    ensures Delta(line) == 1 && '#' !in line
  {
    if IsHeader(line, PORT) {
      HeaderFacts(line, PORT);
    } else {
      HeaderFacts(line, domain);
    }
  }

  /** The lines of the rule are neither headers nor imports. */
  lemma CoresApart(domain: string, path: string)
    requires ConfigOk(domain, path)
    ensures forall core :: core in Pattern() ==>
              core != PORT + " {" && core != domain + " {" && core != ImportLine(path)
  {
    NotHeader(Marker(), domain);
    NotHeader(Handle(), domain);
    NotHeader(Respond(), domain);
    NotHeader(Close(), domain);
    assert ImportLine(path)[0] == 'i' && (PORT + " {")[0] == ':';
    assert Marker()[0] == '#' && Handle()[0] == 'h' && Respond()[0] == 'r' && Close()[0] == '}';
  }

  /** A header has one blank, just before its brace. */
  lemma NotHeader(core: string, domain: string)
    requires forall c :: c in domain ==> !IsSpace(c) && c != '{' && c != '}' && c != '#'
    requires core == Marker() || core == Handle() || core == Respond() || core == Close()
    requires domain != ""
    ensures core != domain + " {"
  {
    var header := domain + " {";
    assert header[0] == domain[0] && domain[0] in domain;
    assert forall i :: 0 <= i < |domain| ==> header[i] == domain[i] && header[i] in domain;
    assert header[|header| - 1] == '{';
    assert Marker()[0] == '#' && Close()[0] == '}' && Respond()[|Respond()| - 1] == '4';
    assert |Handle()| == 30 && Handle()[6] == ' ';
  }

  // ----- insertions keep everything else where it was -----

  ghost predicate Unmarked(lines: seq<string>) {
    AreLines(lines) && forall i :: 0 <= i < |lines| ==> Occurrences(lines[i], Marker()) == 0
  }

  lemma {:induction false} UnmarkedSum(lines: seq<string>)
    requires AreLines(lines)
    ensures OccurrencesIn(lines, Marker()) == 0 <==> Unmarked(lines)
  {
    hide Marker;
    if lines != [] {
      UnmarkedSum(lines[1..]);
      assert forall i :: 0 < i < |lines| ==> lines[i] == lines[1..][i - 1];
      assert forall i :: 0 <= i < |lines| - 1 ==> lines[1..][i] == lines[i + 1];
    }
  }

  lemma UnmarkedPrefix(lines: seq<string>, n: nat)
    requires Unmarked(lines) && n <= |lines|
    ensures Unmarked(lines[..n]) && !Marked(lines[..n])
  {
    hide Marker;
    PrefixLines(lines, n);
    UnmarkedSum(lines[..n]);
    JoinOccurrences(lines[..n], Marker());
  }

  lemma UnmarkedRest(lines: seq<string>)
    requires Unmarked(lines) && lines != []
    ensures Unmarked(lines[1..])
  {
    hide Marker;
  }

  /** In an unmarked file the rule goes after every top-level target header. */
  lemma HardenedStep(lines: seq<string>, depth: int, domain: string)
    requires Unmarked(lines) && lines != []
    ensures Unmarked(lines[1..])
    ensures var rest := Hardened(lines[1..], depth + Delta(lines[0]), domain);
            Hardened(lines, depth, domain)
            == if depth == 0 && IsTarget(lines[0], domain) then [lines[0]] + Rule(Indent(lines[0])) + rest
               else [lines[0]] + rest
  {
    UnmarkedPrefix(lines, Until(lines, 0));
    UnmarkedRest(lines);
    hide Unmarked, Marked, IsTarget, Rule, Until, Delta;
  }

  lemma RuleDepth(indent: string, rest: seq<string>, target: string, depth: int)
    requires Blank(indent) && forall core :: core in Pattern() ==> core != target + " {"
    ensures Headers(Rule(indent) + rest, target, depth) == Headers(rest, target, depth)
  {
    RuleCores(indent);
    Apart(Rule(indent), target);
    hide Marker, Handle, Respond, Close, Delta, Strip, Rule;
    FourDown(Rule(indent), rest, target, depth);
  }

  lemma Apart(r: seq<string>, target: string)
    requires |r| == 4 && Strip(r[0]) == Marker() && Strip(r[1]) == Handle() && Strip(r[2]) == Respond()
             && Strip(r[3]) == Close()
    requires forall core :: core in Pattern() ==> core != target + " {"
    ensures forall i :: 0 <= i < 4 ==> !IsHeader(r[i], target)
  {
    hide Marker, Handle, Respond, Close, Strip;
    assert Pattern()[0] in Pattern() && Pattern()[1] in Pattern();
    assert Pattern()[2] in Pattern() && Pattern()[3] in Pattern();
  }

  lemma HeadersCons(line: string, rest: seq<string>, target: string, depth: int)
    ensures Headers([line] + rest, target, depth)
            == (if depth == 0 && IsHeader(line, target) then 1 else 0) + Headers(rest, target, depth + Delta(line))
  {
    hide IsHeader, Delta;
    assert ([line] + rest)[1..] == rest;
  }

  lemma FourDown(r: seq<string>, rest: seq<string>, target: string, depth: int)
    requires |r| == 4 && (forall i :: 0 <= i < 4 ==> !IsHeader(r[i], target))
    requires Delta(r[0]) + Delta(r[1]) + Delta(r[2]) + Delta(r[3]) == 0
    ensures Headers(r + rest, target, depth) == Headers(rest, target, depth)
  {
    hide IsHeader, Delta, Headers;
    var a, b, c, d := r[0], r[1], r[2], r[3];
    assert r + rest == [a] + ([b] + ([c] + ([d] + rest)));
    HeadersCons(a, [b] + ([c] + ([d] + rest)), target, depth);
    HeadersCons(b, [c] + ([d] + rest), target, depth + Delta(a));
    HeadersCons(c, [d] + rest, target, depth + Delta(a) + Delta(b));
    HeadersCons(d, rest, target, depth + Delta(a) + Delta(b) + Delta(c));
  }

  /** The insertions are balanced, so every header of the file keeps its depth. */
  lemma {:induction false} HeadersKept(lines: seq<string>, depth: int, domain: string, target: string)
    requires Unmarked(lines) && forall core :: core in Pattern() ==> core != target + " {"
    ensures Headers(Hardened(lines, depth, domain), target, depth) == Headers(lines, target, depth)
  {
    hide Unmarked, IsHeader, IsTarget, Delta, Rule, Pattern, Headers, Indent, Inserts;
    if lines != [] {
      HardenedStep(lines, depth, domain);
      HeadersCons(lines[0], lines[1..], target, depth);
      assert lines == [lines[0]] + lines[1..];
      hide *;
      HeadersKept(lines[1..], depth + Delta(lines[0]), domain, target);
      HeadersPast(lines[0], Hardened(lines[1..], depth + Delta(lines[0]), domain), target, depth);
    }
  }

  lemma HeadersPast(line: string, rest: seq<string>, target: string, depth: int)
    requires forall core :: core in Pattern() ==> core != target + " {"
    ensures Headers([line] + Rule(Indent(line)) + rest, target, depth) == Headers([line] + rest, target, depth)
    ensures Headers([line] + rest, target, depth)
            == (if depth == 0 && IsHeader(line, target) then 1 else 0) + Headers(rest, target, depth + Delta(line))
  {
    IndentBlank(line);
    hide *;
    var rule := Rule(Indent(line));
    RuleDepth(Indent(line), rest, target, depth + Delta(line));
    assert [line] + rule + rest == [line] + (rule + rest);
    HeadersCons(line, rule + rest, target, depth);
    HeadersCons(line, rest, target, depth);
  }

  lemma {:induction false} ImportsAppend(a: seq<string>, b: seq<string>, path: string)
    ensures Imports(a + b, path) == Imports(a, path) + Imports(b, path)
  {
    hide Strip;
    if a == [] {
      assert a + b == b;
    } else {
      ImportsAppend(a[1..], b, path);
      assert (a + b)[0] == a[0] && (a + b)[1..] == a[1..] + b;
    }
  }

  lemma RuleImports(indent: string, domain: string, path: string)
    requires Blank(indent) && ConfigOk(domain, path)
    ensures Imports(Rule(indent), path) == 0
  {
    RuleCores(indent);
    CoresApart(domain, path);
    var r := Rule(indent);
    assert Pattern()[0] in Pattern() && Pattern()[1] in Pattern();
    assert Pattern()[2] in Pattern() && Pattern()[3] in Pattern();
    hide Marker, Handle, Respond, Close, Delta, Strip, Rule, ImportLine, ConfigOk;
    assert r[1..][1..] == r[2..] && r[2..][1..] == r[3..] && r[3..][1..] == [];
    assert Imports(r[3..], path) == 0;
    assert Imports(r[2..], path) == 0;
    assert Imports(r[1..], path) == 0;
  }

  lemma {:induction false} ImportsKept(lines: seq<string>, depth: int, domain: string, path: string)
    requires Unmarked(lines) && ConfigOk(domain, path)
    ensures Imports(Hardened(lines, depth, domain), path) == Imports(lines, path)
  {
    hide Unmarked, IsTarget, Delta, Rule, Strip, ConfigOk, Imports, Indent, Inserts;
    if lines != [] {
      hide Hardened;
      HardenedStep(lines, depth, domain);
      var next := depth + Delta(lines[0]);
      var rest := Hardened(lines[1..], next, domain);
      ImportsKept(lines[1..], next, domain, path);
      IndentBlank(lines[0]);
      RuleImports(Indent(lines[0]), domain, path);
      var one := [lines[0]];
      ImportsAppend(one + Rule(Indent(lines[0])), rest, path);
      ImportsAppend(one, Rule(Indent(lines[0])), path);
      ImportsAppend(one, rest, path);
      assert lines == one + lines[1..];
      ImportsAppend(one, lines[1..], path);
    }
  }

  lemma {:induction false} OccurrencesInAppend(a: seq<string>, b: seq<string>, p: string)
    requires p != ""
    ensures OccurrencesIn(a + b, p) == OccurrencesIn(a, p) + OccurrencesIn(b, p)
  {
    hide Occurrences;
    if a == [] {
      assert a + b == b;
    } else {
      OccurrencesInAppend(a[1..], b, p);
      assert (a + b)[0] == a[0] && (a + b)[1..] == a[1..] + b;
    }
  }

  lemma OccurrencesStep(line: string, rule: seq<string>, rest: seq<string>, p: string)
    requires p != ""
    ensures OccurrencesIn([line] + rest, p) == Occurrences(line, p) + OccurrencesIn(rest, p)
    ensures OccurrencesIn([line] + rule + rest, p)
            == Occurrences(line, p) + OccurrencesIn(rule, p) + OccurrencesIn(rest, p)
  {
    hide Occurrences;
    OccurrencesInAppend([line] + rule, rest, p);
    OccurrencesInAppend([line], rule, p);
    OccurrencesInAppend([line], rest, p);
    assert [line][1..] == [];
  }

  /** One line adds a marker exactly if it is a top-level header. */
  lemma MarkersStep(lines: seq<string>, depth: int, domain: string)
    requires Unmarked(lines) && lines != []
    ensures OccurrencesIn(Hardened(lines, depth, domain), Marker())
            == (if depth == 0 && IsTarget(lines[0], domain) then 1 else 0)
               + OccurrencesIn(Hardened(lines[1..], depth + Delta(lines[0]), domain), Marker())
  {
    HardenedStep(lines, depth, domain);
    IndentBlank(lines[0]);
    assert Occurrences(lines[0], Marker()) == 0;
    hide *;
    RuleOccurrences(Indent(lines[0]));
    OccurrencesStep(lines[0], Rule(Indent(lines[0])), Hardened(lines[1..], depth + Delta(lines[0]), domain), Marker());
  }

  /** One marker per top-level header. */
  lemma {:induction false} MarkersAdded(lines: seq<string>, depth: int, domain: string)
    requires Unmarked(lines) && domain != PORT
    ensures OccurrencesIn(Hardened(lines, depth, domain), Marker())
            == Headers(lines, PORT, depth) + Headers(lines, domain, depth)
  {
    if lines != [] {
      MarkersStep(lines, depth, domain);
      UnmarkedRest(lines);
      OneTarget(lines[0], domain);
      hide Unmarked, Hardened, Delta, IsHeader, Marker, OccurrencesIn;
      MarkersAdded(lines[1..], depth + Delta(lines[0]), domain);
    } else {
      hide Delta, IsHeader, Marker, Occurrences;
    }
  }

  lemma OneTarget(line: string, domain: string)
    requires domain != PORT
    ensures !(IsHeader(line, PORT) && IsHeader(line, domain))
  {
    hide Strip;
    var a, b := PORT + " {", domain + " {";
    assert a[..|a| - 2] == PORT && b[..|b| - 2] == domain;
  }

  // ----- each block gets the rule once -----

  /** Inside braces nothing is inserted, so a block runs to the same line. */
  lemma {:induction false} InsideKept(lines: seq<string>, depth: int, domain: string)
    requires Unmarked(lines) && depth != 0
    ensures var h, k := Hardened(lines, depth, domain), Until(lines, depth);
            |h| >= k && h[..k] == lines[..k] && Until(h, depth) == k
  {
    hide Unmarked, IsTarget, Delta, Rule, Inserts, Indent;
    if lines != [] {
      HardenedStep(lines, depth, domain);
      var next := depth + Delta(lines[0]);
      if next != 0 {
        InsideKept(lines[1..], next, domain);
      }
      hide Hardened, Until;
      InsideStep(lines[0], lines[1..], Hardened(lines[1..], next, domain), depth);
      assert lines == [lines[0]] + lines[1..];
    }
  }

  lemma InsideStep(line: string, tail: seq<string>, rest: seq<string>, depth: int)
    requires var next := depth + Delta(line);
             next != 0 ==>
               var k := Until(tail, next);
               |rest| >= k && rest[..k] == tail[..k] && Until(rest, next) == k
    ensures var k := Until([line] + tail, depth);
            && |[line] + rest| >= k && ([line] + rest)[..k] == ([line] + tail)[..k] && Until([line] + rest, depth) == k
  {
    hide Delta, Until;
    UntilCons(line, tail, depth);
    UntilCons(line, rest, depth);
    var next := depth + Delta(line);
    if next != 0 {
      var k := Until(tail, next);
      assert ([line] + tail)[..k + 1] == [line] + tail[..k];
      assert ([line] + rest)[..k + 1] == [line] + rest[..k];
    }
  }

  lemma UntilCons(line: string, rest: seq<string>, depth: int)
    ensures Until([line] + rest, depth) == if depth + Delta(line) == 0 then 1 else 1 + Until(rest, depth + Delta(line))
  {
    hide Delta;
    assert ([line] + rest)[1..] == rest;
  }

  lemma FourUntil(r: seq<string>, rest: seq<string>)
    requires |r| == 4 && Delta(r[0]) == 0 && Delta(r[1]) == 1 && Delta(r[2]) == 0 && Delta(r[3]) == -1
    ensures Until(r + rest, 1) == 4 + Until(rest, 1)
  {
    hide Delta, Until;
    assert r + rest == [r[0]] + ([r[1]] + ([r[2]] + ([r[3]] + rest)));
    UntilCons(r[0], [r[1]] + ([r[2]] + ([r[3]] + rest)), 1);
    UntilCons(r[1], [r[2]] + ([r[3]] + rest), 1);
    UntilCons(r[2], [r[3]] + rest, 2);
    UntilCons(r[3], rest, 2);
  }

  /** The header, the rule, then the old inside of the block. */
  lemma HardenedBlock(line: string, rest: seq<string>, inside: seq<string>, indent: string)
    requires Delta(line) == 1 && Blank(indent) && |rest| >= |inside|
    requires rest[..|inside|] == inside && Until(rest, 1) == |inside|
    ensures var lines := [line] + Rule(indent) + rest;
            lines[..Until(lines, 0)] == [line] + Rule(indent) + inside
  {
    RuleCores(indent);
    var r := Rule(indent);
    hide *;
    FourUntil(r, rest);
    UntilCons(line, r + rest, 0);
    Regroup([line], r, rest, |inside|);
  }

  lemma {:induction false} CoresAppend(a: seq<string>, b: seq<string>)
    ensures Cores(a + b) == Cores(a) + Cores(b)
  {
    hide Strip;
    if a == [] {
      assert a + b == b;
    } else {
      hide Cores;
      CoresAppend(a[1..], b);
      assert a + b == [a[0]] + (a[1..] + b) && a == [a[0]] + a[1..];
      CoresCons(a[0], a[1..] + b);
      CoresCons(a[0], a[1..]);
      Regroup(if Strip(a[0]) == "" then [] else [Strip(a[0])], Cores(a[1..]), Cores(b), 0);
    }
  }

  lemma CoresCons(line: string, rest: seq<string>)
    ensures Cores([line] + rest) == (if Strip(line) == "" then [] else [Strip(line)]) + Cores(rest)
  {
    hide Strip;
    assert ([line] + rest)[1..] == rest;
  }

  lemma {:induction false} NoCore(lines: seq<string>)
    requires Unmarked(lines)
    ensures Marker() !in Cores(lines)
  {
    hide Marker, Strip;
    if lines != [] {
      if Strip(lines[0]) == Marker() {
        CoreOccurs(lines[0]);
      }
      UnmarkedRest(lines);
      NoCore(lines[1..]);
    }
  }

  lemma {:induction false} NoMatch(cores: seq<string>)
    requires Marker() !in cores
    ensures Matches(cores) == 0
  {
    MatchesNeedMarker(cores);
  }

  lemma RulePattern(indent: string)
    requires Blank(indent)
    ensures Cores(Rule(indent)) == Pattern()
  {
    hide Marker, Handle, Respond, Close, Delta, Strip, Rule, Cores, Blank;
    RuleCores(indent);
    CoresThere();
    FourCores(Rule(indent));
  }

  lemma CoresThere()
    ensures Marker() != "" && Handle() != "" && Respond() != "" && Close() != ""
  {
    assert |Handle()| == 30 && |Respond()| == 11 && |Close()| == 1;
  }

  lemma FourCores(r: seq<string>)
    requires |r| == 4 && forall i :: 0 <= i < 4 ==> Strip(r[i]) != ""
    ensures Cores(r) == [Strip(r[0]), Strip(r[1]), Strip(r[2]), Strip(r[3])]
  {
    hide Strip, Cores;
    CoreOne(r[0]);
    CoreOne(r[1]);
    CoreOne(r[2]);
    CoreOne(r[3]);
    assert r == [r[0]] + ([r[1]] + ([r[2]] + [r[3]]));
    CoresAppend([r[0]], [r[1]] + ([r[2]] + [r[3]]));
    CoresAppend([r[1]], [r[2]] + [r[3]]);
    CoresAppend([r[2]], [r[3]]);
  }

  lemma CoreOne(line: string)
    ensures Cores([line]) == if Strip(line) == "" then [] else [Strip(line)]
  {
    hide Strip;
    assert [line][1..] == [];
  }

  lemma PatternOnce(core: string, rest: seq<string>)
    requires core != Marker() && Marker() !in rest
    ensures Matches([core] + Pattern() + rest) == 1
  {
    MarkerFacts();
    MarkerAlone();
    var cores := [core] + Pattern() + rest;
    hide Marker, Handle, Respond, Close, Delta, IsCore;
    assert cores[..4][0] == core && cores[1..] == Pattern() + rest;
    assert (Pattern() + rest)[..4] == Pattern() && (Pattern() + rest)[1..] == Pattern()[1..] + rest;
    assert Marker() !in Pattern()[1..] + rest;
    NoMatch(Pattern()[1..] + rest);
    hide Matches;
    MatchesSkip(cores);
    MatchesHit(Pattern() + rest);
  }

  lemma MarkerAlone()
    ensures Handle() != Marker() && Respond() != Marker() && Close() != Marker()
  {
    assert Handle()[0] == 'h' && Respond()[0] == 'r' && Close()[0] == '}';
  }

  lemma MatchesSkip(cores: seq<string>)
    requires |cores| >= 4 && cores[..4] != Pattern()
    ensures Matches(cores) == Matches(cores[1..])
  {}

  lemma MatchesHit(cores: seq<string>)
    requires |cores| >= 4 && cores[..4] == Pattern()
    ensures Matches(cores) == 1 + Matches(cores[1..])
  {}

  lemma RuleInBlock(line: string, indent: string, inside: seq<string>, domain: string, path: string)
    requires Blank(indent) && Unmarked(inside) && IsTarget(line, domain) && ConfigOk(domain, path)
    ensures Matches(Cores([line] + Rule(indent) + inside)) == 1
  {
    TargetFacts(line, domain, path);
    var left, right := StripParts(line);
    assert '#' !in Strip(line) && Strip(line) != "";
    assert Strip(line) != Marker();
    NoCore(inside);
    RulePattern(indent);
    hide Unmarked, Strip, Rule, Marker, Pattern, IsTarget, ConfigOk;
    CoresAppend([line] + Rule(indent), inside);
    CoresAppend([line], Rule(indent));
    CoreOne(line);
    PatternOnce(Strip(line), Cores(inside));
  }

  lemma BlockCons(line: string, rest: seq<string>, target: string, depth: int)
    requires !(depth == 0 && IsHeader(line, target))
    ensures Block([line] + rest, target, depth) == Block(rest, target, depth + Delta(line))
  {
    hide IsHeader, Delta, Until;
    assert ([line] + rest)[1..] == rest;
  }

  lemma BlockPastRule(indent: string, rest: seq<string>, target: string, depth: int)
    requires Blank(indent) && forall core :: core in Pattern() ==> core != target + " {"
    ensures Block(Rule(indent) + rest, target, depth) == Block(rest, target, depth)
  {
    RuleCores(indent);
    Apart(Rule(indent), target);
    var r := Rule(indent);
    hide Marker, Handle, Respond, Close, Delta, Strip, Rule, IsHeader, Block, Pattern;
    assert r + rest == [r[0]] + ([r[1]] + ([r[2]] + ([r[3]] + rest)));
    BlockCons(r[0], [r[1]] + ([r[2]] + ([r[3]] + rest)), target, depth);
    BlockCons(r[1], [r[2]] + ([r[3]] + rest), target, depth);
    BlockCons(r[2], [r[3]] + rest, target, depth + 1);
    BlockCons(r[3], rest, target, depth + 1);
  }

  lemma BlockHead(lines: seq<string>, target: string)
    requires lines != [] && IsHeader(lines[0], target)
    ensures Block(lines, target, 0) == lines[..Until(lines, 0)]
  {}

  lemma HeaderBlock(lines: seq<string>, domain: string, path: string, target: string)
    requires Unmarked(lines) && ConfigOk(domain, path) && (target == PORT || target == domain)
    requires lines != [] && IsHeader(lines[0], target)
    ensures Matches(Cores(Block(Hardened(lines, 0, domain), target, 0))) == 1
  {
    hide Unmarked, Hardened, Matches, Cores, Block, Rule, Indent, IsHeader, Delta, ConfigOk, Blank, Until;
    HardenedStep(lines, 0, domain);
    TargetFacts(lines[0], domain, path);
    IndentBlank(lines[0]);
    InsideKept(lines[1..], 1, domain);
    var inside := lines[1..][..Until(lines[1..], 1)];
    UnmarkedPrefix(lines[1..], |inside|);
    HardenedBlock(lines[0], Hardened(lines[1..], 1, domain), inside, Indent(lines[0]));
    RuleInBlock(lines[0], Indent(lines[0]), inside, domain, path);
    BlockHead([lines[0]] + Rule(Indent(lines[0])) + Hardened(lines[1..], 1, domain), target);
  }

  lemma TargetApart(domain: string, path: string, target: string)
    requires ConfigOk(domain, path) && (target == PORT || target == domain)
    ensures forall core :: core in Pattern() ==> core != target + " {"
  {
    CoresApart(domain, path);
    hide *;
  }

  /** Any other line, and the rule behind it, lie before the block. */
  lemma BlockPast(line: string, rest: seq<string>, target: string, depth: int)
    requires !(depth == 0 && IsHeader(line, target)) && forall core :: core in Pattern() ==> core != target + " {"
    ensures Block([line] + Rule(Indent(line)) + rest, target, depth) == Block(rest, target, depth + Delta(line))
    ensures Block([line] + rest, target, depth) == Block(rest, target, depth + Delta(line))
  {
    IndentBlank(line);
    hide *;
    BlockPastRule(Indent(line), rest, target, depth + Delta(line));
    var rule := Rule(Indent(line));
    assert [line] + rule + rest == [line] + (rule + rest);
    BlockCons(line, rule + rest, target, depth);
    BlockCons(line, rest, target, depth);
  }

  lemma BlockBehind(lines: seq<string>, depth: int, domain: string, path: string, target: string)
    requires Unmarked(lines) && ConfigOk(domain, path) && (target == PORT || target == domain)
    requires lines != [] && !(depth == 0 && IsHeader(lines[0], target))
    ensures var next := depth + Delta(lines[0]);
            Block(Hardened(lines, depth, domain), target, depth)
            == Block(Hardened(lines[1..], next, domain), target, next)
  {
    hide *;
    HardenedStep(lines, depth, domain);
    TargetApart(domain, path, target);
    BlockPast(lines[0], Hardened(lines[1..], depth + Delta(lines[0]), domain), target, depth);
  }

  lemma {:induction false} RuleOnce(lines: seq<string>, depth: int, domain: string, path: string, target: string)
    requires Unmarked(lines) && ConfigOk(domain, path) && (target == PORT || target == domain)
    requires Headers(lines, target, depth) >= 1
    ensures Matches(Cores(Block(Hardened(lines, depth, domain), target, depth))) == 1
  {
    UnmarkedRest(lines);
    hide Unmarked, Hardened, IsHeader, Delta, Block, Matches, Cores, ConfigOk;
    if depth == 0 && IsHeader(lines[0], target) {
      HeaderBlock(lines, domain, path, target);
    } else {
      BlockBehind(lines, depth, domain, path, target);
      RuleOnce(lines[1..], depth + Delta(lines[0]), domain, path, target);
    }
  }

  // ----- whole files -----

  function Sum(lines: seq<string>): int {
    if lines == [] then 0 else Delta(lines[0]) + Sum(lines[1..])
  }

  /** The last line is a target's header outside all braces, without a newline. */
  predicate Lone(lines: seq<string>, domain: string) {
    lines != [] && !Ended(Last(lines)) && IsTarget(Last(lines), domain) && Sum(lines[..|lines| - 1]) == 0
  }

  function Last(lines: seq<string>): string
    requires lines != []
  {
    lines[|lines| - 1]
  }

  lemma {:induction false} HardenedAppend(a: seq<string>, b: seq<string>, depth: int, domain: string)
    requires Unmarked(a) && Unmarked(b) && Unmarked(a + b)
    ensures Hardened(a + b, depth, domain) == Hardened(a, depth, domain) + Hardened(b, depth + Sum(a), domain)
  {
    hide Unmarked, IsTarget, Delta, Rule, Inserts, Indent;
    if a == [] {
      assert a + b == b;
    } else {
      var next := depth + Delta(a[0]);
      assert (a + b)[0] == a[0] && (a + b)[1..] == a[1..] + b;
      HardenedStep(a, depth, domain);
      HardenedStep(a + b, depth, domain);
      HardenedAppend(a[1..], b, next, domain);
      hide Hardened;
      var rest, more := Hardened(a[1..], next, domain), Hardened(b, depth + Sum(a), domain);
      Regroup([a[0]], rest, more, 0);
      Regroup([a[0]] + Rule(Indent(a[0])), rest, more, 0);
    }
  }

  lemma {:induction false} HeadersAppend(a: seq<string>, b: seq<string>, target: string, depth: int)
    ensures Headers(a + b, target, depth) == Headers(a, target, depth) + Headers(b, target, depth + Sum(a))
  {
    hide IsHeader, Delta;
    if a == [] {
      assert a + b == b;
    } else {
      assert (a + b)[0] == a[0] && (a + b)[1..] == a[1..] + b;
      HeadersAppend(a[1..], b, target, depth + Delta(a[0]));
    }
  }

  lemma HardenedOne(line: string, depth: int, domain: string)
    requires Unmarked([line])
    ensures Hardened([line], depth, domain)
            == if depth == 0 && IsTarget(line, domain) then [line] + Rule(Indent(line)) else [line]
  {
    hide Unmarked, IsTarget, Delta, Rule, Inserts, Indent;
    HardenedStep([line], depth, domain);
    assert [line][1..] == [];
    assert Hardened([], depth + Delta(line), domain) == [];
  }

  lemma IndentLine(line: string, domain: string)
    requires IsLine(line) && IsTarget(line, domain)
    ensures '\n' !in Indent(line)
  {
    var n := |line| - |LStrip(line)|;
    var left, right := StripParts(line);
    assert Strip(line) != "";
    LStripOf(left, Strip(line), right);
    assert line[..n] == left;
  }

  lemma LStripOf(left: string, core: string, right: string)
    requires Blank(left) && core != "" && !IsSpace(core[0])
    ensures LStrip(left + core + right) == core + right
  {
    assert left + core + right == left + (core + right);
    LStripHead(left, core + right);
  }

  lemma {:induction false} HardenedEnded(lines: seq<string>, depth: int, domain: string)
    requires Unmarked(lines) && AllEnded(lines)
    ensures AllEnded(Hardened(lines, depth, domain))
  {
    hide Unmarked, IsTarget, Delta, Rule, Inserts, Indent, IsLine, Ended;
    if lines != [] {
      HardenedStep(lines, depth, domain);
      HardenedEnded(lines[1..], depth + Delta(lines[0]), domain);
      hide Hardened;
      if IsTarget(lines[0], domain) {
        IndentLine(lines[0], domain);
        RuleAreLines(Indent(lines[0]));
      }
    }
  }

  /** The last line apart from those before it. */
  lemma Parts(lines: seq<string>) returns (front: seq<string>, last: string)
    requires Unmarked(lines) && lines != []
    ensures lines == front + [last] && last == Last(lines) && front == lines[..|lines| - 1]
    ensures Unmarked(front) && AllEnded(front) && Unmarked([last]) && IsLine(last)
  {
    hide Marker;
    front, last := lines[..|lines| - 1], lines[|lines| - 1];
  }

  /** A file whose last line is no lone header comes out as lines, the last one as it was. */
  lemma HardenedLines(lines: seq<string>, domain: string)
    requires Unmarked(lines) && lines != [] && !Lone(lines, domain)
    ensures var h := Hardened(lines, 0, domain);
            && AreLines(h) && h != []
            && (Ended(Last(lines)) ==> Ended(Last(h)))
            && (!Ended(Last(lines)) ==> h == Hardened(lines[..|lines| - 1], 0, domain) + [Last(lines)])
  {
    hide Unmarked, Hardened, IsTarget, Sum, Rule, Indent, IsLine, Ended;
    var front, last := Parts(lines);
    HardenedAppend(front, [last], 0, domain);
    HardenedOne(last, Sum(front), domain);
    HardenedEnded(front, 0, domain);
    EndedThenLast(Hardened(front, 0, domain), last);
    if Sum(front) == 0 && IsTarget(last, domain) {
      IndentLine(last, domain);
      RuleAreLines(Indent(last));
    }
  }

  lemma EndedUnmarked(last: string)
    requires Unmarked([last])
    ensures Unmarked([last + "\n"]) || Ended(last)
  {
    assert Occurrences(last, Marker()) == 0 by { assert [last][0] == last; }
    hide Marker;
    if !Ended(last) {
      OccurrencesNewline(last);
      assert IsLine([last][0]) && '\n' !in last;
      OneLine(last);
    }
  }

  lemma {:induction false} OccurrencesNewline(s: string)
    ensures Occurrences(s + "\n", Marker()) == Occurrences(s, Marker())
  {
    hide Marker;
    if s == "" {
      assert s + "\n" == "\n";
      OccurrencesNone("\n", Marker());
    } else {
      var t, m := s + "\n", Marker();
      assert t[1..] == s[1..] + "\n";
      if |t| >= |m| && t[..|m|] == m {
        assert |m| < |t| by { assert t[|s|] == '\n' && forall i :: 0 <= i < |m| ==> t[i] == m[i] && t[i] in m; }
        assert s[..|m|] == m && t[|m|..] == s[|m|..] + "\n";
        OccurrencesNewline(s[|m|..]);
      } else {
        assert |s| >= |m| ==> s[..|m|] == t[..|m|];
        OccurrencesNewline(s[1..]);
      }
    }
  }
}
