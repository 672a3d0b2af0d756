/** The Caddyfile edit as it runs: one scan that collects insertions, then edits of the line list. */
module CaddyEditor {
  import opened TextLines
  import opened CaddyTransform
  import opened CaddyHardening

  datatype Insertion = Insertion(at: int, content: seq<string>)

  /** The insertions the scan collects from line `at` on. */
  function Points(lines: seq<string>, at: int, depth: int, domain: string): seq<Insertion> {
    if lines == [] then []
    else
      var rest := Points(lines[1..], at + 1, depth + Delta(lines[0]), domain);
      if Inserts(lines, depth, domain) then [Insertion(at + 1, Rule(Indent(lines[0])))] + rest else rest
  }

  predicate Fitting(insertions: seq<Insertion>, n: int) {
    forall i :: 0 <= i < |insertions| ==> 0 <= insertions[i].at <= n
  }

  /** The later insertions first, then the first one. */
  function Woven(lines: seq<string>, insertions: seq<Insertion>): (r: seq<string>)
    requires Fitting(insertions, |lines|)
    ensures |r| >= |lines|
  {
    if insertions == [] then lines
    else
      var later := Woven(lines, insertions[1..]);
      later[..insertions[0].at] + insertions[0].content + later[insertions[0].at..]
  }

  lemma {:induction false} PointsFit(lines: seq<string>, at: int, depth: int, domain: string)
    requires 0 <= at
    ensures Fitting(Points(lines, at, depth, domain), at + |lines|)
  {
    hide Inserts, Delta, Rule, Indent;
    if lines != [] {
      PointsFit(lines[1..], at + 1, depth + Delta(lines[0]), domain);
    }
  }

  /** Applying the insertions backwards puts each rule right after its header. */
  lemma {:induction false} WovenIs(before: seq<string>, lines: seq<string>, depth: int, domain: string)
    requires Fitting(Points(lines, |before|, depth, domain), |before + lines|)
    ensures Woven(before + lines, Points(lines, |before|, depth, domain)) == before + Hardened(lines, depth, domain)
    decreases |lines|
  {
    hide Inserts, Delta, Rule, Indent, Fitting;
    if lines == [] {
      assert before + lines == before;
    } else {
      var line, rest := lines[0], lines[1..];
      var next := depth + Delta(line);
      assert before + lines == (before + [line]) + rest;
      PointsFit(rest, |before| + 1, next, domain);
      WovenIs(before + [line], rest, next, domain);
      var all, points, later := before + lines, Points(lines, |before|, depth, domain), Hardened(rest, next, domain);
      if Inserts(lines, depth, domain) {
        WovenCons(all, points);
        hide Woven;
        Weave(before, line, Rule(Indent(line)), later);
      } else {
        assert before + ([line] + later) == (before + [line]) + later;
        hide Woven;
      }
    }
  }

  lemma WovenCons(lines: seq<string>, points: seq<Insertion>)
    requires points != [] && Fitting(points, |lines|)
    ensures 0 <= points[0].at <= |lines| && Fitting(points[1..], |lines|)
    ensures var later := Woven(lines, points[1..]);
            Woven(lines, points) == later[..points[0].at] + points[0].content + later[points[0].at..]
  {}

  lemma Weave(before: seq<string>, line: string, rule: seq<string>, rest: seq<string>)
    ensures var all := (before + [line]) + rest; var at := |before| + 1;
            all[..at] + rule + all[at..] == before + ([line] + rule + rest)
  {}

  /** The extent of the block that starts at a line. */
  method BlockLength(lines: seq<string>, start: nat) returns (n: nat)
    requires start < |lines|
    ensures n == Until(lines[start..], 0)
  {
    var depth, end := 0, start;
    while end < |lines|
      invariant start <= end <= |lines|
      invariant Until(lines[start..], 0) == end - start + Until(lines[end..], depth)
      decreases |lines| - end
    {
      assert lines[end..][0] == lines[end] && lines[end..][1..] == lines[end + 1..];
      depth := depth + Delta(lines[end]);
      end := end + 1;
      if depth == 0 {
        return end - start;
      }
    }
    return end - start;
  }

  method Scan(lines: seq<string>, domain: string) returns (found: set<string>, insertions: seq<Insertion>)
    requires domain != PORT
    ensures insertions == Points(lines, 0, 0, domain)
    ensures PORT in found <==> Headers(lines, PORT, 0) > 0
    ensures domain in found <==> Headers(lines, domain, 0) > 0
  {
    found, insertions := {}, [];
    var depth := 0;
    var index := 0;
    assert lines[..0] == [] && lines[0..] == lines;
    while index < |lines|
      invariant 0 <= index <= |lines| && depth == Sum(lines[..index])
      invariant Points(lines, 0, 0, domain) == insertions + Points(lines[index..], index, depth, domain)
      invariant PORT in found <==> Headers(lines[..index], PORT, 0) > 0
      invariant domain in found <==> Headers(lines[..index], domain, 0) > 0
    {
      var line := lines[index];
      ScanStep(lines, index, PORT);
      ScanStep(lines, index, domain);
      PointsStep(lines, index, depth, domain, insertions);
      OneTarget(line, domain);
      if depth == 0 {
        var target := if Strip(line) == PORT + " {" then PORT else domain;
        if Strip(line) == target + " {" {
          found := found + {target};
          var n := BlockLength(lines, index);
          if Occurrences(Join(lines[index..][..n]), Marker()) == 0 {
            insertions := insertions + [Insertion(index + 1, Rule(Indent(line)))];
          }
        }
      }
      depth := depth + Delta(line);
      index := index + 1;
    }
    assert lines[..|lines|] == lines;
  }

  lemma ScanStep(lines: seq<string>, index: nat, target: string)
    requires index < |lines|
    ensures Sum(lines[..index + 1]) == Sum(lines[..index]) + Delta(lines[index])
    ensures Headers(lines[..index + 1], target, 0)
            == Headers(lines[..index], target, 0)
               + (if Sum(lines[..index]) == 0 && IsHeader(lines[index], target) then 1 else 0)
  {
    var one := [lines[index]];
    assert lines[..index + 1] == lines[..index] + one && one[1..] == [];
    hide Delta, IsHeader;
    SumAppend(lines[..index], one);
    HeadersAppend(lines[..index], one, target, 0);
  }

  lemma {:induction false} SumAppend(a: seq<string>, b: seq<string>)
    ensures Sum(a + b) == Sum(a) + Sum(b)
  {
    hide Delta;
    if a == [] {
      assert a + b == b;
    } else {
      assert (a + b)[0] == a[0] && (a + b)[1..] == a[1..] + b;
      SumAppend(a[1..], b);
    }
  }

  lemma PointsStep(lines: seq<string>, index: nat, depth: int, domain: string, insertions: seq<Insertion>)
    requires index < |lines|
    ensures var here := if Inserts(lines[index..], depth, domain)
                        then [Insertion(index + 1, Rule(Indent(lines[index])))] else [];
            insertions + Points(lines[index..], index, depth, domain)
            == (insertions + here) + Points(lines[index + 1..], index + 1, depth + Delta(lines[index]), domain)
  {
    hide Delta, Inserts, Rule, Indent;
    assert lines[index..][0] == lines[index] && lines[index..][1..] == lines[index + 1..];
  }

  /** The insertions, last to first. */
  method InsertAll(original: seq<string>, insertions: seq<Insertion>) returns (lines: seq<string>)
    requires Fitting(insertions, |original|)
    ensures lines == Woven(original, insertions)
  {
    lines := original;
    var k := |insertions|;
    assert insertions[k..] == [];
    while k > 0
      invariant 0 <= k <= |insertions|
      invariant Fitting(insertions[k..], |original|) && lines == Woven(original, insertions[k..])
    {
      k := k - 1;
      assert insertions[k..][1..] == insertions[k + 1..] && insertions[k..][0] == insertions[k];
      lines := lines[..insertions[k].at] + insertions[k].content + lines[insertions[k].at..];
    }
    assert insertions[0..] == insertions;
  }

  /** The whole edit, as specified. */
  method HardenCaddyfile(text: string, domain: string, path: string) returns (r: Result)
    requires ConfigOk(domain, path)
    ensures r == Harden(text, domain, path)
  {
    hide Woven, Points, Fitting, Hardened, Headers, Imports, Check, ImportLine, Split, Join, Ended;
    var lines := Split(text);
    Differs(domain, path);
    var found, insertions := Scan(lines, domain);
    if PORT !in found || domain !in found {
      return Err(MissingBlock);
    }
    ghost var original := lines;
    WovenAll(lines, domain);
    lines := InsertAll(lines, insertions);
    var matches := Imports(lines, path);
    if matches > 1 {
      return Err(DuplicateImport);
    }
    if matches == 0 {
      if lines != [] && !Ended(lines[|lines| - 1]) {
        lines := lines[|lines| - 1 := lines[|lines| - 1] + "\n"];
      }
      lines := lines + ["\n", ImportLine(path) + "\n"];
      assert lines == Terminated(Hardened(original, 0, domain)) + Tail(path);
    }
    r := HardenOnce(Join(lines), domain, path);
  }

  lemma WovenAll(lines: seq<string>, domain: string)
    ensures Fitting(Points(lines, 0, 0, domain), |lines|)
    ensures Woven(lines, Points(lines, 0, 0, domain)) == Hardened(lines, 0, domain)
  {
    PointsFit(lines, 0, 0, domain);
    assert [] + lines == lines;
    WovenIs([], lines, 0, domain);
  }

  /** Where the top-level headers of a target are. */
  method HeaderIndices(lines: seq<string>, target: string) returns (blocks: seq<nat>)
    ensures |blocks| == Headers(lines, target, 0)
    ensures blocks != [] ==>
              blocks[0] < |lines| && Block(lines, target, 0) == lines[blocks[0]..][..Until(lines[blocks[0]..], 0)]
  {
    blocks := [];
    var depth, index := 0, 0;
    assert lines[..0] == [] && lines[0..] == lines;
    while index < |lines|
      invariant 0 <= index <= |lines| && depth == Sum(lines[..index])
      invariant |blocks| == Headers(lines[..index], target, 0)
      invariant blocks == [] ==> Block(lines, target, 0) == Block(lines[index..], target, depth)
      invariant blocks != [] ==>
                  blocks[0] < |lines| && Block(lines, target, 0) == lines[blocks[0]..][..Until(lines[blocks[0]..], 0)]
    {
      ScanStep(lines, index, target);
      BlockStep(lines[index..], target, depth);
      if depth == 0 && Strip(lines[index]) == target + " {" {
        blocks := blocks + [index];
      }
      assert lines[index..][1..] == lines[index + 1..];
      depth := depth + Delta(lines[index]);
      index := index + 1;
    }
    assert lines[..|lines|] == lines;
  }

  lemma BlockStep(lines: seq<string>, target: string, depth: int)
    requires lines != []
    ensures Block(lines, target, depth)
            == if depth == 0 && IsHeader(lines[0], target) then lines[..Until(lines, 0)]
               else Block(lines[1..], target, depth + Delta(lines[0]))
  {}

  method HardenOnce(text: string, domain: string, path: string) returns (r: Result)
    ensures r == Check(text, domain, path)
  {
    var lines := Split(text);
    var targets := [PORT, domain];
    var i := 0;
    while i < |targets|
      invariant 0 <= i <= |targets|
      invariant forall j :: 0 <= j < i ==>
                  Headers(lines, targets[j], 0) == 1 && Matches(Cores(Block(lines, targets[j], 0))) == 1
    {
      var blocks := HeaderIndices(lines, targets[i]);
      assert i == 1 ==> Headers(lines, targets[0], 0) == 1;
      if |blocks| != 1 {
        return Err(BlockCount);
      }
      var n := BlockLength(lines, blocks[0]);
      if Matches(Cores(lines[blocks[0]..][..n])) != 1 {
        return Err(RuleCount);
      }
      i := i + 1;
    }
    assert Headers(lines, targets[0], 0) == 1 && Headers(lines, targets[1], 0) == 1;
    if Imports(lines, path) != 1 {
      return Err(ImportCount);
    }
    if Occurrences(text, Marker()) != 2 {
      return Err(MarkerCount);
    }
    return Ok(text);
  }
}
