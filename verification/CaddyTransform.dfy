/** The Caddyfile edit: put the submit rule into two site blocks and import the frontend snippet. */
module CaddyTransform {
  import opened TextLines

  // The lines the rule is made of; functions, so that proofs can leave the characters aside.
  function Marker(): (s: string)
    ensures s != "" && s[0] == '#' && '\n' !in s
  {
    "# noi-orchestrator-private-submit"
  }

  function Handle(): string {
    "handle /orchestrator/submit* {"
  }

  function Respond(): string {
    "respond 404"
  }

  function Close(): string {
    "}"
  }

  const PORT := ":80"

  datatype Error = MissingBlock | DuplicateImport | BlockCount | RuleCount | ImportCount | MarkerCount

  datatype Result = Ok(text: string) | Err(error: Error)

  /** What the domain pattern and the installer's fixed snippet path guarantee. */
  predicate ConfigOk(domain: string, path: string) {
    && domain != "" && domain != PORT
    && (forall c :: c in domain ==> !IsSpace(c) && c != '{' && c != '}' && c != '#')
    && path != "" && !IsSpace(path[|path| - 1])
    && forall c :: c in path ==> c != '\n' && c != '{' && c != '}' && c != '#'
  }

  lemma Differs(domain: string, path: string)
    requires ConfigOk(domain, path)
    ensures domain != PORT
  {}

  function ImportLine(path: string): string {
    "import " + path
  }

  predicate IsHeader(line: string, target: string) {
    Strip(line) == target + " {"
  }

  predicate IsTarget(line: string, domain: string) {
    IsHeader(line, PORT) || IsHeader(line, domain)
  }

  /** How many lines it takes until the brace depth is zero again. */
  function Until(lines: seq<string>, depth: int): (n: nat)
    ensures n <= |lines|
  {
    if lines == [] then 0
    else if depth + Delta(lines[0]) == 0 then 1
    else 1 + Until(lines[1..], depth + Delta(lines[0]))
  }

  predicate Marked(block: seq<string>) {
    Occurrences(Join(block), Marker()) > 0
  }

  function Indent(line: string): string {
    line[..|line| - |LStrip(line)|] + "  "
  }

  function Rule(indent: string): (r: seq<string>)
    ensures |r| == 4
  {
    [indent + Marker() + "\n", indent + Handle() + "\n", indent + "  " + Respond() + "\n", indent + Close() + "\n"]
  }

  /** A header outside all braces, of a block that lacks the marker. */
  predicate Inserts(lines: seq<string>, depth: int, domain: string)
    requires lines != []
  {
    depth == 0 && IsTarget(lines[0], domain) && !Marked(lines[..Until(lines, 0)])
  }

  /** The lines with the rule put after every such header. */
  function Hardened(lines: seq<string>, depth: int, domain: string): seq<string> {
    if lines == [] then []
    else
      var rest := Hardened(lines[1..], depth + Delta(lines[0]), domain);
      if Inserts(lines, depth, domain) then [lines[0]] + Rule(Indent(lines[0])) + rest else [lines[0]] + rest
  }

  function Headers(lines: seq<string>, target: string, depth: int): nat {
    if lines == [] then 0
    else
      (if depth == 0 && IsHeader(lines[0], target) then 1 else 0) + Headers(lines[1..], target, depth + Delta(lines[0]))
  }

  function Imports(lines: seq<string>, path: string): nat {
    if lines == [] then 0 else (if Strip(lines[0]) == ImportLine(path) then 1 else 0) + Imports(lines[1..], path)
  }

  function Terminated(lines: seq<string>): seq<string> {
    if lines != [] && !Ended(lines[|lines| - 1])
    then lines[..|lines| - 1] + [lines[|lines| - 1] + "\n"] else lines
  }

  /** The first top-level block of a target, header included. */
  function Block(lines: seq<string>, target: string, depth: int): seq<string> {
    if lines == [] then []
    else if depth == 0 && IsHeader(lines[0], target) then lines[..Until(lines, 0)]
    else Block(lines[1..], target, depth + Delta(lines[0]))
  }

  /** What the rule pattern sees: it skips blank lines and blanks around a line. */
  function Cores(lines: seq<string>): seq<string> {
    if lines == [] then []
    else if Strip(lines[0]) == "" then Cores(lines[1..])
    else [Strip(lines[0])] + Cores(lines[1..])
  }

  function Pattern(): seq<string> {
    [Marker(), Handle(), Respond(), Close()]
  }

  function Matches(cores: seq<string>): nat {
    if |cores| < 4 then 0
    else (if cores[..4] == Pattern() then 1 else 0) + Matches(cores[1..])
  }

  /** _harden_once: what every result of the edit must look like. */
  function Check(text: string, domain: string, path: string): Result {
    var lines := Split(text);
    if Headers(lines, PORT, 0) != 1 then Err(BlockCount)
    else if Matches(Cores(Block(lines, PORT, 0))) != 1 then Err(RuleCount)
    else if Headers(lines, domain, 0) != 1 then Err(BlockCount)
    else if Matches(Cores(Block(lines, domain, 0))) != 1 then Err(RuleCount)
    else if Imports(lines, path) != 1 then Err(ImportCount)
    else if Occurrences(text, Marker()) != 2 then Err(MarkerCount)
    else Ok(text)
  }

  function Tail(path: string): (r: seq<string>)
    ensures |r| == 2
  {
    ["\n", ImportLine(path) + "\n"]
  }

  function Harden(text: string, domain: string, path: string): Result {
    var lines := Split(text);
    if Headers(lines, PORT, 0) == 0 || Headers(lines, domain, 0) == 0 then Err(MissingBlock)
    else
      var hardened := Hardened(lines, 0, domain);
      if Imports(hardened, path) > 1 then Err(DuplicateImport)
      else if Imports(hardened, path) == 1 then Check(Join(hardened), domain, path)
      else Check(Join(Terminated(hardened) + Tail(path)), domain, path)
  }

  // ----- idempotence -----

  lemma {:induction false} MatchesNeedMarker(cores: seq<string>)
    ensures Matches(cores) > 0 ==> Marker() in cores
  {
    if |cores| >= 4 {
      MatchesNeedMarker(cores[1..]);
      assert cores[..4] == Pattern() ==> cores[0] == Pattern()[0];
    }
  }

  lemma {:induction false} CoreIsMarked(lines: seq<string>)
    requires AreLines(lines) && Marker() in Cores(lines)
    ensures OccurrencesIn(lines, Marker()) > 0
  {
    if Strip(lines[0]) == Marker() {
      CoreOccurs(lines[0]);
    } else {
      CoreIsMarked(lines[1..]);
    }
  }

  lemma CoreOccurs(line: string)
    requires Strip(line) == Marker()
    ensures Occurrences(line, Marker()) > 0
  {
    var left, right := StripParts(line);
    OccursAfter(left, Marker(), right);
  }

  lemma {:induction false} OccursAfter(left: string, p: string, right: string)
    requires p != ""
    ensures Occurrences(left + p + right, p) > 0
  {
    var s := left + p + right;
    if left == "" {
      assert s[..|p|] == p;
    } else if s[..|p|] != p {
      assert s[1..] == left[1..] + p + right;
      OccursAfter(left[1..], p, right);
    }
  }

  lemma PrefixLines(lines: seq<string>, n: nat)
    requires AreLines(lines) && n <= |lines|
    ensures AreLines(lines[..n])
  {}

  lemma MatchedIsMarked(block: seq<string>)
    requires AreLines(block) && Matches(Cores(block)) == 1
    ensures Marked(block)
  {
    hide Marker, Matches, Cores, Occurrences, OccurrencesIn, AreLines, Join;
    MatchesNeedMarker(Cores(block));
    CoreIsMarked(block);
    JoinOccurrences(block, Marker());
  }

  /** Where every block carries the rule, nothing is inserted. */
  lemma {:induction false} HardenedIdentity(lines: seq<string>, depth: int, domain: string)
    requires AreLines(lines)
    requires Headers(lines, PORT, depth) == 1 ==> Matches(Cores(Block(lines, PORT, depth))) == 1
    requires Headers(lines, domain, depth) == 1 ==> Matches(Cores(Block(lines, domain, depth))) == 1
    requires Headers(lines, PORT, depth) <= 1 && Headers(lines, domain, depth) <= 1
    ensures Hardened(lines, depth, domain) == lines
  {
    if lines != [] {
      hide Matches, Cores, Marked, Until;
      HardenedIdentity(lines[1..], depth + Delta(lines[0]), domain);
      if depth == 0 && IsTarget(lines[0], domain) {
        PrefixLines(lines, Until(lines, 0));
        MatchedIsMarked(lines[..Until(lines, 0)]);
      }
      assert lines == [lines[0]] + lines[1..];
    }
  }

  /** The edit is idempotent: what it accepts and returns, it returns unchanged, for every input. */
  lemma Idempotent(text: string, domain: string, path: string)
    requires Harden(text, domain, path).Ok?
    ensures var r := Harden(text, domain, path); Harden(r.text, domain, path) == r
  {
    var d := Harden(text, domain, path).text;
    var lines := Split(d);
    JoinSplit(d);
    HardenedIdentity(lines, 0, domain);
    hide Matches, Cores, Block, Hardened, Imports, Headers;
  }
}
