/**
 Setting one managed key of a YAML file without parsing the file: the key's own lines are replaced,
 every other byte stays.
 */
module YamlMerge {
  import opened LineBreaks
  import opened TextLines

  datatype Error = BadHost | HydroBlocks | UnsafeEnd | DuplicateKey

  datatype Result = Ok(text: string) | Err(error: Error)

  // ----- the patterns -----

  predicate Letter(c: char) {
    'a' <= c <= 'z' || 'A' <= c <= 'Z'
  }

  predicate Alnum(c: char) {
    Letter(c) || '0' <= c <= '9'
  }

  predicate Label(s: string) {
    && 1 <= |s| <= 63 && Alnum(s[0]) && Alnum(s[|s| - 1])
    && forall i :: 0 <= i < |s| ==> Alnum(s[i]) || s[i] == '-'
  }

  function Labels(host: string): seq<string> {
    if host == "" then [""]
    else
      var rest := Labels(host[1..]);
      if host[0] == '.' || rest == [] then [""] + rest else [[host[0]] + rest[0]] + rest[1..]
  }

  predicate IsHost(host: string) {
    && 1 <= |host| <= 253 && |Labels(host)| >= 2
    && forall i :: 0 <= i < |Labels(host)| ==> Label(Labels(host)[i])
  }

  predicate Starts(line: string, prefix: string) {
    prefix <= line
  }

  /** `hydro:`, then blanks and perhaps a comment. */
  predicate IsHydro(line: string) {
    Starts(line, "hydro:") && (LStrip(line[6..]) == "" || LStrip(line[6..])[0] == '#')
  }

  function WordLength(s: string): (n: nat)
    ensures n <= |s|
  {
    if s != "" && (Alnum(s[0]) || s[0] == '_' || s[0] == '-') then 1 + WordLength(s[1..]) else 0
  }

  predicate ColonNext(s: string) {
    LStrip(s) != "" && LStrip(s)[0] == ':'
  }

  predicate IsTopKey(line: string) {
    line != "" && (Letter(line[0]) || line[0] == '_') && ColonNext(line[WordLength(line)..])
  }

  function Key(): string {
    "  notify_allowed_https_hosts"
  }

  predicate IsManaged(line: string) {
    Starts(line, Key()) && ColonNext(line[|Key()|..])
  }

  /** Indented, blank and comment lines belong to the block before them. */
  predicate Continues(line: string) {
    line != "" && (line[0] == ' ' || line[0] == '\t' || line[0] == '#' || line[0] == '\r' || line[0] == '\n')
  }

  predicate IsValue(line: string) {
    Strip(line) != "" && (Starts(line, "    ") || line[0] == '\t')
  }

  // ----- the edit -----

  function Newline(s: string): string {
    if HasCrLf(s) then "\r\n" else "\n"
  }

  function Replacement(nl: string, host: string): (r: seq<string>)
    ensures |r| == 2
  {
    [Key() + ":" + nl, "    - \"" + host + "\"" + nl]
  }

  function HydroCount(lines: seq<string>): nat {
    if lines == [] then 0 else (if IsHydro(lines[0]) then 1 else 0) + HydroCount(lines[1..])
  }

  function FirstHydro(lines: seq<string>): (n: nat)
    ensures n <= |lines|
  {
    if lines == [] || IsHydro(lines[0]) then 0 else 1 + FirstHydro(lines[1..])
  }

  function Lead(lines: seq<string>): (n: nat)
    ensures n <= |lines|
  {
    if lines == [] || !Continues(lines[0]) then 0 else 1 + Lead(lines[1..])
  }

  function ManagedCount(lines: seq<string>): nat {
    if lines == [] then 0 else (if IsManaged(lines[0]) then 1 else 0) + ManagedCount(lines[1..])
  }

  function FirstManaged(lines: seq<string>): (n: nat)
    ensures n <= |lines|
    ensures ManagedCount(lines) > 0 <==> n < |lines|
  {
    if lines == [] || IsManaged(lines[0]) then 0 else 1 + FirstManaged(lines[1..])
  }

  function ValueLead(lines: seq<string>): (n: nat)
    ensures n <= |lines|
  {
    if lines == [] || !IsValue(lines[0]) then 0 else 1 + ValueLead(lines[1..])
  }

  /** The block with its last line ended. */
  function Closed(block: seq<string>, nl: string): seq<string>
    requires block != []
  {
    var last := block[|block| - 1];
    if last != "" && !Closes(last)
    then block[..|block| - 1] + [last + nl] else block
  }

  /** `head` is the hydro line, `body` the lines that belong to it. */
  function NewBlock(head: string, body: seq<string>, nl: string, host: string): seq<string> {
    var m := FirstManaged(body);
    if m == |body| then Closed([head] + body, nl) + Replacement(nl, host)
    else
      var after := body[m + 1..];
      [head] + body[..m] + Replacement(nl, host) + after[ValueLead(after)..]
  }

  function Merge(source: string, host: string): Result {
    if !IsHost(host) then Err(BadHost)
    else
      var lines := SplitLines(source);
      if HydroCount(lines) != 1 then Err(HydroBlocks)
      else
        HydroThere(lines);
        var start := FirstHydro(lines);
        var rest := lines[start + 1..];
        var body, tail := rest[..Lead(rest)], rest[Lead(rest)..];
        if tail != [] && !IsTopKey(tail[0]) then Err(UnsafeEnd)
        else if ManagedCount(body) > 1 then Err(DuplicateKey)
        else Ok(Join(lines[..start] + NewBlock(lines[start], body, Newline(source), host) + tail))
  }

  lemma {:induction false} HydroThere(lines: seq<string>)
    requires HydroCount(lines) >= 1
    ensures FirstHydro(lines) < |lines| && IsHydro(lines[FirstHydro(lines)])
  {
    hide IsHydro;
    if !IsHydro(lines[0]) {
      HydroThere(lines[1..]);
    }
  }

  // ----- single lines -----

  lemma {:induction false} LStripTail(s: string, nl: string)
    requires Blank(nl)
    ensures (LStrip(s + nl) == "" <==> LStrip(s) == "") && (LStrip(s) != "" ==> LStrip(s + nl)[0] == LStrip(s)[0])
  {
    if s == "" {
      assert s + nl == nl;
      BlankStrips(nl);
    } else {
      assert (s + nl)[1..] == s[1..] + nl;
      LStripTail(s[1..], nl);
    }
  }

  lemma {:induction false} BlankStrips(s: string)
    requires Blank(s)
    ensures LStrip(s) == ""
  {
    if s != "" {
      BlankStrips(s[1..]);
    }
  }

  lemma StartsTail(line: string, nl: string, prefix: string)
    requires prefix != "" && prefix[|prefix| - 1] != '\n' && prefix[|prefix| - 1] != '\r'
    requires nl == "\n" || nl == "\r\n"
    requires Starts(line + nl, prefix)
    ensures Starts(line, prefix)
  {
    assert (line + nl)[|prefix| - 1] == prefix[|prefix| - 1];
    assert |prefix| <= |line|;
    assert line == (line + nl)[..|line|];
  }

  /** Ending a line with a newline changes nothing the patterns see. */
  lemma ClosedLine(line: string, nl: string)
    requires nl == "\n" || nl == "\r\n"
    ensures IsHydro(line + nl) == IsHydro(line) && IsManaged(line + nl) == IsManaged(line)
    ensures line != "" ==> Continues(line + nl) == Continues(line)
  {
    KeyEnds();
    if Starts(line + nl, "hydro:") {
      StartsTail(line, nl, "hydro:");
    }
    if Starts(line + nl, Key()) {
      StartsTail(line, nl, Key());
    }
    hide Key, LStrip;
    if Starts(line, "hydro:") {
      assert (line + nl)[6..] == line[6..] + nl;
      LStripTail(line[6..], nl);
    }
    if Starts(line, Key()) {
      assert (line + nl)[|Key()|..] == line[|Key()|..] + nl;
      LStripTail(line[|Key()|..], nl);
    }
  }

  lemma KeyEnds()
    ensures |Key()| == 28 && Key()[27] == 's' && Key()[0] == ' ' && Key()[1] == ' ' && Key()[2] == 'n'
    ensures '\n' !in Key() && '\r' !in Key()
  {}

  lemma NotHydro(line: string)
    requires Continues(line)
    ensures !IsHydro(line)
  {
    assert "hydro:"[0] == 'h';
  }

  lemma FirstLine(nl: string)
    requires nl == "\n" || nl == "\r\n"
    ensures var line := Key() + ":" + nl;
            IsManaged(line) && Continues(line) && IsTextLine(line) && Closes(line) && (EndsCrLf(line) <==> nl == "\r\n")
  {
    KeyEnds();
    hide Key;
    var line := Key() + ":" + nl;
    assert line[..|Key()|] == Key() && line[|Key()|..] == ":" + nl;
    assert line[0] == Key()[0];
    assert LStrip(":" + nl) == ":" + nl;
    EndLine(Key() + ":", nl);
  }

  lemma {:induction false} HostChars(host: string)
    requires forall i :: 0 <= i < |Labels(host)| ==>
               forall j :: 0 <= j < |Labels(host)[i]| ==> Alnum(Labels(host)[i][j]) || Labels(host)[i][j] == '-'
    ensures Labels(host) != [] && forall c :: c in host ==> c != '\n' && c != '\r'
  {
    if host != "" {
      var rest, all := Labels(host[1..]), Labels(host);
      LabelsThere(host[1..]);
      assert host == [host[0]] + host[1..];
      if host[0] == '.' {
        assert forall i :: 0 <= i < |rest| ==> rest[i] == all[i + 1];
      } else {
        assert all[0] == [host[0]] + rest[0] && all[0][0] == host[0];
        assert forall j :: 0 <= j < |rest[0]| ==> rest[0][j] == all[0][j + 1];
        assert forall i :: 1 <= i < |rest| ==> rest[i] == all[i];
      }
      HostChars(host[1..]);
    }
  }

  lemma {:induction false} LabelsThere(host: string)
    ensures Labels(host) != []
  {}

  lemma HostPlain(host: string)
    requires IsHost(host)
    ensures forall c :: c in host ==> c != '\n' && c != '\r'
  {
    forall i | 0 <= i < |Labels(host)|
      ensures forall j :: 0 <= j < |Labels(host)[i]| ==> Alnum(Labels(host)[i][j]) || Labels(host)[i][j] == '-'
    {
      assert Label(Labels(host)[i]);
    }
    hide Labels, Alnum;
    HostChars(host);
  }

  lemma SecondLine(nl: string, host: string)
    requires (nl == "\n" || nl == "\r\n") && IsHost(host)
    ensures var line := "    - \"" + host + "\"" + nl;
            && !IsManaged(line) && Continues(line) && IsValue(line)
            && IsTextLine(line) && Closes(line) && (EndsCrLf(line) <==> nl == "\r\n")
  {
    HostPlain(host);
    KeyEnds();
    hide Key, IsHost;
    var core := "- \"" + host + "\"";
    var line := "    - \"" + host + "\"" + nl;
    assert line == "    " + core + nl;
    assert core[0] == '-' && core[|core| - 1] == '\"';
    StripCore("    ", core, nl);
    assert line[2] == ' ' && line[..4] == "    ";
    assert !Starts(line, Key());
    EndLine("    " + core, nl);
  }

  /** The two new lines belong to the block; the first is the key, the second a value of it. */
  lemma ReplacementFacts(nl: string, host: string)
    requires (nl == "\n" || nl == "\r\n") && IsHost(host)
    ensures var r := Replacement(nl, host);
            && IsManaged(r[0]) && !IsManaged(r[1]) && IsValue(r[1]) && Continues(r[0]) && Continues(r[1])
            && AllClose(r) && r[0] != "" && r[0][0] == ' ' && r[1][|r[1]| - 1] == '\n'
            && (EndsCrLf(r[0]) <==> nl == "\r\n") && (EndsCrLf(r[1]) <==> nl == "\r\n")
  {
    FirstLine(nl);
    SecondLine(nl, host);
    KeyEnds();
    hide IsManaged, IsValue, Continues, IsHost, IsTextLine, Closes, Key, EndsCrLf;
  }

  // ----- counting and finding over concatenations -----

  lemma {:induction false} HydroAppend(a: seq<string>, b: seq<string>)
    ensures HydroCount(a + b) == HydroCount(a) + HydroCount(b)
    ensures HydroCount(a) == 0 && HydroCount(b) >= 1 ==> FirstHydro(a + b) == |a| + FirstHydro(b)
  {
    hide IsHydro;
    if a == [] {
      assert a + b == b;
    } else {
      assert (a + b)[0] == a[0] && (a + b)[1..] == a[1..] + b;
      HydroAppend(a[1..], b);
    }
  }

  lemma {:induction false} HydroSplit(lines: seq<string>)
    requires HydroCount(lines) == 1
    ensures var n := FirstHydro(lines);
            n < |lines| && IsHydro(lines[n]) && HydroCount(lines[..n]) == 0 && HydroCount(lines[n + 1..]) == 0
  {
    hide IsHydro;
    if !IsHydro(lines[0]) {
      HydroSplit(lines[1..]);
      var n := FirstHydro(lines);
      assert lines[..n][1..] == lines[1..][..n - 1] && lines[n + 1..] == lines[1..][n..];
    } else {
      assert lines[..0] == [];
    }
  }

  lemma {:induction false} ContinuesNoHydro(lines: seq<string>)
    requires forall i :: 0 <= i < |lines| ==> Continues(lines[i])
    ensures HydroCount(lines) == 0
  {
    hide IsHydro, Continues;
    if lines != [] {
      NotHydro(lines[0]);
      ContinuesNoHydro(lines[1..]);
    }
  }

  lemma {:induction false} LeadIs(lines: seq<string>)
    ensures var n := Lead(lines);
            (forall i :: 0 <= i < n ==> Continues(lines[i])) && (n < |lines| ==> !Continues(lines[n]))
  {
    hide Continues;
    if lines != [] && Continues(lines[0]) {
      LeadIs(lines[1..]);
      assert forall i :: 0 < i < Lead(lines) ==> lines[i] == lines[1..][i - 1];
    }
  }

  lemma {:induction false} LeadOf(body: seq<string>, tail: seq<string>)
    requires (forall i :: 0 <= i < |body| ==> Continues(body[i])) && (tail == [] || !Continues(tail[0]))
    ensures Lead(body + tail) == |body|
  {
    hide Continues;
    if body == [] {
      assert body + tail == tail;
    } else {
      assert (body + tail)[0] == body[0] && (body + tail)[1..] == body[1..] + tail;
      LeadOf(body[1..], tail);
    }
  }

  lemma {:induction false} ManagedAppend(a: seq<string>, b: seq<string>)
    ensures ManagedCount(a + b) == ManagedCount(a) + ManagedCount(b)
    ensures ManagedCount(a) == 0 ==> FirstManaged(a + b) == |a| + FirstManaged(b)
  {
    hide IsManaged;
    if a == [] {
      assert a + b == b;
    } else {
      assert (a + b)[0] == a[0] && (a + b)[1..] == a[1..] + b;
      ManagedAppend(a[1..], b);
    }
  }

  lemma {:induction false} ManagedSplit(lines: seq<string>)
    ensures ManagedCount(lines[..FirstManaged(lines)]) == 0
    ensures FirstManaged(lines) < |lines| ==>
              IsManaged(lines[FirstManaged(lines)])
              && ManagedCount(lines) == 1 + ManagedCount(lines[FirstManaged(lines) + 1..])
  {
    hide IsManaged;
    var n := FirstManaged(lines);
    if lines != [] && !IsManaged(lines[0]) {
      ManagedSplit(lines[1..]);
      assert lines[..n][1..] == lines[1..][..n - 1];
      assert n < |lines| ==> lines[n + 1..] == lines[1..][n..];
    } else if lines != [] {
      assert lines[..0] == [];
    }
  }

  lemma {:induction false} ManagedRest(lines: seq<string>, k: nat)
    requires ManagedCount(lines) == 0 && k <= |lines|
    ensures ManagedCount(lines[k..]) == 0
  {
    assert lines == lines[..k] + lines[k..];
    ManagedAppend(lines[..k], lines[k..]);
  }

  lemma {:induction false} ValueStops(lines: seq<string>)
    ensures var rest := lines[ValueLead(lines)..]; rest == [] || !IsValue(rest[0])
  {
    hide IsValue;
    if lines != [] && IsValue(lines[0]) {
      ValueStops(lines[1..]);
      assert lines[ValueLead(lines)..] == lines[1..][ValueLead(lines[1..])..];
    }
  }

  // ----- the block after one edit -----

  /** A block as the second edit finds it: the two lines of the first one, and no other managed key. */
  ghost predicate Shaped(head: string, before: seq<string>, after: seq<string>, nl: string, host: string) {
    && IsHydro(head) && IsHost(host) && (nl == "\n" || nl == "\r\n")
    && ManagedCount(before) == 0 && ManagedCount(after) == 0 && (after == [] || !IsValue(after[0]))
    && (forall i :: 0 <= i < |before| ==> Continues(before[i]))
    && (forall i :: 0 <= i < |after| ==> Continues(after[i]))
  }

  function Laid(head: string, before: seq<string>, after: seq<string>, nl: string, host: string): seq<string> {
    [head] + before + Replacement(nl, host) + after
  }

  lemma ManagedOnce(before: seq<string>, r: seq<string>, after: seq<string>)
    requires |r| == 2 && IsManaged(r[0]) && !IsManaged(r[1]) && ManagedCount(before) == 0 && ManagedCount(after) == 0
    ensures ManagedCount(before + r + after) == 1 && FirstManaged(before + r + after) == |before|
  {
    hide IsManaged;
    var rest := [r[1]] + after;
    assert before + r + after == before + ([r[0]] + rest);
    OneManaged(r[0]);
    OneManaged(r[1]);
    ManagedAppend([r[1]], after);
    ManagedAppend([r[0]], rest);
    ManagedAppend(before, [r[0]] + rest);
    assert FirstManaged([r[0]] + rest) == 0;
  }

  lemma ReplacedBy(head: string, before: seq<string>, r: seq<string>, after: seq<string>, nl: string, next: string)
    requires |r| == 2 && IsValue(r[1]) && (after == [] || !IsValue(after[0]))
    requires FirstManaged(before + r + after) == |before|
    ensures NewBlock(head, before + r + after, nl, next) == Laid(head, before, after, nl, next)
  {
    hide IsManaged, IsValue, Replacement, Closed;
    var body := before + r + after;
    ValueOne(r[1], after);
    assert body[|before| + 1..] == [r[1]] + after && body[..|before|] == before;
    assert ([r[1]] + after)[1..] == after;
  }

  /** The next edit of a shaped block replaces exactly the two lines. */
  lemma EditAgain(head: string, before: seq<string>, after: seq<string>, nl: string, host: string, next: string)
    requires Shaped(head, before, after, nl, host)
    ensures var body := before + Replacement(nl, host) + after;
            && ManagedCount(body) == 1 && (forall i :: 0 <= i < |body| ==> Continues(body[i]))
            && NewBlock(head, body, nl, next) == Laid(head, before, after, nl, next)
  {
    hide IsManaged, Replacement, IsHost, IsHydro, IsValue, Continues, AllClose, NewBlock, Laid;
    ReplacementFacts(nl, host);
    ManagedOnce(before, Replacement(nl, host), after);
    ReplacedBy(head, before, Replacement(nl, host), after, nl, next);
  }

  lemma OneManaged(line: string)
    ensures ManagedCount([line]) == if IsManaged(line) then 1 else 0
  {
    hide IsManaged;
    assert [line][1..] == [];
  }

  lemma ValueOne(line: string, after: seq<string>)
    requires IsValue(line) && (after == [] || !IsValue(after[0]))
    ensures ValueLead([line] + after) == 1
  {
    hide IsValue;
    assert ([line] + after)[1..] == after;
  }

  ghost predicate Closable(block: seq<string>) {
    block != [] && AreTextLines(block)
  }

  /** The first edit shapes the block, the same way whatever host it writes; what follows the two
      lines is what followed before. */
  lemma EditShapes(head: string, body: seq<string>, nl: string, host: string)
    returns (first: string, before: seq<string>, k: nat)
    requires IsHydro(head) && IsHost(host) && (nl == "\n" || nl == "\r\n") && ManagedCount(body) <= 1
    requires (forall i :: 0 <= i < |body| ==> Continues(body[i])) && Closable([head] + body)
    ensures k <= |body| && Shaped(first, before, body[k..], nl, host)
    ensures forall h :: NewBlock(head, body, nl, h) == Laid(first, before, body[k..], nl, h)
    ensures AllClose([first] + before) && (Plain([head] + body) && nl == "\n" ==> Plain([first] + before))
  {
    ManagedSplit(body);
    hide *;
    if FirstManaged(body) == |body| {
      first, before := AddShapes(head, body, nl, host);
      k := |body|;
    } else {
      k := ReplaceShapes(head, body, nl, host);
      first, before := head, body[..FirstManaged(body)];
    }
  }

  /** There is no key yet. */
  lemma AddShapes(head: string, body: seq<string>, nl: string, host: string)
    returns (first: string, before: seq<string>)
    requires IsHydro(head) && IsHost(host) && (nl == "\n" || nl == "\r\n") && FirstManaged(body) == |body|
    requires (forall i :: 0 <= i < |body| ==> Continues(body[i])) && Closable([head] + body)
    ensures Shaped(first, before, body[|body|..], nl, host)
    ensures forall h :: NewBlock(head, body, nl, h) == Laid(first, before, body[|body|..], nl, h)
    ensures AllClose([first] + before) && (Plain([head] + body) && nl == "\n" ==> Plain([first] + before))
  {
    ManagedSplit(body);
    hide IsManaged, Replacement, IsHost, IsHydro, IsValue, Continues, AllClose, Plain, Closable, Closed, FirstManaged;
    assert body[..|body|] == body && body[|body|..] == [];
    first, before := ClosedParts(head, body, nl);
    forall h ensures NewBlock(head, body, nl, h) == Laid(first, before, body[|body|..], nl, h) {
      assert [first] + before + Replacement(nl, h) + [] == ([first] + before) + Replacement(nl, h);
    }
  }

  /** The key is there. */
  lemma ReplaceShapes(head: string, body: seq<string>, nl: string, host: string) returns (k: nat)
    requires IsHydro(head) && IsHost(host) && (nl == "\n" || nl == "\r\n") && ManagedCount(body) <= 1
    requires FirstManaged(body) < |body|
    requires (forall i :: 0 <= i < |body| ==> Continues(body[i])) && Closable([head] + body)
    ensures k <= |body| && Shaped(head, body[..FirstManaged(body)], body[k..], nl, host)
    ensures forall h :: NewBlock(head, body, nl, h) == Laid(head, body[..FirstManaged(body)], body[k..], nl, h)
    ensures var front := [head] + body[..FirstManaged(body)];
            AllClose(front) && (Plain([head] + body) ==> Plain(front))
  {
    var m := FirstManaged(body);
    ManagedSplit(body);
    hide IsManaged, Replacement, IsHost, IsHydro, IsValue, Continues, AllClose, Plain, Closable, Closed, FirstManaged;
    var rest := body[m + 1..];
    k := m + 1 + ValueLead(rest);
    assert rest[ValueLead(rest)..] == body[k..];
    ValueStops(rest);
    ManagedRest(rest, ValueLead(rest));
    FrontEnded(head, body, m);
  }

  lemma FrontEnded(head: string, body: seq<string>, m: nat)
    requires Closable([head] + body) && m < |body|
    ensures AllClose([head] + body[..m]) && (Plain([head] + body) ==> Plain([head] + body[..m]))
  {
    var all := [head] + body;
    assert [head] + body[..m] == all[0..m + 1];
    Piece(all, 0, m + 1);
    hide AreTextLines, AllClose, EndsCrLf;
  }

  /** Closing the block ends its last line, the hydro line itself when nothing follows it. */
  lemma ClosedParts(head: string, body: seq<string>, nl: string) returns (first: string, before: seq<string>)
    requires IsHydro(head) && (nl == "\n" || nl == "\r\n") && ManagedCount(body) == 0
    requires (forall i :: 0 <= i < |body| ==> Continues(body[i])) && Closable([head] + body)
    ensures Closed([head] + body, nl) == [first] + before
    ensures IsHydro(first) && ManagedCount(before) == 0 && forall i :: 0 <= i < |before| ==> Continues(before[i])
    ensures AllClose([first] + before) && (Plain([head] + body) && nl == "\n" ==> Plain([first] + before))
  {
    hide IsManaged, IsHydro, Continues, AllClose, Plain, Closable;
    ClosedEnds([head] + body, nl);
    if body == [] {
      ClosedLine(head, nl);
      before := [];
      first := Closed([head], nl)[0];
      assert [head] + body == [head] && [first] + before == [first];
    } else {
      first := head;
      before := Closed(body, nl);
      ClosedBody(body, nl);
      ClosedBehind(head, body, nl);
    }
  }

  lemma ClosedBehind(head: string, body: seq<string>, nl: string)
    requires body != []
    ensures Closed([head] + body, nl) == [head] + Closed(body, nl)
  {
    var front, last := body[..|body| - 1], body[|body| - 1];
    assert ([head] + body)[..|body|] == [head] + front;
    assert [head] + (front + [last + nl]) == [head] + front + [last + nl];
  }

  lemma ClosedBody(body: seq<string>, nl: string)
    requires body != [] && (nl == "\n" || nl == "\r\n") && ManagedCount(body) == 0
    requires forall i :: 0 <= i < |body| ==> Continues(body[i])
    ensures ManagedCount(Closed(body, nl)) == 0 && forall i :: 0 <= i < |Closed(body, nl)| ==>
              Continues(Closed(body, nl)[i])
  {
    hide IsManaged, Continues, ManagedCount;
    var front, last := body[..|body| - 1], body[|body| - 1];
    assert body == front + [last];
    ManagedAppend(front, [last]);
    ManagedAppend(front, [last + nl]);
    ContinuesThere(last);
    ClosedLine(last, nl);
    OneManaged(last);
    OneManaged(last + nl);
  }

  /** A line that is not closed has no break at all. */
  lemma NoBreak(line: string)
    requires IsTextLine(line) && !Closes(line)
    ensures '\n' !in line && '\r' !in line
  {
    forall i | 0 <= i < |line| ensures !Breaks(line[i]) {}
  }

  lemma ClosedEnds(block: seq<string>, nl: string)
    requires Closable(block) && (nl == "\n" || nl == "\r\n")
    ensures AllClose(Closed(block, nl)) && (Plain(block) && nl == "\n" ==> Plain(Closed(block, nl)))
  {
    var front, last := block[..|block| - 1], block[|block| - 1];
    assert IsTextLine(last) && block == front + [last];
    if !Closes(last) {
      NoBreak(last);
      EndLine(last, nl);
      Piece(block, 0, |block| - 1);
      assert block[0..|block| - 1] == front;
      assert (last + nl)[0] == last[0];
      hide IsTextLine, Closes, EndsCrLf;
      CloseThenLines(front, [last + nl]);
    }
  }

  lemma ContinuesThere(line: string)
    requires Continues(line)
    ensures line != ""
  {}

  // ----- whole files -----

  /** What a successful merge found. */
  ghost predicate Found(s: string, a: seq<string>, head: string, body: seq<string>, tail: seq<string>) {
    && SplitLines(s) == a + ([head] + body) + tail && HydroCount(a) == 0 && HydroCount(tail) == 0 && IsHydro(head)
    && (forall i :: 0 <= i < |body| ==> Continues(body[i])) && ManagedCount(body) <= 1
    && (tail == [] || (!Continues(tail[0]) && IsTopKey(tail[0])))
  }

  lemma HydroWhere(a: seq<string>, head: string, body: seq<string>, tail: seq<string>)
    requires HydroCount(a) == 0 && HydroCount(tail) == 0 && IsHydro(head) && forall i :: 0 <= i < |body| ==>
               Continues(body[i])
    ensures var lines := a + ([head] + body) + tail; HydroCount(lines) == 1 && FirstHydro(lines) == |a|
  {
    hide IsHydro, Continues;
    assert a + ([head] + body) + tail == a + ([head] + (body + tail));
    ContinuesNoHydro(body);
    OneHydro(head, body + tail);
    hide HydroCount, FirstHydro;
    HydroAppend(body, tail);
    HydroAppend([head], body + tail);
    HydroAppend(a, [head] + (body + tail));
  }

  lemma Pieces(a: seq<string>, head: string, body: seq<string>, tail: seq<string>)
    ensures var lines := a + ([head] + body) + tail;
            && lines[|a| + 1..] == body + tail && lines[..|a|] == a && lines[|a|] == head
            && (body + tail)[..|body|] == body && (body + tail)[|body|..] == tail
  {}

  /** A text of that form merges to the new block between the old rest. */
  lemma MergesTo(s: string, a: seq<string>, head: string, body: seq<string>, tail: seq<string>, host: string)
    requires Found(s, a, head, body, tail) && IsHost(host)
    ensures Merge(s, host) == Ok(Join(a + NewBlock(head, body, Newline(s), host) + tail))
  {
    hide IsManaged, IsHost, IsHydro, Continues, IsTopKey, NewBlock, Newline, Join, SplitLines, HydroCount,
      FirstHydro, Lead, ManagedCount;
    HydroWhere(a, head, body, tail);
    Pieces(a, head, body, tail);
    LeadOf(body, tail);
  }

  lemma OneHydro(head: string, rest: seq<string>)
    requires IsHydro(head)
    ensures HydroCount([head]) == 1 && FirstHydro([head] + rest) == 0
  {
    hide IsHydro;
    assert [head][1..] == [];
  }

  lemma Finds(s: string, host: string) returns (a: seq<string>, head: string, body: seq<string>, tail: seq<string>)
    requires Merge(s, host).Ok?
    ensures IsHost(host) && Found(s, a, head, body, tail)
  {
    hide IsManaged, IsHost, IsHydro, Continues, IsTopKey, NewBlock, Newline, Join, SplitLines, HydroCount,
      FirstHydro, Lead, ManagedCount;
    var lines := SplitLines(s);
    HydroSplit(lines);
    var start := FirstHydro(lines);
    var rest := lines[start + 1..];
    a, head, body, tail := lines[..start], lines[start], rest[..Lead(rest)], rest[Lead(rest)..];
    LeadIs(rest);
    Whole(lines, start, Lead(rest));
    ContinuesNoHydro(body);
    HydroAppend(body, tail);
  }

  lemma Whole(lines: seq<string>, start: nat, n: nat)
    requires start < |lines| && n <= |lines| - start - 1
    ensures var rest := lines[start + 1..];
            rest == rest[..n] + rest[n..] && lines == lines[..start] + ([lines[start]] + rest[..n]) + rest[n..]
  {}

  /** The pieces of the file as lines. */
  lemma PiecesAreLines(s: string, a: seq<string>, block: seq<string>, tail: seq<string>)
    requires SplitLines(s) == a + block + tail && block != []
    ensures AllClose(a) && Closable(block) && AreTextLines(tail) && AreTextLines(a + block + tail)
    ensures !HasCrLf(s) ==> Plain(a) && Plain(block) && Plain(tail)
  {
    var lines := a + block + tail;
    JoinSplitLines(s);
    JoinCrLf(lines);
    hide SplitLines, AreTextLines, AllClose, HasCrLf, EndsCrLf, Join, Plain;
    Thirds(a, block, tail);
    PlainParts(a, block, tail);
  }

  lemma Thirds(a: seq<string>, b: seq<string>, c: seq<string>)
    requires AreTextLines(a + b + c) && b != []
    ensures AllClose(a) && AreTextLines(b) && AreTextLines(c)
  {
    var lines := a + b + c;
    Piece(lines, 0, |a|);
    Piece(lines, |a|, |a| + |b|);
    Piece(lines, |a| + |b|, |lines|);
    hide AreTextLines, AllClose;
    assert lines[0..|a|] == a && lines[|a|..|a| + |b|] == b && lines[|a| + |b|..|lines|] == c;
  }

  /** The result of a merge, as lines: everything else is where it was, and newlines are as before. */
  lemma MergedLines(s: string, a: seq<string>, first: string, before: seq<string>, after: seq<string>,
                    tail: seq<string>, host: string)
    requires Shaped(first, before, after, Newline(s), host) && AllClose(a) && AllClose([first] + before)
             && AreTextLines(after + tail)
    requires !HasCrLf(s) ==> Plain(a) && Plain([first] + before) && Plain(after + tail)
    ensures var all := a + Laid(first, before, after, Newline(s), host) + tail;
            SplitLines(Join(all)) == all && Newline(Join(all)) == Newline(s)
  {
    var r := Replacement(Newline(s), host);
    NewlineIs(s);
    ReplacementFacts(Newline(s), host);
    assert first[0] == 'h' by { assert "hydro:"[0] == 'h'; }
    hide Shaped, IsManaged, IsValue, Continues, IsHost, IsHydro, Replacement;
    var front := a + ([first] + before);
    var all := a + Laid(first, before, after, Newline(s), host) + tail;
    assert all == front + r + (after + tail);
    AllAreLines(a, first, before, r, after + tail);
    hide Laid, AreTextLines, AllClose, HasCrLf, SplitLines, Join, EndsCrLf;
    SplitLinesJoin(all);
    JoinCrLf(all);
    PlainParts(front, r, after + tail);
    PlainParts(a, [first] + before, []);
    assert a + ([first] + before) + [] == front;
    PlainTwo(r);
    assert HasCrLf(Join(all)) <==> HasCrLf(s);
  }

  lemma AllAreLines(a: seq<string>, first: string, before: seq<string>, r: seq<string>, rest: seq<string>)
    requires AllClose(a) && AllClose([first] + before) && AreTextLines(rest) && first != "" && first[0] == 'h'
    requires |r| == 2 && AllClose(r) && r[0] != "" && r[0][0] == ' ' && r[1] != "" && r[1][|r[1]| - 1] == '\n'
    ensures AreTextLines(a + ([first] + before) + r + rest)
  {
    hide AreTextLines, Closes;
    CloseThenLines(a, [first] + before);
    CloseThenLines(a + ([first] + before), r);
    CloseThenLines(a + ([first] + before) + r, rest);
  }

  lemma PlainParts(a: seq<string>, b: seq<string>, c: seq<string>)
    ensures Plain(a + b + c) <==> Plain(a) && Plain(b) && Plain(c)
  {
    hide EndsCrLf;
    var all := a + b + c;
    assert forall i :: 0 <= i < |a| ==> a[i] == all[i];
    assert forall i :: 0 <= i < |b| ==> b[i] == all[|a| + i];
    assert forall i :: 0 <= i < |c| ==> c[i] == all[|a| + |b| + i];
  }

  lemma PlainTwo(r: seq<string>)
    requires |r| == 2
    ensures Plain(r) <==> !EndsCrLf(r[0]) && !EndsCrLf(r[1])
  {
    hide EndsCrLf;
  }

  /** The last write wins: writing one host and then another is writing the second alone, and where
      the first cannot be written the second fails with the same error. */
  lemma LastWriteWins(s: string, first: string, second: string)
    requires IsHost(second)
    ensures Merge(s, first).Ok? ==> Merge(Merge(s, first).text, second) == Merge(s, second)
    ensures Merge(s, first).Err? && IsHost(first) ==> Merge(s, second) == Merge(s, first)
  {
    if Merge(s, first).Ok? {
      hide *;
      SecondWins(s, first, second);
    } else if IsHost(first) {
      hide IsHost, SplitLines, Join, NewBlock, Newline, IsTopKey;
    }
  }

  lemma SecondWins(s: string, first: string, second: string)
    requires Merge(s, first).Ok? && IsHost(second)
    ensures Merge(Merge(s, first).text, second) == Merge(s, second)
  {
    hide Merge, HasCrLf, Newline, SplitLines, Join, IsHost, NewBlock, Laid, Shaped, AllClose, Plain, AreTextLines,
      Closable;
    var nl := Newline(s);
    NewlineIs(s);
    var a, head, body, tail := Finds(s, first);
    FoundParts(s, a, head, body, tail);
    PiecesAreLines(s, a, [head] + body, tail);
    var newHead, before, k := EditShapes(head, body, nl, first);
    var after := body[k..];
    SuffixLines(a, head, body, tail, k);
    MergedLines(s, a, newHead, before, after, tail, first);
    MergesTo(s, a, head, body, tail, first);
    MergesTo(s, a, head, body, tail, second);
    var d := Merge(s, first).text;
    EditAgain(newHead, before, after, nl, first, second);
    FoundAgain(s, d, a, head, body, tail, newHead, before, after, first);
    MergesTo(d, a, newHead, before + Replacement(nl, first) + after, tail, second);
  }

  lemma NewlineIs(s: string)
    ensures Newline(s) == "\n" || Newline(s) == "\r\n"
    ensures !HasCrLf(s) ==> Newline(s) == "\n"
  {
    hide HasCrLf;
  }

  lemma FoundParts(s: string, a: seq<string>, head: string, body: seq<string>, tail: seq<string>)
    requires Found(s, a, head, body, tail)
    ensures SplitLines(s) == a + ([head] + body) + tail && IsHydro(head) && ManagedCount(body) <= 1
    ensures forall i :: 0 <= i < |body| ==> Continues(body[i])
  {
    hide SplitLines, IsHydro, Continues, IsTopKey;
  }

  lemma SuffixLines(a: seq<string>, head: string, body: seq<string>, tail: seq<string>, k: nat)
    requires AreTextLines(a + ([head] + body) + tail) && k <= |body|
    ensures AreTextLines(body[k..] + tail)
    ensures Plain([head] + body) && Plain(tail) ==> Plain(body[k..] + tail)
  {
    var lines, rest := a + ([head] + body) + tail, body[k..] + tail;
    Piece(lines, |a| + 1 + k, |lines|);
    assert lines[|a| + 1 + k..|lines|] == rest;
    hide AreTextLines, AllClose, EndsCrLf;
    assert forall i :: 0 <= i < |body| ==> ([head] + body)[i + 1] == body[i];
  }

  lemma FoundAgain(s: string, d: string, a: seq<string>, head: string, body: seq<string>, tail: seq<string>,
                   newHead: string, before: seq<string>, after: seq<string>, host: string)
    requires Found(s, a, head, body, tail) && Shaped(newHead, before, after, Newline(s), host)
    requires SplitLines(d) == a + Laid(newHead, before, after, Newline(s), host) + tail
    requires var next := before + Replacement(Newline(s), host) + after;
             ManagedCount(next) == 1 && forall i :: 0 <= i < |next| ==> Continues(next[i])
    ensures Found(d, a, newHead, before + Replacement(Newline(s), host) + after, tail)
  {
    hide SplitLines, IsHydro, Continues, IsTopKey, Newline, Replacement, IsManaged, IsHost;
    var r := Replacement(Newline(s), host);
    assert [newHead] + before + r + after == [newHead] + (before + r + after);
  }

  lemma {:induction false} ValueLeadAll(lines: seq<string>)
    ensures forall i :: 0 <= i < ValueLead(lines) ==> IsValue(lines[i])
  {
    hide IsValue;
    if lines != [] && IsValue(lines[0]) {
      ValueLeadAll(lines[1..]);
      assert forall i :: 0 < i < ValueLead(lines) ==> lines[i] == lines[1..][i - 1];
    }
  }

  /** What a successful merge made of the lines: `cut` is the key with its values, if it was there. */
  ghost predicate Replaces(s: string, text: string, host: string, kept: seq<string>, cut: seq<string>,
                           rest: seq<string>)
  {
    && SplitLines(s) == kept + cut + rest && kept != []
    && (cut != [] ==> IsManaged(cut[0]) && forall i :: 1 <= i < |cut| ==> IsValue(cut[i]))
    && var nl := Newline(s);
       text == Join((if cut == [] then Closed(kept, nl) else kept)
                    + ["  notify_allowed_https_hosts:" + nl, "    - \"" + host + "\"" + nl] + rest)
  }

  /** The two lines, written out. */
  lemma ReplacementText(nl: string, host: string)
    ensures Replacement(nl, host) == ["  notify_allowed_https_hosts:" + nl, "    - \"" + host + "\"" + nl]
  {
    assert Key() + ":" == "  notify_allowed_https_hosts:";
  }

  /** Every line but the managed key's own is kept, in its place, up to a missing final newline. */
  lemma OnlyTheKeyChanges(s: string, host: string) returns (kept: seq<string>, cut: seq<string>, rest: seq<string>)
    requires Merge(s, host).Ok?
    ensures Replaces(s, Merge(s, host).text, host, kept, cut, rest)
  {
    hide *;
    var a, head, body, tail := Finds(s, host);
    FoundParts(s, a, head, body, tail);
    MergesTo(s, a, head, body, tail, host);
    if FirstManaged(body) == |body| {
      kept, cut, rest := KeyAdded(s, a, head, body, tail, host);
    } else {
      kept, cut, rest := KeyReplaced(s, a, head, body, tail, host);
    }
  }

  lemma KeyAdded(s: string, a: seq<string>, head: string, body: seq<string>, tail: seq<string>, host: string)
    returns (kept: seq<string>, cut: seq<string>, rest: seq<string>)
    requires SplitLines(s) == a + ([head] + body) + tail && FirstManaged(body) == |body|
    ensures Replaces(s, Join(a + NewBlock(head, body, Newline(s), host) + tail), host, kept, cut, rest)
  {
    ReplacementText(Newline(s), host);
    hide IsManaged, Newline, Join, SplitLines, IsValue, Replacement, Closed, FirstManaged;
    kept, cut, rest := a + ([head] + body), [], tail;
    ClosedAfter(a, [head] + body, Newline(s));
    Spread(a, Closed([head] + body, Newline(s)), Replacement(Newline(s), host), tail);
  }

  lemma Spread(a: seq<string>, b: seq<string>, r: seq<string>, c: seq<string>)
    ensures a + (b + r) + c == a + b + r + c && a + b + [] + c == a + b + c
  {}

  lemma KeyReplaced(s: string, a: seq<string>, head: string, body: seq<string>, tail: seq<string>, host: string)
    returns (kept: seq<string>, cut: seq<string>, rest: seq<string>)
    requires SplitLines(s) == a + ([head] + body) + tail && FirstManaged(body) < |body|
    ensures Replaces(s, Join(a + NewBlock(head, body, Newline(s), host) + tail), host, kept, cut, rest)
  {
    ReplacementText(Newline(s), host);
    hide IsManaged, Newline, Join, SplitLines, IsValue, Replacement, Closed;
    var m := FirstManaged(body);
    ManagedSplit(body);
    hide FirstManaged, ManagedCount;
    var after := body[m + 1..];
    var n := ValueLead(after);
    ValueLeadAll(after);
    hide ValueLead;
    kept, cut, rest := a + [head] + body[..m], [body[m]] + after[..n], after[n..] + tail;
    assert forall i :: 1 <= i < |cut| ==> cut[i] == after[i - 1];
    CutBody(a, head, body, tail, m, n, Replacement(Newline(s), host));
  }

  lemma CutBody(a: seq<string>, head: string, body: seq<string>, tail: seq<string>, m: nat, n: nat, r: seq<string>)
    requires m < |body| && n <= |body| - m - 1
    ensures var after := body[m + 1..];
            && a + ([head] + body) + tail == (a + [head] + body[..m]) + ([body[m]] + after[..n]) + (after[n..] + tail)
            && a + ([head] + body[..m] + r + after[n..]) + tail == (a + [head] + body[..m]) + r + (after[n..] + tail)
  {
    var after := body[m + 1..];
    assert body == body[..m] + ([body[m]] + (after[..n] + after[n..]));
  }

  lemma ClosedAfter(a: seq<string>, block: seq<string>, nl: string)
    requires block != []
    ensures Closed(a + block, nl) == a + Closed(block, nl)
  {
    var last := block[|block| - 1];
    assert (a + block)[..|a + block| - 1] == a + block[..|block| - 1];
    assert a + (block[..|block| - 1] + [last + nl]) == a + block[..|block| - 1] + [last + nl];
  }
}
