/**
 The streaming input normaliser of the Hydro addon.  Test data arrives in arbitrary
 chunks; the bytes handed to the hash must be those of the short whole-buffer form
 used by the artifact generator: CRLF and CR become LF, every line is stripped on the
 right, the whole is stripped on both sides.
 */
module InputNormaliser {

  type Byte = b: int | 0 <= b < 256

  const LF: Byte := 0x0a
  const CR: Byte := 0x0d

  predicate White(b: Byte) {
    b == 0x09 || b == 0x0a || b == 0x0b || b == 0x0c || b == 0x0d || b == 0x20
  }

  ghost predicate AllWhite(s: seq<Byte>) {
    forall i :: 0 <= i < |s| ==> White(s[i])
  }

  // ----- the whole-buffer form -----

  function ReplaceCrLf(s: seq<Byte>): seq<Byte> {
    if s == [] then []
    else if |s| >= 2 && s[0] == CR && s[1] == LF then [LF] + ReplaceCrLf(s[2..])
    else [s[0]] + ReplaceCrLf(s[1..])
  }

  function ReplaceCr(s: seq<Byte>): seq<Byte> {
    if s == [] then [] else [if s[0] == CR then LF else s[0]] + ReplaceCr(s[1..])
  }

  function Split(s: seq<Byte>): (lines: seq<seq<Byte>>)
    ensures |lines| >= 1
  {
    if s == [] then [[]]
    else
      var rest := Split(s[1..]);
      if s[0] == LF then [[]] + rest else [[s[0]] + rest[0]] + rest[1..]
  }

  function Join(lines: seq<seq<Byte>>): seq<Byte> {
    if lines == [] then []
    else if |lines| == 1 then lines[0]
    else Join(lines[..|lines| - 1]) + [LF] + lines[|lines| - 1]
  }

  function RStrip(s: seq<Byte>): seq<Byte> {
    if s != [] && White(s[|s| - 1]) then RStrip(s[..|s| - 1]) else s
  }

  function LStrip(s: seq<Byte>): seq<Byte> {
    if s != [] && White(s[0]) then LStrip(s[1..]) else s
  }

  function RStripLines(lines: seq<seq<Byte>>): (r: seq<seq<Byte>>)
  {
    seq(|lines|, i requires 0 <= i < |lines| => RStrip(lines[i]))
  }

  function Normalised(s: seq<Byte>): seq<Byte> {
    ReplaceCr(ReplaceCrLf(s))
  }

  function Canonical(s: seq<Byte>): seq<Byte> {
    LStrip(RStrip(Join(RStripLines(Split(Normalised(s))))))
  }

  ghost predicate LineTooLong(s: seq<Byte>, maxLineBytes: nat) {
    exists line :: line in Split(Normalised(s)) && |line| > maxLineBytes
  }

  function Concat(chunks: seq<seq<Byte>>): seq<Byte> {
    if chunks == [] then [] else Concat(chunks[..|chunks| - 1]) + chunks[|chunks| - 1]
  }

  // ----- newline conversion with a carried CR -----

  function Convert(s: seq<Byte>, afterCr: bool): seq<Byte> {
    if s == [] then []
    else if afterCr && s[0] == LF then Convert(s[1..], false)
    else if s[0] == CR then [LF] + Convert(s[1..], true)
    else [s[0]] + Convert(s[1..], false)
  }

  predicate EndsInCr(s: seq<Byte>, afterCr: bool) {
    if s == [] then afterCr else s[|s| - 1] == CR
  }

  lemma {:induction false} ConvertAppend(a: seq<Byte>, b: seq<Byte>, afterCr: bool)
    ensures Convert(a + b, afterCr) == Convert(a, afterCr) + Convert(b, EndsInCr(a, afterCr))
  {
    if a == [] {
      assert a + b == b;
    } else {
      assert (a + b)[1..] == a[1..] + b;
      ConvertAppend(a[1..], b, !(afterCr && a[0] == LF) && a[0] == CR);
    }
  }

  lemma ConvertStart(s: seq<Byte>, afterCr: bool)
    ensures Convert([], afterCr) == []
    ensures Convert(s, afterCr)
            == if afterCr && s != [] && s[0] == LF then Convert(s[1..], false) else Convert(s, false)
  {}

  /** The same from position `i`, one source position at a time. */
  function ConvertFrom(s: seq<Byte>, i: nat): seq<Byte>
    decreases |s| - i
  {
    if i >= |s| then []
    else [if s[i] == CR then LF else s[i]] + ConvertFrom(s, NextIndex(s, i))
  }

  function NextIndex(s: seq<Byte>, i: nat): nat
    requires i < |s|
  {
    if s[i] == CR && i + 1 < |s| && s[i + 1] == LF then i + 2 else i + 1
  }

  lemma {:induction false} ConvertFromIsConvert(s: seq<Byte>, i: nat)
    requires i <= |s|
    ensures ConvertFrom(s, i) == Convert(s[i..], false)
    decreases |s| - i
  {
    if i < |s| {
      ConvertFromIsConvert(s, NextIndex(s, i));
      assert s[i..][1..] == s[i + 1..];
      if i + 1 < |s| {
        assert s[i + 1..][1..] == s[i + 2..];
      }
    }
  }

  lemma {:induction false} ConvertIsReplace(s: seq<Byte>)
    ensures Convert(s, false) == Normalised(s)
    decreases |s|
  {
    if s == [] {
    } else if |s| >= 2 && s[0] == CR && s[1] == LF {
      ConvertIsReplace(s[2..]);
      assert s[1..][1..] == s[2..];
      assert ReplaceCrLf(s)[1..] == ReplaceCrLf(s[2..]);
    } else {
      ConvertIsReplace(s[1..]);
      assert ReplaceCrLf(s)[1..] == ReplaceCrLf(s[1..]);
      if s[0] == CR {
        assert Convert(s[1..], true) == Convert(s[1..], false);
      }
    }
  }

  // ----- lines -----

  /** The lines of two texts written one after the other: the last line of the first runs on. */
  ghost function Glue(x: seq<seq<Byte>>, y: seq<seq<Byte>>): (r: seq<seq<Byte>>)
    requires x != [] && y != []
    ensures |r| == |x| + |y| - 1
  {
    x[..|x| - 1] + [x[|x| - 1] + y[0]] + y[1..]
  }

  lemma GlueBehindBreak(x: seq<seq<Byte>>, y: seq<seq<Byte>>)
    requires x != [] && y != []
    ensures Glue([[]] + x, y) == [[]] + Glue(x, y)
  {
    var z := [[]] + x;
    assert z[..|z| - 1] == [[]] + x[..|x| - 1];
  }

  lemma GlueBehindByte(c: Byte, x: seq<seq<Byte>>, y: seq<seq<Byte>>)
    requires x != [] && y != []
    ensures Glue([[c] + x[0]] + x[1..], y) == [[c] + Glue(x, y)[0]] + Glue(x, y)[1..]
  {
    var z := [[c] + x[0]] + x[1..];
    var g := Glue(x, y);
    var l, r := Glue(z, y), [[c] + g[0]] + g[1..];
    assert [c] + (x[0] + y[0]) == ([c] + x[0]) + y[0];
    forall i | 0 <= i < |l| ensures l[i] == r[i] {}
  }

  lemma {:induction false} SplitAppend(a: seq<Byte>, b: seq<Byte>)
    ensures Split(a + b) == Glue(Split(a), Split(b))
  {
    if a == [] {
      assert a + b == b;
      assert [] + Split(b)[0] == Split(b)[0];
    } else {
      assert (a + b)[1..] == a[1..] + b;
      SplitAppend(a[1..], b);
      GlueBehindBreak(Split(a[1..]), Split(b));
      GlueBehindByte(a[0], Split(a[1..]), Split(b));
    }
  }

  lemma GlueClosed(done: seq<seq<Byte>>, cur: seq<Byte>, part: seq<Byte>, y: seq<seq<Byte>>)
    requires y != []
    ensures Glue(done + [cur], [part] + y) == Glue(done + [cur + part] + [[]], y) == done + [cur + part] + y
  {
    assert (done + [cur])[..|done|] == done;
    assert ([part] + y)[1..] == y;
    assert [] + y[0] == y[0];
    assert (done + [cur + part] + [[]])[..|done| + 1] == done + [cur + part];
    assert y == [y[0]] + y[1..];
  }

  lemma SplitAtBreak(part: seq<Byte>, rest: seq<Byte>)
    requires LF !in part
    ensures Split(part + ([LF] + rest)) == [part] + Split(rest)
  {
    SplitWithoutBreak(part);
    SplitAppend(part, [LF] + rest);
    SplitBehindBreak(rest);
    GlueOpen(part, Split(rest));
  }

  lemma SplitBehindBreak(rest: seq<Byte>)
    ensures Split([LF] + rest) == [[]] + Split(rest)
  {
    assert ([LF] + rest)[1..] == rest;
  }

  lemma GlueOpen(part: seq<Byte>, y: seq<seq<Byte>>)
    ensures Glue([part], [[]] + y) == [part] + y
  {
    assert part + [] == part;
    assert [part][..0] == [];
  }

  ghost predicate Fit(lines: seq<seq<Byte>>, maxLineBytes: nat) {
    forall i :: 0 <= i < |lines| ==> |lines[i]| <= maxLineBytes
  }

  lemma {:induction false} SplitWithoutBreak(s: seq<Byte>)
    requires LF !in s
    ensures Split(s) == [s]
  {
    if s != [] {
      SplitWithoutBreak(s[1..]);
      assert [s[0]] + s[1..] == s;
    }
  }

  // ----- stripping -----

  lemma {:induction false} RStripShape(s: seq<Byte>)
    ensures RStrip(s) <= s && AllWhite(s[|RStrip(s)|..])
    ensures RStrip(s) != [] ==> !White(RStrip(s)[|RStrip(s)| - 1])
  {
    if s != [] && White(s[|s| - 1]) {
      RStripShape(s[..|s| - 1]);
    }
  }

  lemma {:induction false} LStripShape(s: seq<Byte>)
    ensures |LStrip(s)| <= |s| && LStrip(s) == s[|s| - |LStrip(s)|..] && AllWhite(s[..|s| - |LStrip(s)|])
    ensures LStrip(s) != [] ==> !White(LStrip(s)[0])
  {
    if s != [] && White(s[0]) {
      LStripShape(s[1..]);
      var k := |s| - |LStrip(s)|;
      assert s[..k] == [s[0]] + s[1..][..k - 1];
      assert s[1..][k - 1..] == s[k..];
    }
  }

  lemma {:induction false} RStripUnique(keep: seq<Byte>, white: seq<Byte>)
    requires AllWhite(white) && (keep != [] ==> !White(keep[|keep| - 1]))
    ensures RStrip(keep + white) == keep
    decreases |white|
  {
    var s := keep + white;
    if white == [] {
      assert s == keep;
    } else {
      assert s[..|s| - 1] == keep + white[..|white| - 1];
      RStripUnique(keep, white[..|white| - 1]);
    }
  }

  lemma {:induction false} LStripUnique(white: seq<Byte>, keep: seq<Byte>)
    requires AllWhite(white) && (keep != [] ==> !White(keep[0]))
    ensures LStrip(white + keep) == keep
  {
    var s := white + keep;
    if white == [] {
      assert s == keep;
    } else {
      assert s[1..] == white[1..] + keep;
      LStripUnique(white[1..], keep);
    }
  }

  lemma RStripLinesAppend(lines: seq<seq<Byte>>, line: seq<Byte>)
    ensures RStripLines(lines + [line]) == RStripLines(lines) + [RStrip(line)]
  {}

  lemma JoinAppend(lines: seq<seq<Byte>>, line: seq<Byte>)
    ensures Join(lines + [line]) == if lines == [] then line else Join(lines) + [LF] + line
  {
    assert (lines + [line])[..|lines|] == lines;
  }

  /** What the hash has been fed for the finished `text`: nothing while everything was
      white; otherwise the text without its white lead and its `pending` trailing LFs. */
  ghost predicate Emitted(text: seq<Byte>, started: bool, pending: nat, out: seq<Byte>) {
    if !started then out == [] && AllWhite(text)
    else
      && out != [] && !White(out[0]) && !White(out[|out| - 1])
      && |out| + pending <= |text|
      && AllWhite(text[..|text| - pending - |out|])
      && out == text[|text| - pending - |out|..|text| - pending]
      && text[|text| - pending..] == Separators(pending)
  }

  function Separators(n: nat): seq<Byte> {
    seq(n, i => LF)
  }

  lemma EmittedIsStripped(text: seq<Byte>, started: bool, pending: nat, out: seq<Byte>)
    requires Emitted(text, started, pending, out)
    ensures out == LStrip(RStrip(text))
  {
    if started {
      var a, b := |text| - pending - |out|, |text| - pending;
      assert text == text[..a] + out + text[b..];
      RStripUnique(text[..a] + out, text[b..]);
      LStripUnique(text[..a], out);
    } else {
      assert text == [] + text;
      RStripUnique([], text);
    }
  }

  lemma EmittedBlank(text: seq<Byte>, started: bool, pending: nat, out: seq<Byte>)
    requires Emitted(text, started, pending, out)
    ensures Emitted(text + [LF], started, pending + 1, out)
  {
    if started {
      var t := text + [LF];
      var a := |text| - pending - |out|;
      assert t[..a] == text[..a];
      assert t[a..a + |out|] == text[a..a + |out|];
      assert t[a + |out|..] == text[a + |out|..] + [LF];
    }
  }

  lemma EmittedMore(text: seq<Byte>, pending: nat, out: seq<Byte>, kept: seq<Byte>)
    requires Emitted(text, true, pending, out)
    requires kept != [] && !White(kept[|kept| - 1])
    ensures Emitted(text + kept, true, 0, out + Separators(pending) + kept)
  {
    var a := |text| - pending - |out|;
    var t, o := text + kept, out + Separators(pending) + kept;
    assert t[..a] == text[..a];
    assert text == text[..a] + out + text[a + |out|..];
    assert t == text[..a] + o;
    assert t[|t|..] == [];
  }

  lemma EmittedWhite(text: seq<Byte>, pending: nat, line: seq<Byte>)
    requires Emitted(text, false, pending, []) && AllWhite(line)
    ensures Emitted(text + line, false, pending, [])
  {}

  lemma EmittedKept(text: seq<Byte>, white: seq<Byte>, kept: seq<Byte>)
    requires AllWhite(text) && AllWhite(white) && kept != [] && !White(kept[0]) && !White(kept[|kept| - 1])
    ensures Emitted(text + (white + kept), true, 0, kept)
  {
    var t := text + (white + kept);
    assert t == (text + white) + kept;
    assert t[..|text + white|] == text + white && t[|text + white|..|t|] == kept && t[|t|..] == [];
  }

  lemma EmittedFirst(text: seq<Byte>, pending: nat, line: seq<Byte>)
    requires Emitted(text, false, pending, []) && RStrip(line) == line
    ensures LStrip(line) == [] ==> Emitted(text + line, false, pending, [])
    ensures LStrip(line) != [] ==> Emitted(text + line, true, 0, LStrip(line))
  {
    LStripShape(line);
    RStripShape(line);
    var kept := LStrip(line);
    var white := line[..|line| - |kept|];
    assert AllWhite(text) && line == white + kept;
    hide RStrip, LStrip;
    if kept == [] {
      assert white == line;
      EmittedWhite(text, pending, line);
    } else {
      assert kept[|kept| - 1] == line[|line| - 1];
      hide Emitted;
      EmittedKept(text, white, kept);
    }
  }

  /** The line break in front of a further line. */
  lemma EmittedOpen(lines: seq<seq<Byte>>, started: bool, pending: nat, out: seq<Byte>)
    requires Emitted(Join(RStripLines(lines)), started, pending, out) && (lines == [] ==> !started)
    ensures var before := if lines == [] then [] else Join(RStripLines(lines)) + [LF];
            Emitted(before, started, pending + if lines == [] then 0 else 1, out)
  {
    if lines == [] {
      assert Join(RStripLines(lines)) == [];
    } else {
      EmittedBlank(Join(RStripLines(lines)), started, pending, out);
    }
    hide *;
  }

  lemma EmittedLine(before: seq<Byte>, started: bool, p: nat, out: seq<Byte>, r: seq<Byte>)
    requires Emitted(before, started, p, out) && RStrip(r) == r
    ensures var kept := if started then r else LStrip(r);
            if kept == [] then Emitted(before + r, started, p, out)
            else Emitted(before + r, true, 0, (if started then out + Separators(p) else out) + kept)
  {
    RStripShape(r);
    hide Emitted, RStrip, LStrip, Separators;
    if !started {
      EmittedNothing(before, p, out);
      EmittedFirst(before, p, r);
      assert out + LStrip(r) == LStrip(r);
    } else if r != [] {
      EmittedMore(before, p, out, r);
    } else {
      assert before + [] == before;
    }
  }

  /** One more finished line: what the addon then hands to the hash keeps `Emitted`. */
  lemma EmittedStep(lines: seq<seq<Byte>>, started: bool, pending: nat, out: seq<Byte>, line: seq<Byte>)
    requires Emitted(Join(RStripLines(lines)), started, pending, out)
    requires lines == [] ==> !started
    ensures var p := pending + if lines == [] then 0 else 1;
            var kept := if started then RStrip(line) else LStrip(RStrip(line));
            var text := Join(RStripLines(lines + [line]));
            if kept == [] then Emitted(text, started, p, out)
            else Emitted(text, true, 0, (if started then out + Separators(p) else out) + kept)
  {
    hide *;
    var before := if lines == [] then [] else Join(RStripLines(lines)) + [LF];
    JoinStripped(lines, line);
    EmittedOpen(lines, started, pending, out);
    RStripTwice(line);
    EmittedLine(before, started, pending + if lines == [] then 0 else 1, out, RStrip(line));
  }

  lemma RStripTwice(line: seq<Byte>)
    ensures RStrip(RStrip(line)) == RStrip(line)
  {
    RStripShape(line);
    RStripUnique(RStrip(line), []);
    assert RStrip(line) + [] == RStrip(line);
  }

  lemma EmittedNothing(text: seq<Byte>, pending: nat, out: seq<Byte>)
    requires Emitted(text, false, pending, out)
    ensures out == []
  {}

  lemma JoinStripped(lines: seq<seq<Byte>>, line: seq<Byte>)
    ensures Join(RStripLines(lines + [line]))
            == (if lines == [] then [] else Join(RStripLines(lines)) + [LF]) + RStrip(line)
    ensures lines == [] ==> Join(RStripLines(lines)) == []
  {
    RStripLinesAppend(lines, line);
    JoinAppend(RStripLines(lines), RStrip(line));
    assert [] + RStrip(line) == RStrip(line);
  }

  // ----- the streaming form -----

  datatype Outcome = TooLarge | Digest(hashed: seq<Byte>, bytes: nat)

  function Flatten(parts: seq<seq<Byte>>): seq<Byte> {
    if parts == [] then [] else Flatten(parts[..|parts| - 1]) + parts[|parts| - 1]
  }

  method TrimmedEnd(line: seq<Byte>) returns (end: nat)
    ensures end <= |line| && line[..end] == RStrip(line)
  {
    end := |line|;
    assert line[..end] == line;
    while end > 0 && White(line[end - 1])
      invariant 0 <= end <= |line| && RStrip(line) == RStrip(line[..end])
    {
      assert line[..end][..end - 1] == line[..end - 1];
      end := end - 1;
    }
  }

  method TrimmedStart(line: seq<Byte>) returns (start: nat)
    ensures start <= |line| && line[start..] == LStrip(line)
  {
    start := 0;
    while start < |line| && White(line[start])
      invariant 0 <= start <= |line| && LStrip(line) == LStrip(line[start..])
    {
      assert line[start..][1..] == line[start + 1..];
      start := start + 1;
    }
  }

  /** One step of the conversion, at position `i`. */
  lemma ConvertStep(s: seq<Byte>, i: nat, done: seq<Byte>)
    requires i < |s|
    ensures done + ConvertFrom(s, i) == (done + [if s[i] == CR then LF else s[i]]) + ConvertFrom(s, NextIndex(s, i))
  {
    var c, rest := if s[i] == CR then LF else s[i], ConvertFrom(s, NextIndex(s, i));
    assert ConvertFrom(s, i) == [c] + rest;
    hide ConvertFrom, NextIndex;
    assert done + ([c] + rest) == (done + [c]) + rest;
  }

  lemma ChunkFacts(chunk: seq<Byte>, afterCr: bool)
    ensures var first := if afterCr && chunk != [] && chunk[0] == LF then 1 else 0;
            Convert(chunk, afterCr) == ConvertFrom(chunk, first)
    ensures EndsInCr(chunk, afterCr) == if chunk == [] then afterCr else chunk[|chunk| - 1] == CR
    ensures ConvertFrom(chunk, |chunk|) == []
  {
    ConvertStart(chunk, afterCr);
    var first := if afterCr && chunk != [] && chunk[0] == LF then 1 else 0;
    ConvertFromIsConvert(chunk, first);
    assert chunk[0..] == chunk;
    hide Convert;
  }

  /** The variables the addon's function shares with its local closures. */
  class Normaliser {
    const byteBudget: nat
    const maxLineBytes: nat
    var lineParts: seq<seq<Byte>>
    var lineBytes: nat
    var lineIndex: nat
    var outputStarted: bool
    var pendingSeparators: nat
    var total: nat
    var skipLeadingLineFeed: bool
    var hashed: seq<Byte>               // everything passed to hash.update, in order
    ghost var finished: seq<seq<Byte>>  // the lines closed so far

    constructor (byteBudget: nat, maxLineBytes: nat)
      ensures this.byteBudget == byteBudget && this.maxLineBytes == maxLineBytes
      ensures Valid() && finished == [] && Current() == []
      ensures total == 0 && !skipLeadingLineFeed
    {
      this.byteBudget, this.maxLineBytes := byteBudget, maxLineBytes;
      lineParts, lineBytes, lineIndex, outputStarted, pendingSeparators := [], 0, 0, false, 0;
      total, skipLeadingLineFeed, hashed, finished := 0, false, [], [];
    }

    ghost function Current(): seq<Byte>
      reads this
    {
      Flatten(lineParts)
    }

    ghost predicate Valid()
      reads this
    {
      && lineBytes == |Current()| <= maxLineBytes
      && lineIndex == |finished|
      && Fit(finished, maxLineBytes)
      && (outputStarted ==> finished != [])
      && Emitted(Join(RStripLines(finished)), outputStarted, pendingSeparators, hashed)
    }

    method HashSeparators()
      modifies this`hashed, this`pendingSeparators
      ensures pendingSeparators == 0
      ensures hashed == old(hashed) + Separators(old(pendingSeparators))
    {
      while pendingSeparators > 0
        invariant 0 <= pendingSeparators <= old(pendingSeparators)
        invariant hashed == old(hashed) + Separators(old(pendingSeparators) - pendingSeparators)
      {
        var count := if pendingSeparators < 8192 then pendingSeparators else 8192;
        hashed := hashed + Separators(count);
        pendingSeparators := pendingSeparators - count;
      }
    }

    method Emit(kept: seq<Byte>)
      modifies this`hashed, this`pendingSeparators, this`outputStarted
      ensures outputStarted && pendingSeparators == 0
      ensures hashed
              == (if old(outputStarted) then old(hashed) + Separators(old(pendingSeparators)) else old(hashed)) + kept
    {
      if outputStarted {
        HashSeparators();
      } else {
        pendingSeparators := 0;
      }
      hashed := hashed + kept;
      outputStarted := true;
    }

    /** A line without its blanks at the end; at the start of the output, without those before it too. */
    method Trimmed(line: seq<Byte>) returns (kept: seq<Byte>)
      ensures kept == if outputStarted then RStrip(line) else LStrip(RStrip(line))
    {
      hide LStrip, RStrip, White;
      var end := TrimmedEnd(line);
      kept := line[..end];
      if !outputStarted {
        var start := TrimmedStart(kept);
        kept := kept[start..];
      }
    }

    method FinishLine()
      requires Valid()
      modifies this
      ensures Valid() && Current() == [] && finished == old(finished) + [old(Current())]
      ensures total == old(total) && skipLeadingLineFeed == old(skipLeadingLineFeed)
    {
      hide Emitted, Join, RStripLines, LStrip, RStrip, White, AllWhite, Separators;
      EmittedStep(finished, outputStarted, pendingSeparators, hashed, Current());
      if lineIndex > 0 {
        pendingSeparators := pendingSeparators + 1;
      }
      var line := Flatten(lineParts);
      var kept := Trimmed(line);
      if kept != [] {
        Emit(kept);
      }
      lineParts, lineBytes := [], 0;
      lineIndex := lineIndex + 1;
      finished := finished + [line];
    }

    method AppendLinePart(part: seq<Byte>) returns (ok: bool)
      requires Valid()
      modifies this`lineParts, this`lineBytes
      ensures ok == (|old(Current())| + |part| <= maxLineBytes)
      ensures ok ==> Valid() && Current() == old(Current()) + part
    {
      if |part| == 0 {
        assert Current() + part == Current();
        return true;
      }
      lineBytes := lineBytes + |part|;
      if lineBytes > maxLineBytes {
        return false;
      }
      lineParts := lineParts + [part];
      assert lineParts[..|lineParts| - 1] == old(lineParts);
      return true;
    }

    method ProcessNormalized(normalized: seq<Byte>) returns (ok: bool)
      requires Valid()
      modifies this
      ensures total == old(total) && skipLeadingLineFeed == old(skipLeadingLineFeed)
      ensures ok == Fit(Glue(old(finished) + [old(Current())], Split(normalized)), maxLineBytes)
      ensures ok ==> Valid() && finished + [Current()] == Glue(old(finished) + [old(Current())], Split(normalized))
    {
      hide Valid, Emitted, Fit, Glue, Split, Current;
      ghost var all := Glue(finished + [Current()], Split(normalized));
      var start := 0;
      var index := 0;
      assert normalized[0..] == normalized;
      while index < |normalized|
        invariant 0 <= start <= index <= |normalized|
        invariant Valid() && total == old(total) && skipLeadingLineFeed == old(skipLeadingLineFeed)
        invariant LF !in normalized[start..index]
        invariant all == Glue(finished + [Current()], Split(normalized[start..]))
      {
        if normalized[index] == LF {
          var fits := CloseLine(normalized[start..index], normalized[index + 1..], normalized[start..]);
          if !fits {
            return false;
          }
          start := index + 1;
        }
        index := index + 1;
      }
      ok := LastPart(normalized[start..]);
    }

    /** The part in front of a line break ends the current line. */
    method CloseLine(part: seq<Byte>, ghost rest: seq<Byte>, ghost text: seq<Byte>) returns (ok: bool)
      requires Valid() && LF !in part && text == part + [LF] + rest
      modifies this
      ensures total == old(total) && skipLeadingLineFeed == old(skipLeadingLineFeed)
      ensures ok ==>
                && Valid()
                && Glue(finished + [Current()], Split(rest)) == Glue(old(finished) + [old(Current())], Split(text))
      ensures !ok ==> !Fit(Glue(old(finished) + [old(Current())], Split(text)), maxLineBytes)
    {
      SplitAtBreak(part, rest);
      assert text == part + ([LF] + rest);
      GlueClosed(finished, Current(), part, Split(rest));
      ok := AppendLinePart(part);
      if ok {
        FinishLine();
      } else {
        ghost var all := old(finished) + [old(Current()) + part] + Split(rest);
        assert all[|old(finished)|] == old(Current()) + part;
      }
    }

    method LastPart(part: seq<Byte>) returns (ok: bool)
      requires Valid() && LF !in part
      modifies this`lineParts, this`lineBytes
      ensures ok == Fit(Glue(finished + [old(Current())], Split(part)), maxLineBytes)
      ensures ok ==> Valid() && finished + [Current()] == Glue(finished + [old(Current())], Split(part))
    {
      SplitWithoutBreak(part);
      ghost var all := Glue(finished + [Current()], [part]);
      assert (finished + [Current()])[..|finished|] == finished;
      assert all == finished + [Current() + part];
      assert all[|finished|] == Current() + part;
      ok := AppendLinePart(part);
    }

    /** CRLF and CR become LF; a CR that ends the chunk swallows an LF that opens the next. */
    method ConvertChunk(chunk: seq<Byte>) returns (normalized: seq<Byte>)
      modifies this`skipLeadingLineFeed
      ensures normalized == Convert(chunk, old(skipLeadingLineFeed))
      ensures skipLeadingLineFeed == EndsInCr(chunk, old(skipLeadingLineFeed))
    {
      ChunkFacts(chunk, skipLeadingLineFeed);
      hide Convert, ConvertFrom, EndsInCr;
      ghost var first := if skipLeadingLineFeed && chunk != [] && chunk[0] == LF then 1 else 0;
      normalized := [];
      var index := 0;
      if skipLeadingLineFeed && |chunk| > 0 {
        if chunk[0] == LF {
          index := 1;
        }
        skipLeadingLineFeed := false;
      }
      assert [] + ConvertFrom(chunk, first) == ConvertFrom(chunk, first);
      while index < |chunk|
        invariant index <= |chunk|
        invariant ConvertFrom(chunk, first) == normalized + ConvertFrom(chunk, index)
        invariant index < |chunk| ==> !skipLeadingLineFeed
        invariant index == |chunk| > 0 ==> skipLeadingLineFeed == (chunk[|chunk| - 1] == CR)
        invariant chunk == [] ==> skipLeadingLineFeed == old(skipLeadingLineFeed)
      {
        ConvertStep(chunk, index, normalized);
        if chunk[index] != CR {
          normalized := normalized + [chunk[index]];
        } else {
          normalized := normalized + [LF];
          if index + 1 < |chunk| {
            if chunk[index + 1] == LF {
              index := index + 1;
            }
          } else {
            skipLeadingLineFeed := true;
          }
        }
        index := index + 1;
      }
    }

    /** One chunk of the source, after the bytes `before`. */
    method Feed(chunk: seq<Byte>, ghost before: seq<Byte>) returns (ok: bool)
      requires Valid() && total == |before| <= byteBudget
      requires skipLeadingLineFeed == EndsInCr(before, false)
      requires Split(Convert(before, false)) == finished + [Current()]
      modifies this
      ensures ok == (|before + chunk| <= byteBudget && Fit(Split(Convert(before + chunk, false)), maxLineBytes))
      ensures ok ==> Valid() && total == |before + chunk|
      ensures ok ==> skipLeadingLineFeed == EndsInCr(before + chunk, false)
      ensures ok ==> Split(Convert(before + chunk, false)) == finished + [Current()]
    {
      hide Convert, EndsInCr, Split, Glue, Emitted, Join, RStripLines;
      total := total + |chunk|;
      if total > byteBudget {
        return false;
      }
      FeedAppend(before, chunk);
      var normalized := ConvertChunk(chunk);
      if |normalized| > 0 {
        ok := ProcessNormalized(normalized);
      } else {
        GlueNothing(finished, Current());
        ok := true;
      }
    }
  }

  /** The lines and the carried CR after one more chunk. */
  lemma FeedAppend(before: seq<Byte>, chunk: seq<Byte>)
    ensures var more := Convert(chunk, EndsInCr(before, false));
            Split(Convert(before + chunk, false)) == Glue(Split(Convert(before, false)), Split(more))
    ensures EndsInCr(before + chunk, false) == EndsInCr(chunk, EndsInCr(before, false))
  {
    ConvertAppend(before, chunk, false);
    EndsInCrAppend(before, chunk);
    SplitAppend(Convert(before, false), Convert(chunk, EndsInCr(before, false)));
  }

  lemma EndsInCrAppend(a: seq<Byte>, b: seq<Byte>)
    ensures EndsInCr(a + b, false) == EndsInCr(b, EndsInCr(a, false))
  {
    assert b == [] ==> a + b == a;
  }

  lemma GlueNothing(done: seq<seq<Byte>>, cur: seq<Byte>)
    ensures Glue(done + [cur], Split([])) == done + [cur]
  {
    assert cur + [] == cur;
    assert (done + [cur])[..|done|] == done;
  }

  /** Once a prefix has an overlong line, so has every extension. */
  lemma OverlongStays(a: seq<Byte>, b: seq<Byte>, maxLineBytes: nat)
    requires !Fit(Split(Convert(a, false)), maxLineBytes)
    ensures LineTooLong(a + b, maxLineBytes)
  {
    var u, v := Convert(a, false), Convert(b, EndsInCr(a, false));
    var i :| 0 <= i < |Split(u)| && |Split(u)[i]| > maxLineBytes;
    assert Normalised(a + b) == u + v by {
      ConvertIsReplace(a + b);
      ConvertAppend(a, b, false);
    }
    SplitAppend(u, v);
    GlueKeepsLength(Split(u), Split(v), i);
  }

  lemma GlueKeepsLength(x: seq<seq<Byte>>, y: seq<seq<Byte>>, i: nat)
    requires x != [] && y != [] && i < |x|
    ensures Glue(x, y)[i] in Glue(x, y) && |Glue(x, y)[i]| >= |x[i]|
  {}

  lemma {:induction false} ConcatPrefix(chunks: seq<seq<Byte>>, i: nat)
    requires i <= |chunks|
    ensures Concat(chunks[..i]) <= Concat(chunks)
    decreases |chunks|
  {
    if i == |chunks| {
      assert chunks[..i] == chunks;
    } else {
      var front := chunks[..|chunks| - 1];
      ConcatPrefix(front, i);
      assert front[..i] == chunks[..i];
    }
  }

  /** The result depends on the concatenated bytes alone, never on the cuts: the bytes hashed
      are the canonical form, and it raises exactly when the bytes or one line are too many. */
  method NormalizedInputSha256(source: seq<seq<Byte>>, byteBudget: nat, maxLineBytes: nat) returns (r: Outcome)
    ensures var all := Concat(source);
            r == if |all| > byteBudget || LineTooLong(all, maxLineBytes) then TooLarge
                 else Digest(Canonical(all), |all|)
  {
    var n := new Normaliser(byteBudget, maxLineBytes);
    var i := 0;
    while i < |source|
      invariant 0 <= i <= |source|
      invariant n.byteBudget == byteBudget && n.maxLineBytes == maxLineBytes && fresh(n)
      invariant n.Valid() && n.total == |Concat(source[..i])| <= byteBudget
      invariant n.skipLeadingLineFeed == EndsInCr(Concat(source[..i]), false)
      invariant Split(Convert(Concat(source[..i]), false)) == n.finished + [n.Current()]
    {
      assert source[..i + 1][..i] == source[..i];
      ghost var seen := Concat(source[..i + 1]);
      var ok := n.Feed(source[i], Concat(source[..i]));
      if !ok {
        ConcatPrefix(source, i + 1);
        ghost var rest := Concat(source)[|seen|..];
        assert seen + rest == Concat(source);
        if !Fit(Split(Convert(seen, false)), maxLineBytes) {
          OverlongStays(seen, rest, maxLineBytes);
        }
        return TooLarge;
      }
      i := i + 1;
    }
    assert source[..i] == source;
    ConvertIsReplace(Concat(source));
    n.FinishLine();
    EmittedIsStripped(Join(RStripLines(n.finished)), n.outputStarted, n.pendingSeparators, n.hashed);
    r := Digest(n.hashed, n.total);
  }

  // ----- what the hashed bytes look like -----

  /** No byte before a line feed is blank. */
  ghost predicate Tidy(s: seq<Byte>) {
    forall i :: 0 < i < |s| && s[i] == LF ==> s[i - 1] == LF || !White(s[i - 1])
  }

  ghost predicate Bare(line: seq<Byte>) {
    LF !in line && (line != [] ==> !White(line[|line| - 1]))
  }

  lemma {:induction false} SplitBare(s: seq<Byte>)
    ensures forall line :: line in Split(s) ==> LF !in line
  {
    if s != [] {
      SplitBare(s[1..]);
      var rest := Split(s[1..]);
      assert rest[0] in rest;
    }
  }

  lemma {:induction false} RStripBare(line: seq<Byte>)
    requires LF !in line
    ensures Bare(RStrip(line))
  {
    if line != [] && White(line[|line| - 1]) {
      RStripBare(line[..|line| - 1]);
    }
  }

  lemma {:induction false} JoinTidy(lines: seq<seq<Byte>>)
    requires forall i :: 0 <= i < |lines| ==> Bare(lines[i])
    ensures var s := Join(lines); Tidy(s) && (s != [] ==> s[|s| - 1] == LF || !White(s[|s| - 1]))
  {
    hide White;
    if |lines| > 1 {
      var front, last := lines[..|lines| - 1], lines[|lines| - 1];
      JoinTidy(front);
      var s := Join(front);
      assert Join(lines) == s + [LF] + last;
    }
  }

  lemma {:induction false} RStripTidy(s: seq<Byte>)
    requires Tidy(s)
    ensures Tidy(RStrip(s)) && (RStrip(s) != [] ==> !White(RStrip(s)[|RStrip(s)| - 1]))
  {
    if s != [] && White(s[|s| - 1]) {
      RStripTidy(s[..|s| - 1]);
    }
  }

  lemma {:induction false} LStripTidy(s: seq<Byte>)
    requires Tidy(s) && (s != [] ==> !White(s[|s| - 1]))
    ensures var r := LStrip(s); Tidy(r) && (r != [] ==> !White(r[0]) && !White(r[|r| - 1]))
  {
    if s != [] && White(s[0]) {
      LStripTidy(s[1..]);
    }
  }

  /** No line of the hashed bytes ends in one of the six blank bytes, nor do the bytes themselves, nor do
      they begin with one. */
  lemma CanonicalIsTidy(s: seq<Byte>)
    ensures var c := Canonical(s);
            && (forall i :: 0 < i < |c| && c[i] == 0x0a ==> c[i - 1] !in [0x09, 0x0b, 0x0c, 0x0d, 0x20])
            && (c != [] ==>
                  && c[|c| - 1] !in [0x09, 0x0a, 0x0b, 0x0c, 0x0d, 0x20]
                  && c[0] !in [0x09, 0x0a, 0x0b, 0x0c, 0x0d, 0x20])
  {
    var lines := Split(Normalised(s));
    StrippedBare(Normalised(s));
    CanonicalFrom(s);
    hide *;
    JoinTidy(RStripLines(lines));
    RStripTidy(Join(RStripLines(lines)));
    LStripTidy(RStrip(Join(RStripLines(lines))));
    TidyBytes(Canonical(s));
  }

  lemma CanonicalFrom(s: seq<Byte>)
    ensures Canonical(s) == LStrip(RStrip(Join(RStripLines(Split(Normalised(s))))))
  {
    hide LStrip, RStrip, Join, RStripLines, Split, Normalised;
  }

  lemma StrippedBare(s: seq<Byte>)
    ensures var lines := RStripLines(Split(s)); forall i :: 0 <= i < |lines| ==> Bare(lines[i])
  {
    var lines := Split(s);
    SplitBare(s);
    hide Bare, RStrip, Split;
    forall i | 0 <= i < |lines| ensures Bare(RStrip(lines[i])) {
      assert lines[i] in lines;
      RStripBare(lines[i]);
    }
  }

  /** In so many bytes. */
  lemma TidyBytes(c: seq<Byte>)
    requires Tidy(c) && (c != [] ==> !White(c[0]) && !White(c[|c| - 1]))
    ensures forall i :: 0 < i < |c| && c[i] == 0x0a ==> c[i - 1] !in [0x09, 0x0b, 0x0c, 0x0d, 0x20]
    ensures c != [] ==>
              && c[|c| - 1] !in [0x09, 0x0a, 0x0b, 0x0c, 0x0d, 0x20]
              && c[0] !in [0x09, 0x0a, 0x0b, 0x0c, 0x0d, 0x20]
  {}

  /** The bytes that are none of the six blank ones. */
  function Inked(s: seq<Byte>): seq<Byte> {
    if s == [] then []
    else (if s[0] in [0x09, 0x0a, 0x0b, 0x0c, 0x0d, 0x20] then [] else [s[0]]) + Inked(s[1..])
  }

  lemma {:induction false} InkedAppend(a: seq<Byte>, b: seq<Byte>)
    ensures Inked(a + b) == Inked(a) + Inked(b)
  {
    if a == [] {
      assert a + b == b;
    } else {
      assert (a + b)[0] == a[0] && (a + b)[1..] == a[1..] + b;
      InkedAppend(a[1..], b);
    }
  }

  lemma InkedOne(b: Byte)
    ensures Inked([b]) == if White(b) then [] else [b]
  {
    assert [b][1..] == [];
  }

  lemma {:induction false} InkedRStrip(s: seq<Byte>)
    ensures Inked(RStrip(s)) == Inked(s)
  {
    if s != [] && White(s[|s| - 1]) {
      var front, last := s[..|s| - 1], s[|s| - 1];
      InkedRStrip(front);
      InkedAppend(front, [last]);
      InkedOne(last);
      assert s == front + [last];
    }
  }

  lemma {:induction false} InkedLStrip(s: seq<Byte>)
    ensures Inked(LStrip(s)) == Inked(s)
  {
    if s != [] && White(s[0]) {
      InkedLStrip(s[1..]);
    }
  }

  lemma {:induction false} InkedReplaceCrLf(s: seq<Byte>)
    ensures Inked(ReplaceCrLf(s)) == Inked(s)
  {
    if |s| >= 2 && s[0] == CR && s[1] == LF {
      InkedReplaceCrLf(s[2..]);
      assert s[1..][1..] == s[2..] && s[1..][0] == LF;
      assert Inked(s[1..]) == Inked(s[2..]);
      assert ([LF] + ReplaceCrLf(s[2..]))[1..] == ReplaceCrLf(s[2..]);
    } else if s != [] {
      InkedReplaceCrLf(s[1..]);
      assert ([s[0]] + ReplaceCrLf(s[1..]))[1..] == ReplaceCrLf(s[1..]);
    }
  }

  lemma {:induction false} InkedReplaceCr(s: seq<Byte>)
    ensures Inked(ReplaceCr(s)) == Inked(s)
  {
    if s != [] {
      InkedReplaceCr(s[1..]);
      assert ReplaceCr(s)[1..] == ReplaceCr(s[1..]);
    }
  }

  function InkedLines(lines: seq<seq<Byte>>): seq<Byte> {
    if lines == [] then [] else InkedLines(lines[..|lines| - 1]) + Inked(lines[|lines| - 1])
  }

  lemma {:induction false} InkedJoin(lines: seq<seq<Byte>>)
    ensures Inked(Join(lines)) == InkedLines(lines)
  {
    hide Inked;
    if |lines| == 1 {
      InkedNone();
      assert InkedLines(lines[..0]) == [];
    } else if lines != [] {
      var front, last := lines[..|lines| - 1], lines[|lines| - 1];
      InkedJoin(front);
      InkedThree(Join(front), last);
    }
    InkedNone();
  }

  lemma InkedNone()
    ensures Inked([]) == []
  {}

  lemma InkedThree(a: seq<Byte>, b: seq<Byte>)
    ensures Inked(a + [LF] + b) == Inked(a) + Inked(b)
  {
    InkedAppend(a + [LF], b);
    InkedAppend(a, [LF]);
    InkedOne(LF);
    hide Inked;
  }

  lemma {:induction false} InkedStripped(lines: seq<seq<Byte>>)
    ensures InkedLines(RStripLines(lines)) == InkedLines(lines)
  {
    if lines != [] {
      var front := lines[..|lines| - 1];
      InkedStripped(front);
      InkedRStrip(lines[|lines| - 1]);
      assert RStripLines(lines)[..|lines| - 1] == RStripLines(front);
    }
  }

  lemma {:induction false} JoinSplit(s: seq<Byte>)
    ensures Join(Split(s)) == s
  {
    if s != [] {
      JoinSplit(s[1..]);
      var rest := Split(s[1..]);
      if s[0] == LF {
        JoinFront([], rest);
        assert [] + [LF] + Join(rest) == [s[0]] + s[1..];
      } else {
        JoinGrow(s[0], rest);
        assert [s[0]] + s[1..] == s;
      }
    }
  }

  lemma {:induction false} JoinFront(line: seq<Byte>, rest: seq<seq<Byte>>)
    requires rest != []
    ensures Join([line] + rest) == line + [LF] + Join(rest)
  {
    var all := [line] + rest;
    assert all[..|all| - 1] == [line] + rest[..|rest| - 1] && all[|all| - 1] == rest[|rest| - 1];
    if |rest| == 1 {
      assert all[..1] == [line];
    } else {
      JoinFront(line, rest[..|rest| - 1]);
      var inner := Join(rest[..|rest| - 1]);
      assert (line + [LF] + inner) + [LF] + rest[|rest| - 1] == line + [LF] + (inner + [LF] + rest[|rest| - 1]);
    }
  }

  lemma {:induction false} JoinGrow(b: Byte, lines: seq<seq<Byte>>)
    requires lines != []
    ensures Join([[b] + lines[0]] + lines[1..]) == [b] + Join(lines)
  {
    var all := [[b] + lines[0]] + lines[1..];
    if |lines| > 1 {
      var front := lines[..|lines| - 1];
      JoinGrow(b, front);
      assert all[..|all| - 1] == [[b] + front[0]] + front[1..];
      assert ([b] + Join(front)) + [LF] + lines[|lines| - 1] == [b] + (Join(front) + [LF] + lines[|lines| - 1]);
    }
  }

  /** Nothing but blank bytes is dropped or put in: all others are hashed, in their order. */
  lemma OnlyBlanksGo(s: seq<Byte>)
    ensures Inked(Canonical(s)) == Inked(s)
  {
    var n := Normalised(s);
    var lines := Split(n);
    InkedReplaceCrLf(s);
    InkedReplaceCr(ReplaceCrLf(s));
    JoinSplit(n);
    InkedJoin(lines);
    InkedStripped(lines);
    InkedJoin(RStripLines(lines));
    InkedRStrip(Join(RStripLines(lines)));
    InkedLStrip(RStrip(Join(RStripLines(lines))));
  }
}
