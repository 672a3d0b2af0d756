/** What a merged file says, in the lines a reader of the file finds. */
module YamlResults {
  import opened LineBreaks
  import opened TextLines
  import opened YamlMerge

  /** Where the hydro block of some lines is. */
  ghost predicate BlockAt(lines: seq<string>, start: nat, end: nat) {
    && start < end <= |lines| && HydroCount(lines) == 1 && start == FirstHydro(lines) && IsHydro(lines[start])
    && end == start + 1 + Lead(lines[start + 1..])
    && (end == |lines| || IsTopKey(lines[end]))
  }

  /** The managed key with its one value, at lines `k` and `k + 1` of the block, and nowhere else in it. */
  ghost predicate Says(lines: seq<string>, start: nat, end: nat, k: nat, nl: string, host: string) {
    && start < k && k + 1 < end <= |lines|
    && lines[k] == "  notify_allowed_https_hosts:" + nl && lines[k + 1] == "    - \"" + host + "\"" + nl
    && (forall i :: start < i < end ==> (IsManaged(lines[i]) <==> i == k))
    && (k + 2 == |lines| || !IsValue(lines[k + 2]))
  }

  /** A merged file holds the host: the key line and its one value line stand in the one hydro block, the
      key nowhere else in it, and no further value follows. */
  lemma HostIsWritten(s: string, host: string) returns (lines: seq<string>, start: nat, end: nat, k: nat)
    requires Merge(s, host).Ok?
    ensures lines == SplitLines(Merge(s, host).text) && BlockAt(lines, start, end)
    ensures Says(lines, start, end, k, Newline(s), host)
  {
    hide Merge, HasCrLf, Newline, SplitLines, Join, IsHost, NewBlock, Laid, Shaped, AllClose, Plain, AreTextLines,
      Closable, BlockAt, Says, Replacement;
    var nl := Newline(s);
    NewlineIs(s);
    var a, head, body, tail := Finds(s, host);
    FoundParts(s, a, head, body, tail);
    PiecesAreLines(s, a, [head] + body, tail);
    var first, before, n := EditShapes(head, body, nl, host);
    var after := body[n..];
    SuffixLines(a, head, body, tail, n);
    MergedLines(s, a, first, before, after, tail, host);
    MergesTo(s, a, head, body, tail, host);
    var d := Merge(s, host).text;
    EditAgain(first, before, after, nl, host, host);
    FoundAgain(s, d, a, head, body, tail, first, before, after, host);
    lines, start, k := SplitLines(d), |a|, |a| + 1 + |before|;
    end := |a| + 1 + |before + Replacement(nl, host) + after|;
    BlockFound(d, a, first, before + Replacement(nl, host) + after, tail);
    LaidSays(a, first, before, after, tail, nl, host);
  }

  lemma BlockFound(d: string, a: seq<string>, head: string, body: seq<string>, tail: seq<string>)
    requires Found(d, a, head, body, tail)
    ensures BlockAt(SplitLines(d), |a|, |a| + 1 + |body|)
  {
    hide IsHydro, Continues, IsTopKey, SplitLines, IsManaged, HydroCount, FirstHydro, Lead, ManagedCount;
    HydroWhere(a, head, body, tail);
    Pieces(a, head, body, tail);
    LeadOf(body, tail);
    var lines := a + ([head] + body) + tail;
    assert lines[|a|] == head;
    if tail != [] {
      assert lines[|a| + 1 + |body|] == tail[0];
    }
  }

  lemma {:induction false} NoneManaged(lines: seq<string>)
    requires ManagedCount(lines) == 0
    ensures forall i :: 0 <= i < |lines| ==> !IsManaged(lines[i])
  {
    hide IsManaged;
    if lines != [] {
      NoneManaged(lines[1..]);
      assert forall i :: 0 < i < |lines| ==> lines[i] == lines[1..][i - 1];
    }
  }

  /** A top-level key is no value. */
  lemma KeyNoValue(line: string)
    requires IsTopKey(line)
    ensures !IsValue(line)
  {
    assert "    "[0] == ' ';
    hide Strip;
  }

  lemma LaidSays(a: seq<string>, head: string, before: seq<string>, after: seq<string>, tail: seq<string>,
                 nl: string, host: string)
    requires Shaped(head, before, after, nl, host) && (tail == [] || IsTopKey(tail[0]))
    ensures Says(a + Laid(head, before, after, nl, host) + tail, |a|,
                 |a| + 1 + |before + Replacement(nl, host) + after|, |a| + 1 + |before|, nl, host)
  {
    var r := Replacement(nl, host);
    ReplacementText(nl, host);
    ReplacementFacts(nl, host);
    NoneManaged(before);
    NoneManaged(after);
    if tail != [] {
      KeyNoValue(tail[0]);
    }
    hide IsManaged, IsValue, IsTopKey, Continues, IsHost, IsHydro, Replacement, AllClose, EndsCrLf;
    Positions(a, head, before, r, after, tail);
    var lines := a + Laid(head, before, after, nl, host) + tail;
    assert lines == a + ([head] + before + r + after) + tail;
  }

  lemma Positions(a: seq<string>, head: string, before: seq<string>, r: seq<string>, after: seq<string>,
                  tail: seq<string>)
    requires |r| == 2
    ensures var lines, k := a + ([head] + before + r + after) + tail, |a| + 1 + |before|;
            && lines[k] == r[0] && lines[k + 1] == r[1]
            && (forall i :: |a| < i < k ==> lines[i] == before[i - |a| - 1])
            && (forall i :: k + 2 <= i < k + 2 + |after| ==> lines[i] == after[i - k - 2])
            && (after == [] && tail != [] ==> lines[k + 2] == tail[0])
            && |lines| == k + 2 + |after| + |tail|
  {}

  /** So different hosts give different files. */
  lemma HostsDiffer(s: string, g: string, h: string)
    requires Merge(s, g).Ok? && Merge(s, h).Ok? && g != h
    ensures Merge(s, g).text != Merge(s, h).text
  {
    hide Merge, Newline, SplitLines;
    var lines, start, end, k := HostIsWritten(s, g);
    var others, first, last, j := HostIsWritten(s, h);
    if lines == others {
      SameValue(lines, start, end, k, j, Newline(s), g, h);
    }
  }

  lemma SameValue(lines: seq<string>, start: nat, end: nat, k: nat, j: nat, nl: string, g: string, h: string)
    requires Says(lines, start, end, k, nl, g) && Says(lines, start, end, j, nl, h)
    ensures g == h
  {
    hide IsManaged, IsValue;
    assert k == j;
    var before := "    - \"";
    assert (before + g + "\"" + nl)[|before|..] == g + "\"" + nl;
    assert (before + h + "\"" + nl)[|before|..] == h + "\"" + nl;
    assert |g| == |h|;
    assert (g + "\"" + nl)[..|g|] == g && (h + "\"" + nl)[..|h|] == h;
  }

  /** At most one line of the block is the managed key. */
  ghost predicate OneKey(lines: seq<string>, start: nat, end: nat)
    requires start < end <= |lines|
  {
    forall i, j :: start < i < end && start < j < end && IsManaged(lines[i]) && IsManaged(lines[j]) ==> i == j
  }

  /** A file can be merged exactly if it has one hydro block, which ends before a top-level key or with the
      file, and holds the managed key at most once. */
  ghost predicate Mergeable(lines: seq<string>) {
    exists start: nat, end: nat :: Candidate(lines, start, end)
  }

  ghost predicate HasBlock(lines: seq<string>) {
    exists start: nat, end: nat :: BlockAt(lines, start, end)
  }

  ghost predicate Candidate(lines: seq<string>, start: nat, end: nat) {
    BlockAt(lines, start, end) && OneKey(lines, start, end)
  }

  lemma {:induction false} CountKeys(lines: seq<string>)
    ensures ManagedCount(lines) <= 1 <==>
              forall i, j :: 0 <= i < |lines| && 0 <= j < |lines| && IsManaged(lines[i]) && IsManaged(lines[j])
                ==> i == j
  {
    hide IsManaged;
    if lines != [] {
      var rest := lines[1..];
      CountKeys(rest);
      KeysThere(rest);
      assert forall i :: 0 <= i < |rest| ==> rest[i] == lines[i + 1];
      assert forall i :: 0 < i < |lines| ==> lines[i] == rest[i - 1];
    }
  }

  lemma {:induction false} KeysThere(lines: seq<string>)
    ensures ManagedCount(lines) == 0 <==> forall i :: 0 <= i < |lines| ==> !IsManaged(lines[i])
  {
    hide IsManaged;
    if lines != [] {
      var rest := lines[1..];
      KeysThere(rest);
      assert forall i :: 0 <= i < |rest| ==> rest[i] == lines[i + 1];
      assert forall i :: 0 < i < |lines| ==> lines[i] == rest[i - 1];
    }
  }

  lemma BlockUnique(lines: seq<string>, start: nat, end: nat)
    requires BlockAt(lines, start, end)
    ensures start == FirstHydro(lines) < |lines| && end == FirstHydro(lines) + 1 + Lead(lines[FirstHydro(lines) + 1..])
  {
    hide HydroCount, FirstHydro, Lead, IsTopKey, IsHydro;
  }

  /** Whether the hydro block is closed off. */
  lemma BlockHere(lines: seq<string>, start: nat, n: nat)
    requires HydroCount(lines) == 1 && start == FirstHydro(lines) < |lines| && IsHydro(lines[start])
    requires n == Lead(lines[start + 1..])
    ensures start + 1 + n <= |lines|
    ensures var tail := lines[start + 1..][n..];
            BlockAt(lines, start, start + 1 + n) <==> tail == [] || IsTopKey(tail[0])
  {
    hide HydroCount, FirstHydro, Lead, IsTopKey, IsHydro;
    assert lines[start + 1..][n..] == lines[start + 1 + n..];
  }

  lemma KeysOf(lines: seq<string>, start: nat, n: nat)
    requires start + 1 + n <= |lines|
    ensures OneKey(lines, start, start + 1 + n) <==> ManagedCount(lines[start + 1..][..n]) <= 1
  {
    var body := lines[start + 1..][..n];
    CountKeys(body);
    hide IsManaged, ManagedCount;
    assert forall i :: start < i < start + 1 + n ==> lines[i] == body[i - start - 1];
    assert forall i :: 0 <= i < n ==> body[i] == lines[start + 1 + i];
  }

  /** The block found in the lines, and whether it is closed off and has one key at most. */
  lemma TheBlock(lines: seq<string>, start: nat, n: nat)
    requires HydroCount(lines) == 1 && start == FirstHydro(lines) < |lines| && IsHydro(lines[start])
    requires n == Lead(lines[start + 1..])
    ensures var rest := lines[start + 1..];
            && (Mergeable(lines) <==> (rest[n..] == [] || IsTopKey(rest[n..][0])) && ManagedCount(rest[..n]) <= 1)
            && (HasBlock(lines) <==> (rest[n..] == [] || IsTopKey(rest[n..][0])))
  {
    hide *;
    BlockHere(lines, start, n);
    KeysOf(lines, start, n);
    OnlyCandidate(lines, start, start + 1 + n);
    CandidateIs(lines, start, start + 1 + n);
  }

  lemma CandidateIs(lines: seq<string>, start: nat, end: nat)
    requires start < end <= |lines|
    ensures Candidate(lines, start, end) <==> BlockAt(lines, start, end) && OneKey(lines, start, end)
  {
    hide BlockAt, OneKey;
  }

  lemma OnlyCandidate(lines: seq<string>, start: nat, end: nat)
    requires start == FirstHydro(lines) < |lines| && end == start + 1 + Lead(lines[start + 1..])
    ensures Mergeable(lines) <==> Candidate(lines, start, end)
    ensures HasBlock(lines) <==> BlockAt(lines, start, end)
  {
    hide *;
    if Mergeable(lines) {
      var first, last := SomeCandidate(lines);
      BlockUnique(lines, first, last);
    }
    if HasBlock(lines) {
      var first, last := SomeBlock(lines);
      BlockUnique(lines, first, last);
    }
    IsSome(lines, start, end);
  }

  lemma SomeCandidate(lines: seq<string>) returns (start: nat, end: nat)
    requires Mergeable(lines)
    ensures Candidate(lines, start, end) && BlockAt(lines, start, end)
  {
    hide BlockAt, OneKey;
    start, end :| Candidate(lines, start, end);
  }

  lemma SomeBlock(lines: seq<string>) returns (start: nat, end: nat)
    requires HasBlock(lines)
    ensures BlockAt(lines, start, end)
  {
    hide BlockAt;
    start, end :| BlockAt(lines, start, end);
  }

  lemma IsSome(lines: seq<string>, start: nat, end: nat)
    ensures Candidate(lines, start, end) ==> Mergeable(lines)
    ensures BlockAt(lines, start, end) ==> HasBlock(lines)
  {
    hide BlockAt, Candidate;
  }

  /** When a merge succeeds, and what it is refused for otherwise. */
  lemma MergesExactly(s: string, host: string)
    ensures var lines := SplitLines(s);
            && (Merge(s, host).Ok? <==> IsHost(host) && Mergeable(lines))
            && (Merge(s, host) == Err(BadHost) <==> !IsHost(host))
            && (Merge(s, host) == Err(HydroBlocks) <==> IsHost(host) && HydroCount(lines) != 1)
            && (Merge(s, host) == Err(UnsafeEnd) <==> IsHost(host) && HydroCount(lines) == 1 && !HasBlock(lines))
            && (Merge(s, host) == Err(DuplicateKey) <==> IsHost(host) && HasBlock(lines) && !Mergeable(lines))
  {
    var lines := SplitLines(s);
    if HydroCount(lines) == 1 {
      HydroThere(lines);
      var start := FirstHydro(lines);
      TheBlock(lines, start, Lead(lines[start + 1..]));
    } else {
      NoBlock(lines);
    }
    hide SplitLines, IsHost, IsHydro, IsTopKey, IsManaged, NewBlock, Newline, Join, Lead, ManagedCount, Mergeable,
      HydroCount, FirstHydro, HasBlock;
  }

  lemma NoBlock(lines: seq<string>)
    requires HydroCount(lines) != 1
    ensures !Mergeable(lines) && !HasBlock(lines)
  {
    hide HydroCount, FirstHydro, Lead, IsTopKey, IsHydro, OneKey;
  }
}
