/** The YAML edit as it runs, over line indexes. */
module YamlEditor {
  import opened LineBreaks
  import opened TextLines
  import opened YamlMerge

  /** Where the hydro lines are. */
  method HydroIndexes(lines: seq<string>) returns (indexes: seq<int>)
    ensures |indexes| == HydroCount(lines) && (|indexes| == 1 ==> indexes[0] == FirstHydro(lines))
  {
    indexes := [];
    var i := 0;
    assert lines[..0] == [];
    while i < |lines|
      invariant 0 <= i <= |lines| && |indexes| == HydroCount(lines[..i])
      invariant if indexes == [] then FirstHydro(lines[..i]) == i else indexes[0] == FirstHydro(lines[..i])
    {
      HydroOneMore(lines, i);
      if IsHydro(lines[i]) {
        indexes := indexes + [i];
      }
      i := i + 1;
    }
    assert lines[..|lines|] == lines;
  }

  lemma HydroOneMore(lines: seq<string>, i: nat)
    requires i < |lines|
    ensures HydroCount(lines[..i + 1]) == HydroCount(lines[..i]) + (if IsHydro(lines[i]) then 1 else 0)
    ensures FirstHydro(lines[..i + 1])
            == if HydroCount(lines[..i]) == 0 then (if IsHydro(lines[i]) then i else i + 1) else FirstHydro(lines[..i])
  {
    hide IsHydro;
    assert lines[..i + 1] == lines[..i] + [lines[i]] && [lines[i]][1..] == [];
    HydroAppend(lines[..i], [lines[i]]);
    FirstStays(lines[..i], [lines[i]]);
  }

  lemma {:induction false} FirstStays(a: seq<string>, b: seq<string>)
    ensures HydroCount(a) > 0 ==> FirstHydro(a + b) == FirstHydro(a)
    ensures HydroCount(a) == 0 ==> FirstHydro(a + b) == |a| + FirstHydro(b)
  {
    hide IsHydro;
    if a == [] {
      assert a + b == b;
    } else {
      assert (a + b)[0] == a[0] && (a + b)[1..] == a[1..] + b;
      FirstStays(a[1..], b);
    }
  }

  /** The end of the hydro block, or nothing when it cannot be determined safely. */
  method BlockEnd(lines: seq<string>, start: nat) returns (safe: bool, end: nat)
    requires start < |lines|
    ensures end == start + 1 + Lead(lines[start + 1..]) && end <= |lines|
    ensures safe == (end == |lines| || IsTopKey(lines[end]))
  {
    end := start + 1;
    while end < |lines|
      invariant start + 1 <= end <= |lines|
      invariant Lead(lines[start + 1..]) == end - start - 1 + Lead(lines[end..])
      decreases |lines| - end
    {
      assert lines[end..][0] == lines[end] && lines[end..][1..] == lines[end + 1..];
      if !Continues(lines[end]) {
        return IsTopKey(lines[end]), end;
      }
      end := end + 1;
    }
    return true, end;
  }

  /** How many managed keys the block has, and where the first one is. */
  method ManagedIndexes(body: seq<string>) returns (count: nat, at: nat)
    ensures count == ManagedCount(body) && at == FirstManaged(body)
  {
    count, at := 0, |body|;
    var i := 0;
    assert body[..0] == [] && body[0..] == body;
    while i < |body|
      invariant 0 <= i <= |body| && count == ManagedCount(body[..i])
      invariant if count == 0 then at == |body| && FirstManaged(body) == i + FirstManaged(body[i..])
                else at == FirstManaged(body)
    {
      ManagedOneMore(body, i);
      if IsManaged(body[i]) {
        at := if count == 0 then i else at;
        count := count + 1;
      }
      i := i + 1;
    }
    assert body[..|body|] == body;
  }

  lemma ManagedOneMore(body: seq<string>, i: nat)
    requires i < |body|
    ensures ManagedCount(body[..i + 1]) == ManagedCount(body[..i]) + (if IsManaged(body[i]) then 1 else 0)
    ensures FirstManaged(body[i..]) == if IsManaged(body[i]) then 0 else 1 + FirstManaged(body[i + 1..])
  {
    hide IsManaged;
    assert body[..i + 1] == body[..i] + [body[i]] && body[i..][1..] == body[i + 1..];
    ManagedAppend(body[..i], [body[i]]);
    OneManaged(body[i]);
  }

  method ValueEnd(lines: seq<string>) returns (n: nat)
    ensures n == ValueLead(lines)
  {
    n := 0;
    while n < |lines| && IsValue(lines[n])
      invariant n <= |lines| && ValueLead(lines) == n + ValueLead(lines[n..])
    {
      assert lines[n..][1..] == lines[n + 1..];
      n := n + 1;
    }
  }

  method EditBlock(head: string, body: seq<string>, nl: string, host: string) returns (safe: bool, block: seq<string>)
    ensures safe == (ManagedCount(body) <= 1)
    ensures safe ==> block == NewBlock(head, body, nl, host)
  {
    hide IsManaged, IsValue, Replacement, Closed;
    var count, at := ManagedIndexes(body);
    if count > 1 {
      return false, [];
    }
    if count == 0 {
      return true, Closed([head] + body, nl) + Replacement(nl, host);
    }
    var after := body[at + 1..];
    var n := ValueEnd(after);
    return true, [head] + body[..at] + Replacement(nl, host) + after[n..];
  }

  method MergeNotifyAllowedHttpsHost(source: string, host: string) returns (r: Result)
    ensures r == Merge(source, host)
  {
    hide IsHydro, IsManaged, Continues, IsTopKey, Newline, NewBlock, SplitLines, Join, IsHost, HydroCount,
      FirstHydro, Lead;
    if !IsHost(host) {
      return Err(BadHost);
    }
    var lines := SplitLines(source);
    var indexes := HydroIndexes(lines);
    if |indexes| != 1 {
      return Err(HydroBlocks);
    }
    HydroThere(lines);
    var start := indexes[0];
    var safe, end := BlockEnd(lines, start);
    if !safe {
      return Err(UnsafeEnd);
    }
    var body := lines[start + 1..end];
    assert body == lines[start + 1..][..Lead(lines[start + 1..])];
    assert lines[end..] == lines[start + 1..][Lead(lines[start + 1..])..];
    var unique, block := EditBlock(lines[start], body, Newline(source), host);
    if !unique {
      return Err(DuplicateKey);
    }
    return Ok(Join(lines[..start] + block + lines[end..]));
  }
}
