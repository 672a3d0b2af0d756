/** Which problems a file-I/O draft covers, and how per-problem records follow the switch. */
module ProblemDraftMapping {
  import opened Basics
  import opened JournalStore

  type Pid(==, !new)      // a problem as the request names it: display id or number
  type DocId(==, !new)
  type Slug(==, !new)
  type Text(==, !new)
  type Files(==, !new)
  type Value(==, !new)    // one problem's score or balloon colour

  datatype Requested = Requested(pid: Pid, slug: Slug)

  /** What the source descriptor hashes: title and statement, and everything else. */
  datatype Source = Source(text: Text, files: Files)

  /** How hashing the formal inputs goes: they may be over the budget, or not be there as listed. */
  datatype Hashing = Hashed | Oversized | Missing

  /** `derived`: a reference to or clone of another problem; `supported`: a default-type config;
      `parses`: its raw text is a YAML mapping. */
  datatype Problem = Problem(
    docId: DocId, source: Source, derived: bool, supported: bool, parses: bool, inputs: Hashing)

  predicate Usable(p: Problem) {
    !p.derived && p.supported && p.parses && p.inputs.Hashed?
  }

  datatype Item = Item(slug: Slug, problem: Problem)

  datatype Error = WrongCover | BadPid | Derived | Unsupported | BadConfig | TooLarge | BadInputs

  datatype Result<T> = Ok(value: T) | Err(error: Error)

  // ----- resolving a request against the contest -----

  /** The first thing wrong with a problem that is found and new. */
  function ProblemFault(p: Problem): Option<Error> {
    if p.derived then Some(Derived)
    else if !p.supported then Some(Unsupported)
    else if !p.parses then Some(BadConfig)
    else if p.inputs.Oversized? then Some(TooLarge)
    else if p.inputs.Missing? then Some(BadInputs)
    else None
  }

  /** The first thing wrong with item `i`, given the items before it. */
  function ItemFault(pids: seq<DocId>, requested: seq<Requested>, problems: map<Pid, Problem>, i: nat): Option<Error>
    requires i < |requested|
  {
    var pid := requested[i].pid;
    if pid !in problems || problems[pid].docId !in pids
       || (exists j :: 0 <= j < i && requested[j].pid in problems
             && problems[requested[j].pid].docId == problems[pid].docId)
    then Some(BadPid)
    else ProblemFault(problems[pid])
  }

  ghost predicate Sound(pids: seq<DocId>, requested: seq<Requested>, problems: map<Pid, Problem>, n: nat)
    requires n <= |requested|
  {
    forall i :: 0 <= i < n ==> ItemFault(pids, requested, problems, i) == None
  }

  function DocIds(items: seq<Item>): seq<DocId> {
    seq(|items|, i requires 0 <= i < |items| => items[i].problem.docId)
  }

  /** `items` lists every requested problem once, in contest order. */
  ghost predicate Covers(pids: seq<DocId>, requested: seq<Requested>, problems: map<Pid, Problem>, items: seq<Item>) {
    && |requested| == |pids| && DocIds(items) == pids && Distinct(pids)
    && (forall i :: 0 <= i < |items| ==>
          Usable(items[i].problem)
          && exists j :: 0 <= j < |requested| && Answers(requested[j], problems, items[i]))
    && (forall j :: 0 <= j < |requested| ==> Answered(requested[j], problems, items))
  }

  ghost predicate Answered(r: Requested, problems: map<Pid, Problem>, items: seq<Item>) {
    exists i :: 0 <= i < |items| && Answers(r, problems, items[i])
  }

  ghost predicate Answers(r: Requested, problems: map<Pid, Problem>, item: Item) {
    r.pid in problems && item == Item(r.slug, problems[r.pid])
  }

  function ToSet(s: seq<DocId>): set<DocId> {
    set d | d in s
  }

  lemma {:induction false} SetNoLarger(s: seq<DocId>)
    ensures |ToSet(s)| <= |s|
  {
    if s == [] {
      assert ToSet(s) == {};
    } else {
      var last := s[|s| - 1];
      assert ToSet(s) == ToSet(s[..|s| - 1]) + {last};
      SetNoLarger(s[..|s| - 1]);
    }
  }

  lemma {:induction false} FullSetIsDistinct(s: seq<DocId>)
    requires |ToSet(s)| == |s|
    ensures Distinct(s)
  {
    if s != [] {
      var front, last := s[..|s| - 1], s[|s| - 1];
      SetNoLarger(front);
      assert ToSet(s) == ToSet(front) + {last};
      assert last in ToSet(front) ==> ToSet(s) == ToSet(front);
      FullSetIsDistinct(front);
      assert forall i :: 0 <= i < |front| ==> s[i] == front[i] && s[i] in ToSet(front);
    }
  }

  /** Pigeonhole: as many distinct documents of the contest as it lists are all of it, once each. */
  lemma PigeonholeCovers(pids: seq<DocId>, used: set<DocId>)
    requires used <= ToSet(pids) && |used| == |pids|
    ensures used == ToSet(pids) && Distinct(pids)
  {
    SetNoLarger(pids);
    SubsetSize(used, ToSet(pids));
    SubsetOfSameSize(used, ToSet(pids));
    FullSetIsDistinct(pids);
  }

  /** After `n` items: the answers so far, and the documents they use. */
  ghost predicate Resolving(pids: seq<DocId>, requested: seq<Requested>, problems: map<Pid, Problem>,
                            resolved: seq<Item>, used: set<DocId>, n: nat)
  {
    && n <= |requested| && |resolved| == n && Sound(pids, requested, problems, n)
    && (forall i :: 0 <= i < n ==>
          Resolves(pids, requested[i], problems, resolved[i]) && resolved[i].problem.docId in used)
    && (forall d :: d in used ==> exists i :: 0 <= i < n && resolved[i].problem.docId == d)
    && used <= ToSet(pids) && |used| == n
  }

  ghost predicate Resolves(pids: seq<DocId>, r: Requested, problems: map<Pid, Problem>, item: Item) {
    Answers(r, problems, item) && item.problem.docId in pids && Usable(item.problem)
  }

  lemma FaultByUse(pids: seq<DocId>, requested: seq<Requested>, problems: map<Pid, Problem>,
                   resolved: seq<Item>, used: set<DocId>, n: nat)
    requires n < |requested| && Resolving(pids, requested, problems, resolved, used, n)
    ensures var pid := requested[n].pid;
            ItemFault(pids, requested, problems, n)
            == (if pid !in problems || problems[pid].docId !in pids || problems[pid].docId in used then Some(BadPid)
                else ProblemFault(problems[pid]))
  {
    var pid := requested[n].pid;
    assert forall i :: 0 <= i < n ==> Resolves(pids, requested[i], problems, resolved[i]);
    hide Sound;
    if pid in problems && problems[pid].docId in used {
      var i :| 0 <= i < n && resolved[i].problem.docId == problems[pid].docId;
      assert requested[i].pid in problems && problems[requested[i].pid].docId == problems[pid].docId;
    }
  }

  lemma ResolveOne(pids: seq<DocId>, requested: seq<Requested>, problems: map<Pid, Problem>,
                   resolved: seq<Item>, used: set<DocId>, n: nat)
    requires n < |requested| && Resolving(pids, requested, problems, resolved, used, n)
    requires ItemFault(pids, requested, problems, n) == None
    ensures var raw := problems[requested[n].pid];
            Resolving(pids, requested, problems, resolved + [Item(requested[n].slug, raw)], used + {raw.docId}, n + 1)
  {
    FaultByUse(pids, requested, problems, resolved, used, n);
    var raw := problems[requested[n].pid];
    var items, more := resolved + [Item(requested[n].slug, raw)], used + {raw.docId};
    assert Sound(pids, requested, problems, n + 1);
    hide Sound, ItemFault;
    forall i | 0 <= i < n + 1
      ensures Resolves(pids, requested[i], problems, items[i]) && items[i].problem.docId in more
    {
      if i < n {
        assert items[i] == resolved[i];
      }
    }
    forall d | d in more ensures exists i :: 0 <= i < n + 1 && items[i].problem.docId == d {
      if d in used {
        var i :| 0 <= i < n && resolved[i].problem.docId == d;
        assert items[i] == resolved[i];
      } else {
        assert items[n].problem.docId == d;
      }
    }
  }

  /**
   Succeeds exactly when the contest lists as many problems as are requested and no item has a
   fault; the answer then pairs the contest list one to one with the request.  On failure the
   error is the first faulty item's.  The final coverage check can never fail.
   */
  method ResolveContestProblemDraft(pids: seq<DocId>, requested: seq<Requested>, problems: map<Pid, Problem>)
    returns (r: Result<seq<Item>>)
    ensures r.Ok? <==> |pids| >= 1 && |pids| == |requested| && Sound(pids, requested, problems, |requested|)
    ensures r.Ok? ==> Covers(pids, requested, problems, r.value)
    ensures r.Err? && |pids| >= 1 && |pids| == |requested| ==>
              exists i :: 0 <= i < |requested| && Sound(pids, requested, problems, i)
                && ItemFault(pids, requested, problems, i) == Some(r.error)
    ensures !(|pids| >= 1 && |pids| == |requested|) ==> r == Err(WrongCover)
  {
    if |pids| < 1 || |pids| != |requested| {
      return Err(WrongCover);
    }
    var resolved: seq<Item> := [];
    var used: set<DocId> := {};
    var n := 0;
    while n < |requested|
      invariant 0 <= n <= |requested|
      invariant Resolving(pids, requested, problems, resolved, used, n)
    {
      var pid := requested[n].pid;
      FaultByUse(pids, requested, problems, resolved, used, n);
      if pid !in problems || problems[pid].docId !in pids || problems[pid].docId in used {
        return Err(BadPid);
      }
      var raw := problems[pid];
      if raw.derived {
        return Err(Derived);
      }
      if !raw.supported {
        return Err(Unsupported);
      }
      if !raw.parses {
        return Err(BadConfig);
      }
      if !raw.inputs.Hashed? {
        return Err(if raw.inputs.Oversized? then TooLarge else BadInputs);
      }
      ResolveOne(pids, requested, problems, resolved, used, n);
      resolved := resolved + [Item(requested[n].slug, raw)];
      used := used + {raw.docId};
      n := n + 1;
    }
    PigeonholeCovers(pids, used);
    if exists d :: d in pids && d !in used {
      assert false;
      return Err(WrongCover);
    }
    assert forall d :: d in pids ==> d in used;
    var items := InContestOrder(pids, resolved);
    CoversAll(pids, requested, problems, resolved, items);
    return Ok(items);
  }

  /** The contest list read through a lookup of the resolved items. */
  method InContestOrder(pids: seq<DocId>, resolved: seq<Item>) returns (items: seq<Item>)
    requires forall d :: d in pids ==> exists j :: 0 <= j < |resolved| && resolved[j].problem.docId == d
    ensures DocIds(items) == pids && forall i :: 0 <= i < |items| ==> items[i] in resolved
  {
    items := [];
    var i := 0;
    while i < |pids|
      invariant 0 <= i <= |pids| && |items| == i
      invariant forall k :: 0 <= k < i ==> items[k].problem.docId == pids[k] && items[k] in resolved
    {
      assert pids[i] in pids;
      var j := 0;
      while resolved[j].problem.docId != pids[i]
        invariant 0 <= j < |resolved| && exists m :: j <= m < |resolved| && resolved[m].problem.docId == pids[i]
        decreases |resolved| - j
      {
        j := j + 1;
      }
      items := items + [resolved[j]];
      i := i + 1;
    }
  }

  lemma CoversAll(pids: seq<DocId>, requested: seq<Requested>, problems: map<Pid, Problem>,
                  resolved: seq<Item>, items: seq<Item>)
    requires |requested| == |pids| == |resolved| && Distinct(pids) && DocIds(items) == pids
    requires forall i :: 0 <= i < |items| ==> items[i] in resolved
    requires forall i :: 0 <= i < |resolved| ==> Resolves(pids, requested[i], problems, resolved[i])
    requires Sound(pids, requested, problems, |requested|)
    ensures Covers(pids, requested, problems, items)
  {
    forall i | 0 <= i < |items|
      ensures Usable(items[i].problem)
      ensures exists j :: 0 <= j < |requested| && Answers(requested[j], problems, items[i])
    {
      var j :| 0 <= j < |resolved| && resolved[j] == items[i];
      assert Resolves(pids, requested[j], problems, items[i]) && Answers(requested[j], problems, items[i]);
    }
    forall j | 0 <= j < |requested| ensures Answered(requested[j], problems, items) {
      var i :| 0 <= i < |pids| && pids[i] == resolved[j].problem.docId;
      assert DocIds(items)[i] == items[i].problem.docId;
      var k :| 0 <= k < |resolved| && resolved[k] == items[i];
      SameDocument(pids, requested, problems, resolved, j, k);
      assert Resolves(pids, requested[k], problems, resolved[k]) && Answers(requested[j], problems, items[i]);
    }
  }

  lemma SameDocument(pids: seq<DocId>, requested: seq<Requested>, problems: map<Pid, Problem>,
                     resolved: seq<Item>, j: nat, k: nat)
    requires j < |requested| && k < |requested| && |resolved| == |requested|
    requires Sound(pids, requested, problems, |requested|)
    requires forall i :: 0 <= i < |resolved| ==> Resolves(pids, requested[i], problems, resolved[i])
    requires resolved[j].problem.docId == resolved[k].problem.docId
    ensures j == k
  {
    var low, high := if j < k then j else k, if j < k then k else j;
    assert ItemFault(pids, requested, problems, high) == None;
    assert Resolves(pids, requested[low], problems, resolved[low]);
    assert Resolves(pids, requested[high], problems, resolved[high]);
  }

  // ----- remapping a per-problem record -----

  type PidRecord = map<DocId, Value>

  function RemapUpTo(value: PidRecord, source: seq<DocId>, target: seq<DocId>, n: nat): PidRecord
    requires n <= |source| == |target|
  {
    if n == 0 then map[]
    else
      var before := RemapUpTo(value, source, target, n - 1);
      if source[n - 1] in value then before[target[n - 1] := value[source[n - 1]]] else before
  }

  function Remap(value: Option<PidRecord>, source: seq<DocId>, target: seq<DocId>): Option<PidRecord>
    requires |source| == |target|
  {
    if value.None? then None else Some(RemapUpTo(value.value, source, target, |source|))
  }

  method RemapPidRecord(value: Option<PidRecord>, source: seq<DocId>, target: seq<DocId>) returns (r: Option<PidRecord>)
    requires |source| == |target|
    ensures r == Remap(value, source, target)
  {
    if value.None? {
      return None;
    }
    var result: PidRecord := map[];
    for i := 0 to |source|
      invariant result == RemapUpTo(value.value, source, target, i)
    {
      if source[i] in value.value {
        result := result[target[i] := value.value[source[i]]];
      }
    }
    return Some(result);
  }

  /** Each target has exactly its source's value, and nothing else is there. */
  lemma {:induction false} RemapUpToIs(value: PidRecord, source: seq<DocId>, target: seq<DocId>, n: nat)
    requires n <= |source| == |target| && Distinct(target)
    ensures var r := RemapUpTo(value, source, target, n);
            && (forall i :: 0 <= i < n ==> (target[i] in r <==> source[i] in value))
            && (forall i :: 0 <= i < n && source[i] in value ==> r[target[i]] == value[source[i]])
            && (forall d :: d in r ==> exists i :: 0 <= i < n && target[i] == d)
  {
    if n > 0 {
      RemapUpToIs(value, source, target, n - 1);
      var before := RemapUpTo(value, source, target, n - 1);
      assert target[n - 1] !in before;
    }
  }

  lemma RoundTripAt(value: PidRecord, source: seq<DocId>, target: seq<DocId>, d: DocId)
    requires |source| == |target| && Distinct(source) && Distinct(target)
    ensures var back := RemapUpTo(RemapUpTo(value, source, target, |source|), target, source, |source|);
            (d in back <==> d in value && d in source) && (d in back ==> back[d] == value[d])
  {
    var there := RemapUpTo(value, source, target, |source|);
    RemapUpToIs(value, source, target, |source|);
    RemapUpToIs(there, target, source, |source|);
    hide RemapUpTo, Distinct;
    if d in source {
      var i :| 0 <= i < |source| && source[i] == d;
      assert target[i] in there <==> source[i] in value;
    }
  }

  /** Moving a record to the clones and back restores it exactly when it only speaks of the sources,
      which is what the stale-key check of the snapshot demands. */
  lemma RemapRoundTrip(value: PidRecord, source: seq<DocId>, target: seq<DocId>)
    requires |source| == |target| && Distinct(source) && Distinct(target)
    ensures Remap(Remap(Some(value), source, target), target, source) == Some(value)
            <==> forall d :: d in value ==> d in source
  {
    var back := RemapUpTo(RemapUpTo(value, source, target, |source|), target, source, |source|);
    forall d ensures (d in back <==> d in value && d in source) && (d in back ==> back[d] == value[d]) {
      RoundTripAt(value, source, target, d);
    }
    hide RemapUpTo, Distinct;
    assert (forall d :: d in value ==> d in source) ==> back == value;
  }
}
