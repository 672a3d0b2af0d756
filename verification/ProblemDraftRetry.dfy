/**
 A retry of the file-I/O switch before the contest is switched: wherever an earlier attempt died,
 one undisturbed attempt finds what is there, makes what is missing, switches and answers.
 */
module ProblemDraftRetry {
  import opened Basics
  import opened JournalStore
  import opened ProblemDraftMapping
  import opened ProblemDraftSwap
  import opened ProblemDraftSafety

  /** How an operation names the clone for a slug. */
  type Namer = (Key, Slug) -> ClonePid

  /** The shortened hashes in clone ids are taken not to collide. */
  ghost predicate Apart(name: Namer) {
    forall a, s, b, t :: name(a, s) == name(b, t) ==> a == b && s == t
  }

  /** The request parser refuses a slug that occurs twice. */
  ghost predicate SlugsApart(problems: seq<Requested>) {
    forall i, j :: 0 <= i < j < |problems| ==> problems[i].slug != problems[j].slug
  }

  ghost predicate ItemsApart(items: seq<Item>) {
    forall i, j :: 0 <= i < j < |items| ==> items[i].slug != items[j].slug
  }

  /** An event as parser and naming make it. */
  ghost predicate Proper(w: World, e: Event, name: Namer)
    requires At(w, e)
  {
    && (e.Begin? ==> SlugsApart(e.request.problems))
    && (e.Ensure? ==>
          var k := w.worker.value;
          e.pid == name(k.request.op, k.pc.items[|k.pc.picked|].slug))
  }

  ghost predicate NamedRun(ws: seq<World>, es: seq<Event>, limit: nat, name: Namer) {
    && IsRun(ws, es, limit)
    && forall i {:trigger es[i]} :: 0 <= i < |es| ==> At(ws[i], es[i]) && Proper(ws[i], es[i], name)
  }

  // ----- what is there before the switch -----

  /** The clone a link names exists, under the operation's name for it. */
  ghost predicate LinkThere(clones: map<ClonePid, Clone>, name: Namer, op: Key, link: Link) {
    && link.clonePid == name(op, link.slug)
    && link.clonePid in clones && clones[link.clonePid].docId == link.clone
  }

  ghost predicate EntryOpen(clones: map<ClonePid, Clone>, name: Namer, e: Entry) {
    && !e.stamp.complete && SlugsApart(e.request.problems)
    && (|e.source| > 0 ==> ItemsApart(e.request.preflight.items))
    && forall i :: 0 <= i < |e.mapping| ==> LinkThere(clones, name, e.request.op, e.mapping[i])
  }

  ghost predicate MadeAs(p: ClonePid, c: Clone, request: Request, name: Namer, n: int) {
    var items := request.preflight.items;
    && 0 <= n < |items| && c.op == request.op && p == name(c.op, items[n].slug)
    && c.text == items[n].problem.source.text && (c.meta.Some? ==> c.meta.value == MetaOf(request, items[n]))
  }

  /** A clone was made by an operation whose entry on disk still says for what. */
  ghost predicate Made(disk: map<Key, Entry>, name: Namer, p: ClonePid, c: Clone) {
    c.op in disk && exists n :: MadeAs(p, c, disk[c.op].request, name, n)
  }

  ghost predicate Same(memory: map<Key, Entry>, disk: map<Key, Entry>) {
    forall op :: op in disk ==> op in memory && memory[op].request == disk[op].request
  }

  ghost predicate AllOpen(clones: map<ClonePid, Clone>, name: Namer, entries: map<Key, Entry>) {
    forall op :: op in entries ==> EntryOpen(clones, name, entries[op])
  }

  ghost predicate AllMade(disk: map<Key, Entry>, name: Namer, clones: map<ClonePid, Clone>) {
    forall p :: p in clones ==> Made(disk, name, p, clones[p])
  }

  ghost predicate Books(w: World, name: Namer) {
    && AllOpen(w.clones, name, w.memory) && AllOpen(w.clones, name, w.disk)
    && Same(w.memory, w.disk) && AllMade(w.disk, name, w.clones)
  }

  /** Until the switch every entry is open, and a worker at its clones has its entry on disk. */
  ghost predicate Pending(w: World, name: Namer) {
    w.contest.marker.None? ==>
      && Books(w, name)
      && (w.worker.Some? && (w.worker.value.pc.Cloning? || w.worker.value.pc.Copying?) ==>
            w.worker.value.request.op in w.disk)
  }

  // ----- saving -----

  /** With every entry open, pruning keeps them all. */
  lemma StoreAll(w: World, e: Entry, kept: set<Key>, fault: Fault, limit: nat)
    requires Kept(w, e, kept, limit) && !e.stamp.complete
    requires forall op :: op in w.memory ==> !w.memory[op].stamp.complete
    ensures var u := Store(w, e, kept, fault);
            && u.memory == w.memory[e.request.op := e] && u.clones == w.clones && u.contest == w.contest
            && u.worker == w.worker && u.docs == w.docs && u.problems == w.problems
            && u.disk == if fault.BeforeRename? then w.disk else u.memory
  {
    var all := w.memory[e.request.op := e];
    forall k | k in all ensures k in kept {
      assert k in StampsIn(all) && StampsIn(all)[k] == all[k].stamp;
    }
  }

  lemma MadeFrame(disk: map<Key, Entry>, later: map<Key, Entry>, name: Namer, clones: map<ClonePid, Clone>)
    requires AllMade(disk, name, clones)
    requires forall op :: op in disk ==> op in later && later[op].request == disk[op].request
    ensures AllMade(later, name, clones)
  {
    forall p | p in clones ensures Made(later, name, p, clones[p]) {
      assert Made(disk, name, p, clones[p]);
      hide MadeAs;
    }
  }

  lemma OpenFrame(w: World, name: Namer)
    requires AllOpen(w.clones, name, w.memory)
    ensures forall op :: op in w.memory ==> !w.memory[op].stamp.complete
  {}

  lemma AssignBooks(w: World, e: Entry, name: Namer)
    requires Books(w, name) && EntryOpen(w.clones, name, e)
    requires e.request.op in w.memory ==> w.memory[e.request.op].request == e.request
    ensures var memory := w.memory[e.request.op := e];
            && AllOpen(w.clones, name, memory) && Same(memory, w.disk) && Same(memory, memory)
            && AllMade(memory, name, w.clones)
  {
    hide EntryOpen, AllMade;
    MadeFrame(w.disk, w.memory[e.request.op := e], name, w.clones);
  }

  lemma StoreBooks(w: World, e: Entry, kept: set<Key>, fault: Fault, limit: nat, name: Namer)
    requires Books(w, name) && Kept(w, e, kept, limit) && EntryOpen(w.clones, name, e)
    requires e.request.op in w.memory ==> w.memory[e.request.op].request == e.request
    ensures var u := Store(w, e, kept, fault);
            && Books(u, name) && u.clones == w.clones && u.contest == w.contest && u.docs == w.docs
            && u.problems == w.problems && u.memory == w.memory[e.request.op := e]
            && (!fault.BeforeRename? ==> e.request.op in u.disk)
            && (e.request.op in w.disk ==> e.request.op in u.disk)
  {
    OpenFrame(w, name);
    StoreAll(w, e, kept, fault, limit);
    var memory := w.memory[e.request.op := e];
    AssignBooks(w, e, name);
    hide Store, Kept, EntryOpen, AllMade, AllOpen, Same;
  }

  lemma StoreGoPends(w: World, e: Entry, kept: set<Key>, fault: Fault, pc: Pc, limit: nat, name: Namer)
    requires w.contest.marker.None? && Books(w, name) && Kept(w, e, kept, limit) && EntryOpen(w.clones, name, e)
    requires e.request.op in w.memory ==> w.memory[e.request.op].request == e.request
    ensures Pending(StoreGo(w, e, kept, fault, pc), name)
  {
    StoreBooks(w, e, kept, fault, limit, name);
    hide Store, Kept, EntryOpen, AllOpen, AllMade, Same;
  }

  /** Moving the worker changes no book. */
  lemma WorkerPends(w: World, u: World, name: Namer)
    requires w.contest.marker.None? ==> Books(w, name)
    requires u == w.(worker := u.worker, contest := u.contest, problems := u.problems, answers := u.answers)
    requires u.contest.marker == w.contest.marker
    requires u.worker.Some? && (u.worker.value.pc.Cloning? || u.worker.value.pc.Copying?) ==>
               u.worker == w.worker && Pending(w, name)
    ensures Pending(u, name)
  {
    hide AllOpen, AllMade, Same;
  }

  lemma StopPends(w: World, name: Namer)
    requires w.contest.marker.None? ==> Books(w, name)
    ensures Pending(Stop(w), name)
  {
    hide Books;
    WorkerPends(w, Stop(w), name);
  }

  // ----- the worker's steps -----

  /** Distinct slugs were asked for, so distinct problems got distinct slugs. */
  lemma CoveredApart(pids: seq<DocId>, requested: seq<Requested>, problems: map<Pid, Problem>, items: seq<Item>)
    requires Covers(pids, requested, problems, items) && SlugsApart(requested)
    ensures ItemsApart(items)
  {
    hide Answers, Usable;
    forall i, j | 0 <= i < j < |items| ensures items[i].slug != items[j].slug {
      var a :| 0 <= a < |requested| && Answers(requested[a], problems, items[i]);
      var b :| 0 <= b < |requested| && Answers(requested[b], problems, items[j]);
      assert DocIds(items)[i] == items[i].problem.docId && DocIds(items)[j] == items[j].problem.docId;
      assert items[i].problem.docId != items[j].problem.docId;
      hide SlugsApart;
      AnswersApart(requested, problems, a, b, items[i], items[j]);
    }
  }

  lemma AnswersApart(requested: seq<Requested>, problems: map<Pid, Problem>, a: nat, b: nat, x: Item, y: Item)
    requires SlugsApart(requested) && a < |requested| && b < |requested| && x.problem.docId != y.problem.docId
    requires Answers(requested[a], problems, x) && Answers(requested[b], problems, y)
    ensures x.slug != y.slug
  {
    assert a != b;
  }

  lemma PreflightPends(w: World, e: Entry, admissible: bool, items: seq<Item>, kept: set<Key>, fault: Fault,
                       before: Contest, limit: nat, name: Namer)
    requires Holding(w, e, Preflighting, before) && Kept(w, e, kept, limit)
    requires w.contest.marker.None? && Books(w, name)
    requires Rederived(w, e.request, admissible, items) ==>
               Covers(w.contest.pids, e.request.problems, w.problems, items)
    ensures Pending(DoPreflight(w, e, admissible, items, kept, fault), name)
  {
    StopPends(w, name);
    if Rederived(w, e.request, admissible, items) {
      var f := e.(source := w.contest.pids, score := w.contest.score, balloon := w.contest.balloon);
      assert EntryOpen(w.clones, name, e);
      CoveredApart(w.contest.pids, e.request.problems, w.problems, items);
      SameStamp(w, e, f, kept, limit);
      hide Settled, EntryOk, Covers, Kept, Books, StoreGo, Stop, Pending, Sound, PlaceOk;
      StoreGoPends(w, f, kept, fault, Cloning(items, []), limit, name);
    }
  }

  lemma GrowsBooks(w: World, u: World, name: Namer)
    requires Books(w, name) && Grows(w.clones, u.clones) && u.memory == w.memory && u.disk == w.disk
    requires forall p :: p in u.clones && !(p in w.clones && u.clones[p] == w.clones[p]) ==>
               Made(u.disk, name, p, u.clones[p])
    ensures Books(u, name)
  {
    hide MadeAs, ItemsApart, SlugsApart, Same;
    forall p | p in u.clones ensures Made(u.disk, name, p, u.clones[p]) {
      if p in w.clones && u.clones[p] == w.clones[p] {
        assert Made(w.disk, name, p, w.clones[p]);
      }
    }
    hide Made;
    GrowsOpen(w.clones, u.clones, name, w.memory);
    GrowsOpen(w.clones, u.clones, name, w.disk);
  }

  lemma GrowsOpen(c: map<ClonePid, Clone>, d: map<ClonePid, Clone>, name: Namer, entries: map<Key, Entry>)
    requires AllOpen(c, name, entries) && Grows(c, d)
    ensures AllOpen(d, name, entries)
  {
    hide ItemsApart, SlugsApart;
    forall op | op in entries ensures EntryOpen(d, name, entries[op]) {
      assert EntryOpen(c, name, entries[op]);
    }
  }

  /** The clone under the name for item `n` was made for item `n`, if it is there. */
  lemma FoundFor(w: World, e: Entry, name: Namer, n: nat)
    requires Apart(name) && Books(w, name) && e.request.op in w.memory && w.memory[e.request.op] == e
    requires |e.source| > 0 && n < |e.request.preflight.items|
    ensures var item := e.request.preflight.items[n];
            var p := name(e.request.op, item.slug);
            p in w.clones ==> Acceptable(w.clones[p], e.request, item) && MadeAs(p, w.clones[p], e.request, name, n)
  {
    var items := e.request.preflight.items;
    var p := name(e.request.op, items[n].slug);
    assert EntryOpen(w.clones, name, e);
    if p in w.clones {
      assert Made(w.disk, name, p, w.clones[p]);
      var k :| MadeAs(p, w.clones[p], w.disk[w.clones[p].op].request, name, k);
      assert w.clones[p].op == e.request.op;
    }
  }

  lemma EntryIsOpen(w: World, name: Namer, op: Key)
    requires Books(w, name) && op in w.memory
    ensures EntryOpen(w.clones, name, w.memory[op])
  {
    hide EntryOpen, AllMade, Same;
  }

  lemma LinkOpen(clones: map<ClonePid, Clone>, name: Namer, e: Entry, link: Link)
    requires EntryOpen(clones, name, e) && LinkThere(clones, name, e.request.op, link)
    ensures EntryOpen(clones, name, e.(mapping := e.mapping + [link]))
  {
    hide LinkThere, SlugsApart, ItemsApart;
  }

  lemma VerifiedOpen(clones: map<ClonePid, Clone>, name: Namer, e: Entry, i: nat)
    requires EntryOpen(clones, name, e) && i < |e.mapping|
    ensures EntryOpen(clones, name, e.(mapping := e.mapping[i := e.mapping[i].(verified := true)]))
  {
    hide SlugsApart, ItemsApart;
    var f := e.(mapping := e.mapping[i := e.mapping[i].(verified := true)]);
    forall n | 0 <= n < |f.mapping| ensures LinkThere(clones, name, e.request.op, f.mapping[n]) {
      assert LinkThere(clones, name, e.request.op, e.mapping[n]);
    }
  }

  /** The two ways a clone is recorded: its link is there already, or is added. */
  lemma RecordPends(w: World, e: Entry, link: Link, pc: Pc, kept: set<Key>, fault: Fault, limit: nat, name: Namer)
    requires w.contest.marker.None? && Books(w, name) && Kept(w, e, kept, limit)
    requires e.request.op in w.memory && w.memory[e.request.op] == e && LinkThere(w.clones, name, e.request.op, link)
    ensures Pending(StoreGo(w, e, kept, fault, pc), name)
    ensures Pending(StoreGo(w, e.(mapping := e.mapping + [link]), kept, fault, pc), name)
  {
    EntryIsOpen(w, name, e.request.op);
    LinkOpen(w.clones, name, e, link);
    hide *;
    SameStamp(w, e, e.(mapping := e.mapping + [link]), kept, limit);
    StoreGoPends(w, e, kept, fault, pc, limit, name);
    StoreGoPends(w, e.(mapping := e.mapping + [link]), kept, fault, pc, limit, name);
  }

  lemma LinkPends(w: World, e: Entry, items: seq<Item>, picked: seq<int>, pid: ClonePid, doc: DocId,
                  kept: set<Key>, fault: Fault, limit: nat, name: Namer)
    requires w.contest.marker.None? && Books(w, name) && Kept(w, e, kept, limit)
    requires e.request.op in w.memory && w.memory[e.request.op] == e && |picked| < |items|
    requires pid == name(e.request.op, items[|picked|].slug) && pid in w.clones && w.clones[pid].docId == doc
    ensures Pending(LinkClone(w, e, items, picked, pid, doc, kept, fault), name)
  {
    var item := items[|picked|];
    var link := Link(item.problem.docId, doc, pid, item.slug, false);
    var pc := Copying(items, picked, Find(e.mapping, item.problem.docId), pid);
    assert LinkThere(w.clones, name, e.request.op, link) by { hide *; Named(w.clones, name, e.request.op, link); }
    hide *;
    StopPends(w, name);
    RecordPends(w, e, link, pc, kept, fault, limit, name);
    LinkOutcomes(w, e, items, picked, pid, doc, kept, fault);
  }

  lemma Named(clones: map<ClonePid, Clone>, name: Namer, op: Key, link: Link)
    requires link.clonePid == name(op, link.slug)
    requires link.clonePid in clones && clones[link.clonePid].docId == link.clone
    ensures LinkThere(clones, name, op, link)
  {}

  lemma EnsurePends(w: World, e: Entry, items: seq<Item>, picked: seq<int>, pid: ClonePid, added: DocId, clean: bool,
                    kept: set<Key>, fault: Fault, before: Contest, limit: nat, name: Namer)
    requires Holding(w, e, Cloning(items, picked), before) && |picked| < |items| && Kept(w, e, kept, limit)
    requires w.contest.marker.None? && Books(w, name) && e.request.op in w.disk
    requires pid == name(e.request.op, items[|picked|].slug)
    ensures Pending(DoEnsure(w, e, items, picked, pid, added, clean, kept, fault), name)
  {
    StopPends(w, name);
    if pid in w.clones {
      hide Books, Kept, LinkClone, Pending, Settled, EntryOk, Acceptable;
      LinkPends(w, e, items, picked, pid, w.clones[pid].docId, kept, fault, limit, name);
    } else {
      var u := AddClone(w, pid, Clone(added, e.request.op, items[|picked|].problem.source.text, None));
      AddBooks(w, e, items, picked, pid, added, before, name);
      hide Kept, LinkClone, Pending, Holding, Books;
      KeptSame(w, u, e, kept, limit);
      LinkPends(u, e, items, picked, pid, added, kept, fault, limit, name);
    }
  }

  lemma MadeNow(pid: ClonePid, c: Clone, request: Request, name: Namer, n: nat)
    requires n < |request.preflight.items| && c.op == request.op && c.meta.None?
    requires pid == name(c.op, request.preflight.items[n].slug)
    requires c.text == request.preflight.items[n].problem.source.text
    ensures MadeAs(pid, c, request, name, n)
  {}

  lemma AddBooks(w: World, e: Entry, items: seq<Item>, picked: seq<int>, pid: ClonePid, added: DocId,
                 before: Contest, name: Namer)
    requires Holding(w, e, Cloning(items, picked), before) && |picked| < |items| && pid !in w.clones
    requires Books(w, name) && e.request.op in w.disk && pid == name(e.request.op, items[|picked|].slug)
    ensures Books(AddClone(w, pid, Clone(added, e.request.op, items[|picked|].problem.source.text, None)), name)
  {
    hide Books;
    HoldingItems(w, e, items, picked, before);
    OnDisk(w, name, e.request.op);
    hide *;
    var c := Clone(added, e.request.op, items[|picked|].problem.source.text, None);
    MadeNow(pid, c, e.request, name, |picked|);
    AddedMade(w, pid, c, name, |picked|);
    GrowsBooks(w, AddClone(w, pid, c), name);
  }

  lemma HoldingItems(w: World, e: Entry, items: seq<Item>, picked: seq<int>, before: Contest)
    requires Holding(w, e, Cloning(items, picked), before)
    ensures items == e.request.preflight.items && e.request.op in w.memory && w.memory[e.request.op] == e
  {
    hide Settled, EntryOk, Done;
  }

  lemma OnDisk(w: World, name: Namer, op: Key)
    requires Books(w, name) && op in w.disk
    ensures op in w.memory && w.memory[op].request == w.disk[op].request
  {
    hide AllOpen, AllMade;
  }

  lemma AddedMade(w: World, pid: ClonePid, c: Clone, name: Namer, n: nat)
    requires pid !in w.clones && c.op in w.disk && MadeAs(pid, c, w.disk[c.op].request, name, n)
    ensures var u := AddClone(w, pid, c);
            && Grows(w.clones, u.clones) && u.memory == w.memory && u.disk == w.disk
            && forall p :: p in u.clones && !(p in w.clones && u.clones[p] == w.clones[p]) ==>
                 Made(u.disk, name, p, u.clones[p])
  {
    hide MadeAs;
  }

  lemma CopyPends(w: World, e: Entry, items: seq<Item>, picked: seq<int>, link: int, pid: ClonePid, agrees: bool,
                  kept: set<Key>, fault: Fault, before: Contest, limit: nat, name: Namer)
    requires Holding(w, e, Copying(items, picked, link, pid), before) && Kept(w, e, kept, limit)
    requires Apart(name) && w.contest.marker.None? && Books(w, name)
    ensures Pending(DoCopy(w, e, items, picked, link, pid, agrees, kept, fault), name)
  {
    var u := MarkClone(w, pid, MetaOf(e.request, items[|picked|]));
    MarkBooks(w, e, items, picked, link, pid, before, name);
    var f := e.(mapping := e.mapping[link := e.mapping[link].(verified := true)]);
    EntryIsOpen(u, name, e.request.op);
    VerifiedOpen(u.clones, name, e, link);
    StopPends(u, name);
    hide Books, Kept, Pending, Settled, EntryOk, StoreGo, Stop, EntryOpen, Working, Done;
    KeptSame(w, u, e, kept, limit);
    SameStamp(u, e, f, kept, limit);
    StoreGoPends(u, f, kept, fault, Cloning(items, picked + [link]), limit, name);
  }

  lemma OpenedOnDisk(w: World, name: Namer, pid: ClonePid)
    requires Books(w, name) && pid in w.clones
    ensures var op := w.clones[pid].op; op in w.disk && op in w.memory && w.memory[op].request == w.disk[op].request
  {
    assert Made(w.disk, name, pid, w.clones[pid]);
    hide MadeAs, AllOpen;
  }

  lemma MarkGrows(w: World, pid: ClonePid, meta: Meta)
    requires pid in w.clones && (w.clones[pid].meta.Some? ==> w.clones[pid].meta.value == meta)
    ensures Grows(w.clones, MarkClone(w, pid, meta).clones)
  {}

  lemma MarkBooks(w: World, e: Entry, items: seq<Item>, picked: seq<int>, link: int, pid: ClonePid,
                  before: Contest, name: Namer)
    requires Holding(w, e, Copying(items, picked, link, pid), before)
    requires Apart(name) && Books(w, name)
    ensures Books(MarkClone(w, pid, MetaOf(e.request, items[|picked|])), name)
  {
    var n := |picked|;
    var u := MarkClone(w, pid, MetaOf(e.request, items[n]));
    CopyFinds(w, e, items, picked, link, pid, before, name);
    assert e.request.op in w.memory && w.memory[e.request.op] == e;
    hide Holding;
    FoundFor(w, e, name, n);
    OpenedOnDisk(w, name, pid);
    hide Books, Apart;
    MarkGrows(w, pid, MetaOf(e.request, items[n]));
    hide Grows;
    assert MadeAs(pid, u.clones[pid], w.disk[e.request.op].request, name, n);
    hide MadeAs;
    assert Made(u.disk, name, pid, u.clones[pid]);
    hide Made;
    GrowsBooks(w, u, name);
  }

  /** The clone being filled is the one the operation names for the item. */
  lemma CopyFinds(w: World, e: Entry, items: seq<Item>, picked: seq<int>, link: int, pid: ClonePid,
                  before: Contest, name: Namer)
    requires Holding(w, e, Copying(items, picked, link, pid), before) && Books(w, name)
    ensures pid in w.clones && |picked| < |items| && items == e.request.preflight.items && |e.source| > 0
    ensures pid == name(e.request.op, items[|picked|].slug)
    ensures w.clones[pid].meta.Some? ==> w.clones[pid].meta.value == MetaOf(e.request, items[|picked|])
  {
    var n := |picked|;
    assert EntryOpen(w.clones, name, e);
    hide Settled, Books, Prepared, Sourced, Owned;
    assert LinkOk(w.clones, e.request, items[n], e.mapping[n]);
    assert LinkThere(w.clones, name, e.request.op, e.mapping[n]);
  }

  lemma TargetPends(w: World, e: Entry, items: seq<Item>, picked: seq<int>, kept: set<Key>, fault: Fault,
                    before: Contest, limit: nat, name: Namer)
    requires Holding(w, e, Cloning(items, picked), before) && |picked| == |items| && Kept(w, e, kept, limit)
    requires Picks(picked, e.mapping) && |picked| == |e.source|
    requires w.contest.marker.None? && Books(w, name)
    ensures Pending(DoTarget(w, e, picked, kept, fault), name)
  {
    var targets := Clones(e.mapping);
    var f := e.(mapping := e.mapping, target := targets, targetScore := Remap(e.score, e.source, targets),
                targetBalloon := Remap(e.balloon, e.source, targets));
    TargetEntry(w, e, items, picked);
    hide Holding, Kept, Books, Pending, StoreGo, Stop, Remap, EntryOpen, Storable, PlaceOk, Clones, AllVerified;
    EntryIsOpen(w, name, e.request.op);
    RetargetOpen(w.clones, name, e, f);
    StopPends(w, name);
    SameStamp(w, e, f, kept, limit);
    StoreGoPends(w, f, kept, fault, Final, limit, name);
  }

  lemma RetargetOpen(clones: map<ClonePid, Clone>, name: Namer, e: Entry, f: Entry)
    requires EntryOpen(clones, name, e)
    requires f.request == e.request && f.mapping == e.mapping && f.source == e.source && f.stamp == e.stamp
    ensures EntryOpen(clones, name, f)
  {
    hide LinkThere, ItemsApart, SlugsApart;
  }

  lemma BeginPends(w: World, request: Request, now: int, kept: set<Key>, fault: Fault, limit: nat, name: Namer)
    requires w.contest.marker.None? && Pending(w, name) && SlugsApart(request.problems)
    requires request.op !in w.memory ==> Kept(w, Fresh(request, now), kept, limit)
    ensures w.worker.None? ==> Pending(DoBegin(w, request, now, kept, fault), name)
    ensures w.worker.Some? ==> Pending(DoQueue(w, request, now, kept, fault), name)
  {
    var e := Fresh(request, now);
    if request.op !in w.memory {
      assert EntryOpen(w.clones, name, e);
      hide EntryOpen, Kept, Books, StoreGo, Store, Fresh;
      StoreBooks(w, e, kept, fault, limit, name);
      QueuedPends(w, e, kept, fault, limit, name);
      hide Pending;
      StoreGoPends(w, e, kept, fault, Checking, limit, name);
    } else {
      hide Books, Kept;
    }
  }

  lemma QueuedPends(w: World, e: Entry, kept: set<Key>, fault: Fault, limit: nat, name: Namer)
    requires w.contest.marker.None? && Pending(w, name) && Kept(w, e, kept, limit) && EntryOpen(w.clones, name, e)
    requires e.request.op !in w.memory
    ensures Pending(Store(w, e, kept, fault), name)
  {
    StoreBooks(w, e, kept, fault, limit, name);
    OpenFrame(w, name);
    StoreAll(w, e, kept, fault, limit);
    hide Store, Kept, EntryOpen, AllOpen, AllMade;
  }

  /** Without a marker no entry matches, so no worker is finishing. */
  lemma Unmatched(w: World, before: Contest)
    requires Inv(w, before) && w.contest.marker.None?
    ensures forall e :: !Matches(w.contest, e)
    ensures w.worker.Some? ==> !w.worker.value.pc.Finishing?
  {
    hide Settled;
  }

  lemma LightPends(w: World, e: Entry, kept: set<Key>, fault: Fault, admissible: bool, items: seq<Item>, open: bool,
                   name: Namer)
    requires w.contest.marker.None? && Books(w, name) && forall x :: !Matches(w.contest, x)
    ensures Pending(DoCheck(w, e, kept, fault), name)
    ensures Pending(DoRecheck(w, e, admissible, items), name)
    ensures Pending(DoSwap(w, e, open), name)
  {
    hide Books, Matches, AllVerified, Rederived, StoreReply, Completed;
    StopPends(w, name);
    WorkerPends(w, Go(w, e.request, Preflighting), name);
    WorkerPends(w, Go(w, e.request, Swapping), name);
  }

  lemma PendingParts(w: World, name: Namer)
    requires Pending(w, name) && w.contest.marker.None?
    ensures Books(w, name)
    ensures w.worker.Some? && (w.worker.value.pc.Cloning? || w.worker.value.pc.Copying?) ==>
              w.worker.value.request.op in w.disk
  {
    hide Books;
  }

  lemma EnabledParts(w: World, e: Event, limit: nat)
    requires Enabled(w, e, limit)
    ensures Ready(w) && At(w, e)
  {
    hide Ready, At, Possible;
  }

  lemma ProperPid(w: World, e: Event, name: Namer)
    requires At(w, e) && Proper(w, e, name) && e.Ensure?
    ensures var k := w.worker.value;
            w.worker.Some? && k.pc.Cloning? && |k.pc.picked| < |k.pc.items|
            && e.pid == name(k.request.op, k.pc.items[|k.pc.picked|].slug)
  {}

  /** The steps that make the clones, each of which saves. */
  lemma ClonesPend(w: World, e: Event, before: Contest, limit: nat, name: Namer)
    requires Inv(w, before) && Enabled(w, e, limit) && (e.Ensure? || e.Copy? || e.Target?)
    requires Apart(name) && w.contest.marker.None? && Pending(w, name) && Proper(w, e, name)
    ensures Pending(Work(w, e), name)
  {
    hide *;
    CloneParts(w, e, limit);
    Holds(w, before);
    PendingParts(w, name);
    EnabledParts(w, e, limit);
    if e.Ensure? {
      ProperPid(w, e, name);
    }
    var k := w.worker.value;
    var x := w.memory[k.request.op];
    if e.Ensure? {
      EnsurePends(w, x, k.pc.items, k.pc.picked, e.pid, e.added, e.clean, e.kept, e.fault, before, limit, name);
    } else if e.Copy? {
      CopyPends(w, x, k.pc.items, k.pc.picked, k.pc.link, k.pc.pid, e.agrees, e.kept, e.fault, before, limit, name);
    } else {
      TargetPends(w, x, k.pc.items, k.pc.picked, e.kept, e.fault, before, limit, name);
    }
  }

  lemma PreflightEvent(w: World, e: Event, before: Contest, limit: nat, name: Namer)
    requires Inv(w, before) && Enabled(w, e, limit) && e.Preflight? && w.contest.marker.None? && Pending(w, name)
    ensures Pending(Work(w, e), name)
  {
    hide *;
    PreflightParts(w, e, limit);
    Holds(w, before);
    PendingParts(w, name);
    var x := w.memory[w.worker.value.request.op];
    PreflightPends(w, x, e.admissible, e.items, e.kept, e.fault, before, limit, name);
  }

  /** The steps that save nothing before the switch. */
  lemma LightEvent(w: World, e: Event, before: Contest, limit: nat, name: Namer)
    requires Inv(w, before) && Enabled(w, e, limit) && w.contest.marker.None? && Pending(w, name)
    requires e.Check? || e.Recheck? || e.Swap? || e.Finish?
    ensures Pending(Work(w, e), name)
  {
    hide *;
    LightParts(w, e, limit);
    Unmatched(w, before);
    PendingParts(w, name);
    var x := w.memory[w.worker.value.request.op];
    if e.Check? {
      LightPends(w, x, e.kept, e.fault, false, [], false, name);
    } else if e.Recheck? {
      LightPends(w, x, {}, NoFault, e.admissible, e.items, false, name);
    } else if e.Swap? {
      LightPends(w, x, {}, NoFault, false, [], e.open, name);
    } else {
      assert false;
    }
  }

  lemma WorkPends(w: World, e: Event, before: Contest, limit: nat, name: Namer)
    requires Inv(w, before) && Enabled(w, e, limit) && !e.Begin? && !e.Throw? && !e.Outside? && !e.Crash?
    requires Apart(name) && w.contest.marker.None? && Pending(w, name) && Proper(w, e, name)
    ensures Pending(Work(w, e), name)
  {
    hide *;
    if e.Ensure? || e.Copy? || e.Target? {
      ClonesPend(w, e, before, limit, name);
    } else if e.Preflight? {
      PreflightEvent(w, e, before, limit, name);
    } else {
      LightEvent(w, e, before, limit, name);
    }
  }

  lemma SwitchedPends(w: World, e: Event, before: Contest, limit: nat, name: Namer)
    requires Inv(w, before) && Enabled(w, e, limit) && w.contest.marker.Some?
    ensures Pending(Apply(w, e), name)
  {
    MarkedStays(w, e, before);
    hide Apply, Books, Inv, Ready, At, Possible;
  }

  lemma ApplyPends(w: World, e: Event, before: Contest, limit: nat, name: Namer)
    requires Apart(name) && Inv(w, before) && Pending(w, name) && Enabled(w, e, limit) && Proper(w, e, name)
    ensures Pending(Apply(w, e), name)
  {
    if w.contest.marker.Some? {
      SwitchedPends(w, e, before, limit, name);
      hide Apply, Books, Inv;
    } else if e.Begin? {
      BeginPends(w, e.request, e.now, e.kept, e.fault, limit, name);
      hide DoBegin, DoQueue, Pending, Inv;
    } else if e.Outside? {
      hide Books, Inv;
      WorkerPends(w, Apply(w, e), name);
    } else if e.Crash? {
      CrashPends(w, name);
      hide Pending, Inv;
    } else if e.Throw? {
      hide Books, Inv;
      StopPends(w, name);
    } else {
      hide Inv, Pending, Enabled, Proper;
      WorkPends(w, e, before, limit, name);
      hide Work;
    }
  }

  lemma CrashPends(w: World, name: Namer)
    requires Pending(w, name)
    ensures Pending(w.(memory := w.disk, worker := None), name)
  {
    hide EntryOpen, AllMade;
  }

  lemma {:induction false} RunPends(ws: seq<World>, es: seq<Event>, limit: nat, name: Namer, i: nat)
    requires NamedRun(ws, es, limit, name) && Apart(name) && i < |ws|
    ensures Inv(ws[i], ws[0].contest) && Pending(ws[i], name)
  {
    hide *;
    NamedParts(ws, es, limit, name);
    StartsIdle(ws, es, limit);
    RunKeeps(ws, es, limit, i);
    if i == 0 {
      InitialPends(ws[0], name);
    } else {
      RunPends(ws, es, limit, name, i - 1);
      StepOf(ws, es, limit, i - 1);
      ApplyPends(ws[i - 1], es[i - 1], ws[0].contest, limit, name);
    }
  }

  lemma InitialPends(w: World, name: Namer)
    requires IsInitial(w)
    ensures Pending(w, name)
  {}

  lemma NamedParts(ws: seq<World>, es: seq<Event>, limit: nat, name: Namer)
    requires NamedRun(ws, es, limit, name)
    ensures IsRun(ws, es, limit) && |ws| == |es| + 1
    ensures forall i :: 0 <= i < |es| ==> At(ws[i], es[i]) && Proper(ws[i], es[i], name)
  {
    hide Enabled, Apply, At, Proper;
  }

  // ----- one undisturbed attempt -----

  /** Playing events from a world leads to another. */
  ghost predicate Leads(w: World, es: seq<Event>, u: World, limit: nat)
    decreases |es|
  {
    if es == [] then u == w else Enabled(w, es[0], limit) && Leads(Apply(w, es[0]), es[1..], u, limit)
  }

  lemma {:induction false} LeadsOn(w: World, es: seq<Event>, v: World, e: Event, limit: nat)
    requires Leads(w, es, v, limit) && Enabled(v, e, limit)
    ensures Leads(w, es + [e], Apply(v, e), limit)
    decreases |es|
  {
    hide Ready, At, Possible, Apply;
    if es == [] {
      assert (es + [e])[1..] == [];
    } else {
      LeadsOn(Apply(w, es[0]), es[1..], v, e, limit);
      assert (es + [e])[1..] == es[1..] + [e];
    }
  }

  /** No throw, no crash, no outside edit, and every answer of the environment is the good one. */
  predicate Smooth(e: Event) {
    match e
    case Begin(_, _, _, fault) => fault.NoFault?
    case Check(_, fault) => fault.NoFault?
    case Preflight(admissible, _, _, fault) => admissible && fault.NoFault?
    case Ensure(_, _, clean, _, fault) => clean && fault.NoFault?
    case Copy(agrees, _, fault) => agrees && fault.NoFault?
    case Target(_, fault) => fault.NoFault?
    case Recheck(admissible, _) => admissible
    case Swap(open) => open
    case Finish(_, fault) => fault.NoFault?
    case _ => false
  }

  /** An attempt so far: it began with the request, and stands before the switch. */
  ghost predicate Got(w: World, es: seq<Event>, u: World, request: Request, pc: Pc, name: Namer, before: Contest,
                      limit: nat)
  {
    && Leads(w, es, u, limit) && Inv(u, before) && Pending(u, name) && u.worker == Some(Worker(request, pc))
    && es != [] && es[0].Begin? && es[0].request == request && (forall e :: e in es ==> Smooth(e))
    && u.contest == w.contest && u.contest.marker.None? && u.problems == w.problems
  }

  lemma GotAt(w: World, es: seq<Event>, u: World, request: Request, pc: Pc, name: Namer, before: Contest, limit: nat)
    requires Got(w, es, u, request, pc, name, before, limit)
    ensures Inv(u, before) && Pending(u, name) && u.worker == Some(Worker(request, pc))
    ensures u.contest == w.contest && u.contest.marker.None? && u.problems == w.problems
    ensures Ready(u) && Books(u, name)
    ensures request.op in u.memory && Holding(u, u.memory[request.op], pc, before)
    ensures u.memory[request.op].request == request
  {
    hide Leads, Inv, Smooth, Books, Holding, Ready;
    InvReady(u, before);
    Holds(u, before);
  }

  lemma GetOn(w: World, es: seq<Event>, v: World, request: Request, pc: Pc, e: Event, next: Pc, name: Namer,
              before: Contest, limit: nat) returns (fs: seq<Event>, u: World)
    requires Got(w, es, v, request, pc, name, before, limit) && Apart(name)
    requires Enabled(v, e, limit) && Smooth(e) && Proper(v, e, name)
    requires var u := Apply(v, e);
             u.worker == Some(Worker(request, next)) && u.contest == v.contest && u.problems == v.problems
    ensures u == Apply(v, e) && fs == es + [e] && Got(w, fs, u, request, next, name, before, limit)
  {
    hide Leads, Inv, Pending, Apply, Ready, At, Possible, Smooth, Proper, Apart;
    fs, u := es + [e], Apply(v, e);
    LeadsOn(w, es, v, e, limit);
    ApplyKeeps(v, e, before, limit);
    ApplyPends(v, e, before, limit, name);
  }

  lemma KeptExists(w: World, e: Entry, limit: nat) returns (kept: set<Key>)
    ensures Kept(w, e, kept, limit)
  {
    kept := PruningExists(StampsIn(w.memory[e.request.op := e]), limit);
  }

  /** What a step leaves alone before the switch, and where it takes the worker. */
  ghost predicate Moves(v: World, u: World, request: Request, next: Pc) {
    && u.worker == Some(Worker(request, next)) && u.contest == v.contest && u.problems == v.problems && u.docs == v.docs
  }

  /** The entry is found, or made. */
  lemma Begun(w: World, request: Request, now: int, name: Namer, before: Contest, limit: nat)
    returns (steps: seq<Event>, u: World)
    requires Inv(w, before) && Pending(w, name) && Apart(name) && w.worker.None? && w.contest.marker.None?
    requires SlugsApart(request.problems) && (request.op in w.memory ==> w.memory[request.op].request == request)
    ensures Got(w, steps, u, request, Checking, name, before, limit) && u.docs == w.docs
  {
    var kept := KeptExists(w, Fresh(request, now), limit);
    var e := Begin(request, now, kept, NoFault);
    NotComplete(w, request.op, name);
    BeginGoes(w, request, now, kept, limit);
    EnabledParts(w, e, limit);
    assert Proper(w, e, name);
    LeadsNowhere(w, limit);
    hide *;
    LeadsOn(w, [], w, e, limit);
    ApplyKeeps(w, e, before, limit);
    ApplyPends(w, e, before, limit, name);
    assert [] + [e] == [e];
    steps, u := [e], Apply(w, e);
    BeginGot(w, e, request, name, before, limit);
  }

  lemma BeginGot(w: World, e: Event, request: Request, name: Namer, before: Contest, limit: nat)
    requires Enabled(w, e, limit) && Leads(w, [e], Apply(w, e), limit)
    requires Inv(Apply(w, e), before) && Pending(Apply(w, e), name)
    requires Moves(w, Apply(w, e), request, Checking) && w.contest.marker.None?
    requires e.Begin? && e.request == request && e.fault.NoFault?
    ensures Got(w, [e], Apply(w, e), request, Checking, name, before, limit) && Apply(w, e).docs == w.docs
  {
    hide Leads, Inv, Pending, Apply;
  }

  lemma LeadsNowhere(w: World, limit: nat)
    ensures Leads(w, [], w, limit)
  {}

  lemma NotComplete(w: World, op: Key, name: Namer)
    requires Pending(w, name) && w.contest.marker.None?
    ensures op in w.memory ==> !w.memory[op].stamp.complete
  {
    if op in w.memory {
      EntryIsOpen(w, name, op);
    }
  }

  lemma BeginGoes(w: World, request: Request, now: int, kept: set<Key>, limit: nat)
    requires w.worker.None? && Kept(w, Fresh(request, now), kept, limit)
    requires request.op in w.memory ==> w.memory[request.op].request == request && !w.memory[request.op].stamp.complete
    ensures var e := Begin(request, now, kept, NoFault);
            Enabled(w, e, limit) && Moves(w, Apply(w, e), request, Checking)
  {
    hide Kept, Pruned;
  }

  /** Nothing is switched yet, and the approved snapshot derives again. */
  lemma Prepares(w: World, es: seq<Event>, v: World, request: Request, items: seq<Item>, name: Namer,
                 before: Contest, limit: nat) returns (steps: seq<Event>, u: World)
    requires Got(w, es, v, request, Checking, name, before, limit) && Apart(name)
    requires Rederived(w, request, true, items) && Covers(w.contest.pids, request.problems, w.problems, items)
    ensures Got(w, steps, u, request, Cloning(items, []), name, before, limit) && u.docs == v.docs
  {
    GotAt(w, es, v, request, Checking, name, before, limit);
    var kept := KeptExists(v, Completed(v.memory[request.op]), limit);
    Unmatched(v, before);
    CheckGoes(v, request, kept, limit);
    hide Got, Inv, Kept, Apply, Holding, Books, Rederived, Covers, Apart, Enabled, Ready, Matches;
    steps, u := GetOn(w, es, v, request, Checking, Check(kept, NoFault), Preflighting, name, before, limit);
    GotAt(w, steps, u, request, Preflighting, name, before, limit);
    SameDerived(w, u, request, items);
    kept := KeptExists(u, u.memory[request.op], limit);
    SourceFits(u, u.memory[request.op], items, before);
    PreflightGoes(u, request, items, kept, limit);
    steps, u := GetOn(w, steps, u, request, Preflighting, Preflight(true, items, kept, NoFault), Cloning(items, []),
                      name, before, limit);
  }

  lemma SameDerived(w: World, u: World, request: Request, items: seq<Item>)
    requires Rederived(w, request, true, items) && u.contest == w.contest && u.problems == w.problems
    ensures Rederived(u, request, true, items)
  {}

  lemma CheckGoes(v: World, request: Request, kept: set<Key>, limit: nat)
    requires Ready(v) && v.worker == Some(Worker(request, Checking))
    requires request.op in v.memory && Kept(v, Completed(v.memory[request.op]), kept, limit)
    requires v.memory[request.op].request == request && v.contest.marker.None?
    requires !Matches(v.contest, v.memory[request.op])
    ensures var e := Check(kept, NoFault); Enabled(v, e, limit) && Moves(v, Apply(v, e), request, Preflighting)
  {
    hide Ready, Kept, Matches, AllVerified, StoreReply, Completed;
  }

  /** The sources an earlier attempt recorded are those of the approved snapshot. */
  lemma SourceFits(v: World, e: Entry, items: seq<Item>, before: Contest)
    requires Holding(v, e, Preflighting, before) && Rederived(v, e.request, true, items)
    ensures |e.source| == 0 || e.source == v.contest.pids
  {
    hide Settled, Sound, Linked, Prepared, KeysIn;
  }

  lemma PreflightGoes(v: World, request: Request, items: seq<Item>, kept: set<Key>, limit: nat)
    requires Ready(v) && v.worker == Some(Worker(request, Preflighting)) && request.op in v.memory
    requires v.memory[request.op].request == request && Kept(v, v.memory[request.op], kept, limit)
    requires Rederived(v, request, true, items) && Covers(v.contest.pids, request.problems, v.problems, items)
    requires |v.memory[request.op].source| == 0 || v.memory[request.op].source == v.contest.pids
    ensures var e := Preflight(true, items, kept, NoFault);
            Enabled(v, e, limit) && Moves(v, Apply(v, e), request, Cloning(items, []))
  {
    hide Ready, Kept, Covers, Rederived;
  }

  // ----- the clones -----

  lemma EnsureGoes(v: World, e: Entry, items: seq<Item>, picked: seq<int>, added: DocId, kept: set<Key>,
                   name: Namer, before: Contest, limit: nat)
    requires Holding(v, e, Cloning(items, picked), before) && Books(v, name) && Apart(name) && |picked| < |items|
    ensures var n := |picked|;
            var pid := name(e.request.op, items[n].slug);
            var u := DoEnsure(v, e, items, picked, pid, added, true, kept, NoFault);
            && u.worker == Some(Worker(e.request, Copying(items, picked, n, pid)))
            && u.contest == v.contest && u.problems == v.problems && u.docs <= v.docs + {added}
  {
    var n := |picked|;
    var pid := name(e.request.op, items[n].slug);
    EnsureFinds(v, e, items, picked, name, before);
    hide Books, Holding, Apart, Acceptable, Find;
    StoresMove(e, items, picked, pid, kept);
    hide StoreGo;
  }

  lemma StoresMove(e: Entry, items: seq<Item>, picked: seq<int>, pid: ClonePid, kept: set<Key>)
    ensures forall w: World, f: Entry, pc :: f.request == e.request ==>
              Moves(w, StoreGo(w, f, kept, NoFault, pc), e.request, pc)
  {}

  /** The clone is there and linked, there and not linked, or neither. */
  lemma EnsureFinds(v: World, e: Entry, items: seq<Item>, picked: seq<int>, name: Namer, before: Contest)
    requires Holding(v, e, Cloning(items, picked), before) && Books(v, name) && Apart(name) && |picked| < |items|
    ensures var n := |picked|;
            var pid := name(e.request.op, items[n].slug);
            && n <= |e.mapping| && Find(e.mapping, items[n].problem.docId) == n
            && (pid in v.clones ==> Acceptable(v.clones[pid], e.request, items[n]))
            && (n < |e.mapping| ==>
                  pid in v.clones && e.mapping[n].clonePid == pid && e.mapping[n].clone == v.clones[pid].docId)
  {
    var n := |picked|;
    EntryIsOpen(v, name, e.request.op);
    assert |e.source| > 0 && items == e.request.preflight.items && |picked| <= |e.mapping|;
    assert EntryOk(v.clones, e.request.op, e);
    hide Holding, Settled, Prepared, Sourced;
    FoundFor(v, e, name, n);
    FindNext(v.clones, e, n);
    hide Books, Acceptable, Find, MadeAs, Owned;
    if n < |e.mapping| {
      assert LinkOk(v.clones, e.request, items[n], e.mapping[n]);
      assert LinkThere(v.clones, name, e.request.op, e.mapping[n]);
    }
  }

  lemma CopyGoes(v: World, e: Entry, items: seq<Item>, picked: seq<int>, pid: ClonePid, kept: set<Key>, before: Contest)
    requires Holding(v, e, Copying(items, picked, |picked|, pid), before)
    ensures |picked| < |items| && |picked| < |e.mapping| && pid in v.clones
    ensures var u := DoCopy(v, e, items, picked, |picked|, pid, true, kept, NoFault);
            && u.worker == Some(Worker(e.request, Cloning(items, picked + [|picked|])))
            && u.contest == v.contest && u.problems == v.problems && u.docs == v.docs
  {
    hide Settled, EntryOk, Working, Done;
  }

  lemma EnsureStep(v: World, request: Request, items: seq<Item>, picked: seq<int>, added: DocId, kept: set<Key>,
                   name: Namer, limit: nat)
    requires Ready(v) && v.worker == Some(Worker(request, Cloning(items, picked))) && |picked| < |items|
    requires request.op in v.memory && Kept(v, v.memory[request.op], kept, limit) && added !in v.docs
    ensures var pid := name(request.op, items[|picked|].slug);
            var e := Ensure(pid, added, true, kept, NoFault);
            && Enabled(v, e, limit) && Proper(v, e, name)
            && Apply(v, e) == DoEnsure(v, v.memory[request.op], items, picked, pid, added, true, kept, NoFault)
  {
    hide Ready, Kept, DoEnsure;
  }

  lemma CopyStep(v: World, request: Request, items: seq<Item>, picked: seq<int>, pid: ClonePid, kept: set<Key>,
                 name: Namer, limit: nat)
    requires Ready(v) && v.worker == Some(Worker(request, Copying(items, picked, |picked|, pid)))
    requires request.op in v.memory && Kept(v, v.memory[request.op], kept, limit)
    requires |picked| < |items| && |picked| < |v.memory[request.op].mapping| && pid in v.clones
    ensures var e := Copy(true, kept, NoFault);
            && Enabled(v, e, limit) && Proper(v, e, name)
            && Apply(v, e) == DoCopy(v, v.memory[request.op], items, picked, |picked|, pid, true, kept, NoFault)
  {
    hide Ready, Kept, DoCopy;
  }

  lemma EnsureOn(w: World, es: seq<Event>, v: World, request: Request, items: seq<Item>, picked: seq<int>, added: DocId,
                 name: Namer, before: Contest, limit: nat) returns (steps: seq<Event>, u: World)
    requires Got(w, es, v, request, Cloning(items, picked), name, before, limit) && Apart(name)
    requires |picked| < |items| && added !in v.docs
    ensures var pid := name(request.op, items[|picked|].slug);
            Got(w, steps, u, request, Copying(items, picked, |picked|, pid), name, before, limit)
    ensures u.docs <= v.docs + {added}
  {
    var at, pid := Cloning(items, picked), name(request.op, items[|picked|].slug);
    GotAt(w, es, v, request, at, name, before, limit);
    hide *;
    var kept := KeptExists(v, v.memory[request.op], limit);
    EnsureGoes(v, v.memory[request.op], items, picked, added, kept, name, before, limit);
    EnsureStep(v, request, items, picked, added, kept, name, limit);
    SmoothEnsure(pid, added, kept);
    steps, u := GetOn(w, es, v, request, at, Ensure(pid, added, true, kept, NoFault),
                      Copying(items, picked, |picked|, pid), name, before, limit);
  }

  lemma SmoothEnsure(pid: ClonePid, added: DocId, kept: set<Key>)
    ensures Smooth(Ensure(pid, added, true, kept, NoFault))
  {}

  lemma SmoothCopy(kept: set<Key>)
    ensures Smooth(Copy(true, kept, NoFault))
  {}

  lemma CopyOn(w: World, es: seq<Event>, v: World, request: Request, items: seq<Item>, picked: seq<int>, pid: ClonePid,
               name: Namer, before: Contest, limit: nat) returns (steps: seq<Event>, u: World)
    requires Got(w, es, v, request, Copying(items, picked, |picked|, pid), name, before, limit) && Apart(name)
    ensures Got(w, steps, u, request, Cloning(items, picked + [|picked|]), name, before, limit)
    ensures u.docs == v.docs && |picked| < |items|
  {
    var at := Copying(items, picked, |picked|, pid);
    GotAt(w, es, v, request, at, name, before, limit);
    hide *;
    var kept := KeptExists(v, v.memory[request.op], limit);
    CopyGoes(v, v.memory[request.op], items, picked, pid, kept, before);
    CopyStep(v, request, items, picked, pid, kept, name, limit);
    SmoothCopy(kept);
    steps, u := GetOn(w, es, v, request, at, Copy(true, kept, NoFault), Cloning(items, picked + [|picked|]),
                      name, before, limit);
  }

  /** The documents still unused are new. */
  ghost predicate Unused(added: seq<DocId>, docs: set<DocId>) {
    Distinct(added) && forall i :: 0 <= i < |added| ==> added[i] !in docs
  }

  lemma UnusedRest(added: seq<DocId>, docs: set<DocId>, more: set<DocId>)
    requires Unused(added, docs) && added != [] && more <= docs + {added[0]}
    ensures Unused(added[1..], more) && added[0] !in docs
  {}

  lemma {:induction false} CloneAll(w: World, es: seq<Event>, v: World, request: Request, items: seq<Item>,
                                    picked: seq<int>, added: seq<DocId>, name: Namer, before: Contest, limit: nat)
    returns (steps: seq<Event>, u: World, all: seq<int>)
    requires Got(w, es, v, request, Cloning(items, picked), name, before, limit) && Apart(name)
    requires |picked| <= |items| && |added| == |items| - |picked| && Unused(added, v.docs)
    ensures Got(w, steps, u, request, Cloning(items, all), name, before, limit) && |all| == |items|
    decreases |items| - |picked|
  {
    if |picked| == |items| {
      steps, u, all := es, v, picked;
    } else {
      UnusedRest(added, v.docs, v.docs);
      hide *;
      steps, u := EnsureOn(w, es, v, request, items, picked, added[0], name, before, limit);
      var pid := name(request.op, items[|picked|].slug);
      steps, u := CopyOn(w, steps, u, request, items, picked, pid, name, before, limit);
      UnusedRest(added, v.docs, u.docs);
      steps, u, all := CloneAll(w, steps, u, request, items, picked + [|picked|], added[1..], name, before, limit);
    }
  }

  // ----- the switch -----

  lemma TargetStep(v: World, request: Request, items: seq<Item>, picked: seq<int>, kept: set<Key>, limit: nat)
    requires Ready(v) && v.worker == Some(Worker(request, Cloning(items, picked))) && |picked| == |items|
    requires request.op in v.memory && Kept(v, v.memory[request.op], kept, limit)
    ensures Enabled(v, Target(kept, NoFault), limit)
    ensures Picks(picked, v.memory[request.op].mapping) && |picked| == |v.memory[request.op].source|
    ensures Apply(v, Target(kept, NoFault)) == DoTarget(v, v.memory[request.op], picked, kept, NoFault)
  {
    hide Kept, DoTarget, Picks;
  }

  lemma TargetGoes(v: World, e: Entry, items: seq<Item>, picked: seq<int>, kept: set<Key>, before: Contest)
    requires Holding(v, e, Cloning(items, picked), before) && |picked| == |items|
    requires Picks(picked, e.mapping) && |picked| == |e.source|
    ensures Moves(v, DoTarget(v, e, picked, kept, NoFault), e.request, Final)
  {
    TargetEntry(v, e, items, picked);
    assert AllVerified(e.mapping) by { hide Settled, EntryOk, Storable; }
    hide Holding, Remap, Chosen, Clones, AllVerified, Storable, PlaceOk, Picks;
  }

  lemma RecheckGoes(v: World, request: Request, items: seq<Item>, before: Contest, limit: nat)
    requires Ready(v) && v.worker == Some(Worker(request, Final)) && request.op in v.memory
    requires Holding(v, v.memory[request.op], Final, before) && v.memory[request.op].request == request
    requires Rederived(v, request, true, items)
    ensures var e := Recheck(true, items); Enabled(v, e, limit) && Moves(v, Apply(v, e), request, Swapping)
  {
    hide Ready, Settled, EntryOk, Rederived, Prepared;
  }

  /** All clones are made: record the target, check again, and the worker is about to switch. */
  lemma Approaches(w: World, es: seq<Event>, v: World, request: Request, items: seq<Item>, picked: seq<int>,
                   name: Namer, before: Contest, limit: nat) returns (steps: seq<Event>, u: World)
    requires Got(w, es, v, request, Cloning(items, picked), name, before, limit) && Apart(name) && |picked| == |items|
    requires Rederived(w, request, true, items)
    ensures Got(w, steps, u, request, Swapping, name, before, limit)
  {
    hide *;
    steps, u := TargetOn(w, es, v, request, items, picked, name, before, limit);
    steps, u := RecheckOn(w, steps, u, request, items, name, before, limit);
  }

  lemma TargetOn(w: World, es: seq<Event>, v: World, request: Request, items: seq<Item>, picked: seq<int>, name: Namer,
                 before: Contest, limit: nat) returns (steps: seq<Event>, u: World)
    requires Got(w, es, v, request, Cloning(items, picked), name, before, limit) && Apart(name) && |picked| == |items|
    ensures Got(w, steps, u, request, Final, name, before, limit)
  {
    GotAt(w, es, v, request, Cloning(items, picked), name, before, limit);
    var kept := KeptExists(v, v.memory[request.op], limit);
    hide Got, Inv, Kept, Apply, Holding, Books, Apart, Enabled, Ready, Picks, DoTarget;
    TargetStep(v, request, items, picked, kept, limit);
    TargetGoes(v, v.memory[request.op], items, picked, kept, before);
    steps, u := GetOn(w, es, v, request, Cloning(items, picked), Target(kept, NoFault), Final, name, before, limit);
  }

  lemma RecheckOn(w: World, es: seq<Event>, v: World, request: Request, items: seq<Item>, name: Namer,
                  before: Contest, limit: nat) returns (steps: seq<Event>, u: World)
    requires Got(w, es, v, request, Final, name, before, limit) && Apart(name) && Rederived(w, request, true, items)
    ensures Got(w, steps, u, request, Swapping, name, before, limit)
  {
    GotAt(w, es, v, request, Final, name, before, limit);
    SameDerived(w, v, request, items);
    hide Got, Inv, Apply, Holding, Books, Rederived, Apart, Enabled, Ready;
    RecheckGoes(v, request, items, before, limit);
    steps, u := GetOn(w, es, v, request, Final, Recheck(true, items), Swapping, name, before, limit);
  }

  lemma SwapGoes(v: World, request: Request, before: Contest, limit: nat)
    requires Ready(v) && v.worker == Some(Worker(request, Swapping)) && request.op in v.memory
    requires Holding(v, v.memory[request.op], Swapping, before) && v.memory[request.op].request == request
    ensures Enabled(v, Swap(true), limit)
    ensures Apply(v, Swap(true)) == Go(Switch(v, v.memory[request.op]), request, Finishing)
  {
    hide Ready, Settled, EntryOk, Prepared, Switch;
  }

  lemma FinishGoes(v: World, request: Request, kept: set<Key>, limit: nat)
    requires Ready(v) && v.worker == Some(Worker(request, Finishing)) && request.op in v.memory
    requires v.memory[request.op].request == request && Kept(v, Completed(v.memory[request.op]), kept, limit)
    ensures var e := Finish(kept, NoFault);
            var u := Apply(v, e);
            && Enabled(v, e, limit) && u.worker.None? && u.contest == v.contest
            && Answer(request.op, v.memory[request.op].mapping) in u.answers
  {
    hide Ready, Kept, Pruned;
  }

  /** The end of an attempt: switched, and told the mapping of the switch. */
  ghost predicate Arrived(w: World, steps: seq<Event>, u: World, request: Request, a: Answer, limit: nat) {
    && Leads(w, steps, u, limit) && (forall e :: e in steps ==> Smooth(e))
    && steps != [] && steps[0].Begin? && steps[0].request == request
    && u.worker.None? && u.contest.marker.Some? && u.contest.marker.value.op == request.op
    && u.contest.marker.value.preflight == request.preflight
    && a in u.answers && a.op == request.op
    && Sources(a.mapping) == w.contest.pids && Clones(a.mapping) == u.contest.pids
  }

  lemma SwitchMarks(v: World, e: Entry)
    ensures var c := Switch(v, e).contest;
            c.marker.Some? && c.marker.value.op == e.request.op && c.marker.value.preflight == e.request.preflight
  {}

  lemma Switches(w: World, es: seq<Event>, v: World, request: Request, name: Namer, before: Contest, limit: nat)
    returns (steps: seq<Event>, u: World, a: Answer)
    requires Got(w, es, v, request, Swapping, name, before, limit)
    ensures Arrived(w, steps, u, request, a, limit)
  {
    GotAt(w, es, v, request, Swapping, name, before, limit);
    var e := v.memory[request.op];
    SwapGoes(v, request, before, limit);
    SwitchMarks(v, e);
    Started(w, es, v, request, Swapping, name, before, limit);
    var s := Go(Switch(v, e), request, Finishing);
    hide Got, Inv, Holding, Apply, Enabled, Ready, Leads, Switch, Arrived;
    LeadsOn(w, es, v, Swap(true), limit);
    ApplyKeeps(v, Swap(true), before, limit);
    InvReady(s, before);
    var kept := KeptExists(s, Completed(e), limit);
    StillHeld(v, e, request);
    FinishGoes(s, request, kept, limit);
    LeadsOn(w, es + [Swap(true)], s, Finish(kept, NoFault), limit);
    ApplyKeeps(s, Finish(kept, NoFault), before, limit);
    EnabledParts(s, Finish(kept, NoFault), limit);
    steps, u := es + [Swap(true)] + [Finish(kept, NoFault)], Apply(s, Finish(kept, NoFault));
    a := Answer(request.op, e.mapping);
    Told(u, a, before);
    SourceOf(v, before);
    Arrives(w, steps, u, request, a, limit);
  }

  lemma StillHeld(v: World, e: Entry, request: Request)
    ensures Go(Switch(v, e), request, Finishing).memory == v.memory
    ensures Go(Switch(v, e), request, Finishing).contest == Switch(v, e).contest
  {}

  lemma Started(w: World, es: seq<Event>, v: World, request: Request, pc: Pc, name: Namer, before: Contest, limit: nat)
    requires Got(w, es, v, request, pc, name, before, limit)
    ensures Leads(w, es, v, limit) && es != [] && es[0].Begin? && es[0].request == request
    ensures forall kept, e :: e in es + [Swap(true)] + [Finish(kept, NoFault)] ==> Smooth(e)
  {
    hide Leads, Inv;
  }

  lemma Told(u: World, a: Answer, before: Contest)
    requires Inv(u, before) && a in u.answers
    ensures u.contest.marker.Some? && Sources(a.mapping) == before.pids && Clones(a.mapping) == u.contest.pids
  {
    assert AnswerOk(u.contest, a);
    hide EntriesOk, ClonesOk, Standing, WorkerOk, MadeFor, KeysIn, Remap;
  }

  lemma SourceOf(v: World, before: Contest)
    requires Inv(v, before) && v.contest.marker.None?
    ensures v.contest.pids == before.pids
  {
    hide EntriesOk, ClonesOk, Standing, WorkerOk, AnswersOk;
  }

  lemma Arrives(w: World, steps: seq<Event>, u: World, request: Request, a: Answer, limit: nat)
    requires Leads(w, steps, u, limit) && (forall e :: e in steps ==> Smooth(e))
    requires steps != [] && steps[0].Begin? && steps[0].request == request
    requires u.worker.None? && u.contest.marker.Some? && u.contest.marker.value.op == request.op
    requires u.contest.marker.value.preflight == request.preflight
    requires a in u.answers && a.op == request.op
    requires Sources(a.mapping) == w.contest.pids && Clones(a.mapping) == u.contest.pids
    ensures Arrived(w, steps, u, request, a, limit)
  {
    hide Leads;
  }

  /**
   Before the switch a retry converges: from any reachable world without marker or worker in which
   the approved snapshot derives again, one undisturbed attempt of that request - whatever earlier
   attempts of it, or of others, left behind - switches the contest and is told the mapping.
   */
  lemma RetryConverges(ws: seq<World>, es: seq<Event>, limit: nat, name: Namer, i: nat, request: Request,
                       items: seq<Item>, added: seq<DocId>, now: int)
    returns (steps: seq<Event>, u: World, a: Answer)
    requires NamedRun(ws, es, limit, name) && Apart(name) && i < |ws|
    requires ws[i].worker.None? && ws[i].contest.marker.None?
    requires SlugsApart(request.problems)
    requires request.op in ws[i].memory ==> ws[i].memory[request.op].request == request
    requires Rederived(ws[i], request, true, items)
    requires Covers(ws[i].contest.pids, request.problems, ws[i].problems, items)
    requires |added| == |items| && Unused(added, ws[i].docs)
    ensures Arrived(ws[i], steps, u, request, a, limit)
  {
    RunPends(ws, es, limit, name, i);
    var w, before := ws[i], ws[0].contest;
    hide *;
    var v, all;
    steps, v := Begun(w, request, now, name, before, limit);
    steps, v := Prepares(w, steps, v, request, items, name, before, limit);
    steps, v, all := CloneAll(w, steps, v, request, items, [], added, name, before, limit);
    steps, v := Approaches(w, steps, v, request, items, all, name, before, limit);
    steps, u, a := Switches(w, steps, v, request, name, before, limit);
  }
}
