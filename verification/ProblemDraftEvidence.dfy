/** What a journal entry of the file-I/O switch rests on: for every link and every check, an earlier event. */
module ProblemDraftEvidence {
  import opened Basics
  import opened JournalStore
  import opened ProblemDraftMapping
  import opened ProblemDraftSwap
  import opened ProblemDraftSafety

  // ----- what an event shows -----

  /** The operation's worker is at work, on the entry it holds. */
  ghost predicate Works(w: World, op: Key) {
    w.worker.Some? && w.worker.value.request.op == op && op in w.memory
  }

  predicate SameLink(l: Link, m: Link) {
    l.source == m.source && l.clone == m.clone && l.clonePid == m.clonePid && l.slug == m.slug
  }

  /** Statement and test data of the link's clone were compared with their source, and agreed. */
  ghost predicate Copies(w: World, e: Event, op: Key, l: Link) {
    && e.Copy? && e.agrees && Works(w, op) && w.worker.value.pc.Copying?
    && w.worker.value.pc.pid == l.clonePid && 0 <= w.worker.value.pc.link < |w.memory[op].mapping|
    && SameLink(w.memory[op].mapping[w.worker.value.pc.link], l)
  }

  /** The link's clone was made for the item at hand, or found clean and acceptable. */
  ghost predicate Links(w: World, e: Event, op: Key, l: Link) {
    && e.Ensure? && Works(w, op) && w.worker.value.pc.Cloning?
    && var k := w.worker.value;
       && |k.pc.picked| < |k.pc.items|
       && var item := k.pc.items[|k.pc.picked|];
          && l.source == item.problem.docId && l.slug == item.slug && l.clonePid == e.pid
          && if e.pid in w.clones
             then e.clean && Acceptable(w.clones[e.pid], w.memory[op].request, item) && l.clone == w.clones[e.pid].docId
             else l.clone == e.added
  }

  /** The approved snapshot was derived, admissible, from the contest as it was. */
  ghost predicate Derives(w: World, e: Event, x: Entry) {
    && e.Preflight? && e.admissible && Rederived(w, x.request, e.admissible, e.items)
    && x.source == w.contest.pids && x.score == w.contest.score && x.balloon == w.contest.balloon
  }

  // ----- one event -----

  ghost predicate Has(w: World, op: Key, x: Entry) {
    (op in w.memory && w.memory[op] == x) || (op in w.disk && w.disk[op] == x)
  }

  ghost predicate LinkFrom(w: World, e: Event, op: Key, y: Entry, l: Link) {
    || (exists m :: m in y.mapping && SameLink(m, l) && (l.verified ==> m.verified || Copies(w, e, op, l)))
    || (Links(w, e, op, l) && !l.verified)
  }

  /** `x` rests on what `y` did and the event shows. */
  ghost predicate Justified(w: World, e: Event, op: Key, y: Entry, x: Entry) {
    && x.request == y.request && x.stamp.createdAt == y.stamp.createdAt
    && ((x.source == y.source && x.score == y.score && x.balloon == y.balloon) || Derives(w, e, x))
    && (forall l :: l in x.mapping ==> LinkFrom(w, e, op, y, l))
    && (x.target != y.target ==> e.Target? && AllVerified(x.mapping) && x.target == Clones(x.mapping))
    && (x.stamp.complete && !y.stamp.complete ==> (e.Check? || e.Finish?) && Works(w, op))
  }

  /** A request just recorded. */
  ghost predicate Recorded(e: Event, op: Key, x: Entry) {
    e.Begin? && e.request.op == op && x == Fresh(e.request, e.now)
  }

  ghost predicate Explained(w: World, e: Event, op: Key, x: Entry) {
    Recorded(e, op, x) || exists y :: Has(w, op, y) && Justified(w, e, op, y, x)
  }

  ghost predicate Explains(w: World, e: Event, u: World) {
    forall op, x :: Has(u, op, x) ==> Explained(w, e, op, x)
  }

  lemma Unchanged(w: World, e: Event, op: Key, x: Entry)
    requires Has(w, op, x)
    ensures Explained(w, e, op, x)
  {
    assert forall l :: l in x.mapping ==> SameLink(l, l);
    hide Links, Copies, Derives, Has;
    assert Justified(w, e, op, x, x);
  }

  /** At most this entry is new. */
  ghost predicate Writes(w: World, u: World, op: Key, x: Entry) {
    forall k, z :: Has(u, k, z) ==> Has(w, k, z) || (k == op && z == x)
  }

  lemma WritesExplains(w: World, e: Event, u: World, op: Key, x: Entry)
    requires Writes(w, u, op, x) && Explained(w, e, op, x)
    ensures Explains(w, e, u)
  {
    hide Has, Explained;
    forall k, z | Has(u, k, z) ensures Explained(w, e, k, z) {
      if Has(w, k, z) {
        Unchanged(w, e, k, z);
      }
    }
  }

  ghost predicate Still(w: World, u: World) {
    u.memory == w.memory && u.disk == w.disk
  }

  lemma StillExplains(w: World, e: Event, u: World)
    requires Still(w, u)
    ensures Explains(w, e, u)
  {
    hide Explained;
    forall k, z | Has(u, k, z) ensures Explained(w, e, k, z) {
      Unchanged(w, e, k, z);
    }
  }

  lemma StoreWrites(w: World, x: Entry, kept: set<Key>, fault: Fault)
    ensures Writes(w, Store(w, x, kept, fault), x.request.op, x)
  {}

  lemma StoreGoWrites(w: World, x: Entry, kept: set<Key>, fault: Fault, pc: Pc)
    ensures Writes(w, StoreGo(w, x, kept, fault, pc), x.request.op, x)
  {
    StoreWrites(w, x, kept, fault);
    hide Store;
  }

  lemma StoreReplyWrites(w: World, x: Entry, kept: set<Key>, fault: Fault)
    ensures Writes(w, StoreReply(w, x, kept, fault), x.request.op, x)
  {
    StoreWrites(w, x, kept, fault);
    hide Store;
  }

  lemma StillMoves(w: World, request: Request, pc: Pc, e: Entry)
    ensures Still(w, Go(w, request, pc)) && Still(w, Stop(w)) && Still(w, Reply(w, e)) && Still(w, Tell(w, e))
    ensures Still(w, Switch(w, e)) && Still(w, w) && Still(w, Go(Switch(w, e), request, pc))
  {}

  /** A save of an entry that rests on the one at hand. */
  lemma StoreExplains(w: World, e: Event, x: Entry, kept: set<Key>, fault: Fault, pc: Pc)
    requires Explained(w, e, x.request.op, x)
    ensures Explains(w, e, Store(w, x, kept, fault)) && Explains(w, e, StoreGo(w, x, kept, fault, pc))
    ensures Explains(w, e, StoreReply(w, x, kept, fault))
  {
    StoreWrites(w, x, kept, fault);
    StoreGoWrites(w, x, kept, fault, pc);
    StoreReplyWrites(w, x, kept, fault);
    hide *;
    WritesExplains(w, e, Store(w, x, kept, fault), x.request.op, x);
    WritesExplains(w, e, StoreGo(w, x, kept, fault, pc), x.request.op, x);
    WritesExplains(w, e, StoreReply(w, x, kept, fault), x.request.op, x);
  }

  lemma BeginExplains(w: World, e: Event)
    requires Ready(w) && At(w, e) && e.Begin?
    ensures Explains(w, e, DoBegin(w, e.request, e.now, e.kept, e.fault))
    ensures Explains(w, e, DoQueue(w, e.request, e.now, e.kept, e.fault))
  {
    var x := Fresh(e.request, e.now);
    assert Explained(w, e, e.request.op, x);
    hide Explained, Explains, Ready, At, Matches, Fresh, Store, StoreGo, Go, Reply, Tell, Still;
    StoreExplains(w, e, x, e.kept, e.fault, Checking);
    StillMoves(w, e.request, Checking, if e.request.op in w.memory then w.memory[e.request.op] else x);
    StillExplains(w, e, w);
    StillExplains(w, e, Go(w, e.request, Checking));
    if e.request.op in w.memory {
      StillExplains(w, e, Reply(w, w.memory[e.request.op]));
      StillExplains(w, e, Tell(w, w.memory[e.request.op]));
    }
  }

  /** The entry at hand, rewritten. */
  lemma Rests(w: World, e: Event, op: Key, x: Entry)
    requires op in w.memory && Justified(w, e, op, w.memory[op], x)
    ensures Explained(w, e, op, x)
  {
    assert Has(w, op, w.memory[op]);
    hide Justified;
  }

  lemma SameMapping(w: World, e: Event, op: Key, y: Entry)
    ensures forall l :: l in y.mapping ==> LinkFrom(w, e, op, y, l)
  {
    hide Links, Copies;
    assert forall l :: l in y.mapping ==> SameLink(l, l);
  }

  lemma CheckExplains(w: World, e: Event, op: Key)
    requires Works(w, op) && e.Check? && w.memory[op].request.op == op
    ensures Explains(w, e, DoCheck(w, w.memory[op], e.kept, e.fault))
  {
    var y := w.memory[op];
    SameMapping(w, e, op, y);
    assert Justified(w, e, op, y, Completed(y)) by { hide LinkFrom, Derives; }
    hide Justified, LinkFrom, Explained, Explains, Matches, AllVerified, StoreReply, StoreGo, Store, Go, Stop, Still;
    Rests(w, e, op, Completed(y));
    StoreExplains(w, e, Completed(y), e.kept, e.fault, Checking);
    StillMoves(w, y.request, Preflighting, y);
    StillExplains(w, e, Stop(w));
    StillExplains(w, e, Go(w, y.request, Preflighting));
  }

  lemma FinishExplains(w: World, e: Event, op: Key)
    requires Works(w, op) && e.Finish? && w.memory[op].request.op == op
    ensures Explains(w, e, StoreReply(w, Completed(w.memory[op]), e.kept, e.fault))
  {
    var y := w.memory[op];
    SameMapping(w, e, op, y);
    assert Justified(w, e, op, y, Completed(y)) by { hide LinkFrom, Derives; }
    hide Justified, LinkFrom, Explained, Explains, StoreReply, StoreGo, Store;
    Rests(w, e, op, Completed(y));
    StoreExplains(w, e, Completed(y), e.kept, e.fault, Checking);
  }

  lemma PreflightExplains(w: World, e: Event, op: Key)
    requires Works(w, op) && e.Preflight? && w.memory[op].request.op == op
    ensures Explains(w, e, DoPreflight(w, w.memory[op], e.admissible, e.items, e.kept, e.fault))
  {
    var y := w.memory[op];
    var x := y.(source := w.contest.pids, score := w.contest.score, balloon := w.contest.balloon);
    SameMapping(w, e, op, y);
    StillMoves(w, y.request, Checking, y);
    hide LinkFrom, Explained, Explains, StoreReply, StoreGo, Store, Stop, Still;
    StillExplains(w, e, Stop(w));
    if Rederived(w, y.request, e.admissible, e.items) {
      DerivedFrom(w, e, op);
      hide Rederived;
      Rests(w, e, op, x);
      StoreExplains(w, e, x, e.kept, e.fault, Cloning(e.items, []));
    }
    hide Rederived;
  }

  lemma DerivedFrom(w: World, e: Event, op: Key)
    requires Works(w, op) && e.Preflight? && Rederived(w, w.memory[op].request, e.admissible, e.items)
    ensures var y := w.memory[op];
            Justified(w, e, op, y, y.(source := w.contest.pids, score := w.contest.score, balloon := w.contest.balloon))
  {
    var y := w.memory[op];
    SameMapping(w, e, op, y);
    assert e.admissible;
    hide LinkFrom, Sound;
  }

  lemma TargetExplains(w: World, e: Event, op: Key, picked: seq<int>)
    requires Works(w, op) && e.Target? && w.memory[op].request.op == op
    requires Picks(picked, w.memory[op].mapping) && |picked| == |w.memory[op].source|
    ensures Explains(w, e, DoTarget(w, w.memory[op], picked, e.kept, e.fault))
  {
    var y := w.memory[op];
    var mapping := Chosen(y.mapping, picked);
    var x := y.(mapping := mapping, target := Clones(mapping), targetScore := Remap(y.score, y.source, Clones(mapping)),
                targetBalloon := Remap(y.balloon, y.source, Clones(mapping)));
    SameMapping(w, e, op, y);
    assert forall l :: l in mapping ==> l in y.mapping;
    hide LinkFrom, Chosen, Clones, Remap, AllVerified, Explained, Explains, StoreReply, StoreGo, Store, Stop, Still;
    if AllVerified(mapping) {
      assert Justified(w, e, op, y, x);
      hide Justified;
      Rests(w, e, op, x);
      StoreExplains(w, e, x, e.kept, e.fault, Final);
    }
    StillMoves(w, y.request, Checking, y);
    StillExplains(w, e, Stop(w));
  }

  lemma CopyExplains(w: World, e: Event, op: Key)
    requires Works(w, op) && e.Copy? && w.memory[op].request.op == op && w.worker.value.pc.Copying?
    requires var k := w.worker.value;
             |k.pc.picked| < |k.pc.items| && 0 <= k.pc.link < |w.memory[op].mapping| && k.pc.pid in w.clones
             && w.memory[op].mapping[k.pc.link].clonePid == k.pc.pid
    ensures var pc := w.worker.value.pc;
            Explains(w, e, DoCopy(w, w.memory[op], pc.items, pc.picked, pc.link, pc.pid, e.agrees, e.kept, e.fault))
  {
    var y, pc := w.memory[op], w.worker.value.pc;
    var u := MarkClone(w, pc.pid, MetaOf(y.request, pc.items[|pc.picked|]));
    var l := y.mapping[pc.link].(verified := true);
    var x := y.(mapping := y.mapping[pc.link := l]);
    if e.agrees {
      assert Copies(w, e, op, l) && SameLink(y.mapping[pc.link], l);
      LinkSet(w, e, op, y, pc.link, l);
      hide LinkFrom, Copies;
      assert Justified(w, e, op, y, x);
      hide Justified, Explained, Explains, StoreGo, MarkClone;
      Rests(w, e, op, x);
      MarkStill(w, pc.pid, MetaOf(y.request, pc.items[|pc.picked|]));
      StoreGoWrites(u, x, e.kept, e.fault, Cloning(pc.items, pc.picked + [pc.link]));
      hide Writes, Still;
      WritesFrom(w, u, StoreGo(u, x, e.kept, e.fault, Cloning(pc.items, pc.picked + [pc.link])), op, x);
      WritesExplains(w, e, StoreGo(u, x, e.kept, e.fault, Cloning(pc.items, pc.picked + [pc.link])), op, x);
    } else {
      hide Explains;
      StillExplains(w, e, Stop(u));
    }
  }

  lemma MarkStill(w: World, pid: ClonePid, meta: Meta)
    requires pid in w.clones
    ensures Still(w, MarkClone(w, pid, meta))
  {}

  lemma WritesFrom(w: World, u: World, v: World, op: Key, x: Entry)
    requires Still(w, u) && Writes(u, v, op, x)
    ensures Writes(w, v, op, x)
  {
    assert forall k, z :: Has(u, k, z) ==> Has(w, k, z);
    hide Has;
  }

  lemma LinkSet(w: World, e: Event, op: Key, y: Entry, i: int, l: Link)
    requires 0 <= i < |y.mapping| && SameLink(y.mapping[i], l) && Copies(w, e, op, l)
    ensures forall m :: m in y.mapping[i := l] ==> LinkFrom(w, e, op, y, m)
  {
    SameMapping(w, e, op, y);
    hide Copies, Links;
    forall m | m in y.mapping[i := l] ensures LinkFrom(w, e, op, y, m) {
      if m == l {
        assert y.mapping[i] in y.mapping;
      } else {
        assert m in y.mapping;
      }
    }
  }

  lemma LinkAdded(w: World, e: Event, op: Key, y: Entry, l: Link)
    requires Links(w, e, op, l) && !l.verified
    ensures forall m :: m in y.mapping + [l] ==> LinkFrom(w, e, op, y, m)
  {
    SameMapping(w, e, op, y);
    hide Copies, Links;
  }

  /** Linking a clone keeps the entry, or adds the one link. */
  lemma LinkExplains(w: World, u: World, e: Event, op: Key, items: seq<Item>, picked: seq<int>, doc: DocId)
    requires Works(w, op) && e.Ensure? && w.memory[op].request.op == op && |picked| < |items| && Still(w, u)
    requires Links(w, e, op, Link(items[|picked|].problem.docId, doc, e.pid, items[|picked|].slug, false))
    ensures Explains(w, e, LinkClone(u, w.memory[op], items, picked, e.pid, doc, e.kept, e.fault))
  {
    var y, item := w.memory[op], items[|picked|];
    var l := Link(item.problem.docId, doc, e.pid, item.slug, false);
    var x := y.(mapping := y.mapping + [l]);
    var pc := Copying(items, picked, Find(y.mapping, item.problem.docId), e.pid);
    LinkAdded(w, e, op, y, l);
    SameMapping(w, e, op, y);
    hide LinkFrom, Links, Find;
    assert Justified(w, e, op, y, x) && Justified(w, e, op, y, y);
    hide Justified;
    Rests(w, e, op, x);
    Rests(w, e, op, y);
    hide Explained, Explains, StoreGo, Stop, Writes;
    LinkOutcome(u, y, items, picked, e.pid, doc, e.kept, e.fault);
    StoreGoWrites(u, x, e.kept, e.fault, pc);
    StoreGoWrites(u, y, e.kept, e.fault, pc);
    WritesFrom(w, u, StoreGo(u, x, e.kept, e.fault, pc), op, x);
    WritesFrom(w, u, StoreGo(u, y, e.kept, e.fault, pc), op, y);
    WritesExplains(w, e, StoreGo(u, x, e.kept, e.fault, pc), op, x);
    WritesExplains(w, e, StoreGo(u, y, e.kept, e.fault, pc), op, y);
    StopStill(w, u);
    StillExplains(w, e, Stop(u));
  }

  lemma StopStill(w: World, u: World)
    requires Still(w, u)
    ensures Still(w, Stop(u))
  {}

  lemma LinkOutcome(w: World, y: Entry, items: seq<Item>, picked: seq<int>, pid: ClonePid, doc: DocId,
                    kept: set<Key>, fault: Fault)
    requires |picked| < |items|
    ensures var item := items[|picked|];
            var link := Link(item.problem.docId, doc, pid, item.slug, false);
            var pc := Copying(items, picked, Find(y.mapping, item.problem.docId), pid);
            var u := LinkClone(w, y, items, picked, pid, doc, kept, fault);
            || u == Stop(w) || u == StoreGo(w, y, kept, fault, pc)
            || u == StoreGo(w, y.(mapping := y.mapping + [link]), kept, fault, pc)
  {
    hide StoreGo, Stop, Find;
  }

  lemma EnsureExplains(w: World, e: Event, op: Key)
    requires Works(w, op) && e.Ensure? && w.memory[op].request.op == op && w.worker.value.pc.Cloning?
    requires |w.worker.value.pc.picked| < |w.worker.value.pc.items|
    ensures var pc := w.worker.value.pc;
            Explains(w, e, DoEnsure(w, w.memory[op], pc.items, pc.picked, e.pid, e.added, e.clean, e.kept, e.fault))
  {
    var y, pc := w.memory[op], w.worker.value.pc;
    var item := pc.items[|pc.picked|];
    if e.pid in w.clones {
      if e.clean && Acceptable(w.clones[e.pid], y.request, item) {
        assert Links(w, e, op, Link(item.problem.docId, w.clones[e.pid].docId, e.pid, item.slug, false));
        hide Links, Explains, LinkClone, Acceptable;
        LinkExplains(w, w, e, op, pc.items, pc.picked, w.clones[e.pid].docId);
      } else {
        hide Explains;
        StillExplains(w, e, Stop(w));
      }
    } else {
      assert Links(w, e, op, Link(item.problem.docId, e.added, e.pid, item.slug, false));
      var u := AddClone(w, e.pid, Clone(e.added, y.request.op, item.problem.source.text, None));
      assert Still(w, u);
      hide Links, Explains, LinkClone, AddClone, Still;
      LinkExplains(w, u, e, op, pc.items, pc.picked, e.added);
    }
  }

  // ----- whole runs -----

  lemma ClonesExplain(w: World, e: Event, before: Contest, limit: nat)
    requires ProblemDraftSafety.Inv(w, before) && Enabled(w, e, limit) && (e.Ensure? || e.Copy? || e.Target?)
    ensures Explains(w, e, Work(w, e))
  {
    hide *;
    CloneParts(w, e, limit);
    Holds(w, before);
    var op := w.worker.value.request.op;
    WorksNow(w, op);
    if e.Ensure? {
      EnsureExplains(w, e, op);
    } else if e.Copy? {
      AtLink(w, w.memory[op], w.worker.value.pc, before);
      CopyExplains(w, e, op);
    } else {
      TargetExplains(w, e, op, w.worker.value.pc.picked);
    }
  }

  lemma WorksNow(w: World, op: Key)
    requires w.worker.Some? && w.worker.value.request.op == op && op in w.memory
    ensures Works(w, op)
  {}

  lemma AtLink(w: World, x: Entry, pc: Pc, before: Contest)
    requires Holding(w, x, pc, before) && pc.Copying? && 0 <= pc.link < |x.mapping|
    ensures x.mapping[pc.link].clonePid == pc.pid
  {
    hide Settled, EntryOk, Working, Done;
  }

  lemma LightExplain(w: World, e: Event, before: Contest, limit: nat)
    requires ProblemDraftSafety.Inv(w, before) && Enabled(w, e, limit)
    requires e.Check? || e.Recheck? || e.Swap? || e.Finish?
    ensures Explains(w, e, Work(w, e))
  {
    LightParts(w, e, limit);
    var op := w.worker.value.request.op;
    hide ProblemDraftSafety.Inv, Explains, Enabled, Work, DoCheck, StoreReply, Rederived, Matches, Still, Completed;
    if e.Check? {
      CheckExplains(w, e, op);
    } else if e.Finish? {
      FinishExplains(w, e, op);
    } else {
      StillMoves(w, w.memory[op].request, Swapping, w.memory[op]);
      StillMoves(w, w.memory[op].request, Finishing, w.memory[op]);
      StillExplains(w, e, Stop(w));
      StillExplains(w, e, Go(w, w.memory[op].request, Swapping));
      StillExplains(w, e, Go(w, w.memory[op].request, Finishing));
      StillExplains(w, e, Go(Switch(w, w.memory[op]), w.memory[op].request, Finishing));
    }
  }

  lemma WorkExplains(w: World, e: Event, before: Contest, limit: nat)
    requires ProblemDraftSafety.Inv(w, before) && Enabled(w, e, limit)
    requires !e.Begin? && !e.Throw? && !e.Outside? && !e.Crash?
    ensures Explains(w, e, Work(w, e))
  {
    hide *;
    if e.Preflight? {
      PreflightParts(w, e, limit);
      WorksNow(w, w.worker.value.request.op);
      PreflightExplains(w, e, w.worker.value.request.op);
    } else if e.Ensure? || e.Copy? || e.Target? {
      ClonesExplain(w, e, before, limit);
    } else {
      LightExplain(w, e, before, limit);
    }
  }

  lemma ApplyExplains(w: World, e: Event, before: Contest, limit: nat)
    requires ProblemDraftSafety.Inv(w, before) && Enabled(w, e, limit)
    ensures Explains(w, e, Apply(w, e))
  {
    hide ProblemDraftSafety.Inv, Explains, Explained, Work, DoBegin, DoQueue, Stop, Possible, Ready;
    if e.Begin? {
      BeginExplains(w, e);
    } else if e.Outside? {
      StillExplains(w, e, w.(problems := e.problems, contest := w.contest.(rest := e.rest)));
    } else if e.Crash? {
      CrashExplains(w, e);
    } else if e.Throw? {
      StopStill(w, w);
      StillExplains(w, e, Stop(w));
    } else {
      WorkExplains(w, e, before, limit);
    }
  }

  lemma CrashExplains(w: World, e: Event)
    ensures Explains(w, e, w.(memory := w.disk, worker := None))
  {
    hide Explained;
    var u := w.(memory := w.disk, worker := None);
    forall k, z | Has(u, k, z) ensures Explained(w, e, k, z) {
      Unchanged(w, e, k, z);
    }
  }

  /** Where an entry of a run comes from. */
  lemma Came(ws: seq<World>, es: seq<Event>, limit: nat, i: nat, op: Key, x: Entry)
    requires IsRun(ws, es, limit) && i < |ws| && Has(ws[i], op, x)
    ensures 0 < i <= |es| < |ws| && Explained(ws[i - 1], es[i - 1], op, x)
  {
    hide *;
    StartsIdle(ws, es, limit);
    if i == 0 {
      NothingFirst(ws[0], op, x);
    } else {
      RunKeeps(ws, es, limit, i - 1);
      StepOf(ws, es, limit, i - 1);
      ApplyExplains(ws[i - 1], es[i - 1], ws[0].contest, limit);
      ExplainsAt(ws[i - 1], es[i - 1], ws[i], op, x);
    }
  }

  lemma NothingFirst(w: World, op: Key, x: Entry)
    requires IsInitial(w)
    ensures !Has(w, op, x)
  {}

  lemma ExplainsAt(w: World, e: Event, u: World, op: Key, x: Entry)
    requires Explains(w, e, u) && Has(u, op, x)
    ensures Explained(w, e, op, x)
  {
    hide Has, Explained;
  }

  /** An entry with a link has one it came from, unless the link is being made. */
  lemma LinkCame(w: World, e: Event, op: Key, x: Entry, l: Link) returns (y: Entry, m: Link)
    requires Explained(w, e, op, x) && l in x.mapping
    ensures (Links(w, e, op, l) && !l.verified)
            || (Has(w, op, y) && m in y.mapping && SameLink(m, l) && (l.verified ==> m.verified || Copies(w, e, op, l)))
  {
    hide Links, Copies, Derives, Has;
    y :| Has(w, op, y) && Justified(w, e, op, y, x);
    assert LinkFrom(w, e, op, y, l);
    m := l;
    if !(Links(w, e, op, l) && !l.verified) {
      m :| m in y.mapping && SameLink(m, l) && (l.verified ==> m.verified || Copies(w, e, op, l));
    }
  }

  /** A link marked verified was verified: an earlier copy step of its operation compared that clone with
      its source, and they agreed. */
  lemma {:induction false} VerifiedIsCopied(ws: seq<World>, es: seq<Event>, limit: nat, i: nat, op: Key, x: Entry,
                                            l: Link) returns (k: nat)
    requires IsRun(ws, es, limit) && i < |ws| && Has(ws[i], op, x) && l in x.mapping && l.verified
    ensures k < i <= |es| < |ws| && Copies(ws[k], es[k], op, l)
  {
    hide *;
    Came(ws, es, limit, i, op, x);
    var y, m := LinkCame(ws[i - 1], es[i - 1], op, x, l);
    k := i - 1;
    if !Copies(ws[i - 1], es[i - 1], op, l) {
      k := VerifiedIsCopied(ws, es, limit, i - 1, op, y, m);
      CopiesSame(ws[k], es[k], op, m, l);
    }
  }

  lemma CopiesSame(w: World, e: Event, op: Key, m: Link, l: Link)
    requires Copies(w, e, op, m) && SameLink(m, l)
    ensures Copies(w, e, op, l)
  {}

  lemma LinksSame(w: World, e: Event, op: Key, m: Link, l: Link)
    requires Links(w, e, op, m) && SameLink(m, l)
    ensures Links(w, e, op, l)
  {}

  /** Every link names a clone that its operation made for the item, or found there clean and its own. */
  lemma {:induction false} LinkIsEarned(ws: seq<World>, es: seq<Event>, limit: nat, i: nat, op: Key, x: Entry, l: Link)
    returns (k: nat)
    requires IsRun(ws, es, limit) && i < |ws| && Has(ws[i], op, x) && l in x.mapping
    ensures k < i <= |es| < |ws| && Links(ws[k], es[k], op, l)
  {
    hide *;
    Came(ws, es, limit, i, op, x);
    var y, m := LinkCame(ws[i - 1], es[i - 1], op, x, l);
    k := i - 1;
    if !Links(ws[i - 1], es[i - 1], op, l) {
      k := LinkIsEarned(ws, es, limit, i - 1, op, y, m);
      LinksSame(ws[k], es[k], op, m, l);
    }
  }

  /** The sources an entry records are those of the approved snapshot, derived admissible then. */
  lemma {:induction false} SourceIsDerived(ws: seq<World>, es: seq<Event>, limit: nat, i: nat, op: Key, x: Entry)
    returns (k: nat)
    requires IsRun(ws, es, limit) && i < |ws| && Has(ws[i], op, x) && |x.source| > 0
    ensures k < i <= |es| < |ws| && Derives(ws[k], es[k], x)
  {
    hide *;
    Came(ws, es, limit, i, op, x);
    var y := SourceCame(ws[i - 1], es[i - 1], op, x);
    k := i - 1;
    if !Derives(ws[i - 1], es[i - 1], x) {
      k := SourceIsDerived(ws, es, limit, i - 1, op, y);
      DerivesSame(ws[k], es[k], y, x);
    }
  }

  lemma SourceCame(w: World, e: Event, op: Key, x: Entry) returns (y: Entry)
    requires Explained(w, e, op, x) && |x.source| > 0
    ensures Derives(w, e, x) || (Has(w, op, y) && SameSource(x, y) && |y.source| > 0)
  {
    hide Derives, Links, Copies, LinkFrom, Has;
    y :| Has(w, op, y) && Justified(w, e, op, y, x);
  }

  predicate SameSource(x: Entry, y: Entry) {
    x.request == y.request && x.source == y.source && x.score == y.score && x.balloon == y.balloon
  }

  lemma DerivesSame(w: World, e: Event, y: Entry, x: Entry)
    requires Derives(w, e, y) && SameSource(x, y)
    ensures Derives(w, e, x)
  {
    hide Rederived;
  }

  /** Some earlier copy step of the operation verified that link. */
  ghost predicate WasCopied(ws: seq<World>, es: seq<Event>, i: nat, op: Key, l: Link)
    requires i <= |es| < |ws|
  {
    exists k :: 0 <= k < i && Copies(ws[k], es[k], op, l)
  }

  /** Every switch: it happened while the contest was open to it, the approved snapshot was derived again
      after all clones were verified, the journal on disk already names them, each of them was compared
      with its source and agreed, and the list replaced is the approved one. */
  lemma SwitchIsApproved(ws: seq<World>, es: seq<Event>, limit: nat, i: nat) returns (j: nat)
    requires IsRun(ws, es, limit) && i < |es| && !SameCore(ws[i + 1].contest, ws[i].contest)
    ensures |ws| == |es| + 1 && ws[i].worker.Some? && es[i] == Swap(true)
    ensures var request := ws[i].worker.value.request;
            && IdleBetween(es, j, i) && DerivedAt(ws[j], es[j], request)
            && ws[i].contest.pids == request.preflight.pids && ws[i].contest.score == request.preflight.score
            && ws[i].contest.balloon == request.preflight.balloon
            && request.op in ws[i].disk && Prepared(ws[i].disk[request.op])
            && ws[i + 1].contest == Switch(ws[i], ws[i].disk[request.op]).contest
            && forall n :: 0 <= n < |ws[i].disk[request.op].mapping| ==>
                 && Owned(ws[i].clones, request, ws[i].disk[request.op].mapping[n])
                 && WasCopied(ws, es, i, request.op, ws[i].disk[request.op].mapping[n])
  {
    StartsIdle(ws, es, limit);
    RunKeeps(ws, es, limit, i);
    assert Ready(ws[i]) && At(ws[i], es[i]);
    StepCore(ws[i], es[i]);
    j := SwappingSince(ws, es, limit, i);
    SwapFinds(ws[i], ws[0].contest);
    hide ProblemDraftSafety.Inv, Apply, Ready, At, Possible, Rederived, Owned, IsRun, Copies, WasCopied;
    var op := ws[i].worker.value.request.op;
    var x := ws[i].disk[op];
    forall n | 0 <= n < |x.mapping| ensures WasCopied(ws, es, i, op, x.mapping[n]) {
      var k := VerifiedIsCopied(ws, es, limit, i, op, x, x.mapping[n]);
      CopiedThen(ws, es, i, op, x.mapping[n], k);
    }
    hide Prepared;
  }

  lemma CopiedThen(ws: seq<World>, es: seq<Event>, i: nat, op: Key, l: Link, k: nat)
    requires k < i <= |es| < |ws| && Copies(ws[k], es[k], op, l)
    ensures WasCopied(ws, es, i, op, l)
  {}

  /** A request under an operation first used for another one changes nothing. */
  lemma ForeignRequestIgnored(w: World, e: Event)
    requires Ready(w) && At(w, e) && e.Begin? && e.request.op in w.memory && w.memory[e.request.op].request != e.request
    ensures Apply(w, e) == w
  {
    hide Matches, Store, StoreGo, Go, Reply, Tell;
  }
}
