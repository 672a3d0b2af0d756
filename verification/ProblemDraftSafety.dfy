/** What every run of the file-I/O switch keeps. */
module ProblemDraftSafety {
  import opened Basics
  import opened JournalStore
  import opened ProblemDraftMapping
  import opened ProblemDraftSwap

  // ----- the journal entries -----

  ghost predicate Owned(clones: map<ClonePid, Clone>, request: Request, link: Link) {
    && link.clonePid in clones && clones[link.clonePid].docId == link.clone
    && clones[link.clonePid].meta == Some(Meta(request.op, request.preflight, link.source, link.slug))
  }

  /** The sources an entry has recorded are those of the approved snapshot. */
  ghost predicate Sourced(e: Entry) {
    var p := e.request.preflight;
    && e.source == p.pids && e.score == p.score && e.balloon == p.balloon
    && DocIds(p.items) == p.pids && Distinct(p.pids) && KeysIn(p.score, p.pids) && KeysIn(p.balloon, p.pids)
  }

  /** Links follow the snapshot's items, and a verified one names a clone marked as its own. */
  ghost predicate Linked(clones: map<ClonePid, Clone>, e: Entry) {
    && |e.mapping| <= |e.request.preflight.items|
    && forall i :: 0 <= i < |e.mapping| ==> LinkOk(clones, e.request, e.request.preflight.items[i], e.mapping[i])
  }

  ghost predicate LinkOk(clones: map<ClonePid, Clone>, request: Request, item: Item, link: Link) {
    link.source == item.problem.docId && link.slug == item.slug && (link.verified ==> Owned(clones, request, link))
  }

  ghost predicate Prepared(e: Entry) {
    && |e.mapping| == |e.source| >= 1 && AllVerified(e.mapping) && e.target == Clones(e.mapping)
    && e.targetScore == Remap(e.score, e.source, e.target)
    && e.targetBalloon == Remap(e.balloon, e.source, e.target)
  }

  ghost predicate EntryOk(clones: map<ClonePid, Clone>, op: Key, e: Entry) {
    && e.request.op == op && Linked(clones, e)
    && (if |e.source| == 0 then e.mapping == [] && e.target == [] else Sourced(e))
    && (|e.target| > 0 ==> Prepared(e))
  }

  ghost predicate EntriesOk(w: World) {
    && (forall op :: op in w.memory ==> EntryOk(w.clones, op, w.memory[op]))
    && (forall op :: op in w.disk ==> EntryOk(w.clones, op, w.disk[op]))
  }

  ghost predicate ClonesOk(w: World) {
    && (forall p :: p in w.clones ==> w.clones[p].docId in w.docs)
    && (forall p, q :: p in w.clones && q in w.clones && w.clones[p].docId == w.clones[q].docId ==> p == q)
  }

  // ----- the contest -----

  /** Clone `i` of the switch is a document marked as made for source `i`. */
  ghost predicate MadeFor(clones: map<ClonePid, Clone>, m: Marker, i: int)
    requires 0 <= i < |m.source| == |m.target|
  {
    exists p :: p in clones && clones[p].docId == m.target[i] && clones[p].meta.Some?
      && clones[p].meta.value.op == m.op && clones[p].meta.value.preflight == m.preflight
      && clones[p].meta.value.source == m.source[i]
  }

  /** All source as it was before the run, or all target with its records moved along. */
  ghost predicate Switched(w: World, before: Contest) {
    if w.contest.marker.None? then
      w.contest.pids == before.pids && w.contest.score == before.score && w.contest.balloon == before.balloon
    else
      var m := w.contest.marker.value;
      && m.source == before.pids == m.preflight.pids && before.score == m.preflight.score
      && before.balloon == m.preflight.balloon
      && w.contest.pids == m.target && |m.source| == |m.target| >= 1 && Distinct(m.source)
      && KeysIn(before.score, m.source) && KeysIn(before.balloon, m.source)
      && w.contest.score == Remap(before.score, m.source, m.target)
      && w.contest.balloon == Remap(before.balloon, m.source, m.target)
      && forall i :: 0 <= i < |m.source| ==> MadeFor(w.clones, m, i)
  }

  /** The operation that switched can prove it from memory and from disk until it is evicted. */
  ghost predicate Standing(w: World) {
    w.contest.marker.Some? && w.contest.marker.value.op !in w.evicted ==>
      var op := w.contest.marker.value.op;
      op in w.memory && op in w.disk && Matches(w.contest, w.memory[op]) && Matches(w.contest, w.disk[op])
  }

  function Sources(mapping: seq<Link>): seq<DocId> {
    seq(|mapping|, i requires 0 <= i < |mapping| => mapping[i].source)
  }

  ghost predicate AnswerOk(c: Contest, a: Answer) {
    && c.marker.Some? && a.op == c.marker.value.op
    && Sources(a.mapping) == c.marker.value.source && Clones(a.mapping) == c.marker.value.target
  }

  ghost predicate AnswersOk(w: World) {
    forall a :: a in w.answers ==> AnswerOk(w.contest, a)
  }

  // ----- the worker -----

  ghost predicate Working(c: Contest, e: Entry, items: seq<Item>) {
    && c.marker.None? && |e.source| > 0 && e.source == c.pids && e.score == c.score && e.balloon == c.balloon
    && items == e.request.preflight.items
  }

  ghost predicate Done(e: Entry, picked: seq<int>) {
    && |picked| <= |e.mapping|
    && forall i :: 0 <= i < |picked| ==> picked[i] == i && e.mapping[i].verified
  }

  ghost predicate PlaceOk(c: Contest, clones: map<ClonePid, Clone>, e: Entry, pc: Pc) {
    match pc
    case Checking => true
    case Preflighting => true
    case Cloning(items, picked) => Working(c, e, items) && Done(e, picked)
    case Copying(items, picked, link, pid) =>
      && Working(c, e, items) && Done(e, picked) && link == |picked| < |e.mapping| && link < |items|
      && e.mapping[link].clonePid == pid && pid in clones && clones[pid].docId == e.mapping[link].clone
      && (clones[pid].meta.Some? ==> clones[pid].meta.value == MetaOf(e.request, items[link]))
    case Final => Working(c, e, e.request.preflight.items) && Prepared(e)
    case Swapping => Working(c, e, e.request.preflight.items) && Prepared(e)
    case Finishing => Matches(c, e)
  }

  ghost predicate WorkerOk(w: World) {
    w.worker.Some? ==>
      var k := w.worker.value;
      && k.request.op in w.memory && w.memory[k.request.op].request == k.request
      && !w.memory[k.request.op].stamp.complete
      && PlaceOk(w.contest, w.clones, w.memory[k.request.op], k.pc)
      && (k.pc.Final? || k.pc.Swapping? ==> k.request.op in w.disk && w.disk[k.request.op] == w.memory[k.request.op])
  }

  /** Everything but the worker. */
  ghost predicate Settled(w: World, before: Contest) {
    EntriesOk(w) && ClonesOk(w) && Switched(w, before) && Standing(w) && AnswersOk(w)
  }

  ghost predicate Inv(w: World, before: Contest) {
    Settled(w, before) && WorkerOk(w)
  }

  lemma InvReady(w: World, before: Contest)
    requires Inv(w, before)
    ensures Ready(w)
  {
    hide ClonesOk, Switched, Standing, AnswersOk, Matches, KeysIn, Owned;
    if w.worker.Some? {
      var e := w.memory[w.worker.value.request.op];
      assert EntryOk(w.clones, e.request.op, e);
      if w.worker.value.pc.Cloning? {
        assert |DocIds(e.request.preflight.items)| == |e.source|;
      }
    }
  }

  // ----- saving -----

  /** An entry that may be stored without hiding a switch. */
  ghost predicate Storable(w: World, e: Entry) {
    && EntryOk(w.clones, e.request.op, e)
    && (w.contest.marker.Some? && w.contest.marker.value.op == e.request.op && e.request.op !in w.evicted ==>
          Matches(w.contest, e))
  }

  lemma StoreIs(w: World, e: Entry, kept: set<Key>, fault: Fault, limit: nat)
    requires Kept(w, e, kept, limit)
    ensures var u := Store(w, e, kept, fault);
            && u.contest == w.contest && u.clones == w.clones && u.docs == w.docs && u.worker == w.worker
            && u.answers == w.answers
            && (!fault.BeforeRename? ==> u.disk == u.memory)
            && (!e.stamp.complete ==> e.request.op in u.memory && u.memory[e.request.op] == e)
  {
    var all := w.memory[e.request.op := e];
    assert e.request.op in StampsIn(all) && StampsIn(all)[e.request.op] == e.stamp;
  }

  lemma StoreEntries(w: World, e: Entry, kept: set<Key>, fault: Fault)
    requires EntriesOk(w) && EntryOk(w.clones, e.request.op, e)
    ensures EntriesOk(Store(w, e, kept, fault))
  {
    hide EntryOk;
  }

  lemma StoreStanding(w: World, e: Entry, kept: set<Key>, fault: Fault)
    requires Standing(w) && Storable(w, e)
    ensures Standing(Store(w, e, kept, fault))
  {
    hide EntryOk, Matches;
  }

  lemma StoreSettles(w: World, e: Entry, kept: set<Key>, fault: Fault, before: Contest, limit: nat)
    requires Settled(w, before) && Storable(w, e) && Kept(w, e, kept, limit)
    ensures Settled(Store(w, e, kept, fault), before)
  {
    StoreIs(w, e, kept, fault, limit);
    StoreEntries(w, e, kept, fault);
    StoreStanding(w, e, kept, fault);
    hide Store, EntriesOk, Standing, EntryOk, Matches, Kept, AnswerOk, MadeFor;
  }

  lemma StopSettles(w: World, before: Contest)
    requires Settled(w, before)
    ensures Inv(Stop(w), before)
  {
    hide EntryOk, Matches, AnswerOk, MadeFor;
  }

  lemma GoSettles(w: World, request: Request, pc: Pc, before: Contest)
    requires Settled(w, before) && request.op in w.memory
    requires w.memory[request.op].request == request && !w.memory[request.op].stamp.complete
    requires PlaceOk(w.contest, w.clones, w.memory[request.op], pc)
    requires pc.Final? || pc.Swapping? ==> request.op in w.disk && w.disk[request.op] == w.memory[request.op]
    ensures Inv(Go(w, request, pc), before)
  {
    hide EntryOk, Matches, AnswerOk, MadeFor, PlaceOk;
  }

  lemma StoreGoKeeps(w: World, e: Entry, kept: set<Key>, fault: Fault, pc: Pc, before: Contest, limit: nat)
    requires Settled(w, before) && Storable(w, e) && Kept(w, e, kept, limit) && !e.stamp.complete
    requires PlaceOk(w.contest, w.clones, e, pc)
    ensures Inv(StoreGo(w, e, kept, fault, pc), before)
  {
    StoreIs(w, e, kept, fault, limit);
    StoreSettles(w, e, kept, fault, before, limit);
    hide Settled, Inv, Storable, Kept, PlaceOk, Store, Go, Stop;
    var s := Store(w, e, kept, fault);
    StopSettles(s, before);
    if fault.NoFault? {
      GoSettles(s, e.request, pc, before);
    }
  }

  lemma Answered(w: World, e: Entry, before: Contest)
    requires Switched(w, before) && Matches(w.contest, e) && EntryOk(w.clones, e.request.op, e)
    ensures AnswerOk(w.contest, Answer(e.request.op, e.mapping))
  {
    hide MadeFor, KeysIn;
    var items := e.request.preflight.items;
    assert forall i :: 0 <= i < |e.mapping| ==> LinkOk(w.clones, e.request, items[i], e.mapping[i]);
    assert forall i :: 0 <= i < |items| ==> DocIds(items)[i] == items[i].problem.docId;
    assert Sources(e.mapping) == w.contest.marker.value.source;
  }

  lemma ReplySettles(w: World, e: Entry, before: Contest)
    requires Settled(w, before) && Matches(w.contest, e) && EntryOk(w.clones, e.request.op, e)
    ensures Inv(Reply(w, e), before)
  {
    Answered(w, e, before);
    hide EntryOk, Matches, AnswerOk, MadeFor;
  }

  lemma StoreReplyKeeps(w: World, e: Entry, kept: set<Key>, fault: Fault, before: Contest, limit: nat)
    requires Settled(w, before) && EntryOk(w.clones, e.request.op, e) && Matches(w.contest, e)
    requires Kept(w, e, kept, limit)
    ensures Inv(StoreReply(w, e, kept, fault), before)
  {
    StoreIs(w, e, kept, fault, limit);
    StoreSettles(w, e, kept, fault, before, limit);
    hide Settled, Inv, Kept, Store, Reply, Stop, EntryOk, Matches;
    var s := Store(w, e, kept, fault);
    StopSettles(s, before);
    if fault.NoFault? {
      ReplySettles(s, e, before);
    }
  }

  // ----- the worker's steps -----

  /** What a step of the clones is, and that it saves the entry it holds. */
  lemma CloneParts(w: World, e: Event, limit: nat)
    requires Enabled(w, e, limit) && (e.Ensure? || e.Copy? || e.Target?)
    ensures w.worker.Some? && w.worker.value.request.op in w.memory
    ensures var pc, x := w.worker.value.pc, w.memory[w.worker.value.request.op];
            && x.request == w.worker.value.request && Kept(w, x, e.kept, limit)
            && match e
               case Ensure(pid, added, clean, kept, fault) =>
                 && pc.Cloning? && |pc.picked| < |pc.items|
                 && Work(w, e) == DoEnsure(w, x, pc.items, pc.picked, pid, added, clean, kept, fault)
               case Copy(agrees, kept, fault) =>
                 && pc.Copying? && |pc.picked| < |pc.items| && 0 <= pc.link < |x.mapping| && pc.pid in w.clones
                 && Work(w, e) == DoCopy(w, x, pc.items, pc.picked, pc.link, pc.pid, agrees, kept, fault)
               case Target(kept, fault) =>
                 && pc.Cloning? && |pc.picked| == |pc.items| && Picks(pc.picked, x.mapping)
                 && |pc.picked| == |x.source| && Work(w, e) == DoTarget(w, x, pc.picked, kept, fault)
               case _ => true
  {
    hide Kept, DoEnsure, DoCopy, DoTarget, Picks, Covers, Rederived;
  }

  lemma PreflightParts(w: World, e: Event, limit: nat)
    requires Enabled(w, e, limit) && e.Preflight?
    ensures w.worker.Some? && w.worker.value.pc.Preflighting? && w.worker.value.request.op in w.memory
    ensures var x := w.memory[w.worker.value.request.op];
            && x.request == w.worker.value.request && Kept(w, x, e.kept, limit)
            && (Rederived(w, x.request, e.admissible, e.items) ==>
                  Covers(w.contest.pids, x.request.problems, w.problems, e.items))
            && Work(w, e) == DoPreflight(w, x, e.admissible, e.items, e.kept, e.fault)
  {
    hide Kept, DoPreflight, Covers, Rederived;
  }

  lemma LightParts(w: World, e: Event, limit: nat)
    requires Enabled(w, e, limit) && (e.Check? || e.Recheck? || e.Swap? || e.Finish?)
    ensures w.worker.Some? && w.worker.value.request.op in w.memory
    ensures var pc, x := w.worker.value.pc, w.memory[w.worker.value.request.op];
            && x.request == w.worker.value.request
            && (e.Check? || e.Finish? ==> Kept(w, Completed(x), e.kept, limit))
            && (e.Check? ==> pc.Checking? && Work(w, e) == DoCheck(w, x, e.kept, e.fault))
            && (e.Recheck? ==> pc.Final? && Work(w, e) == DoRecheck(w, x, e.admissible, e.items))
            && (e.Swap? ==> pc.Swapping? && Work(w, e) == DoSwap(w, x, e.open))
            && (e.Finish? ==> pc.Finishing? && Work(w, e) == StoreReply(w, Completed(x), e.kept, e.fault))
  {
    hide Kept, DoCheck, DoRecheck, DoSwap, StoreReply, Completed;
  }

  /** What the worker finds: the world is settled and it holds an unfinished entry. */
  ghost predicate Holding(w: World, e: Entry, pc: Pc, before: Contest) {
    && Settled(w, before) && !e.stamp.complete && EntryOk(w.clones, e.request.op, e)
    && e.request.op in w.memory && w.memory[e.request.op] == e
    && PlaceOk(w.contest, w.clones, e, pc)
    && (pc.Final? || pc.Swapping? ==> e.request.op in w.disk && w.disk[e.request.op] == e)
  }

  lemma Holds(w: World, before: Contest)
    requires Inv(w, before) && w.worker.Some?
    ensures var k := w.worker.value;
            && k.request.op in w.memory && Holding(w, w.memory[k.request.op], k.pc, before)
            && w.memory[k.request.op].request == k.request
  {
    hide EntryOk, Matches, AnswerOk, MadeFor, PlaceOk;
  }

  lemma BeginKeeps(w: World, request: Request, now: int, kept: set<Key>, fault: Fault, before: Contest, limit: nat)
    requires Inv(w, before) && w.worker.None?
    requires request.op !in w.memory ==> Kept(w, Fresh(request, now), kept, limit)
    ensures Inv(DoBegin(w, request, now, kept, fault), before)
  {
    if request.op !in w.memory {
      assert Storable(w, Fresh(request, now));
      hide Settled, Storable, Kept, StoreGo;
      StoreGoKeeps(w, Fresh(request, now), kept, fault, Checking, before, limit);
    } else {
      var e := w.memory[request.op];
      assert EntryOk(w.clones, request.op, e);
      hide Settled, EntryOk, Matches, Go, Reply;
      if e.request == request && !e.stamp.complete {
        GoSettles(w, request, Checking, before);
      } else if e.request == request && Matches(w.contest, e) {
        ReplySettles(w, e, before);
      }
    }
  }

  lemma StoreOther(w: World, e: Entry, kept: set<Key>, fault: Fault, limit: nat)
    requires WorkerOk(w) && w.worker.Some? && e.request.op !in w.memory && Kept(w, e, kept, limit)
    ensures WorkerOk(Store(w, e, kept, fault))
  {
    var all, op := w.memory[e.request.op := e], w.worker.value.request.op;
    assert op in StampsIn(all) && StampsIn(all)[op] == w.memory[op].stamp;
    hide PlaceOk;
  }

  lemma TellSettles(w: World, e: Entry, before: Contest)
    requires Inv(w, before) && Matches(w.contest, e) && EntryOk(w.clones, e.request.op, e)
    ensures Inv(Tell(w, e), before)
  {
    Answered(w, e, before);
    hide EntryOk, Matches, AnswerOk, MadeFor, PlaceOk;
  }

  lemma QueueKeeps(w: World, request: Request, now: int, kept: set<Key>, fault: Fault, before: Contest, limit: nat)
    requires Inv(w, before) && w.worker.Some?
    requires request.op !in w.memory ==> Kept(w, Fresh(request, now), kept, limit)
    ensures Inv(DoQueue(w, request, now, kept, fault), before)
  {
    if request.op !in w.memory {
      assert Storable(w, Fresh(request, now));
      hide Settled, Storable, Kept, Store, WorkerOk;
      StoreSettles(w, Fresh(request, now), kept, fault, before, limit);
      StoreOther(w, Fresh(request, now), kept, fault, limit);
    } else {
      var e := w.memory[request.op];
      assert EntryOk(w.clones, request.op, e);
      hide Settled, EntryOk, Matches, Tell, Inv;
      if e.request == request && e.stamp.complete && Matches(w.contest, e) {
        TellSettles(w, e, before);
      }
    }
  }

  lemma CheckKeeps(w: World, e: Entry, kept: set<Key>, fault: Fault, before: Contest, limit: nat)
    requires Holding(w, e, Checking, before) && Kept(w, Completed(e), kept, limit)
    ensures Inv(DoCheck(w, e, kept, fault), before)
  {
    CompletedOk(w.clones, w.contest, e);
    hide Settled, EntryOk, Matches, Kept, StoreReply, Go, Stop, Completed, AllVerified;
    StopSettles(w, before);
    GoSettles(w, e.request, Preflighting, before);
    if Matches(w.contest, e) {
      StoreReplyKeeps(w, Completed(e), kept, fault, before, limit);
    }
  }

  lemma PreflightEntry(w: World, e: Entry, items: seq<Item>, admissible: bool)
    requires EntryOk(w.clones, e.request.op, e) && Rederived(w, e.request, admissible, items)
    requires Covers(w.contest.pids, e.request.problems, w.problems, items)
    requires |e.source| > 0 ==> e.source == w.contest.pids
    ensures var f := e.(source := w.contest.pids, score := w.contest.score, balloon := w.contest.balloon);
            && Storable(w, f) && PlaceOk(w.contest, w.clones, f, Cloning(items, []))
  {
    hide Sound, Owned, KeysIn;
    if |e.source| > 0 {
      assert e.(source := w.contest.pids, score := w.contest.score, balloon := w.contest.balloon) == e;
    }
  }

  lemma PreflightKeeps(w: World, e: Entry, admissible: bool, items: seq<Item>, kept: set<Key>, fault: Fault,
                       before: Contest, limit: nat)
    requires Holding(w, e, Preflighting, before) && Kept(w, e, kept, limit)
    requires Rederived(w, e.request, admissible, items) ==>
               Covers(w.contest.pids, e.request.problems, w.problems, items)
    ensures Inv(DoPreflight(w, e, admissible, items, kept, fault), before)
  {
    StopSettles(w, before);
    if Rederived(w, e.request, admissible, items) && (|e.source| > 0 ==> e.source == w.contest.pids) {
      PreflightEntry(w, e, items, admissible);
      var f := e.(source := w.contest.pids, score := w.contest.score, balloon := w.contest.balloon);
      SameStamp(w, e, f, kept, limit);
      hide Settled, EntryOk, Rederived, Covers, Kept, Storable, StoreGo, Stop, PlaceOk;
      StoreGoKeeps(w, f, kept, fault, Cloning(items, []), before, limit);
    }
  }

  /** Pruning looks at nothing but stamps. */
  lemma SameStamp(w: World, e: Entry, f: Entry, kept: set<Key>, limit: nat)
    requires Kept(w, e, kept, limit) && f.request.op == e.request.op && f.stamp == e.stamp
    ensures Kept(w, f, kept, limit)
  {
    assert StampsIn(w.memory[e.request.op := e]) == StampsIn(w.memory[f.request.op := f]);
    hide Pruned;
  }

  /** Clones appear, and a mark once set stays. */
  ghost predicate Grows(c: map<ClonePid, Clone>, d: map<ClonePid, Clone>) {
    forall p :: p in c ==> p in d && d[p].docId == c[p].docId && (c[p].meta.Some? ==> d[p].meta == c[p].meta)
  }

  lemma GrowsEntry(c: map<ClonePid, Clone>, d: map<ClonePid, Clone>, e: Entry)
    requires Grows(c, d) && EntryOk(c, e.request.op, e)
    ensures EntryOk(d, e.request.op, e)
  {
    forall i | 0 <= i < |e.mapping| ensures LinkOk(d, e.request, e.request.preflight.items[i], e.mapping[i]) {
      assert LinkOk(c, e.request, e.request.preflight.items[i], e.mapping[i]);
    }
    hide Prepared, Sourced;
  }

  lemma GrowsSettles(w: World, u: World, before: Contest)
    requires Settled(w, before) && Grows(w.clones, u.clones) && ClonesOk(u)
    requires u == w.(clones := u.clones, docs := u.docs)
    ensures Settled(u, before)
  {
    GrowsEntries(w, u);
    GrowsSwitched(w, u, before);
    hide EntriesOk, ClonesOk, Switched, Matches, AnswerOk, Grows;
  }

  lemma GrowsEntries(w: World, u: World)
    requires EntriesOk(w) && Grows(w.clones, u.clones) && u.memory == w.memory && u.disk == w.disk
    ensures EntriesOk(u)
  {
    hide EntryOk, Grows;
    forall op | op in u.memory ensures EntryOk(u.clones, op, u.memory[op]) {
      EntryNames(w.clones, op, w.memory[op]);
      GrowsEntry(w.clones, u.clones, w.memory[op]);
    }
    forall op | op in u.disk ensures EntryOk(u.clones, op, u.disk[op]) {
      EntryNames(w.clones, op, w.disk[op]);
      GrowsEntry(w.clones, u.clones, w.disk[op]);
    }
  }

  lemma EntryNames(c: map<ClonePid, Clone>, op: Key, e: Entry)
    requires EntryOk(c, op, e)
    ensures e.request.op == op
  {}

  lemma GrowsSwitched(w: World, u: World, before: Contest)
    requires Switched(w, before) && Grows(w.clones, u.clones) && u.contest == w.contest
    ensures Switched(u, before)
  {
    hide KeysIn;
    if w.contest.marker.Some? {
      var m := w.contest.marker.value;
      forall i | 0 <= i < |m.source| ensures MadeFor(u.clones, m, i) {
        assert MadeFor(w.clones, m, i);
        var p :| p in w.clones && w.clones[p].docId == m.target[i] && w.clones[p].meta.Some?
          && w.clones[p].meta.value.op == m.op && w.clones[p].meta.value.preflight == m.preflight
          && w.clones[p].meta.value.source == m.source[i];
        assert p in u.clones;
      }
    }
  }

  /** The link for the next item is where the next position is, or nowhere yet. */
  lemma FindNext(clones: map<ClonePid, Clone>, e: Entry, n: nat)
    requires EntryOk(clones, e.request.op, e) && |e.source| > 0 && n < |e.request.preflight.items| && n <= |e.mapping|
    ensures Find(e.mapping, e.request.preflight.items[n].problem.docId) == n
  {
    var items := e.request.preflight.items;
    var d := items[n].problem.docId;
    hide Prepared, Owned, KeysIn;
    assert forall i :: 0 <= i < |items| ==> DocIds(items)[i] == items[i].problem.docId;
    forall i | 0 <= i < |e.mapping| && i != n ensures e.mapping[i].source != d {
      assert LinkOk(clones, e.request, items[i], e.mapping[i]);
      assert DocIds(items)[i] != DocIds(items)[n];
    }
    if n < |e.mapping| {
      assert LinkOk(clones, e.request, items[n], e.mapping[n]);
    }
  }

  lemma LinkOutcomes(w: World, e: Entry, items: seq<Item>, picked: seq<int>, pid: ClonePid, doc: DocId,
                     kept: set<Key>, fault: Fault)
    requires |picked| < |items|
    ensures var item := items[|picked|];
            var link := Link(item.problem.docId, doc, pid, item.slug, false);
            var pc := Copying(items, picked, Find(e.mapping, item.problem.docId), pid);
            var u := LinkClone(w, e, items, picked, pid, doc, kept, fault);
            || u == Stop(w) || u == StoreGo(w, e, kept, fault, pc)
            || u == StoreGo(w, e.(mapping := e.mapping + [link]), kept, fault, pc)
  {
    hide StoreGo, Stop, Find;
  }

  lemma LinkKeeps(w: World, e: Entry, items: seq<Item>, picked: seq<int>, pid: ClonePid, doc: DocId,
                  kept: set<Key>, fault: Fault, before: Contest, limit: nat)
    requires Settled(w, before) && !e.stamp.complete && EntryOk(w.clones, e.request.op, e) && Kept(w, e, kept, limit)
    requires Working(w.contest, e, items) && Done(e, picked) && |picked| < |items|
    requires pid in w.clones && w.clones[pid].docId == doc
    requires w.clones[pid].meta.Some? ==> w.clones[pid].meta.value == MetaOf(e.request, items[|picked|])
    ensures Inv(LinkClone(w, e, items, picked, pid, doc, kept, fault), before)
  {
    var n := |picked|;
    FindNext(w.clones, e, n);
    var link := Link(items[n].problem.docId, doc, pid, items[n].slug, false);
    var f := e.(mapping := e.mapping + [link]);
    if n == |e.mapping| {
      LinkEntry(w, e, items, picked, link);
      SameStamp(w, e, f, kept, limit);
    } else {
      assert Storable(w, e);
    }
    StopSettles(w, before);
    hide Settled, EntryOk, Kept, Storable, StoreGo, Stop, Inv, Find;
    if n == |e.mapping| {
      StoreGoKeeps(w, f, kept, fault, Copying(items, picked, n, pid), before, limit);
    } else if e.mapping[n].clone == doc && e.mapping[n].clonePid == pid {
      StoreGoKeeps(w, e, kept, fault, Copying(items, picked, n, pid), before, limit);
    }
  }

  lemma LinkEntry(w: World, e: Entry, items: seq<Item>, picked: seq<int>, link: Link)
    requires EntryOk(w.clones, e.request.op, e) && Working(w.contest, e, items) && Done(e, picked)
    requires |picked| == |e.mapping| < |items|
    requires link.source == items[|picked|].problem.docId && link.slug == items[|picked|].slug && !link.verified
    ensures var f := e.(mapping := e.mapping + [link]);
            Storable(w, f) && Working(w.contest, f, items) && Done(f, picked)
  {
    var f := e.(mapping := e.mapping + [link]);
    hide Owned, KeysIn;
    assert |DocIds(items)| == |items|;
    forall i | 0 <= i < |f.mapping| ensures LinkOk(w.clones, e.request, items[i], f.mapping[i]) {
      if i < |e.mapping| {
        assert LinkOk(w.clones, e.request, items[i], e.mapping[i]) && f.mapping[i] == e.mapping[i];
      }
    }
  }

  lemma EnsureKeeps(w: World, e: Entry, items: seq<Item>, picked: seq<int>, pid: ClonePid, added: DocId, clean: bool,
                    kept: set<Key>, fault: Fault, before: Contest, limit: nat)
    requires Holding(w, e, Cloning(items, picked), before) && |picked| < |items| && Kept(w, e, kept, limit)
    requires pid !in w.clones ==> added !in w.docs
    ensures Inv(DoEnsure(w, e, items, picked, pid, added, clean, kept, fault), before)
  {
    hide EntryOk, Kept, Working, Done, LinkClone, Inv;
    StopSettles(w, before);
    if pid in w.clones {
      hide Settled;
      if clean && Acceptable(w.clones[pid], e.request, items[|picked|]) {
        LinkKeeps(w, e, items, picked, pid, w.clones[pid].docId, kept, fault, before, limit);
      }
    } else {
      var u := AddClone(w, pid, Clone(added, e.request.op, items[|picked|].problem.source.text, None));
      assert Grows(w.clones, u.clones) && ClonesOk(u);
      GrowsSettles(w, u, before);
      GrowsEntry(w.clones, u.clones, e);
      KeptSame(w, u, e, kept, limit);
      hide Settled, Grows;
      LinkKeeps(u, e, items, picked, pid, added, kept, fault, before, limit);
    }
  }

  lemma KeptSame(w: World, u: World, e: Entry, kept: set<Key>, limit: nat)
    requires Kept(w, e, kept, limit) && u.memory == w.memory
    ensures Kept(u, e, kept, limit)
  {}

  lemma CopyEntry(c: map<ClonePid, Clone>, w: World, e: Entry, items: seq<Item>, picked: seq<int>, pid: ClonePid)
    requires EntryOk(w.clones, e.request.op, e) && Working(w.contest, e, items) && Done(e, picked)
    requires |picked| < |items| && |picked| < |e.mapping| && pid in w.clones
    requires e.mapping[|picked|].clonePid == pid && w.clones[pid].docId == e.mapping[|picked|].clone
    requires w.clones[pid].meta == Some(MetaOf(e.request, items[|picked|]))
    ensures var n := |picked|;
            var f := e.(mapping := e.mapping[n := e.mapping[n].(verified := true)]);
            Storable(w, f) && Working(w.contest, f, items) && Done(f, picked + [n])
  {
    var n := |picked|;
    var f := e.(mapping := e.mapping[n := e.mapping[n].(verified := true)]);
    hide KeysIn;
    forall i | 0 <= i < |f.mapping| ensures LinkOk(w.clones, e.request, items[i], f.mapping[i]) {
      assert LinkOk(w.clones, e.request, items[i], e.mapping[i]);
    }
    if |e.target| > 0 {
      assert f == e;
    }
  }

  lemma MarkKeeps(w: World, e: Entry, items: seq<Item>, picked: seq<int>, link: int, pid: ClonePid, before: Contest)
    requires Holding(w, e, Copying(items, picked, link, pid), before)
    ensures var u := MarkClone(w, pid, MetaOf(e.request, items[|picked|]));
            Settled(u, before) && EntryOk(u.clones, e.request.op, e)
  {
    var u := MarkClone(w, pid, MetaOf(e.request, items[|picked|]));
    assert Grows(w.clones, u.clones) && ClonesOk(u) by { hide EntryOk, Switched, Standing, AnswersOk; }
    hide EntryOk, Working, Done, Grows, ClonesOk, Settled;
    GrowsSettles(w, u, before);
    GrowsEntry(w.clones, u.clones, e);
  }

  lemma CopyKeeps(w: World, e: Entry, items: seq<Item>, picked: seq<int>, link: int, pid: ClonePid, agrees: bool,
                  kept: set<Key>, fault: Fault, before: Contest, limit: nat)
    requires Holding(w, e, Copying(items, picked, link, pid), before) && Kept(w, e, kept, limit)
    ensures Inv(DoCopy(w, e, items, picked, link, pid, agrees, kept, fault), before)
  {
    var u := MarkClone(w, pid, MetaOf(e.request, items[|picked|]));
    MarkKeeps(w, e, items, picked, link, pid, before);
    hide EntryOk, Kept, Working, Done, Inv, StoreGo, Stop, Storable, Settled;
    KeptSame(w, u, e, kept, limit);
    StopSettles(u, before);
    CopyEntry(w.clones, u, e, items, picked, pid);
    var f := e.(mapping := e.mapping[link := e.mapping[link].(verified := true)]);
    SameStamp(u, e, f, kept, limit);
    StoreGoKeeps(u, f, kept, fault, Cloning(items, picked + [link]), before, limit);
  }

  lemma TargetEntry(w: World, e: Entry, items: seq<Item>, picked: seq<int>)
    requires EntryOk(w.clones, e.request.op, e) && Working(w.contest, e, items) && Done(e, picked)
    requires |picked| == |items|
    ensures Picks(picked, e.mapping) && |picked| == |e.source| && Chosen(e.mapping, picked) == e.mapping
    ensures var targets := Clones(e.mapping);
            var f := e.(mapping := e.mapping, target := targets, targetScore := Remap(e.score, e.source, targets),
                        targetBalloon := Remap(e.balloon, e.source, targets));
            Storable(w, f) && PlaceOk(w.contest, w.clones, f, Final)
  {
    hide KeysIn, LinkOk, Remap;
    assert |DocIds(items)| == |items|;
    assert |e.mapping| == |picked|;
    assert Chosen(e.mapping, picked) == e.mapping;
  }

  lemma TargetKeeps(w: World, e: Entry, items: seq<Item>, picked: seq<int>, kept: set<Key>, fault: Fault,
                    before: Contest, limit: nat)
    requires Holding(w, e, Cloning(items, picked), before) && |picked| == |items| && Kept(w, e, kept, limit)
    requires Picks(picked, e.mapping) && |picked| == |e.source|
    ensures Inv(DoTarget(w, e, picked, kept, fault), before)
  {
    TargetEntry(w, e, items, picked);
    var targets := Clones(e.mapping);
    var f := e.(mapping := e.mapping, target := targets, targetScore := Remap(e.score, e.source, targets),
                targetBalloon := Remap(e.balloon, e.source, targets));
    SameStamp(w, e, f, kept, limit);
    StopSettles(w, before);
    hide EntryOk, Kept, Working, Done, Inv, Settled, StoreGo, Stop, Storable, Chosen, Remap, Clones, PlaceOk;
    StoreGoKeeps(w, f, kept, fault, Final, before, limit);
  }

  lemma RecheckKeeps(w: World, e: Entry, admissible: bool, items: seq<Item>, before: Contest)
    requires Holding(w, e, Final, before)
    ensures Inv(DoRecheck(w, e, admissible, items), before)
  {
    hide EntryOk, Settled, Inv, Go, Stop, Working, Prepared, Rederived;
    StopSettles(w, before);
    GoSettles(w, e.request, Swapping, before);
  }

  lemma SwitchMatches(w: World, e: Entry)
    requires Prepared(e)
    ensures Matches(Switch(w, e).contest, e)
  {
    hide Remap, Clones;
  }

  lemma SwitchStanding(w: World, e: Entry)
    requires e.request.op in w.memory && w.memory[e.request.op] == e
    requires e.request.op in w.disk && w.disk[e.request.op] == e && Matches(Switch(w, e).contest, e)
    ensures Standing(Switch(w, e))
  {
    hide Matches;
  }

  lemma SwitchSettles(w: World, e: Entry, before: Contest)
    requires Holding(w, e, Swapping, before)
    ensures Settled(Switch(w, e), before) && Matches(Switch(w, e).contest, e)
  {
    var u := Switch(w, e);
    assert EntriesOk(u) && ClonesOk(u);
    hide EntryOk, ClonesOk, EntriesOk;
    SwitchMatches(w, e);
    SwitchStanding(w, e);
    Unanswered(w);
    SwitchSwitched(w, e, before);
    hide Matches, Switched, AnswerOk, Standing, Working, Prepared;
  }

  /** Before the switch nobody has been answered. */
  lemma Unanswered(w: World)
    requires AnswersOk(w) && w.contest.marker.None?
    ensures w.answers == {}
  {}

  lemma SwitchSwitched(w: World, e: Entry, before: Contest)
    requires Working(w.contest, e, e.request.preflight.items) && Prepared(e) && EntryOk(w.clones, e.request.op, e)
    requires Switched(w, before)
    ensures Switched(Switch(w, e), before)
  {
    hide KeysIn, Remap;
    var m := Marker(e.request.op, e.request.preflight, e.source, e.target);
    var items := e.request.preflight.items;
    forall i | 0 <= i < |m.source| ensures MadeFor(w.clones, m, i) {
      assert LinkOk(w.clones, e.request, items[i], e.mapping[i]) && e.mapping[i].verified;
      assert DocIds(items)[i] == items[i].problem.docId;
      assert w.clones[e.mapping[i].clonePid].docId == m.target[i];
    }
  }

  lemma SwapKeeps(w: World, e: Entry, open: bool, before: Contest)
    requires Holding(w, e, Swapping, before)
    ensures Inv(DoSwap(w, e, open), before)
  {
    hide EntryOk, Settled, Inv, Go, Stop, Working, Prepared, Matches;
    StopSettles(w, before);
    if Matches(w.contest, e) {
      GoSettles(w, e.request, Finishing, before);
    }
    SwitchSettles(w, e, before);
    GoSettles(Switch(w, e), e.request, Finishing, before);
  }

  lemma FinishKeeps(w: World, e: Entry, kept: set<Key>, fault: Fault, before: Contest, limit: nat)
    requires Holding(w, e, Finishing, before) && Kept(w, Completed(e), kept, limit)
    ensures Inv(StoreReply(w, Completed(e), kept, fault), before)
  {
    CompletedOk(w.clones, w.contest, e);
    hide EntryOk, Settled, Inv, Matches, Kept, StoreReply, Completed;
    StoreReplyKeeps(w, Completed(e), kept, fault, before, limit);
  }

  lemma CompletedOk(clones: map<ClonePid, Clone>, c: Contest, e: Entry)
    ensures EntryOk(clones, e.request.op, e) ==> EntryOk(clones, e.request.op, Completed(e))
    ensures Matches(c, e) ==> Matches(c, Completed(e))
    ensures Completed(e).request == e.request
  {
    hide LinkOk, KeysIn, AllVerified, Remap, Clones;
  }

  lemma OutsideKeeps(w: World, problems: map<Pid, Problem>, rest: ContestRest, before: Contest)
    requires Inv(w, before)
    ensures Inv(w.(problems := problems, contest := w.contest.(rest := rest)), before)
  {
    hide EntryOk, MadeFor, KeysIn, Done, Prepared, AllVerified;
  }

  lemma CrashKeeps(w: World, before: Contest)
    requires Settled(w, before)
    ensures Inv(w.(memory := w.disk, worker := None), before)
  {
    hide EntryOk, MadeFor, KeysIn, Matches, AnswerOk;
  }

  lemma ClonesKeep(w: World, e: Event, before: Contest, limit: nat)
    requires Inv(w, before) && Enabled(w, e, limit) && (e.Ensure? || e.Copy? || e.Target?)
    ensures Inv(Work(w, e), before)
  {
    assert e.Ensure? ==> (e.pid !in w.clones ==> e.added !in w.docs) by { hide Kept, Covers, Rederived, Ready, At; }
    hide *;
    CloneParts(w, e, limit);
    Holds(w, before);
    var pc, x := w.worker.value.pc, w.memory[w.worker.value.request.op];
    if e.Ensure? {
      EnsureKeeps(w, x, pc.items, pc.picked, e.pid, e.added, e.clean, e.kept, e.fault, before, limit);
    } else if e.Copy? {
      CopyKeeps(w, x, pc.items, pc.picked, pc.link, pc.pid, e.agrees, e.kept, e.fault, before, limit);
    } else {
      TargetKeeps(w, x, pc.items, pc.picked, e.kept, e.fault, before, limit);
    }
  }

  lemma LightKeeps(w: World, e: Event, before: Contest, limit: nat)
    requires Inv(w, before) && Enabled(w, e, limit) && (e.Check? || e.Recheck? || e.Swap? || e.Finish?)
    ensures Inv(Work(w, e), before)
  {
    hide *;
    LightParts(w, e, limit);
    Holds(w, before);
    var x := w.memory[w.worker.value.request.op];
    if e.Check? {
      CheckKeeps(w, x, e.kept, e.fault, before, limit);
    } else if e.Recheck? {
      RecheckKeeps(w, x, e.admissible, e.items, before);
    } else if e.Swap? {
      SwapKeeps(w, x, e.open, before);
    } else {
      FinishKeeps(w, x, e.kept, e.fault, before, limit);
    }
  }

  lemma WorkKeeps(w: World, e: Event, before: Contest, limit: nat)
    requires Inv(w, before) && Enabled(w, e, limit) && !e.Begin? && !e.Throw? && !e.Outside? && !e.Crash?
    ensures Inv(Work(w, e), before)
  {
    hide *;
    if e.Preflight? {
      PreflightParts(w, e, limit);
      Holds(w, before);
      PreflightKeeps(w, w.memory[w.worker.value.request.op], e.admissible, e.items, e.kept, e.fault, before, limit);
    } else if e.Ensure? || e.Copy? || e.Target? {
      ClonesKeep(w, e, before, limit);
    } else {
      LightKeeps(w, e, before, limit);
    }
  }

  lemma ApplyKeeps(w: World, e: Event, before: Contest, limit: nat)
    requires Inv(w, before) && Enabled(w, e, limit)
    ensures Inv(Apply(w, e), before)
  {
    hide Inv, Settled, Work, DoBegin, DoQueue, Stop, Kept, Ready;
    assert Settled(w, before) by { InvSettled(w, before); }
    if e.Begin? {
      if w.worker.None? {
        BeginKeeps(w, e.request, e.now, e.kept, e.fault, before, limit);
      } else {
        QueueKeeps(w, e.request, e.now, e.kept, e.fault, before, limit);
      }
    } else if e.Outside? {
      OutsideKeeps(w, e.problems, e.rest, before);
    } else if e.Crash? {
      CrashKeeps(w, before);
    } else if e.Throw? {
      StopSettles(w, before);
    } else {
      WorkKeeps(w, e, before, limit);
    }
  }

  lemma InvSettled(w: World, before: Contest)
    requires Inv(w, before)
    ensures Settled(w, before)
  {}

  // ----- whole runs -----

  lemma {:induction false} RunKeeps(ws: seq<World>, es: seq<Event>, limit: nat, i: nat)
    requires IsRun(ws, es, limit) && i < |ws|
    ensures Inv(ws[i], ws[0].contest)
  {
    hide *;
    StartsIdle(ws, es, limit);
    if i == 0 {
      InitialKeeps(ws[0]);
    } else {
      RunKeeps(ws, es, limit, i - 1);
      StepOf(ws, es, limit, i - 1);
      ApplyKeeps(ws[i - 1], es[i - 1], ws[0].contest, limit);
    }
  }

  lemma InitialKeeps(w: World)
    requires IsInitial(w)
    ensures Inv(w, w.contest)
  {}

  lemma StartsIdle(ws: seq<World>, es: seq<Event>, limit: nat)
    requires IsRun(ws, es, limit)
    ensures |ws| == |es| + 1 && IsInitial(ws[0]) && ws[0].worker.None?
  {}

  lemma StepOf(ws: seq<World>, es: seq<Event>, limit: nat, i: nat)
    requires IsRun(ws, es, limit) && i < |es|
    ensures Enabled(ws[i], es[i], limit) && Ready(ws[i]) && At(ws[i], es[i]) && ws[i + 1] == Apply(ws[i], es[i])
  {
    hide Ready, At, Apply, Possible;
  }

  lemma TargetsDistinct(w: World, before: Contest)
    requires ClonesOk(w) && Switched(w, before) && w.contest.marker.Some?
    ensures Distinct(w.contest.marker.value.target)
  {
    var m := w.contest.marker.value;
    hide KeysIn;
    forall i, j | 0 <= i < j < |m.target| ensures m.target[i] != m.target[j] {
      assert MadeFor(w.clones, m, i) && MadeFor(w.clones, m, j);
    }
  }

  lemma RoundTrip(value: Option<PidRecord>, source: seq<DocId>, target: seq<DocId>)
    requires |source| == |target| && Distinct(source) && Distinct(target) && KeysIn(value, source)
    ensures Remap(Remap(value, source, target), target, source) == value
  {
    if value.Some? {
      RemapRoundTrip(value.value, source, target);
    }
  }

  /** `Enabled` asks for `Ready`, which holds in every reachable world, so it excludes none. */
  lemma AlwaysReady(ws: seq<World>, es: seq<Event>, limit: nat, i: nat)
    requires IsRun(ws, es, limit) && i < |ws|
    ensures Ready(ws[i])
  {
    RunKeeps(ws, es, limit, i);
    InvReady(ws[i], ws[0].contest);
  }

  /** In every run the contest holds the problem list it started with, or exactly one clone of each
      of those problems, in their order and made for them, with the records moved along; moving
      them back would restore what was there. */
  lemma SourceOrTarget(ws: seq<World>, es: seq<Event>, limit: nat, i: nat)
    requires IsRun(ws, es, limit) && i < |ws|
    ensures var before, c := ws[0].contest, ws[i].contest;
            if c.marker.None? then c.pids == before.pids && c.score == before.score && c.balloon == before.balloon
            else
              var m := c.marker.value;
              && m.source == before.pids && c.pids == m.target && |m.target| == |m.source| && Distinct(m.target)
              && (forall j :: 0 <= j < |m.source| ==> MadeFor(ws[i].clones, m, j))
              && c.score == Remap(before.score, m.source, m.target)
              && c.balloon == Remap(before.balloon, m.source, m.target)
              && Remap(c.score, m.target, m.source) == before.score
              && Remap(c.balloon, m.target, m.source) == before.balloon
  {
    RunKeeps(ws, es, limit, i);
    var before, w := ws[0].contest, ws[i];
    if w.contest.marker.Some? {
      var m := w.contest.marker.value;
      TargetsDistinct(w, before);
      RoundTrip(before.score, m.source, m.target);
      RoundTrip(before.balloon, m.source, m.target);
    }
    hide IsRun, MadeFor, Remap, KeysIn, Distinct;
  }

  /** Equal but for what outside edits touch. */
  predicate SameCore(c: Contest, d: Contest) {
    c.pids == d.pids && c.score == d.score && c.balloon == d.balloon && c.marker == d.marker
  }

  ghost predicate SwitchesNow(w: World, e: Event, u: World) {
    && e == Swap(true) && w.worker.Some? && w.worker.value.pc.Swapping? && w.worker.value.request.op in w.memory
    && var x := w.memory[w.worker.value.request.op];
       && w.contest.pids == x.source && w.contest.score == x.score && w.contest.balloon == x.balloon
       && u.contest == Switch(w, x).contest
  }

  /** In any world at all, only the conditional edit touches the problem list, it is one edit, and it
      never replaces another list or other records than those the entry has recorded. */
  lemma StepCore(w: World, e: Event)
    requires Ready(w) && At(w, e)
    ensures SameCore(Apply(w, e).contest, w.contest) || SwitchesNow(w, e, Apply(w, e))
  {
    hide Rederived, Matches, Find, Remap, AllVerified, Clones, Acceptable, Sound;
    if !e.Begin? && !e.Throw? && !e.Outside? && !e.Crash? {
      WorkCore(w, e);
    }
    hide Work;
  }

  lemma WorkCore(w: World, e: Event)
    requires Ready(w) && At(w, e) && !e.Begin? && !e.Throw? && !e.Outside? && !e.Crash?
    ensures Work(w, e).contest == w.contest || SwitchesNow(w, e, Work(w, e))
  {
    SavesKeepContest();
    if e.Ensure? {
      var k := w.worker.value;
      EnsureContest(w, w.memory[k.request.op], k.pc.items, k.pc.picked, e);
    }
    hide Rederived, Matches, Remap, AllVerified, Clones, Picks, StoreGo, StoreReply, DoEnsure;
  }

  lemma EnsureContest(w: World, e: Entry, items: seq<Item>, picked: seq<int>, v: Event)
    requires |picked| < |items| && v.Ensure?
    ensures DoEnsure(w, e, items, picked, v.pid, v.added, v.clean, v.kept, v.fault).contest == w.contest
  {
    SavesKeepContest();
    hide Find, Acceptable, StoreGo;
  }

  lemma SavesKeepContest()
    ensures forall w: World, e: Entry, kept, fault, pc :: StoreGo(w, e, kept, fault, pc).contest == w.contest
    ensures forall w: World, e: Entry, kept, fault :: StoreReply(w, e, kept, fault).contest == w.contest
  {}

  lemma MarkedStays(w: World, e: Event, before: Contest)
    requires Inv(w, before) && Ready(w) && At(w, e) && w.contest.marker.Some?
    ensures SameCore(Apply(w, e).contest, w.contest)
  {
    StepCore(w, e);
    hide Settled, Apply, Ready, Matches, Prepared;
  }

  lemma CoreReflexive(c: Contest)
    ensures SameCore(c, c)
  {}

  lemma CoreFollows(b: Contest, c: Contest, d: Contest)
    requires SameCore(b, c) && c.marker.Some?
    ensures b.marker.Some? && (SameCore(d, b) ==> SameCore(d, c))
  {}

  /** The switch happens at most once: from then on the problem list never changes again. */
  lemma {:induction false} SwitchOnce(ws: seq<World>, es: seq<Event>, limit: nat, i: nat, j: nat)
    requires IsRun(ws, es, limit) && i <= j < |ws| && ws[i].contest.marker.Some?
    ensures SameCore(ws[j].contest, ws[i].contest)
    decreases j
  {
    hide *;
    StartsIdle(ws, es, limit);
    if i == j {
      CoreReflexive(ws[i].contest);
    } else {
      SwitchOnce(ws, es, limit, i, j - 1);
      CoreFollows(ws[j - 1].contest, ws[i].contest, ws[j].contest);
      RunKeeps(ws, es, limit, j - 1);
      StepOf(ws, es, limit, j - 1);
      MarkedStays(ws[j - 1], es[j - 1], ws[0].contest);
    }
  }

  /** The approved snapshot is derived anew. */
  ghost predicate DerivedAt(w: World, e: Event, request: Request) {
    e.Recheck? && Rederived(w, request, e.admissible, e.items)
  }

  /** Between two steps the worker does nothing itself. */
  ghost predicate IdleBetween(es: seq<Event>, j: int, i: int) {
    0 <= j < i <= |es| && forall n :: j < n < i ==> es[n].Outside? || es[n].Begin?
  }

  /** The worker is about to switch only after a recheck that derived the approved snapshot anew,
      with no step of its own in between. */
  lemma {:induction false} SwappingSince(ws: seq<World>, es: seq<Event>, limit: nat, i: nat) returns (j: nat)
    requires IsRun(ws, es, limit) && i < |ws| && ws[i].worker.Some? && ws[i].worker.value.pc.Swapping?
    ensures IdleBetween(es, j, i) && DerivedAt(ws[j], es[j], ws[i].worker.value.request)
  {
    hide *;
    StartsIdle(ws, es, limit);
    RunKeeps(ws, es, limit, i - 1);
    StepOf(ws, es, limit, i - 1);
    SwappingStep(ws[i - 1], es[i - 1], ws[0].contest);
    if DerivedAt(ws[i - 1], es[i - 1], ws[i].worker.value.request) {
      j := i - 1;
      IdleEmpty(es, i - 1);
    } else {
      j := SwappingSince(ws, es, limit, i - 1);
      IdleExtends(es, j, i - 1);
    }
  }

  lemma IdleEmpty(es: seq<Event>, i: nat)
    requires i < |es|
    ensures IdleBetween(es, i, i + 1)
  {}

  lemma IdleExtends(es: seq<Event>, j: nat, i: nat)
    requires IdleBetween(es, j, i) && i < |es| && (es[i].Outside? || es[i].Begin?)
    ensures IdleBetween(es, j, i + 1)
  {}

  lemma SwappingStep(w: World, e: Event, before: Contest)
    requires Inv(w, before) && Ready(w) && At(w, e)
    requires var u := Apply(w, e); u.worker.Some? && u.worker.value.pc.Swapping?
    ensures var k := Apply(w, e).worker.value;
            || DerivedAt(w, e, k.request)
            || ((e.Outside? || e.Begin?) && w.worker == Apply(w, e).worker)
  {
    hide Settled, PlaceOk, Matches;
    if !e.Begin? && !e.Throw? && !e.Outside? && !e.Crash? {
      WorkSwapping(w, e);
    }
    hide Work, Ready, WorkerOk;
  }

  lemma WorkSwapping(w: World, e: Event)
    requires WorkerOk(w) && Ready(w) && At(w, e) && !e.Begin? && !e.Throw? && !e.Outside? && !e.Crash?
    requires var u := Work(w, e); u.worker.Some? && u.worker.value.pc.Swapping?
    ensures e.Recheck? && Rederived(w, Work(w, e).worker.value.request, e.admissible, e.items)
  {
    var pc, x := w.worker.value.pc, w.memory[w.worker.value.request.op];
    SavesPlace();
    match e
    case Check(kept, fault) => CheckPlace(w, x, kept, fault);
    case Ensure(_, _, _, _, _) => EnsurePlace(w, x, pc.items, pc.picked, e);
    case Copy(agrees, kept, fault) => CopyPlace(w, x, pc.items, pc.picked, pc.link, pc.pid, agrees, kept, fault);
    case Swap(open) => SwapPlace(w, x, open);
    case _ =>
      hide PlaceOk, Rederived, Remap, AllVerified, Clones, Picks, StoreGo, StoreReply, Completed, Chosen, DoCheck,
        DoEnsure, DoCopy, DoSwap;
  }

  ghost predicate Elsewhere(u: World) {
    u.worker.Some? ==> !u.worker.value.pc.Swapping?
  }

  lemma CheckPlace(w: World, e: Entry, kept: set<Key>, fault: Fault)
    ensures Elsewhere(DoCheck(w, e, kept, fault))
  {
    SavesPlace();
    hide Matches, AllVerified, StoreReply, Completed;
  }

  lemma CopyPlace(w: World, e: Entry, items: seq<Item>, picked: seq<int>, link: int, pid: ClonePid, agrees: bool,
                  kept: set<Key>, fault: Fault)
    requires |picked| < |items| && 0 <= link < |e.mapping| && pid in w.clones
    ensures Elsewhere(DoCopy(w, e, items, picked, link, pid, agrees, kept, fault))
  {
    SavesPlace();
    hide StoreGo;
  }

  lemma EnsurePlace(w: World, e: Entry, items: seq<Item>, picked: seq<int>, v: Event)
    requires |picked| < |items| && v.Ensure?
    ensures Elsewhere(DoEnsure(w, e, items, picked, v.pid, v.added, v.clean, v.kept, v.fault))
  {
    SavesPlace();
    hide Find, Acceptable, StoreGo;
  }

  lemma SwapPlace(w: World, e: Entry, open: bool)
    ensures Elsewhere(DoSwap(w, e, open))
  {
    hide Matches, Switch;
  }

  lemma SavesPlace()
    ensures forall w: World, e: Entry, kept, fault, pc ::
              var u := StoreGo(w, e, kept, fault, pc); u.worker.None? || u.worker.value.pc == pc
    ensures forall w: World, e: Entry, kept, fault :: StoreReply(w, e, kept, fault).worker.None?
  {}

  lemma SwapFinds(w: World, before: Contest)
    requires Inv(w, before) && w.worker.Some? && w.worker.value.pc.Swapping?
    ensures var request := w.worker.value.request;
            && request.op in w.disk && request.op in w.memory && w.disk[request.op] == w.memory[request.op]
            && Prepared(w.disk[request.op])
            && w.contest.pids == request.preflight.pids && w.contest.score == request.preflight.score
            && w.contest.balloon == request.preflight.balloon
            && forall n :: 0 <= n < |w.disk[request.op].mapping| ==>
                 Owned(w.clones, request, w.disk[request.op].mapping[n])
  {
    hide ClonesOk, Switched, Standing, AnswersOk, KeysIn, Remap, Owned;
    var e := w.memory[w.worker.value.request.op];
    assert EntryOk(w.clones, e.request.op, e);
    forall n | 0 <= n < |e.mapping| ensures Owned(w.clones, e.request, e.mapping[n]) {
      assert LinkOk(w.clones, e.request, e.request.preflight.items[n], e.mapping[n]);
    }
  }

  /** Whoever asks is told the one mapping of the one switch. */
  lemma AnswersAgree(ws: seq<World>, es: seq<Event>, limit: nat, i: nat, a: Answer)
    requires IsRun(ws, es, limit) && i < |ws| && a in ws[i].answers
    ensures ws[i].contest.marker.Some? && a.op == ws[i].contest.marker.value.op
    ensures Sources(a.mapping) == ws[0].contest.pids && Clones(a.mapping) == ws[i].contest.pids
  {
    RunKeeps(ws, es, limit, i);
    hide IsRun, EntriesOk, ClonesOk, Standing, WorkerOk, MadeFor, KeysIn, Remap;
    assert AnswerOk(ws[i].contest, a);
  }

  /** What a retry of a request does first: arrive, then look for its own finished switch. */
  function Retried(w: World, request: Request, now: int, kept: set<Key>): World {
    var u := DoBegin(w, request, now, kept, NoFault);
    if u.worker == Some(Worker(request, Checking)) && request.op in u.memory
    then DoCheck(u, u.memory[request.op], kept, NoFault) else u
  }

  /** After the switch, wherever the process died, a retry of the request is recognised and told the
      mapping, as long as its entry was not evicted; once it was, nothing is ever rederived for it. */
  lemma RetryIsRecognised(ws: seq<World>, es: seq<Event>, limit: nat, i: nat, now: int, kept: set<Key>)
    requires IsRun(ws, es, limit) && i < |ws| && ws[i].worker.None? && ws[i].contest.marker.Some?
    ensures var w, op := ws[i], ws[i].contest.marker.value.op;
            op !in w.evicted ==>
              && op in w.memory
              && var u := Retried(w, w.memory[op].request, now, kept);
                 && u.contest == w.contest && u.worker.None?
                 && exists a :: a in u.answers && a.op == op
                      && Sources(a.mapping) == ws[0].contest.pids && Clones(a.mapping) == w.contest.pids
    ensures forall request, admissible, items :: !Rederived(ws[i], request, admissible, items)
  {
    RunKeeps(ws, es, limit, i);
    var w, op := ws[i], ws[i].contest.marker.value.op;
    if op !in w.evicted {
      var e := w.memory[op];
      assert EntryOk(w.clones, op, e);
      Answered(w, e, ws[0].contest);
      RetryAnswers(w, e, now, kept);
      assert Answer(op, e.mapping) in Retried(w, e.request, now, kept).answers;
    }
    hide IsRun, EntriesOk, ClonesOk, WorkerOk, MadeFor, KeysIn, Remap, Retried, Matches;
  }

  lemma RetryAnswers(w: World, e: Entry, now: int, kept: set<Key>)
    requires w.worker.None? && e.request.op in w.memory && w.memory[e.request.op] == e && Matches(w.contest, e)
    requires |e.target| > 0
    ensures var u := Retried(w, e.request, now, kept);
            Answer(e.request.op, e.mapping) in u.answers && u.contest == w.contest && u.worker.None?
  {
    assert |e.mapping| > 0 && AllVerified(e.mapping);
    hide Matches, AllVerified, Completed;
  }

  ghost predicate EvictsComplete(w: World, u: World, op: Key, own: bool) {
    op in u.evicted && op !in w.evicted ==> (op in w.memory && w.memory[op].stamp.complete) || own
  }

  lemma StoreEvicts(w: World, e: Entry, kept: set<Key>, fault: Fault, limit: nat, op: Key)
    requires Kept(w, e, kept, limit)
    ensures EvictsComplete(w, Store(w, e, kept, fault), op, e.request.op == op && e.stamp.complete)
  {
    var all := w.memory[e.request.op := e];
    assert op in all ==> op in StampsIn(all) && StampsIn(all)[op] == all[op].stamp;
  }

  /** An entry is evicted only once complete, so a crash before completion always leaves it resident. */
  lemma EvictedWasComplete(w: World, e: Event, before: Contest, limit: nat, op: Key)
    requires Inv(w, before) && Enabled(w, e, limit) && op in Apply(w, e).evicted && op !in w.evicted
    ensures (op in w.memory && w.memory[op].stamp.complete)
            || ((e.Check? || e.Finish?) && w.worker.Some? && w.worker.value.request.op == op)
  {
    hide Settled, PlaceOk, Rederived, Matches, Find, Remap, AllVerified, Clones, Acceptable, Sound, Picks, Covers, Kept;
    if e.Begin? {
      if e.request.op !in w.memory {
        StoreEvicts(w, Fresh(e.request, e.now), e.kept, e.fault, limit, op);
      }
    } else if !e.Throw? && !e.Outside? && !e.Crash? {
      WorkEvicts(w, e, limit, op);
    }
    hide Store, Work;
  }

  lemma WorkEvicts(w: World, e: Event, limit: nat, op: Key)
    requires WorkerOk(w) && Enabled(w, e, limit) && !e.Begin? && !e.Throw? && !e.Outside? && !e.Crash?
    ensures EvictsComplete(w, Work(w, e), op, (e.Check? || e.Finish?) && w.worker.value.request.op == op)
  {
    Unfinished(w);
    if e.Check? || e.Recheck? || e.Swap? || e.Finish? {
      LightEvicts(w, e, limit, op);
    } else if e.Preflight? {
      hide *;
      PreflightParts(w, e, limit);
      var x := w.memory[w.worker.value.request.op];
      PreflightEvicts(w, x, e.admissible, e.items, e.kept, e.fault, limit, op);
    } else {
      ClonesEvict(w, e, limit, op);
    }
  }

  lemma Unfinished(w: World)
    requires WorkerOk(w) && w.worker.Some?
    ensures w.worker.value.request.op in w.memory && !w.memory[w.worker.value.request.op].stamp.complete
  {
    hide PlaceOk;
  }

  lemma ClonesEvict(w: World, e: Event, limit: nat, op: Key)
    requires WorkerOk(w) && Enabled(w, e, limit) && (e.Ensure? || e.Copy? || e.Target?)
    ensures EvictsComplete(w, Work(w, e), op, false)
  {
    hide *;
    CloneParts(w, e, limit);
    Unfinished(w);
    var pc, x := w.worker.value.pc, w.memory[w.worker.value.request.op];
    if e.Ensure? {
      EnsureEvicts(w, x, pc.items, pc.picked, e.pid, e.added, e.clean, e.kept, e.fault, limit, op);
    } else if e.Copy? {
      CopyEvicts(w, x, pc.items, pc.picked, pc.link, pc.pid, e.agrees, e.kept, e.fault, limit, op);
    } else {
      TargetEvicts(w, x, pc.picked, e.kept, e.fault, limit, op);
    }
  }

  lemma LightEvicts(w: World, e: Event, limit: nat, op: Key)
    requires Enabled(w, e, limit) && (e.Check? || e.Recheck? || e.Swap? || e.Finish?)
    ensures EvictsComplete(w, Work(w, e), op, (e.Check? || e.Finish?) && w.worker.value.request.op == op)
  {
    hide *;
    LightParts(w, e, limit);
    var x := w.memory[w.worker.value.request.op];
    if e.Check? {
      CheckEvicts(w, x, e.kept, e.fault, limit, op);
    } else if e.Finish? {
      ReplyEvicts(w, x, e.kept, e.fault, limit, op);
    } else if e.Recheck? {
      SwapEvicts(w, x, e.admissible, e.items, false, op);
    } else {
      SwapEvicts(w, x, false, [], e.open, op);
    }
  }

  lemma ReplyEvicts(w: World, e: Entry, kept: set<Key>, fault: Fault, limit: nat, op: Key)
    requires Kept(w, Completed(e), kept, limit)
    ensures EvictsComplete(w, StoreReply(w, Completed(e), kept, fault), op, e.request.op == op)
  {
    StoreEvicts(w, Completed(e), kept, fault, limit, op);
    hide Store, Kept;
  }

  lemma CheckOutcomes(w: World, e: Entry, kept: set<Key>, fault: Fault)
    ensures var u := DoCheck(w, e, kept, fault);
            u == StoreReply(w, Completed(e), kept, fault) || u == Stop(w) || u == Go(w, e.request, Preflighting)
  {
    hide StoreReply, Stop, Go, Matches, AllVerified, Completed;
  }

  lemma CheckEvicts(w: World, e: Entry, kept: set<Key>, fault: Fault, limit: nat, op: Key)
    requires Kept(w, Completed(e), kept, limit)
    ensures EvictsComplete(w, DoCheck(w, e, kept, fault), op, e.request.op == op)
  {
    SameEvicts(w, Stop(w), op);
    SameEvicts(w, Go(w, e.request, Preflighting), op);
    hide *;
    ReplyEvicts(w, e, kept, fault, limit, op);
    CheckOutcomes(w, e, kept, fault);
    SameOwn(w, Stop(w), Go(w, e.request, Preflighting), op, e.request.op == op);
  }

  lemma SameEvicts(w: World, u: World, op: Key)
    requires u.evicted == w.evicted
    ensures EvictsComplete(w, u, op, false)
  {}

  lemma SameOwn(w: World, u: World, v: World, op: Key, own: bool)
    requires EvictsComplete(w, u, op, false) && EvictsComplete(w, v, op, false)
    ensures EvictsComplete(w, u, op, own) && EvictsComplete(w, v, op, own)
  {}

  lemma SwapEvicts(w: World, e: Entry, admissible: bool, items: seq<Item>, open: bool, op: Key)
    ensures EvictsComplete(w, DoRecheck(w, e, admissible, items), op, false)
    ensures EvictsComplete(w, DoSwap(w, e, open), op, false)
  {
    hide Matches, Rederived;
  }

  lemma PreflightEvicts(w: World, e: Entry, admissible: bool, items: seq<Item>, kept: set<Key>, fault: Fault,
                        limit: nat, op: Key)
    requires !e.stamp.complete && Kept(w, e, kept, limit)
    ensures EvictsComplete(w, DoPreflight(w, e, admissible, items, kept, fault), op, false)
  {
    var f := e.(source := w.contest.pids, score := w.contest.score, balloon := w.contest.balloon);
    SavesNoMore(w, w, e, f, kept, fault, limit, op);
    hide Store, Kept, Rederived;
  }

  lemma CopyEvicts(w: World, e: Entry, items: seq<Item>, picked: seq<int>, link: int, pid: ClonePid, agrees: bool,
                   kept: set<Key>, fault: Fault, limit: nat, op: Key)
    requires |picked| < |items| && 0 <= link < |e.mapping| && pid in w.clones && !e.stamp.complete
    requires Kept(w, e, kept, limit)
    ensures EvictsComplete(w, DoCopy(w, e, items, picked, link, pid, agrees, kept, fault), op, false)
  {
    var f := e.(mapping := e.mapping[link := e.mapping[link].(verified := true)]);
    SavesNoMore(w, MarkClone(w, pid, MetaOf(e.request, items[|picked|])), e, f, kept, fault, limit, op);
    hide Store, Kept;
  }

  lemma TargetEvicts(w: World, e: Entry, picked: seq<int>, kept: set<Key>, fault: Fault, limit: nat, op: Key)
    requires Picks(picked, e.mapping) && |picked| == |e.source| && !e.stamp.complete && Kept(w, e, kept, limit)
    ensures EvictsComplete(w, DoTarget(w, e, picked, kept, fault), op, false)
  {
    var mapping := Chosen(e.mapping, picked);
    var f := e.(mapping := mapping, target := Clones(mapping),
                targetScore := Remap(e.score, e.source, Clones(mapping)),
                targetBalloon := Remap(e.balloon, e.source, Clones(mapping)));
    SavesNoMore(w, w, e, f, kept, fault, limit, op);
    hide Store, Kept;
  }

  lemma SavesNoMore(w: World, u: World, e: Entry, f: Entry, kept: set<Key>, fault: Fault, limit: nat, op: Key)
    requires Kept(w, e, kept, limit) && f.request.op == e.request.op && f.stamp == e.stamp && !e.stamp.complete
    requires u.memory == w.memory && u.evicted == w.evicted
    ensures EvictsComplete(w, Store(u, f, kept, fault), op, false)
  {
    SameStamp(w, e, f, kept, limit);
    KeptSame(w, u, f, kept, limit);
    hide Kept;
    StoreEvicts(u, f, kept, fault, limit, op);
    hide Store;
  }

  lemma StoreGoEvicts(w: World, u: World, e: Entry, f: Entry, kept: set<Key>, fault: Fault, pc: Pc, limit: nat, op: Key)
    requires Kept(w, e, kept, limit) && f.request.op == e.request.op && f.stamp == e.stamp && !e.stamp.complete
    requires u.memory == w.memory && u.evicted == w.evicted
    ensures EvictsComplete(w, StoreGo(u, f, kept, fault, pc), op, false)
  {
    SavesNoMore(w, u, e, f, kept, fault, limit, op);
    hide Store, Kept;
  }

  lemma LinkEvicts(w: World, u: World, e: Entry, items: seq<Item>, picked: seq<int>, pid: ClonePid, doc: DocId,
                   kept: set<Key>, fault: Fault, limit: nat, op: Key)
    requires |picked| < |items| && !e.stamp.complete && Kept(w, e, kept, limit)
    requires u.memory == w.memory && u.evicted == w.evicted
    ensures EvictsComplete(w, LinkClone(u, e, items, picked, pid, doc, kept, fault), op, false)
  {
    var item := items[|picked|];
    var f := e.(mapping := e.mapping + [Link(item.problem.docId, doc, pid, item.slug, false)]);
    var pc := Copying(items, picked, Find(e.mapping, item.problem.docId), pid);
    assert EvictsComplete(w, Stop(u), op, false);
    hide *;
    LinkOutcomes(u, e, items, picked, pid, doc, kept, fault);
    StoreGoEvicts(w, u, e, e, kept, fault, pc, limit, op);
    StoreGoEvicts(w, u, e, f, kept, fault, pc, limit, op);
  }

  lemma EnsureEvicts(w: World, e: Entry, items: seq<Item>, picked: seq<int>, pid: ClonePid, added: DocId, clean: bool,
                     kept: set<Key>, fault: Fault, limit: nat, op: Key)
    requires |picked| < |items| && !e.stamp.complete && Kept(w, e, kept, limit)
    ensures EvictsComplete(w, DoEnsure(w, e, items, picked, pid, added, clean, kept, fault), op, false)
  {
    var u := AddClone(w, pid, Clone(added, e.request.op, items[|picked|].problem.source.text, None));
    hide LinkClone, Kept, Acceptable;
    LinkEvicts(w, u, e, items, picked, pid, added, kept, fault, limit, op);
    if pid in w.clones {
      LinkEvicts(w, w, e, items, picked, pid, w.clones[pid].docId, kept, fault, limit, op);
    }
  }
}
