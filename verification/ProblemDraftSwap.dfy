/**
 The file-I/O switch of one contest: clone every problem, verify the clones, then replace the
 problem list by one conditional document edit.  Many operations may be requested; the contest
 lock lets one work at a time.  A crash may fall between any two awaits and inside any save.
 */
module ProblemDraftSwap {
  import opened Basics
  import opened JournalStore
  import opened ProblemDraftMapping

  type Approval(==, !new)
  type ContestRest(==, !new)   // title, statement, rule, times, languages
  type ClonePid(==, !new)

  /** The preflight id hashes this; the hash is taken to be injective. */
  datatype Snapshot = Snapshot(
    rest: ContestRest, pids: seq<DocId>, score: Option<PidRecord>, balloon: Option<PidRecord>, items: seq<Item>)

  datatype Request = Request(op: Key, preflight: Snapshot, approval: Approval, problems: seq<Requested>)

  datatype Marker = Marker(op: Key, preflight: Snapshot, source: seq<DocId>, target: seq<DocId>)

  datatype Contest = Contest(
    pids: seq<DocId>, score: Option<PidRecord>, balloon: Option<PidRecord>, rest: ContestRest, marker: Option<Marker>)

  datatype Link = Link(source: DocId, clone: DocId, clonePid: ClonePid, slug: Slug, verified: bool)

  datatype Entry = Entry(
    request: Request, source: seq<DocId>, score: Option<PidRecord>, balloon: Option<PidRecord>, mapping: seq<Link>,
    target: seq<DocId>, targetScore: Option<PidRecord>, targetBalloon: Option<PidRecord>, stamp: Stamp)

  datatype Meta = Meta(op: Key, preflight: Snapshot, source: DocId, slug: Slug)

  /** `op` stands for the tag that `ProblemModel.add` writes, `meta` for the later edit. */
  datatype Clone = Clone(docId: DocId, op: Key, text: Text, meta: Option<Meta>)

  datatype Pc =
    | Checking | Preflighting
    | Cloning(items: seq<Item>, picked: seq<int>)   // the links of the items done so far, by position
    | Copying(items: seq<Item>, picked: seq<int>, link: int, pid: ClonePid)
    | Final | Swapping | Finishing

  datatype Worker = Worker(request: Request, pc: Pc)

  datatype Answer = Answer(op: Key, mapping: seq<Link>)

  datatype World = World(
    contest: Contest, problems: map<Pid, Problem>, clones: map<ClonePid, Clone>, docs: set<DocId>,
    memory: map<Key, Entry>, disk: map<Key, Entry>, worker: Option<Worker>,
    evicted: set<Key>, answers: set<Answer>)   // observations

  datatype Event =
    | Begin(request: Request, now: int, kept: set<Key>, fault: Fault)
    | Check(kept: set<Key>, fault: Fault)
    | Preflight(admissible: bool, items: seq<Item>, kept: set<Key>, fault: Fault)
    | Ensure(pid: ClonePid, added: DocId, clean: bool, kept: set<Key>, fault: Fault)
    | Copy(agrees: bool, kept: set<Key>, fault: Fault)
    | Target(kept: set<Key>, fault: Fault)
    | Recheck(admissible: bool, items: seq<Item>)
    | Swap(open: bool)
    | Finish(kept: set<Key>, fault: Fault)
    | Throw
    | Outside(problems: map<Pid, Problem>, rest: ContestRest)   // edits that leave the problem list alone
    | Crash

  // ----- what the code computes -----

  function Clones(mapping: seq<Link>): seq<DocId> {
    seq(|mapping|, i requires 0 <= i < |mapping| => mapping[i].clone)
  }

  predicate AllVerified(mapping: seq<Link>) {
    forall i :: 0 <= i < |mapping| ==> mapping[i].verified
  }

  /** contestMatchesAppliedProblemDraft. */
  predicate Matches(c: Contest, e: Entry) {
    && |e.mapping| > 0 && AllVerified(e.mapping)
    && c.pids == e.target && c.marker.Some?
    && c.marker.value.op == e.request.op && c.marker.value.preflight == e.request.preflight
    && c.score == e.targetScore && c.balloon == e.targetBalloon
  }

  predicate KeysIn(r: Option<PidRecord>, pids: seq<DocId>) {
    r.Some? ==> forall d :: d in r.value ==> d in pids
  }

  /** buildProblemDraftPreflight comes out safe, with the id that was approved. */
  ghost predicate Rederived(w: World, request: Request, admissible: bool, items: seq<Item>) {
    && admissible && w.contest.marker.None?
    && |w.contest.pids| >= 1 && |w.contest.pids| == |request.problems|
    && Sound(w.contest.pids, request.problems, w.problems, |request.problems|)
    && KeysIn(w.contest.score, w.contest.pids) && KeysIn(w.contest.balloon, w.contest.pids)
    && Snapshot(w.contest.rest, w.contest.pids, w.contest.score, w.contest.balloon, items) == request.preflight
  }

  /** The position of the link of a source document, or the length. */
  function Find(mapping: seq<Link>, source: DocId): (i: nat)
    ensures i <= |mapping|
    ensures i < |mapping| ==> mapping[i].source == source
    ensures forall j :: 0 <= j < i ==> mapping[j].source != source
  {
    if mapping == [] then 0
    else if mapping[0].source == source then 0
    else 1 + Find(mapping[1..], source)
  }

  function Fresh(request: Request, now: int): Entry {
    Entry(request, [], None, None, [], [], None, None, Stamp(false, now))
  }

  function MetaOf(request: Request, item: Item): Meta {
    Meta(request.op, request.preflight, item.problem.docId, item.slug)
  }

  /** A document found under the clone's pid is this operation's own. */
  predicate Acceptable(c: Clone, request: Request, item: Item) {
    c.op == request.op && c.text == item.problem.source.text && (c.meta.Some? ==> c.meta.value == MetaOf(request, item))
  }

  // ----- steps -----

  function StampsIn(entries: map<Key, Entry>): map<Key, Stamp> {
    map k | k in entries :: entries[k].stamp
  }

  /** Assign the entry, prune, write the file unless the throw comes first. */
  function Store(w: World, entry: Entry, kept: set<Key>, fault: Fault): World {
    var all := w.memory[entry.request.op := entry];
    var memory := map k | k in all && k in kept :: all[k];
    w.(memory := memory, disk := if fault.BeforeRename? then w.disk else memory,
       evicted := w.evicted + (all.Keys - kept))
  }

  function Go(w: World, request: Request, pc: Pc): World {
    w.(worker := Some(Worker(request, pc)))
  }

  function Stop(w: World): World {
    w.(worker := None)
  }

  function Reply(w: World, e: Entry): World {
    w.(worker := None, answers := w.answers + {Answer(e.request.op, e.mapping)})
  }

  /** Save, then go on if the save did not throw. */
  function StoreGo(w: World, entry: Entry, kept: set<Key>, fault: Fault, pc: Pc): World {
    var s := Store(w, entry, kept, fault);
    if fault.NoFault? then Go(s, entry.request, pc) else Stop(s)
  }

  function StoreReply(w: World, entry: Entry, kept: set<Key>, fault: Fault): World {
    var s := Store(w, entry, kept, fault);
    if fault.NoFault? then Reply(s, entry) else Stop(s)
  }

  function AddClone(w: World, pid: ClonePid, c: Clone): World {
    w.(clones := w.clones[pid := c], docs := w.docs + {c.docId})
  }

  function MarkClone(w: World, pid: ClonePid, meta: Meta): World
    requires pid in w.clones
  {
    w.(clones := w.clones[pid := w.clones[pid].(meta := Some(meta))])
  }

  function Switch(w: World, e: Entry): World {
    w.(contest := Contest(e.target, e.targetScore, e.targetBalloon, w.contest.rest,
                          Some(Marker(e.request.op, e.request.preflight, e.source, e.target))))
  }

  function Completed(e: Entry): Entry {
    e.(stamp := e.stamp.(complete := true))
  }

  /** A worker's entry is at hand, and its lists have the lengths its position needs. */
  ghost predicate Ready(w: World) {
    w.worker.Some? ==>
      var k := w.worker.value;
      && k.request.op in w.memory && w.memory[k.request.op].request == k.request
      && (k.pc.Cloning? ==> |k.pc.picked| <= |k.pc.items| == |w.memory[k.request.op].source|
                            && Picks(k.pc.picked, w.memory[k.request.op].mapping))
      && (k.pc.Copying? ==> |k.pc.picked| < |k.pc.items| && 0 <= k.pc.link < |w.memory[k.request.op].mapping|
                            && k.pc.pid in w.clones)
  }

  ghost predicate Picks(picked: seq<int>, mapping: seq<Link>) {
    forall i :: 0 <= i < |picked| ==> 0 <= picked[i] < |mapping|
  }

  ghost predicate At(w: World, e: Event) {
    if e.Begin? || e.Outside? || e.Crash? then true
    else
      && w.worker.Some?
      && match e
         case Check(_, _) => w.worker.value.pc.Checking?
         case Preflight(_, _, _, _) => w.worker.value.pc.Preflighting?
         case Ensure(_, _, _, _, _) =>
           w.worker.value.pc.Cloning? && |w.worker.value.pc.picked| < |w.worker.value.pc.items|
         case Copy(_, _, _) => w.worker.value.pc.Copying?
         case Target(_, _) => w.worker.value.pc.Cloning? && |w.worker.value.pc.picked| == |w.worker.value.pc.items|
         case Recheck(_, _) => w.worker.value.pc.Final?
         case Swap(_) => w.worker.value.pc.Swapping?
         case Finish(_, _) => w.worker.value.pc.Finishing?
         case _ => true
  }

  function DoBegin(w: World, request: Request, now: int, kept: set<Key>, fault: Fault): World {
    if request.op !in w.memory then StoreGo(w, Fresh(request, now), kept, fault, Checking)
    else if w.memory[request.op].request != request then w
    else if !w.memory[request.op].stamp.complete then Go(w, request, Checking)
    else if Matches(w.contest, w.memory[request.op]) then Reply(w, w.memory[request.op])
    else w
  }

  function Tell(w: World, e: Entry): World {
    w.(answers := w.answers + {Answer(e.request.op, e.mapping)})
  }

  /** A request that arrives while another one holds the contest, or joins its own running twin. */
  function DoQueue(w: World, request: Request, now: int, kept: set<Key>, fault: Fault): World {
    if request.op !in w.memory then Store(w, Fresh(request, now), kept, fault)
    else if w.memory[request.op].request == request && w.memory[request.op].stamp.complete
            && Matches(w.contest, w.memory[request.op]) then Tell(w, w.memory[request.op])
    else w
  }

  function DoCheck(w: World, e: Entry, kept: set<Key>, fault: Fault): World {
    if |e.target| > 0 && |e.mapping| > 0 && AllVerified(e.mapping) then
      if Matches(w.contest, e) then StoreReply(w, Completed(e), kept, fault)
      else if w.contest.marker.Some? && w.contest.marker.value.op == e.request.op then Stop(w)
      else Go(w, e.request, Preflighting)
    else Go(w, e.request, Preflighting)
  }

  ghost function DoPreflight(w: World, e: Entry, admissible: bool, items: seq<Item>, kept: set<Key>,
                             fault: Fault): World
  {
    if !Rederived(w, e.request, admissible, items) || (|e.source| > 0 && e.source != w.contest.pids) then Stop(w)
    else StoreGo(w, e.(source := w.contest.pids, score := w.contest.score, balloon := w.contest.balloon),
                 kept, fault, Cloning(items, []))
  }

  function DoEnsure(w: World, e: Entry, items: seq<Item>, picked: seq<int>, pid: ClonePid, added: DocId, clean: bool,
                    kept: set<Key>, fault: Fault): World
    requires |picked| < |items|
  {
    var item := items[|picked|];
    if pid in w.clones then
      if clean && Acceptable(w.clones[pid], e.request, item)
      then LinkClone(w, e, items, picked, pid, w.clones[pid].docId, kept, fault)
      else Stop(w)
    else
      var u := AddClone(w, pid, Clone(added, e.request.op, item.problem.source.text, None));
      LinkClone(u, e, items, picked, pid, added, kept, fault)
  }

  function LinkClone(w: World, e: Entry, items: seq<Item>, picked: seq<int>, pid: ClonePid, doc: DocId,
                     kept: set<Key>, fault: Fault): World
    requires |picked| < |items|
  {
    var item := items[|picked|];
    var i := Find(e.mapping, item.problem.docId);
    if i < |e.mapping| then
      if e.mapping[i].clone != doc || e.mapping[i].clonePid != pid then Stop(w)
      else StoreGo(w, e, kept, fault, Copying(items, picked, i, pid))
    else
      var link := Link(item.problem.docId, doc, pid, item.slug, false);
      StoreGo(w, e.(mapping := e.mapping + [link]), kept, fault, Copying(items, picked, i, pid))
  }

  function DoCopy(w: World, e: Entry, items: seq<Item>, picked: seq<int>, link: int, pid: ClonePid, agrees: bool,
                  kept: set<Key>, fault: Fault): World
    requires |picked| < |items| && 0 <= link < |e.mapping| && pid in w.clones
  {
    var u := MarkClone(w, pid, MetaOf(e.request, items[|picked|]));
    if !agrees then Stop(u)
    else StoreGo(u, e.(mapping := e.mapping[link := e.mapping[link].(verified := true)]), kept, fault,
                 Cloning(items, picked + [link]))
  }

  function Chosen(mapping: seq<Link>, picked: seq<int>): seq<Link>
    requires Picks(picked, mapping)
  {
    seq(|picked|, i requires 0 <= i < |picked| => mapping[picked[i]])
  }

  function DoTarget(w: World, e: Entry, picked: seq<int>, kept: set<Key>, fault: Fault): World
    requires Picks(picked, e.mapping) && |picked| == |e.source|
  {
    var mapping := Chosen(e.mapping, picked);
    if !AllVerified(mapping) then Stop(w)
    else
      StoreGo(w, e.(mapping := mapping, target := Clones(mapping),
                    targetScore := Remap(e.score, e.source, Clones(mapping)),
                    targetBalloon := Remap(e.balloon, e.source, Clones(mapping))), kept, fault, Final)
  }

  ghost function DoRecheck(w: World, e: Entry, admissible: bool, items: seq<Item>): World {
    if Rederived(w, e.request, admissible, items) && w.contest.pids == e.source then Go(w, e.request, Swapping)
    else Stop(w)
  }

  /** The conditional edit, and the re-read when it did not apply. */
  function DoSwap(w: World, e: Entry, open: bool): World {
    if open && w.contest.pids == e.source && w.contest.score == e.score && w.contest.balloon == e.balloon
    then Go(Switch(w, e), e.request, Finishing)
    else if Matches(w.contest, e) then Go(w, e.request, Finishing)
    else Stop(w)
  }

  /** What the worker does, on the journal entry it holds. */
  ghost function Work(w: World, e: Event): World
    requires Ready(w) && At(w, e) && !e.Begin? && !e.Throw? && !e.Outside? && !e.Crash?
  {
    var k := w.worker.value;
    var entry := w.memory[k.request.op];
    match e
    case Check(kept, fault) => DoCheck(w, entry, kept, fault)
    case Preflight(admissible, items, kept, fault) => DoPreflight(w, entry, admissible, items, kept, fault)
    case Ensure(pid, added, clean, kept, fault) =>
      DoEnsure(w, entry, k.pc.items, k.pc.picked, pid, added, clean, kept, fault)
    case Copy(agrees, kept, fault) =>
      DoCopy(w, entry, k.pc.items, k.pc.picked, k.pc.link, k.pc.pid, agrees, kept, fault)
    case Target(kept, fault) => DoTarget(w, entry, k.pc.picked, kept, fault)
    case Recheck(admissible, items) => DoRecheck(w, entry, admissible, items)
    case Swap(open) => DoSwap(w, entry, open)
    case Finish(kept, fault) => StoreReply(w, Completed(entry), kept, fault)
  }

  ghost function Apply(w: World, e: Event): World
    requires Ready(w) && At(w, e)
  {
    if e.Begin? then
      if w.worker.None? then DoBegin(w, e.request, e.now, e.kept, e.fault)
      else DoQueue(w, e.request, e.now, e.kept, e.fault)
    else if e.Outside? then w.(problems := e.problems, contest := w.contest.(rest := e.rest))
    else if e.Crash? then w.(memory := w.disk, worker := None)
    else if e.Throw? then Stop(w)
    else Work(w, e)
  }

  /** The environment: fresh documents are new, a resolution covers the request, and a save evicts
      as the journal does. */
  ghost predicate Possible(w: World, e: Event, limit: nat)
    requires Ready(w) && At(w, e)
  {
    && (e.Ensure? && e.pid !in w.clones ==> e.added !in w.docs)
    && (e.Preflight? && Rederived(w, w.worker.value.request, e.admissible, e.items) ==>
          Covers(w.contest.pids, w.worker.value.request.problems, w.problems, e.items))
    && (e.Begin? && e.request.op !in w.memory ==> Kept(w, Fresh(e.request, e.now), e.kept, limit))
    && (e.Check? ==> Kept(w, Completed(w.memory[w.worker.value.request.op]), e.kept, limit))
    && (e.Finish? ==> Kept(w, Completed(w.memory[w.worker.value.request.op]), e.kept, limit))
    && (e.Preflight? || e.Ensure? || e.Copy? || e.Target? ==>
          Kept(w, w.memory[w.worker.value.request.op], e.kept, limit))
  }

  /** The entry keeps its stamp in every save but the last. */
  ghost predicate Kept(w: World, entry: Entry, kept: set<Key>, limit: nat) {
    Pruned(StampsIn(w.memory[entry.request.op := entry]), kept, limit)
  }

  ghost predicate IsInitial(w: World) {
    && w.contest.marker.None? && w.memory == map[] && w.disk == map[] && w.clones == map[]
    && w.worker.None? && w.evicted == {} && w.answers == {}
  }

  ghost predicate Enabled(w: World, e: Event, limit: nat) {
    Ready(w) && At(w, e) && Possible(w, e, limit)
  }

  ghost predicate IsRun(ws: seq<World>, es: seq<Event>, limit: nat) {
    && |ws| == |es| + 1 && IsInitial(ws[0])
    && forall i {:trigger es[i]} :: 0 <= i < |es| ==> Enabled(ws[i], es[i], limit) && ws[i + 1] == Apply(ws[i], es[i])
  }
}
