/**
 The crash-safe submission journal: submit and status requests interleaved at their awaits,
 saves that prune and may throw, and process restarts at any point.

 A run is a sequence of events.  `completeSubmissionEntry` is additionally cut after each of
 its saves, which only adds interleavings to those of the addon's single thread; reserving an
 id, saving the reservation and issuing `RecordModel.add` stay one uncut step, as there.
 */
module SubmissionProtocol {
  import opened Basics
  import opened JournalStore

  type Fingerprint(==, !new)
  type RecordId(==, !new)
  type HandlerId(==, !new)

  datatype Counter = ProblemSubmits | UserSubmits

  /** Names one reservation of an id; a later reservation after an eviction has another `n`. */
  datatype Birth = Birth(id: Key, n: int)

  datatype Entry = Entry(
    birth: Birth, fingerprint: Fingerprint, rid: Option<RecordId>,
    statusUpdated: bool, counted: set<Counter>, stamp: Stamp)

  /** The identity of an entry object: handlers keep it across awaits, even past an eviction. */
  datatype Ref = Ref(id: Key, n: int)

  datatype Pc =
    | Eligibility                              // reading problem, contest and contest status
    | AwaitAdd(ref: Ref)
    | Complete(ref: Ref, recovering: bool)     // at the top of completeSubmissionEntry
    | AwaitJournal(ref: Ref)
    | AwaitStatus(ref: Ref)
    | AwaitInc(ref: Ref, counter: Counter)
    | AwaitRecords(ref: Ref)
    | AwaitResult(ref: Ref, found: RecordId)

  datatype Kind = Submit(fingerprint: Fingerprint) | Status

  datatype Handler = Handler(id: Key, kind: Kind, pc: Pc)

  datatype Flight = Flight(fingerprint: Fingerprint, handler: HandlerId)

  datatype Call = Call(birth: Birth, handler: HandlerId)

  datatype Increment = Increment(birth: Birth, counter: Counter)

  datatype World = World(
    heap: map<Ref, Entry>, memory: map<Key, Ref>, disk: map<Key, Entry>, next: int,
    inFlight: map<Key, Flight>, resolving: map<Key, HandlerId>,
    handlers: map<HandlerId, Handler>, used: set<HandlerId>, restarts: int,
    // observations of the calls into the judge
    adds: seq<Birth>,                // RecordModel.add, by the reservation it was issued for
    evicted: set<Birth>,             // reservations a save dropped from memory
    updateCalls: seq<Call>,          // ContestModel.updateStatus
    creator: map<Birth, HandlerId>,  // who reserved
    born: map<Birth, int>,           // how many restarts there had been then
    takeovers: set<Call>,            // who joined an entry it found at the last moment, unprotected
    calls: map<Increment, int>, returned: map<Increment, int>, thrown: map<Increment, int>)

  datatype Event =
    | StartSubmit(h: HandlerId, id: Key, fingerprint: Fingerprint, leased: bool, kept: set<Key>, fault: Fault)
    | Eligible(h: HandlerId, admitted: bool, inWindow: bool, now: int, kept: set<Key>, fault: Fault)
    | AddReturned(h: HandlerId, rid: RecordId, kept: set<Key>, fault: Fault)
    | Continue(h: HandlerId, kept: set<Key>, fault: Fault)
    | JournalRead(h: HandlerId, present: bool, kept: set<Key>, fault: Fault)
    | StatusReturned(h: HandlerId, kept: set<Key>, fault: Fault)
    | IncReturned(h: HandlerId, kept: set<Key>, fault: Fault)
    | StartStatus(h: HandlerId, id: Key)
    | RecordsRead(h: HandlerId, found: Option<RecordId>)
    | ResultRead(h: HandlerId, agrees: bool, kept: set<Key>, fault: Fault)
    | Threw(h: HandlerId)
    | Crash

  const INITIAL := World(map[], map[], map[], 0, map[], map[], map[], {}, 0,
                         [], {}, [], map[], map[], {}, map[], map[], map[])

  function Count(m: map<Increment, int>, k: Increment): int {
    if k in m then m[k] else 0
  }

  predicate HasRef(pc: Pc) {
    !pc.Eligibility?
  }

  // ----- primitive updates -----

  function Put(w: World, ref: Ref, entry: Entry): World {
    w.(heap := w.heap[ref := entry])
  }

  function Go(w: World, h: HandlerId, pc: Pc): World
    requires h in w.handlers
  {
    w.(handlers := w.handlers[h := w.handlers[h].(pc := pc)])
  }

  /** The handler is over: its `finally` blocks drop the in-flight marks it set itself. */
  function End(w: World, h: HandlerId): World {
    w.(handlers := w.handlers - {h},
       inFlight := map id | id in w.inFlight && w.inFlight[id].handler != h :: w.inFlight[id],
       resolving := map id | id in w.resolving && w.resolving[id] != h :: w.resolving[id])
  }

  ghost predicate RefsOk(w: World) {
    forall id :: id in w.memory ==> w.memory[id] in w.heap && w.memory[id].id == id
  }

  function StampsOf(w: World): map<Key, Stamp>
    requires RefsOk(w)
  {
    map id | id in w.memory :: w.heap[w.memory[id]].stamp
  }

  /** The reservations the entries of some ids stand for. */
  function Births(w: World, ids: set<Key>): set<Birth>
    requires RefsOk(w)
  {
    set id | id in ids && id in w.memory :: w.heap[w.memory[id]].birth
  }

  /** One save: evict everything but `kept`, then write the file unless the throw comes first. */
  function Save(w: World, kept: set<Key>, fault: Fault): World
    requires RefsOk(w)
  {
    var memory := map id | id in w.memory && id in kept :: w.memory[id];
    w.(memory := memory,
       evicted := w.evicted + Births(w, w.memory.Keys - kept),
       disk := if fault.BeforeRename? then w.disk else map id | id in memory :: w.heap[memory[id]])
  }

  function Restart(w: World): World {
    var memory := map id | id in w.disk :: Ref(id, w.next);
    w.(heap := map r | r in (set id | id in w.disk :: Ref(id, w.next)) :: w.disk[r.id],
       memory := memory, next := w.next + 1,
       inFlight := map[], resolving := map[], handlers := map[], restarts := w.restarts + 1)
  }

  // ----- one event: what happens before its save, whether it saves, what happens after -----

  ghost predicate Guard(w: World, e: Event) {
    match e
    case StartSubmit(h, id, _, _, _, _) => h !in w.used
    case StartStatus(h, id) => h !in w.used
    case Crash => true
    case Eligible(h, _, _, _, _, _) => h in w.handlers && w.handlers[h].pc.Eligibility? && w.handlers[h].kind.Submit?
    case AddReturned(h, _, _, _) => h in w.handlers && w.handlers[h].pc.AwaitAdd?
    case Continue(h, _, _) => h in w.handlers && w.handlers[h].pc.Complete?
    case JournalRead(h, _, _, _) => h in w.handlers && w.handlers[h].pc.AwaitJournal?
    case StatusReturned(h, _, _) => h in w.handlers && w.handlers[h].pc.AwaitStatus?
    case IncReturned(h, _, _) => h in w.handlers && w.handlers[h].pc.AwaitInc?
    case RecordsRead(h, _) => h in w.handlers && w.handlers[h].pc.AwaitRecords?
    case ResultRead(h, _, _, _) => h in w.handlers && w.handlers[h].pc.AwaitResult?
    case Threw(h) => h in w.handlers && !w.handlers[h].pc.Complete?
  }

  /** index.js:2249-2316: what a fresh request finds. */
  datatype Arrival = Rejected | Joined | Replayed | Ambiguous | Recovers(ref: Ref) | Proceeds

  function Arrive(w: World, id: Key, fingerprint: Fingerprint): Arrival
    requires RefsOk(w)
  {
    if id in w.memory && w.heap[w.memory[id]].fingerprint != fingerprint then Rejected
    else if id in w.inFlight && w.inFlight[id].fingerprint != fingerprint then Rejected
    else if id in w.inFlight then Joined
    else if id in w.memory && w.heap[w.memory[id]].stamp.complete then Replayed
    else if id in w.memory && w.heap[w.memory[id]].rid.None? then Ambiguous
    else if id in w.memory then Recovers(w.memory[id])
    else Proceeds
  }

  /** index.js:2338-2364: what an eligible request finds after its awaits. */
  datatype Second = Refused | TooLate | JoinsLate | TakesOver(ref: Ref) | Reserves

  function Recheck(w: World, id: Key, fingerprint: Fingerprint, inWindow: bool): Second
    requires RefsOk(w)
  {
    if id in w.memory && w.heap[w.memory[id]].fingerprint != fingerprint then Refused
    else if id in w.inFlight && w.inFlight[id].fingerprint != fingerprint then Refused
    else if !inWindow && id !in w.memory && id !in w.inFlight then TooLate
    else if id in w.inFlight then JoinsLate
    else if id in w.memory then TakesOver(w.memory[id])
    else Reserves
  }

  function Fresh(w: World, id: Key, fingerprint: Fingerprint, now: int): Entry {
    Entry(Birth(id, w.next), fingerprint, None, false, {}, Stamp(false, now))
  }

  ghost predicate Ready(w: World) {
    && RefsOk(w)
    && forall h :: h in w.handlers && HasRef(w.handlers[h].pc) ==> w.handlers[h].pc.ref in w.heap
  }

  ghost predicate Saves(w: World, e: Event)
    requires Ready(w) && Guard(w, e)
  {
    match e
    case StartSubmit(h, id, fingerprint, _, _, _) => Arrive(w, id, fingerprint).Recovers?
    case Eligible(h, admitted, inWindow, _, _, _) =>
      admitted && Recheck(w, w.handlers[h].id, w.handlers[h].kind.fingerprint, inWindow).Reserves?
    case AddReturned(_, _, _, _) => true
    case Continue(h, _, _) =>
      NextEffect(w.heap[w.handlers[h].pc.ref], w.handlers[h].pc.recovering).Finish?
    case JournalRead(_, present, _, _) => present
    case StatusReturned(_, _, _) => true
    case IncReturned(_, _, _) => true
    case ResultRead(h, agrees, _, _) => agrees && !Settled(w, h)
    case _ => false
  }

  /** A status request whose entry was completed meanwhile only answers. */
  predicate Settled(w: World, h: HandlerId)
    requires h in w.handlers && w.handlers[h].pc.AwaitResult? && w.handlers[h].pc.ref in w.heap
  {
    var entry := w.heap[w.handlers[h].pc.ref];
    entry.stamp.complete && entry.rid.Some?
  }

  function Notice(w: World, h: HandlerId): World {
    w.(used := w.used + {h})
  }

  function Enter(w: World, h: HandlerId, handler: Handler): World {
    w.(used := w.used + {h}, handlers := w.handlers[h := handler])
  }

  function Recover(w: World, h: HandlerId, id: Key, fingerprint: Fingerprint, ref: Ref): World {
    w.(used := w.used + {h},
       handlers := w.handlers[h := Handler(id, Submit(fingerprint), Complete(ref, true))],
       inFlight := w.inFlight[id := Flight(fingerprint, h)])
  }

  function Watch(w: World, h: HandlerId, id: Key, ref: Ref): World {
    w.(used := w.used + {h},
       handlers := w.handlers[h := Handler(id, Status, AwaitRecords(ref))],
       resolving := w.resolving[id := h])
  }

  function TakeOver(w: World, h: HandlerId, ref: Ref): World
    requires h in w.handlers && w.handlers[h].kind.Submit? && ref in w.heap
  {
    w.(handlers := w.handlers[h := w.handlers[h].(pc := Complete(ref, false))],
       inFlight := w.inFlight[w.handlers[h].id := Flight(w.handlers[h].kind.fingerprint, h)],
       takeovers := w.takeovers + {Call(w.heap[ref].birth, h)})
  }

  function Reserve(w: World, h: HandlerId, now: int): World
    requires h in w.handlers && w.handlers[h].kind.Submit?
  {
    var id, fingerprint := w.handlers[h].id, w.handlers[h].kind.fingerprint;
    w.(heap := w.heap[Ref(id, w.next) := Fresh(w, id, fingerprint, now)],
       memory := w.memory[id := Ref(id, w.next)], next := w.next + 1,
       handlers := w.handlers[h := w.handlers[h].(pc := AwaitAdd(Ref(id, w.next)))],
       inFlight := w.inFlight[id := Flight(fingerprint, h)],
       creator := w.creator[Birth(id, w.next) := h], born := w.born[Birth(id, w.next) := w.restarts])
  }

  function CallUpdateStatus(w: World, h: HandlerId, ref: Ref): World
    requires h in w.handlers && ref in w.heap
  {
    w.(handlers := w.handlers[h := w.handlers[h].(pc := AwaitStatus(ref))],
       updateCalls := w.updateCalls + [Call(w.heap[ref].birth, h)])
  }

  function CallInc(w: World, h: HandlerId, ref: Ref, counter: Counter): World
    requires h in w.handlers && ref in w.heap
  {
    var k := Increment(w.heap[ref].birth, counter);
    w.(handlers := w.handlers[h := w.handlers[h].(pc := AwaitInc(ref, counter))],
       calls := w.calls[k := Count(w.calls, k) + 1])
  }

  function CountInc(w: World, ref: Ref, counter: Counter): World
    requires ref in w.heap
  {
    var k := Increment(w.heap[ref].birth, counter);
    w.(heap := w.heap[ref := w.heap[ref].(counted := w.heap[ref].counted + {counter})],
       returned := w.returned[k := Count(w.returned, k) + 1])
  }

  function FailInc(w: World, k: Increment): World {
    w.(thrown := w.thrown[k := Count(w.thrown, k) + 1])
  }

  /** completeSubmissionEntry: the first side effect whose flag is not set, or completion. */
  datatype Next = ReadJournal | UpdateStatus | Inc(counter: Counter) | Finish

  function NextEffect(entry: Entry, recovering: bool): Next {
    if !entry.statusUpdated then (if recovering then ReadJournal else UpdateStatus)
    else if ProblemSubmits !in entry.counted then Inc(ProblemSubmits)
    else if UserSubmits !in entry.counted then Inc(UserSubmits)
    else Finish
  }

  function BeforeSave(w: World, e: Event): World
    requires Ready(w) && Guard(w, e)
  {
    match e
    case StartSubmit(h, id, fingerprint, leased, _, _) =>
      (match Arrive(w, id, fingerprint)
       case Recovers(ref) => Recover(w, h, id, fingerprint, ref)
       case Proceeds => if leased then Enter(w, h, Handler(id, Submit(fingerprint), Eligibility)) else Notice(w, h)
       case _ => Notice(w, h))
    case Eligible(h, admitted, inWindow, now, _, _) =>
      if !admitted then End(w, h)
      else (match Recheck(w, w.handlers[h].id, w.handlers[h].kind.fingerprint, inWindow)
            case TakesOver(ref) => TakeOver(w, h, ref)
            case Reserves => Reserve(w, h, now)
            case _ => End(w, h))
    case AddReturned(h, rid, _, _) =>
      var ref := w.handlers[h].pc.ref;
      Put(w, ref, w.heap[ref].(rid := Some(rid)))
    case Continue(h, _, _) =>
      var Complete(ref, recovering) := w.handlers[h].pc;
      (match NextEffect(w.heap[ref], recovering)
       case ReadJournal => Go(w, h, AwaitJournal(ref))
       case UpdateStatus => CallUpdateStatus(w, h, ref)
       case Inc(counter) => CallInc(w, h, ref, counter)
       case Finish => Put(w, ref, w.heap[ref].(stamp := w.heap[ref].stamp.(complete := true))))
    case JournalRead(h, present, _, _) =>
      var ref := w.handlers[h].pc.ref;
      if present then Put(w, ref, w.heap[ref].(statusUpdated := true)) else End(w, h)
    case StatusReturned(h, _, _) =>
      var ref := w.handlers[h].pc.ref;
      Put(w, ref, w.heap[ref].(statusUpdated := true))
    case IncReturned(h, _, _) => CountInc(w, w.handlers[h].pc.ref, w.handlers[h].pc.counter)
    case StartStatus(h, id) =>
      if id !in w.memory || id in w.resolving then Notice(w, h) else Watch(w, h, id, w.memory[id])
    case RecordsRead(h, found) =>
      var ref := w.handlers[h].pc.ref;
      if found.None? || (w.heap[ref].rid.Some? && w.heap[ref].rid != found) then End(w, h)
      else Go(w, h, AwaitResult(ref, found.value))
    case ResultRead(h, agrees, _, _) =>
      var AwaitResult(ref, found) := w.handlers[h].pc;
      if !agrees || Settled(w, h) then End(w, h)
      else Put(w, ref, w.heap[ref].(rid := Some(found), statusUpdated := true))
    case Threw(h) =>
      if w.handlers[h].pc.AwaitInc? then
        End(FailInc(w, Increment(w.heap[w.handlers[h].pc.ref].birth, w.handlers[h].pc.counter)), h)
      else End(w, h)
    case Crash => Restart(w)
  }

  /** The reservation an entry object was made for, as long as no restart reloaded it. */
  function MadeFor(ref: Ref): Birth {
    Birth(ref.id, ref.n)
  }

  function Added(w: World, birth: Birth): World {
    w.(adds := w.adds + [birth])
  }

  /** Where a handler stands after a successful save; a failed save ends it. */
  function AfterSave(w: World, e: Event): World
    requires e.StartSubmit? || e.Eligible? || e.AddReturned? || e.Continue? || e.JournalRead?
             || e.StatusReturned? || e.IncReturned? || e.ResultRead?
    requires e.h in w.handlers && (HasRef(w.handlers[e.h].pc))
  {
    var h := e.h;
    if !e.fault.NoFault? || e.Continue? then End(w, h)
    else if e.StartSubmit? then w
    else if e.Eligible? then Added(w, MadeFor(w.handlers[h].pc.ref))
    else Go(w, h, Complete(w.handlers[h].pc.ref, e.JournalRead?))
  }

  /** What a request is told at its end.  `Shares` waits for what another one is told. */
  datatype Reply =
    | Receipt(rid: Option<RecordId>) | Shares(worker: HandlerId)
    | Conflict | Unclear | Denied | Unknown | Unresolved | Failed

  function Unsaved(fault: Fault): Option<Reply> {
    if fault.NoFault? then None else Some(Failed)
  }

  /** The reply an event sends, if it sends one. */
  function ReplyTo(w: World, e: Event): Option<Reply>
    requires Ready(w) && Guard(w, e)
  {
    match e
    case StartSubmit(_, id, fingerprint, leased, _, fault) =>
      (match Arrive(w, id, fingerprint)
       case Rejected => Some(Conflict)
       case Joined => Some(Shares(w.inFlight[id].handler))
       case Replayed => Some(Receipt(w.heap[w.memory[id]].rid))
       case Ambiguous => Some(Unclear)
       case Recovers(_) => Unsaved(fault)
       case Proceeds => if leased then None else Some(Denied))
    case Eligible(h, admitted, inWindow, _, _, fault) =>
      if !admitted then Some(Denied)
      else (match Recheck(w, w.handlers[h].id, w.handlers[h].kind.fingerprint, inWindow)
            case Refused => Some(Conflict)
            case TooLate => Some(Denied)
            case JoinsLate => Some(Shares(w.inFlight[w.handlers[h].id].handler))
            case TakesOver(_) => None
            case Reserves => Unsaved(fault))
    case AddReturned(_, _, _, fault) => Unsaved(fault)
    case Continue(h, _, fault) =>
      var entry := w.heap[w.handlers[h].pc.ref];
      if !NextEffect(entry, w.handlers[h].pc.recovering).Finish? then None
      else if fault.NoFault? then Some(Receipt(entry.rid)) else Some(Failed)
    case JournalRead(_, present, _, fault) => if present then Unsaved(fault) else Some(Unclear)
    case StatusReturned(_, _, fault) => Unsaved(fault)
    case IncReturned(_, _, fault) => Unsaved(fault)
    case StartStatus(_, id) =>
      if id !in w.memory then Some(Unknown)
      else if id in w.resolving then Some(Shares(w.resolving[id])) else None
    case RecordsRead(h, found) =>
      var rid := w.heap[w.handlers[h].pc.ref].rid;
      if found.None? || (rid.Some? && rid != found) then Some(Unresolved) else None
    case ResultRead(h, agrees, _, fault) =>
      if !agrees then Some(Unresolved)
      else if Settled(w, h) then Some(Receipt(Some(w.handlers[h].pc.found))) else Unsaved(fault)
    case Threw(_) => Some(Failed)
    case Crash => None
  }

  ghost predicate Enabled(w: World, e: Event, limit: nat) {
    && Ready(w) && Guard(w, e)
    && (Saves(w, e) ==>
          && RefsOk(BeforeSave(w, e))
          && Pruned(StampsOf(BeforeSave(w, e)), e.kept, limit)
          && e.h in BeforeSave(w, e).handlers && HasRef(BeforeSave(w, e).handlers[e.h].pc))
  }

  ghost function Apply(w: World, e: Event, limit: nat): World
    requires Enabled(w, e, limit)
  {
    var u := BeforeSave(w, e);
    if Saves(w, e) then AfterSave(Save(u, e.kept, e.fault), e) else u
  }

  /** `ws` is a run of `es` from the empty installation. */
  ghost predicate IsRun(ws: seq<World>, es: seq<Event>, limit: nat) {
    && |ws| == |es| + 1 && ws[0] == INITIAL
    && forall i {:trigger es[i]} :: 0 <= i < |es| ==>
         Enabled(ws[i], es[i], limit) && ws[i + 1] == Apply(ws[i], es[i], limit)
  }
}
