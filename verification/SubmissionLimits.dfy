/**
 What overlapping requests of one id can do: two submits give one reservation two calls of
 updateStatus, and a submit with a status query, whichever comes first, move one counter twice.
 */
module SubmissionLimits {
  import opened Basics
  import opened JournalStore
  import opened SubmissionProtocol
  import opened SubmissionSafety
  import opened SubmissionCounters

  /** What such a run looks like once the id is reserved: nothing else is in the journal. */
  datatype Scene = Scene(
    entry: Entry, handlers: map<HandlerId, Handler>, used: set<HandlerId>,
    flights: map<Key, Flight>, resolving: map<Key, HandlerId>, asked: seq<Call>, counts: map<Increment, int>,
    adds: seq<Birth>)

  ghost predicate Shows(w: World, id: Key, s: Scene) {
    && w.memory == map[id := Ref(id, 0)] && Ref(id, 0) in w.heap && w.heap[Ref(id, 0)] == s.entry
    && w.handlers == s.handlers && w.used == s.used && w.inFlight == s.flights && w.resolving == s.resolving
    && w.updateCalls == s.asked && w.calls == s.counts && w.restarts == 0 && w.thrown == map[]
    && w.adds == s.adds && w.evicted == {} && w.next == 1
  }

  /** Before the reservation: submits that passed the first check. */
  ghost predicate Waits(w: World, handlers: map<HandlerId, Handler>) {
    && w.memory == map[] && w.inFlight == map[] && w.resolving == map[] && w.next == 0
    && w.handlers == handlers && w.used == handlers.Keys
    && w.updateCalls == [] && w.calls == map[] && w.restarts == 0 && w.thrown == map[]
    && w.adds == [] && w.evicted == {}
  }

  // ----- what each event does -----

  ghost predicate Leads(w: World, e: Event, id: Key, s: Scene, limit: nat) {
    Enabled(w, e, limit) && Shows(Apply(w, e, limit), id, s)
  }

  /** The one entry is incomplete, so a save keeps it. */
  lemma SaveShows(u: World, id: Key, s: Scene, limit: nat)
    requires RefsOk(u) && Shows(u, id, s) && !s.entry.stamp.complete
    ensures Pruned(StampsOf(u), {id}, limit) && Shows(Save(u, {id}, NoFault), id, s)
  {
    KeepsOne(u, id, s, limit);
    SaveScene(u, id, s);
    hide *;
  }

  lemma KeepsOne(u: World, id: Key, s: Scene, limit: nat)
    requires RefsOk(u) && Shows(u, id, s) && !s.entry.stamp.complete
    ensures Pruned(StampsOf(u), {id}, limit)
  {
    var stamps := StampsOf(u);
    assert stamps.Keys == {id} && CompletedKeys(stamps) == {};
  }

  lemma SaveScene(u: World, id: Key, s: Scene)
    requires RefsOk(u) && Shows(u, id, s)
    ensures Shows(Save(u, {id}, NoFault), id, s)
  {
    assert u.memory.Keys - {id} == {};
  }

  lemma Enters(w: World, handlers: map<HandlerId, Handler>, h: HandlerId, id: Key, f: Fingerprint, limit: nat)
    requires Ready(w) && Waits(w, handlers) && h !in handlers
    ensures var e := StartSubmit(h, id, f, true, {}, NoFault);
            Enabled(w, e, limit) && Waits(Apply(w, e, limit), handlers[h := Handler(id, Submit(f), Eligibility)])
  {
    hide RefsOk, Pruned, StampsOf;
  }

  function Reserved(id: Key, f: Fingerprint): Entry {
    Entry(Birth(id, 0), f, None, false, {}, Stamp(false, 0))
  }

  function Opened(id: Key, f: Fingerprint, handlers: map<HandlerId, Handler>, h: HandlerId): Scene {
    Scene(Reserved(id, f), handlers[h := Handler(id, Submit(f), AwaitAdd(Ref(id, 0)))], handlers.Keys + {h},
          map[id := Flight(f, h)], map[], [], map[], [Birth(id, 0)])
  }

  /** Events of a handler that writes its entry and goes on. */
  predicate GoingOn(e: Event) {
    e.AddReturned? || e.StatusReturned? || e.IncReturned? || e.ResultRead?
  }

  lemma SaveUnfolds(w: World, e: Event, u: World, s: World, limit: nat)
    requires Ready(w) && Guard(w, e) && Saves(w, e) && u == BeforeSave(w, e) && RefsOk(u)
    requires (e.StartSubmit? || e.Eligible? || GoingOn(e)) && s == Save(u, e.kept, e.fault)
    requires Pruned(StampsOf(u), e.kept, limit) && e.h in u.handlers && HasRef(u.handlers[e.h].pc)
    requires e.h in s.handlers && HasRef(s.handlers[e.h].pc)
    ensures Enabled(w, e, limit) && Apply(w, e, limit) == AfterSave(s, e)
  {
    hide BeforeSave, AfterSave, Saves, Pruned, StampsOf, RefsOk, Ready, Save, Guard;
  }

  /** What a handler does after its save takes one scene to the next. */
  ghost predicate Follows(e: Event, id: Key, s: Scene, t: Scene)
    requires e.StartSubmit? || e.Eligible? || GoingOn(e)
  {
    forall x :: Shows(x, id, s) ==>
      e.h in x.handlers && HasRef(x.handlers[e.h].pc) && Shows(AfterSave(x, e), id, t)
  }

  lemma FollowsAt(x: World, e: Event, id: Key, s: Scene, t: Scene)
    requires (e.StartSubmit? || e.Eligible? || GoingOn(e)) && Follows(e, id, s, t) && Shows(x, id, s)
    ensures e.h in x.handlers && HasRef(x.handlers[e.h].pc) && Shows(AfterSave(x, e), id, t)
  {
    hide Shows, AfterSave;
  }

  /** After a save that keeps the entry. */
  lemma SavedLeads(w: World, e: Event, id: Key, s: Scene, t: Scene, limit: nat)
    requires Inv(w) && Ready(w) && Guard(w, e) && Saves(w, e) && !s.entry.stamp.complete
    requires (e.StartSubmit? || e.Eligible? || GoingOn(e)) && e.kept == {id} && e.fault.NoFault?
    requires Shows(BeforeSave(w, e), id, s) && e.h in s.handlers && HasRef(s.handlers[e.h].pc)
    requires Follows(e, id, s, t)
    ensures Leads(w, e, id, t, limit)
  {
    BeforeKeeps(w, e);
    var u := BeforeSave(w, e);
    Unfold(u);
    hide *;
    SaveShows(u, id, s, limit);
    var v := Save(u, e.kept, e.fault);
    ShowsHandler(u, id, s, e.h);
    FollowsAt(v, e, id, s, t);
    SaveUnfolds(w, e, u, v, limit);
    LeadsIs(w, e, id, t, limit);
  }

  lemma ShowsHandler(w: World, id: Key, s: Scene, h: HandlerId)
    requires Shows(w, id, s) && h in s.handlers && HasRef(s.handlers[h].pc)
    ensures h in w.handlers && HasRef(w.handlers[h].pc)
  {}

  lemma LeadsIs(w: World, e: Event, id: Key, t: Scene, limit: nat)
    requires Enabled(w, e, limit) && Shows(Apply(w, e, limit), id, t)
    ensures Leads(w, e, id, t, limit)
  {}

  lemma Reserves(w: World, handlers: map<HandlerId, Handler>, h: HandlerId, id: Key, f: Fingerprint, limit: nat)
    requires Inv(w) && Ready(w) && Waits(w, handlers)
    requires h in handlers && handlers[h] == Handler(id, Submit(f), Eligibility)
    ensures Leads(w, Eligible(h, true, true, 0, {id}, NoFault), id, Opened(id, f, handlers, h), limit)
  {
    hide Shows, Follows, Waits, BeforeSave, Saves, RefsOk, Ready, Inv, Reserve, Recheck, Leads, Guard;
    var e, s := Eligible(h, true, true, 0, {id}, NoFault), Opened(id, f, handlers, h);
    ReserveIs(w, handlers, h, id, f);
    ReserveShows(w, handlers, h, id, f);
    AddFollows(e, id, s.(adds := []), s);
    SavedLeads(w, e, id, s.(adds := []), s, limit);
  }

  lemma ReserveIs(w: World, handlers: map<HandlerId, Handler>, h: HandlerId, id: Key, f: Fingerprint)
    requires Ready(w) && Waits(w, handlers) && h in handlers && handlers[h] == Handler(id, Submit(f), Eligibility)
    ensures var e := Eligible(h, true, true, 0, {id}, NoFault);
            Guard(w, e) && Saves(w, e) && BeforeSave(w, e) == Reserve(w, h, 0)
  {
    assert Recheck(w, id, f, true).Reserves?;
    hide Waits, Recheck, RefsOk, Reserve;
  }

  lemma AddFollows(e: Event, id: Key, s: Scene, t: Scene)
    requires e.Eligible? && e.fault.NoFault? && e.h in s.handlers && HasRef(s.handlers[e.h].pc)
    requires s.handlers[e.h].pc.ref == Ref(id, 0) && t == s.(adds := s.adds + [Birth(id, 0)])
    ensures Follows(e, id, s, t)
  {}

  lemma ReserveShows(w: World, handlers: map<HandlerId, Handler>, h: HandlerId, id: Key, f: Fingerprint)
    requires Waits(w, handlers) && h in handlers && handlers[h] == Handler(id, Submit(f), Eligibility)
    ensures Shows(Reserve(w, h, 0), id, Opened(id, f, handlers, h).(adds := []))
  {
    assert handlers.Keys + {h} == handlers.Keys;
  }

  /** The handler's own part of a scene. */
  function At(s: Scene, h: HandlerId, pc: Pc): Scene
    requires h in s.handlers
  {
    s.(handlers := s.handlers[h := s.handlers[h].(pc := pc)])
  }

  lemma GoesOn(e: Event, id: Key, s: Scene)
    requires GoingOn(e) && e.fault.NoFault?
    requires e.h in s.handlers && HasRef(s.handlers[e.h].pc) && s.handlers[e.h].pc.ref == Ref(id, 0)
    ensures Follows(e, id, s, At(s, e.h, Complete(Ref(id, 0), false)))
  {}

  lemma PutShows(w: World, id: Key, s: Scene, entry: Entry)
    requires Shows(w, id, s)
    ensures Shows(Put(w, Ref(id, 0), entry), id, s.(entry := entry))
  {}

  /** An event that writes the entry, saves it and goes on. */
  lemma Writes(w: World, id: Key, s: Scene, e: Event, entry: Entry, limit: nat)
    requires Inv(w) && Ready(w) && Guard(w, e) && Shows(w, id, s) && Saves(w, e)
    requires GoingOn(e) && e.kept == {id} && e.fault.NoFault?
    requires BeforeSave(w, e) == Put(w, Ref(id, 0), entry) && !entry.stamp.complete
    requires HasRef(s.handlers[e.h].pc) && s.handlers[e.h].pc.ref == Ref(id, 0)
    ensures Leads(w, e, id, At(s.(entry := entry), e.h, Complete(Ref(id, 0), false)), limit)
  {
    PutShows(w, id, s, entry);
    GoesOn(e, id, s.(entry := entry));
    hide Guard, BeforeSave, Saves, RefsOk, Ready, Inv, Put, Leads, AfterSave, Shows, Follows;
    SavedLeads(w, e, id, s.(entry := entry), At(s.(entry := entry), e.h, Complete(Ref(id, 0), false)), limit);
  }

  lemma Returns(w: World, id: Key, s: Scene, h: HandlerId, rid: RecordId, limit: nat)
    requires Inv(w) && Ready(w) && Shows(w, id, s) && !s.entry.stamp.complete
    requires h in s.handlers && s.handlers[h].pc == AwaitAdd(Ref(id, 0))
    ensures Leads(w, AddReturned(h, rid, {id}, NoFault), id,
                  At(s.(entry := s.entry.(rid := Some(rid))), h, Complete(Ref(id, 0), false)), limit)
  {
    Writes(w, id, s, AddReturned(h, rid, {id}, NoFault), s.entry.(rid := Some(rid)), limit);
    hide Leads, Inv, Ready;
  }

  lemma StatusReturns(w: World, id: Key, s: Scene, h: HandlerId, limit: nat)
    requires Inv(w) && Ready(w) && Shows(w, id, s) && !s.entry.stamp.complete
    requires h in s.handlers && s.handlers[h].pc == AwaitStatus(Ref(id, 0))
    ensures Leads(w, StatusReturned(h, {id}, NoFault), id,
                  At(s.(entry := s.entry.(statusUpdated := true)), h, Complete(Ref(id, 0), false)), limit)
  {
    Writes(w, id, s, StatusReturned(h, {id}, NoFault), s.entry.(statusUpdated := true), limit);
    hide Leads, Inv, Ready;
  }

  lemma ResultAgrees(w: World, id: Key, s: Scene, h: HandlerId, rid: RecordId, limit: nat)
    requires Inv(w) && Ready(w) && Shows(w, id, s) && !s.entry.stamp.complete
    requires h in s.handlers && s.handlers[h].pc == AwaitResult(Ref(id, 0), rid)
    ensures Leads(w, ResultRead(h, true, {id}, NoFault), id,
                  At(s.(entry := s.entry.(rid := Some(rid), statusUpdated := true)), h, Complete(Ref(id, 0), false)),
                  limit)
  {
    Writes(w, id, s, ResultRead(h, true, {id}, NoFault), s.entry.(rid := Some(rid), statusUpdated := true), limit);
    hide Leads, Inv, Ready;
  }

  lemma Updates(w: World, id: Key, s: Scene, h: HandlerId, limit: nat)
    requires Ready(w) && Shows(w, id, s) && !s.entry.statusUpdated
    requires h in s.handlers && s.handlers[h].pc == Complete(Ref(id, 0), false)
    ensures Leads(w, Continue(h, {id}, NoFault), id,
                  At(s, h, AwaitStatus(Ref(id, 0))).(asked := s.asked + [Call(s.entry.birth, h)]), limit)
  {
    hide RefsOk, Pruned, StampsOf;
  }

  function Counting(s: Scene, h: HandlerId, id: Key, counter: Counter): Scene
    requires h in s.handlers
  {
    var k := Increment(s.entry.birth, counter);
    At(s, h, AwaitInc(Ref(id, 0), counter)).(counts := s.counts[k := Count(s.counts, k) + 1])
  }

  lemma Counts(w: World, id: Key, s: Scene, h: HandlerId, counter: Counter, limit: nat)
    requires Ready(w) && Shows(w, id, s) && h in s.handlers && s.handlers[h].pc.Complete?
    requires s.handlers[h].pc.ref == Ref(id, 0) && NextEffect(s.entry, s.handlers[h].pc.recovering) == Inc(counter)
    ensures Leads(w, Continue(h, {id}, NoFault), id, Counting(s, h, id, counter), limit)
  {
    var e := Continue(h, {id}, NoFault);
    assert !Saves(w, e) && BeforeSave(w, e) == CallInc(w, h, Ref(id, 0), counter);
    hide RefsOk, Pruned, StampsOf, BeforeSave, Saves, Ready, Count;
  }

  lemma Throws(w: World, id: Key, s: Scene, h: HandlerId, limit: nat)
    requires Ready(w) && Shows(w, id, s) && h in s.handlers
    requires s.handlers[h].pc.AwaitStatus? || s.handlers[h].pc.AwaitAdd?
    requires s.resolving == map[] && (forall x :: x in s.flights ==> s.flights[x].handler == h)
    ensures Leads(w, Threw(h), id, s.(handlers := s.handlers - {h}, flights := map[]), limit)
  {
    assert End(w, h).inFlight == map[] && End(w, h).resolving == map[];
    hide RefsOk, Pruned, StampsOf;
  }

  lemma TakesOver(w: World, id: Key, s: Scene, h: HandlerId, limit: nat)
    requires Ready(w) && Shows(w, id, s) && id !in s.flights && h in s.handlers
    requires s.handlers[h] == Handler(id, Submit(s.entry.fingerprint), Eligibility)
    ensures Leads(w, Eligible(h, true, true, 0, {id}, NoFault), id,
                  At(s, h, Complete(Ref(id, 0), false)).(flights := s.flights[id := Flight(s.entry.fingerprint, h)]),
                  limit)
  {
    hide RefsOk, Pruned, StampsOf;
  }

  lemma Watches(w: World, id: Key, s: Scene, h: HandlerId, limit: nat)
    requires Ready(w) && Shows(w, id, s) && id !in s.resolving && h !in s.used
    ensures Leads(w, StartStatus(h, id), id,
                  s.(handlers := s.handlers[h := Handler(id, Status, AwaitRecords(Ref(id, 0)))],
                     used := s.used + {h}, resolving := s.resolving[id := h]), limit)
  {
    hide RefsOk, Pruned, StampsOf;
  }

  lemma Finds(w: World, id: Key, s: Scene, h: HandlerId, rid: RecordId, limit: nat)
    requires Ready(w) && Shows(w, id, s) && s.entry.rid == Some(rid)
    requires h in s.handlers && s.handlers[h].pc == AwaitRecords(Ref(id, 0))
    ensures Leads(w, RecordsRead(h, Some(rid)), id, At(s, h, AwaitResult(Ref(id, 0), rid)), limit)
  {
    hide RefsOk, Pruned, StampsOf;
  }

  // ----- runs -----

  ghost predicate Reaches(ws: seq<World>, es: seq<Event>, id: Key, s: Scene, limit: nat) {
    IsRun(ws, es, limit) && Shows(ws[|es|], id, s)
  }

  lemma Extend(ws: seq<World>, es: seq<Event>, e: Event, limit: nat) returns (vs: seq<World>)
    requires IsRun(ws, es, limit) && Enabled(ws[|es|], e, limit)
    ensures IsRun(vs, es + [e], limit) && vs == ws + [Apply(ws[|es|], e, limit)]
  {
    hide Enabled, Apply;
    vs := ws + [Apply(ws[|es|], e, limit)];
  }

  lemma Here(ws: seq<World>, es: seq<Event>, id: Key, s: Scene, limit: nat)
    requires Reaches(ws, es, id, s, limit)
    ensures |ws| == |es| + 1 && Inv(ws[|es|]) && Ready(ws[|es|]) && Shows(ws[|es|], id, s)
  {
    hide Inv, Ready, Shows, Enabled, Apply;
    RunKeeps(ws, es, limit, |es|);
    Unfold(ws[|es|]);
  }

  lemma Onward(ws: seq<World>, es: seq<Event>, id: Key, s: Scene, e: Event, t: Scene, limit: nat)
    returns (vs: seq<World>)
    requires Reaches(ws, es, id, s, limit) && |ws| == |es| + 1 && Leads(ws[|es|], e, id, t, limit)
    ensures Reaches(vs, es + [e], id, t, limit) && ws <= vs
  {
    hide IsRun, Shows, Enabled, Apply;
    vs := Extend(ws, es, e, limit);
  }

  ghost predicate Arrived(ws: seq<World>, es: seq<Event>, handlers: map<HandlerId, Handler>, limit: nat) {
    IsRun(ws, es, limit) && Waits(ws[|es|], handlers)
  }

  lemma Arrives(ws: seq<World>, es: seq<Event>, handlers: map<HandlerId, Handler>,
                h: HandlerId, id: Key, f: Fingerprint, limit: nat) returns (vs: seq<World>)
    requires Arrived(ws, es, handlers, limit) && h !in handlers
    ensures Arrived(vs, es + [StartSubmit(h, id, f, true, {}, NoFault)],
                    handlers[h := Handler(id, Submit(f), Eligibility)], limit)
  {
    var e := StartSubmit(h, id, f, true, {}, NoFault);
    RunKeeps(ws, es, limit, |es|);
    Unfold(ws[|es|]);
    hide Inv, Ready, Waits, Enabled, Apply;
    Enters(ws[|es|], handlers, h, id, f, limit);
    vs := Extend(ws, es, e, limit);
  }

  lemma Reserving(ws: seq<World>, es: seq<Event>, handlers: map<HandlerId, Handler>,
                  h: HandlerId, id: Key, f: Fingerprint, limit: nat) returns (vs: seq<World>)
    requires Arrived(ws, es, handlers, limit) && h in handlers && handlers[h] == Handler(id, Submit(f), Eligibility)
    ensures Reaches(vs, es + [Eligible(h, true, true, 0, {id}, NoFault)], id, Opened(id, f, handlers, h), limit)
  {
    var e := Eligible(h, true, true, 0, {id}, NoFault);
    RunKeeps(ws, es, limit, |es|);
    Unfold(ws[|es|]);
    hide Inv, Ready, Waits, Shows, Enabled, Apply;
    Reserves(ws[|es|], handlers, h, id, f, limit);
    vs := Extend(ws, es, e, limit);
  }

  lemma Beginning(limit: nat)
    ensures Arrived([INITIAL], [], map[], limit)
  {}

  lemma AtEnd(ws: seq<World>, es: seq<Event>, id: Key, s: Scene, limit: nat)
    requires Reaches(ws, es, id, s, limit)
    ensures IsRun(ws, es, limit) && |ws| == |es| + 1 && ws[0] == INITIAL && Shows(ws[|es|], id, s)
  {
    hide Shows, Enabled, Apply;
  }

  /** The bound of one call per reservation needs submits that do not overlap: for every id, payload
      and pair of requests there is a run without any crash in which one resident reservation is
      given to updateStatus twice, by two requests. */
  lemma OverlapCallsTwice(id: Key, f: Fingerprint, rid: RecordId, first: HandlerId, second: HandlerId, limit: nat)
    returns (ws: seq<World>, es: seq<Event>)
    requires first != second
    ensures IsRun(ws, es, limit)
    ensures var last := ws[|es|];
            && last.restarts == 0 && id in last.memory
            && last.updateCalls == [Call(Birth(id, 0), first), Call(Birth(id, 0), second)]
            && |CallsFor(last, Birth(id, 0))| == 2
  {
    var s;
    ws, es, s := FirstGivesUp(id, f, rid, first, second, limit);
    hide Reaches, Leads, Shows, Inv, IsRun;
    var ref := Ref(id, 0);
    Here(ws, es, id, s, limit);
    var t := At(s, second, Complete(ref, false)).(flights := s.flights[id := Flight(f, second)]);
    TakesOver(ws[|es|], id, s, second, limit);
    ws := Onward(ws, es, id, s, Eligible(second, true, true, 0, {id}, NoFault), t, limit);
    es := es + [Eligible(second, true, true, 0, {id}, NoFault)];
    Here(ws, es, id, t, limit);
    var u := At(t, second, AwaitStatus(ref)).(asked := t.asked + [Call(Birth(id, 0), second)]);
    Updates(ws[|es|], id, t, second, limit);
    ws := Onward(ws, es, id, t, Continue(second, {id}, NoFault), u, limit);
    es := es + [Continue(second, {id}, NoFault)];
    AtEnd(ws, es, id, u, limit);
    Asked(ws[|es|], id, u, first, second);
  }

  lemma Asked(w: World, id: Key, s: Scene, first: HandlerId, second: HandlerId)
    requires Shows(w, id, s) && first != second
    requires s.asked == [Call(Birth(id, 0), first)] + [Call(Birth(id, 0), second)]
    ensures w.restarts == 0 && id in w.memory && |CallsFor(w, Birth(id, 0))| == 2
    ensures w.updateCalls == [Call(Birth(id, 0), first), Call(Birth(id, 0), second)]
  {
    assert CallsFor(w, Birth(id, 0)) == {Call(Birth(id, 0), first), Call(Birth(id, 0), second)};
  }

  /** The first request reserves, adds, and asks updateStatus. */
  lemma FirstAsks(ws: seq<World>, es: seq<Event>, handlers: map<HandlerId, Handler>, id: Key, f: Fingerprint,
                  rid: RecordId, first: HandlerId, limit: nat) returns (vs: seq<World>, fs: seq<Event>, s: Scene)
    requires Arrived(ws, es, handlers, limit) && first in handlers
    requires handlers[first] == Handler(id, Submit(f), Eligibility)
    ensures Reaches(vs, fs, id, s, limit)
    ensures fs == es + [Eligible(first, true, true, 0, {id}, NoFault), AddReturned(first, rid, {id}, NoFault),
                        Continue(first, {id}, NoFault)]
    ensures s == Scene(Reserved(id, f).(rid := Some(rid)),
                       handlers[first := Handler(id, Submit(f), AwaitStatus(Ref(id, 0)))], handlers.Keys + {first},
                       map[id := Flight(f, first)], map[], [Call(Birth(id, 0), first)], map[], [Birth(id, 0)])
  {
    hide Arrived, Reaches, Leads, Shows, Inv, IsRun;
    var ref := Ref(id, 0);
    vs := Reserving(ws, es, handlers, first, id, f, limit);
    fs, s := es + [Eligible(first, true, true, 0, {id}, NoFault)], Opened(id, f, handlers, first);
    Here(vs, fs, id, s, limit);
    Returns(vs[|fs|], id, s, first, rid, limit);
    var t := At(s.(entry := s.entry.(rid := Some(rid))), first, Complete(ref, false));
    vs := Onward(vs, fs, id, s, AddReturned(first, rid, {id}, NoFault), t, limit);
    fs := fs + [AddReturned(first, rid, {id}, NoFault)];
    Here(vs, fs, id, t, limit);
    Updates(vs[|fs|], id, t, first, limit);
    s := At(t, first, AwaitStatus(ref)).(asked := [] + [Call(Birth(id, 0), first)]);
    vs := Onward(vs, fs, id, t, Continue(first, {id}, NoFault), s, limit);
    fs := fs + [Continue(first, {id}, NoFault)];
  }

  /** Two requests pass the first check before any entry exists; the first one reserves and adds,
      then its updateStatus throws. */
  lemma FirstGivesUp(id: Key, f: Fingerprint, rid: RecordId, first: HandlerId, second: HandlerId, limit: nat)
    returns (ws: seq<World>, es: seq<Event>, s: Scene)
    requires first != second
    ensures Reaches(ws, es, id, s, limit) && s.asked == [Call(Birth(id, 0), first)]
    ensures s.entry == Reserved(id, f).(rid := Some(rid)) && id !in s.flights
    ensures second in s.handlers && s.handlers[second] == Handler(id, Submit(f), Eligibility)
  {
    Beginning(limit);
    hide Arrived, Reaches, Leads, Shows, Inv, IsRun;
    var handlers := map[first := Handler(id, Submit(f), Eligibility)];
    assert handlers == (map[])[first := Handler(id, Submit(f), Eligibility)];
    ws := Arrives([INITIAL], [], map[], first, id, f, limit);
    es := [] + [StartSubmit(first, id, f, true, {}, NoFault)];
    ws := Arrives(ws, es, handlers, second, id, f, limit);
    es := es + [StartSubmit(second, id, f, true, {}, NoFault)];
    handlers := handlers[second := Handler(id, Submit(f), Eligibility)];
    ws, es, s := FirstAsks(ws, es, handlers, id, f, rid, first, limit);
    Here(ws, es, id, s, limit);
    Throws(ws[|es|], id, s, first, limit);
    var t := s.(handlers := s.handlers - {first}, flights := map[]);
    ws := Onward(ws, es, id, s, Threw(first), t, limit);
    es, s := es + [Threw(first)], t;
  }

  /** An entry can be marked updated without any record: its submit gives up when add throws, and a
      submit that was waiting for its own checks takes the entry over as it is. */
  lemma TakeoverWithoutRecord(id: Key, f: Fingerprint, first: HandlerId, second: HandlerId, limit: nat)
    returns (ws: seq<World>, es: seq<Event>)
    requires first != second
    ensures IsRun(ws, es, limit)
    ensures var last := ws[|es|];
            && last.restarts == 0 && id in last.memory && last.memory[id] in last.heap
            && last.heap[last.memory[id]].statusUpdated && last.heap[last.memory[id]].rid.None?
            && last.updateCalls == [Call(Birth(id, 0), second)]
  {
    var s, t;
    ws, es, s := AddThrows(id, f, first, second, limit);
    hide Reaches, Leads, Shows, Inv, IsRun;
    var ref := Ref(id, 0);
    Here(ws, es, id, s, limit);
    t := At(s, second, Complete(ref, false)).(flights := s.flights[id := Flight(f, second)]);
    TakesOver(ws[|es|], id, s, second, limit);
    ws := Onward(ws, es, id, s, Eligible(second, true, true, 0, {id}, NoFault), t, limit);
    es := es + [Eligible(second, true, true, 0, {id}, NoFault)];
    Here(ws, es, id, t, limit);
    s := At(t, second, AwaitStatus(ref)).(asked := t.asked + [Call(Birth(id, 0), second)]);
    Updates(ws[|es|], id, t, second, limit);
    ws := Onward(ws, es, id, t, Continue(second, {id}, NoFault), s, limit);
    es := es + [Continue(second, {id}, NoFault)];
    Here(ws, es, id, s, limit);
    StatusReturns(ws[|es|], id, s, second, limit);
    t := At(s.(entry := s.entry.(statusUpdated := true)), second, Complete(ref, false));
    ws := Onward(ws, es, id, s, StatusReturned(second, {id}, NoFault), t, limit);
    es := es + [StatusReturned(second, {id}, NoFault)];
    AtEnd(ws, es, id, t, limit);
    ShowsEntry(ws[|es|], id, t);
  }

  lemma ShowsEntry(w: World, id: Key, s: Scene)
    requires Shows(w, id, s)
    ensures id in w.memory && w.memory[id] in w.heap && w.heap[w.memory[id]] == s.entry && w.restarts == 0
    ensures w.updateCalls == s.asked
  {}

  lemma AddThrows(id: Key, f: Fingerprint, first: HandlerId, second: HandlerId, limit: nat)
    returns (ws: seq<World>, es: seq<Event>, s: Scene)
    requires first != second
    ensures Reaches(ws, es, id, s, limit) && s.asked == [] && s.entry == Reserved(id, f) && id !in s.flights
    ensures second in s.handlers && s.handlers[second] == Handler(id, Submit(f), Eligibility)
  {
    Beginning(limit);
    hide Arrived, Reaches, Leads, Shows, Inv, IsRun;
    var handlers := (map[])[first := Handler(id, Submit(f), Eligibility)];
    ws := Arrives([INITIAL], [], map[], first, id, f, limit);
    es := [] + [StartSubmit(first, id, f, true, {}, NoFault)];
    ws := Arrives(ws, es, handlers, second, id, f, limit);
    es := es + [StartSubmit(second, id, f, true, {}, NoFault)];
    handlers := handlers[second := Handler(id, Submit(f), Eligibility)];
    ws := Reserving(ws, es, handlers, first, id, f, limit);
    es, s := es + [Eligible(first, true, true, 0, {id}, NoFault)], Opened(id, f, handlers, first);
    Here(ws, es, id, s, limit);
    Throws(ws[|es|], id, s, first, limit);
    var t := s.(handlers := s.handlers - {first}, flights := map[]);
    ws := Onward(ws, es, id, s, Threw(first), t, limit);
    es, s := es + [Threw(first)], t;
  }

  /** A submit alone, up to its call of updateStatus. */
  lemma SubmitAsks(id: Key, f: Fingerprint, rid: RecordId, first: HandlerId, limit: nat)
    returns (ws: seq<World>, es: seq<Event>, s: Scene)
    ensures Reaches(ws, es, id, s, limit) && |es| == 4 && es[0].StartSubmit?
    ensures forall i :: 0 < i < |es| ==> !es[i].StartSubmit? && !es[i].StartStatus?
    ensures s == Scene(Reserved(id, f).(rid := Some(rid)),
                       map[first := Handler(id, Submit(f), AwaitStatus(Ref(id, 0)))], {first},
                       map[id := Flight(f, first)], map[], [Call(Birth(id, 0), first)], map[], [Birth(id, 0)])
  {
    Beginning(limit);
    hide Arrived, Reaches, Leads, Shows, Inv, IsRun;
    var handlers := (map[])[first := Handler(id, Submit(f), Eligibility)];
    ws := Arrives([INITIAL], [], map[], first, id, f, limit);
    es := [] + [StartSubmit(first, id, f, true, {}, NoFault)];
    ws, es, s := FirstAsks(ws, es, handlers, id, f, rid, first, limit);
  }

  /** A status query that finds the record judged, up to its call of a counter. */
  lemma QueryCounts(ws: seq<World>, es: seq<Event>, id: Key, s: Scene, h: HandlerId, rid: RecordId, limit: nat)
    returns (vs: seq<World>, fs: seq<Event>, t: Scene)
    requires Reaches(ws, es, id, s, limit) && |ws| == |es| + 1
    requires s.resolving == map[] && h !in s.used && h !in s.handlers && s.counts == map[]
    requires s.entry.rid == Some(rid) && s.entry.counted == {} && !s.entry.stamp.complete
    ensures Reaches(vs, fs, id, t, limit) && ws <= vs
    ensures fs == es + [StartStatus(h, id), RecordsRead(h, Some(rid)), ResultRead(h, true, {id}, NoFault),
                        Continue(h, {id}, NoFault)]
    ensures t == s.(entry := s.entry.(statusUpdated := true), used := s.used + {h}, resolving := map[id := h],
                    handlers := s.handlers[h := Handler(id, Status, AwaitInc(Ref(id, 0), ProblemSubmits))],
                    counts := map[Increment(s.entry.birth, ProblemSubmits) := 1])
  {
    hide Arrived, Reaches, Leads, Shows, Inv, IsRun;
    var ref := Ref(id, 0);
    Here(ws, es, id, s, limit);
    Watches(ws[|es|], id, s, h, limit);
    t := s.(handlers := s.handlers[h := Handler(id, Status, AwaitRecords(ref))],
            used := s.used + {h}, resolving := s.resolving[id := h]);
    vs := Onward(ws, es, id, s, StartStatus(h, id), t, limit);
    fs := es + [StartStatus(h, id)];
    Here(vs, fs, id, t, limit);
    Finds(vs[|fs|], id, t, h, rid, limit);
    var u := At(t, h, AwaitResult(ref, rid));
    vs := Onward(vs, fs, id, t, RecordsRead(h, Some(rid)), u, limit);
    fs := fs + [RecordsRead(h, Some(rid))];
    Here(vs, fs, id, u, limit);
    ResultAgrees(vs[|fs|], id, u, h, rid, limit);
    t := At(u.(entry := u.entry.(rid := Some(rid), statusUpdated := true)), h, Complete(ref, false));
    vs := Onward(vs, fs, id, u, ResultRead(h, true, {id}, NoFault), t, limit);
    fs := fs + [ResultRead(h, true, {id}, NoFault)];
    Here(vs, fs, id, t, limit);
    Counts(vs[|fs|], id, t, h, ProblemSubmits, limit);
    u := Counting(t, h, id, ProblemSubmits);
    vs := Onward(vs, fs, id, t, Continue(h, {id}, NoFault), u, limit);
    fs, t := fs + [Continue(h, {id}, NoFault)], u;
  }

  /** What the two runs below end with: one counter of one reservation moved twice, without crash or throw. */
  ghost predicate CountedTwice(w: World, id: Key) {
    && w.restarts == 0 && w.thrown == map[] && id in w.memory
    && Count(w.calls, Increment(Birth(id, 0), ProblemSubmits)) == 2
  }

  /** The bound on the counters needs both its clauses.  Queries must not start beside a submit: for
      every id, payload and pair of handlers there is a run without crash, throw or overlapping submits
      in which a status query starts while the submit waits, and both move one counter. */
  lemma OverlapCountsTwice(id: Key, f: Fingerprint, rid: RecordId, first: HandlerId, second: HandlerId, limit: nat)
    returns (ws: seq<World>, es: seq<Event>)
    requires first != second
    ensures SubmitsApartRun(ws, es, limit) && forall i :: 0 <= i < |es| ==> SubmitsAlone(ws[i], es[i])
    ensures CountedTwice(ws[|es|], id)
  {
    var s;
    ws, es, s := SubmitAsks(id, f, rid, first, limit);
    hide Reaches, Leads, Shows, Inv, IsRun, SubmitsApartRun, SubmitsAlone, CountedTwice;
    Here(ws, es, id, s, limit);
    var t;
    ws, es, t := QueryCounts(ws, es, id, s, second, rid, limit);
    Here(ws, es, id, t, limit);
    s := At(t.(entry := t.entry.(statusUpdated := true)), first, Complete(Ref(id, 0), false));
    StatusReturns(ws[|es|], id, t, first, limit);
    ws := Onward(ws, es, id, t, StatusReturned(first, {id}, NoFault), s, limit);
    es := es + [StatusReturned(first, {id}, NoFault)];
    Here(ws, es, id, s, limit);
    Counts(ws[|es|], id, s, first, ProblemSubmits, limit);
    t := Counting(s, first, id, ProblemSubmits);
    ws := Onward(ws, es, id, s, Continue(first, {id}, NoFault), t, limit);
    es := es + [Continue(first, {id}, NoFault)];
    AtEnd(ws, es, id, t, limit);
    Counted(ws[|es|], id, t);
    OneSubmit(ws, es, limit);
  }

  /** Submits must not start beside a query: the submit gives up after its updateStatus threw, a query
      moves the counter, and while it waits the retried submit moves it again.  Here neither submits
      overlap, nor does any query start beside a submit. */
  lemma RetryCountsTwice(id: Key, f: Fingerprint, rid: RecordId, first: HandlerId, second: HandlerId,
                         third: HandlerId, limit: nat) returns (ws: seq<World>, es: seq<Event>)
    requires first != second && first != third && second != third
    ensures SubmitsApartRun(ws, es, limit) && forall i :: 0 <= i < |es| ==> QueriesAlone(ws[i], es[i])
    ensures CountedTwice(ws[|es|], id)
  {
    hide Reaches, Leads, Shows, Inv, IsRun, SubmitsApartRun, QueriesAlone, CountedTwice, Early;
    var vs, fs, s, u;
    vs, fs, s := QueryAfterThrow(id, f, rid, first, second, limit);
    Here(vs, fs, id, s, limit);
    NoSubmitThere(vs[9], id, s, second);
    ws, es, u := RetryCounts(vs, fs, id, s, third, limit);
    AtEnd(ws, es, id, u, limit);
    Counted(ws[|es|], id, u);
    TwoSubmits(ws, es, limit, vs, fs);
  }

  lemma RetryCounts(ws: seq<World>, es: seq<Event>, id: Key, s: Scene, h: HandlerId, limit: nat)
    returns (vs: seq<World>, fs: seq<Event>, t: Scene)
    requires Reaches(ws, es, id, s, limit) && |ws| == |es| + 1 && h !in s.used && s.flights == map[]
    requires s.entry.statusUpdated && s.entry.counted == {} && !s.entry.stamp.complete && s.entry.rid.Some?
    requires s.entry.birth == Birth(id, 0) && s.counts == map[Increment(Birth(id, 0), ProblemSubmits) := 1]
    ensures Reaches(vs, fs, id, t, limit) && ws <= vs && |fs| == |es| + 2 && fs[..|es|] == es
    ensures fs[|es|].StartSubmit? && fs[|es| + 1].Continue?
    ensures Count(t.counts, Increment(Birth(id, 0), ProblemSubmits)) == 2
  {
    hide Reaches, Leads, Shows, Inv, IsRun;
    Here(ws, es, id, s, limit);
    var e := StartSubmit(h, id, s.entry.fingerprint, true, {id}, NoFault);
    Recovers(ws[|es|], id, s, h, limit);
    var u := Recovering(id, s, h);
    vs := Onward(ws, es, id, s, e, u, limit);
    fs := es + [e];
    Here(vs, fs, id, u, limit);
    Counts(vs[|fs|], id, u, h, ProblemSubmits, limit);
    t := Counting(u, h, id, ProblemSubmits);
    vs := Onward(vs, fs, id, u, Continue(h, {id}, NoFault), t, limit);
    fs := fs + [Continue(h, {id}, NoFault)];
  }

  /** The submit gives up, then a query counts. */
  lemma QueryAfterThrow(id: Key, f: Fingerprint, rid: RecordId, first: HandlerId, second: HandlerId, limit: nat)
    returns (ws: seq<World>, es: seq<Event>, s: Scene)
    requires first != second
    ensures Reaches(ws, es, id, s, limit) && |ws| == |es| + 1 && |es| == 9 && ws[5].handlers == map[] && Early(es)
    ensures s.used == {first, second} && s.flights == map[]
    ensures s.handlers == map[second := Handler(id, Status, AwaitInc(Ref(id, 0), ProblemSubmits))]
    ensures s.entry == Reserved(id, f).(rid := Some(rid), statusUpdated := true)
    ensures s.counts == map[Increment(Birth(id, 0), ProblemSubmits) := 1]
  {
    ws, es, s := SubmitAsks(id, f, rid, first, limit);
    hide Reaches, Leads, Shows, Inv, IsRun;
    Here(ws, es, id, s, limit);
    Throws(ws[|es|], id, s, first, limit);
    var t := s.(handlers := s.handlers - {first}, flights := map[]);
    ws := Onward(ws, es, id, s, Threw(first), t, limit);
    es := es + [Threw(first)];
    Here(ws, es, id, t, limit);
    NobodyThere(ws[5], id, t);
    var before := ws;
    ws, es, s := QueryCounts(ws, es, id, t, second, rid, limit);
    Here(ws, es, id, s, limit);
    assert before <= ws;
  }

  function Recovering(id: Key, s: Scene, h: HandlerId): Scene {
    s.(handlers := s.handlers[h := Handler(id, Submit(s.entry.fingerprint), Complete(Ref(id, 0), true))],
       used := s.used + {h}, flights := s.flights[id := Flight(s.entry.fingerprint, h)])
  }

  lemma Recovers(w: World, id: Key, s: Scene, h: HandlerId, limit: nat)
    requires Inv(w) && Ready(w) && Shows(w, id, s) && h !in s.used && id !in s.flights
    requires !s.entry.stamp.complete && s.entry.rid.Some?
    ensures Leads(w, StartSubmit(h, id, s.entry.fingerprint, true, {id}, NoFault), id, Recovering(id, s, h), limit)
  {
    hide BeforeSave, Saves, RefsOk, Ready, Inv, Recover, Leads, Follows, Shows, Guard;
    var e := StartSubmit(h, id, s.entry.fingerprint, true, {id}, NoFault);
    RecoveringIs(w, id, s, h);
    RecoverShows(w, id, s, h);
    StaysAs(e, id, Recovering(id, s, h));
    SavedLeads(w, e, id, Recovering(id, s, h), Recovering(id, s, h), limit);
  }

  lemma RecoveringIs(w: World, id: Key, s: Scene, h: HandlerId)
    requires Ready(w) && Shows(w, id, s) && h !in s.used && id !in s.flights
    requires !s.entry.stamp.complete && s.entry.rid.Some?
    ensures var e := StartSubmit(h, id, s.entry.fingerprint, true, {id}, NoFault);
            && Guard(w, e) && Saves(w, e)
            && BeforeSave(w, e) == Recover(w, h, id, s.entry.fingerprint, Ref(id, 0))
  {
    assert Arrive(w, id, s.entry.fingerprint) == SubmissionProtocol.Recovers(Ref(id, 0));
    hide Shows, Arrive, RefsOk;
  }

  lemma RecoverShows(w: World, id: Key, s: Scene, h: HandlerId)
    requires Shows(w, id, s)
    ensures Shows(Recover(w, h, id, s.entry.fingerprint, Ref(id, 0)), id, Recovering(id, s, h))
  {}

  lemma StaysAs(e: Event, id: Key, s: Scene)
    requires e.StartSubmit? && e.fault.NoFault? && e.h in s.handlers && HasRef(s.handlers[e.h].pc)
    ensures Follows(e, id, s, s)
  {}

  lemma NobodyThere(w: World, id: Key, s: Scene)
    requires Shows(w, id, s) && s.handlers == map[]
    ensures w.handlers == map[]
  {}

  lemma NoSubmitThere(w: World, id: Key, s: Scene, h: HandlerId)
    requires Shows(w, id, s) && s.handlers.Keys == {h} && s.handlers[h].kind.Status?
    ensures forall g :: g in w.handlers ==> w.handlers[g].kind.Status?
  {}

  lemma Counted(w: World, id: Key, s: Scene)
    requires Shows(w, id, s) && Count(s.counts, Increment(Birth(id, 0), ProblemSubmits)) == 2
    ensures CountedTwice(w, id)
  {
    hide Count;
  }

  /** Only the first event is the arrival of a submit. */
  lemma OneSubmit(ws: seq<World>, es: seq<Event>, limit: nat)
    requires IsRun(ws, es, limit) && forall i :: 0 < i < |es| ==> !es[i].StartSubmit?
    ensures SubmitsApartRun(ws, es, limit) && forall i :: 0 <= i < |es| ==> SubmitsAlone(ws[i], es[i])
  {
    hide Enabled, Apply;
  }

  /** A submit arrives first and a query sixth. */
  ghost predicate Early(es: seq<Event>) {
    |es| == 9 && forall i :: 0 <= i < |es| ==> (es[i].StartSubmit? ==> i == 0) && (es[i].StartStatus? ==> i == 5)
  }

  ghost predicate Alone(w: World, e: Event) {
    SubmitsApart(w, e) && QueriesAlone(w, e)
  }

  /** Then a submit arrives beside the query. */
  lemma TwoSubmits(ws: seq<World>, es: seq<Event>, limit: nat, vs: seq<World>, fs: seq<Event>)
    requires IsRun(ws, es, limit) && Early(fs) && |es| == 11 && es[..9] == fs && es[9].StartSubmit? && es[10].Continue?
    requires |ws| == 12 && |vs| == 10 && vs <= ws && vs[5].handlers == map[] && ws[0] == INITIAL
    requires forall g :: g in vs[9].handlers ==> vs[9].handlers[g].kind.Status?
    ensures SubmitsApartRun(ws, es, limit) && forall i :: 0 <= i < |es| ==> QueriesAlone(ws[i], es[i])
  {
    hide Enabled, Apply, IsRun;
    forall i | 0 <= i < |es| ensures Alone(ws[i], es[i]) {
      assert i < 9 ==> es[i] == fs[i];
      assert ws[5] == vs[5] && ws[9] == vs[9];
    }
    AloneRun(ws, es, limit);
  }

  lemma AloneRun(ws: seq<World>, es: seq<Event>, limit: nat)
    requires IsRun(ws, es, limit) && |ws| == |es| + 1 && forall i :: 0 <= i < |es| ==> Alone(ws[i], es[i])
    ensures SubmitsApartRun(ws, es, limit) && forall i :: 0 <= i < |es| ==> QueriesAlone(ws[i], es[i])
  {
    hide IsRun, SubmitsApart, QueriesAlone;
  }
}
