/** One add more per eviction is reached: an id completed and evicted is reserved and added again. */
module SubmissionEviction {
  import opened Basics
  import opened JournalStore
  import opened SubmissionProtocol
  import opened SubmissionSafety
  import opened SubmissionLimits

  // ----- the first submit completes -----

  lemma IncReturns(w: World, id: Key, s: Scene, h: HandlerId, counter: Counter, limit: nat)
    requires Inv(w) && Ready(w) && Shows(w, id, s) && !s.entry.stamp.complete
    requires h in s.handlers && s.handlers[h].pc == AwaitInc(Ref(id, 0), counter)
    ensures Leads(w, IncReturned(h, {id}, NoFault), id,
                  At(s.(entry := s.entry.(counted := s.entry.counted + {counter})), h, Complete(Ref(id, 0), false)),
                  limit)
  {
    hide Guard, BeforeSave, Saves, RefsOk, Ready, Inv, CountInc, Leads, AfterSave, Shows, Follows;
    var e, t := IncReturned(h, {id}, NoFault), s.(entry := s.entry.(counted := s.entry.counted + {counter}));
    IncIs(w, id, s, h, counter);
    CountShows(w, id, s, counter);
    GoesOn(e, id, t);
    SavedLeads(w, e, id, t, At(t, h, Complete(Ref(id, 0), false)), limit);
  }

  lemma IncIs(w: World, id: Key, s: Scene, h: HandlerId, counter: Counter)
    requires Ready(w) && Shows(w, id, s) && h in s.handlers && s.handlers[h].pc == AwaitInc(Ref(id, 0), counter)
    ensures var e := IncReturned(h, {id}, NoFault);
            && Ref(id, 0) in w.heap && Guard(w, e) && Saves(w, e)
            && BeforeSave(w, e) == CountInc(w, Ref(id, 0), counter)
  {
    hide RefsOk, CountInc;
  }

  lemma CountShows(w: World, id: Key, s: Scene, counter: Counter)
    requires Shows(w, id, s) && Ref(id, 0) in w.heap
    ensures Shows(CountInc(w, Ref(id, 0), counter), id, s.(entry := s.entry.(counted := s.entry.counted + {counter})))
  {}

  /** A submit from its updateStatus on, up to where only completion is left. */
  lemma CountsAll(ws: seq<World>, es: seq<Event>, id: Key, s: Scene, h: HandlerId, limit: nat)
    returns (vs: seq<World>, fs: seq<Event>, t: Scene)
    requires Reaches(ws, es, id, s, limit) && |ws| == |es| + 1
    requires h in s.handlers && s.handlers[h].pc == AwaitStatus(Ref(id, 0))
    requires s.entry.counted == {} && !s.entry.stamp.complete
    ensures Reaches(vs, fs, id, t, limit) && |vs| == |fs| + 1
    ensures t.handlers == s.handlers[h := s.handlers[h].(pc := Complete(Ref(id, 0), false))]
    ensures t.entry == s.entry.(statusUpdated := true, counted := {ProblemSubmits, UserSubmits})
    ensures t.used == s.used && t.flights == s.flights && t.adds == s.adds
  {
    hide Reaches, Leads, Shows, Inv, IsRun, Count;
    Here(ws, es, id, s, limit);
    t := At(s.(entry := s.entry.(statusUpdated := true)), h, Complete(Ref(id, 0), false));
    StatusReturns(ws[|es|], id, s, h, limit);
    vs := Onward(ws, es, id, s, StatusReturned(h, {id}, NoFault), t, limit);
    fs := es + [StatusReturned(h, {id}, NoFault)];
    vs, fs, t := CountsOne(vs, fs, id, t, h, ProblemSubmits, limit);
    vs, fs, t := CountsOne(vs, fs, id, t, h, UserSubmits, limit);
    assert {} + {ProblemSubmits} + {UserSubmits} == {ProblemSubmits, UserSubmits};
  }

  lemma CountsOne(ws: seq<World>, es: seq<Event>, id: Key, s: Scene, h: HandlerId, counter: Counter, limit: nat)
    returns (vs: seq<World>, fs: seq<Event>, t: Scene)
    requires Reaches(ws, es, id, s, limit)
    requires h in s.handlers && s.handlers[h].pc == Complete(Ref(id, 0), false)
    requires NextEffect(s.entry, false) == Inc(counter) && !s.entry.stamp.complete
    ensures Reaches(vs, fs, id, t, limit) && |vs| == |fs| + 1
    ensures t.handlers == s.handlers && t.entry == s.entry.(counted := s.entry.counted + {counter})
    ensures t.used == s.used && t.flights == s.flights && t.adds == s.adds
  {
    hide Reaches, Leads, Shows, Inv, IsRun, Count;
    Here(ws, es, id, s, limit);
    Counts(ws[|es|], id, s, h, counter, limit);
    var u := Counting(s, h, id, counter);
    vs := Onward(ws, es, id, s, Continue(h, {id}, NoFault), u, limit);
    fs := es + [Continue(h, {id}, NoFault)];
    Here(vs, fs, id, u, limit);
    IncReturns(vs[|fs|], id, u, h, counter, limit);
    t := At(u.(entry := u.entry.(counted := u.entry.counted + {counter})), h, Complete(Ref(id, 0), false));
    vs := Onward(vs, fs, id, u, IncReturned(h, {id}, NoFault), t, limit);
    fs := fs + [IncReturned(h, {id}, NoFault)];
    Here(vs, fs, id, t, limit);
  }

  // ----- the journal fills up -----

  /** The ids resident when `n` others are reserved: the completed one goes with the last of them. */
  ghost function Kept(id: Key, others: seq<Key>, n: nat): set<Key>
    requires n <= |others|
  {
    Elements(others[..n]) + if n < |others| then {id} else {}
  }

  /** The entries: `id` complete unless evicted, and the first `n` others incomplete. */
  ghost predicate Entries(w: World, id: Key, others: seq<Key>, n: nat)
    requires n <= |others|
  {
    && RefsOk(w) && w.memory.Keys == Kept(id, others, n)
    && (forall k :: k in w.memory ==> (w.heap[w.memory[k]].stamp.complete <==> k == id))
    && (id in w.memory ==> w.heap[w.memory[id]].birth == Birth(id, 0))
    && w.evicted == if n < |others| then {} else {Birth(id, 0)}
  }

  /** The rest: each of the first `n` others in flight, and one add for `id`. */
  ghost predicate Around(w: World, id: Key, others: seq<Key>, n: nat, used: set<HandlerId>)
    requires n <= |others|
  {
    && w.inFlight.Keys == Elements(others[..n]) && w.used == used && w.next == n + 1 && w.restarts == 0
    && AddsOf(w, id) == {Birth(id, 0)}
  }

  /** `id` was completed, then the first `n` others reserved. */
  ghost predicate Filled(w: World, id: Key, others: seq<Key>, n: nat, used: set<HandlerId>)
    requires n <= |others|
  {
    Entries(w, id, others, n) && Around(w, id, others, n, used)
  }

  /** With one entry more than the limit the completed one has to go; before that nothing has. */
  lemma PrunesOne(stamps: map<Key, Stamp>, id: Key, others: seq<Key>, n: nat)
    requires Distinct(others) && id !in others && n <= |others|
    requires stamps.Keys == Elements(others[..n]) + {id}
    requires forall k :: k in stamps ==> (stamps[k].complete <==> k == id)
    ensures Pruned(stamps, Kept(id, others, n), |others|)
  {
    ElementsCount(others[..n]);
    assert id !in Elements(others[..n]);
    assert CompletedKeys(stamps) == {id};
  }

  /** Completion is saved, and a journal without room for one entry evicts it at once. */
  lemma Finishes(w: World, id: Key, s: Scene, h: HandlerId, others: seq<Key>)
    requires Inv(w) && Ready(w) && Shows(w, id, s) && Distinct(others) && id !in others
    requires s.handlers == map[h := Handler(id, Submit(s.entry.fingerprint), Complete(Ref(id, 0), false))]
    requires s.entry.birth == Birth(id, 0) && NextEffect(s.entry, false).Finish? && s.adds == [Birth(id, 0)]
    requires s.flights == map[id := Flight(s.entry.fingerprint, h)] && s.used == {h}
    ensures var e := Continue(h, Kept(id, others, 0), NoFault);
            Enabled(w, e, |others|) && Filled(Apply(w, e, |others|), id, others, 0, {h})
  {
    hide Shows, BeforeSave, Inv, Ready, Guard, Saves, Filled, Enabled, Apply, Pruned, StampsOf, RefsOk, Save, End, Put;
    var e := Continue(h, Kept(id, others, 0), NoFault);
    var t := s.(entry := s.entry.(stamp := s.entry.stamp.(complete := true)));
    FinishIs(w, id, s, h, e.kept);
    BeforeKeeps(w, e);
    var u := BeforeSave(w, e);
    Unfold(u);
    PutShows(w, id, s, t.entry);
    FinishPrunes(u, id, t, others);
    FinishApplies(w, e, |others|);
    FinishedFills(u, id, t, h, others);
  }

  lemma FinishIs(w: World, id: Key, s: Scene, h: HandlerId, kept: set<Key>)
    requires Ready(w) && Shows(w, id, s) && h in s.handlers && s.handlers[h].pc == Complete(Ref(id, 0), false)
    requires NextEffect(s.entry, false).Finish?
    ensures var e := Continue(h, kept, NoFault);
            && Guard(w, e) && Saves(w, e)
            && BeforeSave(w, e) == Put(w, Ref(id, 0), s.entry.(stamp := s.entry.stamp.(complete := true)))
            && h in BeforeSave(w, e).handlers && HasRef(BeforeSave(w, e).handlers[h].pc)
  {
    hide RefsOk;
  }

  lemma FinishPrunes(u: World, id: Key, s: Scene, others: seq<Key>)
    requires RefsOk(u) && Shows(u, id, s) && s.entry.stamp.complete && Distinct(others) && id !in others
    ensures Pruned(StampsOf(u), Kept(id, others, 0), |others|)
  {
    StampsAt(u, id, s);
    hide Shows, RefsOk, StampsOf, Pruned;
    assert others[..0] == [] && Elements(others[..0]) == {};
    PrunesOne(StampsOf(u), id, others, 0);
  }

  lemma StampsAt(u: World, id: Key, s: Scene)
    requires RefsOk(u) && Shows(u, id, s)
    ensures StampsOf(u) == map[id := s.entry.stamp]
  {}

  lemma FinishApplies(w: World, e: Event, limit: nat)
    requires Ready(w) && Guard(w, e) && Saves(w, e) && e.Continue? && RefsOk(BeforeSave(w, e))
    requires Pruned(StampsOf(BeforeSave(w, e)), e.kept, limit)
    requires e.h in BeforeSave(w, e).handlers && HasRef(BeforeSave(w, e).handlers[e.h].pc)
    ensures Enabled(w, e, limit) && Apply(w, e, limit) == End(Save(BeforeSave(w, e), e.kept, e.fault), e.h)
  {
    SavedHandlers(BeforeSave(w, e), e.kept, e.fault);
    hide BeforeSave, Ready, Guard, Saves, Pruned, StampsOf, RefsOk, Save, End;
  }

  lemma SavedHandlers(u: World, kept: set<Key>, fault: Fault)
    requires RefsOk(u)
    ensures Save(u, kept, fault).handlers == u.handlers
  {}

  lemma FinishedFills(u: World, id: Key, s: Scene, h: HandlerId, others: seq<Key>)
    requires RefsOk(u) && Shows(u, id, s) && s.entry.stamp.complete && s.entry.birth == Birth(id, 0)
    requires s.flights == map[id := Flight(s.entry.fingerprint, h)] && s.used == {h} && s.adds == [Birth(id, 0)]
    requires id !in others
    ensures Filled(End(Save(u, Kept(id, others, 0), NoFault), h), id, others, 0, {h})
  {
    assert others[..0] == [] && Elements(others[..0]) == {};
    ShowsOne(u, id, s);
    FlightsEnd(u, id, s, h);
    hide Shows, End, Save, AddsOf, Around, Entries;
    SaveFills(u, id, others, 0);
    SavedAround(u, id, others, h);
    EndFills(Save(u, Kept(id, others, 0), NoFault), h, id, others);
  }

  lemma ShowsOne(u: World, id: Key, s: Scene)
    requires RefsOk(u) && Shows(u, id, s) && s.entry.birth == Birth(id, 0) && s.adds == [Birth(id, 0)]
    ensures u.memory.Keys == {id} && u.heap[u.memory[id]] == s.entry && u.evicted == {} && u.restarts == 0
    ensures AddsOf(u, id) == {Birth(id, 0)} && u.used == s.used && u.next == 1
  {}

  lemma FlightsEnd(u: World, id: Key, s: Scene, h: HandlerId)
    requires Shows(u, id, s) && s.flights == map[id := Flight(s.entry.fingerprint, h)]
    ensures forall k :: k in u.inFlight ==> u.inFlight[k].handler == h
  {}

  lemma SaveFills(u: World, id: Key, others: seq<Key>, n: nat)
    requires RefsOk(u) && n <= |others| && id !in others && u.evicted == {}
    requires u.memory.Keys == Elements(others[..n]) + {id} && u.heap[u.memory[id]].birth == Birth(id, 0)
    requires forall k :: k in u.memory ==> (u.heap[u.memory[k]].stamp.complete <==> k == id)
    ensures Entries(Save(u, Kept(id, others, n), NoFault), id, others, n)
  {
    KeptIs(id, others, n);
    hide Kept, Save, Elements;
    SaveKept(u, Kept(id, others, n));
    BirthsOne(u, id);
  }

  lemma KeptIs(id: Key, others: seq<Key>, n: nat)
    requires n <= |others| && id !in others
    ensures var all, kept := Elements(others[..n]) + {id}, Kept(id, others, n);
            kept <= all && all - kept == (if n < |others| then {} else {id}) && (id in kept <==> n < |others|)
  {}

  lemma SaveKept(u: World, kept: set<Key>)
    requires RefsOk(u) && kept <= u.memory.Keys
    ensures var v := Save(u, kept, NoFault);
            && v.memory.Keys == kept && v.heap == u.heap && (forall k :: k in kept ==> v.memory[k] == u.memory[k])
            && RefsOk(v) && v.evicted == u.evicted + Births(u, u.memory.Keys - kept)
  {
    hide Births;
  }

  lemma BirthsOne(u: World, id: Key)
    requires RefsOk(u) && id in u.memory
    ensures Births(u, {}) == {} && Births(u, {id}) == {u.heap[u.memory[id]].birth}
  {}

  lemma SavedAround(u: World, id: Key, others: seq<Key>, h: HandlerId)
    requires RefsOk(u) && (forall k :: k in u.inFlight ==> u.inFlight[k].handler == h)
    requires u.used == {h} && u.next == 1 && u.restarts == 0 && AddsOf(u, id) == {Birth(id, 0)}
    ensures Around(End(Save(u, Kept(id, others, 0), NoFault), h), id, others, 0, {h})
  {
    assert others[..0] == [] && Elements(others[..0]) == {};
    hide Kept;
    assert AddsOf(End(Save(u, Kept(id, others, 0), NoFault), h), id) == AddsOf(u, id);
  }

  lemma EndFills(v: World, h: HandlerId, id: Key, others: seq<Key>)
    requires Entries(v, id, others, 0)
    ensures Entries(End(v, h), id, others, 0)
  {
    hide Kept;
  }

  // ----- a new id is reserved -----

  /** The world in which a new id is reserved and not yet saved. */
  function Asking(w: World, k: Key, f: Fingerprint, h: HandlerId): World {
    Reserve(Enter(w, h, Handler(k, Submit(f), Eligibility)), h, 0)
  }

  lemma AskingIs(w: World, k: Key, f: Fingerprint, h: HandlerId)
    requires RefsOk(w)
    ensures var u, ref := Asking(w, k, f, h), Ref(k, w.next);
            && RefsOk(u) && u.memory == w.memory[k := ref]
            && u.heap == w.heap[ref := Entry(Birth(k, w.next), f, None, false, {}, Stamp(false, 0))]
  {}

  lemma AskingAround(w: World, k: Key, f: Fingerprint, h: HandlerId)
    ensures var u := Asking(w, k, f, h);
            && u.inFlight.Keys == w.inFlight.Keys + {k} && u.used == w.used + {h} && u.next == w.next + 1
            && u.restarts == w.restarts && u.adds == w.adds && u.evicted == w.evicted
            && h in u.handlers && u.handlers[h].pc == AwaitAdd(Ref(k, w.next))
  {}

  lemma NewStarts(w: World, k: Key, f: Fingerprint, h: HandlerId, limit: nat)
    requires Ready(w) && RefsOk(w) && h !in w.used && k !in w.memory && k !in w.inFlight
    ensures var e := StartSubmit(h, k, f, true, {}, NoFault);
            Enabled(w, e, limit) && Apply(w, e, limit) == Enter(w, h, Handler(k, Submit(f), Eligibility))
  {
    hide RefsOk, Pruned, StampsOf;
  }

  lemma NewReserves(w: World, k: Key, f: Fingerprint, h: HandlerId, kept: set<Key>, limit: nat)
    requires var v := Enter(w, h, Handler(k, Submit(f), Eligibility)); Ready(v) && RefsOk(v)
    requires k !in w.memory && k !in w.inFlight && RefsOk(Asking(w, k, f, h))
    requires Pruned(StampsOf(Asking(w, k, f, h)), kept, limit)
    ensures var v, e := Enter(w, h, Handler(k, Submit(f), Eligibility)), Eligible(h, true, true, 0, kept, NoFault);
            && Enabled(v, e, limit)
            && Apply(v, e, limit) == Added(Save(Asking(w, k, f, h), kept, NoFault), Birth(k, w.next))
  {
    var v, e := Enter(w, h, Handler(k, Submit(f), Eligibility)), Eligible(h, true, true, 0, kept, NoFault);
    AskingSaves(w, k, f, h, kept);
    AskingAround(w, k, f, h);
    hide Asking, RefsOk, Pruned, StampsOf, Guard, Saves, BeforeSave, Ready, Enter;
    SavedHandlers(Asking(w, k, f, h), kept, NoFault);
    hide Save;
  }

  lemma AskingSaves(w: World, k: Key, f: Fingerprint, h: HandlerId, kept: set<Key>)
    requires var v := Enter(w, h, Handler(k, Submit(f), Eligibility)); Ready(v) && RefsOk(v)
    requires k !in w.memory && k !in w.inFlight
    ensures var v, e := Enter(w, h, Handler(k, Submit(f), Eligibility)), Eligible(h, true, true, 0, kept, NoFault);
            Guard(v, e) && Saves(v, e) && BeforeSave(v, e) == Asking(w, k, f, h)
  {
    assert Recheck(Enter(w, h, Handler(k, Submit(f), Eligibility)), k, f, true).Reserves?;
    hide Recheck, RefsOk, Reserve;
  }

  lemma AddedFrame(w: World, b: Birth, id: Key, others: seq<Key>, n: nat)
    requires n <= |others| && Entries(w, id, others, n)
    ensures Entries(Added(w, b), id, others, n)
  {
    hide Kept;
  }

  lemma AskingFills(w: World, id: Key, others: seq<Key>, n: nat, f: Fingerprint, h: HandlerId)
    requires n < |others| && Distinct(others) && id !in others && Entries(w, id, others, n)
    ensures var u := Asking(w, others[n], f, h);
            && RefsOk(u) && u.memory.Keys == Elements(others[..n + 1]) + {id}
            && u.heap[u.memory[id]].birth == Birth(id, 0)
            && (forall k :: k in u.memory ==> (u.heap[u.memory[k]].stamp.complete <==> k == id))
  {
    AskingIs(w, others[n], f, h);
    hide Asking;
    assert others[..n + 1] == others[..n] + [others[n]];
    assert Elements(others[..n + 1]) == Elements(others[..n]) + {others[n]};
    assert others[n] !in others[..n] && others[n] != id;
  }

  lemma StampsKeys(u: World, id: Key)
    requires RefsOk(u) && forall k :: k in u.memory ==> (u.heap[u.memory[k]].stamp.complete <==> k == id)
    ensures StampsOf(u).Keys == u.memory.Keys
    ensures forall k :: k in StampsOf(u) ==> (StampsOf(u)[k].complete <==> k == id)
  {}

  /** One more of the others is reserved. */
  lemma Fills(w: World, id: Key, others: seq<Key>, n: nat, used: set<HandlerId>, f: Fingerprint, h: HandlerId)
    requires n < |others| && Distinct(others) && id !in others && Filled(w, id, others, n, used)
    ensures RefsOk(Asking(w, others[n], f, h))
    ensures var u := Asking(w, others[n], f, h);
            && Pruned(StampsOf(u), Kept(id, others, n + 1), |others|)
            && Filled(Added(Save(u, Kept(id, others, n + 1), NoFault), Birth(others[n], w.next)),
                      id, others, n + 1, used + {h})
  {
    AskingFills(w, id, others, n, f, h);
    var u := Asking(w, others[n], f, h);
    StampsKeys(u, id);
    PrunesOne(StampsOf(u), id, others, n + 1);
    AskingAround(w, others[n], f, h);
    AroundGrows(w, u, id, others, n, used, h);
    hide Asking, Pruned, StampsOf, Kept, Around, RefsOk, Save, Added;
    SaveFills(u, id, others, n + 1);
    AddedFrame(Save(u, Kept(id, others, n + 1), NoFault), Birth(others[n], w.next), id, others, n + 1);
  }

  lemma AroundGrows(w: World, u: World, id: Key, others: seq<Key>, n: nat, used: set<HandlerId>, h: HandlerId)
    requires n < |others| && id !in others && Around(w, id, others, n, used) && RefsOk(u)
    requires u.inFlight.Keys == w.inFlight.Keys + {others[n]} && u.used == w.used + {h} && u.next == w.next + 1
    requires u.restarts == w.restarts && u.adds == w.adds
    ensures Around(Added(Save(u, Kept(id, others, n + 1), NoFault), Birth(others[n], w.next)),
                   id, others, n + 1, used + {h})
  {
    var v := Added(Save(u, Kept(id, others, n + 1), NoFault), Birth(others[n], w.next));
    assert others[..n + 1] == others[..n] + [others[n]];
    assert Elements(others[..n + 1]) == Elements(others[..n]) + {others[n]};
    hide Kept, Elements;
    assert AddsOf(v, id) == AddsOf(w, id);
  }

  // ----- the run -----

  /** An id without entry is asked for by a new handler, and `kept` is a legal pruning of what results. */
  ghost predicate CanAsk(w: World, k: Key, f: Fingerprint, h: HandlerId, kept: set<Key>, limit: nat) {
    && h !in w.used && k !in w.memory && k !in w.inFlight && RefsOk(Asking(w, k, f, h))
    && Pruned(StampsOf(Asking(w, k, f, h)), kept, limit)
  }

  /** Two more events of a run: an id without entry is submitted, reserved and added. */
  lemma SubmitNew(ws: seq<World>, es: seq<Event>, k: Key, f: Fingerprint, h: HandlerId, kept: set<Key>, limit: nat)
    returns (vs: seq<World>, fs: seq<Event>)
    requires IsRun(ws, es, limit) && |ws| == |es| + 1
    requires CanAsk(ws[|es|], k, f, h, kept, limit)
    ensures IsRun(vs, fs, limit) && |vs| == |fs| + 1
    ensures vs[|fs|] == Added(Save(Asking(ws[|es|], k, f, h), kept, NoFault), Birth(k, ws[|es|].next))
  {
    var w := ws[|es|];
    hide *;
    CanEnter(w, k, f, h, kept, limit);
    vs := EnterNew(ws, es, k, f, h, limit);
    fs := es + [StartSubmit(h, k, f, true, {}, NoFault)];
    RunKeeps(vs, fs, limit, |fs|);
    Unfold(vs[|fs|]);
    NewReserves(w, k, f, h, kept, limit);
    var e := Eligible(h, true, true, 0, kept, NoFault);
    vs := Extend(vs, fs, e, limit);
    fs := fs + [e];
  }

  lemma CanEnter(w: World, k: Key, f: Fingerprint, h: HandlerId, kept: set<Key>, limit: nat)
    requires CanAsk(w, k, f, h, kept, limit)
    ensures h !in w.used && k !in w.memory && k !in w.inFlight && RefsOk(Asking(w, k, f, h))
    ensures Pruned(StampsOf(Asking(w, k, f, h)), kept, limit)
  {}

  lemma EnterNew(ws: seq<World>, es: seq<Event>, k: Key, f: Fingerprint, h: HandlerId, limit: nat)
    returns (vs: seq<World>)
    requires IsRun(ws, es, limit) && |ws| == |es| + 1
    requires h !in ws[|es|].used && k !in ws[|es|].memory && k !in ws[|es|].inFlight
    ensures IsRun(vs, es + [StartSubmit(h, k, f, true, {}, NoFault)], limit) && |vs| == |es| + 2
    ensures vs[|es| + 1] == Enter(ws[|es|], h, Handler(k, Submit(f), Eligibility))
  {
    hide *;
    RunKeeps(ws, es, limit, |es|);
    Unfold(ws[|es|]);
    NewStarts(ws[|es|], k, f, h, limit);
    vs := Extend(ws, es, StartSubmit(h, k, f, true, {}, NoFault), limit);
  }

  /** A run up to some point, with the world it has reached. */
  ghost predicate Fully(ws: seq<World>, es: seq<Event>, id: Key, others: seq<Key>, n: nat, used: set<HandlerId>)
    requires n <= |others|
  {
    IsRun(ws, es, |others|) && |ws| == |es| + 1 && Filled(ws[|es|], id, others, n, used)
  }

  lemma Completes(id: Key, f: Fingerprint, rid: RecordId, first: HandlerId, others: seq<Key>)
    returns (ws: seq<World>, es: seq<Event>)
    requires Distinct(others) && id !in others
    ensures Fully(ws, es, id, others, 0, {first})
  {
    hide *;
    var t;
    ws, es, t := CountsUp(id, f, rid, first, |others|);
    Here(ws, es, id, t, |others|);
    Finishes(ws[|es|], id, t, first, others);
    AtEnd(ws, es, id, t, |others|);
    var e := Continue(first, Kept(id, others, 0), NoFault);
    ws := Extend(ws, es, e, |others|);
    es := es + [e];
    IsFully(ws, es, id, others, 0, {first});
  }

  lemma IsFully(ws: seq<World>, es: seq<Event>, id: Key, others: seq<Key>, n: nat, used: set<HandlerId>)
    requires n <= |others|
    requires IsRun(ws, es, |others|) && |ws| == |es| + 1 && Filled(ws[|es|], id, others, n, used)
    ensures Fully(ws, es, id, others, n, used)
  {}

  lemma CountsUp(id: Key, f: Fingerprint, rid: RecordId, first: HandlerId, limit: nat)
    returns (ws: seq<World>, es: seq<Event>, s: Scene)
    ensures Reaches(ws, es, id, s, limit) && |ws| == |es| + 1
    ensures s.handlers == map[first := Handler(id, Submit(s.entry.fingerprint), Complete(Ref(id, 0), false))]
    ensures s.entry.birth == Birth(id, 0) && NextEffect(s.entry, false).Finish? && s.adds == [Birth(id, 0)]
    ensures s.flights == map[id := Flight(s.entry.fingerprint, first)] && s.used == {first}
  {
    ws, es, s := SubmitAsks(id, f, rid, first, limit);
    hide Reaches, Shows, Inv, IsRun, Enabled, Apply;
    Here(ws, es, id, s, limit);
    ws, es, s := CountsAll(ws, es, id, s, first, limit);
  }

  /** The others are submitted one after the other. */
  lemma {:induction false} FillsUp(ws: seq<World>, es: seq<Event>, id: Key, others: seq<Key>, n: nat,
                                   used: set<HandlerId>, f: Fingerprint, hs: seq<HandlerId>)
    returns (vs: seq<World>, fs: seq<Event>)
    requires n <= |others| && Fully(ws, es, id, others, n, used) && Distinct(others) && id !in others
    requires |hs| == |others| - n && Distinct(hs) && forall h :: h in hs ==> h !in used
    ensures Fully(vs, fs, id, others, |others|, used + set h | h in hs)
    decreases |hs|
  {
    hide IsRun, Filled, Pruned, StampsOf, RefsOk, Asking, Kept, Save;
    if hs == [] {
      vs, fs := ws, es;
      assert used + (set h | h in hs) == used;
    } else {
      var w := ws[|es|];
      NewId(w, id, others, n, used);
      Fills(w, id, others, n, used, f, hs[0]);
      vs, fs := SubmitNew(ws, es, others[n], f, hs[0], Kept(id, others, n + 1), |others|);
      assert Distinct(hs[1..]) && forall h :: h in hs[1..] ==> h !in used + {hs[0]};
      vs, fs := FillsUp(vs, fs, id, others, n + 1, used + {hs[0]}, f, hs[1..]);
      assert used + {hs[0]} + (set h | h in hs[1..]) == used + set h | h in hs;
    }
  }

  lemma NewId(w: World, id: Key, others: seq<Key>, n: nat, used: set<HandlerId>)
    requires n < |others| && Distinct(others) && id !in others && Filled(w, id, others, n, used)
    ensures others[n] !in w.memory && others[n] !in w.inFlight && w.used == used
  {
    assert others[n] !in others[..n];
  }

  lemma EvictedId(w: World, id: Key, others: seq<Key>, used: set<HandlerId>)
    requires id !in others && Filled(w, id, others, |others|, used)
    ensures id !in w.memory && id !in w.inFlight && w.used == used && w.next == |others| + 1
  {}

  /** Nothing can go any more: all are incomplete. */
  lemma Again(w: World, id: Key, others: seq<Key>, used: set<HandlerId>, f: Fingerprint, h: HandlerId)
    requires id !in others && Filled(w, id, others, |others|, used)
    ensures RefsOk(Asking(w, id, f, h))
    ensures var u := Asking(w, id, f, h);
            && Pruned(StampsOf(u), u.memory.Keys, |others|)
            && AddedTwice(Added(Save(u, u.memory.Keys, NoFault), Birth(id, w.next)), id, |others| + 1)
  {
    hide *;
    AskingAgain(w, id, others, used, f, h);
    var u := Asking(w, id, f, h);
    AllStay(u, |others|);
    SaveKept(u, u.memory.Keys);
    assert u.memory.Keys - u.memory.Keys == {};
    BirthsOne(u, id);
    SavedTwice(w, u, id, |others| + 1);
  }

  lemma AskingAgain(w: World, id: Key, others: seq<Key>, used: set<HandlerId>, f: Fingerprint, h: HandlerId)
    requires id !in others && Filled(w, id, others, |others|, used)
    ensures var u := Asking(w, id, f, h);
            && RefsOk(u) && id in u.memory && u.restarts == 0 && u.adds == w.adds && u.evicted == {Birth(id, 0)}
            && (forall k :: k in u.memory ==> !u.heap[u.memory[k]].stamp.complete)
    ensures AddsOf(w, id) == {Birth(id, 0)} && w.next == |others| + 1
  {
    AskingIs(w, id, f, h);
    AskingAround(w, id, f, h);
    hide Asking, AddsOf;
  }

  lemma AllStay(u: World, limit: nat)
    requires RefsOk(u) && forall k :: k in u.memory ==> !u.heap[u.memory[k]].stamp.complete
    ensures Pruned(StampsOf(u), u.memory.Keys, limit)
  {
    assert StampsOf(u).Keys == u.memory.Keys;
    assert CompletedKeys(StampsOf(u)) == {};
  }

  /** The id was added by two reservations; the first of them is all that was evicted. */
  ghost predicate AddedTwice(w: World, id: Key, n: nat) {
    && w.restarts == 0 && id in w.memory && w.evicted == {Birth(id, 0)}
    && AddsOf(w, id) == {Birth(id, 0), Birth(id, n)}
  }

  lemma SavedTwice(w: World, u: World, id: Key, n: nat)
    requires RefsOk(u) && id in u.memory && u.restarts == 0 && u.adds == w.adds && AddsOf(w, id) == {Birth(id, 0)}
    requires Save(u, u.memory.Keys, NoFault).evicted == {Birth(id, 0)}
    ensures AddedTwice(Added(Save(u, u.memory.Keys, NoFault), Birth(id, n)), id, n)
  {
    var v := Added(Save(u, u.memory.Keys, NoFault), Birth(id, n));
    forall b ensures b in AddsOf(v, id) <==> b in {Birth(id, 0), Birth(id, n)} {
      assert b in AddsOf(v, id) <==> b in AddsOf(w, id) || b == Birth(id, n);
    }
  }

  /** The bound of one add more than evictions is reached: whatever the limit, once as many other ids
      were submitted, a completed id is evicted, and submitting it again - even under another
      payload - adds it again. */
  lemma EvictedIsAddedAgain(id: Key, f: Fingerprint, g: Fingerprint, rid: RecordId, first: HandlerId,
                            second: HandlerId, others: seq<Key>, hs: seq<HandlerId>)
    returns (ws: seq<World>, es: seq<Event>)
    requires Distinct(others) && id !in others && Distinct(hs) && |hs| == |others|
    requires first != second && first !in hs && second !in hs
    ensures IsRun(ws, es, |others|) && |ws| == |es| + 1 && AddedTwice(ws[|es|], id, |others| + 1)
  {
    hide IsRun, Filled, Pruned, StampsOf, RefsOk, Asking, Kept, Save, AddedTwice;
    ws, es := Completes(id, f, rid, first, others);
    ws, es := FillsUp(ws, es, id, others, 0, {first}, f, hs);
    var w := ws[|es|];
    var used := {first} + set h | h in hs;
    EvictedId(w, id, others, used);
    Again(w, id, others, used, g, second);
    ws, es := SubmitNew(ws, es, id, g, second, Asking(w, id, g, second).memory.Keys, |others|);
  }
}
