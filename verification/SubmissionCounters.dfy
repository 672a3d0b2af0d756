/** How often the judge's counters move, when no submit of an id overlaps a status query of it. */
module SubmissionCounters {
  import opened Basics
  import opened JournalStore
  import opened SubmissionProtocol
  import opened SubmissionSafety
  import opened SubmissionOwners

  /** No submit starts while a status query of its id is under way; submits may overlap. */
  ghost predicate SubmitsAlone(w: World, e: Event) {
    e.StartSubmit? ==> forall g :: g in w.handlers && w.handlers[g].id == e.id ==> w.handlers[g].kind.Submit?
  }

  /** No status query starts while a submit of its id is under way; status queries may overlap. */
  ghost predicate QueriesAlone(w: World, e: Event) {
    e.StartStatus? ==> forall g :: g in w.handlers && w.handlers[g].id == e.id ==> w.handlers[g].kind.Status?
  }

  ghost predicate Apart(w: World, e: Event) {
    SubmitsAlone(w, e) && QueriesAlone(w, e)
  }

  /** The requests of one id that are under way are all submits or all status queries. */
  ghost predicate AloneOk(w: World) {
    forall g, h :: g in w.handlers && h in w.handlers && w.handlers[g].id == w.handlers[h].id ==>
      (w.handlers[g].kind.Submit? <==> w.handlers[h].kind.Submit?)
  }

  /** The increment is counted in a live entry, or its call is still under way. */
  ghost predicate Busy(w: World, k: Increment) {
    || (exists r :: r in w.heap && w.heap[r].birth == k.birth && k.counter in w.heap[r].counted)
    || (exists h :: h in w.handlers && Calling(w, h, k))
  }

  ghost predicate Calling(w: World, h: HandlerId, k: Increment)
    requires h in w.handlers
  {
    var pc := w.handlers[h].pc;
    pc.AwaitInc? && pc.counter == k.counter && pc.ref in w.heap && w.heap[pc.ref].birth == k.birth
  }

  ghost predicate BirthsOk(w: World) {
    && (forall r, q :: r in w.heap && q in w.heap && w.heap[r].birth == w.heap[q].birth ==> r == q)
    && (forall r :: r in w.heap ==> w.heap[r].birth.n < w.next)
    && (forall k :: k in w.calls ==> k.birth.n < w.next)
  }

  /** The restarts there had been when the entry was reserved. */
  function RestartsBefore(born: map<Birth, int>, birth: Birth): int {
    if birth in born then born[birth] else 0
  }

  /** The restarts a reservation has lived through, and the calls for it that threw. */
  function Allowed(w: World, k: Increment): int {
    w.restarts - RestartsBefore(w.born, k.birth) + Count(w.thrown, k)
  }

  ghost predicate CountsOk(w: World) {
    && w.restarts >= 0 && (forall k :: k in w.thrown ==> w.thrown[k] >= 1)
    && (forall b :: b in w.born ==> w.born[b] <= w.restarts)
    && (forall k :: k in w.calls ==> w.calls[k] <= Allowed(w, k) + (if Busy(w, k) then 1 else 0))
  }

  ghost predicate BoundOk(w: World) {
    BirthsOk(w) && CountsOk(w)
  }

  /** Nothing was called, thrown or restarted, and old reservations are as old as they were. */
  ghost predicate SameTally(w: World, u: World) {
    && u.calls == w.calls && u.thrown == w.thrown && u.restarts == w.restarts
    && (forall b :: b in u.born ==> (b in w.born && u.born[b] == w.born[b]) || u.born[b] == w.restarts)
    && (forall b: Birth :: b.n < w.next ==> RestartsBefore(u.born, b) == RestartsBefore(w.born, b))
  }

  /** Updates that neither call nor lose an increment. */
  ghost predicate Keeps(w: World, u: World) {
    && SameTally(w, u) && w.next <= u.next
    && (forall r :: r in w.heap ==>
          r in u.heap && u.heap[r].birth == w.heap[r].birth && w.heap[r].counted <= u.heap[r].counted)
    && (forall r :: r in u.heap && r !in w.heap ==> w.next <= u.heap[r].birth.n < u.next)
    && (forall r, q :: r in u.heap && r !in w.heap && q in u.heap && q !in w.heap ==> r == q)
    && (forall h :: h in w.handlers && w.handlers[h].pc.AwaitInc? && w.handlers[h].pc.ref in w.heap ==>
          || (h in u.handlers && u.handlers[h].pc == w.handlers[h].pc)
          || w.handlers[h].pc.counter in u.heap[w.handlers[h].pc.ref].counted)
  }

  lemma BusyStays(w: World, u: World, k: Increment)
    requires Keeps(w, u) && Busy(w, k)
    ensures Busy(u, k)
  {
    if r :| r in w.heap && w.heap[r].birth == k.birth && k.counter in w.heap[r].counted {
      assert r in u.heap && k.counter in u.heap[r].counted;
    } else {
      var h :| h in w.handlers && Calling(w, h, k);
      var ref := w.handlers[h].pc.ref;
      assert ref in u.heap;
      if h in u.handlers && u.handlers[h].pc == w.handlers[h].pc {
        assert Calling(u, h, k);
      }
    }
  }

  lemma BoundFrame(w: World, u: World)
    requires BoundOk(w) && Keeps(w, u)
    ensures BoundOk(u)
  {
    forall k | k in u.calls
      ensures u.calls[k] <= Allowed(u, k) + (if Busy(u, k) then 1 else 0)
    {
      if Busy(w, k) {
        BusyStays(w, u, k);
      }
    }
  }

  lemma BoundCall(w: World, h: HandlerId, ref: Ref, counter: Counter)
    requires BoundOk(w) && AloneOk(w) && OwnersOk(w) && h in w.handlers && w.handlers[h].pc.Complete?
    requires ref == w.handlers[h].pc.ref && ref in w.heap && ref.id == w.handlers[h].id
    requires counter !in w.heap[ref].counted
    requires forall g :: g in w.handlers ==> HandlerOk(w, g)
    ensures BoundOk(CallInc(w, h, ref, counter))
  {
    var k := Increment(w.heap[ref].birth, counter);
    var u := CallInc(w, h, ref, counter);
    NotBusy(w, h, ref, counter);
    NowBusy(w, h, ref, counter);
    BirthsCall(w, h, ref, counter);
    hide CallInc, HandlerOk, AloneOk, OwnersOk, BirthsOk, Busy;
    forall x | x in u.calls && x != k && Busy(w, x) ensures Busy(u, x) {
      CallKeepsBusy(w, h, ref, counter, x);
    }
    CountsCall(w, u, k);
  }

  lemma NowBusy(w: World, h: HandlerId, ref: Ref, counter: Counter)
    requires h in w.handlers && ref in w.heap
    ensures var u := CallInc(w, h, ref, counter);
            var k := Increment(w.heap[ref].birth, counter);
            && Busy(u, k) && u.restarts == w.restarts && u.born == w.born && u.thrown == w.thrown
            && u.calls == w.calls[k := Count(w.calls, k) + 1]
  {
    assert Calling(CallInc(w, h, ref, counter), h, Increment(w.heap[ref].birth, counter));
  }

  lemma BirthsCall(w: World, h: HandlerId, ref: Ref, counter: Counter)
    requires BirthsOk(w) && h in w.handlers && ref in w.heap
    ensures BirthsOk(CallInc(w, h, ref, counter))
  {}

  /** One call more for `k`, which was not busy and now is. */
  lemma CountsCall(w: World, u: World, k: Increment)
    requires CountsOk(w) && u.restarts == w.restarts && u.born == w.born && u.thrown == w.thrown
    requires u.calls == w.calls[k := Count(w.calls, k) + 1] && !Busy(w, k) && Busy(u, k)
    requires forall x :: x in u.calls && x != k && Busy(w, x) ==> Busy(u, x)
    ensures CountsOk(u)
  {
    hide Busy;
    assert forall x :: Allowed(u, x) == Allowed(w, x);
    assert Allowed(w, k) >= 0;
    hide Allowed;
  }

  /** One throw more for `k`, which need not be busy any longer. */
  lemma CountsThrow(w: World, u: World, k: Increment)
    requires CountsOk(w) && u.restarts == w.restarts && u.born == w.born && u.calls == w.calls
    requires u.thrown == w.thrown[k := Count(w.thrown, k) + 1]
    requires forall x :: x in u.calls && x != k && Busy(w, x) ==> Busy(u, x)
    ensures CountsOk(u)
  {
    hide Busy;
    assert forall x :: Allowed(u, x) == Allowed(w, x) + (if x == k then 1 else 0);
    hide Allowed;
  }

  /** The only one at work on the id, and with the flag not set, the handler is about to make the first
      call of its process. */
  lemma NotBusy(w: World, h: HandlerId, ref: Ref, counter: Counter)
    requires BirthsOk(w) && AloneOk(w) && OwnersOk(w) && h in w.handlers && w.handlers[h].pc.Complete?
    requires ref == w.handlers[h].pc.ref && ref in w.heap && ref.id == w.handlers[h].id
    requires counter !in w.heap[ref].counted
    requires forall g :: g in w.handlers ==> HandlerOk(w, g)
    ensures !Busy(w, Increment(w.heap[ref].birth, counter))
  {
    forall g | g in w.handlers ensures !Calling(w, g, Increment(w.heap[ref].birth, counter)) {
      assert HandlerOk(w, g);
      if HasRef(w.handlers[g].pc) && w.handlers[g].id == w.handlers[h].id {
        OneHolder(w, g, h);
      }
    }
  }

  lemma OneHolder(w: World, g: HandlerId, h: HandlerId)
    requires AloneOk(w) && OwnersOk(w) && g in w.handlers && h in w.handlers && w.handlers[g].id == w.handlers[h].id
    requires HasRef(w.handlers[g].pc) && HasRef(w.handlers[h].pc)
    ensures g == h
  {
    assert Owns(w, g) && Owns(w, h);
  }

  lemma CallKeepsBusy(w: World, h: HandlerId, ref: Ref, counter: Counter, x: Increment)
    requires h in w.handlers && w.handlers[h].pc.Complete? && ref in w.heap && Busy(w, x)
    ensures Busy(CallInc(w, h, ref, counter), x)
  {
    var u := CallInc(w, h, ref, counter);
    if r :| r in w.heap && w.heap[r].birth == x.birth && x.counter in w.heap[r].counted {
      assert r in u.heap;
    } else {
      var g :| g in w.handlers && Calling(w, g, x);
      assert g != h && Calling(u, g, x);
    }
  }

  lemma BoundFail(w: World, h: HandlerId)
    requires BoundOk(w) && h in w.handlers && w.handlers[h].pc.AwaitInc? && w.handlers[h].pc.ref in w.heap
    ensures BoundOk(End(FailInc(w, Increment(w.heap[w.handlers[h].pc.ref].birth, w.handlers[h].pc.counter)), h))
  {
    var k := Increment(w.heap[w.handlers[h].pc.ref].birth, w.handlers[h].pc.counter);
    var u := End(FailInc(w, k), h);
    assert BirthsOk(u) by { hide CountsOk; }
    hide BirthsOk, Busy;
    forall x | x in u.calls && x != k && Busy(w, x) ensures Busy(u, x) {
      FailKeepsBusy(w, h, k, x);
    }
    CountsThrow(w, u, k);
  }

  lemma FailKeepsBusy(w: World, h: HandlerId, k: Increment, x: Increment)
    requires h in w.handlers && w.handlers[h].pc.AwaitInc? && w.handlers[h].pc.ref in w.heap && Busy(w, x) && x != k
    requires k == Increment(w.heap[w.handlers[h].pc.ref].birth, w.handlers[h].pc.counter)
    ensures Busy(End(FailInc(w, k), h), x)
  {
    var u := End(FailInc(w, k), h);
    if r :| r in w.heap && w.heap[r].birth == x.birth && x.counter in w.heap[r].counted {
      assert r in u.heap;
    } else {
      var g :| g in w.handlers && Calling(w, g, x);
      assert g != h && Calling(u, g, x);
    }
  }

  lemma RestartHeap(w: World)
    ensures forall r :: r in Restart(w).heap ==> r.n == w.next && r.id in w.disk && Restart(w).heap[r] == w.disk[r.id]
  {}

  lemma BirthsRestart(w: World)
    requires BirthsOk(w) && EntriesOk(w)
    ensures BirthsOk(Restart(w))
  {
    RestartHeap(w);
    var u := Restart(w);
    assert u.calls == w.calls && u.next == w.next + 1;
    hide Restart;
    forall r, q | r in u.heap && q in u.heap && u.heap[r].birth == u.heap[q].birth ensures r == q {
      assert u.heap[r].birth.id == r.id && u.heap[q].birth.id == q.id;
    }
  }

  lemma CountsRestart(w: World, u: World)
    requires CountsOk(w) && u.calls == w.calls && u.thrown == w.thrown && u.born == w.born
    requires u.restarts == w.restarts + 1
    ensures CountsOk(u)
  {
    hide Busy, Count, RestartsBefore;
  }

  lemma BoundRestart(w: World)
    requires BoundOk(w) && EntriesOk(w)
    ensures BoundOk(Restart(w))
  {
    BirthsRestart(w);
    CountsRestart(w, Restart(w));
    hide CountsOk, BirthsOk, EntriesOk;
  }

  // ----- the events -----

  lemma KeepsNotice(w: World, h: HandlerId)
    ensures Keeps(w, Notice(w, h))
  {}

  lemma KeepsSame(w: World, u: World)
    requires u.heap == w.heap && u.handlers == w.handlers && SameTally(w, u) && u.next == w.next
    ensures Keeps(w, u)
  {}

  lemma KeepsAll(w: World)
    ensures Keeps(w, w)
  {}

  lemma SavesSame(w: World, kept: set<Key>, fault: Fault)
    requires RefsOk(w)
    ensures var u := Save(w, kept, fault);
            u.heap == w.heap && u.handlers == w.handlers && SameTally(w, u) && u.next == w.next
  {}

  lemma KeepsSave(w: World, kept: set<Key>, fault: Fault)
    requires RefsOk(w)
    ensures Keeps(w, Save(w, kept, fault))
  {
    SavesSame(w, kept, fault);
    hide Save;
    KeepsSame(w, Save(w, kept, fault));
  }

  lemma KeepsEnd(w: World, h: HandlerId)
    requires h in w.handlers && w.handlers[h].pc.AwaitInc? && w.handlers[h].pc.ref in w.heap ==>
               w.handlers[h].pc.counter in w.heap[w.handlers[h].pc.ref].counted
    ensures Keeps(w, End(w, h))
  {}

  lemma KeepsGo(w: World, h: HandlerId, pc: Pc)
    requires h in w.handlers
    requires w.handlers[h].pc.AwaitInc? && w.handlers[h].pc.ref in w.heap ==>
               w.handlers[h].pc.counter in w.heap[w.handlers[h].pc.ref].counted
    ensures Keeps(w, Go(w, h, pc))
  {}

  /** A new handler and nothing else that matters here. */
  ghost predicate Arrives(w: World, u: World, h: HandlerId, handler: Handler) {
    u.handlers == w.handlers[h := handler] && u.heap == w.heap && u.next == w.next && SameTally(w, u)
  }

  lemma ArrivesPrimitives(w: World, h: HandlerId, id: Key, fingerprint: Fingerprint, ref: Ref)
    ensures Arrives(w, Recover(w, h, id, fingerprint, ref), h, Handler(id, Submit(fingerprint), Complete(ref, true)))
    ensures var handler := Handler(id, Submit(fingerprint), Eligibility); Arrives(w, Enter(w, h, handler), h, handler)
  {}

  lemma ArrivesWatch(w: World, h: HandlerId, id: Key, ref: Ref)
    ensures Arrives(w, Watch(w, h, id, ref), h, Handler(id, Status, AwaitRecords(ref)))
  {}

  lemma Starts(w: World, e: Event) returns (kind: Kind, pc: Pc)
    requires Ready(w) && Guard(w, e) && (e.StartSubmit? || e.StartStatus?)
    ensures BeforeSave(w, e) == Notice(w, e.h) || Arrives(w, BeforeSave(w, e), e.h, Handler(e.id, kind, pc))
    ensures kind.Submit? <==> e.StartSubmit?
  {
    hide Arrives, Notice, Recover, Enter, Watch, Arrive, RefsOk;
    if e.StartSubmit? {
      kind := Submit(e.fingerprint);
      var arrival := Arrive(w, e.id, e.fingerprint);
      pc := if arrival.Recovers? then Complete(arrival.ref, true) else Eligibility;
      ArrivesPrimitives(w, e.h, e.id, e.fingerprint, if arrival.Recovers? then arrival.ref else Ref(e.id, 0));
    } else {
      kind := Status;
      pc := if e.id in w.memory then AwaitRecords(w.memory[e.id]) else Eligibility;
      if e.id in w.memory {
        ArrivesWatch(w, e.h, e.id, w.memory[e.id]);
      }
    }
  }

  lemma KeepsArrives(w: World, h: HandlerId, handler: Handler, u: World)
    requires h !in w.handlers && Arrives(w, u, h, handler)
    ensures Keeps(w, u)
  {}

  lemma KeepsUpdateStatus(w: World, h: HandlerId, ref: Ref)
    requires h in w.handlers && !w.handlers[h].pc.AwaitInc? && ref in w.heap
    ensures Keeps(w, CallUpdateStatus(w, h, ref))
  {}

  lemma KeepsTakeOver(w: World, h: HandlerId, ref: Ref)
    requires h in w.handlers && !w.handlers[h].pc.AwaitInc? && ref in w.heap && w.handlers[h].kind.Submit?
    ensures Keeps(w, TakeOver(w, h, ref))
  {}

  lemma KeepsReserve(w: World, h: HandlerId, now: int)
    requires h in w.handlers && w.handlers[h].pc.Eligibility? && w.handlers[h].kind.Submit? && EntriesOk(w)
    ensures Keeps(w, Reserve(w, h, now))
  {}

  lemma KeepsPut(w: World, ref: Ref, entry: Entry)
    requires ref in w.heap && entry.birth == w.heap[ref].birth && w.heap[ref].counted <= entry.counted
    ensures Keeps(w, Put(w, ref, entry))
  {}

  lemma KeepsCount(w: World, ref: Ref, counter: Counter)
    requires ref in w.heap
    ensures Keeps(w, CountInc(w, ref, counter))
  {}

  /** Same people, same ids, same kinds. */
  ghost predicate SameIds(w: World, u: World) {
    forall h :: h in u.handlers ==>
      h in w.handlers && u.handlers[h].id == w.handlers[h].id && u.handlers[h].kind == w.handlers[h].kind
  }

  lemma AloneFrame(w: World, u: World)
    requires AloneOk(w) && SameIds(w, u)
    ensures AloneOk(u)
  {}

  lemma AloneArrives(w: World, h: HandlerId, handler: Handler, u: World)
    requires AloneOk(w) && h !in w.handlers && Arrives(w, u, h, handler)
    requires forall g :: g in w.handlers && w.handlers[g].id == handler.id ==>
               (w.handlers[g].kind.Submit? <==> handler.kind.Submit?)
    ensures AloneOk(u)
  {}

  lemma QuietSameIds(w: World, u: World)
    requires Quiet(w, u)
    ensures SameIds(w, u)
  {}

  lemma AloneBefore(w: World, e: Event)
    requires Inv(w) && AloneOk(w) && Apart(w, e) && Ready(w) && Guard(w, e)
    ensures AloneOk(BeforeSave(w, e))
  {
    hide Inv, Shape, AddsOk, CallsOk, FlagsOk, Ready, RefsOk, SameIds, AloneOk, Quiet, Recheck, Arrive, Apart;
    Unfold(w);
    match e
    case StartSubmit(_, _, _, _, _, _) => AloneStarts(w, e);
    case Eligible(_, _, _, _, _, _) => AloneEligible(w, e);
    case StartStatus(_, _) => AloneStarts(w, e);
    case Crash => AloneRestart(w);
    case _ =>
      QuietHolding(w, e);
      QuietSameIds(w, BeforeSave(w, e));
      AloneFrame(w, BeforeSave(w, e));
  }

  lemma AloneStarts(w: World, e: Event)
    requires Shape(w) && AloneOk(w) && Apart(w, e) && Ready(w) && Guard(w, e) && (e.StartSubmit? || e.StartStatus?)
    ensures AloneOk(BeforeSave(w, e))
  {
    hide SameIds, AloneOk, BeforeSave, Ready, Arrives;
    Unused(w, e.h);
    SameIdsMoves(w, e.h, {});
    AloneFrame(w, Notice(w, e.h));
    var kind, pc := Starts(w, e);
    if Arrives(w, BeforeSave(w, e), e.h, Handler(e.id, kind, pc)) {
      AloneArrives(w, e.h, Handler(e.id, kind, pc), BeforeSave(w, e));
    }
  }

  lemma AloneEligible(w: World, e: Event)
    requires AloneOk(w) && Ready(w) && Guard(w, e) && e.Eligible?
    ensures AloneOk(BeforeSave(w, e))
  {
    var h := e.h;
    hide SameIds, AloneOk, Recheck;
    SameIdsMoves(w, h, {});
    AloneFrame(w, End(w, h));
    SameIdsReserve(w, h, e.now);
    AloneFrame(w, Reserve(w, h, e.now));
    RecheckFinds(w, w.handlers[h].id, w.handlers[h].kind.fingerprint, e.inWindow);
    hide Ready, RefsOk;
    match Recheck(w, w.handlers[h].id, w.handlers[h].kind.fingerprint, e.inWindow)
    case TakesOver(ref) =>
      SameIdsTakeOver(w, h, ref);
      AloneFrame(w, TakeOver(w, h, ref));
    case _ =>
  }

  lemma AloneRestart(w: World)
    ensures AloneOk(Restart(w))
  {}

  lemma SameIdsMoves(w: World, h: HandlerId, kept: set<Key>)
    ensures SameIds(w, Notice(w, h)) && SameIds(w, End(w, h))
  {}

  lemma SameIdsReserve(w: World, h: HandlerId, now: int)
    requires h in w.handlers && w.handlers[h].kind.Submit?
    ensures SameIds(w, Reserve(w, h, now))
  {}

  lemma SameIdsTakeOver(w: World, h: HandlerId, ref: Ref)
    requires h in w.handlers && w.handlers[h].kind.Submit? && ref in w.heap
    ensures SameIds(w, TakeOver(w, h, ref))
  {}

  lemma BoundBefore(w: World, e: Event)
    requires Inv(w) && AloneOk(w) && OwnersOk(w) && BoundOk(w) && Ready(w) && Guard(w, e)
    ensures BoundOk(BeforeSave(w, e))
  {
    hide Inv, Shape, AddsOk, CallsOk, FlagsOk, Ready, RefsOk, EntriesOk, AloneOk, OwnersOk, BoundOk, Keeps, Recheck,
      Arrive;
    Unfold(w);
    EntriesOfShape(w);
    match e
    case StartSubmit(_, _, _, _, _, _) => BoundStarts(w, e);
    case Eligible(_, _, _, _, _, _) => BoundEligible(w, e);
    case StartStatus(_, _) => BoundStarts(w, e);
    case Crash => BoundRestart(w);
    case _ => BoundHolding(w, e);
  }

  lemma BoundStarts(w: World, e: Event)
    requires Shape(w) && BoundOk(w) && Ready(w) && Guard(w, e) && (e.StartSubmit? || e.StartStatus?)
    ensures BoundOk(BeforeSave(w, e))
  {
    hide BoundOk, Keeps, BeforeSave, Ready, Arrives;
    Unused(w, e.h);
    KeepsNotice(w, e.h);
    BoundFrame(w, Notice(w, e.h));
    var kind, pc := Starts(w, e);
    if Arrives(w, BeforeSave(w, e), e.h, Handler(e.id, kind, pc)) {
      KeepsArrives(w, e.h, Handler(e.id, kind, pc), BeforeSave(w, e));
      BoundFrame(w, BeforeSave(w, e));
    }
  }

  lemma BoundEligible(w: World, e: Event)
    requires EntriesOk(w) && BoundOk(w) && Ready(w) && Guard(w, e) && e.Eligible?
    ensures BoundOk(BeforeSave(w, e))
  {
    var h := e.h;
    hide BoundOk, Keeps, Recheck, EntriesOk;
    KeepsEnd(w, h);
    BoundFrame(w, End(w, h));
    KeepsReserve(w, h, e.now);
    BoundFrame(w, Reserve(w, h, e.now));
    RecheckFinds(w, w.handlers[h].id, w.handlers[h].kind.fingerprint, e.inWindow);
    hide Ready, RefsOk;
    match Recheck(w, w.handlers[h].id, w.handlers[h].kind.fingerprint, e.inWindow)
    case TakesOver(ref) =>
      KeepsTakeOver(w, h, ref);
      BoundFrame(w, TakeOver(w, h, ref));
    case _ =>
  }

  lemma EntriesOfShape(w: World)
    requires Shape(w)
    ensures EntriesOk(w)
    ensures forall g :: g in w.handlers ==> HandlerOk(w, g)
  {}

  lemma BoundHolding(w: World, e: Event)
    requires Inv(w) && AloneOk(w) && OwnersOk(w) && BoundOk(w) && Ready(w) && Guard(w, e)
    requires !e.StartSubmit? && !e.Eligible? && !e.StartStatus? && !e.Crash?
    ensures BoundOk(BeforeSave(w, e))
  {
    hide Inv, Shape, AddsOk, CallsOk, FlagsOk, Ready, RefsOk, EntriesOk, AloneOk, OwnersOk, BoundOk, Keeps, HandlerOk;
    Unfold(w);
    var h := e.h;
    AboutHandler(w, h);
    match e
    case Continue(_, _, _) =>
      var ref := w.handlers[h].pc.ref;
      AboutRef(w, h);
      EntriesOfShape(w);
      match NextEffect(w.heap[ref], w.handlers[h].pc.recovering) {
        case ReadJournal =>
          KeepsGo(w, h, AwaitJournal(ref));
          BoundFrame(w, BeforeSave(w, e));
        case UpdateStatus =>
          KeepsUpdateStatus(w, h, ref);
          BoundFrame(w, BeforeSave(w, e));
        case Inc(counter) => BoundCall(w, h, ref, counter);
        case Finish =>
          KeepsPut(w, ref, w.heap[ref].(stamp := w.heap[ref].stamp.(complete := true)));
          BoundFrame(w, BeforeSave(w, e));
      }
    case IncReturned(_, _, _) =>
      KeepsCount(w, w.handlers[h].pc.ref, w.handlers[h].pc.counter);
      BoundFrame(w, BeforeSave(w, e));
    case Threw(_) =>
      if w.handlers[h].pc.AwaitInc? {
        BoundFail(w, h);
      } else {
        KeepsEnd(w, h);
        BoundFrame(w, End(w, h));
      }
    case RecordsRead(_, found) =>
      KeepsEnd(w, h);
      if found.Some? {
        KeepsGo(w, h, AwaitResult(w.handlers[h].pc.ref, found.value));
      }
      BoundFrame(w, BeforeSave(w, e));
    case AddReturned(_, _, _, _) => BoundWrite(w, e);
    case JournalRead(_, _, _, _) => BoundWrite(w, e);
    case StatusReturned(_, _, _) => BoundWrite(w, e);
    case ResultRead(_, _, _, _) => BoundWrite(w, e);
  }

  lemma AboutRef(w: World, h: HandlerId)
    requires Shape(w) && h in w.handlers && HasRef(w.handlers[h].pc)
    ensures w.handlers[h].pc.ref.id == w.handlers[h].id
  {
    assert HandlerOk(w, h);
  }

  lemma BoundWrite(w: World, e: Event)
    requires BoundOk(w) && Ready(w) && Guard(w, e)
             && (e.AddReturned? || e.JournalRead? || e.StatusReturned? || e.ResultRead?)
    ensures BoundOk(BeforeSave(w, e))
  {
    KeepsWrite(w, e);
    hide BoundOk, Keeps, BeforeSave, Ready;
    BoundFrame(w, BeforeSave(w, e));
  }

  lemma KeepsWrite(w: World, e: Event)
    requires Ready(w) && Guard(w, e) && (e.AddReturned? || e.JournalRead? || e.StatusReturned? || e.ResultRead?)
    ensures Keeps(w, BeforeSave(w, e))
  {
    var h := e.h;
    var ref := w.handlers[h].pc.ref;
    var entry := w.heap[ref];
    KeepsEnd(w, h);
    hide Keeps, Ready;
    match e
    case AddReturned(_, rid, _, _) => KeepsPut(w, ref, entry.(rid := Some(rid)));
    case JournalRead(_, _, _, _) => KeepsPut(w, ref, entry.(statusUpdated := true));
    case StatusReturned(_, _, _) => KeepsPut(w, ref, entry.(statusUpdated := true));
    case ResultRead(_, _, _, _) =>
      KeepsPut(w, ref, entry.(rid := Some(w.handlers[h].pc.found), statusUpdated := true));
  }

  // ----- after the save -----

  /** If the handler stands at an increment, the entry already counts it. */
  ghost predicate Flagged(w: World, h: HandlerId)
    requires h in w.handlers
  {
    w.handlers[h].pc.AwaitInc? && w.handlers[h].pc.ref in w.heap ==>
      w.handlers[h].pc.counter in w.heap[w.handlers[h].pc.ref].counted
  }

  lemma SavingFlags(w: World, e: Event, limit: nat)
    requires Enabled(w, e, limit) && Saves(w, e)
    ensures Flagged(BeforeSave(w, e), e.h)
  {
    hide Pruned, StampsOf;
  }

  lemma SavedKeepsBound(s: World, e: Event)
    requires e.StartSubmit? || e.Eligible? || e.AddReturned? || e.Continue? || e.JournalRead?
             || e.StatusReturned? || e.IncReturned? || e.ResultRead?
    requires e.h in s.handlers && HasRef(s.handlers[e.h].pc) && Flagged(s, e.h)
    ensures Keeps(s, AfterSave(s, e)) && SameIds(s, AfterSave(s, e))
  {
    var h, pc := e.h, Complete(s.handlers[e.h].pc.ref, e.JournalRead?);
    KeepsEnd(s, h);
    KeepsGo(s, h, pc);
    KeepsAll(s);
    SameIdsAfter(s, h, pc, MadeFor(s.handlers[h].pc.ref));
    KeepsAdded(s, MadeFor(s.handlers[h].pc.ref));
    hide Keeps, SameIds, End, Go, Added, Flagged, RefsOk;
  }

  lemma BoundSaved(s: World, e: Event)
    requires BoundOk(s) && AloneOk(s)
    requires e.StartSubmit? || e.Eligible? || e.AddReturned? || e.Continue? || e.JournalRead?
             || e.StatusReturned? || e.IncReturned? || e.ResultRead?
    requires e.h in s.handlers && HasRef(s.handlers[e.h].pc) && Flagged(s, e.h)
    ensures BoundOk(AfterSave(s, e)) && AloneOk(AfterSave(s, e))
  {
    SavedKeepsBound(s, e);
    hide BoundOk, AloneOk, Keeps, SameIds, AfterSave, Flagged;
    BoundFrame(s, AfterSave(s, e));
    AloneFrame(s, AfterSave(s, e));
  }

  lemma SameIdsAfter(w: World, h: HandlerId, pc: Pc, b: Birth)
    requires h in w.handlers
    ensures SameIds(w, End(w, h)) && SameIds(w, Go(w, h, pc)) && SameIds(w, Added(w, b)) && SameIds(w, w)
  {}

  lemma KeepsAdded(w: World, b: Birth)
    ensures Keeps(w, Added(w, b))
  {}

  lemma BoundAfter(w: World, e: Event, limit: nat)
    requires Enabled(w, e, limit) && BoundOk(BeforeSave(w, e)) && AloneOk(BeforeSave(w, e))
    ensures BoundOk(Apply(w, e, limit)) && AloneOk(Apply(w, e, limit))
  {
    if Saves(w, e) {
      SavingFlags(w, e, limit);
      var u := BeforeSave(w, e);
      var s := Save(u, e.kept, e.fault);
      hide BeforeSave, Ready, Guard, Saves, Pruned, StampsOf, BoundOk, AloneOk, Keeps, SameIds, RefsOk, AfterSave;
      SavesSame(u, e.kept, e.fault);
      KeepsSave(u, e.kept, e.fault);
      BoundFrame(u, s);
      SameIdsSave(u, e.kept, e.fault);
      AloneFrame(u, s);
      BoundSaved(s, e);
    }
  }

  lemma SameIdsSave(w: World, kept: set<Key>, fault: Fault)
    requires RefsOk(w)
    ensures SameIds(w, Save(w, kept, fault))
  {}

  // ----- whole runs -----

  /** A run in which no submit of an id overlaps a status query of that id. */
  ghost predicate ApartRun(ws: seq<World>, es: seq<Event>, limit: nat) {
    IsRun(ws, es, limit) && forall i {:trigger es[i]} :: 0 <= i < |es| ==> Apart(ws[i], es[i])
  }

  lemma {:induction false} BoundRun(ws: seq<World>, es: seq<Event>, limit: nat, i: nat)
    requires ApartRun(ws, es, limit) && i < |ws|
    ensures Inv(ws[i]) && AloneOk(ws[i]) && BoundOk(ws[i])
  {
    hide *;
    ApartParts(ws, es, limit);
    StartsEmpty(ws, es, limit);
    RunKeeps(ws, es, limit, i);
    if i == 0 {
      InitialBound();
    } else {
      BoundRun(ws, es, limit, i - 1);
      OwnersRun(ws, es, limit, i - 1);
      StepOf(ws, es, limit, i - 1);
      BoundApply(ws[i - 1], es[i - 1], limit);
    }
  }

  lemma InitialBound()
    ensures AloneOk(INITIAL) && BoundOk(INITIAL)
  {}

  lemma ApartParts(ws: seq<World>, es: seq<Event>, limit: nat)
    requires ApartRun(ws, es, limit)
    ensures IsRun(ws, es, limit) && |ws| == |es| + 1 && forall i :: 0 <= i < |es| ==> Apart(ws[i], es[i])
  {
    hide Enabled, Apply, Apart;
  }

  lemma BoundApply(w: World, e: Event, limit: nat)
    requires Inv(w) && AloneOk(w) && OwnersOk(w) && BoundOk(w) && Apart(w, e) && Enabled(w, e, limit)
    ensures AloneOk(Apply(w, e, limit)) && BoundOk(Apply(w, e, limit))
  {
    hide Inv, AloneOk, OwnersOk, BoundOk, BeforeSave, Apply, Saves, Ready, Guard, Apart;
    AloneBefore(w, e);
    BoundBefore(w, e);
    BoundAfter(w, e, limit);
  }

  /** Where submits and status queries of an id do not overlap each other - submits among themselves and
      queries among themselves may - each counter of a reservation is asked to move at most once per
      process it lived in - the one that reserved it and those started since - plus once per call
      that threw. */
  lemma CountersBounded(ws: seq<World>, es: seq<Event>, limit: nat, i: nat, birth: Birth, counter: Counter)
    requires ApartRun(ws, es, limit) && i < |ws|
    ensures var k := Increment(birth, counter);
            Count(ws[i].calls, k) <= 1 + (ws[i].restarts - RestartsBefore(ws[i].born, birth)) + Count(ws[i].thrown, k)
  {
    BoundRun(ws, es, limit, i);
    hide Inv, Busy;
  }

  /** In every run a completed entry, in memory or on disk, had each of its counter calls return. */
  lemma CompletionIsEarned(ws: seq<World>, es: seq<Event>, limit: nat, i: nat, birth: Birth, counter: Counter)
    requires IsRun(ws, es, limit) && i < |ws|
    ensures forall id :: id in ws[i].disk && ws[i].disk[id].birth == birth && ws[i].disk[id].stamp.complete ==>
              Count(ws[i].returned, Increment(birth, counter)) >= 1
    ensures forall r :: r in ws[i].heap && ws[i].heap[r].birth == birth && ws[i].heap[r].stamp.complete ==>
              Count(ws[i].returned, Increment(birth, counter)) >= 1
  {
    RunKeeps(ws, es, limit, i);
    CompleteBacked(ws[i], birth, counter);
    hide Inv, IsRun;
  }

  lemma CompleteBacked(w: World, birth: Birth, counter: Counter)
    requires Inv(w)
    ensures forall id :: id in w.disk && w.disk[id].birth == birth && w.disk[id].stamp.complete ==>
              Count(w.returned, Increment(birth, counter)) >= 1
    ensures forall r :: r in w.heap && w.heap[r].birth == birth && w.heap[r].stamp.complete ==>
              Count(w.returned, Increment(birth, counter)) >= 1
  {
    Unfold(w);
    hide Inv, Shape, AddsOk, CallsOk, Count;
    assert counter.ProblemSubmits? || counter.UserSubmits?;
  }
}
