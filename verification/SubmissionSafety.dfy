/** Safety of the submission journal over every run, and what overlapping requests can break. */
module SubmissionSafety {
  import opened Basics
  import opened JournalStore
  import opened SubmissionProtocol

  // ----- the shape every reachable world has -----

  ghost predicate EntriesOk(w: World) {
    && (forall r :: r in w.heap ==> w.heap[r].birth.id == r.id && w.heap[r].birth.n < w.next && r.n < w.next)
    && (forall id :: id in w.disk ==> w.disk[id].birth.id == id && w.disk[id].birth.n < w.next)
  }

  /** A handler holds an entry of its own id; a submit handler one of its own payload. */
  ghost predicate HandlerOk(w: World, h: HandlerId)
    requires h in w.handlers
  {
    var x := w.handlers[h];
    && h in w.used
    && (x.pc.Eligibility? ==> x.kind.Submit?)
    && (HasRef(x.pc) ==>
          && x.pc.ref in w.heap && x.pc.ref.id == x.id
          && (x.kind.Submit? ==> w.heap[x.pc.ref].fingerprint == x.kind.fingerprint))
  }

  ghost predicate Shape(w: World) {
    RefsOk(w) && EntriesOk(w) && forall h :: h in w.handlers ==> HandlerOk(w, h)
  }

  /** An entry object may only gain progress. */
  ghost predicate Progress(a: Entry, b: Entry) {
    && a.birth == b.birth && a.fingerprint == b.fingerprint
    && (a.rid.Some? ==> b.rid.Some?)
    && (a.statusUpdated ==> b.statusUpdated) && a.counted <= b.counted
    && (a.stamp.complete ==> b.stamp.complete) && a.stamp.createdAt == b.stamp.createdAt
  }

  // ----- one add per reservation -----

  /** A reservation is in memory and on disk, under one payload. */
  ghost predicate Resident(w: World, b: Birth)
    requires RefsOk(w)
  {
    && b.id in w.memory && w.heap[w.memory[b.id]].birth == b && b.id in w.disk && w.disk[b.id].birth == b
    && w.disk[b.id].fingerprint == w.heap[w.memory[b.id]].fingerprint
  }

  /** All adds differ, and what was added is evicted or resident. */
  ghost predicate AddsOk(w: World)
    requires RefsOk(w)
  {
    Distinct(w.adds) && forall b :: b in w.adds ==> b.n < w.next && (b in w.evicted || Resident(w, b))
  }

  // ----- who may call updateStatus -----

  ghost predicate Drives(w: World, birth: Birth, h: HandlerId) {
    (birth in w.creator && w.creator[birth] == h) || Call(birth, h) in w.takeovers
  }

  /** The handlers that may still call updateStatus. */
  ghost predicate MayUpdate(w: World, h: HandlerId)
    requires h in w.handlers
  {
    var pc := w.handlers[h].pc;
    HasRef(pc) && pc.ref in w.heap && !w.heap[pc.ref].statusUpdated
    && (pc.AwaitAdd? || (pc.Complete? && !pc.recovering))
  }

  ghost predicate CallsOk(w: World) {
    && (forall c :: c in w.updateCalls ==> c.handler in w.used && Drives(w, c.birth, c.handler))
    && (forall i, j :: 0 <= i < j < |w.updateCalls| ==> w.updateCalls[i] != w.updateCalls[j])
    && (forall b :: b in w.creator ==> b.n < w.next)
    && (forall h :: h in w.handlers ==> Stands(w, h))
  }

  /** Whoever may still call updateStatus reserved the entry or took it over, and has not called yet. */
  ghost predicate Stands(w: World, h: HandlerId)
    requires h in w.handlers
  {
    && (MayUpdate(w, h) ==>
          w.handlers[h].kind.Submit? && Drives(w, w.heap[w.handlers[h].pc.ref].birth, h))
    && (MayUpdate(w, h) || w.handlers[h].pc.Eligibility? ==> Silent(w, h))
    && (w.handlers[h].pc.AwaitInc? && w.handlers[h].pc.ref in w.heap ==>
          w.heap[w.handlers[h].pc.ref].statusUpdated)
  }

  ghost predicate Silent(w: World, h: HandlerId) {
    forall c :: c in w.updateCalls ==> c.handler != h
  }

  // ----- progress flags mean finished calls -----

  ghost predicate Backed(w: World, entry: Entry) {
    && (forall c :: c in entry.counted ==> Count(w.returned, Increment(entry.birth, c)) >= 1)
    && (entry.stamp.complete ==> entry.statusUpdated && ProblemSubmits in entry.counted && UserSubmits in entry.counted)
  }

  ghost predicate FlagsOk(w: World) {
    && (forall r :: r in w.heap ==> Backed(w, w.heap[r]))
    && (forall id :: id in w.disk ==> Backed(w, w.disk[id]))
    && (forall k :: k in w.returned ==> w.returned[k] >= 1)
    && (forall b, c :: b in w.evicted ==> Count(w.returned, Increment(b, c)) >= 1)
  }

  ghost predicate Inv(w: World) {
    Shape(w) && AddsOk(w) && CallsOk(w) && FlagsOk(w)
  }

  // ----- every event keeps the invariant -----

  /** An id that gains an entry gains one just born. */
  ghost predicate NewIdsFresh(w: World, u: World) {
    forall id :: id in u.memory && id !in w.memory ==>
      u.memory[id] in u.heap && w.next <= u.heap[u.memory[id]].birth.n
  }

  /** What an event of handler `h` does up to its save, seen by everyone else. */
  ghost predicate Effect(w: World, u: World, h: HandlerId) {
    && (forall r :: r in w.heap ==> r in u.heap && Progress(w.heap[r], u.heap[r]))
    && (forall id :: id in w.memory ==> id in u.memory && u.memory[id] == w.memory[id])
    && NewIdsFresh(w, u)
    && (forall g :: g in u.handlers && g != h ==> g in w.handlers && u.handlers[g] == w.handlers[g])
    && w.used <= u.used && w.next <= u.next && u.disk == w.disk && u.adds == w.adds && u.evicted == w.evicted
    && (forall b :: b in w.creator ==> b in u.creator && u.creator[b] == w.creator[b])
    && w.takeovers <= u.takeovers
    && (forall k :: Count(w.returned, k) <= Count(u.returned, k))
    && (u.updateCalls == w.updateCalls
        || (h in w.handlers && MayUpdate(w, h) && (h in u.handlers ==> !MayUpdate(u, h))
            && u.updateCalls == w.updateCalls + [Call(w.heap[w.handlers[h].pc.ref].birth, h)]))
  }

  /** What it must establish itself: its own new position and any entry it wrote. */
  ghost predicate Local(w: World, u: World, h: HandlerId) {
    && RefsOk(u)
    && (forall r :: r in u.heap && !(r in w.heap && u.heap[r] == w.heap[r]) ==>
          u.heap[r].birth.id == r.id && u.heap[r].birth.n < u.next && r.n < u.next && Backed(u, u.heap[r]))
    && (forall b :: b in u.creator ==> b in w.creator || b.n < u.next)
    && (forall k :: k in u.returned ==> u.returned[k] >= 1)
    && (h in u.handlers ==> HandlerOk(u, h) && Stands(u, h))
  }

  lemma StepShape(w: World, u: World, h: HandlerId)
    requires Shape(w) && Effect(w, u, h) && Local(w, u, h)
    ensures Shape(u)
  {
    hide NewIdsFresh;
    forall g | g in u.handlers ensures HandlerOk(u, g) {
      if g != h {
        assert HandlerOk(w, g);
      }
    }
  }

  lemma StepAdds(w: World, u: World, h: HandlerId)
    requires RefsOk(w) && RefsOk(u) && AddsOk(w) && Effect(w, u, h)
    ensures AddsOk(u)
  {
    hide NewIdsFresh;
  }

  lemma StepFlags(w: World, u: World, h: HandlerId)
    requires FlagsOk(w) && Effect(w, u, h) && Local(w, u, h)
    ensures FlagsOk(u)
  {
    hide NewIdsFresh;
  }

  lemma StepStands(w: World, u: World, h: HandlerId, g: HandlerId)
    requires Shape(w) && CallsOk(w) && Effect(w, u, h) && g in u.handlers && g != h
    ensures Stands(u, g)
  {
    hide NewIdsFresh, EntriesOk, RefsOk, Count;
    assert HandlerOk(w, g) && Stands(w, g);
  }

  lemma StepCalls(w: World, u: World, h: HandlerId)
    requires Shape(w) && CallsOk(w) && Effect(w, u, h) && Local(w, u, h)
    ensures CallsOk(u)
  {
    hide NewIdsFresh, EntriesOk, RefsOk, Progress, Backed, Count;
    forall g | g in u.handlers ensures Stands(u, g) {
      if g != h {
        StepStands(w, u, h, g);
      }
    }
    forall c | c in u.updateCalls ensures c.handler in u.used && Drives(u, c.birth, c.handler) {
      if c !in w.updateCalls {
        assert HandlerOk(w, h) && Stands(w, h);
      }
    }
    if u.updateCalls != w.updateCalls {
      assert HandlerOk(w, h) && Stands(w, h);
    }
  }

  lemma StepKeeps(w: World, u: World, h: HandlerId)
    requires Inv(w) && Effect(w, u, h) && Local(w, u, h)
    ensures Inv(u)
  {
    hide *;
    assert Shape(w) && AddsOk(w) && CallsOk(w) && FlagsOk(w) && RefsOk(w) by { Unfold(w); }
    StepShape(w, u, h);
    assert RefsOk(u) by { UnfoldShape(u); }
    StepAdds(w, u, h);
    StepFlags(w, u, h);
    StepCalls(w, u, h);
    Fold(u);
  }

  lemma UnfoldShape(w: World)
    requires Shape(w)
    ensures RefsOk(w)
  {}

  lemma Unfold(w: World)
    requires Inv(w)
    ensures Shape(w) && RefsOk(w) && AddsOk(w) && CallsOk(w) && FlagsOk(w) && Ready(w)
  {
    forall h | h in w.handlers && HasRef(w.handlers[h].pc) ensures w.handlers[h].pc.ref in w.heap {
      assert HandlerOk(w, h);
    }
  }

  lemma Fold(w: World)
    requires Shape(w) && RefsOk(w) && AddsOk(w) && CallsOk(w) && FlagsOk(w)
    ensures Inv(w)
  {}

  // ----- the events -----

  lemma ArriveFinds(w: World, id: Key, fingerprint: Fingerprint)
    requires RefsOk(w)
    ensures var a := Arrive(w, id, fingerprint);
            a.Recovers? ==> a.ref in w.heap && a.ref.id == id && w.heap[a.ref].fingerprint == fingerprint
    ensures Arrive(w, id, fingerprint).Proceeds? ==> id !in w.memory
  {}

  lemma RecheckFinds(w: World, id: Key, fingerprint: Fingerprint, inWindow: bool)
    requires RefsOk(w)
    ensures var a := Recheck(w, id, fingerprint, inWindow);
            a.TakesOver? ==>
                id in w.memory && a.ref in w.heap && a.ref.id == id && w.heap[a.ref].fingerprint == fingerprint
    ensures Recheck(w, id, fingerprint, inWindow).Reserves? ==> id !in w.memory
  {}

  lemma NoticeSteps(w: World, h: HandlerId)
    requires RefsOk(w) && CallsOk(w) && FlagsOk(w) && h !in w.handlers
    ensures Effect(w, Notice(w, h), h) && Local(w, Notice(w, h), h)
  {}

  lemma EnterEffect(w: World, h: HandlerId, handler: Handler)
    requires RefsOk(w) && CallsOk(w) && FlagsOk(w) && h !in w.used && handler.pc.Eligibility? && handler.kind.Submit?
    ensures Effect(w, Enter(w, h, handler), h)
  {}

  lemma EnterLocal(w: World, h: HandlerId, handler: Handler)
    requires RefsOk(w) && CallsOk(w) && FlagsOk(w) && h !in w.used && handler.pc.Eligibility? && handler.kind.Submit?
    ensures Local(w, Enter(w, h, handler), h)
  {}

  lemma EnterSteps(w: World, h: HandlerId, handler: Handler)
    requires RefsOk(w) && CallsOk(w) && FlagsOk(w) && h !in w.used && handler.pc.Eligibility? && handler.kind.Submit?
    ensures Effect(w, Enter(w, h, handler), h) && Local(w, Enter(w, h, handler), h)
  {
    EnterEffect(w, h, handler);
    EnterLocal(w, h, handler);
    hide *;
  }

  lemma RecoverEffect(w: World, h: HandlerId, id: Key, fingerprint: Fingerprint, ref: Ref)
    requires RefsOk(w) && CallsOk(w) && FlagsOk(w) && h !in w.used
    requires ref in w.heap && ref.id == id && w.heap[ref].fingerprint == fingerprint
    ensures Effect(w, Recover(w, h, id, fingerprint, ref), h)
  {}

  lemma RecoverLocal(w: World, h: HandlerId, id: Key, fingerprint: Fingerprint, ref: Ref)
    requires RefsOk(w) && CallsOk(w) && FlagsOk(w) && h !in w.used
    requires ref in w.heap && ref.id == id && w.heap[ref].fingerprint == fingerprint
    ensures Local(w, Recover(w, h, id, fingerprint, ref), h)
  {}

  lemma RecoverSteps(w: World, h: HandlerId, id: Key, fingerprint: Fingerprint, ref: Ref)
    requires RefsOk(w) && CallsOk(w) && FlagsOk(w) && h !in w.used
    requires ref in w.heap && ref.id == id && w.heap[ref].fingerprint == fingerprint
    ensures Effect(w, Recover(w, h, id, fingerprint, ref), h) && Local(w, Recover(w, h, id, fingerprint, ref), h)
  {
    RecoverEffect(w, h, id, fingerprint, ref);
    RecoverLocal(w, h, id, fingerprint, ref);
    hide *;
  }

  lemma WatchEffect(w: World, h: HandlerId, id: Key, ref: Ref)
    requires RefsOk(w) && CallsOk(w) && FlagsOk(w) && h !in w.used && ref in w.heap && ref.id == id
    ensures Effect(w, Watch(w, h, id, ref), h)
  {}

  lemma WatchLocal(w: World, h: HandlerId, id: Key, ref: Ref)
    requires RefsOk(w) && CallsOk(w) && FlagsOk(w) && h !in w.used && ref in w.heap && ref.id == id
    ensures Local(w, Watch(w, h, id, ref), h)
  {}

  lemma WatchSteps(w: World, h: HandlerId, id: Key, ref: Ref)
    requires RefsOk(w) && CallsOk(w) && FlagsOk(w) && h !in w.used && ref in w.heap && ref.id == id
    ensures Effect(w, Watch(w, h, id, ref), h) && Local(w, Watch(w, h, id, ref), h)
  {
    WatchEffect(w, h, id, ref);
    WatchLocal(w, h, id, ref);
    hide *;
  }

  lemma TakeOverEffect(w: World, h: HandlerId, ref: Ref)
    requires RefsOk(w) && CallsOk(w) && FlagsOk(w) && h in w.handlers && HandlerOk(w, h)
    requires w.handlers[h].pc.Eligibility?
    requires ref in w.heap && ref.id == w.handlers[h].id && w.heap[ref].fingerprint == w.handlers[h].kind.fingerprint
    ensures Effect(w, TakeOver(w, h, ref), h)
  {}

  lemma TakeOverLocal(w: World, h: HandlerId, ref: Ref)
    requires RefsOk(w) && CallsOk(w) && FlagsOk(w) && h in w.handlers && HandlerOk(w, h)
    requires w.handlers[h].pc.Eligibility?
    requires ref in w.heap && ref.id == w.handlers[h].id && w.heap[ref].fingerprint == w.handlers[h].kind.fingerprint
    ensures Local(w, TakeOver(w, h, ref), h)
  {}

  lemma TakeOverSteps(w: World, h: HandlerId, ref: Ref)
    requires RefsOk(w) && CallsOk(w) && FlagsOk(w) && h in w.handlers && HandlerOk(w, h)
    requires w.handlers[h].pc.Eligibility?
    requires ref in w.heap && ref.id == w.handlers[h].id && w.heap[ref].fingerprint == w.handlers[h].kind.fingerprint
    ensures Effect(w, TakeOver(w, h, ref), h) && Local(w, TakeOver(w, h, ref), h)
  {
    TakeOverEffect(w, h, ref);
    TakeOverLocal(w, h, ref);
    hide *;
  }

  lemma ReserveEffect(w: World, h: HandlerId, now: int)
    requires RefsOk(w) && EntriesOk(w) && (forall b :: b in w.creator ==> b.n < w.next)
    requires h in w.handlers && w.handlers[h].kind.Submit? && w.handlers[h].id !in w.memory
    ensures Effect(w, Reserve(w, h, now), h)
  {}

  lemma ReserveLocal(w: World, h: HandlerId, now: int)
    requires RefsOk(w) && EntriesOk(w) && CallsOk(w) && FlagsOk(w)
    requires h in w.handlers && HandlerOk(w, h) && w.handlers[h].pc.Eligibility?
    ensures Local(w, Reserve(w, h, now), h)
  {
    ReserveStands(w, h, now);
    hide HandlerOk, Stands, CallsOk, Count;
  }

  lemma ReserveStands(w: World, h: HandlerId, now: int)
    requires CallsOk(w) && h in w.handlers && HandlerOk(w, h) && w.handlers[h].pc.Eligibility?
    ensures var u := Reserve(w, h, now); h in u.handlers && HandlerOk(u, h) && Stands(u, h)
    ensures forall b :: b in w.creator ==> b.n < w.next
  {
    assert Stands(w, h);
  }

  lemma CallUpdateStatusEffect(w: World, h: HandlerId, ref: Ref)
    requires RefsOk(w) && CallsOk(w) && FlagsOk(w) && h in w.handlers && HandlerOk(w, h)
             && w.handlers[h].pc == Complete(ref, false)
    requires !w.heap[ref].statusUpdated
    ensures Effect(w, CallUpdateStatus(w, h, ref), h)
  {
    assert MayUpdate(w, h) && !MayUpdate(CallUpdateStatus(w, h, ref), h);
    hide MayUpdate, CallsOk, FlagsOk, RefsOk, HandlerOk, Count;
  }

  lemma CallUpdateStatusLocal(w: World, h: HandlerId, ref: Ref)
    requires RefsOk(w) && CallsOk(w) && FlagsOk(w) && h in w.handlers && HandlerOk(w, h)
             && w.handlers[h].pc == Complete(ref, false)
    requires !w.heap[ref].statusUpdated
    ensures Local(w, CallUpdateStatus(w, h, ref), h)
  {}

  lemma CallUpdateStatusSteps(w: World, h: HandlerId, ref: Ref)
    requires RefsOk(w) && CallsOk(w) && FlagsOk(w) && h in w.handlers && HandlerOk(w, h)
             && w.handlers[h].pc == Complete(ref, false)
    requires !w.heap[ref].statusUpdated
    ensures Effect(w, CallUpdateStatus(w, h, ref), h) && Local(w, CallUpdateStatus(w, h, ref), h)
  {
    CallUpdateStatusEffect(w, h, ref);
    CallUpdateStatusLocal(w, h, ref);
    hide *;
  }

  lemma CallIncEffect(w: World, h: HandlerId, ref: Ref, counter: Counter)
    requires RefsOk(w) && CallsOk(w) && FlagsOk(w) && h in w.handlers && HandlerOk(w, h) && w.handlers[h].pc.Complete?
    requires w.handlers[h].pc.ref == ref && w.heap[ref].statusUpdated
    ensures Effect(w, CallInc(w, h, ref, counter), h)
  {}

  lemma CallIncLocal(w: World, h: HandlerId, ref: Ref, counter: Counter)
    requires RefsOk(w) && CallsOk(w) && FlagsOk(w) && h in w.handlers && HandlerOk(w, h) && w.handlers[h].pc.Complete?
    requires w.handlers[h].pc.ref == ref && w.heap[ref].statusUpdated
    ensures Local(w, CallInc(w, h, ref, counter), h)
  {}

  lemma CallIncSteps(w: World, h: HandlerId, ref: Ref, counter: Counter)
    requires RefsOk(w) && CallsOk(w) && FlagsOk(w) && h in w.handlers && HandlerOk(w, h) && w.handlers[h].pc.Complete?
    requires w.handlers[h].pc.ref == ref && w.heap[ref].statusUpdated
    ensures Effect(w, CallInc(w, h, ref, counter), h) && Local(w, CallInc(w, h, ref, counter), h)
  {
    CallIncEffect(w, h, ref, counter);
    CallIncLocal(w, h, ref, counter);
    hide *;
  }

  lemma CountIncEffect(w: World, h: HandlerId, ref: Ref, counter: Counter)
    requires ref in w.heap
    ensures Effect(w, CountInc(w, ref, counter), h)
  {
    CountsRise(w, ref, counter);
    hide Count;
  }

  lemma CountsRise(w: World, ref: Ref, counter: Counter)
    requires ref in w.heap
    ensures forall k :: Count(w.returned, k) <= Count(CountInc(w, ref, counter).returned, k)
  {}

  ghost predicate BackedAt(w: World, ref: Ref) {
    ref in w.heap && Backed(w, w.heap[ref]) && forall k :: k in w.returned ==> w.returned[k] >= 1
  }

  lemma CountIncBacks(w: World, ref: Ref, counter: Counter)
    requires ref in w.heap && Backed(w, w.heap[ref]) && (forall k :: k in w.returned ==> w.returned[k] >= 1)
    ensures BackedAt(CountInc(w, ref, counter), ref)
  {}

  lemma CountIncLocal(w: World, h: HandlerId, ref: Ref, counter: Counter)
    requires RefsOk(w) && EntriesOk(w) && CallsOk(w) && FlagsOk(w)
    requires h in w.handlers && HandlerOk(w, h) && w.handlers[h].pc == AwaitInc(ref, counter)
    ensures Local(w, CountInc(w, ref, counter), h)
  {
    CountIncBacks(w, ref, counter);
    CountIncStands(w, h, ref, counter);
    hide Backed, HandlerOk, Stands, CallsOk, Count;
  }

  lemma CountIncStands(w: World, h: HandlerId, ref: Ref, counter: Counter)
    requires CallsOk(w) && h in w.handlers && HandlerOk(w, h) && w.handlers[h].pc == AwaitInc(ref, counter)
    ensures var u := CountInc(w, ref, counter); h in u.handlers && HandlerOk(u, h) && Stands(u, h)
    ensures forall b :: b in w.creator ==> b.n < w.next
  {
    assert Stands(w, h);
    hide Drives, Silent, Count;
  }

  lemma EndSteps(w: World, h: HandlerId)
    requires RefsOk(w) && CallsOk(w) && FlagsOk(w)
    ensures Effect(w, End(w, h), h) && Local(w, End(w, h), h)
  {}

  lemma FailEffect(w: World, h: HandlerId, k: Increment)
    requires RefsOk(w) && CallsOk(w) && FlagsOk(w)
    ensures Effect(w, End(FailInc(w, k), h), h)
  {}

  lemma FailLocal(w: World, h: HandlerId, k: Increment)
    requires RefsOk(w) && CallsOk(w) && FlagsOk(w)
    ensures Local(w, End(FailInc(w, k), h), h)
  {}

  lemma FailSteps(w: World, h: HandlerId, k: Increment)
    requires RefsOk(w) && CallsOk(w) && FlagsOk(w)
    ensures Effect(w, End(FailInc(w, k), h), h) && Local(w, End(FailInc(w, k), h), h)
  {
    FailEffect(w, h, k);
    FailLocal(w, h, k);
    hide *;
  }

  lemma GoEffect(w: World, h: HandlerId, pc: Pc)
    requires RefsOk(w) && CallsOk(w) && FlagsOk(w) && h in w.handlers && HandlerOk(w, h)
             && HasRef(w.handlers[h].pc) && HasRef(pc)
    requires pc.ref == w.handlers[h].pc.ref
    requires pc.AwaitJournal? || pc.AwaitResult?
             || (pc.Complete? && (w.heap[pc.ref].statusUpdated || MayUpdate(w, h)))
    ensures Effect(w, Go(w, h, pc), h)
  {}

  lemma GoLocal(w: World, h: HandlerId, pc: Pc)
    requires RefsOk(w) && CallsOk(w) && FlagsOk(w) && h in w.handlers && HandlerOk(w, h)
             && HasRef(w.handlers[h].pc) && HasRef(pc)
    requires pc.ref == w.handlers[h].pc.ref
    requires pc.AwaitJournal? || pc.AwaitResult?
             || (pc.Complete? && (w.heap[pc.ref].statusUpdated || MayUpdate(w, h)))
    ensures Local(w, Go(w, h, pc), h)
  {}

  lemma GoSteps(w: World, h: HandlerId, pc: Pc)
    requires RefsOk(w) && CallsOk(w) && FlagsOk(w) && h in w.handlers && HandlerOk(w, h)
             && HasRef(w.handlers[h].pc) && HasRef(pc)
    requires pc.ref == w.handlers[h].pc.ref
    requires pc.AwaitJournal? || pc.AwaitResult?
             || (pc.Complete? && (w.heap[pc.ref].statusUpdated || MayUpdate(w, h)))
    ensures Effect(w, Go(w, h, pc), h) && Local(w, Go(w, h, pc), h)
  {
    GoEffect(w, h, pc);
    GoLocal(w, h, pc);
    hide *;
  }

  lemma PutEffect(w: World, h: HandlerId, ref: Ref, entry: Entry)
    requires RefsOk(w) && EntriesOk(w) && CallsOk(w) && FlagsOk(w) && ref in w.heap
             && Progress(w.heap[ref], entry) && Backed(w, entry)
    requires h in w.handlers && HandlerOk(w, h) && HasRef(w.handlers[h].pc) && w.handlers[h].pc.ref == ref
    ensures Effect(w, Put(w, ref, entry), h)
  {}

  lemma PutLocal(w: World, h: HandlerId, ref: Ref, entry: Entry)
    requires RefsOk(w) && EntriesOk(w) && CallsOk(w) && FlagsOk(w) && ref in w.heap
             && Progress(w.heap[ref], entry) && Backed(w, entry)
    requires h in w.handlers && HandlerOk(w, h) && HasRef(w.handlers[h].pc) && w.handlers[h].pc.ref == ref
    ensures Local(w, Put(w, ref, entry), h)
  {
    PutStands(w, h, ref, entry);
    hide HandlerOk, Stands, CallsOk, Count, Progress;
  }

  lemma PutStands(w: World, h: HandlerId, ref: Ref, entry: Entry)
    requires CallsOk(w) && ref in w.heap && Progress(w.heap[ref], entry)
    requires h in w.handlers && HandlerOk(w, h) && HasRef(w.handlers[h].pc) && w.handlers[h].pc.ref == ref
    ensures var u := Put(w, ref, entry); HandlerOk(u, h) && Stands(u, h)
    ensures entry.birth == w.heap[ref].birth && forall b :: b in w.creator ==> b.n < w.next
  {
    assert Stands(w, h);
    hide Drives, Silent;
  }

  lemma PutSteps(w: World, h: HandlerId, ref: Ref, entry: Entry)
    requires RefsOk(w) && EntriesOk(w) && CallsOk(w) && FlagsOk(w) && ref in w.heap
             && Progress(w.heap[ref], entry) && Backed(w, entry)
    requires h in w.handlers && HandlerOk(w, h) && HasRef(w.handlers[h].pc) && w.handlers[h].pc.ref == ref
    ensures Effect(w, Put(w, ref, entry), h) && Local(w, Put(w, ref, entry), h)
  {
    PutEffect(w, h, ref, entry);
    PutLocal(w, h, ref, entry);
    hide *;
  }

  lemma SaveShape(w: World, kept: set<Key>, fault: Fault)
    requires Shape(w)
    ensures Shape(Save(w, kept, fault))
  {}

  lemma SaveAdds(w: World, kept: set<Key>, fault: Fault)
    requires RefsOk(w) && AddsOk(w) && RefsOk(Save(w, kept, fault))
    ensures AddsOk(Save(w, kept, fault))
  {
    var u := Save(w, kept, fault);
    forall b | b in u.adds ensures b.n < u.next && (b in u.evicted || Resident(u, b)) {
      assert b in w.evicted || Resident(w, b);
      if b !in w.evicted && b.id !in kept {
        assert b in Births(w, w.memory.Keys - kept);
      }
    }
  }

  /** Only completed entries go. */
  ghost predicate DropsComplete(w: World, kept: set<Key>)
    requires RefsOk(w)
  {
    forall id :: id in w.memory && id !in kept ==> w.heap[w.memory[id]].stamp.complete
  }

  lemma PrunedDropsComplete(w: World, kept: set<Key>, limit: nat)
    requires RefsOk(w) && Pruned(StampsOf(w), kept, limit)
    ensures DropsComplete(w, kept)
  {
    forall id | id in w.memory && id !in kept ensures w.heap[w.memory[id]].stamp.complete {
      assert id in StampsOf(w);
    }
  }

  lemma SavingDropsComplete(w: World, e: Event, limit: nat)
    requires Enabled(w, e, limit) && Saves(w, e)
    ensures RefsOk(BeforeSave(w, e)) && DropsComplete(BeforeSave(w, e), e.kept)
  {
    PrunedDropsComplete(BeforeSave(w, e), e.kept, limit);
    hide BeforeSave, Ready, Guard, Saves, Pruned, StampsOf, RefsOk, DropsComplete;
  }

  lemma SaveEvicts(w: World, kept: set<Key>, fault: Fault)
    requires RefsOk(w) && FlagsOk(w) && DropsComplete(w, kept)
    ensures forall b, c :: b in Save(w, kept, fault).evicted ==> Count(w.returned, Increment(b, c)) >= 1
  {
    forall b, c | b in Save(w, kept, fault).evicted ensures Count(w.returned, Increment(b, c)) >= 1 {
      if b !in w.evicted {
        var id :| id in w.memory && id !in kept && w.heap[w.memory[id]].birth == b;
        assert Backed(w, w.heap[w.memory[id]]);
        assert c.ProblemSubmits? || c.UserSubmits?;
      }
    }
  }

  lemma SaveCalls(w: World, kept: set<Key>, fault: Fault)
    requires RefsOk(w) && CallsOk(w) && FlagsOk(w) && DropsComplete(w, kept)
    ensures CallsOk(Save(w, kept, fault)) && FlagsOk(Save(w, kept, fault))
  {
    SaveEvicts(w, kept, fault);
    hide Count, Births, DropsComplete;
  }

  lemma SaveKeeps(w: World, kept: set<Key>, fault: Fault)
    requires Inv(w) && RefsOk(w) && DropsComplete(w, kept)
    ensures Inv(Save(w, kept, fault))
  {
    hide *;
    Unfold(w);
    SaveShape(w, kept, fault);
    UnfoldShape(Save(w, kept, fault));
    SaveAdds(w, kept, fault);
    SaveCalls(w, kept, fault);
    Fold(Save(w, kept, fault));
  }

  lemma RestartShape(w: World)
    requires Shape(w)
    ensures Shape(Restart(w))
  {}

  lemma RestartAdds(w: World)
    requires RefsOk(w) && AddsOk(w) && RefsOk(Restart(w))
    ensures AddsOk(Restart(w))
  {}

  lemma RestartCalls(w: World)
    requires CallsOk(w)
    ensures CallsOk(Restart(w))
  {
    hide Stands;
  }

  lemma RestartFlags(w: World)
    requires FlagsOk(w)
    ensures FlagsOk(Restart(w))
  {}

  lemma RestartKeeps(w: World)
    requires Inv(w)
    ensures Inv(Restart(w))
  {
    hide *;
    Unfold(w);
    RestartShape(w);
    UnfoldShape(Restart(w));
    RestartAdds(w);
    RestartCalls(w);
    RestartFlags(w);
    Fold(Restart(w));
  }

  lemma BeforeKeeps(w: World, e: Event)
    requires Inv(w) && Ready(w) && Guard(w, e)
    ensures Inv(BeforeSave(w, e))
  {
    if e.Crash? {
      RestartKeeps(w);
    } else {
      hide *;
      BeforeSteps(w, e);
      StepKeeps(w, BeforeSave(w, e), e.h);
    }
  }

  lemma BeforeSteps(w: World, e: Event)
    requires Inv(w) && Ready(w) && Guard(w, e) && !e.Crash?
    ensures Effect(w, BeforeSave(w, e), e.h) && Local(w, BeforeSave(w, e), e.h)
  {
    hide Inv, Shape, RefsOk, EntriesOk, HandlerOk, AddsOk, CallsOk, FlagsOk, Effect, Local, MayUpdate, Stands,
      Drives, Silent, Ready;
    Unfold(w);
    match e
    case StartSubmit(h, id, fingerprint, leased, _, _) =>
      Unused(w, h);
      ArriveFinds(w, id, fingerprint);
      match Arrive(w, id, fingerprint) {
        case Recovers(ref) => RecoverSteps(w, h, id, fingerprint, ref);
        case Proceeds =>
          NoticeSteps(w, h);
          EnterSteps(w, h, Handler(id, Submit(fingerprint), Eligibility));
        case _ => NoticeSteps(w, h);
      }
    case Eligible(_, _, _, _, _, _) => EligibleSteps(w, e);
    case StartStatus(h, id) =>
      Unused(w, h);
      NoticeSteps(w, h);
      if id in w.memory {
        AboutMemory(w, id);
        WatchSteps(w, h, id, w.memory[id]);
      }
    case _ => HoldingSteps(w, e);
  }

  lemma EligibleSteps(w: World, e: Event)
    requires Shape(w) && CallsOk(w) && FlagsOk(w) && Ready(w) && Guard(w, e) && e.Eligible?
    ensures Effect(w, BeforeSave(w, e), e.h) && Local(w, BeforeSave(w, e), e.h)
  {
    hide Shape, RefsOk, EntriesOk, HandlerOk, CallsOk, FlagsOk, Effect, Local, MayUpdate, Stands, Drives, Silent,
      Recheck;
    var h := e.h;
    AboutHandler(w, h);
    CallsBirths(w);
    RecheckFinds(w, w.handlers[h].id, w.handlers[h].kind.fingerprint, e.inWindow);
    EndSteps(w, h);
    match Recheck(w, w.handlers[h].id, w.handlers[h].kind.fingerprint, e.inWindow)
    case TakesOver(ref) => TakeOverSteps(w, h, ref);
    case Reserves =>
      ReserveEffect(w, h, e.now);
      ReserveLocal(w, h, e.now);
    case _ =>
  }

  lemma CallsBirths(w: World)
    requires CallsOk(w)
    ensures forall b :: b in w.creator ==> b.n < w.next
  {}

  /** The events of a handler that holds an entry. */
  lemma HoldingSteps(w: World, e: Event)
    requires Inv(w) && Ready(w) && Guard(w, e)
    requires !e.StartSubmit? && !e.Eligible? && !e.StartStatus? && !e.Crash?
    ensures Effect(w, BeforeSave(w, e), e.h) && Local(w, BeforeSave(w, e), e.h)
  {
    hide Inv, Shape, RefsOk, EntriesOk, HandlerOk, AddsOk, CallsOk, FlagsOk, Effect, Local, MayUpdate, Stands,
      Drives, Silent, Ready, Backed;
    Unfold(w);
    var h := e.h;
    AboutHandler(w, h);
    EndSteps(w, h);
    match e
    case Continue(_, _, _) => ContinueSteps(w, e);
    case AddReturned(_, rid, _, _) => PutFlags(w, h, Some(rid), false);
    case JournalRead(_, _, _, _) => PutFlags(w, h, w.heap[w.handlers[h].pc.ref].rid, true);
    case StatusReturned(_, _, _) => PutFlags(w, h, w.heap[w.handlers[h].pc.ref].rid, true);
    case IncReturned(_, _, _) =>
      CountIncEffect(w, h, w.handlers[h].pc.ref, w.handlers[h].pc.counter);
      CountIncLocal(w, h, w.handlers[h].pc.ref, w.handlers[h].pc.counter);
    case RecordsRead(_, found) =>
      if found.Some? {
        GoSteps(w, h, AwaitResult(w.handlers[h].pc.ref, found.value));
      }
    case ResultRead(_, _, _, _) => PutFlags(w, h, Some(w.handlers[h].pc.found), true);
    case Threw(_) =>
      if w.handlers[h].pc.AwaitInc? {
        FailSteps(w, h, Increment(w.heap[w.handlers[h].pc.ref].birth, w.handlers[h].pc.counter));
      }
  }

  lemma ContinueSteps(w: World, e: Event)
    requires RefsOk(w) && EntriesOk(w) && CallsOk(w) && FlagsOk(w) && Ready(w) && Guard(w, e) && e.Continue?
             && HandlerOk(w, e.h) && w.handlers[e.h].pc.ref in w.heap
    ensures Effect(w, BeforeSave(w, e), e.h) && Local(w, BeforeSave(w, e), e.h)
  {
    hide Ready, RefsOk, EntriesOk, HandlerOk, CallsOk, FlagsOk, Effect, Local, MayUpdate, Stands, Drives, Silent,
      Backed;
    var h, ref := e.h, w.handlers[e.h].pc.ref;
    match NextEffect(w.heap[ref], w.handlers[h].pc.recovering)
    case ReadJournal => GoSteps(w, h, AwaitJournal(ref));
    case UpdateStatus => CallUpdateStatusSteps(w, h, ref);
    case Inc(counter) => CallIncSteps(w, h, ref, counter);
    case Finish =>
      FinishBacks(w, ref, w.handlers[h].pc.recovering);
      PutSteps(w, h, ref, w.heap[ref].(stamp := w.heap[ref].stamp.(complete := true)));
  }

  lemma PutFlags(w: World, h: HandlerId, rid: Option<RecordId>, status: bool)
    requires RefsOk(w) && EntriesOk(w) && CallsOk(w) && FlagsOk(w)
    requires h in w.handlers && HandlerOk(w, h) && HasRef(w.handlers[h].pc)
    requires w.handlers[h].pc.ref in w.heap
    requires w.heap[w.handlers[h].pc.ref].rid.Some? ==> rid.Some?
    ensures var ref := w.handlers[h].pc.ref;
            var entry := w.heap[ref];
            var put := Put(w, ref, entry.(rid := rid, statusUpdated := entry.statusUpdated || status));
            Effect(w, put, h) && Local(w, put, h)
  {
    var ref := w.handlers[h].pc.ref;
    var entry := w.heap[ref];
    assert Backed(w, entry);
    PutSteps(w, h, ref, entry.(rid := rid, statusUpdated := entry.statusUpdated || status));
  }

  lemma FinishBacks(w: World, ref: Ref, recovering: bool)
    requires FlagsOk(w) && ref in w.heap && NextEffect(w.heap[ref], recovering).Finish?
    ensures Backed(w, w.heap[ref].(stamp := w.heap[ref].stamp.(complete := true)))
  {
    assert Backed(w, w.heap[ref]);
  }

  lemma AboutHandler(w: World, h: HandlerId)
    requires Shape(w) && h in w.handlers
    ensures HandlerOk(w, h) && EntriesOk(w)
    ensures HasRef(w.handlers[h].pc) ==> w.handlers[h].pc.ref in w.heap
  {}

  lemma AboutMemory(w: World, id: Key)
    requires RefsOk(w) && id in w.memory
    ensures w.memory[id] in w.heap && w.memory[id].id == id
  {}

  lemma Unused(w: World, h: HandlerId)
    requires Shape(w) && h !in w.used
    ensures h !in w.handlers
  {
    assert h in w.handlers ==> HandlerOk(w, h);
  }

  lemma AfterGo(w: World, h: HandlerId, recovering: bool)
    requires Inv(w) && h in w.handlers && HasRef(w.handlers[h].pc) && w.handlers[h].pc.ref in w.heap
    requires w.heap[w.handlers[h].pc.ref].statusUpdated || (w.handlers[h].pc.AwaitAdd? && !recovering)
    ensures Inv(Go(w, h, Complete(w.handlers[h].pc.ref, recovering)))
  {
    Unfold(w);
    AboutHandler(w, h);
    assert w.heap[w.handlers[h].pc.ref].statusUpdated || MayUpdate(w, h);
    hide Inv, Shape, RefsOk, EntriesOk, HandlerOk, AddsOk, CallsOk, FlagsOk, Effect, Local, MayUpdate, Stands;
    var u := Go(w, h, Complete(w.handlers[h].pc.ref, recovering));
    GoSteps(w, h, Complete(w.handlers[h].pc.ref, recovering));
    StepKeeps(w, u, h);
  }

  lemma AddsCounted(w: World, b: Birth)
    requires Inv(w) && RefsOk(w) && b !in w.adds && b.n < w.next && Resident(w, b)
    ensures Inv(Added(w, b))
  {
    Unfold(w);
    AddedShape(w, b);
    AddedAdds(w, b);
    AddedCalls(w, b);
    hide *;
    Fold(Added(w, b));
  }

  lemma AddedShape(w: World, b: Birth)
    requires Shape(w)
    ensures Shape(Added(w, b)) && RefsOk(Added(w, b))
  {}

  lemma AddedAdds(w: World, b: Birth)
    requires RefsOk(w) && AddsOk(w) && b !in w.adds && b.n < w.next && Resident(w, b) && RefsOk(Added(w, b))
    ensures AddsOk(Added(w, b))
  {
    var u := Added(w, b);
    forall x | x in u.adds ensures x.n < u.next && (x in u.evicted || Resident(u, x)) {
      assert x == b || x in w.adds;
    }
  }

  lemma AddedCalls(w: World, b: Birth)
    requires CallsOk(w) && FlagsOk(w)
    ensures CallsOk(Added(w, b)) && FlagsOk(Added(w, b))
  {}

  /** What the save of a reservation leaves: the entry, still without record, in memory and on disk. */
  ghost predicate Durable(s: World, h: HandlerId, b: Birth, fingerprint: Fingerprint) {
    && RefsOk(s) && Resident(s, b) && s.disk[b.id].fingerprint == fingerprint && s.disk[b.id].rid.None?
    && b.n < s.next && h in s.handlers && s.handlers[h].pc == AwaitAdd(Ref(b.id, b.n))
  }

  /** The reservation survives its own save, so the add it precedes is already durable; and if the id
      had been added before, that entry has been evicted. */
  lemma ReservedIsDurable(w: World, e: Event, limit: nat)
    requires Inv(w) && Enabled(w, e, limit) && Saves(w, e) && e.Eligible? && e.fault.NoFault?
    ensures var b := Birth(w.handlers[e.h].id, w.next);
            var s := Save(BeforeSave(w, e), e.kept, e.fault);
            && b.id !in w.memory && b !in s.adds && s.adds == w.adds
            && Durable(s, e.h, b, w.handlers[e.h].kind.fingerprint)
    ensures forall x :: x in w.adds && x.id == w.handlers[e.h].id ==> x in w.evicted
  {
    var id := w.handlers[e.h].id;
    RecheckFinds(w, id, w.handlers[e.h].kind.fingerprint, e.inWindow);
    assert BeforeSave(w, e) == Reserve(w, e.h, e.now);
    AddsResident(w);
    hide BeforeSave, Inv, Ready, Recheck;
    ReservationKept(w, e.h, e.now, e.kept, e.fault, limit);
  }

  lemma AddsResident(w: World)
    requires Inv(w)
    ensures forall b :: b in w.adds ==> b.n < w.next && (b in w.evicted || b.id in w.memory)
  {
    hide Shape, CallsOk, FlagsOk;
  }

  lemma ReservationKept(w: World, h: HandlerId, now: int, kept: set<Key>, fault: Fault, limit: nat)
    requires h in w.handlers && w.handlers[h].kind.Submit? && fault.NoFault?
    requires RefsOk(Reserve(w, h, now)) && Pruned(StampsOf(Reserve(w, h, now)), kept, limit)
    ensures var s := Save(Reserve(w, h, now), kept, fault);
            s.adds == w.adds && Durable(s, h, Birth(w.handlers[h].id, w.next), w.handlers[h].kind.fingerprint)
  {
    var id := w.handlers[h].id;
    assert StampsOf(Reserve(w, h, now))[id] == Stamp(false, now);
  }

  lemma HoldsAfterSave(w: World, e: Event, limit: nat)
    requires Inv(w) && Enabled(w, e, limit) && Saves(w, e)
    ensures e.StartSubmit? || e.Eligible? || e.AddReturned? || e.Continue? || e.JournalRead?
            || e.StatusReturned? || e.IncReturned? || e.ResultRead?
    ensures RefsOk(BeforeSave(w, e))
    ensures var s := Save(BeforeSave(w, e), e.kept, e.fault);
            && e.h in s.handlers && HasRef(s.handlers[e.h].pc)
            && (e.AddReturned? ==> s.handlers[e.h].pc.AwaitAdd?)
            && (e.JournalRead? || e.StatusReturned? || e.IncReturned? || e.ResultRead? ==>
                  s.handlers[e.h].pc.ref in s.heap && s.heap[s.handlers[e.h].pc.ref].statusUpdated)
  {
    assert e.h in w.handlers ==> HandlerOk(w, e.h) && Stands(w, e.h);
  }

  lemma ApplyKeeps(w: World, e: Event, limit: nat)
    requires Inv(w) && Enabled(w, e, limit)
    ensures Inv(Apply(w, e, limit))
  {
    BeforeKeeps(w, e);
    if Saves(w, e) {
      SavedKeeps(w, e, limit);
    }
    hide Inv, BeforeSave, Save, AfterSave, Saves, Guard, Ready, RefsOk, Pruned, StampsOf;
  }

  lemma SavedKeeps(w: World, e: Event, limit: nat)
    requires Inv(w) && Enabled(w, e, limit) && Saves(w, e) && Inv(BeforeSave(w, e))
    ensures Inv(AfterSave(Save(BeforeSave(w, e), e.kept, e.fault), e))
  {
    HoldsAfterSave(w, e, limit);
    SavingDropsComplete(w, e, limit);
    hide BeforeSave, Ready, Guard, Saves, Pruned, StampsOf, Save, AfterSave, RefsOk, Inv, DropsComplete;
    SaveKeeps(BeforeSave(w, e), e.kept, e.fault);
    if e.Eligible? && e.fault.NoFault? {
      SavedReserving(w, e, limit);
    } else {
      AfterKeeps(e, Save(BeforeSave(w, e), e.kept, e.fault));
    }
  }

  lemma SavedReserving(w: World, e: Event, limit: nat)
    requires Inv(w) && Enabled(w, e, limit) && Saves(w, e) && e.Eligible? && e.fault.NoFault?
    requires RefsOk(BeforeSave(w, e)) && Inv(Save(BeforeSave(w, e), e.kept, e.fault))
    ensures Inv(AfterSave(Save(BeforeSave(w, e), e.kept, e.fault), e))
  {
    ReservedIsDurable(w, e, limit);
    hide BeforeSave, Ready, Saves, Pruned, StampsOf, Save, AfterSave, RefsOk, Inv, Durable;
    var s := Save(BeforeSave(w, e), e.kept, e.fault);
    AfterReserving(e, s, Birth(w.handlers[e.h].id, w.next), w.handlers[e.h].kind.fingerprint);
  }

  lemma AfterReserving(e: Event, s: World, b: Birth, fingerprint: Fingerprint)
    requires Inv(s) && e.Eligible? && e.fault.NoFault? && Durable(s, e.h, b, fingerprint) && b !in s.adds
    ensures Inv(AfterSave(s, e))
  {
    hide Inv, RefsOk, Resident;
    AddsCounted(s, b);
  }

  lemma AfterKeeps(e: Event, s: World)
    requires e.StartSubmit? || e.Eligible? || e.AddReturned? || e.Continue? || e.JournalRead?
             || e.StatusReturned? || e.IncReturned? || e.ResultRead?
    requires Inv(s) && e.h in s.handlers && HasRef(s.handlers[e.h].pc) && !(e.Eligible? && e.fault.NoFault?)
    requires e.AddReturned? ==> s.handlers[e.h].pc.AwaitAdd?
    requires e.JournalRead? || e.StatusReturned? || e.IncReturned? || e.ResultRead? ==>
               s.handlers[e.h].pc.ref in s.heap && s.heap[s.handlers[e.h].pc.ref].statusUpdated
    ensures Inv(AfterSave(s, e))
  {
    hide Inv, Shape, RefsOk, CallsOk, FlagsOk, AddsOk, HandlerOk, Effect, Local;
    var h := e.h;
    Unfold(s);
    AboutHandler(s, h);
    if !e.fault.NoFault? || e.Continue? {
      EndSteps(s, h);
      StepKeeps(s, End(s, h), h);
    } else if !e.StartSubmit? {
      AfterGo(s, h, e.JournalRead?);
    }
  }

  // ----- whole runs -----

  lemma {:induction false} RunKeeps(ws: seq<World>, es: seq<Event>, limit: nat, i: nat)
    requires IsRun(ws, es, limit) && i < |ws|
    ensures Inv(ws[i])
  {
    hide *;
    StartsEmpty(ws, es, limit);
    if i == 0 {
      InitialKeeps();
    } else {
      RunKeeps(ws, es, limit, i - 1);
      StepOf(ws, es, limit, i - 1);
      ApplyKeeps(ws[i - 1], es[i - 1], limit);
    }
  }

  lemma InitialKeeps()
    ensures Inv(INITIAL)
  {}

  lemma StartsEmpty(ws: seq<World>, es: seq<Event>, limit: nat)
    requires IsRun(ws, es, limit)
    ensures |ws| == |es| + 1 && ws[0] == INITIAL
  {
    hide Enabled, Apply;
  }

  lemma StepOf(ws: seq<World>, es: seq<Event>, limit: nat, i: nat)
    requires IsRun(ws, es, limit) && i < |es|
    ensures Enabled(ws[i], es[i], limit) && ws[i + 1] == Apply(ws[i], es[i], limit)
  {
    hide Enabled, Apply;
  }

  lemma SavingHolds(w: World, e: Event)
    requires Inv(w) && Ready(w) && Guard(w, e) && Saves(w, e)
    ensures var u := BeforeSave(w, e); e.h in u.handlers && HasRef(u.handlers[e.h].pc)
  {
    hide Inv, RefsOk;
  }

  /** The side conditions of `Enabled` exclude no reachable world: an event whose guard holds needs
      nothing but a legal pruning for its save, and there always is one. */
  lemma NothingIsExcluded(ws: seq<World>, es: seq<Event>, limit: nat, i: nat, e: Event)
    requires IsRun(ws, es, limit) && i < |ws|
    ensures Ready(ws[i])
    ensures Guard(ws[i], e) && !Saves(ws[i], e) ==> Enabled(ws[i], e, limit)
    ensures Guard(ws[i], e) && Saves(ws[i], e) ==>
              && RefsOk(BeforeSave(ws[i], e))
              && (Enabled(ws[i], e, limit) <==> Pruned(StampsOf(BeforeSave(ws[i], e)), e.kept, limit))
              && exists kept :: Pruned(StampsOf(BeforeSave(ws[i], e)), kept, limit)
  {
    RunKeeps(ws, es, limit, i);
    var w := ws[i];
    Unfold(w);
    if Guard(w, e) && Saves(w, e) {
      BeforeKeeps(w, e);
      Unfold(BeforeSave(w, e));
      SavingHolds(w, e);
      var kept := PruningExists(StampsOf(BeforeSave(w, e)), limit);
    }
    hide Inv, Ready, Guard, Saves, BeforeSave, RefsOk, Pruned, StampsOf, IsRun;
  }

  /** An event issues RecordModel.add exactly when it reserved a new entry and saved it. */
  ghost predicate IssuesAdd(w: World, e: Event)
    requires Ready(w) && Guard(w, e)
  {
    e.Eligible? && Saves(w, e) && e.fault.NoFault?
  }

  ghost function AddsOf(w: World, id: Key): set<Birth> {
    set b | b in w.adds && b.id == id
  }

  ghost function EvictedOf(w: World, id: Key): set<Birth> {
    set b | b in w.evicted && b.id == id
  }

  /** In every run, with any interleaving and any crashes: each reservation is added at most once;
      what was added and not evicted is in memory and on disk under one payload; so an id has at most
      one add more than evicted reservations. */
  lemma AtMostOneAdd(ws: seq<World>, es: seq<Event>, limit: nat, i: nat, id: Key)
    requires IsRun(ws, es, limit) && i < |ws|
    ensures Distinct(ws[i].adds) && RefsOk(ws[i])
    ensures forall b :: b in ws[i].adds ==> b in ws[i].evicted || Resident(ws[i], b)
    ensures |AddsOf(ws[i], id)| <= 1 + |EvictedOf(ws[i], id)|
  {
    RunKeeps(ws, es, limit, i);
    var w := ws[i];
    Unfold(w);
    hide IsRun, Inv, RefsOk, Shape, CallsOk, FlagsOk;
    var all := EvictedOf(w, id) + if id in w.memory then {w.heap[w.memory[id]].birth} else {};
    assert AddsOf(w, id) <= all;
    SubsetSize(AddsOf(w, id), all);
  }

  /** An entry object that is complete. */
  ghost predicate CompleteAs(w: World, r: Ref, b: Birth) {
    r in w.heap && w.heap[r].birth == b && w.heap[r].stamp.complete
  }

  /** What one event evicts: entries that were complete when it saved. */
  lemma EvictsComplete(w: World, e: Event, limit: nat, b: Birth) returns (r: Ref)
    requires Inv(w) && Enabled(w, e, limit) && b in Apply(w, e, limit).evicted && b !in w.evicted
    ensures CompleteAs(Apply(w, e, limit), r, b)
  {
    BeforeEvictsNothing(w, e);
    if Saves(w, e) {
      SavingDropsComplete(w, e, limit);
      hide BeforeSave, Ready, Guard, Saves, Pruned, StampsOf, Save, AfterSave, RefsOk, CompleteAs,
        DropsComplete, Inv;
      var u := BeforeSave(w, e);
      AfterSameStore(Save(u, e.kept, e.fault), e);
      r := DroppedComplete(u, e.kept, e.fault, b);
      CompleteStays(Save(u, e.kept, e.fault), AfterSave(Save(u, e.kept, e.fault), e), r, b);
    }
  }

  lemma BeforeEvictsNothing(w: World, e: Event)
    requires Inv(w) && Ready(w) && Guard(w, e)
    ensures BeforeSave(w, e).evicted == w.evicted
  {
    hide *;
    if !e.Crash? {
      BeforeSteps(w, e);
      EffectEvicts(w, BeforeSave(w, e), e.h);
    } else {
      RestartEvicts(w, e);
    }
  }

  lemma DroppedComplete(u: World, kept: set<Key>, fault: Fault, b: Birth) returns (r: Ref)
    requires RefsOk(u) && DropsComplete(u, kept) && b in Save(u, kept, fault).evicted && b !in u.evicted
    ensures CompleteAs(Save(u, kept, fault), r, b)
  {
    var id :| id in u.memory && id !in kept && u.heap[u.memory[id]].birth == b;
    r := u.memory[id];
  }

  ghost predicate SameStore(w: World, u: World) {
    u.heap == w.heap && u.memory == w.memory && u.disk == w.disk && u.evicted == w.evicted
  }

  lemma SameStoreAfter(w: World, h: HandlerId, pc: Pc, b: Birth)
    requires h in w.handlers
    ensures SameStore(w, End(w, h)) && SameStore(w, Go(w, h, pc)) && SameStore(w, Added(w, b)) && SameStore(w, w)
  {}

  lemma AfterSameStore(s: World, e: Event)
    requires e.StartSubmit? || e.Eligible? || e.AddReturned? || e.Continue? || e.JournalRead?
             || e.StatusReturned? || e.IncReturned? || e.ResultRead?
    requires e.h in s.handlers && HasRef(s.handlers[e.h].pc)
    ensures SameStore(s, AfterSave(s, e))
  {
    SameStoreAfter(s, e.h, Complete(s.handlers[e.h].pc.ref, e.JournalRead?), MadeFor(s.handlers[e.h].pc.ref));
    hide SameStore, End, Go, Added;
  }

  lemma CompleteStays(w: World, u: World, r: Ref, b: Birth)
    requires CompleteAs(w, r, b) && SameStore(w, u)
    ensures CompleteAs(u, r, b)
  {}

  lemma EffectEvicts(w: World, u: World, h: HandlerId)
    requires Effect(w, u, h)
    ensures u.evicted == w.evicted
  {}

  lemma RestartEvicts(w: World, e: Event)
    requires Ready(w) && Guard(w, e) && e.Crash?
    ensures BeforeSave(w, e).evicted == w.evicted
  {}

  /** Every evicted reservation was complete at some time before, each of its counter calls returned. */
  lemma {:induction false} EvictedWasComplete(ws: seq<World>, es: seq<Event>, limit: nat, i: nat, b: Birth)
    returns (j: nat, r: Ref)
    requires IsRun(ws, es, limit) && i < |ws| && b in ws[i].evicted
    ensures j <= i && CompleteAs(ws[j], r, b)
    ensures forall c :: Count(ws[i].returned, Increment(b, c)) >= 1
  {
    RunKeeps(ws, es, limit, i);
    EvictedReturned(ws[i], b);
    hide *;
    StartsEmpty(ws, es, limit);
    NoneEvicted();
    StepOf(ws, es, limit, i - 1);
    if b in ws[i - 1].evicted {
      j, r := EvictedWasComplete(ws, es, limit, i - 1, b);
    } else {
      RunKeeps(ws, es, limit, i - 1);
      j := i;
      r := EvictsComplete(ws[i - 1], es[i - 1], limit, b);
    }
  }

  lemma NoneEvicted()
    ensures INITIAL.evicted == {}
  {}

  lemma EvictedReturned(w: World, b: Birth)
    requires Inv(w) && b in w.evicted
    ensures forall c :: Count(w.returned, Increment(b, c)) >= 1
  {
    hide Shape, AddsOk, CallsOk, Count;
  }

  /** An add is issued only after its reservation reached the disk, for an id without resident entry,
      all of whose earlier adds were for entries since evicted. */
  lemma AddIsReservedFirst(ws: seq<World>, es: seq<Event>, limit: nat, i: nat)
    requires IsRun(ws, es, limit) && i < |es|
    requires Ready(ws[i]) && Guard(ws[i], es[i]) && IssuesAdd(ws[i], es[i])
    ensures var id := ws[i].handlers[es[i].h].id;
            && id !in ws[i].memory && ws[i + 1].adds == ws[i].adds + [Birth(id, ws[i].next)]
            && (forall b :: b in ws[i].adds && b.id == id ==> b in ws[i].evicted)
            && id in ws[i + 1].disk && ws[i + 1].disk[id].birth == Birth(id, ws[i].next)
            && ws[i + 1].disk[id].rid.None?
            && ws[i + 1].disk[id].fingerprint == ws[i].handlers[es[i].h].kind.fingerprint
  {
    RunKeeps(ws, es, limit, i);
    StepOf(ws, es, limit, i);
    hide Inv, BeforeSave, Save, Pruned, StampsOf, RefsOk, IsRun;
    ReservedIsDurable(ws[i], es[i], limit);
  }

  ghost function CallsFor(w: World, birth: Birth): set<Call> {
    set c | c in w.updateCalls && c.birth == birth
  }

  ghost function TakeoversOf(w: World, birth: Birth): set<Call> {
    set c | c in w.takeovers && c.birth == birth
  }

  /** updateStatus is called by the request that reserved the entry, once, and otherwise only by
      takeovers, once each: all calls in a run differ, and an entry never taken over has at most one. */
  lemma UpdateStatusCalls(ws: seq<World>, es: seq<Event>, limit: nat, i: nat, birth: Birth)
    requires IsRun(ws, es, limit) && i < |ws|
    ensures forall j, k :: 0 <= j < k < |ws[i].updateCalls| ==> ws[i].updateCalls[j] != ws[i].updateCalls[k]
    ensures |CallsFor(ws[i], birth)| <= 1 + |TakeoversOf(ws[i], birth)|
  {
    RunKeeps(ws, es, limit, i);
    var w := ws[i];
    Unfold(w);
    var drivers := TakeoversOf(w, birth) + if birth in w.creator then {Call(birth, w.creator[birth])} else {};
    assert CallsFor(w, birth) <= drivers;
    SubsetSize(CallsFor(w, birth), drivers);
  }

  /** A recovery - a request that found a durable entry, or a status query - never calls updateStatus. */
  lemma RecoveryNeverUpdates(ws: seq<World>, es: seq<Event>, limit: nat, i: nat)
    requires IsRun(ws, es, limit) && i < |es| && es[i].Continue?
    requires var x := ws[i].handlers; es[i].h in x && x[es[i].h].pc.Complete?
    requires ws[i].handlers[es[i].h].pc.recovering || ws[i].handlers[es[i].h].kind.Status?
    ensures ws[i + 1].updateCalls == ws[i].updateCalls
  {
    RunKeeps(ws, es, limit, i);
    RecoveryContinues(ws[i], es[i]);
    SavingCallsNothing(ws[i], es[i], limit);
  }

  lemma RecoveryContinues(w: World, e: Event)
    requires Inv(w) && Ready(w) && Guard(w, e) && e.Continue?
    requires w.handlers[e.h].pc.recovering || w.handlers[e.h].kind.Status?
    ensures BeforeSave(w, e).updateCalls == w.updateCalls
  {
    hide *;
    RecoveryEffect(w, e.h, e.kept, e.fault);
    ContinueCalls(w, e.h, e.kept, e.fault);
  }

  lemma RecoveryEffect(w: World, h: HandlerId, kept: set<Key>, fault: Fault)
    requires Inv(w) && Ready(w) && Guard(w, Continue(h, kept, fault))
    requires w.handlers[h].pc.recovering || w.handlers[h].kind.Status?
    ensures !NextEffect(w.heap[w.handlers[h].pc.ref], w.handlers[h].pc.recovering).UpdateStatus?
  {
    assert HandlerOk(w, h) && Stands(w, h);
  }

  lemma ContinueCalls(w: World, h: HandlerId, kept: set<Key>, fault: Fault)
    requires Ready(w) && Guard(w, Continue(h, kept, fault))
    requires !NextEffect(w.heap[w.handlers[h].pc.ref], w.handlers[h].pc.recovering).UpdateStatus?
    ensures BeforeSave(w, Continue(h, kept, fault)).updateCalls == w.updateCalls
  {
    var ref := w.handlers[h].pc.ref;
    var next := NextEffect(w.heap[ref], w.handlers[h].pc.recovering);
    assert SameCalls(w, BeforeSave(w, Continue(h, kept, fault))) by {
      hide SameCalls;
      match next
      case ReadJournal => SameCallsGo(w, h, AwaitJournal(ref));
      case Inc(counter) => SameCallsInc(w, h, ref, counter);
      case Finish => SameCallsPut(w, ref, w.heap[ref].(stamp := w.heap[ref].stamp.(complete := true)));
    }
    hide BeforeSave, Ready, Guard;
  }

  ghost predicate SameCalls(w: World, u: World) {
    u.updateCalls == w.updateCalls
  }

  lemma SameCallsGo(w: World, h: HandlerId, pc: Pc)
    requires h in w.handlers
    ensures SameCalls(w, Go(w, h, pc))
  {}

  lemma SameCallsInc(w: World, h: HandlerId, ref: Ref, counter: Counter)
    requires h in w.handlers && ref in w.heap
    ensures SameCalls(w, CallInc(w, h, ref, counter))
  {}

  lemma SameCallsPut(w: World, ref: Ref, entry: Entry)
    ensures SameCalls(w, Put(w, ref, entry))
  {}

  lemma SaveCallsNothing(w: World, kept: set<Key>, fault: Fault)
    requires RefsOk(w)
    ensures SameCalls(w, Save(w, kept, fault))
  {}

  lemma AfterSaveCallsNothing(s: World, e: Event)
    requires e.StartSubmit? || e.Eligible? || e.AddReturned? || e.Continue? || e.JournalRead?
             || e.StatusReturned? || e.IncReturned? || e.ResultRead?
    requires e.h in s.handlers && HasRef(s.handlers[e.h].pc)
    ensures SameCalls(s, AfterSave(s, e))
  {
    hide SameCalls, Go, End, Added;
    SameCallsEnds(s, e.h, MadeFor(s.handlers[e.h].pc.ref));
    SameCallsGo(s, e.h, Complete(s.handlers[e.h].pc.ref, e.JournalRead?));
  }

  lemma SameCallsEnds(w: World, h: HandlerId, b: Birth)
    ensures SameCalls(w, w) && SameCalls(w, End(w, h)) && SameCalls(w, Added(w, b))
  {}

  lemma SavingCallsNothing(w: World, e: Event, limit: nat)
    requires Enabled(w, e, limit)
    ensures Apply(w, e, limit).updateCalls == BeforeSave(w, e).updateCalls
  {
    if Saves(w, e) {
      hide BeforeSave, Ready, Guard, StampsOf, Pruned, Saves, Save, AfterSave, RefsOk;
      SaveCallsNothing(BeforeSave(w, e), e.kept, e.fault);
      AfterSaveCallsNothing(Save(BeforeSave(w, e), e.kept, e.fault), e);
    }
  }

  // ----- requests that do not overlap -----

  /** No two submit requests for one id are under way together; status queries may overlap. */
  ghost predicate SubmitsApart(w: World, e: Event) {
    e.StartSubmit? ==> forall g :: g in w.handlers && w.handlers[g].kind.Submit? ==> w.handlers[g].id != e.id
  }

  ghost predicate SoloOk(w: World) {
    && (forall g, h :: g in w.handlers && h in w.handlers && g != h
          && w.handlers[g].kind.Submit? && w.handlers[h].kind.Submit?
          ==> w.handlers[g].id != w.handlers[h].id)
    && (forall h :: h in w.handlers && w.handlers[h].pc.Eligibility? ==>
          w.handlers[h].kind.Submit? && w.handlers[h].id !in w.memory)
    && w.takeovers == {}
  }

  /** The handler is the one marked as at work on its id. */
  ghost predicate Owns(w: World, h: HandlerId)
    requires h in w.handlers
  {
    var x := w.handlers[h];
    if x.kind.Submit? then x.id in w.inFlight && w.inFlight[x.id].handler == h
    else x.id in w.resolving && w.resolving[x.id] == h
  }

  /** No mark is new, and none is left behind by a handler that ends. */
  ghost predicate MarksStay(w: World, u: World) {
    && (forall id :: id in u.inFlight ==>
          && id in w.inFlight && u.inFlight[id] == w.inFlight[id]
          && (u.inFlight[id].handler in w.handlers ==> u.inFlight[id].handler in u.handlers))
    && (forall id :: id in u.resolving ==>
          && id in w.resolving && u.resolving[id] == w.resolving[id]
          && (u.resolving[id] in w.handlers ==> u.resolving[id] in u.handlers))
  }

  /** Nobody new, nobody gets at an entry or back at the eligibility checks, nobody at work loses the
      mark, no id gains an entry, no takeover. */
  ghost predicate Quiet(w: World, u: World) {
    && (forall h :: h in u.handlers ==>
          && h in w.handlers && u.handlers[h].id == w.handlers[h].id && u.handlers[h].kind == w.handlers[h].kind
          && (HasRef(u.handlers[h].pc) <==> HasRef(w.handlers[h].pc)) && (Owns(w, h) ==> Owns(u, h)))
    && u.memory.Keys <= w.memory.Keys && u.takeovers == w.takeovers && MarksStay(w, u)
  }

  lemma QuietKeepsSolo(w: World, u: World)
    requires SoloOk(w) && Quiet(w, u)
    ensures SoloOk(u)
  {}

  lemma QuietPrimitives(w: World, h: HandlerId, kept: set<Key>, fault: Fault)
    requires RefsOk(w)
    ensures Quiet(w, Save(w, kept, fault)) && Quiet(w, End(w, h)) && Quiet(w, Notice(w, h))
  {
    QuietSave(w, kept, fault);
    QuietEnd(w, h);
    QuietNotice(w, h);
    hide *;
  }

  lemma QuietSave(w: World, kept: set<Key>, fault: Fault)
    requires RefsOk(w)
    ensures Quiet(w, Save(w, kept, fault))
  {}

  lemma QuietNotice(w: World, h: HandlerId)
    ensures Quiet(w, Notice(w, h))
  {}

  lemma QuietGo(w: World, h: HandlerId, pc: Pc)
    requires h in w.handlers && HasRef(w.handlers[h].pc) && HasRef(pc)
    ensures Quiet(w, Go(w, h, pc))
  {}

  lemma QuietUpdateStatus(w: World, h: HandlerId, ref: Ref)
    requires h in w.handlers && HasRef(w.handlers[h].pc) && ref in w.heap
    ensures Quiet(w, CallUpdateStatus(w, h, ref))
  {}

  lemma QuietInc(w: World, h: HandlerId, ref: Ref, counter: Counter)
    requires h in w.handlers && HasRef(w.handlers[h].pc) && ref in w.heap
    ensures Quiet(w, CallInc(w, h, ref, counter)) && Quiet(w, CountInc(w, ref, counter))
  {
    QuietCallInc(w, h, ref, counter);
    QuietCountInc(w, ref, counter);
    hide *;
  }

  lemma QuietCallInc(w: World, h: HandlerId, ref: Ref, counter: Counter)
    requires h in w.handlers && HasRef(w.handlers[h].pc) && ref in w.heap
    ensures Quiet(w, CallInc(w, h, ref, counter))
  {}

  lemma QuietCountInc(w: World, ref: Ref, counter: Counter)
    requires ref in w.heap
    ensures Quiet(w, CountInc(w, ref, counter))
  {}

  lemma QuietFail(w: World, h: HandlerId, k: Increment)
    ensures Quiet(w, End(FailInc(w, k), h))
  {}

  lemma QuietPut(w: World, ref: Ref, entry: Entry)
    ensures Quiet(w, Put(w, ref, entry))
  {}

  lemma QuietHolding(w: World, e: Event)
    requires Ready(w) && Guard(w, e)
    requires !e.StartSubmit? && !e.Eligible? && !e.StartStatus? && !e.Crash?
    ensures Quiet(w, BeforeSave(w, e))
  {
    var h := e.h;
    QuietEnd(w, h);
    hide Quiet, RefsOk, Count;
    match e
    case Continue(_, _, _) =>
      var ref := w.handlers[h].pc.ref;
      match NextEffect(w.heap[ref], w.handlers[h].pc.recovering) {
        case ReadJournal => QuietGo(w, h, AwaitJournal(ref));
        case UpdateStatus => QuietUpdateStatus(w, h, ref);
        case Inc(counter) => QuietInc(w, h, ref, counter);
        case Finish => QuietPut(w, ref, w.heap[ref].(stamp := w.heap[ref].stamp.(complete := true)));
      }
    case AddReturned(_, rid, _, _) =>
      QuietPut(w, w.handlers[h].pc.ref, w.heap[w.handlers[h].pc.ref].(rid := Some(rid)));
    case JournalRead(_, _, _, _) =>
      QuietPut(w, w.handlers[h].pc.ref, w.heap[w.handlers[h].pc.ref].(statusUpdated := true));
    case StatusReturned(_, _, _) =>
      QuietPut(w, w.handlers[h].pc.ref, w.heap[w.handlers[h].pc.ref].(statusUpdated := true));
    case IncReturned(_, _, _) => QuietInc(w, h, w.handlers[h].pc.ref, w.handlers[h].pc.counter);
    case RecordsRead(_, found) =>
      if found.Some? {
        QuietGo(w, h, AwaitResult(w.handlers[h].pc.ref, found.value));
      }
    case ResultRead(_, _, _, _) =>
      var ref := w.handlers[h].pc.ref;
      QuietPut(w, ref, w.heap[ref].(rid := Some(w.handlers[h].pc.found), statusUpdated := true));
    case Threw(_) =>
      if w.handlers[h].pc.AwaitInc? {
        QuietFail(w, h, Increment(w.heap[w.handlers[h].pc.ref].birth, w.handlers[h].pc.counter));
      }
  }

  lemma QuietEnd(w: World, h: HandlerId)
    ensures Quiet(w, End(w, h))
  {}

  lemma SoloAfter(w: World, e: Event, limit: nat)
    requires Enabled(w, e, limit) && SoloOk(BeforeSave(w, e))
    ensures SoloOk(Apply(w, e, limit))
  {
    if Saves(w, e) {
      var u := BeforeSave(w, e);
      var s := Save(u, e.kept, e.fault);
      hide BeforeSave, Ready, Guard, Saves, SoloOk, Quiet, Pruned, StampsOf;
      QuietPrimitives(u, e.h, e.kept, e.fault);
      QuietKeepsSolo(u, s);
      QuietSaved(s, e);
      QuietKeepsSolo(s, AfterSave(s, e));
    }
  }

  lemma QuietSaved(s: World, e: Event)
    requires e.StartSubmit? || e.Eligible? || e.AddReturned? || e.Continue? || e.JournalRead?
             || e.StatusReturned? || e.IncReturned? || e.ResultRead?
    requires e.h in s.handlers && HasRef(s.handlers[e.h].pc)
    ensures Quiet(s, AfterSave(s, e))
  {
    var h := e.h;
    QuietSame(s, s);
    QuietEnd(s, h);
    QuietGo(s, h, Complete(s.handlers[h].pc.ref, e.JournalRead?));
    if e.Eligible? && e.fault.NoFault? {
      QuietSame(s, AfterSave(s, e));
    }
    hide Quiet;
  }

  lemma QuietSame(w: World, u: World)
    requires u.handlers == w.handlers && u.memory == w.memory && u.takeovers == w.takeovers
    requires u.inFlight == w.inFlight && u.resolving == w.resolving
    ensures Quiet(w, u)
  {}

  lemma SoloArrives(w: World, h: HandlerId, id: Key, kind: Kind, pc: Pc, u: World)
    requires SoloOk(w) && h !in w.handlers && u.handlers == w.handlers[h := Handler(id, kind, pc)]
    requires u.memory == w.memory && u.takeovers == w.takeovers
    requires kind.Submit? ==> forall g :: g in w.handlers && w.handlers[g].kind.Submit? ==> w.handlers[g].id != id
    requires pc.Eligibility? ==> kind.Submit? && id !in w.memory
    ensures SoloOk(u)
  {}

  lemma SoloReserves(w: World, h: HandlerId, now: int)
    requires SoloOk(w) && h in w.handlers && w.handlers[h].kind.Submit?
    ensures SoloOk(Reserve(w, h, now))
  {}

  lemma SoloNotices(w: World, h: HandlerId)
    requires SoloOk(w)
    ensures SoloOk(Notice(w, h))
  {}

  lemma SoloStarts(w: World, h: HandlerId, id: Key, fingerprint: Fingerprint, leased: bool,
                   kept: set<Key>, fault: Fault)
    requires var e := StartSubmit(h, id, fingerprint, leased, kept, fault);
             SoloOk(w) && SubmitsApart(w, e) && Ready(w) && Guard(w, e) && h !in w.handlers
    ensures SoloOk(BeforeSave(w, StartSubmit(h, id, fingerprint, leased, kept, fault)))
  {
    ArriveFinds(w, id, fingerprint);
    SoloNotices(w, h);
    hide SoloOk, Quiet, Arrive, Ready, RefsOk, Recover, Enter, Notice;
    match Arrive(w, id, fingerprint)
    case Recovers(ref) =>
      RecoverIs(w, h, id, fingerprint, ref);
      SoloArrives(w, h, id, Submit(fingerprint), Complete(ref, true), Recover(w, h, id, fingerprint, ref));
    case Proceeds =>
      if leased {
        var handler := Handler(id, Submit(fingerprint), Eligibility);
        EnterIs(w, h, handler);
        SoloArrives(w, h, id, Submit(fingerprint), Eligibility, Enter(w, h, handler));
      }
    case _ =>
  }

  lemma RecoverIs(w: World, h: HandlerId, id: Key, fingerprint: Fingerprint, ref: Ref)
    ensures var u := Recover(w, h, id, fingerprint, ref);
            && u.handlers == w.handlers[h := Handler(id, Submit(fingerprint), Complete(ref, true))]
            && u.memory == w.memory && u.takeovers == w.takeovers
  {}

  lemma EnterIs(w: World, h: HandlerId, handler: Handler)
    ensures var u := Enter(w, h, handler);
            u.handlers == w.handlers[h := handler] && u.memory == w.memory && u.takeovers == w.takeovers
  {}

  lemma SoloApply(w: World, e: Event, limit: nat)
    requires Inv(w) && SoloOk(w) && SubmitsApart(w, e) && Enabled(w, e, limit)
    ensures SoloOk(Apply(w, e, limit))
  {
    SoloBefore(w, e);
    SoloAfter(w, e, limit);
  }

  lemma SoloWatches(w: World, h: HandlerId, id: Key)
    requires SoloOk(w) && RefsOk(w) && h !in w.handlers
    ensures SoloOk(if id !in w.memory || id in w.resolving then Notice(w, h) else Watch(w, h, id, w.memory[id]))
  {
    QuietPrimitives(w, h, {}, NoFault);
    QuietKeepsSolo(w, Notice(w, h));
    if id in w.memory && id !in w.resolving {
      SoloArrives(w, h, id, Status, AwaitRecords(w.memory[id]), Watch(w, h, id, w.memory[id]));
    }
    hide SoloOk;
  }

  lemma SoloRestarts(w: World)
    requires SoloOk(w)
    ensures SoloOk(Restart(w))
  {}

  lemma SoloRechecks(w: World, h: HandlerId, id: Key, fingerprint: Fingerprint, inWindow: bool)
    requires SoloOk(w) && RefsOk(w) && h in w.handlers && w.handlers[h].pc.Eligibility? && w.handlers[h].id == id
    ensures !Recheck(w, id, fingerprint, inWindow).TakesOver?
  {}

  lemma SoloBefore(w: World, e: Event)
    requires Inv(w) && SoloOk(w) && SubmitsApart(w, e) && Ready(w) && Guard(w, e)
    ensures SoloOk(BeforeSave(w, e))
  {
    hide Inv, Shape, AddsOk, CallsOk, FlagsOk, Ready, RefsOk, SoloOk, Quiet, Recheck, SubmitsApart;
    Unfold(w);
    match e
    case StartSubmit(h, id, fingerprint, leased, kept, fault) =>
      Unused(w, h);
      SoloStarts(w, h, id, fingerprint, leased, kept, fault);
    case Eligible(h, _, inWindow, now, _, _) =>
      SoloRechecks(w, h, w.handlers[h].id, w.handlers[h].kind.fingerprint, inWindow);
      SoloReserves(w, h, now);
      QuietEnd(w, h);
      QuietKeepsSolo(w, End(w, h));
    case StartStatus(h, id) =>
      Unused(w, h);
      SoloWatches(w, h, id);
    case Crash => SoloRestarts(w);
    case _ =>
      QuietHolding(w, e);
      QuietKeepsSolo(w, BeforeSave(w, e));
  }

  /** A run in which the submit requests of one id never overlap. */
  ghost predicate SubmitsApartRun(ws: seq<World>, es: seq<Event>, limit: nat) {
    IsRun(ws, es, limit) && forall i {:trigger es[i]} :: 0 <= i < |es| ==> SubmitsApart(ws[i], es[i])
  }

  lemma {:induction false} SoloRun(ws: seq<World>, es: seq<Event>, limit: nat, i: nat)
    requires SubmitsApartRun(ws, es, limit) && i < |ws|
    ensures Inv(ws[i]) && SoloOk(ws[i])
  {
    hide *;
    SoloParts(ws, es, limit);
    StartsEmpty(ws, es, limit);
    RunKeeps(ws, es, limit, i);
    if i == 0 {
      InitialSolo();
    } else {
      SoloRun(ws, es, limit, i - 1);
      StepOf(ws, es, limit, i - 1);
      SoloApply(ws[i - 1], es[i - 1], limit);
    }
  }

  lemma InitialSolo()
    ensures SoloOk(INITIAL)
  {}

  lemma SoloParts(ws: seq<World>, es: seq<Event>, limit: nat)
    requires SubmitsApartRun(ws, es, limit)
    ensures IsRun(ws, es, limit) && |ws| == |es| + 1 && forall i :: 0 <= i < |es| ==> SubmitsApart(ws[i], es[i])
  {
    hide Enabled, Apply, SubmitsApart;
  }

  /** Without overlapping submits, updateStatus is called at most once per reservation, over all
      crashes, retries and status queries. */
  lemma AtMostOneUpdateStatus(ws: seq<World>, es: seq<Event>, limit: nat, i: nat, birth: Birth)
    requires SubmitsApartRun(ws, es, limit) && i < |ws|
    ensures |CallsFor(ws[i], birth)| <= 1
    ensures forall j, k :: 0 <= j < k < |ws[i].updateCalls| ==> ws[i].updateCalls[j].birth != ws[i].updateCalls[k].birth
  {
    SoloRun(ws, es, limit, i);
    UpdateStatusCalls(ws, es, limit, i, birth);
    assert TakeoversOf(ws[i], birth) == {};
    var w := ws[i];
    Unfold(w);
    forall j, k | 0 <= j < k < |w.updateCalls| ensures w.updateCalls[j].birth != w.updateCalls[k].birth {
      var a, b := w.updateCalls[j], w.updateCalls[k];
      assert a in w.updateCalls && b in w.updateCalls && a != b;
      assert Drives(w, a.birth, a.handler) && Drives(w, b.birth, b.handler);
    }
  }
}
