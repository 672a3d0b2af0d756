/** Where each event may leave its handler, and that it leaves everybody else where they were. */
module SubmissionSteps {
  import opened Basics
  import opened JournalStore
  import opened SubmissionProtocol
  import opened SubmissionSafety

  /** A submit found its entry: it resumes one that has a record, or waits for its eligibility. */
  ghost predicate SubmitLands(w: World, e: Event, y: Handler)
    requires e.StartSubmit?
  {
    && y.id == e.id && y.kind == Submit(e.fingerprint) && e.id !in w.inFlight
    && (if e.id in w.memory then
          && y.pc == Complete(w.memory[e.id], true) && w.memory[e.id] in w.heap
          && w.heap[w.memory[e.id]].fingerprint == e.fingerprint && w.heap[w.memory[e.id]].rid.Some?
          && !w.heap[w.memory[e.id]].stamp.complete
        else e.leased && y.pc.Eligibility?)
  }

  ghost predicate QueryLands(w: World, e: Event, y: Handler)
    requires e.StartStatus?
  {
    y.id == e.id && y.kind.Status? && e.id in w.memory && e.id !in w.resolving && y.pc == AwaitRecords(w.memory[e.id])
  }

  /** Past its checks a submit reserves, or takes over an entry that appeared meanwhile. */
  ghost predicate EligibleLands(w: World, e: Event, takeovers: set<Call>, y: Handler)
    requires e.Eligible? && e.h in w.handlers
  {
    var x := w.handlers[e.h];
    && e.admitted && y.id == x.id && y.kind == x.kind && x.kind.Submit? && x.id !in w.inFlight
    && (if x.id in w.memory then
          && y.pc == Complete(w.memory[x.id], false) && w.memory[x.id] in w.heap
          && w.heap[w.memory[x.id]].fingerprint == x.kind.fingerprint
          && Call(w.heap[w.memory[x.id]].birth, e.h) in takeovers
        else e.inWindow && y.pc == AwaitAdd(Ref(x.id, w.next)))
  }

  /** The next missing effect is asked for. */
  ghost predicate ContinueLands(entry: Entry, recovering: bool, ref: Ref, pc: Pc) {
    if !entry.statusUpdated then pc == (if recovering then AwaitJournal(ref) else AwaitStatus(ref))
    else pc.AwaitInc? && pc.ref == ref && pc.counter !in entry.counted
         && (pc.counter.UserSubmits? ==> ProblemSubmits in entry.counted)
  }

  /** A query goes on with a record that does not contradict the entry. */
  ghost predicate RecordsLand(entry: Entry, found: Option<RecordId>, ref: Ref, pc: Pc) {
    found.Some? && pc == AwaitResult(ref, found.value) && (entry.rid.None? || entry.rid == found)
  }

  ghost predicate Same(x: Handler, y: Handler) {
    y.id == x.id && y.kind == x.kind
  }

  /** The handler of an event, if it is still there, stands where the event lets it. */
  ghost predicate Lands(w: World, e: Event, takeovers: set<Call>, y: Handler)
    requires Ready(w) && Guard(w, e)
  {
    match e
    case StartSubmit(_, _, _, _, _, _) => SubmitLands(w, e, y)
    case StartStatus(_, _) => QueryLands(w, e, y)
    case Eligible(_, _, _, _, _, _) => EligibleLands(w, e, takeovers, y)
    case Continue(h, _, _) =>
      var pc := w.handlers[h].pc;
      Same(w.handlers[h], y) && ContinueLands(w.heap[pc.ref], pc.recovering, pc.ref, y.pc)
    case RecordsRead(h, found) =>
      var pc := w.handlers[h].pc;
      Same(w.handlers[h], y) && RecordsLand(w.heap[pc.ref], found, pc.ref, y.pc)
    case AddReturned(h, _, _, _) => Same(w.handlers[h], y) && y.pc == Complete(w.handlers[h].pc.ref, false)
    case StatusReturned(h, _, _) => Same(w.handlers[h], y) && y.pc == Complete(w.handlers[h].pc.ref, false)
    case IncReturned(h, _, _) => Same(w.handlers[h], y) && y.pc == Complete(w.handlers[h].pc.ref, false)
    case JournalRead(h, present, _, _) =>
      present && Same(w.handlers[h], y) && y.pc == Complete(w.handlers[h].pc.ref, true)
    case ResultRead(h, agrees, _, _) =>
      agrees && !Settled(w, h) && Same(w.handlers[h], y) && y.pc == Complete(w.handlers[h].pc.ref, false)
    case Threw(_) => false
    case Crash => false
  }

  /** Everybody else stays where they are. */
  ghost predicate OthersStay(w: World, u: World, h: HandlerId) {
    forall g :: g in u.handlers && g != h ==> g in w.handlers && u.handlers[g] == w.handlers[g]
  }

  ghost predicate LandsIn(w: World, e: Event, u: World)
    requires Ready(w) && Guard(w, e) && !e.Crash?
  {
    OthersStay(w, u, e.h) && (e.h in u.handlers ==> Lands(w, e, u.takeovers, u.handlers[e.h]))
  }

  // ----- what the updates do to the handlers -----

  ghost predicate Placed(w: World, u: World, h: HandlerId, handler: Handler) {
    u.handlers == w.handlers[h := handler]
  }

  ghost predicate Gone(w: World, u: World, h: HandlerId) {
    u.handlers == w.handlers - {h}
  }

  ghost predicate Where(w: World, u: World) {
    u.handlers == w.handlers && u.takeovers == w.takeovers
  }

  lemma GoneEnd(w: World, h: HandlerId, k: Increment)
    ensures Gone(w, End(w, h), h) && Gone(w, End(FailInc(w, k), h), h)
  {}

  lemma GoneNotice(w: World, h: HandlerId)
    requires h !in w.handlers
    ensures Gone(w, Notice(w, h), h)
  {}

  lemma GoneLands(w: World, e: Event, u: World)
    requires Ready(w) && Guard(w, e) && !e.Crash? && Gone(w, u, e.h)
    ensures LandsIn(w, e, u)
  {
    hide Ready, Guard, Lands;
  }

  lemma PlacedLands(w: World, e: Event, u: World, y: Handler)
    requires Ready(w) && Guard(w, e) && !e.Crash? && Placed(w, u, e.h, y) && Lands(w, e, u.takeovers, y)
    ensures LandsIn(w, e, u)
  {
    hide Ready, Guard, Lands;
  }

  lemma PlacedStarts(w: World, h: HandlerId, id: Key, fingerprint: Fingerprint, ref: Ref, handler: Handler)
    ensures Placed(w, Recover(w, h, id, fingerprint, ref), h, Handler(id, Submit(fingerprint), Complete(ref, true)))
    ensures Placed(w, Watch(w, h, id, ref), h, Handler(id, Status, AwaitRecords(ref)))
    ensures Placed(w, Enter(w, h, handler), h, handler)
  {}

  lemma PlacedTakeOver(w: World, h: HandlerId, ref: Ref)
    requires h in w.handlers && w.handlers[h].kind.Submit? && ref in w.heap
    ensures var u := TakeOver(w, h, ref);
            && Placed(w, u, h, w.handlers[h].(pc := Complete(ref, false)))
            && Call(w.heap[ref].birth, h) in u.takeovers
  {}

  lemma PlacedReserve(w: World, h: HandlerId, now: int)
    requires h in w.handlers && w.handlers[h].kind.Submit?
    ensures Placed(w, Reserve(w, h, now), h, w.handlers[h].(pc := AwaitAdd(Ref(w.handlers[h].id, w.next))))
  {}

  lemma PlacedGoes(w: World, h: HandlerId, pc: Pc, ref: Ref, counter: Counter)
    requires h in w.handlers && ref in w.heap
    ensures Placed(w, Go(w, h, pc), h, w.handlers[h].(pc := pc))
    ensures Placed(w, CallUpdateStatus(w, h, ref), h, w.handlers[h].(pc := AwaitStatus(ref)))
    ensures Placed(w, CallInc(w, h, ref, counter), h, w.handlers[h].(pc := AwaitInc(ref, counter)))
  {}

  // ----- events that do not save and go on -----

  lemma ArriveIs(w: World, e: Event)
    requires Ready(w) && Guard(w, e) && e.StartSubmit?
    ensures var a := Arrive(w, e.id, e.fingerprint);
            && (a.Recovers? ==> SubmitLands(w, e, Handler(e.id, Submit(e.fingerprint), Complete(a.ref, true))))
            && (a.Proceeds? && e.leased ==> SubmitLands(w, e, Handler(e.id, Submit(e.fingerprint), Eligibility)))
  {}

  lemma SubmitBefore(w: World, e: Event)
    requires Ready(w) && Guard(w, e) && e.StartSubmit? && e.h !in w.handlers
    ensures LandsIn(w, e, BeforeSave(w, e))
  {
    ArriveIs(w, e);
    GoneNotice(w, e.h);
    hide RefsOk, Arrive, Notice, Enter, Recover, LandsIn, Placed, Gone, SubmitLands, Guard, Lands;
    GoneLands(w, e, Notice(w, e.h));
    SubmitAt(w, e);
    match Arrive(w, e.id, e.fingerprint)
    case Recovers(ref) => RecoverLands(w, e, ref);
    case Proceeds =>
      if e.leased {
        EnterLands(w, e);
      }
    case _ =>
  }

  lemma SubmitAt(w: World, e: Event)
    requires Ready(w) && Guard(w, e) && e.StartSubmit?
    ensures BeforeSave(w, e)
            == match Arrive(w, e.id, e.fingerprint)
               case Recovers(ref) => Recover(w, e.h, e.id, e.fingerprint, ref)
               case Proceeds =>
                 if e.leased then Enter(w, e.h, Handler(e.id, Submit(e.fingerprint), Eligibility)) else Notice(w, e.h)
               case _ => Notice(w, e.h)
  {
    hide RefsOk, Arrive, Notice, Enter, Recover;
  }

  lemma RecoverLands(w: World, e: Event, ref: Ref)
    requires Ready(w) && Guard(w, e) && e.StartSubmit?
    requires SubmitLands(w, e, Handler(e.id, Submit(e.fingerprint), Complete(ref, true)))
    ensures LandsIn(w, e, Recover(w, e.h, e.id, e.fingerprint, ref))
  {
    var handler := Handler(e.id, Submit(e.fingerprint), Complete(ref, true));
    hide RefsOk, Recover, LandsIn, Placed, SubmitLands, Guard;
    PlacedStarts(w, e.h, e.id, e.fingerprint, ref, handler);
    PlacedLands(w, e, Recover(w, e.h, e.id, e.fingerprint, ref), handler);
  }

  lemma EnterLands(w: World, e: Event)
    requires Ready(w) && Guard(w, e) && e.StartSubmit?
    requires SubmitLands(w, e, Handler(e.id, Submit(e.fingerprint), Eligibility))
    ensures LandsIn(w, e, Enter(w, e.h, Handler(e.id, Submit(e.fingerprint), Eligibility)))
  {
    var handler := Handler(e.id, Submit(e.fingerprint), Eligibility);
    hide RefsOk, Enter, LandsIn, Placed, SubmitLands, Guard;
    PlacedStarts(w, e.h, e.id, e.fingerprint, Ref(e.id, 0), handler);
    PlacedLands(w, e, Enter(w, e.h, handler), handler);
  }

  lemma QueryBefore(w: World, e: Event)
    requires Ready(w) && Guard(w, e) && e.StartStatus? && e.h !in w.handlers
    ensures LandsIn(w, e, BeforeSave(w, e))
  {
    GoneNotice(w, e.h);
    GoneLands(w, e, Notice(w, e.h));
    hide RefsOk, Notice, Watch, LandsIn, Placed, Gone;
    if e.id in w.memory && e.id !in w.resolving {
      var ref := w.memory[e.id];
      PlacedStarts(w, e.h, e.id, w.heap[ref].fingerprint, ref, Handler(e.id, Status, AwaitRecords(ref)));
      PlacedLands(w, e, Watch(w, e.h, e.id, ref), Handler(e.id, Status, AwaitRecords(ref)));
    }
  }

  lemma RecheckIs(w: World, e: Event, takeovers: set<Call>)
    requires Ready(w) && Guard(w, e) && e.Eligible? && e.admitted
    ensures var x := w.handlers[e.h];
            var s := Recheck(w, x.id, x.kind.fingerprint, e.inWindow);
            && (s.TakesOver? && s.ref in w.heap && Call(w.heap[s.ref].birth, e.h) in takeovers ==>
                  EligibleLands(w, e, takeovers, x.(pc := Complete(s.ref, false))))
            && (s.Reserves? ==> EligibleLands(w, e, takeovers, x.(pc := AwaitAdd(Ref(x.id, w.next)))))
  {}

  lemma EligibleBefore(w: World, e: Event)
    requires Ready(w) && Guard(w, e) && e.Eligible?
    ensures LandsIn(w, e, BeforeSave(w, e))
  {
    var h := e.h;
    var x := w.handlers[h];
    RecheckFinds(w, x.id, x.kind.fingerprint, e.inWindow);
    GoneEnd(w, h, Increment(Birth(x.id, 0), ProblemSubmits));
    GoneLands(w, e, End(w, h));
    hide RefsOk, Recheck, End, TakeOver, Reserve, LandsIn, Placed, Gone, EligibleLands;
    if e.admitted {
      match Recheck(w, x.id, x.kind.fingerprint, e.inWindow)
      case TakesOver(ref) =>
        PlacedTakeOver(w, h, ref);
        RecheckIs(w, e, TakeOver(w, h, ref).takeovers);
        PlacedLands(w, e, TakeOver(w, h, ref), x.(pc := Complete(ref, false)));
      case Reserves =>
        PlacedReserve(w, h, e.now);
        RecheckIs(w, e, Reserve(w, h, e.now).takeovers);
        PlacedLands(w, e, Reserve(w, h, e.now), x.(pc := AwaitAdd(Ref(x.id, w.next))));
      case _ =>
    }
  }

  lemma ReadBefore(w: World, e: Event)
    requires Ready(w) && Guard(w, e) && e.RecordsRead?
    ensures LandsIn(w, e, BeforeSave(w, e))
  {
    var h, ref := e.h, w.handlers[e.h].pc.ref;
    ReadAt(w, e);
    hide RefsOk, End, Go, LandsIn, Gone, Lands;
    if BeforeSave(w, e) == End(w, h) {
      hide BeforeSave;
      GoneEnd(w, h, Increment(Birth(w.handlers[h].id, 0), ProblemSubmits));
      GoneLands(w, e, End(w, h));
    } else {
      hide BeforeSave;
      ReadLands(w, e);
    }
  }

  lemma ReadAt(w: World, e: Event)
    requires Ready(w) && Guard(w, e) && e.RecordsRead?
    ensures var ref := w.handlers[e.h].pc.ref;
            || BeforeSave(w, e) == End(w, e.h)
            || (e.found.Some? && RecordsLand(w.heap[ref], e.found, ref, AwaitResult(ref, e.found.value))
                && BeforeSave(w, e) == Go(w, e.h, AwaitResult(ref, e.found.value)))
  {
    hide RefsOk, End, Go;
  }

  lemma ReadLands(w: World, e: Event)
    requires Ready(w) && Guard(w, e) && e.RecordsRead? && e.found.Some?
    requires var ref := w.handlers[e.h].pc.ref;
             RecordsLand(w.heap[ref], e.found, ref, AwaitResult(ref, e.found.value))
    ensures LandsIn(w, e, Go(w, e.h, AwaitResult(w.handlers[e.h].pc.ref, e.found.value)))
  {
    var h, x := e.h, w.handlers[e.h];
    var pc := AwaitResult(x.pc.ref, e.found.value);
    PlacedGoes(w, h, pc, x.pc.ref, ProblemSubmits);
    assert Lands(w, e, Go(w, h, pc).takeovers, x.(pc := pc));
    hide RefsOk, Go, LandsIn, Placed, Lands, Guard;
    PlacedLands(w, e, Go(w, h, pc), x.(pc := pc));
  }

  lemma ThrewBefore(w: World, e: Event)
    requires Ready(w) && Guard(w, e) && e.Threw?
    ensures LandsIn(w, e, BeforeSave(w, e))
  {
    var h, x := e.h, w.handlers[e.h];
    var k := if x.pc.AwaitInc? then Increment(w.heap[x.pc.ref].birth, x.pc.counter)
             else Increment(Birth(x.id, 0), ProblemSubmits);
    GoneEnd(w, h, k);
    GoneLands(w, e, End(w, h));
    GoneFail(w, e, k);
    hide RefsOk, End, FailInc, LandsIn, Gone;
  }

  lemma GoneFail(w: World, e: Event, k: Increment)
    requires Ready(w) && Guard(w, e) && e.Threw?
    ensures LandsIn(w, e, End(FailInc(w, k), e.h))
  {
    GoneEnd(w, e.h, k);
    hide *;
    GoneLands(w, e, End(FailInc(w, k), e.h));
  }

  lemma ContinueBefore(w: World, e: Event)
    requires Ready(w) && Guard(w, e) && e.Continue?
    requires !NextEffect(w.heap[w.handlers[e.h].pc.ref], w.handlers[e.h].pc.recovering).Finish?
    ensures LandsIn(w, e, BeforeSave(w, e))
  {
    var h, x := e.h, w.handlers[e.h];
    var ref := x.pc.ref;
    NextIs(w.heap[ref], x.pc.recovering, ref);
    hide RefsOk, Go, CallUpdateStatus, CallInc, LandsIn, Placed, ContinueLands;
    match NextEffect(w.heap[ref], x.pc.recovering)
    case ReadJournal =>
      PlacedGoes(w, h, AwaitJournal(ref), ref, ProblemSubmits);
      PlacedLands(w, e, Go(w, h, AwaitJournal(ref)), x.(pc := AwaitJournal(ref)));
    case UpdateStatus =>
      PlacedGoes(w, h, AwaitStatus(ref), ref, ProblemSubmits);
      PlacedLands(w, e, CallUpdateStatus(w, h, ref), x.(pc := AwaitStatus(ref)));
    case Inc(counter) =>
      PlacedGoes(w, h, AwaitInc(ref, counter), ref, counter);
      PlacedLands(w, e, CallInc(w, h, ref, counter), x.(pc := AwaitInc(ref, counter)));
  }

  lemma NextIs(entry: Entry, recovering: bool, ref: Ref)
    ensures match NextEffect(entry, recovering)
            case ReadJournal => ContinueLands(entry, recovering, ref, AwaitJournal(ref))
            case UpdateStatus => ContinueLands(entry, recovering, ref, AwaitStatus(ref))
            case Inc(counter) => ContinueLands(entry, recovering, ref, AwaitInc(ref, counter))
            case Finish => true
  {}

  // ----- events that save -----

  lemma WhereSaves(u: World, kept: set<Key>, fault: Fault)
    requires RefsOk(u)
    ensures Where(u, Save(u, kept, fault))
  {}

  lemma WherePut(w: World, ref: Ref, x: Entry)
    ensures Where(w, Put(w, ref, x))
  {}

  lemma WhereCount(w: World, ref: Ref, counter: Counter)
    requires ref in w.heap
    ensures Where(w, CountInc(w, ref, counter))
  {}

  /** What a save is followed by. */
  ghost predicate Follows(s: World, v: World, e: Event)
    requires !e.Crash? && e.h in s.handlers && HasRef(s.handlers[e.h].pc)
  {
    || (Where(s, v) && (e.StartSubmit? || e.Eligible?))
    || (Gone(s, v, e.h) && v.takeovers == s.takeovers)
    || (!e.StartSubmit? && !e.Eligible? && !e.Continue? && v.takeovers == s.takeovers
        && Placed(s, v, e.h, s.handlers[e.h].(pc := Complete(s.handlers[e.h].pc.ref, e.JournalRead?))))
  }

  lemma AfterFollows(s: World, e: Event)
    requires e.StartSubmit? || e.Eligible? || e.AddReturned? || e.Continue? || e.JournalRead?
             || e.StatusReturned? || e.IncReturned? || e.ResultRead?
    requires e.h in s.handlers && HasRef(s.handlers[e.h].pc)
    ensures Follows(s, AfterSave(s, e), e)
  {
    AfterParts(s, e.h, Complete(s.handlers[e.h].pc.ref, e.JournalRead?), MadeFor(s.handlers[e.h].pc.ref));
    hide Where, Gone, Placed, End, Go, Added;
  }

  lemma AfterParts(s: World, h: HandlerId, pc: Pc, b: Birth)
    requires h in s.handlers
    ensures Where(s, s) && Where(s, Added(s, b)) && Gone(s, End(s, h), h) && End(s, h).takeovers == s.takeovers
    ensures Placed(s, Go(s, h, pc), h, s.handlers[h].(pc := pc)) && Go(s, h, pc).takeovers == s.takeovers
  {}

  lemma LandsStays(w: World, e: Event, u: World, v: World)
    requires Ready(w) && Guard(w, e) && !e.Crash? && LandsIn(w, e, u) && v.takeovers == u.takeovers
    requires Where(u, v) || Gone(u, v, e.h)
    ensures LandsIn(w, e, v)
  {
    hide Ready, Guard, Lands;
  }

  /** A reservation or a recovery, saved. */
  lemma SavedStart(w: World, e: Event, u: World, kept: set<Key>, fault: Fault)
    requires Ready(w) && Guard(w, e) && (e.StartSubmit? || e.Eligible?) && LandsIn(w, e, u) && RefsOk(u)
    requires e.h in u.handlers && HasRef(u.handlers[e.h].pc)
    ensures var s := Save(u, kept, fault);
            && e.h in s.handlers && HasRef(s.handlers[e.h].pc)
            && LandsIn(w, e, AfterSave(s, e))
  {
    var s := Save(u, kept, fault);
    WhereSaves(u, kept, fault);
    hide LandsIn, Save, AfterSave, Guard, Ready, Gone, Placed;
    AfterFollows(s, e);
    LandsStays(w, e, u, s);
    assert s.handlers == u.handlers;
    LandsStays(w, e, s, AfterSave(s, e));
  }

  /** A write, saved. */
  lemma SavedWrite(w: World, e: Event, u: World, kept: set<Key>, fault: Fault)
    requires Ready(w) && Guard(w, e) && Where(w, u) && RefsOk(u)
    requires e.AddReturned? || e.StatusReturned? || e.IncReturned? || (e.JournalRead? && e.present)
             || (e.ResultRead? && e.agrees && !Settled(w, e.h)) || e.Continue?
    ensures var s := Save(u, kept, fault);
            && e.h in s.handlers && HasRef(s.handlers[e.h].pc)
            && LandsIn(w, e, AfterSave(s, e))
  {
    var s := Save(u, kept, fault);
    WhereSaves(u, kept, fault);
    hide LandsIn, Save, AfterSave, Ready, Gone, Placed, Settled;
    AfterFollows(s, e);
    var v := AfterSave(s, e);
    var y := w.handlers[e.h].(pc := Complete(w.handlers[e.h].pc.ref, e.JournalRead?));
    if Gone(s, v, e.h) {
      GoneSame(w, s, v, e.h);
      GoneLands(w, e, v);
    } else {
      assert Placed(s, v, e.h, y) && !e.Continue?;
      PlacedSame(w, s, v, e.h, y);
      assert Lands(w, e, v.takeovers, y);
      PlacedLands(w, e, v, y);
    }
  }

  lemma GoneSame(w: World, s: World, v: World, h: HandlerId)
    requires s.handlers == w.handlers && Gone(s, v, h)
    ensures Gone(w, v, h)
  {}

  lemma PlacedSame(w: World, s: World, v: World, h: HandlerId, y: Handler)
    requires s.handlers == w.handlers && Placed(s, v, h, y)
    ensures Placed(w, v, h, y)
  {}

  /** Before their save, writes leave every handler where it is. */
  lemma WriteBefore(w: World, e: Event)
    requires Ready(w) && Guard(w, e) && Saves(w, e)
    requires e.AddReturned? || e.StatusReturned? || e.IncReturned? || e.JournalRead? || e.ResultRead? || e.Continue?
    ensures Where(w, BeforeSave(w, e))
    ensures (e.JournalRead? ==> e.present) && (e.ResultRead? ==> e.agrees && !Settled(w, e.h))
  {
    var ref := w.handlers[e.h].pc.ref;
    var y := w.heap[ref];
    hide RefsOk, Where, Put, CountInc, Settled;
    match e
    case AddReturned(_, rid, _, _) => WherePut(w, ref, y.(rid := Some(rid)));
    case StatusReturned(_, _, _) => WherePut(w, ref, y.(statusUpdated := true));
    case JournalRead(_, _, _, _) => WherePut(w, ref, y.(statusUpdated := true));
    case IncReturned(h, _, _) => WhereCount(w, ref, w.handlers[h].pc.counter);
    case ResultRead(h, _, _, _) => WherePut(w, ref, y.(rid := Some(w.handlers[h].pc.found), statusUpdated := true));
    case Continue(_, _, _) => WherePut(w, ref, y.(stamp := y.stamp.(complete := true)));
  }

  /** A journal without the row, or a result that does not agree, ends the handler. */
  lemma RefusedBefore(w: World, e: Event)
    requires Ready(w) && Guard(w, e) && !Saves(w, e) && (e.JournalRead? || e.ResultRead?)
    ensures BeforeSave(w, e) == End(w, e.h)
  {
    hide RefsOk, End, Settled, Put;
  }

  lemma RefusedLands(w: World, e: Event)
    requires Ready(w) && Guard(w, e) && !e.Crash?
    ensures LandsIn(w, e, End(w, e.h))
  {
    GoneEnd(w, e.h, Increment(Birth(if e.StartSubmit? || e.StartStatus? then e.id else w.handlers[e.h].id, 0),
                              ProblemSubmits));
    hide *;
    GoneLands(w, e, End(w, e.h));
  }

  lemma BeforeLands(w: World, e: Event)
    requires Inv(w) && Ready(w) && Guard(w, e) && !e.Crash?
    requires !Saves(w, e) || e.StartSubmit? || e.Eligible?
    ensures LandsIn(w, e, BeforeSave(w, e))
  {
    Unfold(w);
    hide Inv, Shape, Ready, BeforeSave, LandsIn, Saves;
    match e
    case StartSubmit(h, _, _, _, _, _) =>
      Unused(w, h);
      SubmitBefore(w, e);
    case StartStatus(h, _) =>
      Unused(w, h);
      QueryBefore(w, e);
    case Eligible(_, _, _, _, _, _) => EligibleBefore(w, e);
    case RecordsRead(_, _) => ReadBefore(w, e);
    case Threw(_) => ThrewBefore(w, e);
    case Continue(_, _, _) =>
      NotFinished(w, e);
      ContinueBefore(w, e);
    case _ =>
      AlwaysSaves(w, e);
      RefusedBefore(w, e);
      RefusedLands(w, e);
  }

  lemma NotFinished(w: World, e: Event)
    requires Ready(w) && Guard(w, e) && !Saves(w, e) && e.Continue?
    ensures !NextEffect(w.heap[w.handlers[e.h].pc.ref], w.handlers[e.h].pc.recovering).Finish?
  {
    hide RefsOk;
  }

  lemma AlwaysSaves(w: World, e: Event)
    requires Ready(w) && Guard(w, e) && !Saves(w, e)
    ensures !e.AddReturned? && !e.StatusReturned? && !e.IncReturned?
  {
    hide RefsOk;
  }

  /** After every event of a run: the handler stands where it may, and nobody else moved. */
  lemma ApplyLands(w: World, e: Event, limit: nat)
    requires Inv(w) && Enabled(w, e, limit) && !e.Crash?
    ensures LandsIn(w, e, Apply(w, e, limit))
  {
    if !Saves(w, e) {
      hide Inv, Ready, Guard, BeforeSave, LandsIn;
      BeforeLands(w, e);
    } else {
      SavedLands(w, e, limit);
    }
  }

  lemma SavedLands(w: World, e: Event, limit: nat)
    requires Inv(w) && Enabled(w, e, limit) && !e.Crash? && Saves(w, e)
    ensures LandsIn(w, e, Apply(w, e, limit))
  {
    HoldsAfterSave(w, e, limit);
    hide Inv, Ready, Guard, BeforeSave, LandsIn, Saves, Save, AfterSave, RefsOk, Pruned, StampsOf, Where, Settled;
    if e.StartSubmit? || e.Eligible? {
      BeforeLands(w, e);
      SavedStart(w, e, BeforeSave(w, e), e.kept, e.fault);
    } else {
      WriteBefore(w, e);
      SavedWrite(w, e, BeforeSave(w, e), e.kept, e.fault);
    }
  }
}
