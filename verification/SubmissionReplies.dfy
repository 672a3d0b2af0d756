/** What requests are told, and that only what the journal vouches for is given out as a receipt. */
module SubmissionReplies {
  import opened Basics
  import opened JournalStore
  import opened SubmissionProtocol
  import opened SubmissionSafety
  import opened SubmissionSteps
  import opened SubmissionEvidence
  import opened SubmissionOwners
  import opened SubmissionRecords

  /** Another payload has the id, in the journal or in flight. */
  ghost predicate Taken(w: World, id: Key, fingerprint: Fingerprint)
    requires RefsOk(w)
  {
    || (id in w.memory && w.heap[w.memory[id]].fingerprint != fingerprint)
    || (id in w.inFlight && w.inFlight[id].fingerprint != fingerprint)
  }

  /** The payload a submit sends, when it starts and when it is looked at again. */
  ghost predicate Asks(w: World, e: Event, id: Key, fingerprint: Fingerprint) {
    match e
    case StartSubmit(_, k, f, _, _, _) => k == id && f == fingerprint
    case Eligible(h, admitted, _, _, _, _) =>
      admitted && h in w.handlers && w.handlers[h].id == id && w.handlers[h].kind == Submit(fingerprint)
    case _ => false
  }

  /** A submit is refused as conflicting exactly when another payload has its id. */
  lemma ConflictIsExact(w: World, e: Event, id: Key, fingerprint: Fingerprint)
    requires Ready(w) && Guard(w, e) && Asks(w, e, id, fingerprint)
    ensures ReplyTo(w, e) == Some(Conflict) <==> Taken(w, id, fingerprint)
  {}

  lemma SharesMark(w: World, e: Event, g: HandlerId)
    requires Ready(w) && Guard(w, e) && ReplyTo(w, e) == Some(Shares(g))
    ensures match e
            case StartSubmit(_, id, fingerprint, _, _, _) =>
              id in w.inFlight && w.inFlight[id] == Flight(fingerprint, g)
            case Eligible(h, _, _, _, _, _) =>
              var x := w.handlers[h]; x.id in w.inFlight && w.inFlight[x.id] == Flight(x.kind.fingerprint, g)
            case StartStatus(_, id) => id in w.resolving && w.resolving[id] == g
            case _ => false
  {}

  /** Who shares a reply shares it with a request of the same kind, id and payload that is under way. */
  lemma SharesItsOwn(ws: seq<World>, es: seq<Event>, limit: nat, i: nat, g: HandlerId)
    requires IsRun(ws, es, limit) && i < |es| && Ready(ws[i]) && Guard(ws[i], es[i])
    requires ReplyTo(ws[i], es[i]) == Some(Shares(g))
    ensures g in ws[i].handlers
    ensures match es[i]
            case StartSubmit(_, id, fingerprint, _, _, _) =>
              ws[i].handlers[g].id == id && ws[i].handlers[g].kind == Submit(fingerprint)
            case Eligible(h, _, _, _, _, _) => Same(ws[i].handlers[h], ws[i].handlers[g])
            case StartStatus(_, id) => ws[i].handlers[g].id == id && ws[i].handlers[g].kind.Status?
            case _ => false
  {
    SharesMark(ws[i], es[i], g);
    OwnersRun(ws, es, limit, i);
    hide IsRun, Ready, ReplyTo, Owns;
  }

  /** A request is told something exactly when it ends, and whoever goes on is not told anything yet. */
  lemma AnsweredAtTheEnd(ws: seq<World>, es: seq<Event>, limit: nat, i: nat)
    requires IsRun(ws, es, limit) && i < |es| && Ready(ws[i]) && Guard(ws[i], es[i]) && !es[i].Crash?
    ensures ReplyTo(ws[i], es[i]).Some? <==> es[i].h !in ws[i + 1].handlers
  {
    StepOf(ws, es, limit, i);
    RunKeeps(ws, es, limit, i);
    hide IsRun, Inv, Ready, Guard, ReplyTo;
    EndsWithReply(ws[i], es[i], limit);
  }

  lemma EndsWithReply(w: World, e: Event, limit: nat)
    requires Inv(w) && Enabled(w, e, limit) && !e.Crash?
    ensures ReplyTo(w, e).Some? <==> e.h !in Apply(w, e, limit).handlers
  {
    EnabledGuard(w, e, limit);
    BeforeTells(w, e);
    if Saves(w, e) {
      HoldsAfterSave(w, e, limit);
      var u := BeforeSave(w, e);
      hide Inv, BeforeSave, Ready, Guard, Saves, Save, AfterSave, Pruned, StampsOf, RefsOk, ReplyTo, Where;
      WhereSaves(u, e.kept, e.fault);
      AfterTells(Save(u, e.kept, e.fault), e);
    }
  }

  lemma AfterTells(s: World, e: Event)
    requires e.StartSubmit? || e.Eligible? || e.AddReturned? || e.Continue? || e.JournalRead?
             || e.StatusReturned? || e.IncReturned? || e.ResultRead?
    requires e.h in s.handlers && HasRef(s.handlers[e.h].pc)
    ensures e.h in AfterSave(s, e).handlers <==> e.fault.NoFault? && !e.Continue?
  {
    AfterParts(s, e.h, Complete(s.handlers[e.h].pc.ref, e.JournalRead?), MadeFor(s.handlers[e.h].pc.ref));
    hide End, Go, Added;
  }

  lemma BeforeTells(w: World, e: Event)
    requires Inv(w) && Ready(w) && Guard(w, e) && !e.Crash?
    ensures !Saves(w, e) ==> (ReplyTo(w, e).Some? <==> e.h !in BeforeSave(w, e).handlers)
    ensures Saves(w, e) ==> (e.StartSubmit? || e.Eligible? || e.AddReturned? || e.Continue? || e.JournalRead?
                             || e.StatusReturned? || e.IncReturned? || e.ResultRead?)
                            && (ReplyTo(w, e).Some? <==> !e.fault.NoFault? || e.Continue?)
  {
    Unfold(w);
    hide Inv, Shape, AddsOk, CallsOk, FlagsOk, Ready, RefsOk;
    match e
    case StartSubmit(h, _, _, _, _, _) =>
      Unused(w, h);
      SubmitTells(w, e);
    case StartStatus(h, _) =>
      Unused(w, h);
      QueryTells(w, e);
    case Eligible(_, _, _, _, _, _) => EligibleTells(w, e);
    case _ => HoldingTells(w, e);
  }

  lemma SubmitTells(w: World, e: Event)
    requires Ready(w) && Guard(w, e) && e.StartSubmit? && e.h !in w.handlers
    ensures !Saves(w, e) ==> (ReplyTo(w, e).Some? <==> e.h !in BeforeSave(w, e).handlers)
    ensures Saves(w, e) ==> (ReplyTo(w, e).Some? <==> !e.fault.NoFault?)
  {
    SubmitAt(w, e);
    GoneNotice(w, e.h);
    PlacedStarts(w, e.h, e.id, e.fingerprint, Ref(e.id, 0), Handler(e.id, Submit(e.fingerprint), Eligibility));
    hide RefsOk, Arrive, Notice, Enter, Recover, BeforeSave;
  }

  lemma QueryTells(w: World, e: Event)
    requires Ready(w) && Guard(w, e) && e.StartStatus? && e.h !in w.handlers
    ensures !Saves(w, e) && (ReplyTo(w, e).Some? <==> e.h !in BeforeSave(w, e).handlers)
  {
    GoneNotice(w, e.h);
    hide RefsOk, Notice, Watch;
    if e.id in w.memory {
      var ref := w.memory[e.id];
      PlacedStarts(w, e.h, e.id, w.heap[ref].fingerprint, ref, Handler(e.id, Status, AwaitRecords(ref)));
    }
  }

  lemma EligibleTells(w: World, e: Event)
    requires Ready(w) && Guard(w, e) && e.Eligible?
    ensures !Saves(w, e) ==> (ReplyTo(w, e).Some? <==> e.h !in BeforeSave(w, e).handlers)
    ensures Saves(w, e) ==> (ReplyTo(w, e).Some? <==> !e.fault.NoFault?)
  {
    var h := e.h;
    var x := w.handlers[h];
    RecheckFinds(w, x.id, x.kind.fingerprint, e.inWindow);
    GoneEnd(w, h, Increment(Birth(x.id, 0), ProblemSubmits));
    hide RefsOk, Recheck, End, TakeOver, Reserve;
    if e.admitted {
      match Recheck(w, x.id, x.kind.fingerprint, e.inWindow)
      case TakesOver(ref) => PlacedTakeOver(w, h, ref);
      case _ =>
    }
  }

  lemma HoldingTells(w: World, e: Event)
    requires Ready(w) && Guard(w, e) && !e.StartSubmit? && !e.StartStatus? && !e.Eligible? && !e.Crash?
    ensures !Saves(w, e) ==> (ReplyTo(w, e).Some? <==> e.h !in BeforeSave(w, e).handlers)
    ensures Saves(w, e) ==> (e.AddReturned? || e.Continue? || e.JournalRead? || e.StatusReturned?
                             || e.IncReturned? || e.ResultRead?)
                            && (ReplyTo(w, e).Some? <==> !e.fault.NoFault? || e.Continue?)
  {
    hide Ready, Guard, Saves, BeforeSave, ReplyTo;
    if e.Continue? {
      ContinueTells(w, e);
    } else if e.RecordsRead? {
      ReadTells(w, e);
    } else {
      WriteTells(w, e);
    }
  }

  lemma ContinueTells(w: World, e: Event)
    requires Ready(w) && Guard(w, e) && e.Continue?
    ensures !Saves(w, e) ==> ReplyTo(w, e).None? && e.h in BeforeSave(w, e).handlers
    ensures Saves(w, e) ==> ReplyTo(w, e).Some?
  {
    var h, x := e.h, w.handlers[e.h];
    PlacedGoes(w, h, AwaitJournal(x.pc.ref), x.pc.ref, ProblemSubmits);
    PlacedGoes(w, h, AwaitJournal(x.pc.ref), x.pc.ref, UserSubmits);
    hide RefsOk, Put, Go, CallUpdateStatus, CallInc;
  }

  lemma ReadTells(w: World, e: Event)
    requires Ready(w) && Guard(w, e) && e.RecordsRead?
    ensures !Saves(w, e) && (ReplyTo(w, e).Some? <==> e.h !in BeforeSave(w, e).handlers)
  {
    var h, x := e.h, w.handlers[e.h];
    GoneEnd(w, h, Increment(Birth(x.id, 0), ProblemSubmits));
    if e.found.Some? {
      PlacedGoes(w, h, AwaitResult(x.pc.ref, e.found.value), x.pc.ref, ProblemSubmits);
    }
    hide RefsOk, End, Go;
  }

  lemma WriteTells(w: World, e: Event)
    requires Ready(w) && Guard(w, e) && !e.StartSubmit? && !e.StartStatus? && !e.Eligible? && !e.Crash?
    requires !e.Continue? && !e.RecordsRead?
    ensures !Saves(w, e) ==> ReplyTo(w, e).Some? && e.h !in BeforeSave(w, e).handlers
    ensures Saves(w, e) ==> (e.AddReturned? || e.JournalRead? || e.StatusReturned? || e.IncReturned? || e.ResultRead?)
                            && (ReplyTo(w, e).Some? <==> !e.fault.NoFault?)
  {
    var h, x := e.h, w.handlers[e.h];
    var k := if x.pc.AwaitInc? then Increment(w.heap[x.pc.ref].birth, x.pc.counter)
             else Increment(Birth(x.id, 0), ProblemSubmits);
    GoneEnd(w, h, k);
    hide RefsOk, End, FailInc, Put, CountInc, Settled;
  }

  // ----- refusals -----

  /** Nothing the journal or the judge holds has changed. */
  ghost predicate Untouched(w: World, u: World) {
    && SameStore(w, u) && u.adds == w.adds && u.updateCalls == w.updateCalls && u.calls == w.calls
    && u.returned == w.returned && u.takeovers == w.takeovers
  }

  /** Whoever is told anything but a receipt, or that something failed, has changed nothing: conflicts,
      ambiguous entries, journals without the row, records not found or contradicted. */
  lemma RefusalsTouchNothing(ws: seq<World>, es: seq<Event>, limit: nat, i: nat)
    requires IsRun(ws, es, limit) && i < |es| && Ready(ws[i]) && Guard(ws[i], es[i])
    requires var reply := ReplyTo(ws[i], es[i]); reply.Some? && !reply.value.Receipt? && !reply.value.Failed?
    ensures Untouched(ws[i], ws[i + 1])
  {
    StepOf(ws, es, limit, i);
    hide IsRun, Ready, Guard, ReplyTo, Untouched, Saves, BeforeSave;
    RefusalEnds(ws[i], es[i]);
    UntouchedEnds(ws[i], es[i].h);
  }

  lemma UntouchedEnds(w: World, h: HandlerId)
    ensures Untouched(w, End(w, h)) && Untouched(w, Notice(w, h))
  {}

  lemma RefusalEnds(w: World, e: Event)
    requires Ready(w) && Guard(w, e)
    requires var reply := ReplyTo(w, e); reply.Some? && !reply.value.Receipt? && !reply.value.Failed?
    ensures !e.Crash? && !Saves(w, e) && (BeforeSave(w, e) == End(w, e.h) || BeforeSave(w, e) == Notice(w, e.h))
  {
    hide RefsOk, End, Notice, Put, Recover, Enter, Watch, TakeOver, Reserve, Go, CountInc;
  }

  // ----- receipts -----

  /** A completed entry of the request's id, and of its payload if it submits. */
  ghost predicate Vouches(w: World, e: Event, x: Entry)
    requires Ready(w) && Guard(w, e)
  {
    && x.stamp.complete && x.statusUpdated && x.counted == {ProblemSubmits, UserSubmits}
    && match e
       case StartSubmit(_, id, fingerprint, _, _, _) => x.birth.id == id && x.fingerprint == fingerprint
       case StartStatus(_, _) => false
       case Crash => false
       case _ =>
         && e.h in w.handlers && x.birth.id == w.handlers[e.h].id
         && (w.handlers[e.h].kind.Submit? ==> w.handlers[e.h].kind == Submit(x.fingerprint))
  }

  /** A receipt is given out only for a completed entry of the request's own id and payload, under the
      record the entry names, or the one just found to be the submission's. */
  lemma ReceiptIsEarned(ws: seq<World>, es: seq<Event>, limit: nat, i: nat, rid: Option<RecordId>)
    returns (x: Entry)
    requires IsRun(ws, es, limit) && i < |es| && Ready(ws[i]) && Guard(ws[i], es[i])
    requires ReplyTo(ws[i], es[i]) == Some(Receipt(rid))
    ensures Has(ws[i + 1], x) && Vouches(ws[i], es[i], x)
    ensures if es[i].ResultRead? then rid == Some(ws[i].handlers[es[i].h].pc.found) else x.rid == rid
  {
    StepOf(ws, es, limit, i);
    RunKeeps(ws, es, limit, i);
    hide IsRun, Ready, Guard, ReplyTo;
    x := Vouched(ws[i], es[i], limit, rid);
  }

  lemma Vouched(w: World, e: Event, limit: nat, rid: Option<RecordId>) returns (x: Entry)
    requires Inv(w) && Enabled(w, e, limit) && Ready(w) && Guard(w, e) && ReplyTo(w, e) == Some(Receipt(rid))
    ensures Has(Apply(w, e, limit), x) && Vouches(w, e, x)
    ensures if e.ResultRead? then e.h in w.handlers && w.handlers[e.h].pc.AwaitResult?
                                  && rid == Some(w.handlers[e.h].pc.found)
            else x.rid == rid
  {
    ReceiptFrom(w, e, rid);
    hide Inv, Ready, Guard, Enabled, Apply, ReplyTo, Saves, BeforeSave, Settled, Has, Vouches, NextEffect;
    if e.Continue? {
      x := FinishVouches(w, e, limit);
    } else {
      var ref := if e.StartSubmit? then w.memory[e.id] else w.handlers[e.h].pc.ref;
      x := w.heap[ref];
      HeldVouches(w, e, ref);
      StaysThere(w, e, limit, ref);
    }
  }

  lemma HeldVouches(w: World, e: Event, ref: Ref)
    requires Inv(w) && Ready(w) && Guard(w, e)
    requires match e
             case StartSubmit(_, id, fingerprint, _, _, _) =>
               id in w.memory && ref == w.memory[id] && w.heap[ref].fingerprint == fingerprint
             case ResultRead(h, _, _, _) => ref == w.handlers[h].pc.ref
             case _ => false
    requires ref in w.heap && w.heap[ref].stamp.complete
    ensures Vouches(w, e, w.heap[ref])
  {
    Unfold(w);
    BackedComplete(w, ref);
    if e.ResultRead? {
      AboutHandler(w, e.h);
    } else {
      AboutMemory(w, e.id);
    }
    BirthOf(w, ref);
    hide Inv, Shape, AddsOk, CallsOk, FlagsOk, Ready, RefsOk, EntriesOk;
  }

  lemma BirthOf(w: World, ref: Ref)
    requires Shape(w) && ref in w.heap
    ensures w.heap[ref].birth.id == ref.id
  {}

  lemma BackedComplete(w: World, ref: Ref)
    requires FlagsOk(w) && ref in w.heap && w.heap[ref].stamp.complete
    ensures w.heap[ref].statusUpdated && w.heap[ref].counted == {ProblemSubmits, UserSubmits}
  {
    assert Backed(w, w.heap[ref]);
    hide FlagsOk, Count;
    BothCounters(w.heap[ref].counted);
  }

  lemma StaysThere(w: World, e: Event, limit: nat, ref: Ref)
    requires Enabled(w, e, limit) && Ready(w) && Guard(w, e) && !Saves(w, e) && !e.Crash? && ref in w.heap
    requires BeforeSave(w, e) == Notice(w, e.h) || BeforeSave(w, e) == End(w, e.h)
    ensures Has(Apply(w, e, limit), w.heap[ref])
  {
    StillEnds(w, e.h, Increment(w.heap[ref].birth, ProblemSubmits), Handler(ref.id, Status, Eligibility));
    hide Enabled, Ready, Guard, Saves, BeforeSave, Notice, End, Enter, FailInc;
    assert Apply(w, e, limit).heap[ref] == w.heap[ref];
  }

  lemma FinishVouches(w: World, e: Event, limit: nat) returns (x: Entry)
    requires Inv(w) && Enabled(w, e, limit) && Ready(w) && Guard(w, e) && e.Continue? && Saves(w, e)
    requires NextEffect(w.heap[w.handlers[e.h].pc.ref], w.handlers[e.h].pc.recovering).Finish?
    ensures Has(Apply(w, e, limit), x) && Vouches(w, e, x) && x.rid == w.heap[w.handlers[e.h].pc.ref].rid
  {
    Unfold(w);
    AboutHandler(w, e.h);
    var ref := w.handlers[e.h].pc.ref;
    BirthOf(w, ref);
    x := w.heap[ref].(stamp := w.heap[ref].stamp.(complete := true));
    BothCounters(x.counted);
    FinishedHeap(w, e, limit);
    hide Inv, Shape, AddsOk, CallsOk, FlagsOk, Ready, RefsOk, EntriesOk, Apply, Enabled, Saves;
  }

  lemma FinishedHeap(w: World, e: Event, limit: nat)
    requires Enabled(w, e, limit) && Ready(w) && Guard(w, e) && e.Continue? && Saves(w, e)
    requires NextEffect(w.heap[w.handlers[e.h].pc.ref], w.handlers[e.h].pc.recovering).Finish?
    ensures var u, ref := Apply(w, e, limit), w.handlers[e.h].pc.ref;
            ref in u.heap && u.heap[ref] == w.heap[ref].(stamp := w.heap[ref].stamp.(complete := true))
  {
    var ref := w.handlers[e.h].pc.ref;
    var u := BeforeSave(w, e);
    assert u == Put(w, ref, w.heap[ref].(stamp := w.heap[ref].stamp.(complete := true))) by { hide RefsOk, Put; }
    hide BeforeSave, Ready, Guard, Saves, Save, AfterSave, Pruned, StampsOf, RefsOk, SameStore;
    SavedHeap(u, e.kept, e.fault);
    AfterSameStore(Save(u, e.kept, e.fault), e);
    StoreHeap(Save(u, e.kept, e.fault), AfterSave(Save(u, e.kept, e.fault), e));
  }

  lemma ReceiptFrom(w: World, e: Event, rid: Option<RecordId>)
    requires Ready(w) && Guard(w, e) && ReplyTo(w, e) == Some(Receipt(rid))
    ensures match e
            case StartSubmit(_, id, fingerprint, _, _, _) =>
              id in w.memory && w.heap[w.memory[id]].stamp.complete && w.heap[w.memory[id]].fingerprint == fingerprint
              && rid == w.heap[w.memory[id]].rid && !Saves(w, e) && BeforeSave(w, e) == Notice(w, e.h)
            case Continue(h, _, fault) =>
              fault.NoFault? && NextEffect(w.heap[w.handlers[h].pc.ref], w.handlers[h].pc.recovering).Finish?
              && rid == w.heap[w.handlers[h].pc.ref].rid && Saves(w, e)
            case ResultRead(h, agrees, _, _) =>
              agrees && Settled(w, h) && rid == Some(w.handlers[h].pc.found) && !Saves(w, e)
              && BeforeSave(w, e) == End(w, h)
            case _ => false
  {
    hide Notice, End, Put;
  }
}
