/** At most one submit and one status query work on the entry of an id at a time. */
module SubmissionOwners {
  import opened JournalStore
  import opened SubmissionProtocol
  import opened SubmissionSafety

  /** A mark names a request of its id that is under way, and of its payload if it submits. */
  ghost predicate MarksOk(w: World) {
    && (forall id :: id in w.inFlight ==>
          var h := w.inFlight[id].handler;
          h in w.handlers && w.handlers[h].id == id && w.handlers[h].kind == Submit(w.inFlight[id].fingerprint))
    && (forall id :: id in w.resolving ==>
          var h := w.resolving[id];
          h in w.handlers && w.handlers[h].id == id && w.handlers[h].kind.Status?)
  }

  /** Whoever holds an entry is the one marked as at work on its id. */
  ghost predicate OwnersOk(w: World) {
    MarksOk(w) && forall h :: h in w.handlers && HasRef(w.handlers[h].pc) ==> Owns(w, h)
  }

  lemma OwnersFrame(w: World, u: World)
    requires OwnersOk(w) && Quiet(w, u)
    ensures OwnersOk(u)
  {
    hide Owns;
  }

  /** A new handler, and nobody else's mark is gone. */
  lemma OwnersArrives(w: World, h: HandlerId, handler: Handler, u: World)
    requires OwnersOk(w) && h !in w.handlers && u.handlers == w.handlers[h := handler]
    requires forall g :: g in w.handlers && Owns(w, g) ==> Owns(u, g)
    requires HasRef(handler.pc) ==> Owns(u, h)
    requires MarksOk(u)
    ensures OwnersOk(u)
  {
    hide Owns;
  }

  lemma MarksRecover(w: World, h: HandlerId, id: Key, fingerprint: Fingerprint, ref: Ref)
    requires h !in w.handlers && id !in w.inFlight && MarksOk(w)
    ensures var u := Recover(w, h, id, fingerprint, ref);
            MarksOk(u) && Owns(u, h) && forall g :: g in w.handlers && Owns(w, g) ==> Owns(u, g)
  {}

  lemma MarksWatch(w: World, h: HandlerId, id: Key, ref: Ref)
    requires h !in w.handlers && id !in w.resolving && MarksOk(w)
    ensures var u := Watch(w, h, id, ref);
            MarksOk(u) && Owns(u, h) && forall g :: g in w.handlers && Owns(w, g) ==> Owns(u, g)
  {}

  lemma MarksEnter(w: World, h: HandlerId, handler: Handler)
    requires h !in w.handlers && MarksOk(w)
    ensures var u := Enter(w, h, handler); MarksOk(u) && forall g :: g in w.handlers && Owns(w, g) ==> Owns(u, g)
  {}

  lemma OwnersTakeOver(w: World, h: HandlerId, ref: Ref)
    requires OwnersOk(w) && h in w.handlers && w.handlers[h].kind.Submit? && ref in w.heap
    requires w.handlers[h].id !in w.inFlight
    ensures OwnersOk(TakeOver(w, h, ref))
  {}

  lemma OwnersReserve(w: World, h: HandlerId, now: int)
    requires OwnersOk(w) && h in w.handlers && w.handlers[h].kind.Submit? && w.handlers[h].id !in w.inFlight
    ensures OwnersOk(Reserve(w, h, now))
  {}

  lemma OwnersRestart(w: World)
    ensures OwnersOk(Restart(w))
  {}

  lemma OwnersNotice(w: World, h: HandlerId)
    requires OwnersOk(w)
    ensures OwnersOk(Notice(w, h))
  {}

  lemma NobodyAtWork(w: World, id: Key, fingerprint: Fingerprint, inWindow: bool)
    requires RefsOk(w)
    ensures Arrive(w, id, fingerprint).Recovers? ==> id !in w.inFlight
    ensures var s := Recheck(w, id, fingerprint, inWindow); s.TakesOver? || s.Reserves? ==> id !in w.inFlight
  {}

  lemma OwnersSubmits(w: World, e: Event)
    requires OwnersOk(w) && Ready(w) && Guard(w, e) && e.StartSubmit? && e.h !in w.handlers
    ensures OwnersOk(BeforeSave(w, e))
  {
    NobodyAtWork(w, e.id, e.fingerprint, true);
    OwnersNotice(w, e.h);
    hide OwnersOk, Owns, Arrive, RefsOk, Recover, Enter, Notice;
    match Arrive(w, e.id, e.fingerprint)
    case Recovers(ref) =>
      MarksRecover(w, e.h, e.id, e.fingerprint, ref);
      var u := Recover(w, e.h, e.id, e.fingerprint, ref);
      RecoverIs(w, e.h, e.id, e.fingerprint, ref);
      OwnersArrives(w, e.h, Handler(e.id, Submit(e.fingerprint), Complete(ref, true)), u);
    case Proceeds =>
      if e.leased {
        var handler := Handler(e.id, Submit(e.fingerprint), Eligibility);
        MarksEnter(w, e.h, handler);
        EnterIs(w, e.h, handler);
        OwnersArrives(w, e.h, handler, Enter(w, e.h, handler));
      }
    case _ =>
  }

  lemma OwnersQueries(w: World, e: Event)
    requires OwnersOk(w) && Ready(w) && Guard(w, e) && e.StartStatus? && e.h !in w.handlers
    ensures OwnersOk(BeforeSave(w, e))
  {
    OwnersNotice(w, e.h);
    hide OwnersOk, Owns, RefsOk;
    if e.id in w.memory && e.id !in w.resolving {
      MarksWatch(w, e.h, e.id, w.memory[e.id]);
      OwnersArrives(w, e.h, Handler(e.id, Status, AwaitRecords(w.memory[e.id])), BeforeSave(w, e));
    }
  }

  lemma OwnersEligible(w: World, e: Event)
    requires OwnersOk(w) && Ready(w) && Guard(w, e) && e.Eligible?
    ensures OwnersOk(BeforeSave(w, e))
  {
    var h := e.h;
    var id, fingerprint := w.handlers[h].id, w.handlers[h].kind.fingerprint;
    NobodyAtWork(w, id, fingerprint, e.inWindow);
    RecheckFinds(w, id, fingerprint, e.inWindow);
    QuietEnd(w, h);
    hide OwnersOk, Owns, Recheck, RefsOk, Quiet;
    OwnersFrame(w, End(w, h));
    match Recheck(w, id, fingerprint, e.inWindow)
    case TakesOver(ref) => OwnersTakeOver(w, h, ref);
    case Reserves => OwnersReserve(w, h, e.now);
    case _ =>
  }

  lemma OwnersBefore(w: World, e: Event)
    requires Inv(w) && OwnersOk(w) && Ready(w) && Guard(w, e)
    ensures OwnersOk(BeforeSave(w, e))
  {
    hide Inv, Shape, AddsOk, CallsOk, FlagsOk, Ready, RefsOk, OwnersOk, Quiet;
    Unfold(w);
    match e
    case StartSubmit(h, _, _, _, _, _) =>
      Unused(w, h);
      OwnersSubmits(w, e);
    case StartStatus(h, _) =>
      Unused(w, h);
      OwnersQueries(w, e);
    case Eligible(_, _, _, _, _, _) => OwnersEligible(w, e);
    case Crash => OwnersRestart(w);
    case _ =>
      QuietHolding(w, e);
      OwnersFrame(w, BeforeSave(w, e));
  }

  lemma OwnersAfter(w: World, e: Event, limit: nat)
    requires Enabled(w, e, limit) && OwnersOk(BeforeSave(w, e))
    ensures OwnersOk(Apply(w, e, limit))
  {
    if Saves(w, e) {
      var u := BeforeSave(w, e);
      var s := Save(u, e.kept, e.fault);
      hide BeforeSave, Ready, Guard, Saves, OwnersOk, Quiet, Pruned, StampsOf;
      QuietPrimitives(u, e.h, e.kept, e.fault);
      OwnersFrame(u, s);
      QuietSaved(s, e);
      OwnersFrame(s, AfterSave(s, e));
    }
  }

  lemma OwnersApply(w: World, e: Event, limit: nat)
    requires Inv(w) && OwnersOk(w) && Enabled(w, e, limit)
    ensures OwnersOk(Apply(w, e, limit))
  {
    hide Inv, OwnersOk, BeforeSave, Apply, Saves, Ready, Guard;
    OwnersBefore(w, e);
    OwnersAfter(w, e, limit);
  }

  lemma InitialOwners()
    ensures OwnersOk(INITIAL)
  {}

  lemma {:induction false} OwnersRun(ws: seq<World>, es: seq<Event>, limit: nat, i: nat)
    requires IsRun(ws, es, limit) && i < |ws|
    ensures OwnersOk(ws[i])
  {
    hide *;
    StartsEmpty(ws, es, limit);
    if i == 0 {
      InitialOwners();
    } else {
      OwnersRun(ws, es, limit, i - 1);
      RunKeeps(ws, es, limit, i - 1);
      StepOf(ws, es, limit, i - 1);
      OwnersApply(ws[i - 1], es[i - 1], limit);
    }
  }

  /** In every run, two requests of one kind never hold an entry of one id at a time: submits of an id
      are serialised, and so are its status queries. */
  lemma OneAtWork(ws: seq<World>, es: seq<Event>, limit: nat, i: nat, g: HandlerId, h: HandlerId)
    requires IsRun(ws, es, limit) && i < |ws| && g in ws[i].handlers && h in ws[i].handlers
    requires var x, y := ws[i].handlers[g], ws[i].handlers[h];
             HasRef(x.pc) && HasRef(y.pc) && x.id == y.id && (x.kind.Submit? <==> y.kind.Submit?)
    ensures g == h
  {
    OwnersRun(ws, es, limit, i);
    assert Owns(ws[i], g) && Owns(ws[i], h);
  }
}
