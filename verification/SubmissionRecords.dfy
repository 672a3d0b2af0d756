/** Where handlers come from, and which record an entry names when its status is updated. */
module SubmissionRecords {
  import opened Basics
  import opened JournalStore
  import opened SubmissionProtocol
  import opened SubmissionSafety
  import opened SubmissionSteps
  import opened SubmissionEvidence
  import opened SubmissionProgress

  // ----- where a handler comes from -----

  /** A handler of a run was there before and nothing happened to it, or the last event put it there. */
  lemma HandlerCame(ws: seq<World>, es: seq<Event>, limit: nat, i: nat, h: HandlerId)
    requires IsRun(ws, es, limit) && i < |ws| && h in ws[i].handlers
    ensures 0 < i <= |es| < |ws| && !es[i - 1].Crash? && Ready(ws[i - 1]) && Guard(ws[i - 1], es[i - 1])
    ensures if es[i - 1].h == h then Lands(ws[i - 1], es[i - 1], ws[i].takeovers, ws[i].handlers[h])
            else h in ws[i - 1].handlers && ws[i].handlers[h] == ws[i - 1].handlers[h]
  {
    hide *;
    StartsEmpty(ws, es, limit);
    if i == 0 {
      NobodyFirst();
    } else {
      StepOf(ws, es, limit, i - 1);
      RunKeeps(ws, es, limit, i - 1);
      EnabledGuard(ws[i - 1], es[i - 1], limit);
      if es[i - 1].Crash? {
        NobodyAfter(ws[i - 1], es[i - 1], limit);
      } else {
        ApplyLands(ws[i - 1], es[i - 1], limit);
        LandedAt(ws[i - 1], es[i - 1], ws[i], h);
      }
    }
  }

  lemma NobodyFirst()
    ensures INITIAL.handlers == map[]
  {}

  lemma NobodyAfter(w: World, e: Event, limit: nat)
    requires Enabled(w, e, limit) && e.Crash?
    ensures Apply(w, e, limit).handlers == map[]
  {
    CrashReloads(w, limit);
    hide Enabled, Apply, Ready, RefsOk;
  }

  lemma EnabledGuard(w: World, e: Event, limit: nat)
    requires Enabled(w, e, limit)
    ensures Ready(w) && Guard(w, e)
  {
    hide Ready, Guard, Saves, BeforeSave, Pruned, StampsOf, RefsOk;
  }

  lemma LandedAt(w: World, e: Event, u: World, h: HandlerId)
    requires Ready(w) && Guard(w, e) && !e.Crash? && LandsIn(w, e, u) && h in u.handlers
    ensures if e.h == h then Lands(w, e, u.takeovers, u.handlers[h])
            else h in w.handlers && u.handlers[h] == w.handlers[h]
  {
    hide Ready, Guard, Lands;
  }

  /** The event that started a request. */
  ghost predicate Starts(e: Event, h: HandlerId, x: Handler) {
    match e
    case StartSubmit(g, id, fingerprint, _, _, _) => g == h && id == x.id && x.kind == Submit(fingerprint)
    case StartStatus(g, id) => g == h && id == x.id && x.kind.Status?
    case _ => false
  }

  /** Whoever is under way asked for that id, and for that payload if it submits. */
  lemma {:induction false} HandlerStarted(ws: seq<World>, es: seq<Event>, limit: nat, i: nat, h: HandlerId)
    returns (k: nat)
    requires IsRun(ws, es, limit) && i < |ws| && h in ws[i].handlers
    ensures k < i <= |es| < |ws| && Starts(es[k], h, ws[i].handlers[h])
  {
    hide *;
    HandlerCame(ws, es, limit, i, h);
    k := i - 1;
    if !Starts(es[i - 1], h, ws[i].handlers[h]) {
      LandedSame(ws[i - 1], es[i - 1], ws[i], h);
      k := HandlerStarted(ws, es, limit, i - 1, h);
      StartsSame(es[k], h, ws[i - 1].handlers[h], ws[i].handlers[h]);
    }
  }

  lemma StartsSame(e: Event, h: HandlerId, x: Handler, y: Handler)
    requires Starts(e, h, x) && Same(x, y)
    ensures Starts(e, h, y)
  {}

  lemma LandedSame(w: World, e: Event, u: World, h: HandlerId)
    requires Ready(w) && Guard(w, e) && !e.Crash? && h in u.handlers && !Starts(e, h, u.handlers[h])
    requires if e.h == h then Lands(w, e, u.takeovers, u.handlers[h])
             else h in w.handlers && u.handlers[h] == w.handlers[h]
    ensures h in w.handlers && Same(w.handlers[h], u.handlers[h])
  {
    hide RefsOk;
  }

  /** A query found this record for its entry, which had none or the same. */
  ghost predicate FoundAt(w: World, e: Event, h: HandlerId, pc: Pc)
    requires pc.AwaitResult?
  {
    && e == RecordsRead(h, Some(pc.found)) && h in w.handlers && w.handlers[h].pc == AwaitRecords(pc.ref)
    && pc.ref in w.heap && (w.heap[pc.ref].rid.None? || w.heap[pc.ref].rid == Some(pc.found))
  }

  /** A query that compares a result found its record before, and nothing contradicted it then. */
  lemma {:induction false} ResultWasFound(ws: seq<World>, es: seq<Event>, limit: nat, i: nat, h: HandlerId)
    returns (k: nat)
    requires IsRun(ws, es, limit) && i < |ws| && h in ws[i].handlers && ws[i].handlers[h].pc.AwaitResult?
    ensures k < i <= |es| < |ws| && FoundAt(ws[k], es[k], h, ws[i].handlers[h].pc)
  {
    hide *;
    HandlerCame(ws, es, limit, i, h);
    k := i - 1;
    if es[i - 1].h != h {
      k := ResultWasFound(ws, es, limit, i - 1, h);
    } else {
      LandedResult(ws[i - 1], es[i - 1], ws[i].takeovers, ws[i].handlers[h]);
    }
  }

  lemma LandedResult(w: World, e: Event, takeovers: set<Call>, y: Handler)
    requires Ready(w) && Guard(w, e) && !e.Crash? && Lands(w, e, takeovers, y) && y.pc.AwaitResult?
    ensures FoundAt(w, e, e.h, y.pc)
  {
    hide RefsOk;
  }

  // ----- status updated, but of which record -----

  /** A submit found the entry only after its own checks, and went on with it as it was. */
  ghost predicate TakenOver(w: World, b: Birth) {
    exists h :: Call(b, h) in w.takeovers
  }

  ghost predicate Known(w: World, x: Entry) {
    x.rid.Some? || TakenOver(w, x.birth)
  }

  /** Past the add, or past the finding of a record. */
  predicate Settling(pc: Pc) {
    pc.Complete? || pc.AwaitJournal? || pc.AwaitStatus? || pc.AwaitInc?
  }

  ghost predicate RecordOk(w: World) {
    && (forall x :: Has(w, x) && x.statusUpdated ==> Known(w, x))
    && (forall h :: h in w.handlers && Settling(w.handlers[h].pc) && w.handlers[h].pc.ref in w.heap ==>
          Known(w, w.heap[w.handlers[h].pc.ref]))
  }

  lemma KnownStays(w: World, u: World, x: Entry, y: Entry)
    requires Known(w, x) && w.takeovers <= u.takeovers && y.birth == x.birth && (x.rid.Some? ==> y.rid.Some?)
    ensures Known(u, y)
  {}

  lemma TakeoversGrow(w: World, e: Event, limit: nat)
    requires Inv(w) && Enabled(w, e, limit) && !e.Crash?
    ensures w.takeovers <= Apply(w, e, limit).takeovers
  {
    BeforeTakeovers(w, e);
    if Saves(w, e) {
      var u := BeforeSave(w, e);
      hide Inv, BeforeSave, Ready, Guard, Saves, Save, AfterSave, Pruned, StampsOf, RefsOk, Where;
      WhereSaves(u, e.kept, e.fault);
      AfterFollows(Save(u, e.kept, e.fault), e);
      FollowsTakeovers(u, Save(u, e.kept, e.fault), AfterSave(Save(u, e.kept, e.fault), e), e);
    }
  }

  lemma FollowsTakeovers(u: World, s: World, v: World, e: Event)
    requires !e.Crash? && e.h in s.handlers && HasRef(s.handlers[e.h].pc)
    requires Where(u, s) && SubmissionSteps.Follows(s, v, e)
    ensures v.takeovers == u.takeovers
  {
    hide Gone, Placed;
  }

  lemma BeforeTakeovers(w: World, e: Event)
    requires Inv(w) && Ready(w) && Guard(w, e) && !e.Crash?
    ensures w.takeovers <= BeforeSave(w, e).takeovers
  {
    hide *;
    BeforeSteps(w, e);
    EffectTakeovers(w, BeforeSave(w, e), e.h);
  }

  lemma EffectTakeovers(w: World, u: World, h: HandlerId)
    requires Effect(w, u, h)
    ensures w.takeovers <= u.takeovers
  {}

  /** What add returns, or a query found, is in the entry afterwards. */
  lemma RecordWritten(w: World, e: Event, limit: nat)
    requires Enabled(w, e, limit) && Saves(w, e) && (e.AddReturned? || e.ResultRead?)
    ensures var u, ref := Apply(w, e, limit), w.handlers[e.h].pc.ref;
            ref in u.heap && u.heap[ref].rid.Some? && ref in w.heap && u.heap[ref].birth == w.heap[ref].birth
  {
    WrittenBefore(w, e);
    var u := BeforeSave(w, e);
    hide BeforeSave, Ready, Guard, Saves, Save, AfterSave, Pruned, StampsOf, RefsOk, SameStore;
    SavedHeap(u, e.kept, e.fault);
    AfterSameStore(Save(u, e.kept, e.fault), e);
    StoreHeap(Save(u, e.kept, e.fault), AfterSave(Save(u, e.kept, e.fault), e));
  }

  lemma WrittenBefore(w: World, e: Event)
    requires Ready(w) && Guard(w, e) && Saves(w, e) && (e.AddReturned? || e.ResultRead?)
    ensures var u, ref := BeforeSave(w, e), w.handlers[e.h].pc.ref;
            ref in u.heap && u.heap[ref].rid.Some? && ref in w.heap && u.heap[ref].birth == w.heap[ref].birth
  {
    hide RefsOk, Settled;
  }

  lemma SavedHeap(u: World, kept: set<Key>, fault: Fault)
    requires RefsOk(u)
    ensures Save(u, kept, fault).heap == u.heap
  {}

  lemma StoreHeap(s: World, v: World)
    requires SameStore(s, v)
    ensures v.heap == s.heap
  {}

  /** The handler of the event knows the record of what it goes on with. */
  lemma LandsKnown(w: World, e: Event, u: World)
    requires Ready(w) && Guard(w, e) && !e.Crash? && RecordOk(w)
    requires e.h in u.handlers && Lands(w, e, u.takeovers, u.handlers[e.h])
    requires w.takeovers <= u.takeovers && (forall r :: r in w.heap ==> r in u.heap && Progress(w.heap[r], u.heap[r]))
    requires e.AddReturned? || e.ResultRead? ==>
               var ref := w.handlers[e.h].pc.ref; ref in u.heap && u.heap[ref].rid.Some?
    requires Settling(u.handlers[e.h].pc) && u.handlers[e.h].pc.ref in u.heap
    ensures Known(u, u.heap[u.handlers[e.h].pc.ref])
  {
    var ref := u.handlers[e.h].pc.ref;
    LandsFrom(w, e, u.takeovers, u.handlers[e.h]);
    hide Lands, Guard, Ready, Has, RecordOk, Progress;
    if e.StartSubmit? {
      StartKnown(w, u, ref);
    } else if e.Eligible? {
      TakenStays(w, u, ref, e.h);
    } else if !e.AddReturned? && !e.ResultRead? {
      HeldKnown(w, u, e.h);
    }
  }

  /** What a settling handler got hold of. */
  lemma LandsFrom(w: World, e: Event, takeovers: set<Call>, y: Handler)
    requires Ready(w) && Guard(w, e) && !e.Crash? && Lands(w, e, takeovers, y) && Settling(y.pc)
    ensures y.pc.ref in w.heap
    ensures e.StartSubmit? ==> w.heap[y.pc.ref].rid.Some?
    ensures e.Eligible? ==> Call(w.heap[y.pc.ref].birth, e.h) in takeovers
    ensures !e.StartSubmit? && !e.Eligible? ==>
              && e.h in w.handlers && HasRef(w.handlers[e.h].pc) && w.handlers[e.h].pc.ref == y.pc.ref
              && (Settling(w.handlers[e.h].pc) || e.AddReturned? || e.ResultRead?)
  {
    hide RefsOk, Settled;
  }

  lemma StartKnown(w: World, u: World, ref: Ref)
    requires ref in w.heap && ref in u.heap && Progress(w.heap[ref], u.heap[ref]) && w.heap[ref].rid.Some?
    ensures Known(u, u.heap[ref])
  {}

  lemma HeldKnown(w: World, u: World, h: HandlerId)
    requires RecordOk(w) && h in w.handlers && Settling(w.handlers[h].pc) && w.handlers[h].pc.ref in w.heap
    requires w.takeovers <= u.takeovers && (forall r :: r in w.heap ==> r in u.heap && Progress(w.heap[r], u.heap[r]))
    ensures Known(u, u.heap[w.handlers[h].pc.ref])
  {
    hide Has;
    var ref := w.handlers[h].pc.ref;
    KnownStays(w, u, w.heap[ref], u.heap[ref]);
  }

  lemma TakenStays(w: World, u: World, ref: Ref, h: HandlerId)
    requires ref in w.heap && ref in u.heap && Progress(w.heap[ref], u.heap[ref])
    requires Call(w.heap[ref].birth, h) in u.takeovers
    ensures Known(u, u.heap[ref])
  {}

  lemma OthersKnown(w: World, u: World, h: HandlerId, g: HandlerId)
    requires RecordOk(w) && g in w.handlers && g in u.handlers && u.handlers[g] == w.handlers[g]
    requires w.takeovers <= u.takeovers && (forall r :: r in w.heap ==> r in u.heap && Progress(w.heap[r], u.heap[r]))
    requires Settling(u.handlers[g].pc) && HasRef(u.handlers[g].pc) && u.handlers[g].pc.ref in w.heap
    ensures Known(u, u.heap[u.handlers[g].pc.ref])
  {
    hide Has;
    var ref := w.handlers[g].pc.ref;
    KnownStays(w, u, w.heap[ref], u.heap[ref]);
  }

  lemma EntriesKnown(w: World, e: Event, u: World, x: Entry)
    requires Ready(w) && Guard(w, e) && RecordOk(w) && w.takeovers <= u.takeovers
    requires Explained(w, e, x) && x.statusUpdated
    ensures Known(u, x)
  {
    hide RefsOk, Has, ShowsRecord, ShowsCount, ShowsAdmission;
    var y :| Has(w, y) && Justified(w, e, y, x);
    if y.statusUpdated {
      KnownStays(w, u, y, x);
    } else if !e.ResultRead? {
      assert Holder(w, e, y) && Settling(w.handlers[e.h].pc);
      KnownStays(w, u, y, x);
    }
  }

  lemma CrashKnown(w: World, limit: nat)
    requires Enabled(w, Crash, limit) && RecordOk(w)
    ensures RecordOk(Apply(w, Crash, limit))
  {
    CrashReloads(w, limit);
    hide Apply, Enabled, Ready, RefsOk;
    var u := Restart(w);
    RestartSubset(w);
    assert u.handlers == map[] && u.takeovers == w.takeovers;
    hide Restart, Has;
    forall x | Has(u, x) && x.statusUpdated ensures Known(u, x) {
      KnownStays(w, u, x, x);
    }
  }

  lemma ApplyKnown(w: World, e: Event, limit: nat)
    requires Inv(w) && DiskBehind(w) && Enabled(w, e, limit) && RecordOk(w)
    ensures RecordOk(Apply(w, e, limit))
  {
    if e.Crash? {
      hide *;
      CrashKnown(w, limit);
    } else {
      var u := Apply(w, e, limit);
      EnabledGuard(w, e, limit);
      ApplyExplains(w, e, limit);
      ApplyLands(w, e, limit);
      TakeoversGrow(w, e, limit);
      ApplyRises(w, e, limit);
      LandedWrites(w, e, limit);
      RefsThere(w);
      hide Inv, DiskBehind, Enabled, Apply, Ready, Guard, Has, Explained, Known, Lands, RecordOk, DiskOnlyRises,
        Progress;
      StillKnown(w, e, u);
    }
  }

  lemma RefsThere(w: World)
    requires Inv(w)
    ensures forall h :: h in w.handlers && HasRef(w.handlers[h].pc) ==> w.handlers[h].pc.ref in w.heap
  {
    Unfold(w);
    hide Inv, Shape, RefsOk, CallsOk, AddsOk, FlagsOk;
  }

  lemma LandedWrites(w: World, e: Event, limit: nat)
    requires Inv(w) && Enabled(w, e, limit) && !e.Crash?
    ensures var u := Apply(w, e, limit);
            e.h in u.handlers && (e.AddReturned? || e.ResultRead?) ==>
              && e.h in w.handlers && HasRef(w.handlers[e.h].pc)
              && var ref := w.handlers[e.h].pc.ref; ref in u.heap && u.heap[ref].rid.Some?
  {
    if e.AddReturned? || e.ResultRead? {
      if Saves(w, e) {
        RecordWritten(w, e, limit);
        hide Inv, Apply, Saves, Ready;
      } else {
        hide Inv;
        AlwaysSaves(w, e);
        RefusedBefore(w, e);
        GoneEnd(w, e.h, Increment(Birth(w.handlers[e.h].id, 0), ProblemSubmits));
        hide BeforeSave, End, Ready, Saves;
      }
    }
  }

  lemma StillKnown(w: World, e: Event, u: World)
    requires Ready(w) && Guard(w, e) && !e.Crash? && RecordOk(w)
    requires Explains(w, e, u) && LandsIn(w, e, u) && w.takeovers <= u.takeovers && Rises(w, u)
    requires e.h in u.handlers && (e.AddReturned? || e.ResultRead?) ==>
               && e.h in w.handlers && HasRef(w.handlers[e.h].pc)
               && var ref := w.handlers[e.h].pc.ref; ref in u.heap && u.heap[ref].rid.Some?
    requires forall h :: h in w.handlers && HasRef(w.handlers[h].pc) ==> w.handlers[h].pc.ref in w.heap
    ensures RecordOk(u)
  {
    hide Ready, Guard, Has, Explained, Known, Lands, DiskOnlyRises, Progress, RecordOk;
    forall x | Has(u, x) && x.statusUpdated ensures Known(u, x) {
      EntriesKnown(w, e, u, x);
    }
    forall h | h in u.handlers && Settling(u.handlers[h].pc) && u.handlers[h].pc.ref in u.heap
      ensures Known(u, u.heap[u.handlers[h].pc.ref])
    {
      if h == e.h {
        LandsKnown(w, e, u);
      } else {
        OthersKnown(w, u, e.h, h);
      }
    }
    RecordFolds(u);
  }

  lemma RecordFolds(u: World)
    requires forall x :: Has(u, x) && x.statusUpdated ==> Known(u, x)
    requires forall h :: h in u.handlers && Settling(u.handlers[h].pc) && u.handlers[h].pc.ref in u.heap ==>
               Known(u, u.heap[u.handlers[h].pc.ref])
    ensures RecordOk(u)
  {
    hide Has, Known;
  }

  lemma InitialKnown()
    ensures RecordOk(INITIAL)
  {}

  lemma {:induction false} RecordRun(ws: seq<World>, es: seq<Event>, limit: nat, i: nat)
    requires IsRun(ws, es, limit) && i < |ws|
    ensures RecordOk(ws[i])
  {
    hide *;
    StartsEmpty(ws, es, limit);
    if i == 0 {
      InitialKnown();
    } else {
      RecordRun(ws, es, limit, i - 1);
      BehindRun(ws, es, limit, i - 1);
      StepOf(ws, es, limit, i - 1);
      ApplyKnown(ws[i - 1], es[i - 1], limit);
    }
  }

  /** An entry whose status was updated names its record, unless a submit took it over before any
      record was known; where submits of an id do not overlap, it always does. */
  lemma UpdatedHasRecord(ws: seq<World>, es: seq<Event>, limit: nat, i: nat, x: Entry)
    requires IsRun(ws, es, limit) && i < |ws| && Has(ws[i], x) && x.statusUpdated
    ensures x.rid.Some? || exists h :: Call(x.birth, h) in ws[i].takeovers
    ensures SubmitsApartRun(ws, es, limit) ==> x.rid.Some?
  {
    RecordRun(ws, es, limit, i);
    if SubmitsApartRun(ws, es, limit) {
      SoloRun(ws, es, limit, i);
    }
    hide IsRun, SubmitsApartRun, Inv, Has;
    assert Known(ws[i], x);
  }
}
