/** What earns each thing a journal entry says: for every flag and every record id, an earlier event. */
module SubmissionEvidence {
  import opened Basics
  import opened JournalStore
  import opened SubmissionProtocol
  import opened SubmissionSafety

  // ----- what an event shows -----

  /** A handler holds an entry of reservation `b`. */
  ghost predicate On(w: World, h: HandlerId, b: Birth) {
    && h in w.handlers && HasRef(w.handlers[h].pc)
    && w.handlers[h].pc.ref in w.heap && w.heap[w.handlers[h].pc.ref].birth == b
  }

  /** The contest journal holds the submission: updateStatus returned, or the row was found there. */
  ghost predicate ShowsStatus(w: World, e: Event, b: Birth) {
    match e
    case StatusReturned(h, _, _) => On(w, h, b) && w.handlers[h].pc.AwaitStatus?
    case JournalRead(h, present, _, _) => present && On(w, h, b) && w.handlers[h].pc.AwaitJournal?
    case ResultRead(h, agrees, _, _) => agrees && On(w, h, b) && w.handlers[h].pc.AwaitResult?
    case _ => false
  }

  /** The judge has this record for it: add returned it, or a query found it with an agreeing row. */
  ghost predicate ShowsRecord(w: World, e: Event, b: Birth, rid: RecordId) {
    match e
    case AddReturned(h, returned, _, _) => returned == rid && On(w, h, b) && w.handlers[h].pc.AwaitAdd?
    case ResultRead(h, agrees, _, _) =>
      agrees && On(w, h, b) && w.handlers[h].pc.AwaitResult? && w.handlers[h].pc.found == rid
    case _ => false
  }

  /** A call that moves the counter returned. */
  ghost predicate ShowsCount(w: World, e: Event, b: Birth, c: Counter) {
    e.IncReturned? && On(w, e.h, b) && w.handlers[e.h].pc.AwaitInc? && w.handlers[e.h].pc.counter == c
  }

  /** A submit of that id and payload passed its checks, in the window. */
  ghost predicate ShowsAdmission(w: World, e: Event, b: Birth, fingerprint: Fingerprint) {
    && e.Eligible? && e.admitted && e.inWindow && e.h in w.handlers
    && w.handlers[e.h] == Handler(b.id, Submit(fingerprint), Eligibility)
  }

  // ----- one event -----

  /** An entry in memory, or once in memory and still held, or on disk. */
  ghost predicate Has(w: World, x: Entry) {
    (exists r :: r in w.heap && w.heap[r] == x) || (exists id :: id in w.disk && w.disk[id] == x)
  }

  /** The handler of the event holds that very entry. */
  ghost predicate Holder(w: World, e: Event, y: Entry) {
    && !e.Crash? && e.h in w.handlers && HasRef(w.handlers[e.h].pc)
    && w.handlers[e.h].pc.ref in w.heap && w.heap[w.handlers[e.h].pc.ref] == y
  }

  /** `x` says no more than `y` did and the event shows. */
  ghost predicate Justified(w: World, e: Event, y: Entry, x: Entry) {
    && x.birth == y.birth && x.fingerprint == y.fingerprint && x.stamp.createdAt == y.stamp.createdAt
    && (x != y ==> Holder(w, e, y) && (e.ResultRead? ==> x.rid.Some?))
    && (x.statusUpdated ==> y.statusUpdated || ShowsStatus(w, e, x.birth))
    && (x.rid != y.rid ==> x.rid.Some? && ShowsRecord(w, e, x.birth, x.rid.value))
    && (forall c :: c in x.counted ==> c in y.counted || ShowsCount(w, e, x.birth, c))
    && (x.stamp.complete && !y.stamp.complete ==> x.statusUpdated && x.counted == {ProblemSubmits, UserSubmits})
  }

  /** A reservation says nothing yet. */
  predicate Bare(x: Entry) {
    x.rid.None? && !x.statusUpdated && x.counted == {} && !x.stamp.complete
  }

  ghost predicate Explained(w: World, e: Event, x: Entry) {
    || (exists y :: Has(w, y) && Justified(w, e, y, x))
    || (Bare(x) && ShowsAdmission(w, e, x.birth, x.fingerprint))
  }

  ghost predicate Explains(w: World, e: Event, u: World) {
    forall x :: Has(u, x) ==> Explained(w, e, x)
  }

  lemma Unchanged(w: World, e: Event, x: Entry)
    requires Has(w, x)
    ensures Explained(w, e, x)
  {
    assert Justified(w, e, x, x);
  }

  /** Nothing new was written. */
  ghost predicate Subset(w: World, u: World) {
    forall x :: Has(u, x) ==> Has(w, x)
  }

  lemma SubsetExplains(w: World, e: Event, u: World)
    requires Subset(w, u)
    ensures Explains(w, e, u)
  {
    hide Has, Explained;
    forall x | Has(u, x) ensures Explained(w, e, x) {
      Unchanged(w, e, x);
    }
  }

  lemma ExplainsFewer(w: World, e: Event, u: World, v: World)
    requires Explains(w, e, u) && Subset(u, v)
    ensures Explains(w, e, v)
  {
    hide Has, Explained;
  }

  lemma SameHeapSubset(w: World, u: World)
    requires u.heap == w.heap && u.disk == w.disk
    ensures Subset(w, u)
  {}

  lemma SaveSubset(w: World, kept: set<Key>, fault: Fault)
    requires RefsOk(w)
    ensures Subset(w, Save(w, kept, fault))
  {
    hide Births;
  }

  lemma RestartSubset(w: World)
    ensures Subset(w, Restart(w))
  {}

  /** One entry was overwritten. */
  lemma PutExplains(w: World, e: Event, u: World, ref: Ref)
    requires ref in w.heap && ref in u.heap && u.heap == w.heap[ref := u.heap[ref]] && u.disk == w.disk
    requires Justified(w, e, w.heap[ref], u.heap[ref])
    ensures Explains(w, e, u)
  {
    hide Justified;
    assert Has(w, w.heap[ref]);
    forall x | Has(u, x) ensures Explained(w, e, x) {
      if x != u.heap[ref] {
        assert Has(w, x);
        Unchanged(w, e, x);
      }
    }
  }

  lemma ReserveExplains(w: World, e: Event)
    requires Ready(w) && Guard(w, e) && e.Eligible? && e.admitted && e.inWindow
    ensures Explains(w, e, Reserve(w, e.h, e.now))
  {
    var u := Reserve(w, e.h, e.now);
    var ref := Ref(w.handlers[e.h].id, w.next);
    assert u.heap == w.heap[ref := u.heap[ref]] && u.disk == w.disk;
    assert Bare(u.heap[ref]) && ShowsAdmission(w, e, u.heap[ref].birth, u.heap[ref].fingerprint);
    hide Reserve, Ready, Justified, ShowsAdmission;
    forall x | Has(u, x) ensures Explained(w, e, x) {
      if x != u.heap[ref] {
        assert Has(w, x);
        Unchanged(w, e, x);
      }
    }
  }

  /** No entry was touched. */
  ghost predicate Still(w: World, u: World) {
    u.heap == w.heap && u.disk == w.disk
  }

  lemma StillExplains(w: World, e: Event, u: World)
    requires Still(w, u)
    ensures Explains(w, e, u)
  {
    SameHeapSubset(w, u);
    SubsetExplains(w, e, u);
    hide *;
  }

  lemma StillEnds(w: World, h: HandlerId, k: Increment, handler: Handler)
    ensures Still(w, End(w, h)) && Still(w, End(FailInc(w, k), h)) && Still(w, Notice(w, h))
    ensures Still(w, Enter(w, h, handler))
  {}

  lemma StillStarts(w: World, h: HandlerId, id: Key, fingerprint: Fingerprint, ref: Ref)
    ensures Still(w, Recover(w, h, id, fingerprint, ref))
  {}

  lemma StillWatch(w: World, h: HandlerId, id: Key, ref: Ref)
    ensures Still(w, Watch(w, h, id, ref))
  {}

  lemma StillTakeOver(w: World, h: HandlerId, ref: Ref)
    requires h in w.handlers && w.handlers[h].kind.Submit? && ref in w.heap
    ensures Still(w, TakeOver(w, h, ref))
  {}

  lemma StillGoes(w: World, h: HandlerId, pc: Pc, ref: Ref, counter: Counter)
    requires h in w.handlers && ref in w.heap
    ensures Still(w, Go(w, h, pc)) && Still(w, CallUpdateStatus(w, h, ref)) && Still(w, CallInc(w, h, ref, counter))
  {}

  lemma EligibleExplains(w: World, e: Event)
    requires Ready(w) && Guard(w, e) && e.Eligible?
    ensures Explains(w, e, BeforeSave(w, e))
  {
    var h := e.h;
    var id, fingerprint := w.handlers[h].id, w.handlers[h].kind.fingerprint;
    RecheckFinds(w, id, fingerprint, e.inWindow);
    ReservesInWindow(w, id, fingerprint, e.inWindow);
    StillEnds(w, h, Increment(Birth(id, 0), ProblemSubmits), w.handlers[h]);
    StillExplains(w, e, End(w, h));
    hide Explains, Recheck, Still, End, TakeOver, Reserve, RefsOk;
    if e.admitted {
      match Recheck(w, id, fingerprint, e.inWindow)
      case TakesOver(ref) =>
        StillTakeOver(w, h, ref);
        StillExplains(w, e, TakeOver(w, h, ref));
      case Reserves => ReserveExplains(w, e);
      case _ =>
    }
  }

  lemma ReservesInWindow(w: World, id: Key, fingerprint: Fingerprint, inWindow: bool)
    requires RefsOk(w)
    ensures Recheck(w, id, fingerprint, inWindow).Reserves? ==> inWindow
  {}

  /** A handler that holds an entry is on its reservation. */
  lemma OnIts(w: World, h: HandlerId)
    requires h in w.handlers && HasRef(w.handlers[h].pc) && w.handlers[h].pc.ref in w.heap
    ensures On(w, h, w.heap[w.handlers[h].pc.ref].birth)
  {}

  lemma ContinueExplains(w: World, e: Event)
    requires Ready(w) && Guard(w, e) && e.Continue?
    ensures Explains(w, e, BeforeSave(w, e))
  {
    var h, ref := e.h, w.handlers[e.h].pc.ref;
    hide Explains, Still, Go, CallUpdateStatus, CallInc, Put, RefsOk;
    match NextEffect(w.heap[ref], w.handlers[h].pc.recovering)
    case ReadJournal =>
      StillGoes(w, h, AwaitJournal(ref), ref, ProblemSubmits);
      StillExplains(w, e, Go(w, h, AwaitJournal(ref)));
    case UpdateStatus =>
      StillGoes(w, h, AwaitJournal(ref), ref, ProblemSubmits);
      StillExplains(w, e, CallUpdateStatus(w, h, ref));
    case Inc(counter) =>
      StillGoes(w, h, AwaitJournal(ref), ref, counter);
      StillExplains(w, e, CallInc(w, h, ref, counter));
    case Finish =>
      FinishJustified(w, e, w.heap[ref], w.handlers[h].pc.recovering);
      PutAt(w, e, ref, w.heap[ref].(stamp := w.heap[ref].stamp.(complete := true)));
  }

  lemma PutAt(w: World, e: Event, ref: Ref, x: Entry)
    requires ref in w.heap && Justified(w, e, w.heap[ref], x)
    ensures Explains(w, e, Put(w, ref, x))
  {
    hide Justified;
    PutExplains(w, e, Put(w, ref, x), ref);
  }

  lemma FinishJustified(w: World, e: Event, y: Entry, recovering: bool)
    requires NextEffect(y, recovering).Finish? && Holder(w, e, y) && !e.ResultRead?
    ensures Justified(w, e, y, y.(stamp := y.stamp.(complete := true)))
  {
    hide ShowsStatus, ShowsRecord, ShowsCount;
    BothCounters(y.counted);
  }

  lemma BothCounters(s: set<Counter>)
    requires ProblemSubmits in s && UserSubmits in s
    ensures s == {ProblemSubmits, UserSubmits}
  {
    forall c | c in s ensures c in {ProblemSubmits, UserSubmits} {
      match c
      case ProblemSubmits =>
      case UserSubmits =>
    }
  }

  /** Events that write the handler's entry. */
  lemma WriteExplains(w: World, e: Event)
    requires Ready(w) && Guard(w, e)
    requires e.AddReturned? || e.StatusReturned? || e.JournalRead? || e.ResultRead?
    ensures Explains(w, e, BeforeSave(w, e))
  {
    hide Explains, Ready, Guard, BeforeSave;
    if e.AddReturned? || e.StatusReturned? {
      ReturnExplains(w, e);
    } else {
      FoundExplains(w, e);
    }
  }

  lemma ReturnExplains(w: World, e: Event)
    requires Ready(w) && Guard(w, e) && (e.AddReturned? || e.StatusReturned?)
    ensures Explains(w, e, BeforeSave(w, e))
  {
    var ref := w.handlers[e.h].pc.ref;
    var y := w.heap[ref];
    OnIts(w, e.h);
    hide Explains, Put, RefsOk, On;
    match e
    case AddReturned(_, rid, _, _) => PutAt(w, e, ref, y.(rid := Some(rid)));
    case StatusReturned(_, _, _) => PutAt(w, e, ref, y.(statusUpdated := true));
  }

  lemma FoundExplains(w: World, e: Event)
    requires Ready(w) && Guard(w, e) && (e.JournalRead? || e.ResultRead?)
    ensures Explains(w, e, BeforeSave(w, e))
  {
    hide Explains, Ready, Guard, BeforeSave;
    if e.JournalRead? {
      JournalExplains(w, e);
    } else {
      ResultExplains(w, e);
    }
  }

  lemma EndExplains(w: World, e: Event, h: HandlerId)
    requires h in w.handlers
    ensures Explains(w, e, End(w, h))
  {
    StillEnds(w, h, Increment(Birth(w.handlers[h].id, 0), ProblemSubmits), w.handlers[h]);
    hide *;
    StillExplains(w, e, End(w, h));
  }

  lemma JournalExplains(w: World, e: Event)
    requires Ready(w) && Guard(w, e) && e.JournalRead?
    ensures Explains(w, e, BeforeSave(w, e))
  {
    var ref := w.handlers[e.h].pc.ref;
    OnIts(w, e.h);
    hide Explains, End, Put, RefsOk, On;
    EndExplains(w, e, e.h);
    if e.present {
      PutAt(w, e, ref, w.heap[ref].(statusUpdated := true));
    }
  }

  lemma ResultExplains(w: World, e: Event)
    requires Ready(w) && Guard(w, e) && e.ResultRead?
    ensures Explains(w, e, BeforeSave(w, e))
  {
    var ref := w.handlers[e.h].pc.ref;
    OnIts(w, e.h);
    hide Explains, End, Put, RefsOk, On, Settled;
    EndExplains(w, e, e.h);
    if e.agrees {
      PutAt(w, e, ref, w.heap[ref].(rid := Some(w.handlers[e.h].pc.found), statusUpdated := true));
    }
  }

  lemma CountExplains(w: World, e: Event)
    requires Ready(w) && Guard(w, e) && e.IncReturned?
    ensures Explains(w, e, BeforeSave(w, e))
  {
    var ref, counter := w.handlers[e.h].pc.ref, w.handlers[e.h].pc.counter;
    OnIts(w, e.h);
    CountIs(w, ref, counter);
    hide Explains, CountInc, RefsOk, On;
    assert Justified(w, e, w.heap[ref], w.heap[ref].(counted := w.heap[ref].counted + {counter}));
    PutExplains(w, e, CountInc(w, ref, counter), ref);
  }

  lemma CountIs(w: World, ref: Ref, counter: Counter)
    requires ref in w.heap
    ensures var u := CountInc(w, ref, counter);
            && u.heap == w.heap[ref := w.heap[ref].(counted := w.heap[ref].counted + {counter})]
            && u.disk == w.disk
  {
    hide Count;
  }

  lemma BeforeExplains(w: World, e: Event)
    requires Ready(w) && Guard(w, e)
    ensures Explains(w, e, BeforeSave(w, e))
  {
    match e
    case Crash =>
      RestartSubset(w);
      SubsetExplains(w, e, Restart(w));
      hide *;
    case StartSubmit(_, _, _, _, _, _) => LightExplains(w, e);
    case StartStatus(_, _) => LightExplains(w, e);
    case RecordsRead(_, _) => LightExplains(w, e);
    case Threw(_) => LightExplains(w, e);
    case Eligible(_, _, _, _, _, _) => EligibleExplains(w, e);
    case Continue(_, _, _) => ContinueExplains(w, e);
    case IncReturned(_, _, _) => CountExplains(w, e);
    case _ => WriteExplains(w, e);
  }

  /** Events that leave every entry as it is. */
  lemma LightExplains(w: World, e: Event)
    requires Ready(w) && Guard(w, e)
    requires e.StartSubmit? || e.StartStatus? || e.RecordsRead? || e.Threw?
    ensures Explains(w, e, BeforeSave(w, e))
  {
    LightStill(w, e);
    hide *;
    StillExplains(w, e, BeforeSave(w, e));
  }

  lemma LightStill(w: World, e: Event)
    requires Ready(w) && Guard(w, e)
    requires e.StartSubmit? || e.StartStatus? || e.RecordsRead? || e.Threw?
    ensures Still(w, BeforeSave(w, e))
  {
    hide Still, Guard, BeforeSave, Ready;
    match e
    case StartSubmit(_, _, _, _, _, _) => SubmitStill(w, e);
    case StartStatus(_, _) => QueryStill(w, e);
    case RecordsRead(_, _) => ReadStill(w, e);
    case Threw(_) => ThrowStill(w, e);
  }

  lemma SubmitStill(w: World, e: Event)
    requires Ready(w) && Guard(w, e) && e.StartSubmit?
    ensures Still(w, BeforeSave(w, e))
  {
    hide Still, Arrive, RefsOk, Notice, Enter, Recover;
    StillEnds(w, e.h, Increment(Birth(e.id, 0), ProblemSubmits), Handler(e.id, Submit(e.fingerprint), Eligibility));
    if Arrive(w, e.id, e.fingerprint).Recovers? {
      StillStarts(w, e.h, e.id, e.fingerprint, Arrive(w, e.id, e.fingerprint).ref);
    }
  }

  lemma QueryStill(w: World, e: Event)
    requires Ready(w) && Guard(w, e) && e.StartStatus?
    ensures Still(w, BeforeSave(w, e))
  {
    hide Still, RefsOk, Notice, Watch;
    StillEnds(w, e.h, Increment(Birth(e.id, 0), ProblemSubmits), Handler(e.id, Status, Eligibility));
    if e.id in w.memory {
      StillWatch(w, e.h, e.id, w.memory[e.id]);
    }
  }

  lemma ReadStill(w: World, e: Event)
    requires Ready(w) && Guard(w, e) && e.RecordsRead?
    ensures Still(w, BeforeSave(w, e))
  {
    var h := e.h;
    hide Still, RefsOk, End, Go;
    StillEnds(w, h, Increment(Birth(w.handlers[h].id, 0), ProblemSubmits), w.handlers[h]);
    if e.found.Some? {
      StillGoes(w, h, AwaitResult(w.handlers[h].pc.ref, e.found.value), w.handlers[h].pc.ref, ProblemSubmits);
    }
  }

  lemma ThrowStill(w: World, e: Event)
    requires Ready(w) && Guard(w, e) && e.Threw?
    ensures Still(w, BeforeSave(w, e))
  {
    var h := e.h;
    hide Still, RefsOk, End, FailInc;
    var k := if w.handlers[h].pc.AwaitInc?
             then Increment(w.heap[w.handlers[h].pc.ref].birth, w.handlers[h].pc.counter)
             else Increment(Birth(w.handlers[h].id, 0), ProblemSubmits);
    StillEnds(w, h, k, w.handlers[h]);
  }

  lemma ApplyExplains(w: World, e: Event, limit: nat)
    requires Enabled(w, e, limit)
    ensures Explains(w, e, Apply(w, e, limit))
  {
    BeforeExplains(w, e);
    if Saves(w, e) {
      var u := BeforeSave(w, e);
      hide BeforeSave, Ready, Guard, Saves, Pruned, StampsOf, Save, AfterSave, RefsOk, Explains, Subset;
      SaveSubset(u, e.kept, e.fault);
      ExplainsFewer(w, e, u, Save(u, e.kept, e.fault));
      AfterSameStore(Save(u, e.kept, e.fault), e);
      StoreSubset(Save(u, e.kept, e.fault), AfterSave(Save(u, e.kept, e.fault), e));
      ExplainsFewer(w, e, Save(u, e.kept, e.fault), AfterSave(Save(u, e.kept, e.fault), e));
    }
  }

  lemma StoreSubset(w: World, u: World)
    requires SameStore(w, u)
    ensures Subset(w, u)
  {
    SameHeapSubset(w, u);
  }

  // ----- whole runs -----

  /** Where an entry of a run comes from. */
  lemma Came(ws: seq<World>, es: seq<Event>, limit: nat, i: nat, x: Entry)
    requires IsRun(ws, es, limit) && i < |ws| && Has(ws[i], x)
    ensures 0 < i <= |es| < |ws| && Explained(ws[i - 1], es[i - 1], x)
  {
    hide *;
    StartsEmpty(ws, es, limit);
    if i == 0 {
      NothingFirst(x);
    } else {
      StepOf(ws, es, limit, i - 1);
      ApplyExplains(ws[i - 1], es[i - 1], limit);
      ExplainsAt(ws[i - 1], es[i - 1], ws[i], x);
    }
  }

  lemma NothingFirst(x: Entry)
    ensures !Has(INITIAL, x)
  {}

  lemma ExplainsAt(w: World, e: Event, u: World, x: Entry)
    requires Explains(w, e, u) && Has(u, x)
    ensures Explained(w, e, x)
  {
    hide Has, Explained;
  }

  /** The entry it was before, unless it was just reserved. */
  lemma Before(w: World, e: Event, x: Entry) returns (y: Entry)
    requires Explained(w, e, x)
    ensures (Has(w, y) && Justified(w, e, y, x)) || (Bare(x) && ShowsAdmission(w, e, x.birth, x.fingerprint))
  {
    hide Has, Justified, ShowsAdmission, Bare;
    y := x;
    if exists z :: Has(w, z) && Justified(w, e, z, x) {
      y :| Has(w, y) && Justified(w, e, y, x);
    }
  }

  lemma StatusFrom(w: World, e: Event, x: Entry) returns (y: Entry)
    requires Explained(w, e, x) && x.statusUpdated
    ensures ShowsStatus(w, e, x.birth) || (Has(w, y) && y.statusUpdated && y.birth == x.birth)
  {
    hide Has, ShowsStatus, ShowsRecord, ShowsCount, ShowsAdmission, Holder, Explained;
    y := Before(w, e, x);
  }

  lemma RecordFrom(w: World, e: Event, x: Entry) returns (y: Entry)
    requires Explained(w, e, x) && x.rid.Some?
    ensures ShowsRecord(w, e, x.birth, x.rid.value) || (Has(w, y) && y.rid == x.rid && y.birth == x.birth)
  {
    hide Has, ShowsStatus, ShowsRecord, ShowsCount, ShowsAdmission, Holder, Explained;
    y := Before(w, e, x);
  }

  lemma CountFrom(w: World, e: Event, x: Entry, c: Counter) returns (y: Entry)
    requires Explained(w, e, x) && c in x.counted
    ensures ShowsCount(w, e, x.birth, c) || (Has(w, y) && c in y.counted && y.birth == x.birth)
  {
    hide Has, ShowsStatus, ShowsRecord, ShowsCount, ShowsAdmission, Holder, Explained;
    y := Before(w, e, x);
  }

  lemma AdmissionFrom(w: World, e: Event, x: Entry) returns (y: Entry)
    requires Explained(w, e, x)
    ensures ShowsAdmission(w, e, x.birth, x.fingerprint)
            || (Has(w, y) && y.birth == x.birth && y.fingerprint == x.fingerprint)
  {
    hide Has, ShowsStatus, ShowsRecord, ShowsCount, ShowsAdmission, Holder, Explained;
    y := Before(w, e, x);
  }

  /** An entry whose status is marked updated was earned: updateStatus returned for that reservation,
      or its row was found in the contest journal. */
  lemma {:induction false} StatusIsEarned(ws: seq<World>, es: seq<Event>, limit: nat, i: nat, x: Entry)
    returns (k: nat)
    requires IsRun(ws, es, limit) && i < |ws| && Has(ws[i], x) && x.statusUpdated
    ensures k < i <= |es| < |ws| && ShowsStatus(ws[k], es[k], x.birth)
  {
    hide *;
    Came(ws, es, limit, i, x);
    var y := StatusFrom(ws[i - 1], es[i - 1], x);
    k := i - 1;
    if !ShowsStatus(ws[i - 1], es[i - 1], x.birth) {
      k := StatusIsEarned(ws, es, limit, i - 1, y);
    }
  }

  /** A record id in an entry is one that add returned for that reservation, or that a query found. */
  lemma {:induction false} RecordIsEarned(ws: seq<World>, es: seq<Event>, limit: nat, i: nat, x: Entry)
    returns (k: nat)
    requires IsRun(ws, es, limit) && i < |ws| && Has(ws[i], x) && x.rid.Some?
    ensures k < i <= |es| < |ws| && ShowsRecord(ws[k], es[k], x.birth, x.rid.value)
  {
    hide *;
    Came(ws, es, limit, i, x);
    var y := RecordFrom(ws[i - 1], es[i - 1], x);
    k := i - 1;
    if !ShowsRecord(ws[i - 1], es[i - 1], x.birth, x.rid.value) {
      k := RecordIsEarned(ws, es, limit, i - 1, y);
    }
  }

  /** A counter an entry counts was moved for that reservation, by a call that returned. */
  lemma {:induction false} CountIsEarned(ws: seq<World>, es: seq<Event>, limit: nat, i: nat, x: Entry, c: Counter)
    returns (k: nat)
    requires IsRun(ws, es, limit) && i < |ws| && Has(ws[i], x) && c in x.counted
    ensures k < i <= |es| < |ws| && ShowsCount(ws[k], es[k], x.birth, c)
  {
    hide *;
    Came(ws, es, limit, i, x);
    var y := CountFrom(ws[i - 1], es[i - 1], x, c);
    k := i - 1;
    if !ShowsCount(ws[i - 1], es[i - 1], x.birth, c) {
      k := CountIsEarned(ws, es, limit, i - 1, y, c);
    }
  }

  /** Every entry was reserved by a submit of its id and payload that was admitted, in the window. */
  lemma {:induction false} EntryIsAdmitted(ws: seq<World>, es: seq<Event>, limit: nat, i: nat, x: Entry)
    returns (k: nat)
    requires IsRun(ws, es, limit) && i < |ws| && Has(ws[i], x)
    ensures k < i <= |es| < |ws| && ShowsAdmission(ws[k], es[k], x.birth, x.fingerprint)
  {
    hide *;
    Came(ws, es, limit, i, x);
    var y := AdmissionFrom(ws[i - 1], es[i - 1], x);
    k := i - 1;
    if !ShowsAdmission(ws[i - 1], es[i - 1], x.birth, x.fingerprint) {
      k := EntryIsAdmitted(ws, es, limit, i - 1, y);
    }
  }

  lemma CompleteHasAll(w: World, x: Entry)
    requires Inv(w) && Has(w, x) && x.stamp.complete
    ensures x.statusUpdated && ProblemSubmits in x.counted && UserSubmits in x.counted
  {
    Unfold(w);
    hide Inv, Shape, AddsOk, CallsOk, Count;
    assert Backed(w, x);
  }

  /** A completed entry was earned altogether: its row was written or found, and each counter moved by a
      call that returned, all for that very reservation. */
  lemma CompletionIsShown(ws: seq<World>, es: seq<Event>, limit: nat, i: nat, x: Entry)
    returns (k: nat, problem: nat, user: nat)
    requires IsRun(ws, es, limit) && i < |ws| && Has(ws[i], x) && x.stamp.complete
    ensures k < i <= |es| < |ws| && problem < i && user < i && ShowsStatus(ws[k], es[k], x.birth)
    ensures ShowsCount(ws[problem], es[problem], x.birth, ProblemSubmits)
    ensures ShowsCount(ws[user], es[user], x.birth, UserSubmits)
  {
    hide *;
    RunKeeps(ws, es, limit, i);
    CompleteHasAll(ws[i], x);
    k := StatusIsEarned(ws, es, limit, i, x);
    problem := CountIsEarned(ws, es, limit, i, x, ProblemSubmits);
    user := CountIsEarned(ws, es, limit, i, x, UserSubmits);
  }
}
