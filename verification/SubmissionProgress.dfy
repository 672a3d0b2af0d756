/** Progress flags only go up, in memory, on disk and over crashes. */
module SubmissionProgress {
  import opened JournalStore
  import opened SubmissionProtocol
  import opened SubmissionSafety

  /** What is on disk is never ahead of the same reservation in memory. */
  ghost predicate DiskBehind(w: World) {
    forall id :: id in w.disk && id in w.memory && w.memory[id] in w.heap
      && w.disk[id].birth == w.heap[w.memory[id]].birth
      ==> Progress(w.disk[id], w.heap[w.memory[id]])
  }

  lemma BehindStep(w: World, u: World, h: HandlerId)
    requires DiskBehind(w) && RefsOk(w) && EntriesOk(w) && Effect(w, u, h)
    ensures DiskBehind(u)
  {
    hide MayUpdate, Count;
  }

  lemma BehindSave(w: World, kept: set<Key>, fault: Fault)
    requires DiskBehind(w) && RefsOk(w)
    ensures DiskBehind(Save(w, kept, fault))
  {}

  lemma BehindRestart(w: World)
    ensures DiskBehind(Restart(w)) && Reloads(w, Restart(w))
  {}

  /** After a crash memory holds exactly what the disk held. */
  ghost predicate Reloads(w: World, u: World) {
    && u.disk == w.disk && u.memory.Keys == w.disk.Keys
    && forall id :: id in u.memory ==> u.memory[id] in u.heap && u.heap[u.memory[id]] == w.disk[id]
  }

  lemma CrashReloads(w: World, limit: nat)
    requires Enabled(w, Crash, limit)
    ensures Apply(w, Crash, limit) == Restart(w)
  {
    hide Restart, Ready, RefsOk, StampsOf, Pruned, Save;
  }

  lemma CrashRises(w: World, limit: nat)
    requires Enabled(w, Crash, limit)
    ensures var u := Apply(w, Crash, limit); DiskBehind(u) && Reloads(w, u) && DiskOnlyRises(w, u)
  {
    hide Restart, Apply, DiskBehind, Enabled;
    CrashReloads(w, limit);
    BehindRestart(w);
  }

  /** A save writes out the memory it leaves, unless it throws before the rename. */
  ghost predicate Written(u: World, s: World, fault: Fault) {
    && s.heap == u.heap && (forall id :: id in s.memory ==> id in u.memory && s.memory[id] == u.memory[id])
    && if fault.BeforeRename? then s.disk == u.disk
       else s.disk.Keys == s.memory.Keys
            && forall id :: id in s.disk ==> s.memory[id] in s.heap && s.disk[id] == s.heap[s.memory[id]]
  }

  lemma SaveWrites(u: World, kept: set<Key>, fault: Fault)
    requires RefsOk(u)
    ensures Written(u, Save(u, kept, fault), fault)
  {}

  lemma DiskRises(w: World, u: World, s: World, h: HandlerId, fault: Fault)
    requires DiskBehind(u) && RefsOk(u) && Effect(w, u, h) && Written(u, s, fault)
    ensures Rises(w, s)
  {
    hide MayUpdate, Count, NewIdsFresh;
  }

  /** From one step to the next: no entry object, and no reservation on disk, loses a flag. */
  ghost predicate Rises(w: World, u: World) {
    && (forall r :: r in w.heap ==> r in u.heap && Progress(w.heap[r], u.heap[r]))
    && DiskOnlyRises(w, u)
  }

  ghost predicate DiskOnlyRises(w: World, u: World) {
    forall id :: id in w.disk && id in u.disk && w.disk[id].birth == u.disk[id].birth ==>
        Progress(w.disk[id], u.disk[id])
  }

  lemma EffectRises(w: World, u: World, h: HandlerId)
    requires Effect(w, u, h)
    ensures Rises(w, u)
  {
    hide MayUpdate, Count, NewIdsFresh;
  }

  lemma ApplyRises(w: World, e: Event, limit: nat)
    requires Inv(w) && DiskBehind(w) && Enabled(w, e, limit) && !e.Crash?
    ensures DiskBehind(Apply(w, e, limit)) && Rises(w, Apply(w, e, limit))
  {
    Unfold(w);
    AboutEntries(w);
    hide Inv, Shape, AddsOk, CallsOk, FlagsOk, EntriesOk, BeforeSave, Effect, Local, DiskBehind, Rises, Ready, Guard,
      Saves,
      RefsOk, Save, AfterSave, Written, Pruned, StampsOf, SameStore;
    var u := BeforeSave(w, e);
    BeforeSteps(w, e);
    BehindStep(w, u, e.h);
    EffectRises(w, u, e.h);
    if Saves(w, e) {
      var s := Save(u, e.kept, e.fault);
      BehindSave(u, e.kept, e.fault);
      SaveWrites(u, e.kept, e.fault);
      DiskRises(w, u, s, e.h, e.fault);
      AfterSameStore(s, e);
      StoreFrame(w, s, AfterSave(s, e));
    }
  }

  lemma StoreFrame(w: World, s: World, u: World)
    requires SameStore(s, u)
    ensures DiskBehind(s) ==> DiskBehind(u)
    ensures Rises(w, s) ==> Rises(w, u)
  {}

  lemma AboutEntries(w: World)
    requires Shape(w)
    ensures EntriesOk(w)
  {}

  lemma {:induction false} BehindRun(ws: seq<World>, es: seq<Event>, limit: nat, i: nat)
    requires IsRun(ws, es, limit) && i < |ws|
    ensures Inv(ws[i]) && DiskBehind(ws[i])
  {
    hide *;
    StartsEmpty(ws, es, limit);
    RunKeeps(ws, es, limit, i);
    if i == 0 {
      InitialBehind();
    } else {
      BehindRun(ws, es, limit, i - 1);
      StepOf(ws, es, limit, i - 1);
      if es[i - 1].Crash? {
        CrashRises(ws[i - 1], limit);
      } else {
        ApplyRises(ws[i - 1], es[i - 1], limit);
      }
    }
  }

  lemma InitialBehind()
    ensures DiskBehind(INITIAL)
  {}

  /** Within one process no entry object loses a flag; a crash brings back exactly what the disk
      held; and no step at all takes a flag away from a reservation on disk. */
  lemma FlagsOnlyRise(ws: seq<World>, es: seq<Event>, limit: nat, i: nat)
    requires IsRun(ws, es, limit) && i < |es|
    ensures DiskOnlyRises(ws[i], ws[i + 1])
    ensures !es[i].Crash? ==> Rises(ws[i], ws[i + 1])
    ensures es[i].Crash? ==> Reloads(ws[i], ws[i + 1])
  {
    hide Inv, DiskBehind, Apply, Enabled, Reloads, DiskOnlyRises, IsRun;
    StartsEmpty(ws, es, limit);
    BehindRun(ws, es, limit, i);
    StepOf(ws, es, limit, i);
    if es[i].Crash? {
      CrashRises(ws[i], limit);
    } else {
      ApplyRises(ws[i], es[i], limit);
    }
  }

  /** So over any stretch of a run that keeps a reservation on disk, its flags only go up. */
  lemma {:induction false} FlagsRiseOverRuns(ws: seq<World>, es: seq<Event>, limit: nat, i: nat, j: nat, id: Key)
    requires IsRun(ws, es, limit) && i <= j < |ws|
    requires id in ws[i].disk
    requires forall k :: i <= k <= j ==> id in ws[k].disk && ws[k].disk[id].birth == ws[i].disk[id].birth
    ensures Progress(ws[i].disk[id], ws[j].disk[id])
    decreases j
  {
    hide Enabled, Apply, Rises, Reloads;
    if i < j {
      FlagsRiseOverRuns(ws, es, limit, i, j - 1, id);
      FlagsOnlyRise(ws, es, limit, j - 1);
    }
  }
}
