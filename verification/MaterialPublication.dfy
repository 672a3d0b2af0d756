/**
 Publishing the two contest attachments: upload, verify, then one document edit that replaces the
 reserved private files and the marker.  The contest lock lets one publication work at a time; a
 crash may fall between any two awaits.  The journal entry of a publication repeats its request,
 which its id is the hash of, so only the throws of its saves matter here.
 */
module MaterialPublication {
  import opened Basics

  type OtherName(==, !new)
  type Revision(==, !new)
  type Tag(==, !new)        // etag and time of a stored file
  type Byte(==, !new)

  /** The two attachment names, in the order a request lists them, and any other private file. */
  datatype Name = Statement | Samples | Other(other: OtherName)

  predicate Reserved(n: Name) {
    !n.Other?
  }

  datatype File = File(name: Name, size: int, tag: Tag)

  /** A publication; equal ids mean equal publications. */
  datatype Publication = Publication(revision: Revision, statement: seq<Byte>, samples: seq<Byte>)

  function Content(p: Publication, n: Name): seq<Byte>
    requires Reserved(n)
  {
    if n.Statement? then p.statement else p.samples
  }

  datatype Marker = Owned(publication: Publication) | Foreign

  datatype Contest = Contest(marker: Option<Marker>, files: seq<File>)

  datatype Pc =
    | Reading
    | Uploading(previous: Option<Marker>, published: seq<File>)
    | Editing(remaining: seq<File>, published: seq<File>)
    | Verifying
    | Completing

  datatype Worker = Worker(publication: Publication, pc: Pc)

  datatype World = World(
    contest: Contest, storage: map<Name, seq<Byte>>, worker: Option<Worker>,
    published: seq<Publication>, conflicts: int)   // observations: the answers given, in order

  datatype Event =
    | Begin(p: Publication, saved: bool)
    | Read(open: bool)
    | Upload(tag: Tag, readBack: bool, saved: bool)
    | Reread(open: bool)
    | Edit
    | Verify
    | Complete(saved: bool)
    | Throw
    | Crash

  // ----- what the code looks at -----

  function Named(files: seq<File>, n: Name): seq<File> {
    if files == [] then []
    else if files[0].name == n then [files[0]] + Named(files[1..], n)
    else Named(files[1..], n)
  }

  function Others(files: seq<File>): seq<File> {
    if files == [] then []
    else if Reserved(files[0].name) then Others(files[1..])
    else [files[0]] + Others(files[1..])
  }

  /** The reserved private files fit the marker: none without one, each exactly once with one. */
  predicate Fits(marker: Option<Marker>, files: seq<File>) {
    if marker.None? then |Named(files, Statement)| == 0 && |Named(files, Samples)| == 0
    else |Named(files, Statement)| == 1 && |Named(files, Samples)| == 1
  }

  predicate StoredAs(c: Contest, storage: map<Name, seq<Byte>>, p: Publication, n: Name)
    requires Reserved(n)
  {
    && |Named(c.files, n)| == 1 && Named(c.files, n)[0].size == |Content(p, n)|
    && n in storage && storage[n] == Content(p, n)
  }

  /** verifyPublishedMaterials. */
  predicate Verified(w: World, p: Publication) {
    && w.contest.marker == Some(Owned(p))
    && StoredAs(w.contest, w.storage, p, Statement) && StoredAs(w.contest, w.storage, p, Samples)
  }

  // ----- steps -----

  function Go(w: World, p: Publication, pc: Pc): World {
    w.(worker := Some(Worker(p, pc)))
  }

  function Stop(w: World): World {
    w.(worker := None)
  }

  function Conflict(w: World): World {
    w.(worker := None, conflicts := w.conflicts + 1)
  }

  function DoRead(w: World, p: Publication, open: bool): World {
    if !open then Stop(w)
    else if w.contest.marker.Some? && Verified(w, p) then Go(w, p, Completing)
    else if w.contest.marker == Some(Foreign) || !Fits(w.contest.marker, w.contest.files) then Conflict(w)
    else Go(w, p, Uploading(w.contest.marker, []))
  }

  function NextName(published: seq<File>): Name {
    if |published| == 0 then Statement else Samples
  }

  function DoUpload(w: World, p: Publication, previous: Option<Marker>, files: seq<File>, e: Event): World
    requires e.Upload?
  {
    var n := NextName(files);
    var u := w.(storage := w.storage[n := Content(p, n)]);
    if e.readBack && e.saved then Go(u, p, Uploading(previous, files + [File(n, |Content(p, n)|, e.tag)])) else Stop(u)
  }

  function DoReread(w: World, p: Publication, previous: Option<Marker>, files: seq<File>, open: bool): World {
    if !open then Stop(w)
    else if w.contest.marker != previous || !Fits(previous, w.contest.files) then Conflict(w)
    else Go(w, p, Editing(Others(w.contest.files), files))
  }

  function DoEdit(w: World, p: Publication, remaining: seq<File>, files: seq<File>): World {
    w.(contest := Contest(Some(Owned(p)), remaining + files), worker := Some(Worker(p, Verifying)))
  }

  function DoVerify(w: World, p: Publication): World {
    if Verified(w, p) then Go(w, p, Completing) else Conflict(w)
  }

  function DoComplete(w: World, p: Publication, saved: bool): World {
    if saved then w.(worker := None, published := w.published + [p]) else Stop(w)
  }

  predicate Enabled(w: World, e: Event) {
    match e
    case Begin(_, _) => true
    case Crash => true
    case Read(_) => w.worker.Some? && w.worker.value.pc.Reading?
    case Upload(_, _, _) => w.worker.Some? && w.worker.value.pc.Uploading? && |w.worker.value.pc.published| < 2
    case Reread(_) => w.worker.Some? && w.worker.value.pc.Uploading? && |w.worker.value.pc.published| == 2
    case Edit => w.worker.Some? && w.worker.value.pc.Editing?
    case Verify => w.worker.Some? && w.worker.value.pc.Verifying?
    case Complete(_) => w.worker.Some? && w.worker.value.pc.Completing?
    case Throw => w.worker.Some?
  }

  function Apply(w: World, e: Event): World
    requires Enabled(w, e)
  {
    match e
    case Begin(p, saved) => if saved && w.worker.None? then Go(w, p, Reading) else w
    case Crash => Stop(w)
    case Throw => Stop(w)
    case Read(open) => DoRead(w, w.worker.value.publication, open)
    case Upload(_, _, _) =>
      DoUpload(w, w.worker.value.publication, w.worker.value.pc.previous, w.worker.value.pc.published, e)
    case Reread(open) =>
      DoReread(w, w.worker.value.publication, w.worker.value.pc.previous, w.worker.value.pc.published, open)
    case Edit => DoEdit(w, w.worker.value.publication, w.worker.value.pc.remaining, w.worker.value.pc.published)
    case Verify => DoVerify(w, w.worker.value.publication)
    case Complete(saved) => DoComplete(w, w.worker.value.publication, saved)
  }

  predicate Sane(c: Contest) {
    c.marker != Some(Foreign) && Fits(c.marker, c.files)
  }

  predicate IsInitial(w: World) {
    Sane(w.contest) && w.worker.None? && w.published == [] && w.conflicts == 0
  }

  /** A run of the addon alone, from a contest nobody else marked. */
  ghost predicate IsRun(ws: seq<World>, es: seq<Event>) {
    && |ws| == |es| + 1 && IsInitial(ws[0])
    && forall i {:trigger es[i]} :: 0 <= i < |es| ==> Enabled(ws[i], es[i]) && ws[i + 1] == Apply(ws[i], es[i])
  }

  // ----- the invariant -----

  /** The files uploaded so far describe the first attachments, which the storage holds. */
  predicate Uploaded(storage: map<Name, seq<Byte>>, p: Publication, files: seq<File>) {
    && |files| <= 2
    && (|files| >= 1 ==> FileOf(storage, p, files[0], Statement))
    && (|files| >= 2 ==> FileOf(storage, p, files[1], Samples))
  }

  predicate FileOf(storage: map<Name, seq<Byte>>, p: Publication, f: File, n: Name)
    requires Reserved(n)
  {
    f.name == n && f.size == |Content(p, n)| && n in storage && storage[n] == Content(p, n)
  }

  ghost predicate WorkerOk(w: World) {
    w.worker.Some? ==>
      match w.worker.value.pc
      case Reading => true
      case Uploading(previous, files) =>
        previous == w.contest.marker && Uploaded(w.storage, w.worker.value.publication, files)
      case Editing(remaining, files) =>
        remaining == Others(w.contest.files) && Uploaded(w.storage, w.worker.value.publication, files) && |files| == 2
      case Verifying => Verified(w, w.worker.value.publication)
      case Completing => Verified(w, w.worker.value.publication)
  }

  ghost predicate Inv(w: World, others: seq<File>) {
    Sane(w.contest) && WorkerOk(w) && Others(w.contest.files) == others && w.conflicts == 0
  }

  lemma {:induction false} NamedAppend(a: seq<File>, b: seq<File>, n: Name)
    ensures Named(a + b, n) == Named(a, n) + Named(b, n)
  {
    if a == [] {
      assert a + b == b;
    } else {
      NamedAppend(a[1..], b, n);
      assert (a + b)[1..] == a[1..] + b;
    }
  }

  lemma {:induction false} OthersAppend(a: seq<File>, b: seq<File>)
    ensures Others(a + b) == Others(a) + Others(b)
  {
    if a == [] {
      assert a + b == b;
    } else {
      OthersAppend(a[1..], b);
      assert (a + b)[0] == a[0] && (a + b)[1..] == a[1..] + b;
      assert [a[0]] + Others(a[1..]) + Others(b) == [a[0]] + (Others(a[1..]) + Others(b));
    }
  }

  /** The remaining files hold no reserved name, and are all others. */
  lemma {:induction false} OthersClean(files: seq<File>, n: Name)
    requires Reserved(n)
    ensures Named(Others(files), n) == [] && Others(Others(files)) == Others(files)
  {
    if files != [] {
      OthersClean(files[1..], n);
      if !Reserved(files[0].name) {
        assert Others(files)[1..] == Others(files[1..]);
      }
    }
  }

  lemma EditSettles(w: World, p: Publication, remaining: seq<File>, files: seq<File>)
    requires remaining == Others(w.contest.files) && Uploaded(w.storage, p, files) && |files| == 2
    ensures var u := DoEdit(w, p, remaining, files);
            && Verified(u, p) && Sane(u.contest) && Others(u.contest.files) == Others(w.contest.files)
            && |u.contest.files| == |Others(w.contest.files)| + 2
            && u.contest.files[..|u.contest.files| - 2] == Others(w.contest.files)
            && u.contest.files[|u.contest.files| - 2].name == Statement
            && u.contest.files[|u.contest.files| - 1].name == Samples
  {
    OthersClean(w.contest.files, Statement);
    OthersClean(w.contest.files, Samples);
    NamedAppend(remaining, files, Statement);
    NamedAppend(remaining, files, Samples);
    OthersAppend(remaining, files);
    PairNames(files[0], files[1]);
    assert files == [files[0], files[1]];
  }

  lemma PairNames(a: File, b: File)
    requires a.name == Statement && b.name == Samples
    ensures Named([a, b], Statement) == [a] && Named([a, b], Samples) == [b] && Others([a, b]) == []
  {
    OneName(a, Statement);
    OneName(a, Samples);
    OneName(b, Statement);
    OneName(b, Samples);
    assert [a, b] == [a] + [b];
    NamedAppend([a], [b], Statement);
    NamedAppend([a], [b], Samples);
    OthersAppend([a], [b]);
  }

  lemma OneName(a: File, n: Name)
    requires Reserved(n)
    ensures Named([a], n) == (if a.name == n then [a] else [])
    ensures Others([a]) == (if Reserved(a.name) then [] else [a])
  {
    assert [a][1..] == [];
    assert Named([], n) == [] && Others([]) == [];
    assert [a] + [] == [a];
  }

  lemma UploadKeeps(w: World, p: Publication, previous: Option<Marker>, files: seq<File>, e: Event)
    requires e.Upload? && Uploaded(w.storage, p, files) && |files| < 2
    ensures var n := NextName(files);
            Uploaded(w.storage[n := Content(p, n)], p, files + [File(n, |Content(p, n)|, e.tag)])
  {}

  lemma ApplyKeeps(w: World, e: Event, others: seq<File>)
    requires Inv(w, others) && Enabled(w, e)
    ensures Inv(Apply(w, e), others)
  {
    hide Fits, Others, Named, Uploaded, Verified;
    match e
    case Upload(_, _, _) =>
      var k := w.worker.value;
      UploadKeeps(w, k.publication, k.pc.previous, k.pc.published, e);
    case Edit =>
      var k := w.worker.value;
      EditSettles(w, k.publication, k.pc.remaining, k.pc.published);
      SameVerified(DoEdit(w, k.publication, k.pc.remaining, k.pc.published), w.storage);
    case _ =>
      forall p ensures Uploaded(w.storage, p, []) {
        UploadedNone(w.storage, p);
      }
      SameVerified(Apply(w, e), w.storage);
      SameVerified(w, w.storage);
  }

  lemma UploadedNone(storage: map<Name, seq<Byte>>, p: Publication)
    ensures Uploaded(storage, p, [])
  {}

  /** Verification looks at the contest and the storage alone. */
  lemma SameVerified(u: World, storage: map<Name, seq<Byte>>)
    ensures forall w: World, p :: w.contest == u.contest && w.storage == u.storage ==>
              (Verified(w, p) <==> Verified(u, p))
  {}

  lemma {:induction false} RunKeeps(ws: seq<World>, es: seq<Event>, i: nat)
    requires IsRun(ws, es) && i < |ws|
    ensures Inv(ws[i], Others(ws[0].contest.files))
  {
    if i > 0 {
      RunKeeps(ws, es, i - 1);
      hide Inv, Apply, Enabled, Others;
      ApplyKeeps(ws[i - 1], es[i - 1], Others(ws[0].contest.files));
    }
  }

  /** In every run of the addon alone, over crashes and throws anywhere: no marker and no reserved
      file, or the addon's own marker and each reserved file exactly once; so no request ever meets
      the conflict over marker and files, nor that of the final verification, and every other
      private file stays, in its order.  A bad upload ends its request without touching either. */
  lemma MarkerAndFilesAgree(ws: seq<World>, es: seq<Event>, i: nat)
    requires IsRun(ws, es) && i < |ws|
    ensures var c := ws[i].contest;
            && (c.marker.None? ==> Named(c.files, Statement) == [] && Named(c.files, Samples) == [])
            && (c.marker.Some? ==>
                  c.marker.value.Owned? && |Named(c.files, Statement)| == 1 && |Named(c.files, Samples)| == 1)
            && Others(c.files) == Others(ws[0].contest.files) && ws[i].conflicts == 0
  {
    RunKeeps(ws, es, i);
  }

  /** `published` is answered only when the stored bytes and the marker are the request's, every
      time it is answered. */
  lemma PublishedIsVerified(ws: seq<World>, es: seq<Event>, i: nat)
    requires IsRun(ws, es) && i < |es|
    ensures es[i] == Complete(true) ==>
              && ws[i].worker.Some? && Verified(ws[i + 1], ws[i].worker.value.publication)
              && ws[i + 1].published == ws[i].published + [ws[i].worker.value.publication]
    ensures es[i] != Complete(true) ==> ws[i + 1].published == ws[i].published
  {
    RunKeeps(ws, es, i);
    assert Enabled(ws[i], es[i]) && ws[i + 1] == Apply(ws[i], es[i]);
    hide IsRun, Fits, Named, Others, Uploaded;
  }

  // ----- a retry -----

  /** Playing events from a world leads to another. */
  ghost predicate Leads(w: World, es: seq<Event>, u: World)
    decreases |es|
  {
    if es == [] then u == w else Enabled(w, es[0]) && Leads(Apply(w, es[0]), es[1..], u)
  }

  lemma {:induction false} LeadsOn(w: World, es: seq<Event>, v: World, e: Event)
    requires Leads(w, es, v) && Enabled(v, e)
    ensures Leads(w, es + [e], Apply(v, e))
    decreases |es|
  {
    if es == [] {
      assert (es + [e])[1..] == [];
    } else {
      LeadsOn(Apply(w, es[0]), es[1..], v, e);
      assert (es + [e])[1..] == es[1..] + [e];
    }
  }

  predicate Smooth(e: Event) {
    match e
    case Begin(_, saved) => saved
    case Read(open) => open
    case Upload(_, readBack, saved) => readBack && saved
    case Reread(open) => open
    case Complete(saved) => saved
    case _ => !e.Throw? && !e.Crash?
  }

  /** From wherever a run stopped, with any storage contents left behind, one undisturbed retry of
      any publication before the start ends in `published`. */
  lemma RetryConverges(ws: seq<World>, es: seq<Event>, i: nat, p: Publication, tag: Tag)
    returns (steps: seq<Event>, u: World)
    requires IsRun(ws, es) && i < |ws| && ws[i].worker.None?
    ensures Leads(ws[i], steps, u) && (forall e :: e in steps ==> Smooth(e))
    ensures steps != [] && steps[0] == Begin(p, true) && steps[|steps| - 1] == Complete(true)
    ensures u.worker.None? && u.published == ws[i].published + [p] && Verified(u, p)
    ensures u.conflicts == 0 && Others(u.contest.files) == Others(ws[i].contest.files)
  {
    RunKeeps(ws, es, i);
    steps, u := Attempt(ws[i], p, tag, Others(ws[0].contest.files));
  }

  lemma Advance(w: World, es: seq<Event>, v: World, e: Event, others: seq<File>) returns (fs: seq<Event>, u: World)
    requires Leads(w, es, v) && Enabled(v, e) && Inv(v, others) && Smooth(e) && forall x :: x in es ==> Smooth(x)
    ensures u == Apply(v, e) && fs == es + [e] && Leads(w, fs, u) && Inv(u, others) && forall x :: x in fs ==> Smooth(x)
  {
    fs, u := es + [e], Apply(v, e);
    LeadsOn(w, es, v, e);
    ApplyKeeps(v, e, others);
    hide *;
  }

  /** An attempt so far: what was done, where it led, and where its worker stands there. */
  ghost predicate Got(w: World, es: seq<Event>, u: World, p: Publication, pc: Pc, others: seq<File>) {
    && Leads(w, es, u) && Inv(u, others) && u.worker == Some(Worker(p, pc)) && u.published == w.published
    && es != [] && es[0] == Begin(p, true) && forall e :: e in es ==> Smooth(e)
  }

  lemma GetOn(w: World, es: seq<Event>, v: World, p: Publication, pc: Pc, e: Event, next: Pc, others: seq<File>)
    returns (fs: seq<Event>, u: World)
    requires Got(w, es, v, p, pc, others) && Enabled(v, e) && Smooth(e)
    requires Apply(v, e).worker == Some(Worker(p, next)) && Apply(v, e).published == v.published
    ensures u == Apply(v, e) && fs == es + [e] && Got(w, fs, u, p, next, others)
  {
    hide Leads, Inv, Apply, Enabled, Smooth;
    fs, u := Advance(w, es, v, e, others);
  }

  /** Upload both attachments, edit, verify. */
  lemma UploadAndEdit(w: World, es: seq<Event>, v: World, p: Publication, previous: Option<Marker>, tag: Tag,
                      others: seq<File>) returns (steps: seq<Event>, u: World)
    requires Got(w, es, v, p, Uploading(previous, []), others)
    ensures Got(w, steps, u, p, Completing, others)
  {
    hide Leads, Fits, Named, Others, Uploaded, StoredAs, Inv, Got;
    var first, second := File(Statement, |p.statement|, tag), File(Samples, |p.samples|, tag);
    var e := Upload(tag, true, true);
    GotAt(w, es, v, p, Uploading(previous, []), others);
    assert [] + [first] == [first] && [first] + [second] == [first, second];
    steps, u := GetOn(w, es, v, p, Uploading(previous, []), e, Uploading(previous, [first]), others);
    GotAt(w, steps, u, p, Uploading(previous, [first]), others);
    steps, u := GetOn(w, steps, u, p, Uploading(previous, [first]), e, Uploading(previous, [first, second]), others);
    steps, u := EditAndVerify(w, steps, u, p, previous, [first, second], others);
  }

  lemma EditAndVerify(w: World, es: seq<Event>, v: World, p: Publication, previous: Option<Marker>, files: seq<File>,
                      others: seq<File>) returns (steps: seq<Event>, u: World)
    requires Got(w, es, v, p, Uploading(previous, files), others) && |files| == 2
    ensures Got(w, steps, u, p, Completing, others)
  {
    var at := Uploading(previous, files);
    GotAt(w, es, v, p, at, others);
    NoConflict(v, others);
    hide Leads, Fits, Named, Others, Uploaded, StoredAs, Inv, Got, Verified;
    steps, u := GetOn(w, es, v, p, at, Reread(true), Editing(Others(v.contest.files), files), others);
    at := Editing(Others(v.contest.files), files);
    GotAt(w, steps, u, p, at, others);
    steps, u := GetOn(w, steps, u, p, at, Edit, Verifying, others);
    GotAt(w, steps, u, p, Verifying, others);
    NoConflict(u, others);
    steps, u := GetOn(w, steps, u, p, Verifying, Verify, Completing, others);
  }

  lemma GotAt(w: World, es: seq<Event>, u: World, p: Publication, pc: Pc, others: seq<File>)
    requires Got(w, es, u, p, pc, others)
    ensures Inv(u, others) && u.worker == Some(Worker(p, pc)) && u.published == w.published
  {
    hide Leads, Inv, Smooth;
  }

  /** What the re-read and the final verification find. */
  lemma NoConflict(u: World, others: seq<File>)
    requires Inv(u, others) && u.worker.Some?
    ensures u.worker.value.pc.Uploading? ==>
              u.contest.marker == u.worker.value.pc.previous && Fits(u.contest.marker, u.contest.files)
    ensures u.worker.value.pc.Verifying? || u.worker.value.pc.Completing? ==> Verified(u, u.worker.value.publication)
  {
    hide Fits, Named, Others, Uploaded, StoredAs;
  }

  lemma Attempt(w: World, p: Publication, tag: Tag, others: seq<File>) returns (steps: seq<Event>, u: World)
    requires Inv(w, others) && w.worker.None?
    ensures Leads(w, steps, u) && (forall e :: e in steps ==> Smooth(e))
    ensures steps != [] && steps[0] == Begin(p, true) && steps[|steps| - 1] == Complete(true)
    ensures u.worker.None? && u.published == w.published + [p] && Verified(u, p)
    ensures u.conflicts == 0 && Others(u.contest.files) == others
  {
    steps, u := Begun(w, p, others);
    GotAt(w, steps, u, p, Reading, others);
    ReadGoes(u, p, others);
    var next := Apply(u, Read(true)).worker.value.pc;
    hide Inv, Got, Apply;
    steps, u := GetOn(w, steps, u, p, Reading, Read(true), next, others);
    if next.Uploading? {
      steps, u := UploadAndEdit(w, steps, u, p, next.previous, tag, others);
    }
    steps, u := Finished(w, steps, u, p, others);
  }

  lemma Begun(w: World, p: Publication, others: seq<File>) returns (steps: seq<Event>, u: World)
    requires Inv(w, others) && w.worker.None?
    ensures Got(w, steps, u, p, Reading, others)
  {
    LeadsNowhere(w);
    hide Leads, Inv;
    steps, u := Advance(w, [], w, Begin(p, true), others);
  }

  lemma ReadGoes(u: World, p: Publication, others: seq<File>)
    requires Inv(u, others) && u.worker == Some(Worker(p, Reading))
    ensures var v := Apply(u, Read(true));
            && v.worker.Some? && v.worker.value.publication == p && v.published == u.published
            && (v.worker.value.pc.Completing? || v.worker.value.pc == Uploading(u.contest.marker, []))
  {
    hide Fits, Named, Others, Uploaded, StoredAs, Verified;
  }

  lemma Finished(w: World, es: seq<Event>, v: World, p: Publication, others: seq<File>)
    returns (steps: seq<Event>, u: World)
    requires Got(w, es, v, p, Completing, others)
    ensures Leads(w, steps, u) && (forall e :: e in steps ==> Smooth(e))
    ensures steps != [] && steps[0] == Begin(p, true) && steps[|steps| - 1] == Complete(true)
    ensures u.worker.None? && u.published == w.published + [p] && Verified(u, p)
    ensures u.conflicts == 0 && Others(u.contest.files) == others
  {
    NoConflict(v, others);
    hide Leads, Fits, Named, Others, Uploaded, StoredAs;
    steps, u := Advance(w, es, v, Complete(true), others);
    SameVerified(v, v.storage);
  }

  lemma LeadsNowhere(w: World)
    ensures Leads(w, [], w)
  {}

  // ----- old marker, new bytes -----

  /** An upload that writes what publication `p` has under that name. */
  ghost predicate Repeats(w: World, e: Event, p: Publication) {
    e.Upload? && w.worker.Some? && w.worker.value.pc.Uploading? ==>
      var n := NextName(w.worker.value.pc.published);
      Content(w.worker.value.publication, n) == Content(p, n)
  }

  ghost predicate VerifiedSince(ws: seq<World>, i: nat, j: nat, p: Publication)
    requires j < |ws|
  {
    forall k :: i < k <= j ==> Verified(ws[k], p)
  }

  ghost predicate RepeatedSince(ws: seq<World>, es: seq<Event>, i: nat, j: nat, p: Publication)
    requires j <= |es| < |ws|
  {
    forall k :: i < k < j ==> Repeats(ws[k], es[k], p)
  }

  /** The attachments are uploaded before the marker moves, so between two edits the marker's bytes are
      in the storage exactly as long as every upload since the edit wrote just those. */
  lemma {:induction false} BytesStay(ws: seq<World>, es: seq<Event>, i: nat, j: nat)
    requires IsRun(ws, es) && i < j < |ws| && es[i].Edit? && forall k :: i < k < j ==> !es[k].Edit?
    ensures ws[i].worker.Some? && ws[j].contest == ws[i + 1].contest
    ensures ws[j].contest.marker == Some(Owned(ws[i].worker.value.publication))
    ensures var p := ws[i].worker.value.publication; VerifiedSince(ws, i, j, p) <==> RepeatedSince(ws, es, i, j, p)
    decreases j
  {
    hide *;
    Lengths(ws, es);
    StepOf(ws, es, j - 1);
    if j == i + 1 {
      RunKeeps(ws, es, i);
      EditVerifies(ws[i], es[i], Others(ws[0].contest.files));
      SinceStart(ws, es, i, ws[i].worker.value.publication);
    } else {
      BytesStay(ws, es, i, j - 1);
      var p := ws[i].worker.value.publication;
      StillThere(ws[j - 1], es[j - 1], p);
      SinceNext(ws, es, i, j - 1, p);
    }
  }

  lemma Lengths(ws: seq<World>, es: seq<Event>)
    requires IsRun(ws, es)
    ensures |ws| == |es| + 1
  {
    hide Enabled, Apply;
  }

  lemma SinceStart(ws: seq<World>, es: seq<Event>, i: nat, p: Publication)
    requires i < |es| < |ws| && Verified(ws[i + 1], p)
    ensures VerifiedSince(ws, i, i + 1, p) && RepeatedSince(ws, es, i, i + 1, p)
  {
    hide Verified, Repeats;
  }

  lemma SinceNext(ws: seq<World>, es: seq<Event>, i: nat, j: nat, p: Publication)
    requires i < j < |es| < |ws| && (Verified(ws[j], p) ==> (Verified(ws[j + 1], p) <==> Repeats(ws[j], es[j], p)))
    requires VerifiedSince(ws, i, j, p) <==> RepeatedSince(ws, es, i, j, p)
    ensures VerifiedSince(ws, i, j + 1, p) <==> RepeatedSince(ws, es, i, j + 1, p)
  {
    hide Verified, Repeats;
    assert VerifiedSince(ws, i, j + 1, p) <==> VerifiedSince(ws, i, j, p) && Verified(ws[j + 1], p);
    assert RepeatedSince(ws, es, i, j + 1, p) <==> RepeatedSince(ws, es, i, j, p) && Repeats(ws[j], es[j], p);
  }

  lemma StepOf(ws: seq<World>, es: seq<Event>, i: nat)
    requires IsRun(ws, es) && i < |es|
    ensures Enabled(ws[i], es[i]) && ws[i + 1] == Apply(ws[i], es[i])
  {
    hide Enabled, Apply;
  }

  lemma EditVerifies(w: World, e: Event, others: seq<File>)
    requires Inv(w, others) && Enabled(w, e) && e.Edit?
    ensures w.worker.Some? && Verified(Apply(w, e), w.worker.value.publication)
    ensures Apply(w, e).contest.marker == Some(Owned(w.worker.value.publication))
  {
    var k := w.worker.value;
    hide Verified, Sane, Others, Uploaded;
    EditSettles(w, k.publication, k.pc.remaining, k.pc.published);
  }

  lemma StillThere(w: World, e: Event, p: Publication)
    requires Enabled(w, e) && !e.Edit?
    ensures Apply(w, e).contest == w.contest
    ensures Verified(w, p) ==> (Verified(Apply(w, e), p) <==> Repeats(w, e, p))
  {
    hide Fits, Named, Others;
    SameVerified(w, w.storage);
  }

  /** And they are lost that way: after one publication, another that differs dies right after its first
      upload.  The contest then still says the first is published, and its statement is gone. */
  lemma OldMarkerNewBytes(ws: seq<World>, es: seq<Event>, i: nat, p: Publication, q: Publication, tag: Tag)
    returns (steps: seq<Event>, u: World)
    requires IsRun(ws, es) && i < |ws| && ws[i].worker.None? && p.statement != q.statement
    ensures Leads(ws[i], steps, u) && u.worker.None? && u.conflicts == 0
    ensures u.contest.marker == Some(Owned(p)) && u.published == ws[i].published + [p]
    ensures Statement in u.storage && u.storage[Statement] == q.statement && !Verified(u, p)
  {
    var v;
    steps, v := RetryConverges(ws, es, i, p, tag);
    steps, u := Attempted(ws[i], steps, v, p, q, tag);
  }

  /** The second publication up to its first upload, and a crash. */
  lemma Attempted(w: World, es: seq<Event>, v: World, p: Publication, q: Publication, tag: Tag)
    returns (steps: seq<Event>, u: World)
    requires Leads(w, es, v) && v.worker.None? && Verified(v, p) && p.statement != q.statement
    requires v.conflicts == 0
    ensures Leads(w, steps, u) && u.worker.None? && u.conflicts == 0
    ensures u.contest == v.contest && u.published == v.published
    ensures Statement in u.storage && u.storage[Statement] == q.statement && !Verified(u, p)
  {
    var a := Go(v, q, Reading);
    LeadsOn(w, es, v, Begin(q, true));
    ReadsOther(v, p, q);
    var b := Go(v, q, Uploading(v.contest.marker, []));
    LeadsOn(w, es + [Begin(q, true)], a, Read(true));
    var e := Upload(tag, true, true);
    var c := Apply(b, e);
    LeadsOn(w, es + [Begin(q, true)] + [Read(true)], b, e);
    u := Stop(c);
    steps := es + [Begin(q, true)] + [Read(true)] + [e] + [Crash];
    LeadsOn(w, es + [Begin(q, true)] + [Read(true)] + [e], c, Crash);
    hide Leads;
  }

  lemma ReadsOther(v: World, p: Publication, q: Publication)
    requires Verified(v, p) && p != q
    ensures Apply(Go(v, q, Reading), Read(true)) == Go(v, q, Uploading(v.contest.marker, []))
  {}

  // ----- before the contest begins -----

  /** Where an event lets the worker go on, and what it found. */
  ghost predicate Lands(w: World, e: Event, k: Worker) {
    match e
    case Begin(p, saved) => saved && w.worker.None? && k == Worker(p, Reading)
    case Read(open) =>
      && open && w.worker == Some(Worker(k.publication, Reading))
      && if k.pc.Completing? then Verified(w, k.publication)
         else k.pc == Uploading(w.contest.marker, []) && w.contest.marker != Some(Foreign)
              && Fits(w.contest.marker, w.contest.files)
    case Upload(tag, readBack, saved) =>
      && readBack && saved && w.worker.Some? && w.worker.value.publication == k.publication
      && w.worker.value.pc.Uploading? && k.pc.Uploading? && k.pc.previous == w.worker.value.pc.previous
      && |k.pc.published| == |w.worker.value.pc.published| + 1
    case Reread(open) =>
      && open && w.worker.Some? && w.worker.value.publication == k.publication && w.worker.value.pc.Uploading?
      && w.contest.marker == w.worker.value.pc.previous && Fits(w.contest.marker, w.contest.files)
      && k.pc == Editing(Others(w.contest.files), w.worker.value.pc.published)
    case Edit => w.worker.Some? && w.worker.value.publication == k.publication && w.worker.value.pc.Editing?
                 && k.pc.Verifying?
    case Verify => w.worker == Some(Worker(k.publication, Verifying)) && Verified(w, k.publication) && k.pc.Completing?
    case _ => false
  }

  /** Other requests arrive and find the contest taken. */
  ghost predicate OnlyArrivals(es: seq<Event>, j: int, i: int) {
    0 <= j <= i <= |es| && forall n :: j <= n < i ==> es[n].Begin?
  }

  lemma WorkerStep(w: World, e: Event)
    requires Enabled(w, e) && Apply(w, e).worker.Some?
    ensures Lands(w, e, Apply(w, e).worker.value) || (e.Begin? && Apply(w, e).worker == w.worker)
  {
    hide Fits, Others, Verified;
  }

  /** The worker stands where the last event of its own put it; since then requests only arrived. */
  lemma {:induction false} PlacedBy(ws: seq<World>, es: seq<Event>, i: nat) returns (j: nat)
    requires IsRun(ws, es) && i < |ws| && ws[i].worker.Some?
    ensures j < i <= |es| < |ws| && Lands(ws[j], es[j], ws[i].worker.value) && OnlyArrivals(es, j + 1, i)
  {
    hide *;
    Lengths(ws, es);
    StartsIdle(ws, es);
    StepOf(ws, es, i - 1);
    WorkerStep(ws[i - 1], es[i - 1]);
    j := i - 1;
    ArrivalsNone(es, i);
    if !Lands(ws[i - 1], es[i - 1], ws[i].worker.value) {
      j := PlacedBy(ws, es, i - 1);
      ArrivalsMore(es, j + 1, i - 1);
    }
  }

  lemma StartsIdle(ws: seq<World>, es: seq<Event>)
    requires IsRun(ws, es)
    ensures |ws| > 0 && ws[0].worker.None?
  {
    hide Sane, Enabled, Apply;
  }

  lemma ArrivalsNone(es: seq<Event>, i: nat)
    requires i <= |es|
    ensures OnlyArrivals(es, i, i)
  {}

  lemma ArrivalsMore(es: seq<Event>, j: nat, i: nat)
    requires OnlyArrivals(es, j, i) && i < |es| && es[i].Begin?
    ensures OnlyArrivals(es, j, i + 1)
  {}

  /** No edit after the start: right before every edit, with no step of the worker between, the contest was
      read again and had not begun, and marker and files still fitted. */
  lemma EditIsOpen(ws: seq<World>, es: seq<Event>, i: nat) returns (j: nat)
    requires IsRun(ws, es) && i < |es| && es[i].Edit?
    ensures j < i && OnlyArrivals(es, j + 1, i) && es[j] == Reread(true) && |es| < |ws|
    ensures ws[i].worker.Some? && ws[i].worker.value.pc.Editing?
    ensures Lands(ws[j], es[j], ws[i].worker.value)
  {
    StepOf(ws, es, i);
    assert ws[i].worker.Some? && ws[i].worker.value.pc.Editing?;
    hide IsRun, Enabled, Apply, OnlyArrivals;
    j := PlacedBy(ws, es, i);
    hide Fits, Others, Verified;
  }

  /** Each `published` belongs to an attempt that found the contest not yet begun: by the read that already
      found everything published, or by the re-read before its own edit. */
  lemma AnswerIsOpen(ws: seq<World>, es: seq<Event>, i: nat) returns (j: nat)
    requires IsRun(ws, es) && i < |es| && es[i] == Complete(true)
    ensures j < i && (es[j] == Read(true) || es[j] == Reread(true))
    ensures ws[i].worker.Some? && |es| < |ws| && ws[j].worker.Some?
    ensures ws[j].worker.value.publication == ws[i].worker.value.publication
    ensures forall n :: j < n < i ==> es[n].Begin? || es[n].Edit? || es[n].Verify?
  {
    StepOf(ws, es, i);
    assert ws[i].worker.Some? && ws[i].worker.value.pc.Completing?;
    hide IsRun, Enabled, Apply, Fits, Others, Verified;
    j := PlacedBy(ws, es, i);
    if es[j].Verify? {
      var verify := j;
      var edit := PlacedBy(ws, es, verify);
      assert es[edit].Edit?;
      j := PlacedBy(ws, es, edit);
      assert es[j].Reread?;
    }
  }

  /** Once the contest has begun, a read or re-read stops the attempt and leaves everything as it is; and an
      upload that cannot be read back, or noted, never leads to an edit. */
  lemma ClosedStops(w: World, e: Event)
    requires Enabled(w, e) && (e == Read(false) || e == Reread(false) || (e.Upload? && !(e.readBack && e.saved)))
    ensures var u := Apply(w, e);
            && u.worker.None? && u.contest == w.contest && u.published == w.published && u.conflicts == w.conflicts
            && (!e.Upload? ==> u.storage == w.storage)
  {
    hide Fits, Others, Verified;
  }
}
