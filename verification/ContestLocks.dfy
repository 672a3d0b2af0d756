/**
 Per-contest readers and writers: submissions take counted leases, a file-I/O switch or a
 material publication takes the contest alone.
 */
module ContestLocks {

  type Contest(==, !new)
  type Holder(==, !new)

  datatype Kind = Lease | Draft | Material

  /** The three module-level collections of the addon. */
  datatype Table = Table(drafts: set<Contest>, materials: set<Contest>, leases: map<Contest, int>)

  const FREE := Table({}, {}, map[])

  predicate Mutating(t: Table, tid: Contest) {
    tid in t.drafts || tid in t.materials
  }

  function LeaseCount(t: Table, tid: Contest): int {
    if tid in t.leases then t.leases[tid] else 0
  }

  /** The acquire functions throw exactly when this fails. */
  predicate Admits(t: Table, kind: Kind, tid: Contest) {
    !Mutating(t, tid) && (kind.Lease? || LeaseCount(t, tid) == 0)
  }

  function Acquired(t: Table, kind: Kind, tid: Contest): Table {
    match kind
    case Lease => t.(leases := t.leases[tid := LeaseCount(t, tid) + 1])
    case Draft => t.(drafts := t.drafts + {tid})
    case Material => t.(materials := t.materials + {tid})
  }

  function Released(t: Table, kind: Kind, tid: Contest): Table {
    match kind
    case Lease =>
      var remaining := (if LeaseCount(t, tid) == 0 then 1 else LeaseCount(t, tid)) - 1;
      t.(leases := if remaining > 0 then t.leases[tid := remaining] else t.leases - {tid})
    case Draft => t.(drafts := t.drafts - {tid})
    case Material => t.(materials := t.materials - {tid})
  }

  class Locks {
    var contestDraftMutations: set<Contest>
    var contestMaterialMutations: set<Contest>
    var contestSubmissionLeases: map<Contest, int>

    ghost function Value(): Table
      reads this
    {
      Table(contestDraftMutations, contestMaterialMutations, contestSubmissionLeases)
    }

    constructor ()
      ensures Value() == FREE
    {
      contestDraftMutations, contestMaterialMutations, contestSubmissionLeases := {}, {}, map[];
    }

    method AcquireSubmissionLease(tid: Contest) returns (ok: bool)
      modifies this
      ensures ok == Admits(old(Value()), Lease, tid)
      ensures Value() == if ok then Acquired(old(Value()), Lease, tid) else old(Value())
    {
      if tid in contestDraftMutations || tid in contestMaterialMutations {
        return false;
      }
      var count := if tid in contestSubmissionLeases then contestSubmissionLeases[tid] else 0;
      contestSubmissionLeases := contestSubmissionLeases[tid := count + 1];
      return true;
    }

    method ReleaseSubmissionLease(tid: Contest)
      modifies this
      ensures Value() == Released(old(Value()), Lease, tid)
    {
      var count := if tid in contestSubmissionLeases then contestSubmissionLeases[tid] else 0;
      var remaining := (if count == 0 then 1 else count) - 1;
      if remaining > 0 {
        contestSubmissionLeases := contestSubmissionLeases[tid := remaining];
      } else {
        contestSubmissionLeases := contestSubmissionLeases - {tid};
      }
    }

    method AcquireMutation(kind: Kind, tid: Contest) returns (ok: bool)
      requires !kind.Lease?
      modifies this
      ensures ok == Admits(old(Value()), kind, tid)
      ensures Value() == if ok then Acquired(old(Value()), kind, tid) else old(Value())
    {
      if tid in contestDraftMutations || tid in contestMaterialMutations
         || (tid in contestSubmissionLeases && contestSubmissionLeases[tid] != 0) {
        return false;
      }
      if kind.Draft? {
        contestDraftMutations := contestDraftMutations + {tid};
      } else {
        contestMaterialMutations := contestMaterialMutations + {tid};
      }
      return true;
    }

    method ReleaseMutation(kind: Kind, tid: Contest)
      requires !kind.Lease?
      modifies this
      ensures Value() == Released(old(Value()), kind, tid)
    {
      if kind.Draft? {
        contestDraftMutations := contestDraftMutations - {tid};
      } else {
        contestMaterialMutations := contestMaterialMutations - {tid};
      }
    }
  }

  // ----- handlers interleaved at their awaits -----

  /** A handler inside the region that its acquire opens and its `finally` closes. */
  datatype Hold = Hold(kind: Kind, tid: Contest)

  datatype World = World(table: Table, inside: map<Holder, Hold>)

  datatype Event = Enter(h: Holder, hold: Hold) | Leave(h: Holder) | Crash

  ghost predicate Enabled(w: World, e: Event) {
    match e
    case Enter(h, _) => h !in w.inside
    case Leave(h) => h in w.inside
    case Crash => true
  }

  ghost function Apply(w: World, e: Event): World
    requires Enabled(w, e)
  {
    match e
    case Enter(h, hold) =>
      if Admits(w.table, hold.kind, hold.tid)
      then World(Acquired(w.table, hold.kind, hold.tid), w.inside[h := hold]) else w
    case Leave(h) => World(Released(w.table, w.inside[h].kind, w.inside[h].tid), w.inside - {h})
    case Crash => World(FREE, map[])
  }

  ghost predicate IsRun(ws: seq<World>, es: seq<Event>) {
    && |ws| == |es| + 1 && ws[0] == World(FREE, map[])
    && forall i {:trigger es[i]} :: 0 <= i < |es| ==> Enabled(ws[i], es[i]) && ws[i + 1] == Apply(ws[i], es[i])
  }

  ghost function Those(w: World, hold: Hold): set<Holder> {
    set h | h in w.inside && w.inside[h] == hold
  }

  /** Whoever mutates a contest is alone on it. */
  ghost predicate Exclusive(w: World) {
    forall g, h :: g in w.inside && h in w.inside && g != h && w.inside[g].tid == w.inside[h].tid
      ==> w.inside[g].kind.Lease? && w.inside[h].kind.Lease?
  }

  /** The collections say who is inside: each mutation once, leases by their number. */
  ghost predicate Accounted(w: World) {
    forall tid :: AccountedAt(w, tid)
  }

  ghost predicate AccountedAt(w: World, tid: Contest) {
    && (tid in w.table.drafts <==> Those(w, Hold(Draft, tid)) != {})
    && (tid in w.table.materials <==> Those(w, Hold(Material, tid)) != {})
    && LeaseCount(w.table, tid) == |Those(w, Hold(Lease, tid))|
    && (tid in w.table.leases ==> w.table.leases[tid] > 0)
  }

  ghost predicate Inv(w: World) {
    Exclusive(w) && Accounted(w)
  }

  lemma EnterThose(w: World, h: Holder, hold: Hold, other: Hold)
    requires h !in w.inside
    ensures Those(World(w.table, w.inside[h := hold]), other)
            == if other == hold then Those(w, other) + {h} else Those(w, other)
  {}

  lemma LeaveThose(w: World, h: Holder, other: Hold)
    requires h in w.inside
    ensures Those(World(w.table, w.inside - {h}), other)
            == if other == w.inside[h] then Those(w, other) - {h} else Those(w, other)
  {}

  lemma EnterKeeps(w: World, h: Holder, hold: Hold)
    requires Inv(w) && h !in w.inside && Admits(w.table, hold.kind, hold.tid)
    ensures Inv(Apply(w, Enter(h, hold)))
  {
    AdmitsAlone(w, hold);
    forall tid ensures AccountedAt(Apply(w, Enter(h, hold)), tid) {
      EnterAccounts(w, h, hold, tid);
    }
  }

  /** Who is inside with each kind of hold, once `h` has entered. */
  lemma EnteredThose(w: World, h: Holder, hold: Hold, other: Hold)
    requires h !in w.inside && Admits(w.table, hold.kind, hold.tid)
    ensures h !in Those(w, other)
    ensures Those(Apply(w, Enter(h, hold)), other) == if other == hold then Those(w, other) + {h} else Those(w, other)
  {
    EnterThose(w, h, hold, other);
    SameThose(World(w.table, w.inside[h := hold]), Apply(w, Enter(h, hold)), other);
    NotThose(w, h, other);
    hide Those, Admits, Acquired;
  }

  lemma OneMore(s: set<Holder>, h: Holder)
    requires h !in s
    ensures |s + {h}| == |s| + 1 && s + {h} != {}
  {}

  lemma EnterAccounts(w: World, h: Holder, hold: Hold, tid: Contest)
    requires AccountedAt(w, tid) && h !in w.inside && Admits(w.table, hold.kind, hold.tid)
    ensures AccountedAt(Apply(w, Enter(h, hold)), tid)
  {
    EnteredThose(w, h, hold, Hold(Draft, tid));
    EnteredThose(w, h, hold, Hold(Material, tid));
    EnteredThose(w, h, hold, Hold(Lease, tid));
    OneMore(Those(w, Hold(Draft, tid)), h);
    OneMore(Those(w, Hold(Material, tid)), h);
    OneMore(Those(w, Hold(Lease, tid)), h);
    hide Those;
  }

  lemma SameThose(w: World, u: World, hold: Hold)
    requires w.inside == u.inside
    ensures Those(w, hold) == Those(u, hold)
  {}

  lemma NotThose(w: World, h: Holder, hold: Hold)
    requires h !in w.inside || w.inside[h] != hold
    ensures h !in Those(w, hold)
  {}

  lemma AdmitsAlone(w: World, hold: Hold)
    requires Accounted(w) && Admits(w.table, hold.kind, hold.tid)
    ensures forall g :: g in w.inside && w.inside[g].tid == hold.tid ==> w.inside[g].kind.Lease? && hold.kind.Lease?
  {
    assert AccountedAt(w, hold.tid);
    forall g | g in w.inside && w.inside[g].tid == hold.tid ensures w.inside[g].kind.Lease? && hold.kind.Lease? {
      assert g in Those(w, Hold(w.inside[g].kind, hold.tid));
    }
  }

  lemma LeaveKeeps(w: World, h: Holder)
    requires Inv(w) && h in w.inside
    ensures Inv(Apply(w, Leave(h)))
  {
    forall tid ensures AccountedAt(Apply(w, Leave(h)), tid) {
      LeaveAccounts(w, h, tid);
    }
  }

  lemma LeaveAccounts(w: World, h: Holder, tid: Contest)
    requires Exclusive(w) && AccountedAt(w, tid) && h in w.inside
    ensures AccountedAt(Apply(w, Leave(h)), tid)
  {
    var u, hold := World(w.table, w.inside - {h}), w.inside[h];
    LeaveThose(w, h, Hold(Draft, tid));
    LeaveThose(w, h, Hold(Material, tid));
    LeaveThose(w, h, Hold(Lease, tid));
    SameThose(u, Apply(w, Leave(h)), Hold(Draft, tid));
    SameThose(u, Apply(w, Leave(h)), Hold(Material, tid));
    SameThose(u, Apply(w, Leave(h)), Hold(Lease, tid));
    assert h in Those(w, hold);
    if !hold.kind.Lease? {
      assert Those(w, hold) == {h};
    }
    hide Those, Exclusive;
  }

  lemma {:induction false} RunKeeps(ws: seq<World>, es: seq<Event>, i: nat)
    requires IsRun(ws, es) && i < |ws|
    ensures Inv(ws[i])
  {
    if i > 0 {
      RunKeeps(ws, es, i - 1);
      match es[i - 1]
      case Enter(h, hold) =>
        if Admits(ws[i - 1].table, hold.kind, hold.tid) {
          EnterKeeps(ws[i - 1], h, hold);
        }
      case Leave(h) => LeaveKeeps(ws[i - 1], h);
      case Crash => assert forall hold :: Those(ws[i], hold) == {};
    } else {
      assert forall hold :: Those(ws[0], hold) == {};
    }
  }

  /** In every interleaving: a draft or material mutation never shares its contest with anyone,
      and the lease count is the number of submissions inside. */
  lemma MutualExclusion(ws: seq<World>, es: seq<Event>, i: nat, tid: Contest)
    requires IsRun(ws, es) && i < |ws|
    ensures var w := ws[i];
            && |Those(w, Hold(Draft, tid))| + |Those(w, Hold(Material, tid))| <= 1
            && (Those(w, Hold(Draft, tid)) + Those(w, Hold(Material, tid)) != {} ==> Those(w, Hold(Lease, tid)) == {})
            && LeaseCount(w.table, tid) == |Those(w, Hold(Lease, tid))|
  {
    RunKeeps(ws, es, i);
    assert AccountedAt(ws[i], tid);
    var drafts, materials := Those(ws[i], Hold(Draft, tid)), Those(ws[i], Hold(Material, tid));
    AtMostOne(drafts);
    AtMostOne(materials);
  }

  lemma AtMostOne(s: set<Holder>)
    requires forall g, h :: g in s && h in s ==> g == h
    ensures |s| <= 1
  {
    if g :| g in s {
      assert s == {g};
    }
  }

  /** An acquire succeeds exactly when nobody stands in its way, and a failed one changes nothing. */
  lemma AcquireIsExact(ws: seq<World>, es: seq<Event>, i: nat)
    requires IsRun(ws, es) && i < |es| && es[i].Enter?
    ensures var tid := es[i].hold.tid;
            var stands := if es[i].hold.kind.Lease?
                          then exists h ::
                            h in ws[i].inside && ws[i].inside[h].tid == tid && !ws[i].inside[h].kind.Lease?
                          else exists h :: h in ws[i].inside && ws[i].inside[h].tid == tid;
            (es[i].h in ws[i + 1].inside <==> !stands) && (stands ==> ws[i + 1] == ws[i])
  {
    RunKeeps(ws, es, i);
    var w, hold := ws[i], es[i].hold;
    assert AccountedAt(w, hold.tid);
    if Admits(w.table, hold.kind, hold.tid) {
      AdmitsAlone(w, hold);
    } else if Mutating(w.table, hold.tid) {
      var kind := if hold.tid in w.table.drafts then Draft else Material;
      var h :| h in Those(w, Hold(kind, hold.tid));
      assert h in w.inside && !w.inside[h].kind.Lease?;
    } else {
      var h :| h in Those(w, Hold(Lease, hold.tid));
      assert h in w.inside;
    }
  }

  /** Once every handler has left, nothing is held. */
  lemma NothingLeaks(ws: seq<World>, es: seq<Event>, i: nat)
    requires IsRun(ws, es) && i < |ws| && ws[i].inside == map[]
    ensures ws[i].table == FREE
  {
    RunKeeps(ws, es, i);
    var t := ws[i].table;
    assert forall hold :: Those(ws[i], hold) == {};
    forall tid ensures tid !in t.drafts && tid !in t.materials && tid !in t.leases {
      assert AccountedAt(ws[i], tid);
    }
    assert t.drafts == {} && t.materials == {} && t.leases == map[];
  }
}
