/**
 The idempotency journals of the Hydro addon: an insertion-ordered object in memory and a
 file on disk.  Every save first evicts surplus completed entries, then replaces the file.
 The submission, notification, problem-draft and material journals share this code shape.
 */
module JournalStore {
  import opened Basics

  type Key(==, !new)

  /** What pruning looks at.  `createdAt` stands for the ISO time stamp, which sorts as a number. */
  datatype Stamp = Stamp(complete: bool, createdAt: int)

  datatype Record<T> = Record(stamp: Stamp, value: T)

  const VERSION := 1

  /** The file as a start finds it.  Text that does not parse, or has no entries, is `Unreadable`. */
  datatype File<T> = Absent | Unreadable | Stored(version: int, entries: map<Key, Record<T>>, order: seq<Key>)

  datatype Fault = NoFault | BeforeRename | AfterRename

  function Min(a: int, b: int): int {
    if a < b then a else b
  }

  function Stamps<T>(entries: map<Key, Record<T>>): map<Key, Stamp> {
    map k | k in entries :: entries[k].stamp
  }

  function CompletedKeys(stamps: map<Key, Stamp>): set<Key> {
    set k | k in stamps && stamps[k].complete
  }

  /** The keys a save may keep, of all the entries present: only completed entries go, exactly
      as many as the limit asks for and there are, and never a newer one before an older one. */
  ghost predicate Pruned(stamps: map<Key, Stamp>, kept: set<Key>, limit: nat) {
    && kept <= stamps.Keys
    && (forall k :: k in stamps && k !in kept ==> stamps[k].complete)
    && |stamps.Keys| - |kept|
       == (if |stamps.Keys| <= limit then 0 else Min(|stamps.Keys| - limit, |CompletedKeys(stamps)|))
    && (forall gone, stays :: gone in stamps && gone !in kept && stays in kept && stamps[stays].complete
          ==> stamps[gone].createdAt <= stamps[stays].createdAt)
  }

  // ----- key orders -----

  ghost function Elements(s: seq<Key>): set<Key> {
    set k | k in s
  }

  function CompletedIn(order: seq<Key>, stamps: map<Key, Stamp>): seq<Key> {
    if order == [] then []
    else
      var front, last := CompletedIn(order[..|order| - 1], stamps), order[|order| - 1];
      if last in stamps && stamps[last].complete then front + [last] else front
  }

  function Age(stamps: map<Key, Stamp>, k: Key): int {
    if k in stamps then stamps[k].createdAt else 0
  }

  /** A stable sort by time stamp, oldest first. */
  function Insert(k: Key, sorted: seq<Key>, stamps: map<Key, Stamp>): seq<Key> {
    if sorted == [] || Age(stamps, sorted[|sorted| - 1]) <= Age(stamps, k) then sorted + [k]
    else Insert(k, sorted[..|sorted| - 1], stamps) + [sorted[|sorted| - 1]]
  }

  function SortByAge(order: seq<Key>, stamps: map<Key, Stamp>): seq<Key> {
    if order == [] then []
    else Insert(order[|order| - 1], SortByAge(order[..|order| - 1], stamps), stamps)
  }

  function Without(order: seq<Key>, k: Key): seq<Key> {
    if order == [] then []
    else
      var front, last := Without(order[..|order| - 1], k), order[|order| - 1];
      if last == k then front else front + [last]
  }

  ghost predicate OldestFirst(s: seq<Key>, stamps: map<Key, Stamp>) {
    forall i, j :: 0 <= i < j < |s| ==> Age(stamps, s[i]) <= Age(stamps, s[j])
  }

  lemma {:induction false} InsertHas(k: Key, sorted: seq<Key>, stamps: map<Key, Stamp>)
    ensures forall x :: x in Insert(k, sorted, stamps) <==> x == k || x in sorted
  {
    if sorted == [] || Age(stamps, sorted[|sorted| - 1]) <= Age(stamps, k) {
    } else {
      var front, last := sorted[..|sorted| - 1], sorted[|sorted| - 1];
      InsertHas(k, front, stamps);
      assert sorted == front + [last];
    }
  }

  lemma {:induction false} InsertKeeps(k: Key, sorted: seq<Key>, stamps: map<Key, Stamp>)
    requires OldestFirst(sorted, stamps)
    ensures OldestFirst(Insert(k, sorted, stamps), stamps)
    ensures Distinct(sorted) && k !in sorted ==> Distinct(Insert(k, sorted, stamps))
  {
    if sorted == [] || Age(stamps, sorted[|sorted| - 1]) <= Age(stamps, k) {
    } else {
      var front, last := sorted[..|sorted| - 1], sorted[|sorted| - 1];
      InsertKeeps(k, front, stamps);
      InsertHas(k, front, stamps);
      var r := Insert(k, front, stamps);
      forall i | 0 <= i < |r|
        ensures Age(stamps, r[i]) <= Age(stamps, last)
        ensures Distinct(sorted) && k !in sorted ==> r[i] != last
      {
        assert r[i] in r;
      }
    }
  }

  lemma {:induction false} SortKeeps(order: seq<Key>, stamps: map<Key, Stamp>)
    ensures OldestFirst(SortByAge(order, stamps), stamps)
    ensures Distinct(order) ==> Distinct(SortByAge(order, stamps))
    ensures forall x :: x in SortByAge(order, stamps) <==> x in order
  {
    if order != [] {
      var front, last := order[..|order| - 1], order[|order| - 1];
      SortKeeps(front, stamps);
      InsertKeeps(last, SortByAge(front, stamps), stamps);
      InsertHas(last, SortByAge(front, stamps), stamps);
      assert forall x :: x in order <==> x in front || x == last;
    }
  }

  lemma {:induction false} CompletedInIs(order: seq<Key>, stamps: map<Key, Stamp>)
    ensures forall k :: k in CompletedIn(order, stamps) <==> k in order && k in stamps && stamps[k].complete
    ensures Distinct(order) ==> Distinct(CompletedIn(order, stamps))
  {
    if order != [] {
      var front, last := order[..|order| - 1], order[|order| - 1];
      CompletedInIs(front, stamps);
      assert forall x :: x in order <==> x in front || x == last;
    }
  }

  lemma {:induction false} WithoutIs(order: seq<Key>, k: Key)
    ensures forall x :: x in Without(order, k) <==> x in order && x != k
    ensures Distinct(order) ==> Distinct(Without(order, k))
  {
    if order != [] {
      var front, last := order[..|order| - 1], order[|order| - 1];
      WithoutIs(front, k);
      assert Distinct(order) ==> last !in front;
      assert forall x :: x in order <==> x in front || x == last;
    }
  }

  lemma {:induction false} ElementsCount(s: seq<Key>)
    requires Distinct(s)
    ensures |Elements(s)| == |s|
  {
    if s != [] {
      var front, last := s[..|s| - 1], s[|s| - 1];
      ElementsCount(front);
      assert Elements(s) == Elements(front) + {last};
    }
  }

  /** Dropping the oldest completed keys, as many as the limit asks for, is a legal pruning. */
  lemma DroppingOldestPrunes(stamps: map<Key, Stamp>, sorted: seq<Key>, n: nat, limit: nat)
    requires Distinct(sorted) && OldestFirst(sorted, stamps)
    requires Elements(sorted) == CompletedKeys(stamps)
    requires |stamps.Keys| > limit && n == Min(|stamps.Keys| - limit, |sorted|)
    ensures Pruned(stamps, stamps.Keys - Elements(sorted[..n]), limit)
  {
    ElementsCount(sorted);
    ElementsCount(sorted[..n]);
    var gone := Elements(sorted[..n]);
    assert forall k :: k in gone ==> k in Elements(sorted);
    assert |stamps.Keys - gone| == |stamps.Keys| - |gone|;
    forall x, stays | x in gone && stays in stamps && stays !in gone && stamps[stays].complete
      ensures stamps[x].createdAt <= stamps[stays].createdAt
    {
      assert stays in Elements(sorted);
      var i :| 0 <= i < n && sorted[i] == x;
      var j :| 0 <= j < |sorted| && sorted[j] == stays;
      assert sorted[j] in gone || j >= n;
    }
  }

  // ----- the journal object -----

  class Journal<T> {
    const limit: nat
    var entries: map<Key, Record<T>>   // the object in memory
    var order: seq<Key>                // its keys, in insertion order
    var file: File<T>                  // the file on disk

    ghost predicate Valid()
      reads this
    {
      && Distinct(order) && Elements(order) == entries.Keys
      && (file.Stored? ==> Distinct(file.order) && Elements(file.order) == file.entries.Keys)
    }

    constructor (limit: nat, file: File<T>)
      requires file.Stored? ==> Distinct(file.order) && Elements(file.order) == file.entries.Keys
      ensures Valid() && this.limit == limit && this.file == file && entries == map[]
    {
      this.limit, this.file := limit, file;
      entries, order := map[], [];
    }

    /** A process start reads the file back; it throws on a file it cannot read or of another
        version, and takes an absent one for an empty journal. */
    method Load() returns (ok: bool)
      requires Valid()
      modifies this`entries, this`order
      ensures Valid() && (ok <==> file.Absent? || (file.Stored? && file.version == VERSION))
      ensures ok ==> entries == if file.Absent? then map[] else file.entries
      ensures !ok ==> entries == old(entries) && order == old(order)
    {
      match file
      case Absent =>
        entries, order := map[], [];
        return true;
      case Unreadable => return false;
      case Stored(version, stored, storedOrder) =>
        if version != VERSION {
          return false;
        }
        entries, order := stored, storedOrder;
        return true;
    }

    method Put(k: Key, record: Record<T>)
      requires Valid()
      modifies this`entries, this`order
      ensures Valid() && entries == old(entries)[k := record]
    {
      if k !in entries {
        order := order + [k];
      }
      entries := entries[k := record];
    }

    method Remove(k: Key)
      requires Distinct(order) && Elements(order) == entries.Keys
      modifies this`entries, this`order
      ensures Distinct(order) && Elements(order) == entries.Keys
      ensures entries == old(entries) - {k}
    {
      WithoutIs(order, k);
      order := Without(order, k);
      entries := entries - {k};
    }

    method Prune()
      requires Valid()
      modifies this`entries, this`order
      ensures Valid() && Pruned(Stamps(old(entries)), entries.Keys, limit)
      ensures forall k :: k in entries ==> k in old(entries) && entries[k] == old(entries)[k]
    {
      hide Distinct, OldestFirst, SortByAge, CompletedIn, CompletedKeys;
      var stamps := Stamps(entries);
      assert |entries| == |entries.Keys| && stamps.Keys == entries.Keys;
      if |entries| <= limit {
        return;
      }
      var removable := SortByAge(CompletedIn(order, stamps), stamps);
      var removeCount := Min(|entries| - limit, |removable|);
      RemovableIs(order, stamps);
      DroppingOldestPrunes(stamps, removable, removeCount, limit);
      hide Pruned;
      RemoveAll(removable[..removeCount]);
      assert entries.Keys == stamps.Keys - Elements(removable[..removeCount]);
    }

    method RemoveAll(keys: seq<Key>)
      requires Distinct(order) && Elements(order) == entries.Keys
      modifies this`entries, this`order
      ensures Distinct(order) && Elements(order) == entries.Keys
      ensures entries == old(entries) - Elements(keys)
    {
      hide Distinct;
      var i := 0;
      while i < |keys|
        invariant 0 <= i <= |keys|
        invariant Distinct(order) && Elements(order) == entries.Keys
        invariant entries == old(entries) - Elements(keys[..i])
      {
        assert Elements(keys[..i + 1]) == Elements(keys[..i]) + {keys[i]};
        Remove(keys[i]);
        i := i + 1;
      }
      assert keys[..i] == keys;
    }

    /** Prunes, then replaces the file by rename; a throw leaves the old or the new file. */
    method Save(fault: Fault) returns (ok: bool)
      requires Valid()
      modifies this
      ensures Valid() && ok == fault.NoFault?
      ensures Pruned(Stamps(old(entries)), entries.Keys, limit)
      ensures forall k :: k in entries ==> k in old(entries) && entries[k] == old(entries)[k]
      ensures file == if fault.BeforeRename? then old(file) else Stored(VERSION, entries, order)
    {
      Prune();
      if fault.BeforeRename? {
        return false;
      }
      file := Stored(VERSION, entries, order);
      ok := fault.NoFault?;
    }
  }

  lemma RemovableIs(order: seq<Key>, stamps: map<Key, Stamp>)
    requires Distinct(order) && Elements(order) == stamps.Keys
    ensures var removable := SortByAge(CompletedIn(order, stamps), stamps);
            && Distinct(removable) && OldestFirst(removable, stamps)
            && Elements(removable) == CompletedKeys(stamps)
  {
    var completed := CompletedIn(order, stamps);
    CompletedInIs(order, stamps);
    SortKeeps(completed, stamps);
    assert forall k :: k in stamps ==> k in Elements(order);
  }

  lemma {:induction false} Enumerate(s: set<Key>) returns (order: seq<Key>)
    ensures Distinct(order) && Elements(order) == s
  {
    if s == {} {
      order := [];
    } else {
      var k :| k in s;
      var front := Enumerate(s - {k});
      order := front + [k];
      assert Elements(order) == Elements(front) + {k};
      assert forall x :: x in front ==> x in Elements(front);
    }
  }

  /** Every journal can be pruned: a save never gets stuck. */
  lemma PruningExists(stamps: map<Key, Stamp>, limit: nat) returns (kept: set<Key>)
    ensures Pruned(stamps, kept, limit)
  {
    if |stamps.Keys| <= limit {
      kept := stamps.Keys;
    } else {
      var order := Enumerate(stamps.Keys);
      RemovableIs(order, stamps);
      var removable := SortByAge(CompletedIn(order, stamps), stamps);
      var n := Min(|stamps.Keys| - limit, |removable|);
      DroppingOldestPrunes(stamps, removable, n, limit);
      kept := stamps.Keys - Elements(removable[..n]);
    }
  }

  /** What a legal pruning leaves: within the limit, or nothing but incomplete entries above it. */
  lemma PrunedSize(stamps: map<Key, Stamp>, kept: set<Key>, limit: nat)
    requires Pruned(stamps, kept, limit)
    ensures |kept| <= limit || (forall k :: k in kept ==> !stamps[k].complete)
    ensures forall k :: k in stamps && !stamps[k].complete ==> k in kept
  {
    if |kept| > limit {
      var gone := stamps.Keys - kept;
      assert |gone| == |stamps.Keys| - |kept|;
      assert gone <= CompletedKeys(stamps);
      assert |gone| == |CompletedKeys(stamps)|;
      SubsetOfSameSize(gone, CompletedKeys(stamps));
    }
  }

  lemma SubsetOfSameSize<X>(a: set<X>, b: set<X>)
    requires a <= b && |a| == |b|
    ensures a == b
  {
    if x :| x in b && x !in a {
      assert a <= b - {x};
      SubsetSize(a, b - {x});
    }
  }

  lemma {:induction false} SubsetSize<X>(a: set<X>, b: set<X>)
    requires a <= b
    ensures |a| <= |b|
  {
    if a != {} {
      var x :| x in a;
      SubsetSize(a - {x}, b - {x});
    }
  }
}
