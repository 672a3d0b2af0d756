/** Seat notifications: each round takes the three that waited most and marks every attempt. */
module NotificationBatch {
  import opened Basics

  type Id(==, !new)

  const BATCH_SIZE := 3

  datatype State = Pending | Retry | Sent | PermanentFailed

  datatype Row = Row(state: State, attempts: int, updatedAt: int, uid: int)

  datatype Job = Job(id: Id, row: Row)

  datatype Delivery = Delivered | Retryable | Permanent

  /** A released seat, or a reminder for one; preparing it may fail before anything is queued. */
  datatype Seat = Seat(id: Id, uid: int, ready: bool)

  predicate Open(row: Row) {
    row.state.Pending? || row.state.Retry?
  }

  // ----- the sort key -----

  /** (pending first, attempts, last update, uid), compared left to right. */
  predicate Before(a: Row, b: Row) {
    var ra, rb := if a.state.Pending? then 0 else 1, if b.state.Pending? then 0 else 1;
    ra < rb
    || (ra == rb && (a.attempts < b.attempts
        || (a.attempts == b.attempts && (a.updatedAt < b.updatedAt
            || (a.updatedAt == b.updatedAt && a.uid <= b.uid)))))
  }

  predicate IsSorted(jobs: seq<Job>) {
    forall i, j :: 0 <= i < j < |jobs| ==> Before(jobs[i].row, jobs[j].row)
  }

  function Insert(jobs: seq<Job>, job: Job): seq<Job> {
    if jobs == [] || !Before(jobs[0].row, job.row) then [job] + jobs else [jobs[0]] + Insert(jobs[1..], job)
  }

  function Sort(jobs: seq<Job>): seq<Job> {
    if jobs == [] then [] else Insert(Sort(jobs[..|jobs| - 1]), jobs[|jobs| - 1])
  }

  lemma {:induction false} InsertElements(jobs: seq<Job>, job: Job)
    ensures multiset(Insert(jobs, job)) == multiset(jobs) + multiset{job}
  {
    hide Before;
    if jobs != [] {
      InsertElements(jobs[1..], job);
      assert jobs == [jobs[0]] + jobs[1..];
    }
  }

  lemma AllBefore(first: Job, rest: seq<Job>, jobs: seq<Job>, job: Job)
    requires multiset(rest) == multiset(jobs) + multiset{job} && Before(first.row, job.row)
    requires forall x :: x in jobs ==> Before(first.row, x.row)
    ensures forall j :: 0 <= j < |rest| ==> Before(first.row, rest[j].row)
  {
    hide Before;
    forall j | 0 <= j < |rest| ensures Before(first.row, rest[j].row) {
      assert rest[j] in multiset(rest);
      if rest[j] != job {
        assert rest[j] in multiset(jobs);
      }
    }
  }

  lemma ConsSorted(first: Job, rest: seq<Job>)
    requires IsSorted(rest) && forall j :: 0 <= j < |rest| ==> Before(first.row, rest[j].row)
    ensures IsSorted([first] + rest)
  {
    hide Before;
  }

  /** A row comes before or after another, and what comes before one comes before all behind it. */
  lemma BeforeIsTotal(a: Row, b: Row, c: Row)
    ensures (Before(a, b) || Before(b, a)) && (Before(a, b) && Before(b, c) ==> Before(a, c))
  {}

  lemma SortedParts(jobs: seq<Job>)
    requires IsSorted(jobs) && jobs != []
    ensures IsSorted(jobs[1..]) && forall x :: x in jobs[1..] ==> Before(jobs[0].row, x.row)
  {
    hide Before;
  }

  lemma {:induction false} InsertSorts(jobs: seq<Job>, job: Job)
    requires IsSorted(jobs)
    ensures IsSorted(Insert(jobs, job)) && multiset(Insert(jobs, job)) == multiset(jobs) + multiset{job}
  {
    hide Before;
    InsertElements(jobs, job);
    if jobs == [] {
    } else if !Before(jobs[0].row, job.row) {
      forall j | 0 <= j < |jobs| ensures Before(job.row, jobs[j].row) {
        BeforeIsTotal(job.row, jobs[0].row, jobs[j].row);
      }
      ConsSorted(job, jobs);
    } else {
      SortedParts(jobs);
      InsertSorts(jobs[1..], job);
      AllBefore(jobs[0], Insert(jobs[1..], job), jobs[1..], job);
      ConsSorted(jobs[0], Insert(jobs[1..], job));
    }
  }

  lemma {:induction false} SortSorts(jobs: seq<Job>)
    ensures IsSorted(Sort(jobs)) && multiset(Sort(jobs)) == multiset(jobs)
  {
    if jobs != [] {
      var front, last := jobs[..|jobs| - 1], jobs[|jobs| - 1];
      SortSorts(front);
      hide IsSorted, Insert;
      InsertSorts(Sort(front), last);
      assert jobs == front + [last];
    }
  }

  // ----- one round -----

  /** queue_seat_notification for every seat that could be prepared: a row that exists stays. */
  function Queue(rows: map<Id, Row>, seats: seq<Seat>, now: int): map<Id, Row> {
    if seats == [] then rows
    else
      var queued, last := Queue(rows, seats[..|seats| - 1], now), seats[|seats| - 1];
      if last.ready && last.id !in queued then queued[last.id := Row(Pending, 0, now, last.uid)] else queued
  }

  function ReadyIds(seats: seq<Seat>): seq<Id> {
    if seats == [] then []
    else
      var front, last := ReadyIds(seats[..|seats| - 1]), seats[|seats| - 1];
      if last.ready then front + [last.id] else front
  }

  /** What is marked: without a gateway every job of the batch has failed for now.  An id that is
      missing is one whose mark did not reach the store. */
  function Outcomes(gateway: bool, outcome: map<Id, Delivery>): map<Id, Delivery> {
    if gateway then outcome else map id | id in outcome :: Retryable
  }

  /** Queueing only adds rows, and every prepared seat has one. */
  lemma {:induction false} QueueKeeps(rows: map<Id, Row>, seats: seq<Seat>, now: int)
    ensures var queued := Queue(rows, seats, now);
            && (forall id :: id in rows ==> id in queued && queued[id] == rows[id])
            && (forall id :: id in queued && id !in rows ==>
                  queued[id].state.Pending? && queued[id].attempts == 0 && queued[id].updatedAt == now
                  && exists k :: 0 <= k < |seats| && seats[k].ready && seats[k].id == id
                       && seats[k].uid == queued[id].uid)
            && (forall id :: id in ReadyIds(seats) ==> id in queued)
  {
    if seats != [] {
      var front := seats[..|seats| - 1];
      QueueKeeps(rows, front, now);
      assert forall k :: 0 <= k < |front| ==> front[k] == seats[k];
      assert seats[|seats| - 1] == seats[|front|];
    }
  }

  /** New notifications start fresh, and once all are queued later rounds queue nothing. */
  lemma {:induction false} QueueSettles(rows: map<Id, Row>, seats: seq<Seat>, now: int)
    ensures (forall id :: id in ReadyIds(seats) ==> id !in rows) ==> Fresh(Queue(rows, seats, now), ReadyIds(seats))
    ensures (forall id :: id in ReadyIds(seats) ==> id in rows) ==> Queue(rows, seats, now) == rows
  {
    QueueKeeps(rows, seats, now);
    if seats != [] {
      QueueSettles(rows, seats[..|seats| - 1], now);
    }
  }

  /** The open notifications, in the order they were queued. */
  function Jobs(rows: map<Id, Row>, order: seq<Id>): seq<Job> {
    if order == [] then []
    else
      var front, id := Jobs(rows, order[..|order| - 1]), order[|order| - 1];
      if id in rows && Open(rows[id]) then front + [Job(id, rows[id])] else front
  }

  function Batch(rows: map<Id, Row>, order: seq<Id>): seq<Job> {
    var sorted := Sort(Jobs(rows, order));
    if |sorted| <= BATCH_SIZE then sorted else sorted[..BATCH_SIZE]
  }

  function Mark(row: Row, delivery: Delivery, now: int): Row {
    Row(if delivery.Delivered? then Sent else if delivery.Retryable? then Retry else PermanentFailed,
        row.attempts + 1, now, row.uid)
  }

  function MarkAll(rows: map<Id, Row>, batch: seq<Job>, outcome: map<Id, Delivery>, now: int): map<Id, Row> {
    if batch == [] then rows
    else
      var marked := MarkAll(rows, batch[..|batch| - 1], outcome, now);
      var id := batch[|batch| - 1].id;
      if id in marked && id in outcome then marked[id := Mark(marked[id], outcome[id], now)] else marked
  }

  function Round(rows: map<Id, Row>, order: seq<Id>, outcome: map<Id, Delivery>, now: int): map<Id, Row> {
    MarkAll(rows, Batch(rows, order), outcome, now)
  }

  class Store {
    var rows: map<Id, Row>

    constructor (rows: map<Id, Row>)
      ensures this.rows == rows
    {
      this.rows := rows;
    }

    /** UPDATE ... WHERE notification_id: a missing row is an error the caller only logs. */
    method MarkSeatNotification(id: Id, delivery: Delivery, now: int) returns (ok: bool)
      modifies this
      ensures ok == (id in old(rows))
      ensures rows == if ok then old(rows)[id := Mark(old(rows)[id], delivery, now)] else old(rows)
    {
      if id !in rows {
        return false;
      }
      rows := rows[id := Mark(rows[id], delivery, now)];
      return true;
    }

    /** One run under the lock: queue, sort, take the batch, deliver, mark. */
    method NotifyReleasedSeats(seats: seq<Seat>, gateway: bool, outcome: map<Id, Delivery>, now: int)
      modifies this
      ensures rows == Round(Queue(old(rows), seats, now), ReadyIds(seats), Outcomes(gateway, outcome), now)
    {
      hide Jobs, Sort, MarkAll, Outcomes, ReadyIds, Queue;
      var jobs := QueueJobs(seats, now);
      jobs := Sort(jobs);
      if |jobs| > BATCH_SIZE {
        jobs := jobs[..BATCH_SIZE];
      }
      MarkBatch(jobs, gateway, outcome, now);
    }

    /** The scheduler: one run after the other. */
    method NotifyRepeatedly(seats: seq<Seat>, runs: seq<Run>)
      modifies this
      ensures rows == Notified(old(rows), seats, runs)
    {
      hide Round, Queue, ReadyIds, OutcomesOf;
      var i := 0;
      assert runs[..0] == [];
      while i < |runs|
        invariant 0 <= i <= |runs| && rows == Notified(old(rows), seats, runs[..i])
      {
        assert runs[..i + 1][..i] == runs[..i];
        NotifyReleasedSeats(seats, runs[i].gateway, runs[i].outcome, runs[i].now);
        OutcomesAre(runs[i]);
        i := i + 1;
      }
      assert runs[..|runs|] == runs;
    }

    /** Each job of the batch, delivered or not, is marked with what became of it. */
    method MarkBatch(jobs: seq<Job>, gateway: bool, outcome: map<Id, Delivery>, now: int)
      modifies this
      ensures rows == MarkAll(old(rows), jobs, Outcomes(gateway, outcome), now)
    {
      hide Mark;
      var i := 0;
      assert jobs[..0] == [];
      while i < |jobs|
        invariant 0 <= i <= |jobs| && rows == MarkAll(old(rows), jobs[..i], Outcomes(gateway, outcome), now)
      {
        assert jobs[..i + 1][..i] == jobs[..i];
        var id := jobs[i].id;
        if id in outcome {
          var delivery := if gateway then outcome[id] else Retryable;
          var _ := MarkSeatNotification(id, delivery, now);
        }
        i := i + 1;
      }
      assert jobs[..|jobs|] == jobs;
    }

    /** Queue every prepared seat before any network I/O, and list those still open. */
    method QueueJobs(seats: seq<Seat>, now: int) returns (jobs: seq<Job>)
      modifies this
      ensures rows == Queue(old(rows), seats, now) && jobs == Jobs(rows, ReadyIds(seats))
    {
      jobs := [];
      var i := 0;
      assert seats[..0] == [];
      while i < |seats|
        invariant 0 <= i <= |seats| && rows == Queue(old(rows), seats[..i], now)
        invariant jobs == Jobs(rows, ReadyIds(seats[..i]))
      {
        assert seats[..i + 1][..i] == seats[..i];
        var seat := seats[i];
        ghost var before := rows;
        if seat.ready {
          QueueKeeps(old(rows), seats[..i], now);
          if seat.id !in rows {
            rows := rows[seat.id := Row(Pending, 0, now, seat.uid)];
          }
          JobsMore(before, rows, ReadyIds(seats[..i]), seat.id);
          if Open(rows[seat.id]) {
            jobs := jobs + [Job(seat.id, rows[seat.id])];
          }
        }
        i := i + 1;
      }
      assert seats[..|seats|] == seats;
    }
  }

  /** Rows that appear later change no job before. */
  lemma {:induction false} JobsFrame(rows: map<Id, Row>, later: map<Id, Row>, order: seq<Id>)
    requires forall id :: id in order ==> id in rows && id in later && later[id] == rows[id]
    ensures Jobs(later, order) == Jobs(rows, order)
  {
    if order != [] {
      JobsFrame(rows, later, order[..|order| - 1]);
    }
  }

  lemma JobsMore(rows: map<Id, Row>, later: map<Id, Row>, order: seq<Id>, id: Id)
    requires forall x :: x in order ==> x in rows && x in later && later[x] == rows[x]
    requires id in later
    ensures Jobs(later, order + [id]) == Jobs(rows, order) + (if Open(later[id]) then [Job(id, later[id])] else [])
  {
    JobsFrame(rows, later, order);
    assert (order + [id])[..|order|] == order;
  }

  // ----- fairness -----

  /** Every listed notification is open; none has been tried exactly when it is still pending. */
  ghost predicate Waiting(rows: map<Id, Row>, order: seq<Id>) {
    forall id :: id in order ==>
      id in rows && Open(rows[id]) && rows[id].attempts >= 0 && (rows[id].state.Pending? <==> rows[id].attempts == 0)
  }

  ghost predicate Even(rows: map<Id, Row>, order: seq<Id>)
    requires Waiting(rows, order)
  {
    forall a, b :: a in order && b in order ==> rows[a].attempts <= rows[b].attempts + 1
  }

  function Total(rows: map<Id, Row>, order: seq<Id>): int {
    if order == [] then 0
    else
      var id := order[|order| - 1];
      Total(rows, order[..|order| - 1]) + (if id in rows then rows[id].attempts else 0)
  }

  ghost predicate AllFail(order: seq<Id>, outcome: map<Id, Delivery>) {
    forall id :: id in order ==> id in outcome && outcome[id].Retryable?
  }

  function Ids(batch: seq<Job>): set<Id> {
    if batch == [] then {} else Ids(batch[..|batch| - 1]) + {batch[|batch| - 1].id}
  }

  function Tried(rows: map<Id, Row>, order: seq<Id>): set<Id> {
    Ids(Batch(rows, order))
  }

  lemma {:induction false} IdsHave(batch: seq<Job>)
    ensures forall i :: 0 <= i < |batch| ==> batch[i].id in Ids(batch)
  {
    if batch != [] {
      var front := batch[..|batch| - 1];
      IdsHave(front);
      assert forall i :: 0 <= i < |front| ==> batch[i] == front[i];
    }
  }

  lemma {:induction false} IdsFrom(batch: seq<Job>, id: Id) returns (i: nat)
    requires id in Ids(batch)
    ensures i < |batch| && batch[i].id == id
  {
    i := |batch| - 1;
    if batch[i].id != id {
      i := IdsFrom(batch[..i], id);
    }
  }

  lemma {:induction false} IdsCount(batch: seq<Job>)
    requires forall i, j :: 0 <= i < j < |batch| ==> batch[i].id != batch[j].id
    ensures |Ids(batch)| == |batch|
  {
    if batch != [] {
      var front, last := batch[..|batch| - 1], batch[|batch| - 1];
      IdsCount(front);
      assert last.id !in Ids(front) by {
        if last.id in Ids(front) {
          var i := IdsFrom(front, last.id);
          assert false;
        }
      }
    }
  }

  lemma IdsAre(batch: seq<Job>)
    ensures forall id :: id in Ids(batch) <==> exists i :: 0 <= i < |batch| && batch[i].id == id
    ensures (forall i, j :: 0 <= i < j < |batch| ==> batch[i].id != batch[j].id) ==> |Ids(batch)| == |batch|
  {
    IdsHave(batch);
    if forall i, j :: 0 <= i < j < |batch| ==> batch[i].id != batch[j].id {
      IdsCount(batch);
    }
    hide Ids;
    forall id | id in Ids(batch) ensures exists i :: 0 <= i < |batch| && batch[i].id == id {
      var i := IdsFrom(batch, id);
    }
  }

  lemma {:induction false} JobsAre(rows: map<Id, Row>, order: seq<Id>)
    requires Waiting(rows, order)
    ensures |Jobs(rows, order)| == |order|
    ensures forall i :: 0 <= i < |order| ==> Jobs(rows, order)[i] == Job(order[i], rows[order[i]])
  {
    if order != [] {
      JobsAre(rows, order[..|order| - 1]);
    }
  }

  /** The sorted jobs are the waiting notifications, each once. */
  lemma SortedAre(rows: map<Id, Row>, order: seq<Id>)
    requires Waiting(rows, order) && Distinct(order)
    ensures var sorted := Sort(Jobs(rows, order));
            && IsSorted(sorted) && |sorted| == |order|
            && (forall i :: 0 <= i < |sorted| ==> sorted[i].id in order && sorted[i].row == rows[sorted[i].id])
            && (forall i, j :: 0 <= i < j < |sorted| ==> sorted[i].id != sorted[j].id)
            && (forall id :: id in order ==> Job(id, rows[id]) in sorted)
  {
    var jobs := Jobs(rows, order);
    JobsAre(rows, order);
    SortSorts(jobs);
    var sorted := Sort(jobs);
    SameElements(sorted, jobs);
    hide Sort, Jobs, IsSorted;
    assert |sorted| == |order| by { assert |multiset(sorted)| == |sorted| && |multiset(jobs)| == |jobs|; }
    forall i | 0 <= i < |sorted| ensures sorted[i].id in order && sorted[i].row == rows[sorted[i].id] {
      assert sorted[i] in jobs;
    }
    forall id | id in order ensures Job(id, rows[id]) in sorted {
      var k :| 0 <= k < |order| && order[k] == id;
      assert jobs[k] == Job(id, rows[id]);
    }
    NoDuplicateIds(sorted, jobs, order, rows);
  }

  /** The batch: three different waiting notifications, or all, and none left out has fewer attempts. */
  lemma BatchIs(rows: map<Id, Row>, order: seq<Id>)
    requires Waiting(rows, order) && Distinct(order)
    ensures var batch := Batch(rows, order);
            && |batch| == (if |order| <= BATCH_SIZE then |order| else BATCH_SIZE)
            && (forall i :: 0 <= i < |batch| ==> batch[i].id in order && batch[i].row == rows[batch[i].id])
            && (forall i, j :: 0 <= i < j < |batch| ==> batch[i].id != batch[j].id)
    ensures forall a, b :: a in Tried(rows, order) && a in order && b in order && b !in Tried(rows, order)
              ==> rows[a].attempts <= rows[b].attempts
  {
    SortedAre(rows, order);
    IdsAre(Batch(rows, order));
    hide Sort, Jobs, Distinct, Ids;
    forall a, b | a in Tried(rows, order) && a in order && b in order && b !in Tried(rows, order)
      ensures rows[a].attempts <= rows[b].attempts
    {
      LeastTried(rows, order, a, b);
    }
  }

  /** The places of a tried and an untried notification among the sorted jobs. */
  lemma Places(rows: map<Id, Row>, order: seq<Id>, a: Id, b: Id) returns (i: nat, j: nat)
    requires Waiting(rows, order) && Distinct(order)
    requires a in Tried(rows, order) && a in order && b in order && b !in Tried(rows, order)
    ensures var sorted := Sort(Jobs(rows, order));
            i < j < |sorted| && sorted[i].id == a && sorted[i].row == rows[a] && sorted[j] == Job(b, rows[b])
            && IsSorted(sorted)
  {
    SortedAre(rows, order);
    var sorted, batch := Sort(Jobs(rows, order)), Batch(rows, order);
    assert batch == sorted[..|batch|];
    i := IdsFrom(batch, a);
    hide Sort, Jobs, Distinct, Ids, Before, IsSorted, Waiting, Batch;
    j :| 0 <= j < |sorted| && sorted[j] == Job(b, rows[b]);
    if j < |batch| {
      FrontTried(sorted, |batch|, j);
      assert false;
    }
  }

  lemma FrontTried(sorted: seq<Job>, n: nat, j: nat)
    requires j < n <= |sorted|
    ensures sorted[j].id in Ids(sorted[..n])
  {
    IdsHave(sorted[..n]);
    assert sorted[..n][j] == sorted[j];
  }

  lemma LeastTried(rows: map<Id, Row>, order: seq<Id>, a: Id, b: Id)
    requires Waiting(rows, order) && Distinct(order)
    requires a in Tried(rows, order) && a in order && b in order && b !in Tried(rows, order)
    ensures rows[a].attempts <= rows[b].attempts
  {
    var i, j := Places(rows, order, a, b);
    hide Sort, Jobs, Distinct, Tried, Before, IsSorted;
    SortedAt(Sort(Jobs(rows, order)), i, j);
    FewerAttempts(rows[a], rows[b]);
  }

  lemma SortedAt(sorted: seq<Job>, i: nat, j: nat)
    requires IsSorted(sorted) && i < j < |sorted|
    ensures Before(sorted[i].row, sorted[j].row)
  {
    hide Before;
  }

  lemma FewerAttempts(a: Row, b: Row)
    requires Before(a, b) && a.attempts >= 0 && b.attempts >= 0
    requires (a.state.Pending? <==> a.attempts == 0) && (b.state.Pending? <==> b.attempts == 0)
    ensures a.attempts <= b.attempts
  {}

  lemma SameElements(a: seq<Job>, b: seq<Job>)
    requires multiset(a) == multiset(b)
    ensures forall x :: x in a <==> x in b
  {
    forall x ensures x in a <==> x in b {
      assert x in a <==> x in multiset(a);
      assert x in b <==> x in multiset(b);
    }
  }

  lemma NoDuplicateIds(sorted: seq<Job>, jobs: seq<Job>, order: seq<Id>, rows: map<Id, Row>)
    requires multiset(sorted) == multiset(jobs) && |jobs| == |order| && Distinct(order) && Waiting(rows, order)
    requires forall i :: 0 <= i < |jobs| ==> jobs[i] == Job(order[i], rows[order[i]])
    requires forall i :: 0 <= i < |sorted| ==> sorted[i].id in order && sorted[i].row == rows[sorted[i].id]
    ensures forall i, j :: 0 <= i < j < |sorted| ==> sorted[i].id != sorted[j].id
  {
    forall i, j | 0 <= i < j < |sorted| ensures sorted[i].id != sorted[j].id {
      if sorted[i].id == sorted[j].id {
        Twice(sorted, i, j);
        Once(jobs, sorted[i]);
      }
    }
  }

  lemma Twice(s: seq<Job>, i: nat, j: nat)
    requires i < j < |s| && s[i] == s[j]
    ensures multiset(s)[s[i]] >= 2
  {
    assert s == s[..i + 1] + s[i + 1..];
    assert s[i] in s[..i + 1] && s[j] in s[i + 1..] by {
      assert s[..i + 1][i] == s[i] && s[i + 1..][j - i - 1] == s[j];
    }
  }

  lemma {:induction false} Once(s: seq<Job>, x: Job)
    requires Distinct(s)
    ensures multiset(s)[x] <= 1
  {
    if s != [] {
      var front, last := s[..|s| - 1], s[|s| - 1];
      Once(front, x);
      assert s == front + [last];
      assert last == x ==> x !in front;
    }
  }

  lemma {:induction false} MarkAllIs(rows: map<Id, Row>, batch: seq<Job>, outcome: map<Id, Delivery>, now: int)
    requires forall i :: 0 <= i < |batch| ==> batch[i].id in rows && batch[i].id in outcome
    requires forall i, j :: 0 <= i < j < |batch| ==> batch[i].id != batch[j].id
    ensures var marked := MarkAll(rows, batch, outcome, now);
            && marked.Keys == rows.Keys
            && (forall i :: 0 <= i < |batch| ==>
                  marked[batch[i].id] == Mark(rows[batch[i].id], outcome[batch[i].id], now))
            && (forall id :: id in rows && (forall i :: 0 <= i < |batch| ==> batch[i].id != id) ==>
                  marked[id] == rows[id])
  {
    hide Mark;
    if batch != [] {
      var front, last := batch[..|batch| - 1], batch[|batch| - 1];
      MarkAllIs(rows, front, outcome, now);
      assert forall i :: 0 <= i < |front| ==> front[i].id != last.id;
    }
  }

  /** A failing round adds one attempt to the batch and nothing to the others. */
  lemma RoundIs(rows: map<Id, Row>, order: seq<Id>, outcome: map<Id, Delivery>, now: int)
    requires Waiting(rows, order) && Distinct(order) && AllFail(order, outcome)
    ensures var after := Round(rows, order, outcome, now);
            && Waiting(after, order)
            && forall id :: id in order ==>
                 after[id].attempts == rows[id].attempts + (if id in Tried(rows, order) then 1 else 0)
  {
    hide Round, RoundAt, Waiting, AllFail, Distinct, Tried;
    forall id | id in order
      ensures id in Round(rows, order, outcome, now) && RoundAt(rows, order, id, Round(rows, order, outcome, now)[id])
    {
      RoundOne(rows, order, outcome, now, id);
    }
    RoundWaits(rows, order, Round(rows, order, outcome, now));
  }

  /** What a failing round makes of one row. */
  ghost predicate RoundAt(rows: map<Id, Row>, order: seq<Id>, id: Id, after: Row) {
    && id in rows && Open(after) && (after.state.Pending? <==> after.attempts == 0) && after.attempts >= 0
    && after.attempts == rows[id].attempts + (if id in Tried(rows, order) then 1 else 0)
  }

  lemma BatchRows(rows: map<Id, Row>, order: seq<Id>, outcome: map<Id, Delivery>)
    requires Waiting(rows, order) && AllFail(order, outcome)
    requires var batch := Batch(rows, order); forall i :: 0 <= i < |batch| ==> batch[i].id in order
    ensures var batch := Batch(rows, order); forall i :: 0 <= i < |batch| ==>
              batch[i].id in rows && batch[i].id in outcome
  {
    hide Batch;
  }

  lemma RoundOne(rows: map<Id, Row>, order: seq<Id>, outcome: map<Id, Delivery>, now: int, id: Id)
    requires Waiting(rows, order) && Distinct(order) && AllFail(order, outcome) && id in order
    ensures id in Round(rows, order, outcome, now) && RoundAt(rows, order, id, Round(rows, order, outcome, now)[id])
  {
    BatchIs(rows, order);
    var batch := Batch(rows, order);
    BatchRows(rows, order, outcome);
    assert id in rows && Open(rows[id]) && rows[id].attempts >= 0 && id in outcome && outcome[id].Retryable?;
    assert rows[id].state.Pending? <==> rows[id].attempts == 0;
    hide Batch, Distinct, Ids, Waiting, AllFail;
    MarkAllIs(rows, batch, outcome, now);
    hide MarkAll;
    if id in Tried(rows, order) {
      var i := IdsFrom(batch, id);
    } else {
      IdsHave(batch);
    }
  }

  lemma RoundWaits(rows: map<Id, Row>, order: seq<Id>, after: map<Id, Row>)
    requires forall id :: id in order ==> id in after && RoundAt(rows, order, id, after[id])
    ensures Waiting(after, order)
    ensures forall id :: id in order ==>
              (id in rows && after[id].attempts == rows[id].attempts + (if id in Tried(rows, order) then 1 else 0))
  {
    hide Tried;
  }

  lemma EvenKept(rows: map<Id, Row>, order: seq<Id>, outcome: map<Id, Delivery>, now: int)
    requires Waiting(rows, order) && Even(rows, order) && Distinct(order) && AllFail(order, outcome)
    ensures var after := Round(rows, order, outcome, now); Waiting(after, order) && Even(after, order)
  {
    RoundIs(rows, order, outcome, now);
    BatchIs(rows, order);
    hide Round, Batch, Tried, Waiting, Distinct;
    assert Waiting(rows, order);
  }

  lemma {:induction false} TotalGrows(rows: map<Id, Row>, after: map<Id, Row>, order: seq<Id>, tried: set<Id>)
    requires Distinct(order)
    requires forall id :: id in order ==>
               (id in rows && id in after && after[id].attempts == rows[id].attempts + (if id in tried then 1 else 0))
    ensures Total(after, order) == Total(rows, order) + |Those(order, tried)|
  {
    if order == [] {
      assert Those(order, tried) == {};
    } else {
      var front, last := order[..|order| - 1], order[|order| - 1];
      assert order == front + [last] && last !in front;
      hide Distinct;
      assert Distinct(front) by { DistinctFront(order); }
      TotalGrows(rows, after, front, tried);
      assert Those(order, tried) == if last in tried then Those(front, tried) + {last} else Those(front, tried);
    }
  }

  lemma DistinctFront(order: seq<Id>)
    requires Distinct(order) && order != []
    ensures Distinct(order[..|order| - 1])
  {}

  function Those(order: seq<Id>, tried: set<Id>): set<Id> {
    set id | id in order && id in tried
  }

  function PerRound(n: nat): nat {
    if n <= BATCH_SIZE then n else BATCH_SIZE
  }

  lemma TotalIs(rows: map<Id, Row>, order: seq<Id>, outcome: map<Id, Delivery>, now: int)
    requires Waiting(rows, order) && Distinct(order) && AllFail(order, outcome)
    ensures Total(Round(rows, order, outcome, now), order) == Total(rows, order) + PerRound(|order|)
  {
    RoundIs(rows, order, outcome, now);
    BatchIs(rows, order);
    var batch := Batch(rows, order);
    IdsAre(batch);
    var tried := Tried(rows, order);
    hide Batch, Round, Ids;
    assert Those(order, tried) == tried;
    TotalGrows(rows, Round(rows, order, outcome, now), order, tried);
  }

  // ----- any number of failing rounds -----

  datatype Run = Run(gateway: bool, outcome: map<Id, Delivery>, now: int)

  function OutcomesOf(run: Run): map<Id, Delivery> {
    Outcomes(run.gateway, run.outcome)
  }

  lemma OutcomesAre(run: Run)
    ensures OutcomesOf(run) == Outcomes(run.gateway, run.outcome)
  {}

  function After(rows: map<Id, Row>, order: seq<Id>, runs: seq<Run>): map<Id, Row> {
    if runs == [] then rows
    else
      var last := runs[|runs| - 1];
      Round(After(rows, order, runs[..|runs| - 1]), order, OutcomesOf(last), last.now)
  }

  /** Every mark reaches the store, and no delivery succeeds, for want of a gateway or otherwise. */
  ghost predicate Fails(order: seq<Id>, run: Run) {
    forall id :: id in order ==> id in run.outcome && (run.gateway ==> run.outcome[id].Retryable?)
  }

  ghost predicate Failing(order: seq<Id>, runs: seq<Run>) {
    forall i :: 0 <= i < |runs| ==> Fails(order, runs[i])
  }

  /** A gateway outage is a failing round like any other. */
  lemma OutageFails(order: seq<Id>, run: Run)
    requires Fails(order, run)
    ensures AllFail(order, OutcomesOf(run))
  {}

  ghost predicate Fresh(rows: map<Id, Row>, order: seq<Id>) {
    forall id :: id in order ==> id in rows && rows[id].state.Pending? && rows[id].attempts == 0
  }

  /** n * x, as repeated addition. */
  function Times(n: int, x: int): int {
    if n <= 0 then 0 else Times(n - 1, x) + x
  }

  lemma {:induction false} TimesIs(n: nat, x: int)
    ensures Times(n, x) == n * x
  {
    if n > 0 {
      TimesIs(n - 1, x);
      assert n * x == (n - 1) * x + x;
    }
  }

  lemma {:induction false} TotalBounds(rows: map<Id, Row>, order: seq<Id>, lo: int, hi: int, id: Id)
    requires forall x :: x in order ==> x in rows && lo <= rows[x].attempts <= hi
    requires Distinct(order) && id in rows && lo <= rows[id].attempts <= hi
    ensures Times(|order|, lo) + (if id in order then rows[id].attempts - lo else 0) <= Total(rows, order)
    ensures Total(rows, order) <= Times(|order|, hi) - (if id in order then hi - rows[id].attempts else 0)
  {
    if order != [] {
      var front, last := order[..|order| - 1], order[|order| - 1];
      assert order == front + [last] && last !in front;
      TotalBounds(rows, front, lo, hi, id);
    }
  }

  lemma {:induction false} EvenAfter(rows: map<Id, Row>, order: seq<Id>, runs: seq<Run>)
    requires Fresh(rows, order) && Distinct(order) && Failing(order, runs)
    ensures var after := After(rows, order, runs);
            Waiting(after, order) && Even(after, order) && Total(after, order) == Times(|runs|, PerRound(|order|))
  {
    hide *;
    if runs == [] {
      FreshIsEven(rows, order);
      TimesNone(PerRound(|order|));
    } else {
      var front, last := runs[..|runs| - 1], runs[|runs| - 1];
      AfterStep(rows, order, runs);
      EvenAfter(rows, order, front);
      EvenKept(After(rows, order, front), order, OutcomesOf(last), last.now);
      TotalIs(After(rows, order, front), order, OutcomesOf(last), last.now);
      TimesMore(|front|, PerRound(|order|));
    }
  }

  /** However the deliveries fail: after any number of rounds every notification has had as many
      attempts as any other, give or take one, and every round spent all it had. */
  lemma AttemptsEven(rows: map<Id, Row>, order: seq<Id>, runs: seq<Run>)
    requires Fresh(rows, order) && Distinct(order) && Failing(order, runs)
    ensures var after := After(rows, order, runs);
            Waiting(after, order) && Even(after, order) && Total(after, order) == |runs| * PerRound(|order|)
  {
    EvenAfter(rows, order, runs);
    TimesIs(|runs|, PerRound(|order|));
    hide *;
  }

  lemma TimesNone(x: int)
    ensures Times(0, x) == 0
  {}

  lemma TimesMore(n: nat, x: int)
    ensures Times(n + 1, x) == Times(n, x) + x
  {}

  lemma AfterStep(rows: map<Id, Row>, order: seq<Id>, runs: seq<Run>)
    requires Failing(order, runs) && runs != []
    ensures var front, last := runs[..|runs| - 1], runs[|runs| - 1];
            && Failing(order, front) && AllFail(order, OutcomesOf(last))
            && After(rows, order, runs) == Round(After(rows, order, front), order, OutcomesOf(last), last.now)
  {
    OutageFails(order, runs[|runs| - 1]);
    hide AllFail, Fails, Round, OutcomesOf;
  }

  lemma FreshIsEven(rows: map<Id, Row>, order: seq<Id>)
    requires Fresh(rows, order)
    ensures After(rows, order, []) == rows && Waiting(rows, order) && Even(rows, order) && Total(rows, order) == 0
  {
    TotalNone(rows, order);
  }

  lemma {:induction false} TotalNone(rows: map<Id, Row>, order: seq<Id>)
    requires Fresh(rows, order)
    ensures Total(rows, order) == 0
  {
    if order != [] {
      assert forall id :: id in order[..|order| - 1] ==> id in order;
      TotalNone(rows, order[..|order| - 1]);
    }
  }

  /** `a` is `total` divided by `n`, rounded up or down. */
  predicate Shares(n: int, a: int, total: int) {
    Times(n, a - 1) < total < Times(n, a + 1)
  }

  lemma SharesAfter(rows: map<Id, Row>, order: seq<Id>, runs: seq<Run>, id: Id)
    requires Fresh(rows, order) && Distinct(order) && Failing(order, runs) && id in order
    ensures id in After(rows, order, runs)
    ensures Shares(|order|, After(rows, order, runs)[id].attempts, Times(|runs|, PerRound(|order|)))
  {
    hide Fresh, Failing, After, PerRound, Distinct, Times;
    EvenAfter(rows, order, runs);
    var after := After(rows, order, runs);
    var n, a := |order|, after[id].attempts;
    TotalBounds(after, order, a - 1, a + 1, id);
  }

  /** So each has had its share of all attempts, rounded up or down. */
  lemma AttemptsAreShares(rows: map<Id, Row>, order: seq<Id>, runs: seq<Run>, id: Id)
    requires Fresh(rows, order) && Distinct(order) && Failing(order, runs) && id in order
    ensures id in After(rows, order, runs)
    ensures var a := After(rows, order, runs)[id].attempts;
            |order| * (a - 1) < |runs| * PerRound(|order|) < |order| * (a + 1)
  {
    SharesAfter(rows, order, runs, id);
    var a := After(rows, order, runs)[id].attempts;
    hide Fresh, Failing, After, PerRound, Distinct, Times;
    TimesIs(|runs|, PerRound(|order|));
    TimesIs(|order|, a - 1);
    TimesIs(|order|, a + 1);
  }

  /** Nobody waits long: over any stretch of rounds that skips a notification, the attempts made
      are at most twice as many as there are others. */
  lemma WaitIsBounded(rows: map<Id, Row>, order: seq<Id>, runs: seq<Run>, k: nat, id: Id)
    requires Fresh(rows, order) && Distinct(order) && Failing(order, runs) && id in order && k <= |runs|
    requires id in After(rows, order, runs[..k]) && id in After(rows, order, runs)
    requires After(rows, order, runs[..k])[id].attempts == After(rows, order, runs)[id].attempts
    ensures (|runs| - k) * PerRound(|order|) <= 2 * (|order| - 1)
  {
    hide *;
    FailingPrefix(order, runs, k);
    SharesAfter(rows, order, runs, id);
    SharesAfter(rows, order, runs[..k], id);
    Spread(|order|, After(rows, order, runs)[id].attempts, PerRound(|order|), |runs|, k);
    TimesIs(|runs| - k, PerRound(|order|));
  }

  // ----- repeated runs of the scheduler -----

  /** The rows after runs over the same seats, each queueing first. */
  function Notified(rows: map<Id, Row>, seats: seq<Seat>, runs: seq<Run>): map<Id, Row> {
    if runs == [] then rows
    else
      var before, last := Notified(rows, seats, runs[..|runs| - 1]), runs[|runs| - 1];
      Round(Queue(before, seats, last.now), ReadyIds(seats), OutcomesOf(last), last.now)
  }

  lemma {:induction false} MarkAllKeys(rows: map<Id, Row>, batch: seq<Job>, outcome: map<Id, Delivery>, now: int)
    ensures MarkAll(rows, batch, outcome, now).Keys == rows.Keys
  {
    hide Mark;
    if batch != [] {
      MarkAllKeys(rows, batch[..|batch| - 1], outcome, now);
    }
  }

  /** Only the first run queues: afterwards repeated runs are the rounds that `After` speaks of. */
  lemma {:induction false} NotifiedIs(rows: map<Id, Row>, seats: seq<Seat>, runs: seq<Run>)
    requires runs != []
    ensures var queued := Queue(rows, seats, runs[0].now);
            && Notified(rows, seats, runs) == After(queued, ReadyIds(seats), runs)
            && Notified(rows, seats, runs).Keys == queued.Keys
  {
    hide Queue, ReadyIds, Batch, MarkAll, OutcomesOf;
    var queued, front, last := Queue(rows, seats, runs[0].now), runs[..|runs| - 1], runs[|runs| - 1];
    var order := ReadyIds(seats);
    QueueKeeps(rows, seats, runs[0].now);
    if front == [] {
      assert Notified(rows, seats, front) == rows && After(queued, order, front) == queued;
      MarkAllKeys(queued, Batch(queued, order), OutcomesOf(last), last.now);
    } else {
      NotifiedIs(rows, seats, front);
      var before := Notified(rows, seats, front);
      QueueSettles(before, seats, last.now);
      MarkAllKeys(before, Batch(before, order), OutcomesOf(last), last.now);
    }
  }

  /** So a scheduler whose deliveries all fail is fair from the first run on: seats not yet known are
      queued, and after any number of runs their attempts differ by at most one, none being lost. */
  lemma FairFromTheStart(rows: map<Id, Row>, seats: seq<Seat>, runs: seq<Run>)
    requires runs != [] && Distinct(ReadyIds(seats)) && Failing(ReadyIds(seats), runs)
    requires forall id :: id in ReadyIds(seats) ==> id !in rows
    ensures var after, order := Notified(rows, seats, runs), ReadyIds(seats);
            Waiting(after, order) && Even(after, order) && Total(after, order) == |runs| * PerRound(|order|)
  {
    NotifiedIs(rows, seats, runs);
    QueueSettles(rows, seats, runs[0].now);
    hide *;
    AttemptsEven(Queue(rows, seats, runs[0].now), ReadyIds(seats), runs);
  }

  // ----- what a mark means -----

  /** The state of a row says how its last delivery went. */
  predicate Reports(state: State, delivery: Delivery) {
    && (state.Sent? <==> delivery.Delivered?) && (state.PermanentFailed? <==> delivery.Permanent?)
    && (state.Retry? <==> delivery.Retryable?)
  }

  /** Marking changes a row only to report what became of it, one attempt more. */
  ghost predicate Reported(row: Row, marked: Row, outcome: map<Id, Delivery>, id: Id, now: int) {
    id in outcome && Reports(marked.state, outcome[id]) && marked.attempts > row.attempts && marked.updatedAt == now
    && marked.uid == row.uid
  }

  lemma {:induction false} MarkAllReports(rows: map<Id, Row>, batch: seq<Job>, outcome: map<Id, Delivery>, now: int,
                                          id: Id)
    requires id in rows
    ensures var marked := MarkAll(rows, batch, outcome, now);
            && id in marked
            && (marked[id] == rows[id]
                || (Reported(rows[id], marked[id], outcome, id, now)
                    && exists i :: 0 <= i < |batch| && batch[i].id == id))
  {
    if batch != [] {
      var front := batch[..|batch| - 1];
      MarkAllReports(rows, front, outcome, now, id);
      assert forall i :: 0 <= i < |front| ==> front[i] == batch[i];
      assert batch[|batch| - 1] == batch[|front|];
    }
  }

  lemma {:induction false} JobsOpen(rows: map<Id, Row>, order: seq<Id>)
    ensures forall job :: job in Jobs(rows, order) ==> job.id in rows && Open(rows[job.id])
  {
    if order != [] {
      JobsOpen(rows, order[..|order| - 1]);
    }
  }

  lemma BatchOpen(rows: map<Id, Row>, order: seq<Id>)
    ensures forall i :: 0 <= i < |Batch(rows, order)| ==>
              Batch(rows, order)[i].id in rows && Open(rows[Batch(rows, order)[i].id])
  {
    JobsOpen(rows, order);
    SortSorts(Jobs(rows, order));
    SameElements(Sort(Jobs(rows, order)), Jobs(rows, order));
    hide Jobs, Sort, Open;
    assert forall i :: 0 <= i < |Batch(rows, order)| ==> Batch(rows, order)[i] in Sort(Jobs(rows, order));
  }

  /** One run for a notification that was there before: unchanged, or it was open and its state now reports
      how the delivery went; without a gateway, that it is to be retried. */
  lemma RunReports(rows: map<Id, Row>, seats: seq<Seat>, run: Run, id: Id)
    requires id in rows
    ensures var after := Round(Queue(rows, seats, run.now), ReadyIds(seats), OutcomesOf(run), run.now);
            && id in after
            && (after[id] == rows[id]
                || (Open(rows[id]) && id in run.outcome && after[id].attempts > rows[id].attempts
                    && after[id].updatedAt == run.now
                    && Reports(after[id].state, if run.gateway then run.outcome[id] else Retryable)))
  {
    var queued := Queue(rows, seats, run.now);
    QueueKeeps(rows, seats, run.now);
    BatchOpen(queued, ReadyIds(seats));
    MarkAllReports(queued, Batch(queued, ReadyIds(seats)), OutcomesOf(run), run.now, id);
    hide Queue, ReadyIds, Batch, MarkAll, Open;
  }

  lemma {:induction false} MarkAllMarks(rows: map<Id, Row>, batch: seq<Job>, outcome: map<Id, Delivery>, now: int,
                                        i: nat)
    requires i < |batch| && batch[i].id in rows && batch[i].id in outcome
    ensures var marked := MarkAll(rows, batch, outcome, now);
            batch[i].id in marked && Reported(rows[batch[i].id], marked[batch[i].id], outcome, batch[i].id, now)
  {
    var front := batch[..|batch| - 1];
    MarkAllReports(rows, front, outcome, now, batch[i].id);
    if i < |front| {
      MarkAllMarks(rows, front, outcome, now, i);
    }
  }

  /** Each notification a run takes, and whose mark reaches the store, then reports how its delivery went. */
  lemma TriedIsMarked(rows: map<Id, Row>, seats: seq<Seat>, run: Run, id: Id)
    requires id in Tried(Queue(rows, seats, run.now), ReadyIds(seats)) && id in run.outcome
    ensures var after := Round(Queue(rows, seats, run.now), ReadyIds(seats), OutcomesOf(run), run.now);
            id in after && Reports(after[id].state, if run.gateway then run.outcome[id] else Retryable)
  {
    var queued, order := Queue(rows, seats, run.now), ReadyIds(seats);
    var batch := Batch(queued, order);
    var i := IdsFrom(batch, id);
    BatchOpen(queued, order);
    MarkAllMarks(queued, batch, OutcomesOf(run), run.now, i);
    hide Queue, ReadyIds, Batch, MarkAll, Ids, Open;
  }

  /** What was sent, or refused for good, is never touched again. */
  lemma {:induction false} ClosedStays(rows: map<Id, Row>, seats: seq<Seat>, runs: seq<Run>, id: Id)
    requires id in rows && (rows[id].state.Sent? || rows[id].state.PermanentFailed?)
    ensures id in Notified(rows, seats, runs) && Notified(rows, seats, runs)[id] == rows[id]
  {
    if runs != [] {
      var front, last := runs[..|runs| - 1], runs[|runs| - 1];
      ClosedStays(rows, seats, front, id);
      RunReports(Notified(rows, seats, front), seats, last, id);
      hide Queue, ReadyIds, Batch, MarkAll, Round, OutcomesOf;
    }
  }

  /** A notification is marked sent only by a run whose gateway was there and delivered it, and failed for
      good only by one that was told so. */
  lemma {:induction false} StateWasReported(rows: map<Id, Row>, seats: seq<Seat>, runs: seq<Run>, id: Id)
    returns (k: nat)
    requires id in Notified(rows, seats, runs) && !Open(Notified(rows, seats, runs)[id])
    requires id in rows ==> Open(rows[id])
    ensures k < |runs| && runs[k].gateway && id in runs[k].outcome
    ensures Reports(Notified(rows, seats, runs)[id].state, runs[k].outcome[id])
  {
    var front, last := runs[..|runs| - 1], runs[|runs| - 1];
    var before := Notified(rows, seats, front);
    k := |runs| - 1;
    if id in before && !Open(before[id]) {
      RunReports(before, seats, last, id);
      hide Queue, ReadyIds, Batch, MarkAll, Round, OutcomesOf;
      k := StateWasReported(rows, seats, front, id);
    } else {
      RunMarks(before, seats, last, id);
      hide Queue, ReadyIds, Batch, MarkAll, Round, OutcomesOf, Notified;
    }
  }

  /** The run that closes a notification, queued before or by this very run. */
  lemma RunMarks(rows: map<Id, Row>, seats: seq<Seat>, run: Run, id: Id)
    requires var after := Round(Queue(rows, seats, run.now), ReadyIds(seats), OutcomesOf(run), run.now);
             id in after && !Open(after[id])
    requires id in rows ==> Open(rows[id])
    ensures var after := Round(Queue(rows, seats, run.now), ReadyIds(seats), OutcomesOf(run), run.now);
            run.gateway && id in run.outcome && Reports(after[id].state, run.outcome[id])
  {
    var queued := Queue(rows, seats, run.now);
    QueueKeeps(rows, seats, run.now);
    MarkAllKeys(queued, Batch(queued, ReadyIds(seats)), OutcomesOf(run), run.now);
    MarkAllReports(queued, Batch(queued, ReadyIds(seats)), OutcomesOf(run), run.now, id);
    hide Queue, ReadyIds, Batch, MarkAll;
  }

  lemma FailingPrefix(order: seq<Id>, runs: seq<Run>, k: nat)
    requires Failing(order, runs) && k <= |runs|
    ensures Failing(order, runs[..k])
  {
    hide Fails;
  }

  lemma Spread(n: nat, a: int, c: int, r: nat, k: nat)
    requires k <= r && Shares(n, a, Times(k, c)) && Shares(n, a, Times(r, c))
    ensures Times(r - k, c) <= 2 * (n - 1)
  {
    TwoApart(n, a);
    Subtracts(r, k, c);
    hide Times;
  }

  lemma {:induction false} TwoApart(n: nat, a: int)
    ensures Times(n, a + 1) == Times(n, a - 1) + 2 * n
  {
    if n > 0 {
      TwoApart(n - 1, a);
    }
  }

  lemma {:induction false} Subtracts(r: nat, k: nat, c: int)
    requires k <= r
    ensures Times(r - k, c) == Times(r, c) - Times(k, c)
    decreases r
  {
    if k < r {
      Subtracts(r - 1, k, c);
    }
  }
}
