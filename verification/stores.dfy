/** The in-memory store, whose records are shared with their writers, against the SQL store, whose rows
    are copies selected by the text of their times.
*/
module Stores {

  import opened Wrappers
  import opened Timestamps
  import opened Jobs
  import Lifecycle

  /** A job object on the heap: the store keeps a pointer to the caller's. */
  class Job {
    var record: Record

    constructor (record: Record)
      ensures this.record == record
    {
      this.record := record;
    }
  }

  predicate OldTerminal(r: Record, cutoff: Instant) {
    Terminal(r.status) && r.createdAt < cutoff
  }

  predicate OldUpload(r: Record, cutoff: Instant) {
    r.status == Uploading && r.createdAt < cutoff
  }

  /** rows lists, in some order, exactly the records that qualify, each once. */
  ghost predicate Selects(rows: seq<Record>, jobs: map<Id, Record>, p: Record -> bool) {
    && Lifecycle.DistinctIds(rows)
    && (forall i :: 0 <= i < |rows| ==> rows[i].id in jobs && jobs[rows[i].id] == rows[i] && p(rows[i]))
    && (forall id :: id in jobs && p(jobs[id]) ==> jobs[id] in rows)
  }

  predicate NewestFirst(rows: seq<Record>) {
    forall i, j :: 0 <= i < j < |rows| ==> rows[i].createdAt >= rows[j].createdAt
  }

  /** r placed before the first older row. */
  function Insert(r: Record, rows: seq<Record>): seq<Record> {
    if rows == [] || r.createdAt >= rows[0].createdAt then [r] + rows else [rows[0]] + Insert(r, rows[1..])
  }

  lemma {:induction false} InsertAdds(r: Record, rows: seq<Record>)
    ensures multiset(Insert(r, rows)) == multiset(rows) + multiset{r}
  {
    if rows != [] && r.createdAt < rows[0].createdAt {
      InsertAdds(r, rows[1..]);
      assert rows == [rows[0]] + rows[1..];
    }
  }

  lemma {:induction false} InsertKeepsOrder(r: Record, rows: seq<Record>)
    requires NewestFirst(rows)
    ensures NewestFirst(Insert(r, rows))
  {
    if rows != [] && r.createdAt < rows[0].createdAt {
      var rest := Insert(r, rows[1..]);
      InsertKeepsOrder(r, rows[1..]);
      InsertAdds(r, rows[1..]);
      forall i | 0 <= i < |rest|
        ensures rest[i].createdAt <= rows[0].createdAt
      {
        assert rest[i] in multiset(rest);
        assert rest[i] == r || rest[i] in rows[1..];
      }
    }
  }

  function Sort(rows: seq<Record>): seq<Record> {
    if rows == [] then [] else Insert(rows[0], Sort(rows[1..]))
  }

  lemma {:induction false} SortSorts(rows: seq<Record>)
    ensures NewestFirst(Sort(rows)) && multiset(Sort(rows)) == multiset(rows)
  {
    if rows != [] {
      SortSorts(rows[1..]);
      InsertKeepsOrder(rows[0], Sort(rows[1..]));
      InsertAdds(rows[0], Sort(rows[1..]));
      assert rows == [rows[0]] + rows[1..];
    }
  }

  function Take<T>(rows: seq<T>, n: nat): seq<T> {
    if |rows| > n then rows[..n] else rows
  }

  /** rows is what a limit leaves of all; none means no limit. */
  ghost predicate Newest(rows: seq<Record>, all: seq<Record>, limit: int) {
    rows == if limit > 0 then Take(all, limit) else all
  }

  class MemoryStore {
    var jobs: map<Id, Job>

    constructor ()
      ensures Valid() && Contents() == map[]
    {
      jobs := map[];
    }

    ghost predicate Valid()
      reads this, jobs.Values
    {
      forall id :: id in jobs ==> jobs[id].record.id == id
    }

    /** The records by value, as a caller of Get sees them. */
    ghost function Contents(): map<Id, Record>
      reads this, jobs.Values
    {
      map id | id in jobs :: jobs[id].record
    }

    method Create(j: Job)
      requires Valid()
      modifies this
      ensures Valid() && Contents() == old(Contents())[j.record.id := j.record]
      ensures jobs == old(jobs)[j.record.id := j]
    {
      jobs := jobs[j.record.id := j];
    }

    method Get(id: Id) returns (r: Option<Record>)
      requires Valid()
      ensures r == if id in Contents() then Some(Contents()[id]) else None
    {
      if id !in jobs {
        return None;
      }
      r := Some(jobs[id].record);
    }

    /** A missing id is an error, and stays missing. */
    method Update(j: Job) returns (ok: bool)
      requires Valid()
      modifies this
      ensures Valid() && ok == (j.record.id in old(Contents()))
      ensures Contents() == if ok then old(Contents())[j.record.id := j.record] else old(Contents())
      ensures ok ==> jobs == old(jobs)[j.record.id := j]
    {
      if j.record.id !in jobs {
        return false;
      }
      jobs := jobs[j.record.id := j];
      ok := true;
    }

    method Delete(id: Id) returns (ok: bool)
      requires Valid()
      modifies this
      ensures Valid() && ok == (id in old(Contents()))
      ensures Contents() == old(Contents()) - {id}
    {
      if id !in jobs {
        return false;
      }
      jobs := jobs - {id};
      ok := true;
    }

    /** What every listing does: a pass over the map, in any order. */
    method Select(p: Record -> bool) returns (rows: seq<Record>)
      requires Valid()
      ensures Selects(rows, Contents(), p)
    {
      rows := [];
      var left := jobs.Keys;
      while left != {}
        invariant left <= jobs.Keys && Lifecycle.DistinctIds(rows)
        invariant forall i :: 0 <= i < |rows| ==>
          rows[i].id in Contents() && rows[i].id !in left && Contents()[rows[i].id] == rows[i] && p(rows[i])
        invariant forall id :: id in Contents() && id !in left && p(Contents()[id]) ==> Contents()[id] in rows
        decreases |left|
      {
        var id :| id in left;
        left := left - {id};
        var r := jobs[id].record;
        if p(r) {
          rows := rows + [r];
        }
      }
    }

    method ListOlderThan(cutoff: Instant) returns (rows: seq<Record>)
      requires Valid()
      ensures Selects(rows, Contents(), r => OldTerminal(r, cutoff))
    {
      rows := Select(r => OldTerminal(r, cutoff));
    }

    method ListStaleUploads(cutoff: Instant) returns (rows: seq<Record>)
      requires Valid()
      ensures Selects(rows, Contents(), r => OldUpload(r, cutoff))
    {
      rows := Select(r => OldUpload(r, cutoff));
    }

    /** The newest records first, at most `limit` of them if that is positive. */
    method ListRecent(limit: int) returns (rows: seq<Record>)
      requires Valid()
      ensures exists all :: Newest(rows, all, limit) && NewestFirst(all) && Selects(all, Contents(), r => true)
    {
      rows := Select(r => true);
      ghost var unsorted := rows;
      SortSorts(rows);
      rows := Sort(rows);
      SortedSelects(unsorted, rows, Contents());
      ghost var all := rows;
      if limit > 0 && |rows| > limit {
        rows := rows[..limit];
      }
      assert Newest(rows, all, limit);
    }
  }

  lemma SortedSelects(rows: seq<Record>, sorted: seq<Record>, jobs: map<Id, Record>)
    requires Selects(rows, jobs, r => true) && multiset(sorted) == multiset(rows)
    ensures Selects(sorted, jobs, r => true)
  {
    forall i | 0 <= i < |sorted|
      ensures sorted[i] in rows
    {
      assert sorted[i] in multiset(sorted);
    }
    forall r | r in rows
      ensures r in sorted
    {
      assert r in multiset(rows);
    }
    forall i, j | 0 <= i < j < |sorted|
      ensures sorted[i].id != sorted[j].id
    {
      if sorted[i].id == sorted[j].id {
        assert sorted[i] == sorted[j];
        Twice(sorted, i, j);
        Once(rows, sorted[i]);
        assert false;
      }
    }
  }

  lemma Twice(rows: seq<Record>, i: nat, j: nat)
    requires i < j < |rows| && rows[i] == rows[j]
    ensures multiset(rows)[rows[i]] >= 2
  {
    assert rows == rows[..j] + rows[j..];
    assert rows[..j][i] == rows[i] && rows[j..][0] == rows[i];
  }

  lemma {:induction false} Once(rows: seq<Record>, r: Record)
    requires Lifecycle.DistinctIds(rows)
    ensures multiset(rows)[r] <= 1
  {
    if rows != [] {
      var most, last := rows[..|rows| - 1], rows[|rows| - 1];
      assert rows == most + [last];
      Once(most, r);
      if r == last {
        assert r !in most;
      }
    }
  }

  /** The pointer the store keeps is the caller's: a record that was stored changes in the store when its
      owner writes it, without any call. By-value stores differ from this one exactly here. */
  method WriteThrough(s: MemoryStore, j: Job, written: Record)
    requires s.Valid() && j.record.id == written.id && j.record.id in s.jobs && s.jobs[j.record.id] == j
    modifies j
    ensures s.Valid() && s.Contents() == old(s.Contents())[written.id := written]
  {
    j.record := written;
    assert forall id :: id in s.jobs && s.jobs[id] == j ==> id == written.id;
  }

  // ---------- Text times against times ----------

  /** The SQL store and the in-memory store list the same expired jobs, except exactly for those created
      within the cutoff's second whose text is misordered with it. */
  lemma ListingsAgree(jobs: map<Id, Record>, cutoff: Instant, sql: seq<Record>, memory: seq<Record>, id: Id)
    requires Lifecycle.ListsExpired(sql, jobs, cutoff)
    requires Selects(memory, jobs, r => OldTerminal(r, cutoff))
    requires id in jobs && Terminal(jobs[id].status)
    ensures (jobs[id] in sql <==> jobs[id] in memory) <==> !Misordered(jobs[id].createdAt, cutoff)
    ensures jobs[id].createdAt / SECOND < cutoff / SECOND ==> jobs[id] in sql
    ensures jobs[id].createdAt / SECOND > cutoff / SECOND ==> jobs[id] !in sql
  {
    TextOrder(jobs[id].createdAt, cutoff);
    TextBeforeWithinASecond(jobs[id].createdAt, cutoff);
  }

  lemma UploadListingsAgree(jobs: map<Id, Record>, cutoff: Instant, sql: seq<Record>, memory: seq<Record>, id: Id)
    requires Lifecycle.ListsAbandoned(sql, jobs, cutoff)
    requires Selects(memory, jobs, r => OldUpload(r, cutoff))
    requires id in jobs && jobs[id].status == Uploading
    ensures (jobs[id] in sql <==> jobs[id] in memory) <==> !Misordered(jobs[id].createdAt, cutoff)
    ensures jobs[id].createdAt / SECOND < cutoff / SECOND ==> jobs[id] in sql
    ensures jobs[id].createdAt / SECOND > cutoff / SECOND ==> jobs[id] !in sql
  {
    TextOrder(jobs[id].createdAt, cutoff);
    TextBeforeWithinASecond(jobs[id].createdAt, cutoff);
  }

  /** ORDER BY created_at DESC: no row's text comes before a later row's. */
  predicate TextNewestFirst(rows: seq<Record>) {
    forall i, j :: 0 <= i < j < |rows| ==> !TextBefore(rows[i].createdAt, rows[j].createdAt)
  }

  predicate Disordered(rows: seq<Record>) {
    exists i, j :: 0 <= i < j < |rows| && Misordered(rows[i].createdAt, rows[j].createdAt)
  }

  /** The recent listing of the in-memory store is one that the SQL store could give, and the other way
      round, if and only if no two of its jobs are misordered; in any case SQL never lists a job after one
      of an earlier second. */
  lemma RecentOrdersAgree(rows: seq<Record>)
    ensures NewestFirst(rows) ==> (TextNewestFirst(rows) <==> !Disordered(rows))
    ensures TextNewestFirst(rows) ==> (NewestFirst(rows) <==> !Disordered(rows))
    ensures TextNewestFirst(rows) ==>
      forall i, j :: 0 <= i < j < |rows| ==> rows[i].createdAt / SECOND >= rows[j].createdAt / SECOND
  {
    forall i, j | 0 <= i < j < |rows|
      ensures TextBefore(rows[i].createdAt, rows[j].createdAt) <==>
        ((rows[i].createdAt < rows[j].createdAt) != Misordered(rows[i].createdAt, rows[j].createdAt))
    {
      TextOrder(rows[i].createdAt, rows[j].createdAt);
    }
    forall i, j | 0 <= i < j < |rows| && TextNewestFirst(rows)
      ensures rows[i].createdAt / SECOND >= rows[j].createdAt / SECOND
    {
      TextBeforeWithinASecond(rows[i].createdAt, rows[j].createdAt);
    }
  }

  // ---------- The shelf of recent videos ----------

  function Completed(rows: seq<Record>): (done: seq<Record>)
    ensures |done| <= |rows|
  {
    if rows == [] then []
    else
      var last := rows[|rows| - 1];
      Completed(rows[..|rows| - 1]) + (if last.status == Status.Completed then [last] else [])
  }

  lemma {:induction false} CompletedConcat(a: seq<Record>, b: seq<Record>)
    ensures Completed(a + b) == Completed(a) + Completed(b)
  {
    if b == [] {
      assert a + b == a;
    } else {
      assert (a + b)[..|a + b| - 1] == a + b[..|b| - 1];
      CompletedConcat(a, b[..|b| - 1]);
    }
  }

  /** The newest completed jobs, if everything were looked at. */
  function Ideal(all: seq<Record>, limit: nat): seq<Record> {
    Take(Completed(all), limit)
  }

  /** handleListVideos: the completed ones among the newest 5 * limit. What is shown is always the
      beginning of the ideal shelf, and is all of it exactly when it is full or nothing completed lies
      beyond the oversampled window. */
  method ListVideos(all: seq<Record>, limit: nat) returns (completed: seq<Record>)
    requires 1 <= limit <= 50
    ensures completed <= Ideal(all, limit)
    ensures completed == Ideal(all, limit) <==>
      |completed| == limit || |all| <= limit * 5 || Completed(all[limit * 5..]) == []
    ensures |all| >= limit * 5 && |Completed(all[..limit * 5])| >= limit ==> |completed| == limit
    // Only completed jobs, and every completed job of the window up to the last one shown:
    ensures ShelfOf(all, limit, completed)
  {
    var recent := Take(all, limit * 5);
    completed := [];
    var n := 0;
    while n < |recent|
      invariant 0 <= n <= |recent| && completed == Completed(recent[..n])
      invariant |completed| < limit
    {
      assert recent[..n + 1][..n] == recent[..n];
      if recent[n].status == Status.Completed {
        completed := completed + [recent[n]];
      }
      n := n + 1;
      if |completed| == limit {
        break;
      }
    }
    ShelfIsPrefix(all, recent, n, completed, limit);
    ShelfShows(all, recent, n, completed, limit);
  }

  /** A full shelf, or all that the window has. */
  ghost predicate ShelfOf(all: seq<Record>, limit: nat, completed: seq<Record>) {
    && |completed| <= limit
    && (forall r :: r in completed ==> r.status == Status.Completed)
    && exists n: nat :: n <= |all| && n <= limit * 5 && ShowsAll(all, n, completed)
         && (|completed| == limit || n == |all| || n == limit * 5)
  }

  lemma ShelfShows(all: seq<Record>, recent: seq<Record>, n: nat, completed: seq<Record>, limit: nat)
    requires recent == Take(all, limit * 5) && n <= |recent| && completed == Completed(recent[..n])
    requires |completed| == limit || (n == |recent| && |completed| < limit)
    ensures ShelfOf(all, limit, completed)
  {
    CompletedAre(recent[..n]);
    assert recent[..n] == all[..n];
    assert ShowsAll(all, n, completed);
  }

  /** Exactly the completed jobs among the newest n are shown. */
  ghost predicate ShowsAll(all: seq<Record>, n: nat, completed: seq<Record>)
    requires n <= |all|
  {
    (forall i :: 0 <= i < n && all[i].status == Status.Completed ==> all[i] in completed)
    && forall r :: r in completed ==> r in all[..n]
  }

  lemma {:induction false} CompletedAre(rows: seq<Record>)
    ensures forall r :: r in Completed(rows) <==> r in rows && r.status == Status.Completed
  {
    if rows != [] {
      var most, last := rows[..|rows| - 1], rows[|rows| - 1];
      CompletedAre(most);
      assert forall r :: r in rows <==> r in most || r == last;
    }
  }

  lemma ShelfIsPrefix(all: seq<Record>, recent: seq<Record>, n: nat, completed: seq<Record>, limit: nat)
    requires limit > 0 && recent == Take(all, limit * 5) && n <= |recent| && completed == Completed(recent[..n])
    requires |completed| == limit || (n == |recent| && |completed| < limit)
    ensures completed <= Ideal(all, limit)
    ensures completed == Ideal(all, limit) <==>
      |completed| == limit || |all| <= limit * 5 || Completed(all[limit * 5..]) == []
    ensures |all| >= limit * 5 && |Completed(all[..limit * 5])| >= limit ==> |completed| == limit
  {
    var seen, beyond := all[..n], all[n..];
    assert recent[..n] == seen && all == seen + beyond;
    CompletedConcat(seen, beyond);
    if |completed| < limit && |all| > limit * 5 {
      assert beyond == all[limit * 5..] && seen == all[..limit * 5];
    }
    if |completed| < limit && |all| <= limit * 5 {
      assert beyond == [] && Completed(beyond) == [];
    }
  }
}
