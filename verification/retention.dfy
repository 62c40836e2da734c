/** The two retention sweeps as they run: loops that delete a job's files first and its record last,
    and go on to the next job when a call fails. Whatever fails, and wherever the process dies, a
    later sweep ends where one uninterrupted sweep would have ended.
*/
module Retention {

  import opened Timestamps
  import opened Jobs
  import Lifecycle

  /** How a deletion came back: done; failed, possibly after taking effect; or, for a prefix, failed
      after removing some objects. A crash is the case where every later call fails without effect. */
  datatype Reply = Ok | Error(applied: bool) | PartDeleted(keys: set<Key>)

  datatype Stores = Stores(jobs: map<Id, Record>, objs: set<Key>)

  // ---------- What a sweep is meant to do ----------

  /** The objects that deleteJobFiles asks storage to delete. */
  predicate IsFileOf(rec: Record, k: Key) {
    k == rec.rawKey ||
    (if rec.kind == HLS || rec.masterKey.Some? then Lifecycle.InTree(k, rec.id)
     else k.Rendition? && k.id == rec.id && k.name in rec.outputs)
  }

  predicate SweptFiles(stale: bool, rec: Record, k: Key) {
    if stale then k == rec.rawKey else IsFileOf(rec, k)
  }

  /** The condition of the listing query of a sweep with this cutoff: abandoned uploads, or expired
      terminal jobs. Nothing below depends on which condition it is. */
  function Due(stale: bool, cutoff: Instant): Record -> bool {
    r => if stale then Lifecycle.Abandoned(r, cutoff) else Lifecycle.Expired(r, cutoff)
  }

  ghost predicate Doomed(jobs: map<Id, Record>, stale: bool, due: Record -> bool, k: Key) {
    exists id :: id in jobs && due(jobs[id]) && SweptFiles(stale, jobs[id], k)
  }

  /** An uninterrupted sweep. */
  ghost function CleanSweep(s: Stores, stale: bool, due: Record -> bool): Stores {
    Stores(map id | id in s.jobs && !due(s.jobs[id]) :: s.jobs[id],
           set k | k in s.objs && !Doomed(s.jobs, stale, due, k))
  }

  /** t is s after a sweep that may have been cut short anywhere: only listed records and their files
      may be gone, and no record went before all its files. */
  ghost predicate Swept(s: Stores, t: Stores, stale: bool, due: Record -> bool) {
    && (forall id :: id in t.jobs ==> id in s.jobs && t.jobs[id] == s.jobs[id])
    && t.objs <= s.objs
    && (forall k :: k in s.objs && k !in t.objs ==> Doomed(s.jobs, stale, due, k))
    && (forall id :: id in s.jobs && id !in t.jobs ==>
          due(s.jobs[id]) && forall k :: SweptFiles(stale, s.jobs[id], k) ==> k !in t.objs)
  }

  // ---------- The code ----------

  class Service {
    var jobs: map<Id, Record>
    var objs: set<Key>
    var calls: nat
    const replies: nat -> Reply

    ghost function View(): Stores
      reads this
    {
      Stores(jobs, objs)
    }

    constructor (s: Stores, replies: nat -> Reply)
      ensures View() == s && calls == 0 && this.replies == replies
    {
      jobs, objs, calls := s.jobs, s.objs, 0;
      this.replies := replies;
    }

    method Reply() returns (r: Reply)
      modifies `calls
      ensures r == replies(old(calls)) && calls == old(calls) + 1
    {
      r := replies(calls);
      calls := calls + 1;
    }

    /** Storage.Delete. */
    method DeleteObject(key: Key) returns (ok: bool)
      modifies `objs, `calls
      ensures ok == replies(old(calls)).Ok? && calls == old(calls) + 1
      ensures objs == old(objs) || objs == old(objs) - {key}
      ensures ok ==> objs == old(objs) - {key}
    {
      var r := Reply();
      ok := r.Ok?;
      if ok || (r.Error? && r.applied) {
        objs := objs - {key};
      }
    }

    /** Storage.DeletePrefix on processed/<id>/hls/. */
    method DeleteTree(id: Id) returns (ok: bool)
      modifies `objs, `calls
      ensures ok == replies(old(calls)).Ok? && calls == old(calls) + 1
      ensures objs <= old(objs) && forall k :: k in old(objs) && k !in objs ==> Lifecycle.InTree(k, id)
      ensures ok ==> forall k :: k in objs ==> !Lifecycle.InTree(k, id)
    {
      var r := Reply();
      ok := r.Ok?;
      var gone := if r.PartDeleted? then r.keys else if ok || r.applied then objs else {};
      objs := set k | k in objs && !(k in gone && Lifecycle.InTree(k, id));
    }

    /** Store.Delete. */
    method DeleteRecord(id: Id) returns (ok: bool)
      modifies `jobs, `calls
      ensures ok == (replies(old(calls)).Ok? && id in old(jobs)) && calls == old(calls) + 1
      ensures jobs == old(jobs) || jobs == old(jobs) - {id}
      ensures ok ==> jobs == old(jobs) - {id}
    {
      var r := Reply();
      ok := r.Ok? && id in jobs;
      if r.Ok? || (r.Error? && r.applied) {
        jobs := jobs - {id};
      }
    }

    /** deleteJobFiles: the raw object, then the HLS tree or the .mp4 of every output; it stops at the
        first failure. */
    method DeleteJobFiles(rec: Record) returns (ok: bool)
      modifies `objs, `calls
      ensures objs <= old(objs) && forall k :: k in old(objs) && k !in objs ==> IsFileOf(rec, k)
      ensures ok ==> forall k :: k in objs ==> !IsFileOf(rec, k)
      ensures calls >= old(calls)
      ensures (forall n :: replies(n).Ok?) ==> ok
      // What is gone, by the kinds of keys:
      ensures ok ==> rec.rawKey !in objs
      ensures ok && (rec.kind == HLS || rec.masterKey.Some?) ==> forall k :: k in objs && k.TreeFile? ==> k.id != rec.id
      ensures ok && rec.kind == MP4 && rec.masterKey.None? ==> forall n :: n in rec.outputs ==> Rendition(rec.id, n) !in objs
      ensures forall k :: k in old(objs) && k !in objs ==> k == rec.rawKey || k.id == rec.id
    {
      ok := DeleteObject(rec.rawKey);
      if !ok {
        return;
      }
      if rec.kind == HLS || rec.masterKey.Some? {
        ok := DeleteTree(rec.id);
        return;
      }
      for i := 0 to |rec.outputs|
        invariant ok && calls >= old(calls)
        invariant objs <= old(objs) && forall k :: k in old(objs) && k !in objs ==> IsFileOf(rec, k)
        invariant rec.rawKey !in objs
        invariant forall k :: k in objs && k.Rendition? && k.id == rec.id ==> k.name !in rec.outputs[..i]
      {
        ok := DeleteObject(Rendition(rec.id, rec.outputs[i]));
        if !ok {
          return;
        }
        assert rec.outputs[..i + 1] == rec.outputs[..i] + [rec.outputs[i]];
      }
      assert rec.outputs[..|rec.outputs|] == rec.outputs;
    }

    /** ListOlderThan and ListStaleUploads: the records that meet the query's condition. */
    method List(due: Record -> bool) returns (rows: seq<Record>)
      requires forall id :: id in jobs ==> jobs[id].id == id
      ensures Lifecycle.DistinctIds(rows)
      ensures forall r :: r in rows ==> r.id in jobs && jobs[r.id] == r && due(r)
      ensures forall id :: id in jobs && due(jobs[id]) ==> jobs[id] in rows
    {
      rows := [];
      var left := jobs.Keys;
      while left != {}
        invariant left <= jobs.Keys
        invariant Lifecycle.DistinctIds(rows)
        invariant forall r :: r in rows ==> r.id in jobs && jobs[r.id] == r && r.id !in left && due(r)
        invariant forall id :: id in jobs && id !in left && due(jobs[id]) ==> jobs[id] in rows
        decreases left
      {
        var id :| id in left;
        left := left - {id};
        if due(jobs[id]) {
          rows := rows + [jobs[id]];
        }
      }
    }

    /** sweep (stale == false) and SweepStaleUploads (stale == true) over the jobs their listing returns. */
    method SweepDue(stale: bool, due: Record -> bool)
      requires forall id :: id in jobs ==> jobs[id].id == id
      modifies this
      ensures Swept(old(View()), View(), stale, due)
      ensures (forall n :: replies(n).Ok?) ==> View() == CleanSweep(old(View()), stale, due)
    {
      ghost var s := View();
      var rows := List(due);
      var i := 0;
      while i < |rows|
        invariant i <= |rows|
        invariant Swept(s, View(), stale, due)
        invariant forall j :: i <= j < |rows| ==> rows[j].id in jobs
        invariant (forall n :: replies(n).Ok?) ==> forall j :: 0 <= j < i ==> rows[j].id !in jobs
      {
        var rec := rows[i];
        i := i + 1;
        ghost var before := View();
        assert rec in rows;
        var ok: bool;
        if stale {
          ok := DeleteObject(rec.rawKey);
        } else {
          ok := DeleteJobFiles(rec);
        }
        FilesWent(s, before, View(), stale, due, rec);
        if !ok {
          continue;
        }
        ghost var bare := View();
        var dropped := DeleteRecord(rec.id);
        RecordWent(s, bare, View(), stale, due, rec);
      }
      if forall n :: replies(n).Ok? {
        AllWent(s, View(), stale, due, rows);
      }
    }

    method Sweep(stale: bool, cutoff: Instant)
      requires forall id :: id in jobs ==> jobs[id].id == id
      modifies this
      ensures Swept(old(View()), View(), stale, Due(stale, cutoff))
      ensures (forall n :: replies(n).Ok?) ==> View() == CleanSweep(old(View()), stale, Due(stale, cutoff))
    {
      SweepDue(stale, Due(stale, cutoff));
    }
  }

  // ---------- The loop's steps ----------

  lemma FilesWent(s: Stores, before: Stores, t: Stores, stale: bool, due: Record -> bool, rec: Record)
    requires Swept(s, before, stale, due) && t.jobs == before.jobs && t.objs <= before.objs
    requires rec.id in s.jobs && s.jobs[rec.id] == rec && due(rec)
    requires forall k :: k in before.objs && k !in t.objs ==> SweptFiles(stale, rec, k)
    ensures Swept(s, t, stale, due)
  {
    forall k | k in s.objs && k !in t.objs
      ensures Doomed(s.jobs, stale, due, k)
    {
      if k in before.objs {
        assert SweptFiles(stale, s.jobs[rec.id], k);
      }
    }
  }

  lemma RecordWent(s: Stores, bare: Stores, t: Stores, stale: bool, due: Record -> bool, rec: Record)
    requires Swept(s, bare, stale, due) && t.objs == bare.objs
    requires t.jobs == bare.jobs || t.jobs == bare.jobs - {rec.id}
    requires rec.id in s.jobs && s.jobs[rec.id] == rec && due(rec)
    requires forall k :: k in bare.objs ==> !SweptFiles(stale, rec, k)
    ensures Swept(s, t, stale, due)
  {
  }

  lemma AllWent(s: Stores, t: Stores, stale: bool, due: Record -> bool, rows: seq<Record>)
    requires Swept(s, t, stale, due)
    requires forall j :: 0 <= j < |rows| ==> rows[j].id !in t.jobs
    requires forall id :: id in s.jobs && due(s.jobs[id]) ==> s.jobs[id] in rows && s.jobs[id].id == id
    ensures t == CleanSweep(s, stale, due)
  {
    var c := CleanSweep(s, stale, due);
    forall id | id in s.jobs && due(s.jobs[id])
      ensures id !in t.jobs
    {
      var j :| 0 <= j < |rows| && rows[j] == s.jobs[id];
      assert rows[j].id !in t.jobs;
    }
    assert t.jobs == c.jobs;
    forall k | k in s.objs
      ensures k in t.objs <==> k in c.objs
    {
      if Doomed(s.jobs, stale, due, k) {
        var id :| id in s.jobs && due(s.jobs[id]) && SweptFiles(stale, s.jobs[id], k);
        assert id !in t.jobs;
      }
    }
    assert t.objs == c.objs;
  }

  // ---------- Main results ----------

  /** Sweeps cut short add up to a sweep cut short. */
  lemma SweptAgain(s: Stores, t: Stores, u: Stores, stale: bool, due: Record -> bool)
    requires Swept(s, t, stale, due) && Swept(t, u, stale, due)
    ensures Swept(s, u, stale, due)
  {
    forall k | k in s.objs && k !in u.objs
      ensures Doomed(s.jobs, stale, due, k)
    {
      if k in t.objs {
        var id :| id in t.jobs && due(t.jobs[id]) && SweptFiles(stale, t.jobs[id], k);
        assert SweptFiles(stale, s.jobs[id], k);
      }
    }
  }

  /** Cleanup converges: after any number of sweeps cut short by failures or crashes, one sweep without
      failures and the same listing condition reaches the records and objects of one uninterrupted sweep. */
  lemma InterruptedSweepsConverge(s: Stores, t: Stores, stale: bool, due: Record -> bool)
    requires Swept(s, t, stale, due)
    ensures CleanSweep(t, stale, due) == CleanSweep(s, stale, due)
  {
    var c, d := CleanSweep(s, stale, due), CleanSweep(t, stale, due);
    assert c.jobs == d.jobs;
    forall k | k in s.objs
      ensures k in c.objs <==> k in d.objs
    {
      if k in t.objs && Doomed(s.jobs, stale, due, k) {
        var id :| id in s.jobs && due(s.jobs[id]) && SweptFiles(stale, s.jobs[id], k);
        assert id in t.jobs && SweptFiles(stale, t.jobs[id], k);
      }
      if Doomed(t.jobs, stale, due, k) {
        var id :| id in t.jobs && due(t.jobs[id]) && SweptFiles(stale, t.jobs[id], k);
        assert SweptFiles(stale, s.jobs[id], k);
      }
    }
    assert c.objs == d.objs;
  }

  // ---------- What a clean sweep leaves ----------

  /** A clean sweep takes exactly the due records, and of the objects their raw objects and, unless it is the
      sweep for abandoned uploads, the HLS tree of each HLS job and the listed renditions of each MP4 job. */
  lemma CleanSweepExactly(s: Stores, stale: bool, due: Record -> bool, k: Key)
    requires k in s.objs && forall id :: id in s.jobs ==> s.jobs[id].id == id
    requires forall id :: id in s.jobs && s.jobs[id].kind == MP4 ==> s.jobs[id].masterKey.None?
    ensures k in CleanSweep(s, stale, due).objs <==>
      forall id :: id in s.jobs && due(s.jobs[id]) ==>
        && k != s.jobs[id].rawKey
        && (!stale && k.TreeFile? && k.id == id ==> s.jobs[id].kind == MP4)
        && (!stale && k.Rendition? && k.id == id ==> s.jobs[id].kind == HLS || k.name !in s.jobs[id].outputs)
    ensures forall id :: id in CleanSweep(s, stale, due).jobs <==> id in s.jobs && !due(s.jobs[id])
    ensures forall id :: id in CleanSweep(s, stale, due).jobs ==> CleanSweep(s, stale, due).jobs[id] == s.jobs[id]
  {
    if k !in CleanSweep(s, stale, due).objs {
      var id :| id in s.jobs && due(s.jobs[id]) && SweptFiles(stale, s.jobs[id], k);
      assert id in s.jobs && due(s.jobs[id]);
    } else {
      forall id | id in s.jobs && due(s.jobs[id])
        ensures !SweptFiles(stale, s.jobs[id], k)
      {
      }
    }
  }

  /** Of a completed, expired job a clean sweep of expired jobs leaves nothing that was made from its content. */
  lemma CompletedIsCleanedUp(s: Stores, due: Record -> bool, id: Id, v: Video, k: Key)
    requires id in s.jobs && s.jobs[id].id == id && due(s.jobs[id])
    requires s.jobs[id].outputs == OutputNames(s.jobs[id].kind, v) && s.jobs[id].masterKey == MasterKey(s.jobs[id].kind, id)
    ensures k in Uploads(s.jobs[id].kind, id, v) || k == s.jobs[id].rawKey ==> k !in CleanSweep(s, false, due).objs
  {
    if k in Uploads(s.jobs[id].kind, id, v) || k == s.jobs[id].rawKey {
      assert SweptFiles(false, s.jobs[id], k);
      assert Doomed(s.jobs, false, due, k);
    }
  }

  // ---------- The sweep as steps ----------

  function Phase(z: Lifecycle.Sweeper): nat {
    match z
    case SweepIdle(_) => 0
    case SweepDrop(_, _) => 1
    case SweepOutputs(_, names) => 2 + |names|
    case SweepTree(_) => 2
    case SweepRaw(_, todo) => if todo == [] then 0 else 3 + |todo[0].outputs|
  }

  /** The steps of a sweeper none of whose calls fails and that nothing interrupts. */
  function Finish(w: Lifecycle.World, z: Lifecycle.Sweeper): Lifecycle.World
    decreases if z.SweepIdle? then 0 else |z.todo|, Phase(z)
  {
    if z.SweepIdle? || z.todo == [] then w
    else
      var o := Lifecycle.StepSweeper(w, z, Lifecycle.Ok);
      Finish(o.w, o.me.sweeper)
  }

  lemma {:induction false} FinishOutputs(w: Lifecycle.World, todo: seq<Record>, names: seq<string>)
      returns (w1: Lifecycle.World)
    requires todo != []
    ensures Finish(w, Lifecycle.SweepOutputs(todo, names)) == Finish(w1, Lifecycle.SweepDrop(false, todo))
    ensures w1.jobs == w.jobs && w1.objs.Keys == set k | k in w.objs && !(k.Rendition? && k.id == todo[0].id && k.name in names)
    decreases |names|
  {
    if names == [] {
      w1 := w;
    } else {
      var next := Lifecycle.Remove(w, Rendition(todo[0].id, names[0]), Lifecycle.Ok);
      w1 := FinishOutputs(next, todo, names[1..]);
      assert names == [names[0]] + names[1..];
    }
  }

  /** One job of the sweep's list. */
  lemma FinishOne(w: Lifecycle.World, stale: bool, todo: seq<Record>) returns (w1: Lifecycle.World)
    requires todo != []
    ensures Finish(w, Lifecycle.SweepRaw(stale, todo)) == Finish(w1, Lifecycle.SweepRaw(stale, todo[1..]))
    ensures w1.jobs == w.jobs - {todo[0].id}
    ensures w1.objs.Keys == set k | k in w.objs && !SweptFiles(stale, todo[0], k)
  {
    var rec := todo[0];
    var bare := Lifecycle.Remove(w, rec.rawKey, Lifecycle.Ok);
    if stale {
      w1 := DropOne(bare, stale, todo);
    } else if rec.kind == HLS || rec.masterKey.Some? {
      var cut := Lifecycle.StepSweeper(bare, Lifecycle.SweepTree(todo), Lifecycle.Ok).w;
      w1 := DropOne(cut, stale, todo);
    } else {
      var cut := FinishOutputs(bare, todo, rec.outputs);
      w1 := DropOne(cut, stale, todo);
    }
  }

  lemma DropOne(w: Lifecycle.World, stale: bool, todo: seq<Record>) returns (w1: Lifecycle.World)
    requires todo != []
    ensures Finish(w, Lifecycle.SweepDrop(stale, todo)) == Finish(w1, Lifecycle.SweepRaw(stale, todo[1..]))
    ensures w1.jobs == w.jobs - {todo[0].id} && w1.objs == w.objs
  {
    w1 := Lifecycle.StepSweeper(w, Lifecycle.SweepDrop(stale, todo), Lifecycle.Ok).w;
  }

  lemma {:induction false} FinishAll(w: Lifecycle.World, stale: bool, todo: seq<Record>)
    ensures var t := Finish(w, Lifecycle.SweepRaw(stale, todo));
      && (forall id :: id in t.jobs <==> id in w.jobs && forall r :: r in todo ==> r.id != id)
      && (forall id :: id in t.jobs ==> t.jobs[id] == w.jobs[id])
      && (forall k :: k in t.objs <==> k in w.objs && forall r :: r in todo ==> !SweptFiles(stale, r, k))
    decreases |todo|
  {
    if todo != [] {
      var w1 := FinishOne(w, stale, todo);
      FinishAll(w1, stale, todo[1..]);
      assert forall r :: r in todo <==> r == todo[0] || r in todo[1..];
    }
  }

  /** The lifecycle's sweeper and the loop are one and the same: uninterrupted, over any listing of the due jobs,
      its steps end where a clean sweep ends. */
  lemma StepsSweepClean(w: Lifecycle.World, stale: bool, cutoff: Instant, rows: seq<Record>)
    requires if stale then Lifecycle.ListsAbandoned(rows, w.jobs, cutoff) else Lifecycle.ListsExpired(rows, w.jobs, cutoff)
    requires forall id :: id in w.jobs ==> w.jobs[id].id == id
    ensures var t := Finish(w, Lifecycle.SweepRaw(stale, rows));
      Stores(t.jobs, t.objs.Keys) == CleanSweep(Stores(w.jobs, w.objs.Keys), stale, Due(stale, cutoff))
  {
    ListedAre(w.jobs, stale, Due(stale, cutoff), rows, cutoff);
    FinishAll(w, stale, rows);
    ListedGo(w, stale, Due(stale, cutoff), rows);
  }

  lemma ListedAre(jobs: map<Id, Record>, stale: bool, due: Record -> bool, rows: seq<Record>, cutoff: Instant)
    requires due == Due(stale, cutoff)
    requires if stale then Lifecycle.ListsAbandoned(rows, jobs, cutoff) else Lifecycle.ListsExpired(rows, jobs, cutoff)
    ensures forall r :: r in rows ==> r.id in jobs && jobs[r.id] == r && due(r)
    ensures forall id :: id in jobs && due(jobs[id]) ==> jobs[id] in rows
  {
  }

  lemma ListedGo(w: Lifecycle.World, stale: bool, due: Record -> bool, rows: seq<Record>)
    requires forall r :: r in rows ==> r.id in w.jobs && w.jobs[r.id] == r && due(r)
    requires forall id :: id in w.jobs ==> w.jobs[id].id == id && (due(w.jobs[id]) ==> w.jobs[id] in rows)
    requires var t := Finish(w, Lifecycle.SweepRaw(stale, rows));
      && (forall id :: id in t.jobs <==> id in w.jobs && forall r :: r in rows ==> r.id != id)
      && (forall id :: id in t.jobs ==> t.jobs[id] == w.jobs[id])
      && (forall k :: k in t.objs <==> k in w.objs && forall r :: r in rows ==> !SweptFiles(stale, r, k))
    ensures var t := Finish(w, Lifecycle.SweepRaw(stale, rows));
      Stores(t.jobs, t.objs.Keys) == CleanSweep(Stores(w.jobs, w.objs.Keys), stale, due)
  {
    var t, c := Finish(w, Lifecycle.SweepRaw(stale, rows)), CleanSweep(Stores(w.jobs, w.objs.Keys), stale, due);
    assert forall id :: id in t.jobs <==> id in c.jobs;
    forall k | k in w.objs
      ensures (forall r :: r in rows ==> !SweptFiles(stale, r, k)) <==> !Doomed(w.jobs, stale, due, k)
    {
      if r :| r in rows && SweptFiles(stale, r, k) {
        assert SweptFiles(stale, w.jobs[r.id], k);
      }
    }
    assert t.objs.Keys == c.objs && t.jobs == c.jobs;
  }
}
