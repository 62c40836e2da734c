/** Runs that the hypotheses exclude, and how much of them is needed: the sweep for abandoned uploads
    against a complete request.
*/
module Races {

  import opened Jobs
  import opened Lifecycle
  import opened Sessions
  import opened Ownership
  import opened Safety
  import Redrive
  import opened Objects

  // ---------- The sweep's steps, without the guard ----------

  /** Dropping the record of a listed upload keeps the status graph and the ownership invariant if and
      only if the job is not in flight by now: still uploading, or already finished. */
  lemma DropIsSafeExactly(s: State, i: nat, todo: seq<Record>)
    requires OwnInv(s) && SessionInv(s) && i < |s.procs| && s.procs[i] == Sweeping(SweepDrop(true, todo))
    requires todo != [] && todo[0].id in s.w.jobs
    ensures var t, id := StepRun(s, i, Ok), todo[0].id;
      Lawful(s.w, t.w, id, false) && OwnInv(t) <==> !InFlight(s.w.jobs[id].status)
  {
    var t, id := StepRun(s, i, Ok), todo[0].id;
    if !InFlight(s.w.jobs[id].status) {
      DropKeeps(s, i, todo);
    }
  }

  lemma DropKeeps(s: State, i: nat, todo: seq<Record>)
    requires OwnInv(s) && SessionInv(s) && i < |s.procs| && s.procs[i] == Sweeping(SweepDrop(true, todo))
    requires todo != [] && todo[0].id in s.w.jobs && !InFlight(s.w.jobs[todo[0].id].status)
    ensures OwnInv(StepRun(s, i, Ok))
  {
    var z, id := s.procs[i].sweeper, todo[0].id;
    assert ProcOk(s.w.jobs, s.w.issued, s.procs[i]);
    DropOut(s.w, z, Ok);
    var o := StepSweeper(s.w, z, Ok);
    forall j: nat | j != i && ClaimedBy(s, j, id)
      ensures ProcOk(o.w.jobs, o.w.issued, s.procs[j])
    {
      ClaimStatus(s, j, id);
      assert ProcOk(s.w.jobs, s.w.issued, s.procs[j]);
    }
    StepsTo(s, i, Ok);
    FreeMove(s, i, o, id);
  }

  /** Deleting the raw object of a listed upload takes it from no job in flight and from no job that can
      be downloaded if and only if the job is still uploading, has failed, or is completed and expired. */
  lemma RawDeletionIsSafeExactly(s: State, i: nat, todo: seq<Record>)
    requires AllInv(s) && i < |s.procs| && s.procs[i] == Sweeping(SweepRaw(true, todo))
    requires todo != [] && todo[0].id in s.w.jobs && todo[0].id !in s.w.tampered && todo[0].rawKey in s.w.objs
    ensures var t, rec := StepRun(s, i, Ok), s.w.jobs[todo[0].id];
      ObjInv(t) && !Redrive.Accepted(t.w, rec.id)
      <==> rec.status == Uploading || rec.status == Failed || (rec.status == Completed && !Retained(s.w.now, rec))
    ensures forall o :: Owns(s, o, todo[0].id) ==> Redrive.Accepted(s.w, todo[0].id)
  {
    var t, rec := StepRun(s, i, Ok), s.w.jobs[todo[0].id];
    assert ProcKnown(s.w.used, s.w.jobs, s.procs[i]) && todo[0] in todo;
    assert rec.id == todo[0].id && rec.rawKey == todo[0].rawKey && rec.rawKey !in t.w.objs;
    forall o | Owns(s, o, rec.id)
      ensures Redrive.Accepted(s.w, rec.id)
    {
      OwnerFits(s, o, rec.id);
    }
    if !InFlight(rec.status) {
      if rec.status == Completed && Retained(s.w.now, rec) {
        assert !ObjOk(t.w.objs, t.w.now, rec.id, t.w.jobs[rec.id]);
      } else {
        RawDeletionKeeps(s, i, todo);
      }
    }
  }

  lemma RawDeletionKeeps(s: State, i: nat, todo: seq<Record>)
    requires AllInv(s) && i < |s.procs| && s.procs[i] == Sweeping(SweepRaw(true, todo)) && todo != []
    requires todo[0].id in s.w.jobs && todo[0].id !in s.w.tampered && !InFlight(s.w.jobs[todo[0].id].status)
    requires s.w.jobs[todo[0].id].status == Completed ==> !Retained(s.w.now, s.w.jobs[todo[0].id])
    ensures ObjInv(StepRun(s, i, Ok))
  {
    var t, id := StepRun(s, i, Ok), todo[0].id;
    assert ProcKnown(s.w.used, s.w.jobs, s.procs[i]) && todo[0] in todo;
    RawDeletionShrinks(s.w, todo[0].rawKey);
    forall j | 0 <= j < |t.procs|
      ensures ProcObj(t.w, t.procs[j])
    {
      if j != i {
        RawDeletionSpares(s, t.w, todo[0].rawKey, j);
      }
    }
  }

  lemma RawDeletionShrinks(w: World, key: Key)
    requires Sound(w) && key.id in w.jobs && key.id !in w.tampered && !InFlight(w.jobs[key.id].status)
    requires w.jobs[key.id].status == Completed ==> !Retained(w.now, w.jobs[key.id])
    ensures WorldObj(w.(objs := w.objs - {key}))
  {
    ShrinkObj(w, w.(objs := w.objs - {key}), key.id);
  }

  lemma RawDeletionSpares(s: State, w': World, key: Key, j: nat)
    requires AllInv(s) && j < |s.procs| && w' == s.w.(objs := s.w.objs - {key})
    requires key.id in s.w.jobs && !InFlight(s.w.jobs[key.id].status)
    ensures ProcObj(w', s.procs[j])
  {
    var q := s.procs[j];
    assert ProcOk(s.w.jobs, s.w.issued, q) && ProcKnown(s.w.used, s.w.jobs, q) && ProcObj(s.w, q);
    if q.Working? && WorkerId(q.worker).Some? {
      assert ClaimedBy(s, j, WorkerId(q.worker).value);
      ClaimStatus(s, j, WorkerId(q.worker).value);
    }
    OtherObj(s.w, w', key.id, q);
  }

  // ---------- The sweep against a complete request ----------

  /** A complete request: its reads and its mark. */
  function Accepting(n: nat, id: Id): seq<Action> {
    [Complete(id), Run(n, Ok), Run(n, Ok), Run(n, Ok)]
  }

  /** The sweep goes on: the raw object, and the record. */
  function Dropping(sweeper: nat): seq<Action> {
    [Run(sweeper, Ok), Run(sweeper, Ok)]
  }

  lemma {:induction false} RunsOn(s: State, a: seq<Action>, t: State, b: seq<Action>)
    requires Runs(s, a) && After(s, a) == t && Runs(t, b)
    ensures Runs(s, a + b) && After(s, a + b) == After(t, b)
    decreases |a|
  {
    if a == [] {
      assert a + b == b;
    } else {
      assert (a + b)[0] == a[0] && (a + b)[1..] == a[1..] + b;
      RunsOn(Next(s, a[0]), a[1..], t, b);
    }
  }

  /** The record and the bytes of a job go while its validator is at work, when a complete request marks the
      job after the sweep has listed it: the sweep's half of the guard is needed too, even when every
      complete request keeps its own. */
  lemma SweepRaceWithoutGuard(s: State, j: nat, todo: seq<Record>, id: Id)
    requires OwnInv(s) && SessionInv(s) && IsServing(s)
    requires id in s.w.issued && InState(s.w.jobs, id, Uploading)
    requires s.w.jobs[id].rawKey in s.w.objs && 0 < s.w.objs[s.w.jobs[id].rawKey].size <= MAX_UPLOAD_SIZE
    requires j < |s.procs| && s.procs[j] == Sweeping(SweepRaw(true, todo)) && todo != [] && todo[0] == s.w.jobs[id]
    ensures var accepting, dropping := Accepting(|s.procs|, id), Dropping(j);
      && GuardedRun(s, accepting) && Runs(s, accepting + dropping)
      && var t := After(s, accepting + dropping);
        Owns(t, Goroutine(|s.procs|), id) && id !in t.w.jobs && s.w.jobs[id].rawKey !in t.w.objs
  {
    assert RecordOk(s.w.issued, id, s.w.jobs[id]);
    Four(s, id);
    SweepGoesOn(Marked(s, id), j, todo);
    RunsOn(s, Accepting(|s.procs|, id), Marked(s, id), Dropping(j));
  }

  /** The state after a complete request was accepted. */
  function Marked(s: State, id: Id): State
    requires id in s.w.jobs
  {
    State(s.w.(jobs := s.w.jobs[id := s.w.jobs[id].(status := Validating)]),
          s.procs + [Checking(ValProbe(id, s.w.jobs[id].rawKey))])
  }

  /** The sweep deletes the raw object and drops the record, whatever became of them. */
  lemma SweepGoesOn(s: State, j: nat, todo: seq<Record>)
    requires j < |s.procs| && s.procs[j] == Sweeping(SweepRaw(true, todo)) && todo != []
    ensures var a := Dropping(j);
      && Runs(s, a)
      && After(s, a).w.jobs == s.w.jobs - {todo[0].id} && After(s, a).w.objs == s.w.objs - {todo[0].rawKey}
      && |After(s, a).procs| == |s.procs| && forall n :: 0 <= n < |s.procs| && n != j ==> After(s, a).procs[n] == s.procs[n]
  {
    var t := State(s.w.(objs := s.w.objs - {todo[0].rawKey}), s.procs[j := Sweeping(SweepDrop(true, todo))]);
    var u := Next(t, Run(j, Ok));
    assert Next(s, Run(j, Ok)) == t;
    assert Dropping(j)[1..] == [Run(j, Ok)] && [Run(j, Ok)][1..] == [];
    assert Runs(t, [Run(j, Ok)]) && After(t, [Run(j, Ok)]) == u;
  }

  /** The complete request alone, within the guard. */
  lemma Four(s: State, id: Id)
    requires IsServing(s) && id in s.w.issued && InState(s.w.jobs, id, Uploading) && s.w.jobs[id].id == id
    requires s.w.jobs[id].rawKey in s.w.objs && 0 < s.w.objs[s.w.jobs[id].rawKey].size <= MAX_UPLOAD_SIZE
    ensures var a := Accepting(|s.procs|, id);
      Runs(s, a) && GuardedRun(s, a) && After(s, a) == Marked(s, id)
  {
    var n, rec := |s.procs|, s.w.jobs[id];
    var run := Run(n, Ok);
    MarkLast(s, rec);
    RequestStep(s, HandlerStat(rec), s.w, Completing(HandlerMark(rec.(status := Validating))), [run]);
    RequestStep(s, HandlerLoad(id), s.w, Completing(HandlerStat(rec)), [run, run]);
    assert [run] + [run] == [run, run] && [run] + [run, run] == [run, run, run];
    Prepend(s, Complete(id), s.(procs := s.procs + [Completing(HandlerLoad(id))]), [run, run, run]);
    assert [Complete(id)] + [run, run, run] == Accepting(n, id);
  }

  lemma MarkLast(s: State, rec: Record)
    requires InState(s.w.jobs, rec.id, Uploading) && s.w.jobs[rec.id] == rec
    ensures var u := s.(procs := s.procs + [Completing(HandlerMark(rec.(status := Validating)))]);
      var a := [Run(|s.procs|, Ok)];
      Runs(u, a) && GuardedRun(u, a) && After(u, a) == Marked(s, rec.id)
  {
    var run := Run(|s.procs|, Ok);
    RequestStep(s, HandlerMark(rec.(status := Validating)), Marked(s, rec.id).w,
                Checking(ValProbe(rec.id, rec.rawKey)), []);
    assert [run] + [] == [run];
  }

  /** One call of the request that is the last goroutine. */
  lemma RequestStep(s: State, h: Handler, w: World, next: Proc, tail: seq<Action>)
    requires StepHandler(s.w, h, Ok) == Out(w, next, []) && (h.HandlerMark? ==> StillUploading(s.w.jobs, h.rec.id))
    requires var t := State(w, s.procs + [next]); Runs(t, tail) && GuardedRun(t, tail)
    ensures var u, a := s.(procs := s.procs + [Completing(h)]), [Run(|s.procs|, Ok)] + tail;
      Runs(u, a) && GuardedRun(u, a) && After(u, a) == After(State(w, s.procs + [next]), tail)
  {
    var u := s.(procs := s.procs + [Completing(h)]);
    assert u.procs[|s.procs| := next] + [] == s.procs + [next];
    Prepend(u, Run(|s.procs|, Ok), State(w, s.procs + [next]), tail);
  }

  lemma Prepend(s: State, a: Action, t: State, actions: seq<Action>)
    requires Enabled(s, a) && Guarded(s, a) && Next(s, a) == t && Runs(t, actions) && GuardedRun(t, actions)
    ensures Runs(s, [a] + actions) && GuardedRun(s, [a] + actions)
    ensures After(s, [a] + actions) == After(t, actions)
  {
    assert ([a] + actions)[1..] == actions;
  }
}
