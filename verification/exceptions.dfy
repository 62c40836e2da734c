/** Runs outside the other two conditions: an upload URL issued too late, and raw bytes changed after their
    job was accepted. Each leaves behind what the results about storage otherwise exclude.
*/
module Exceptions {

  import opened Wrappers
  import opened Jobs
  import opened Lifecycle
  import opened Sessions
  import opened Ownership
  import opened Conservation
  import opened Timestamps
  import Races
  import Orphans

  // ---------- A URL issued too late ----------

  /** The sweep drops a session, its URL is issued only then, and the client uses it. */
  function LateUpload(creator: nat, sweeper: nat, key: Key, video: Video): seq<Action> {
    [Run(sweeper, Ok), Run(creator, Ok), ClientPut(key, video)]
  }

  /** When the sweep is about to drop a session whose URL has not been issued yet, a guarded run leads to a raw
      object without a record; issuing the URL is the step that comes too late. */
  lemma LatePresignLeavesRaw(s: State, i: nat, j: nat, rec: Record, todo: seq<Record>, video: Video)
    requires SessionInv(s) && ClockInv(s) && i < |s.procs| && j < |s.procs| && i != j
    requires s.procs[i] == Creating(CreatePresign(rec)) && s.procs[j] == Sweeping(SweepDrop(true, todo))
    requires todo != [] && todo[0].id == rec.id && InState(s.w.jobs, rec.id, Uploading)
    ensures var actions := LateUpload(i, j, rec.rawKey, video);
      && GuardedRun(s, actions) && Runs(s, actions)
      && !PresignInTime(Next(s, actions[0]), actions[1])
      && rec.rawKey in After(s, actions).w.objs && rec.id !in After(s, actions).w.jobs
  {
    var drop, presign, put := Run(j, Ok), Run(i, Ok), ClientPut(rec.rawKey, video);
    assert ProcKnown(s.w.used, s.w.jobs, s.procs[i]) && ProcKnown(s.w.used, s.w.jobs, s.procs[j]);
    assert ProcClock(s.w, s.procs[j]) && todo[0] in todo;
    var s1 := Next(s, drop);
    assert s1.procs[i] == Creating(CreatePresign(rec)) && s1.w.now == s.w.now;
    PresignAndPut(s1, i, rec, video);
    Races.Prepend(s, drop, s1, [presign, put]);
    assert [drop] + [presign, put] == LateUpload(i, j, rec.rawKey, video);
  }

  lemma PresignAndPut(s: State, i: nat, rec: Record, video: Video)
    requires i < |s.procs| && s.procs[i] == Creating(CreatePresign(rec)) && rec.id !in s.w.jobs
    ensures var a := [Run(i, Ok), ClientPut(rec.rawKey, video)];
      GuardedRun(s, a) && Runs(s, a) && rec.rawKey in After(s, a).w.objs && rec.id !in After(s, a).w.jobs
  {
    var put := ClientPut(rec.rawKey, video);
    var t := Next(s, Run(i, Ok));
    Races.Prepend(t, put, Next(t, put), []);
    Races.Prepend(s, Run(i, Ok), t, [put] + []);
    assert [put] + [] == [put] && [Run(i, Ok)] + [put] == [Run(i, Ok), put];
  }

  // ---------- Raw bytes changed after they were accepted ----------

  function Worked(s: State, w: World, i: nat, k: Worker): State
    requires i < |s.procs|
  {
    State(w, s.procs[i := Working(k)])
  }

  function Swept(s: State, w: World, j: nat, z: Sweeper): State
    requires j < |s.procs|
  {
    State(w, s.procs[j := Sweeping(z)])
  }

  ghost predicate Goes(s: State, actions: seq<Action>, t: State) {
    GuardedRun(s, actions) && Runs(s, actions) && After(s, actions) == t
  }

  lemma Stay(s: State)
    ensures Goes(s, [], s)
  {
  }

  lemma WorkerGoes(s: State, w: World, i: nat, k: Worker, r: Reply, w': World, k': Worker, tail: seq<Action>, t: State)
    requires i < |s.procs| && WorkerAnswers(w, k, r) && StepWorker(w, k, r) == Out(w', Working(k'), [])
    requires Goes(Worked(s, w', i, k'), tail, t)
    ensures Goes(Worked(s, w, i, k), [Run(i, r)] + tail, t)
  {
    assert Worked(s, w, i, k).procs[i := Working(k')] == Worked(s, w', i, k').procs;
    assert s.procs[i := Working(k')] + [] == s.procs[i := Working(k')];
    Races.Prepend(Worked(s, w, i, k), Run(i, r), Worked(s, w', i, k'), tail);
  }

  lemma SweeperGoes(s: State, w: World, j: nat, z: Sweeper, r: Reply, w': World, z': Sweeper, tail: seq<Action>, t: State)
    requires j < |s.procs| && SweeperAnswers(w, z, r) && StepSweeper(w, z, r) == Out(w', Sweeping(z'), [])
    requires GuardHolds(w.jobs, Sweeping(z)) && Goes(Swept(s, w', j, z'), tail, t)
    ensures Goes(Swept(s, w, j, z), [Run(j, r)] + tail, t)
  {
    assert Swept(s, w, j, z).procs[j := Sweeping(z')] == Swept(s, w', j, z').procs;
    assert s.procs[j := Sweeping(z')] + [] == s.procs[j := Sweeping(z')];
    Races.Prepend(Swept(s, w, j, z), Run(j, r), Swept(s, w', j, z'), tail);
  }

  /** A content with one rendition. */
  ghost predicate Single(v: Video, name: string) {
    v.renditions == [name]
  }

  /** The completed record of a worker that found this content. */
  function Done(rec: Record, v: Video): Record {
    rec.(status := Completed, progress := 100, outputs := OutputNames(rec.kind, v),
         masterKey := MasterKey(rec.kind, rec.id))
  }

  /** The worker's run once it has fetched the bytes: one upload, and the record. */
  lemma FinishesSingle(s: State, w: World, i: nat, rec: Record, v: Video, name: string) returns (actions: seq<Action>)
    requires i < |s.procs| && rec.kind == MP4 && Single(v, name) && rec.id in w.jobs
    ensures Goes(Worked(s, w, i, WorkTranscode(rec, v, [], 0)), actions,
                 Worked(s, Update(Put(w, Rendition(rec.id, name), v, Ok), Done(rec, v), Ok), i, WorkIdle))
  {
    var key := Rendition(rec.id, name);
    var w1 := Put(w, key, v, Ok);
    var w2 := Update(w1, Done(rec, v), Ok);
    assert Uploads(MP4, rec.id, v) == [key] && [key][1..] == [];
    Stay(Worked(s, w2, i, WorkIdle));
    WorkerGoes(s, w1, i, WorkFinish(Done(rec, v), v), Ok, w2, WorkIdle, [], Worked(s, w2, i, WorkIdle));
    actions := [Run(i, Ok)] + [];
    WorkerGoes(s, w1, i, WorkUpload(rec, v, []), Ok, w1, WorkFinish(Done(rec, v), v), actions, Worked(s, w2, i, WorkIdle));
    actions := [Run(i, Ok)] + actions;
    WorkerGoes(s, w, i, WorkUpload(rec, v, [key]), Ok, w1, WorkUpload(rec, v, []), actions, Worked(s, w2, i, WorkIdle));
    actions := [Run(i, Ok)] + actions;
    WorkerGoes(s, w, i, WorkTranscode(rec, v, [], 0), Ok, w, WorkUpload(rec, v, [key]), actions, Worked(s, w2, i, WorkIdle));
    actions := [Run(i, Ok)] + actions;
  }

  /** The worker's run from the queue on. */
  lemma RunsSingle(s: State, w: World, i: nat, id: Id, name: string) returns (actions: seq<Action>, w': World)
    requires i < |s.procs| && id in w.jobs && w.jobs[id].id == id && w.jobs[id].kind == MP4
    requires w.queue != [] && w.queue[0] == id && w.jobs[id].rawKey in w.objs && Single(w.objs[w.jobs[id].rawKey], name)
    ensures Goes(Worked(s, w, i, WorkIdle), actions, Worked(s, w', i, WorkIdle))
    ensures w'.jobs == w.jobs[id := Done(w.jobs[id], w.objs[w.jobs[id].rawKey])]
    ensures w'.objs == w.objs[Rendition(id, name) := w.objs[w.jobs[id].rawKey]]
    ensures w'.leaked == w.leaked && w'.tampered == w.tampered && w'.now == w.now
  {
    var v := w.objs[w.jobs[id].rawKey];
    var w0 := w.(queue := w.queue[1..]);
    var rec := w.jobs[id].(status := Processing, progress := 0);
    var w1 := Update(w0, rec, Ok);
    w' := Update(Put(w1, Rendition(id, name), v, Ok), Done(rec, v), Ok);
    var t := Worked(s, w', i, WorkIdle);
    actions := FinishesSingle(s, w1, i, rec, v, name);
    WorkerGoes(s, w1, i, WorkFetch(rec), Fetched([]), w1, WorkTranscode(rec, v, [], 0), actions, t);
    actions := [Run(i, Fetched([]))] + actions;
    WorkerGoes(s, w0, i, WorkMark(rec), Ok, w1, WorkFetch(rec), actions, t);
    actions := [Run(i, Ok)] + actions;
    WorkerGoes(s, w0, i, WorkLoad(id), Ok, w0, WorkMark(rec), actions, t);
    actions := [Run(i, Ok)] + actions;
    WorkerGoes(s, w, i, WorkIdle, Ok, w0, WorkLoad(id), actions, t);
    actions := [Run(i, Ok)] + actions;
  }

  /** The sweep of a completed job with one output. */
  lemma SweepsSingle(s: State, w: World, j: nat, rows: seq<Record>, name: string)
      returns (actions: seq<Action>, w': World)
    requires j < |s.procs| && rows != [] && rows[0].kind == MP4 && rows[0].status == Completed
    requires rows[0].masterKey == None && rows[0].outputs == [name]
    ensures Goes(Swept(s, w, j, SweepRaw(false, rows)), actions, Swept(s, w', j, SweepRaw(false, rows[1..])))
    ensures w'.objs == w.objs - {rows[0].rawKey} - {Rendition(rows[0].id, name)} && w'.jobs == w.jobs - {rows[0].id}
    ensures w'.leaked == w.leaked && w'.tampered == w.tampered
  {
    var rec := rows[0];
    var w1 := Remove(w, rec.rawKey, Ok);
    var w2 := Remove(w1, Rendition(rec.id, name), Ok);
    w' := Delete(w2, rec.id, Ok);
    var t := Swept(s, w', j, SweepRaw(false, rows[1..]));
    Stay(t);
    SweeperGoes(s, w2, j, SweepDrop(false, rows), Ok, w', SweepRaw(false, rows[1..]), [], t);
    actions := [Run(j, Ok)] + [];
    SweeperGoes(s, w2, j, SweepOutputs(rows, []), Ok, w2, SweepDrop(false, rows), actions, t);
    actions := [Run(j, Ok)] + actions;
    assert [name][1..] == [];
    SweeperGoes(s, w1, j, SweepOutputs(rows, [name]), Ok, w2, SweepOutputs(rows, []), actions, t);
    actions := [Run(j, Ok)] + actions;
    SweeperGoes(s, w, j, SweepRaw(false, rows), Ok, w1, SweepOutputs(rows, [name]), actions, t);
    actions := [Run(j, Ok)] + actions;
  }

  lemma {:induction false} GoesOn(s: State, a: seq<Action>, t: State, b: seq<Action>, u: State)
    requires Goes(s, a, t) && Goes(t, b, u)
    ensures Goes(s, a + b, u)
    decreases |a|
  {
    if a == [] {
      assert a + b == b;
    } else {
      GoesOn(Next(s, a[0]), a[1..], t, b, u);
      Races.Prepend(s, a[0], Next(s, a[0]), a[1..] + b);
      assert [a[0]] + (a[1..] + b) == a + b;
    }
  }

  /** From the moment the completed job is old enough. */
  lemma ExpiresSingle(s: State, j: nat, to: Instant, id: Id, name: string) returns (actions: seq<Action>, w': World)
    requires j < |s.procs| && s.procs[j] == Sweeping(SweepIdle(false)) && s.w.now <= to
    requires id in s.w.jobs && forall x :: x in s.w.jobs ==> s.w.jobs[x].id == x
    requires var rec := s.w.jobs[id];
      rec.kind == MP4 && rec.status == Completed && rec.masterKey == None && rec.outputs == [name]
      && rec.createdAt + RETENTION_TTL + SECOND <= to
    ensures GuardedRun(s, actions) && Runs(s, actions) && After(s, actions).w == w'
    ensures w'.objs == s.w.objs - {s.w.jobs[id].rawKey} - {Rendition(id, name)} && w'.jobs == s.w.jobs - {id}
    ensures w'.leaked == s.w.leaked && w'.tampered == s.w.tampered
  {
    var w := s.w.(now := to);
    var rows := Orphans.ListsEnded(w, id, to - RETENTION_TTL);
    actions, w' := SweepsSingle(s, w, j, rows, name);
    SweeperGoes(s, w, j, SweepIdle(false), Listed(rows), w, SweepRaw(false, rows), actions,
                Swept(s, w', j, SweepRaw(false, rows[1..])));
    actions := [Run(j, Listed(rows))] + actions;
    assert Swept(s, w, j, SweepIdle(false)).procs == s.procs;
    Races.Prepend(s, Pass(to), Swept(s, w, j, SweepIdle(false)), actions);
    actions := [Pass(to)] + actions;
  }

  /** The client's other bytes, and the worker that finds them. */
  lemma TamperedRun(s: State, i: nat, id: Id, name: string, video: Video) returns (actions: seq<Action>, t: State)
    requires i < |s.procs| && s.procs[i] == Working(WorkIdle) && s.w.queue != [] && s.w.queue[0] == id
    requires InState(s.w.jobs, id, Pending) && s.w.jobs[id].id == id && s.w.jobs[id].kind == MP4
    requires s.w.jobs[id].rawKey in s.w.urls && s.w.now < s.w.urls[s.w.jobs[id].rawKey]
    requires s.w.jobs[id].rawKey.id == id && Single(video, name)
    requires Tampers(s.w, s.w.jobs[id].rawKey, video)
    ensures Goes(s, actions, t) && t.procs == s.procs && t.w.now == s.w.now
    ensures t.w.jobs == s.w.jobs[id := Done(s.w.jobs[id], video)]
    ensures t.w.objs == s.w.objs[s.w.jobs[id].rawKey := video][Rendition(id, name) := video]
    ensures t.w.leaked == s.w.leaked && id in t.w.tampered
  {
    var put := ClientPut(s.w.jobs[id].rawKey, video);
    var w := Arrive(s.w, s.w.jobs[id].rawKey, video);
    var w';
    actions, w' := RunsSingle(s, w, i, id, name);
    t := Worked(s, w', i, WorkIdle);
    assert Worked(s, w, i, WorkIdle).procs == s.procs && t.procs == s.procs;
    Races.Prepend(s, put, Worked(s, w, i, WorkIdle), actions);
    actions := [put] + actions;
  }

  /** When a job that was interrupted after some uploads waits in the queue and its URL is still valid, other
      bytes make it complete with another plan, and what the first run uploaded is left behind when the job
      expires, though it has completed. */
  lemma TamperingLeavesRenditions(s: State, i: nat, j: nat, to: Instant, id: Id, first: string, name: string, video: Video)
      returns (actions: seq<Action>)
    requires SessionInv(s) && i < |s.procs| && s.procs[i] == Working(WorkIdle)
    requires j < |s.procs| && s.procs[j] == Sweeping(SweepIdle(false)) && s.w.queue != [] && s.w.queue[0] == id
    requires InState(s.w.jobs, id, Pending) && s.w.jobs[id].kind == MP4 && id !in s.w.leaked
    requires s.w.jobs[id].rawKey in s.w.urls && s.w.now < s.w.urls[s.w.jobs[id].rawKey]
    requires s.w.jobs[id].rawKey in s.w.objs && first in s.w.objs[s.w.jobs[id].rawKey].renditions
    requires Rendition(id, first) in s.w.objs && Single(video, name) && name != first
    requires s.w.now <= to && s.w.jobs[id].createdAt + RETENTION_TTL + SECOND <= to
    ensures GuardedRun(s, actions) && Runs(s, actions)
    ensures var w := After(s, actions).w;
      Rendition(id, first) in w.objs && id !in w.jobs && id !in w.leaked && id in w.tampered
  {
    var made, t := TamperedRun(s, i, id, name, video);
    var swept, w' := ExpiresSingle(t, j, to, id, name);
    GoesOn(s, made, t, swept, After(t, swept));
    actions := made + swept;
  }
}
