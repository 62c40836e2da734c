/** The one thing cleanup leaves behind: the renditions that a failed MP4 job had already uploaded. Here is
    exactly when, and a run that does it.
*/
module Orphans {

  import opened Wrappers
  import opened Timestamps
  import opened Jobs
  import opened Lifecycle
  import opened Sessions
  import opened Ownership
  import opened Conservation
  import opened Objects
  import Safety

  // ---------- The invariant ----------

  /** What the history of uploads says about storage: nothing else was produced; and what an MP4 job
      uploaded stays while it is not completed, and for ever once it was dropped as failed. */
  ghost predicate WorldMade(w: World) {
    && (forall k :: k in w.objs && !k.Raw? ==> k in w.made)
    && (forall k :: k in w.made ==> !k.Raw? && k.id in w.used)
    && (forall k :: k in w.made && k.Rendition? && k.id in w.jobs && w.jobs[k.id].status != Completed ==> k in w.objs)
    && (forall id :: id in w.leaked ==> id in w.used && id !in w.jobs)
    && (forall k :: k in w.made && k.Rendition? && k.id in w.leaked ==> k in w.objs)
  }

  /** Only completed jobs list outputs, and none of those was dropped while failed. */
  ghost predicate TodoMade(leaked: set<Id>, todo: seq<Record>) {
    forall r :: r in todo ==> if r.status == Completed then r.id !in leaked else r.outputs == []
  }

  ghost predicate SweeperMade(leaked: set<Id>, z: Sweeper) {
    match z
    case SweepIdle(_) => true
    case SweepRaw(stale, todo) => !stale ==> TodoMade(leaked, todo)
    case SweepTree(todo) => TodoMade(leaked, todo)
    case SweepOutputs(todo, names) =>
      TodoMade(leaked, todo) && (todo != [] && todo[0].status != Completed ==> names == [])
    case SweepDrop(stale, todo) => !stale ==> TodoMade(leaked, todo)
  }

  ghost predicate ProcMade(leaked: set<Id>, p: Proc) {
    p.Sweeping? ==> SweeperMade(leaked, p.sweeper)
  }

  ghost predicate MadeInv(s: State) {
    WorldMade(s.w) && forall j :: 0 <= j < |s.procs| ==> ProcMade(s.w.leaked, s.procs[j])
  }

  // ---------- Each goroutine's step ----------

  /** A step that only writes records, by the status graph. */
  lemma RecordsMade(w: World, w': World)
    requires WorldMade(w) && w'.objs == w.objs && w'.made == w.made && w'.leaked == w.leaked && w'.used == w.used
    requires w'.jobs.Keys <= w.jobs.Keys
    requires forall id :: id in w'.jobs && w.jobs[id].status == Completed ==> w'.jobs[id].status == Completed
    ensures WorldMade(w')
  {
  }

  lemma RemovedMade(w: World, w': World)
    requires WorldMade(w) && w'.jobs == w.jobs && w'.made == w.made && w'.leaked == w.leaked && w'.used == w.used
    requires forall k :: k in w'.objs ==> k in w.objs
    requires forall k :: k in w.objs && k !in w'.objs && k.Rendition? ==>
      k.id !in w.leaked && (k.id in w.jobs ==> w.jobs[k.id].status == Completed)
    ensures WorldMade(w')
  {
  }

  lemma PutMade(w: World, key: Key, video: Video, r: Reply)
    requires WorldMade(w) && !key.Raw? && key.id in w.used
    ensures WorldMade(Put(w, key, video, r))
  {
  }

  lemma DropMade(w: World, todo: seq<Record>, stale: bool, r: Reply)
    requires WorldMade(w) && todo != [] && Known(w.used, w.jobs, todo[0])
    requires !stale && todo[0].id in w.jobs ==> w.jobs[todo[0].id] == todo[0]
    ensures WorldMade(StepSweeper(w, SweepDrop(stale, todo), r).w)
  {
  }

  lemma ListedMade(w: World, stale: bool, r: Reply)
    requires WorldMade(w) && RecordsOk(w.jobs, w.issued) && r.Listed? && SweeperAnswers(w, SweepIdle(stale), r)
    ensures TodoMade(w.leaked, r.rows) || stale
  {
    if !stale {
      forall rec | rec in r.rows
        ensures if rec.status == Completed then rec.id !in w.leaked else rec.outputs == []
      {
        assert rec.id in w.jobs && RecordOk(w.issued, rec.id, rec);
      }
    }
  }

  ghost predicate MadeOut(w: World, o: Out) {
    WorldMade(o.w) && ProcMade(o.w.leaked, o.me) && forall q :: q in o.spawned ==> !q.Sweeping?
  }

  lemma SweeperMadeStep(w: World, z: Sweeper, r: Reply)
    requires WorldMade(w) && SweeperMade(w.leaked, z) && SweeperAnswers(w, z, r)
    requires SweeperKnown(w.used, w.jobs, z) && SweeperOk(w.jobs, z) && RecordsOk(w.jobs, w.issued)
    ensures MadeOut(w, StepSweeper(w, z, r))
  {
    match z
    case SweepIdle(stale) => ListedMade(w, stale, r);
    case SweepRaw(_, _) => RawMade(w, z, r);
    case SweepTree(_) => TreeMade(w, z, r);
    case SweepOutputs(_, _) => OutputsMade(w, z, r);
    case SweepDrop(_, _) => DroppedMade(w, z, r);
  }

  lemma RestMade(leaked: set<Id>, todo: seq<Record>)
    requires TodoMade(leaked, todo) && todo != []
    ensures todo[0] in todo && TodoMade(leaked, todo[1..])
  {
    assert forall x :: x in todo[1..] ==> x in todo;
  }

  lemma RawMade(w: World, z: Sweeper, r: Reply)
    requires z.SweepRaw? && WorldMade(w) && SweeperMade(w.leaked, z) && SweeperKnown(w.used, w.jobs, z)
    ensures MadeOut(w, StepSweeper(w, z, r))
  {
    if z.todo != [] {
      assert z.todo[0] in z.todo;
      RemovedMade(w, StepSweeper(w, z, r).w);
      if !z.stale { RestMade(w.leaked, z.todo); }
    }
  }

  lemma TreeMade(w: World, z: Sweeper, r: Reply)
    requires z.SweepTree? && WorldMade(w) && SweeperMade(w.leaked, z)
    ensures MadeOut(w, StepSweeper(w, z, r))
  {
    if z.todo != [] {
      RemovedMade(w, StepSweeper(w, z, r).w);
      RestMade(w.leaked, z.todo);
    }
  }

  lemma OutputsMade(w: World, z: Sweeper, r: Reply)
    requires z.SweepOutputs? && WorldMade(w) && SweeperMade(w.leaked, z) && SweeperOk(w.jobs, z)
    ensures MadeOut(w, StepSweeper(w, z, r))
  {
    if z.todo != [] {
      RestMade(w.leaked, z.todo);
      RemovedMade(w, StepSweeper(w, z, r).w);
    }
  }

  lemma DroppedMade(w: World, z: Sweeper, r: Reply)
    requires z.SweepDrop? && WorldMade(w) && SweeperMade(w.leaked, z)
    requires SweeperKnown(w.used, w.jobs, z) && SweeperOk(w.jobs, z)
    ensures MadeOut(w, StepSweeper(w, z, r))
  {
    if z.todo != [] {
      assert z.todo[0] in z.todo;
      DropMade(w, z.todo, z.stale, r);
      if !z.stale {
        RestMade(w.leaked, z.todo);
        LeakSpares(w, StepSweeper(w, z, r).w.leaked, z.todo[0], z.todo);
      }
    }
  }

  /** A listing keeps its form when a failed job is dropped. */
  lemma LeakSpares(w: World, leaked: set<Id>, rec: Record, todo: seq<Record>)
    requires TodoMade(w.leaked, todo) && TodoOk(w.jobs, false, todo)
    requires leaked == w.leaked || (leaked == w.leaked + {rec.id} && rec.id in w.jobs && w.jobs[rec.id].status == Failed)
    ensures TodoMade(leaked, todo) && (todo != [] ==> TodoMade(leaked, todo[1..]))
  {
    if todo != [] {
      assert forall x :: x in todo[1..] ==> x in todo;
    }
  }

  /** A step that touches records at most. */
  ghost predicate Unmade(w: World, o: Out) {
    && o.w.objs == w.objs && o.w.made == w.made && o.w.leaked == w.leaked && o.w.used == w.used
    && !o.me.Sweeping? && forall q :: q in o.spawned ==> !q.Sweeping?
  }

  lemma CreatorUnmade(w: World, c: Creator, r: Reply)
    ensures Unmade(w, StepCreator(w, c, r))
  {
  }

  lemma HandlerUnmade(w: World, h: Handler, r: Reply)
    ensures Unmade(w, StepHandler(w, h, r))
  {
  }

  lemma RecoveryUnmade(w: World, c: Recovery, r: Reply)
    ensures Unmade(w, StepRecovery(w, c, r))
  {
  }

  lemma WorkerUnmade(w: World, k: Worker, r: Reply)
    requires !k.WorkUpload? || k.left == []
    ensures Unmade(w, StepWorker(w, k, r))
  {
  }

  lemma ValidatorUnmade(w: World, v: Validator, r: Reply)
    requires !v.ValReject? && !v.ValUndoRaw?
    ensures Unmade(w, StepValidator(w, v, r))
  {
  }

  lemma UnmadeKeeps(w: World, p: Proc, r: Reply)
    requires Ready(w, p) && WorldMade(w) && Unmade(w, StepProc(w, p, r))
    ensures MadeOut(w, StepProc(w, p, r))
  {
    var w' := StepProc(w, p, r).w;
    forall id | id in w'.jobs
      ensures id in w.jobs && (w.jobs[id].status == Completed ==> w'.jobs[id].status == Completed)
    {
      Safety.NoneBorn(w, p, r, id);
      Safety.ProcLawful(w, p, r, id);
    }
    RecordsMade(w, w');
  }

  lemma WorkerMade(w: World, k: Worker, r: Reply)
    requires Ready(w, Working(k)) && WorldMade(w)
    ensures MadeOut(w, StepWorker(w, k, r))
  {
    if k.WorkUpload? && k.left != [] {
      UploadMade(w, k, r);
    } else {
      WorkerUnmade(w, k, r);
      UnmadeKeeps(w, Working(k), r);
    }
  }

  lemma UploadMade(w: World, k: Worker, r: Reply)
    requires k.WorkUpload? && k.left != [] && WorldMade(w) && WorkerKnown(w.used, w.jobs, k)
    ensures MadeOut(w, StepWorker(w, k, r))
  {
    assert k.left[0] in k.left;
    PutMade(w, k.left[0], k.video, r);
  }

  lemma ValidatorMade(w: World, v: Validator, r: Reply)
    requires Ready(w, Checking(v)) && WorldMade(w)
    ensures MadeOut(w, StepValidator(w, v, r))
  {
    if v.ValReject? || v.ValUndoRaw? {
      RemovedMade(w, StepValidator(w, v, r).w);
    } else {
      ValidatorUnmade(w, v, r);
      UnmadeKeeps(w, Checking(v), r);
    }
  }

  lemma OthersMade(w: World, p: Proc, r: Reply)
    requires Ready(w, p) && WorldMade(w) && (p.Creating? || p.Completing? || p.Recovering?)
    ensures MadeOut(w, StepProc(w, p, r))
  {
    match p
    case Creating(c) => CreatorUnmade(w, c, r);
    case Completing(h) => HandlerUnmade(w, h, r);
    case Recovering(c) => RecoveryUnmade(w, c, r);
    UnmadeKeeps(w, p, r);
  }

  lemma ProcMadeStep(w: World, p: Proc, r: Reply)
    requires Ready(w, p) && WorldMade(w) && ProcMade(w.leaked, p) && Answers(w, p, r)
    ensures MadeOut(w, StepProc(w, p, r))
  {
    match p
    case Finished =>
    case Checking(v) => ValidatorMade(w, v, r);
    case Working(k) => WorkerMade(w, k, r);
    case Sweeping(z) => SweeperMadeStep(w, z, r);
    case _ => OthersMade(w, p, r);
  }

  lemma WorkerLeaksNone(w: World, k: Worker, r: Reply)
    ensures StepWorker(w, k, r).w.leaked == w.leaked
  {
  }

  lemma ValidatorLeaksNone(w: World, v: Validator, r: Reply)
    ensures StepValidator(w, v, r).w.leaked == w.leaked
  {
  }

  /** Only a sweeper's drop of a failed job adds to the leaked ones. */
  lemma LeaksByDrop(w: World, p: Proc, r: Reply)
    requires ProcOk(w.jobs, w.issued, p)
    ensures Leaks(w, StepProc(w, p, r).w.leaked)
  {
    match p
    case Finished =>
    case Creating(c) => CreatorUnmade(w, c, r);
    case Completing(h) => HandlerUnmade(w, h, r);
    case Checking(v) => ValidatorLeaksNone(w, v, r);
    case Working(k) => WorkerLeaksNone(w, k, r);
    case Recovering(c) => RecoveryUnmade(w, c, r);
    case Sweeping(z) => SweeperLeaks(w, z, r);
  }

  ghost predicate Leaks(w: World, leaked: set<Id>) {
    leaked == w.leaked || exists id :: id in w.jobs && w.jobs[id].status == Failed && leaked == w.leaked + {id}
  }

  lemma SweeperLeaks(w: World, z: Sweeper, r: Reply)
    requires SweeperOk(w.jobs, z)
    ensures Leaks(w, StepSweeper(w, z, r).w.leaked)
  {
    if z.SweepDrop? && z.todo != [] {
      assert z.todo[0] in z.todo;
    }
  }

  lemma OtherSweeperMade(w: World, w': World, p: Proc, r: Reply, q: Proc)
    requires ProcOk(w.jobs, w.issued, p) && w' == StepProc(w, p, r).w
    requires ProcOk(w.jobs, w.issued, q) && ProcMade(w.leaked, q)
    ensures ProcMade(w'.leaked, q)
  {
    LeaksByDrop(w, p, r);
    if w'.leaked != w.leaked && q.Sweeping? && Retiring(q.sweeper) {
      var id :| id in w.jobs && w.jobs[id].status == Failed && w'.leaked == w.leaked + {id};
      LeakSpares(w, w'.leaked, w.jobs[id].(id := id), q.sweeper.todo);
    }
  }

  lemma RunMade(s: State, i: nat, r: Reply)
    requires AllInv(s) && MadeInv(s) && Enabled(s, Run(i, r)) && Guarded(s, Run(i, r))
    ensures MadeInv(StepRun(s, i, r))
  {
    var t := StepRun(s, i, r);
    ReadyToStep(s, i, r);
    ProcMadeStep(s.w, s.procs[i], r);
    forall j | 0 <= j < |t.procs|
      ensures ProcMade(t.w.leaked, t.procs[j])
    {
      if j < |s.procs| && j != i {
        assert ProcOk(s.w.jobs, s.w.issued, s.procs[j]) && ProcOk(s.w.jobs, s.w.issued, s.procs[i]);
        OtherSweeperMade(s.w, t.w, s.procs[i], r, s.procs[j]);
      }
    }
  }

  lemma MadeStep(s: State, a: Action)
    requires AllInv(s) && MadeInv(s) && Enabled(s, a) && Guarded(s, a)
    ensures MadeInv(Next(s, a))
  {
    match a
    case Run(i, r) => RunMade(s, i, r);
    case ClientPut(key, video) => ArrivalMade(s, key, video);
    case Create(_, _, _, _, _) => CreateMade(s, a);
    case _ =>
  }

  lemma ArrivalMade(s: State, key: Key, video: Video)
    requires AllInv(s) && MadeInv(s) && Enabled(s, ClientPut(key, video))
    ensures MadeInv(Next(s, ClientPut(key, video)))
  {
    assert KnownKey(s.w.used, s.w.jobs, key);
  }

  lemma CreateMade(s: State, a: Action)
    requires MadeInv(s) && a.Create? && Enabled(s, a)
    ensures MadeInv(Next(s, a))
  {
  }

  lemma {:induction false} MadeRun(s: State, actions: seq<Action>)
    requires AllInv(s) && MadeInv(s) && GuardedRun(s, actions)
    ensures Runs(s, actions) && AllInv(After(s, actions)) && MadeInv(After(s, actions))
    decreases |actions|
  {
    if actions != [] {
      OwnStep(s, actions[0]);
      SessionStep(s, actions[0]);
      ObjStep(s, actions[0]);
      MadeStep(s, actions[0]);
      MadeRun(Next(s, actions[0]), actions[1..]);
    }
  }

  // ---------- Main results ----------

  /** Exactly what is orphaned of what workers made: in every state of every guarded run, for a job whose raw
      bytes nobody tampered with, it has no record if and only if it is a rendition that was uploaded for a
      job dropped while failed. */
  lemma OrphansExactly(workers: nat, now: Instant, actions: seq<Action>, key: Key)
    requires GuardedRun(Initial(workers, now), actions)
    ensures Runs(Initial(workers, now), actions)
    ensures var w := After(Initial(workers, now), actions).w;
      !key.Raw? && key.id !in w.tampered ==>
        (key in w.objs && key.id !in w.jobs <==> key in w.made && key.Rendition? && key.id in w.leaked)
  {
    InitialAll(workers, now);
    MadeRun(Initial(workers, now), actions);
    NoOrphans(workers, now, actions, key);
  }

  /** The same for every object, raw ones included, where URLs are issued in time. */
  lemma AllOrphansExactly(workers: nat, now: Instant, actions: seq<Action>, key: Key)
    requires GuardedRun(Initial(workers, now), actions) && PunctualRun(Initial(workers, now), actions)
    ensures Runs(Initial(workers, now), actions)
    ensures var w := After(Initial(workers, now), actions).w;
      key.id !in w.tampered ==>
        (key in w.objs && key.id !in w.jobs <==> key in w.made && key.Rendition? && key.id in w.leaked)
  {
    InitialAll(workers, now);
    MadeRun(Initial(workers, now), actions);
    OrphansExactly(workers, now, actions, key);
    RawObjectsHaveRecords(workers, now, actions, key);
  }

  /** What dropping an expired job leaves of what workers made for it: something if and only if it is an MP4
      job that failed after one of its renditions had been uploaded. Its raw object is gone too, where URLs
      were issued in time. */
  lemma DropLeavesExactly(s: State, i: nat, todo: seq<Record>)
    requires AllInv(s) && MadeInv(s) && i < |s.procs| && s.procs[i] == Sweeping(SweepDrop(false, todo))
    requires todo != [] && todo[0].id in s.w.jobs && todo[0].id !in s.w.tampered
    ensures var t, rec := StepRun(s, i, Ok), todo[0];
      (exists k :: k in t.w.objs && k.id == rec.id && !k.Raw?)
      <==> rec.kind == MP4 && rec.status == Failed && exists k :: k in s.w.made && k.Rendition? && k.id == rec.id
    ensures ClockInv(s) ==> forall k :: k in StepRun(s, i, Ok).w.objs && k.id == todo[0].id ==> !k.Raw?
  {
    var t, rec := StepRun(s, i, Ok), todo[0];
    assert rec in todo;
    assert ProcOk(s.w.jobs, s.w.issued, s.procs[i]) && ProcObj(s.w, s.procs[i]);
    assert ProcKnown(s.w.used, s.w.jobs, s.procs[i]);
    assert ObjOk(s.w.objs, s.w.now, rec.id, rec);
    if k :| k in t.w.objs && k.id == rec.id && !k.Raw? {
      assert k in s.w.made;
    }
    if ClockInv(s) {
      assert ProcClock(s.w, s.procs[i]);
    }
  }

  // ---------- A run that does it ----------

  /** Some listing of the jobs that qualify begins with the one in question. */
  lemma Enumerate(jobs: map<Id, Record>, p: Record -> bool, first: Id) returns (rows: seq<Record>)
    requires first in jobs && p(jobs[first]) && forall id :: id in jobs ==> jobs[id].id == id
    ensures DistinctIds(rows) && rows != [] && rows[0] == jobs[first]
    ensures forall r :: r in rows ==> r.id in jobs && jobs[r.id] == r && p(r)
    ensures forall id :: id in jobs && p(jobs[id]) ==> jobs[id] in rows
  {
    rows := [jobs[first]];
    var left := jobs.Keys - {first};
    while left != {}
      invariant left <= jobs.Keys && rows != [] && rows[0] == jobs[first] && DistinctIds(rows)
      invariant forall r :: r in rows ==> r.id in jobs && jobs[r.id] == r && p(r) && r.id !in left
      invariant forall id :: id in jobs && id !in left && p(jobs[id]) ==> jobs[id] in rows
      decreases left
    {
      var id :| id in left;
      left := left - {id};
      if p(jobs[id]) {
        rows := rows + [jobs[id]];
      }
    }
  }

  /** A run under the guard in which URLs are issued in time and no raw bytes are tampered with. */
  ghost predicate OrderlyRun(s: State, actions: seq<Action>)
    decreases |actions|
  {
    actions == [] ||
    (Enabled(s, actions[0]) && Guarded(s, actions[0]) && PresignInTime(s, actions[0])
     && (actions[0].ClientPut? ==> !Tampers(s.w, actions[0].key, actions[0].video))
     && OrderlyRun(Next(s, actions[0]), actions[1..]))
  }

  lemma Before(s: State, a: Action, t: State, actions: seq<Action>)
    requires Enabled(s, a) && Next(s, a) == t && OrderlyRun(t, actions) && Runs(t, actions)
    requires Guarded(s, a) && PresignInTime(s, a) && (a.ClientPut? ==> !Tampers(s.w, a.key, a.video))
    ensures OrderlyRun(s, [a] + actions) && Runs(s, [a] + actions) && After(s, [a] + actions) == After(t, actions)
  {
    assert ([a] + actions)[1..] == actions;
  }

  /** The sweep of the failed job, from its last call backwards. */
  lemma DropFailed(s: State, j: nat, rows: seq<Record>)
    requires j < |s.procs| && s.procs[j] == Sweeping(SweepDrop(false, rows)) && rows != []
    requires rows[0].kind == MP4 && rows[0].status == Failed && rows[0].id in s.w.jobs
    ensures var actions := [Run(j, Ok)];
      && OrderlyRun(s, actions) && Runs(s, actions) && Gone(s.w, After(s, actions).w, rows[0].id)
  {
    Before(s, Run(j, Ok), Next(s, Run(j, Ok)), []);
  }

  /** The record went, as that of a failed job, and no object. */
  ghost predicate Gone(w: World, w': World, id: Id) {
    w'.objs == w.objs && id !in w'.jobs && id in w'.leaked
  }

  lemma SweepNoOutputs(s: State, j: nat, rows: seq<Record>)
    requires j < |s.procs| && s.procs[j] == Sweeping(SweepOutputs(rows, [])) && rows != []
    requires rows[0].kind == MP4 && rows[0].status == Failed && rows[0].id in s.w.jobs
    ensures var actions := [Run(j, Ok), Run(j, Ok)];
      && OrderlyRun(s, actions) && Runs(s, actions) && Gone(s.w, After(s, actions).w, rows[0].id)
  {
    var t := s.(procs := s.procs[j := Sweeping(SweepDrop(false, rows))]);
    DropFailed(t, j, rows);
    Before(s, Run(j, Ok), t, [Run(j, Ok)]);
    assert [Run(j, Ok)] + [Run(j, Ok)] == [Run(j, Ok), Run(j, Ok)];
  }

  lemma SweepFailedRaw(s: State, j: nat, rows: seq<Record>)
    requires j < |s.procs| && s.procs[j] == Sweeping(SweepRaw(false, rows)) && rows != []
    requires rows[0].kind == MP4 && rows[0].status == Failed && rows[0].masterKey == None && rows[0].outputs == []
    requires rows[0].id in s.w.jobs
    ensures var actions := [Run(j, Ok), Run(j, Ok), Run(j, Ok)];
      && OrderlyRun(s, actions) && Runs(s, actions)
      && Gone(s.w.(objs := s.w.objs - {rows[0].rawKey}), After(s, actions).w, rows[0].id)
  {
    var t := State(s.w.(objs := s.w.objs - {rows[0].rawKey}), s.procs[j := Sweeping(SweepOutputs(rows, []))]);
    SweepNoOutputs(t, j, rows);
    Before(s, Run(j, Ok), t, [Run(j, Ok), Run(j, Ok)]);
    assert [Run(j, Ok)] + [Run(j, Ok), Run(j, Ok)] == [Run(j, Ok), Run(j, Ok), Run(j, Ok)];
  }

  lemma ListsRows(s: State, j: nat, rows: seq<Record>)
    requires j < |s.procs| && s.procs[j] == Sweeping(SweepIdle(false)) && Enabled(s, Run(j, Listed(rows)))
    ensures Next(s, Run(j, Listed(rows))) == s.(procs := s.procs[j := Sweeping(SweepRaw(false, rows))])
    ensures Guarded(s, Run(j, Listed(rows)))
  {
  }

  lemma SweepFailed(s: State, j: nat, rows: seq<Record>)
    requires j < |s.procs| && s.procs[j] == Sweeping(SweepIdle(false)) && rows != []
    requires Enabled(s, Run(j, Listed(rows)))
    requires rows[0].kind == MP4 && rows[0].status == Failed && rows[0].masterKey == None && rows[0].outputs == []
    requires rows[0].id in s.w.jobs
    ensures var actions := Swept(j, rows);
      && OrderlyRun(s, actions) && Runs(s, actions)
      && Gone(s.w.(objs := s.w.objs - {rows[0].rawKey}), After(s, actions).w, rows[0].id)
  {
    var t := s.(procs := s.procs[j := Sweeping(SweepRaw(false, rows))]);
    SweepFailedRaw(t, j, rows);
    ListsRows(s, j, rows);
    Before(s, Run(j, Listed(rows)), t, [Run(j, Ok), Run(j, Ok), Run(j, Ok)]);
    assert [Run(j, Listed(rows))] + [Run(j, Ok), Run(j, Ok), Run(j, Ok)] == Swept(j, rows);
  }

  /** The worker's second upload fails and the job is marked failed. */
  function Fails(worker: nat): seq<Action> {
    [Run(worker, Ok), Run(worker, Error(false)), Run(worker, Ok)]
  }

  /** The sweep lists the job and deletes its raw object, no outputs, and its record. */
  function Swept(sweeper: nat, rows: seq<Record>): seq<Action> {
    [Run(sweeper, Listed(rows)), Run(sweeper, Ok), Run(sweeper, Ok), Run(sweeper, Ok)]
  }

  lemma UploadFails(s: State, i: nat, k: Worker, t: State, tail: seq<Action>)
    requires i < |s.procs| && s.procs[i] == Working(k) && k.WorkUpload? && |k.left| >= 2 && k.rec.id in s.w.jobs
    requires t == State(Failing(s.w, k), s.procs[i := Working(WorkIdle)]) && OrderlyRun(t, tail) && Runs(t, tail)
    ensures OrderlyRun(s, Fails(i) + tail) && Runs(s, Fails(i) + tail)
    ensures After(s, Fails(i) + tail) == After(t, tail)
  {
    var w1 := Put(s.w, k.left[0], k.video, Ok);
    var s1 := State(w1, s.procs[i := Working(WorkUpload(k.rec, k.video, k.left[1..]))]);
    var s2 := State(w1, s.procs[i := Working(WorkFail(k.rec.(status := Failed)))]);
    Before(s2, Run(i, Ok), t, tail);
    Before(s1, Run(i, Error(false)), s2, [Run(i, Ok)] + tail);
    Before(s, Run(i, Ok), s1, [Run(i, Error(false))] + ([Run(i, Ok)] + tail));
    assert [Run(i, Ok)] + ([Run(i, Error(false))] + ([Run(i, Ok)] + tail)) == Fails(i) + tail;
  }

  /** Storage and records after the first upload worked, the second failed, and the job was marked. */
  function Failing(w: World, k: Worker): World
    requires k.WorkUpload? && k.left != []
  {
    Update(Put(w, k.left[0], k.video, Ok), k.rec.(status := Failed), Ok)
  }

  lemma OldIsExpired(rec: Record, cutoff: Instant)
    requires Terminal(rec.status) && rec.createdAt + SECOND <= cutoff
    ensures Expired(rec, cutoff)
  {
    assert rec.createdAt / SECOND < cutoff / SECOND;
    TextBeforeWithinASecond(rec.createdAt, cutoff);
  }

  lemma AnswersList(w: World, cutoff: Instant, rows: seq<Record>)
    requires w.now == cutoff + RETENTION_TTL && ListsExpired(rows, w.jobs, cutoff)
    ensures SweeperAnswers(w, SweepIdle(false), Listed(rows))
  {
  }

  lemma ListsEnded(w: World, id: Id, cutoff: Instant) returns (rows: seq<Record>)
    requires w.now == cutoff + RETENTION_TTL
    requires id in w.jobs && Terminal(w.jobs[id].status) && w.jobs[id].createdAt + SECOND <= cutoff
    requires forall x :: x in w.jobs ==> w.jobs[x].id == x
    ensures rows != [] && rows[0] == w.jobs[id] && SweeperAnswers(w, SweepIdle(false), Listed(rows))
  {
    OldIsExpired(w.jobs[id], cutoff);
    rows := Enumerate(w.jobs, r => Expired(r, cutoff), id);
    AnswersList(w, cutoff, rows);
  }

  /** A failed MP4 job, from the moment it is old enough. */
  lemma ExpireAndSweep(s: State, j: nat, to: Instant, rec: Record) returns (actions: seq<Action>)
    requires j < |s.procs| && s.procs[j] == Sweeping(SweepIdle(false)) && s.w.now <= to
    requires rec.id in s.w.jobs && s.w.jobs[rec.id] == rec && rec.createdAt + RETENTION_TTL + SECOND <= to
    requires rec.kind == MP4 && rec.status == Failed && rec.masterKey == None && rec.outputs == []
    requires forall x :: x in s.w.jobs ==> s.w.jobs[x].id == x
    ensures OrderlyRun(s, actions) && Runs(s, actions)
    ensures Gone(s.w.(objs := s.w.objs - {rec.rawKey}), After(s, actions).w, rec.id)
  {
    var t := s.(w := s.w.(now := to));
    var rows := ListsEnded(t.w, rec.id, to - RETENTION_TTL);
    SweepFailed(t, j, rows);
    Before(s, Pass(to), t, Swept(j, rows));
    actions := [Pass(to)] + Swept(j, rows);
  }

  /** A failing upload leaks the renditions before it: whenever a worker has at least two renditions left
      to upload, an orderly run leads to a state in which the first is in storage and the job has no
      record. */
  lemma FailedUploadLeaks(s: State, i: nat, j: nat, to: Instant) returns (actions: seq<Action>)
    requires AllInv(s) && i < |s.procs| && s.procs[i].Working? && s.procs[i].worker.WorkUpload?
    requires j < |s.procs| && s.procs[j] == Sweeping(SweepIdle(false))
    requires var k := s.procs[i].worker;
      |k.left| >= 2 && k.rec.id in s.w.jobs && s.w.jobs[k.rec.id].kind == MP4
      && s.w.now <= to && s.w.jobs[k.rec.id].createdAt + RETENTION_TTL + SECOND <= to
    ensures OrderlyRun(s, actions) && Runs(s, actions)
    ensures var key, w := s.procs[i].worker.left[0], After(s, actions).w;
      key in w.objs && key.id !in w.jobs && key.id in w.leaked
  {
    var k := s.procs[i].worker;
    var failed := k.rec.(status := Failed);
    UploaderKnown(s, i);
    var t := State(Failing(s.w, k), s.procs[i := Working(WorkIdle)]);
    var tail := ExpireAndSweep(t, j, to, failed);
    UploadFails(s, i, k, t, tail);
    actions := Fails(i) + tail;
  }

  lemma UploaderKnown(s: State, i: nat)
    requires AllInv(s) && i < |s.procs| && s.procs[i].Working? && s.procs[i].worker.WorkUpload?
    requires s.procs[i].worker.left != [] && s.procs[i].worker.rec.id in s.w.jobs
    ensures var k := s.procs[i].worker;
      k.left[0].id == k.rec.id && !k.left[0].Raw? && Blank(k.rec) && SameSession(k.rec, s.w.jobs[k.rec.id])
      && k.rec.rawKey.Raw? && forall x :: x in s.w.jobs ==> s.w.jobs[x].id == x
  {
    var k := s.procs[i].worker;
    assert ProcOk(s.w.jobs, s.w.issued, s.procs[i]) && ProcKnown(s.w.used, s.w.jobs, s.procs[i]);
    assert k.left[0] in k.left;
  }
}
