/** Completed means downloadable. What a record lists is in storage until the job expires, whatever clients
    do to the raw bytes meanwhile, and whenever upload URLs were issued.
*/
module Downloads {

  import opened Timestamps
  import opened Jobs
  import opened Lifecycle
  import opened Sessions
  import opened Ownership
  import opened Objects
  import Safety

  // ---------- The invariant ----------

  /** Some one content was published under the record. */
  ghost predicate Kept(objs: map<Key, Video>, now: int, rec: Record) {
    rec.status == Completed && Retained(now, rec) ==> exists v: Video :: Published(objs, rec, v)
  }

  ghost predicate ProcKept(w: World, p: Proc) {
    match p
    case Working(WorkUpload(rec, video, left)) =>
      && (forall k :: k in left ==> k in Uploads(rec.kind, rec.id, video))
      && (forall k :: k in Uploads(rec.kind, rec.id, video) ==> k in left || (k in w.objs && w.objs[k] == video))
    case Working(WorkFinish(rec, video)) => Published(w.objs, rec, video)
    case Sweeping(z) => Retiring(z) ==> Expiring(w.now, z.todo)
    case _ => true
  }

  ghost predicate WorldKept(w: World) {
    forall id :: id in w.jobs ==> Kept(w.objs, w.now, w.jobs[id])
  }

  ghost predicate KeptInv(s: State) {
    WorldKept(s.w) && forall j :: 0 <= j < |s.procs| ==> ProcKept(s.w, s.procs[j])
  }

  // ---------- Frames ----------

  /** What workers made for id is the same in both. */
  ghost predicate SameFiles(objs: map<Key, Video>, objs': map<Key, Video>, id: Id) {
    && (forall k :: k in objs && k.id == id && !k.Raw? ==> k in objs' && objs'[k] == objs[k])
    && (forall k :: k in objs' && k.id == id && !k.Raw? ==> k in objs)
  }

  lemma PublishedFrame(objs: map<Key, Video>, objs': map<Key, Video>, rec: Record, v: Video)
    requires Published(objs, rec, v) && SameFiles(objs, objs', rec.id)
    ensures Published(objs', rec, v)
  {
  }

  lemma KeptFrame(w: World, w': World, rec: Record)
    requires Kept(w.objs, w.now, rec) && SameFiles(w.objs, w'.objs, rec.id) && w.now <= w'.now
    ensures Kept(w'.objs, w'.now, rec)
  {
    if rec.status == Completed && Retained(w'.now, rec) {
      var v: Video :| Published(w.objs, rec, v);
      PublishedFrame(w.objs, w'.objs, rec, v);
    }
  }

  lemma ProcFrame(w: World, w': World, p: Proc)
    requires ProcKept(w, p) && w.now <= w'.now
    requires p.Working? && WorkerId(p.worker).Some? ==> SameFiles(w.objs, w'.objs, WorkerId(p.worker).value)
    ensures ProcKept(w', p)
  {
    match p
    case Working(WorkFinish(rec, video)) => PublishedFrame(w.objs, w'.objs, rec, video);
    case _ =>
  }

  // ---------- Who changes files ----------

  /** The job whose files a step may change: a worker's uploads, or the sweep's head. */
  predicate Writes(p: Proc, id: Id) {
    match p
    case Working(WorkUpload(rec, _, _)) => rec.id == id
    case Sweeping(z) => (z.SweepTree? || z.SweepOutputs?) && z.todo != [] && z.todo[0].id == id
    case _ => false
  }

  lemma ValidatorWritesNone(w: World, v: Validator, r: Reply, id: Id)
    requires ValidatorKnown(w.used, w.jobs, v)
    ensures SameFiles(w.objs, StepValidator(w, v, r).w.objs, id)
  {
  }

  lemma WorkerWritesOwn(w: World, k: Worker, r: Reply, id: Id)
    requires WorkerKnown(w.used, w.jobs, k) && !Writes(Working(k), id)
    ensures SameFiles(w.objs, StepWorker(w, k, r).w.objs, id)
  {
    if k.WorkUpload? && k.left != [] {
      assert k.left[0] in k.left;
    }
  }

  lemma SweeperWritesHead(w: World, z: Sweeper, r: Reply, id: Id)
    requires SweeperKnown(w.used, w.jobs, z) && !Writes(Sweeping(z), id)
    ensures SameFiles(w.objs, StepSweeper(w, z, r).w.objs, id)
  {
    if !z.SweepIdle? && z.todo != [] {
      assert z.todo[0] in z.todo;
    }
  }

  lemma OthersFilesStay(w: World, p: Proc, r: Reply, id: Id)
    requires ProcKnown(w.used, w.jobs, p) && !Writes(p, id)
    ensures SameFiles(w.objs, StepProc(w, p, r).w.objs, id)
  {
    match p
    case Checking(v) => ValidatorWritesNone(w, v, r, id);
    case Working(k) => WorkerWritesOwn(w, k, r, id);
    case Sweeping(z) => SweeperWritesHead(w, z, r, id);
    case _ => QuietObjs(w, p, r);
  }

  // ---------- Each goroutine's step ----------

  /** Only a worker's last write completes a job, and with what it has published. */
  lemma CompletesPublished(w: World, p: Proc, r: Reply, id: Id)
    requires ProcOk(w.jobs, w.issued, p) && HeadCurrent(w.jobs, Waiting(p)) && GuardHolds(w.jobs, p)
    requires RecordsOk(w.jobs, w.issued)
    requires id in w.jobs && id in StepProc(w, p, r).w.jobs && StepProc(w, p, r).w.jobs[id].status == Completed
    ensures StepProc(w, p, r).w.jobs[id] == w.jobs[id] ||
      (p.Working? && p.worker.WorkFinish? && StepProc(w, p, r).w.jobs[id] == p.worker.rec
       && StepProc(w, p, r).w.objs == w.objs)
  {
    if w.jobs[id].status == Completed {
      Safety.ProcLawful(w, p, r, id);
    } else {
      match p
      case Checking(v) => ValidatorCompletesNone(w, v, r, id);
      case Working(k) => WorkerCompletes(w, k, r, id);
      case Completing(h) => HandlerCompletesNone(w, h, r, id);
      case Recovering(c) => RecoveryCompletesNone(w, c, r, id);
      case _ =>
    }
  }

  lemma ValidatorCompletesNone(w: World, v: Validator, r: Reply, id: Id)
    requires ValidatorOk(w.jobs, v) && id in w.jobs && w.jobs[id].status != Completed
    ensures id in StepValidator(w, v, r).w.jobs ==> StepValidator(w, v, r).w.jobs[id].status != Completed
  {
  }

  lemma WorkerCompletes(w: World, k: Worker, r: Reply, id: Id)
    requires WorkerOk(w.jobs, k) && id in w.jobs && w.jobs[id].status != Completed
    requires id in StepWorker(w, k, r).w.jobs && StepWorker(w, k, r).w.jobs[id].status == Completed
    ensures k.WorkFinish? && StepWorker(w, k, r).w.jobs[id] == k.rec && StepWorker(w, k, r).w.objs == w.objs
  {
  }

  lemma HandlerCompletesNone(w: World, h: Handler, r: Reply, id: Id)
    requires HandlerOk(w.issued, h) && id in w.jobs && w.jobs[id].status != Completed
    ensures id in StepHandler(w, h, r).w.jobs ==> StepHandler(w, h, r).w.jobs[id].status != Completed
  {
  }

  lemma RecoveryCompletesNone(w: World, c: Recovery, r: Reply, id: Id)
    requires id in w.jobs && w.jobs[id].status != Completed
    ensures id in StepRecovery(w, c, r).w.jobs ==> StepRecovery(w, c, r).w.jobs[id].status != Completed
  {
  }

  /** A sweep only deletes files of jobs that have expired. */
  lemma SweepsExpired(w: World, z: Sweeper, id: Id)
    requires SweeperOk(w.jobs, z) && ProcKept(w, Sweeping(z)) && Writes(Sweeping(z), id) && id in w.jobs
    ensures Terminal(w.jobs[id].status) && !Retained(w.now, w.jobs[id])
  {
    assert z.todo[0] in z.todo;
  }

  /** What a goroutine needs to know before its step. */
  ghost predicate Set(w: World, p: Proc) {
    && WorldKnown(w) && RecordsOk(w.jobs, w.issued) && WorldKept(w)
    && ProcOk(w.jobs, w.issued, p) && ProcKnown(w.used, w.jobs, p) && ProcKept(w, p)
    && HeadCurrent(w.jobs, Waiting(p)) && GuardHolds(w.jobs, p)
  }

  lemma WorldKeptStep(w: World, p: Proc, r: Reply)
    requires Set(w, p)
    ensures WorldKept(StepProc(w, p, r).w)
  {
    var w' := StepProc(w, p, r).w;
    NowStays(w, p, r);
    forall id | id in w'.jobs
      ensures Kept(w'.objs, w'.now, w'.jobs[id])
    {
      Safety.NoneBorn(w, p, r, id);
      if w'.jobs[id].status == Completed && Retained(w'.now, w'.jobs[id]) {
        CompletesPublished(w, p, r, id);
        if w'.jobs[id] == w.jobs[id] {
          StillPublished(w, p, r, id);
        }
      }
    }
  }

  lemma SweeperNow(w: World, z: Sweeper, r: Reply)
    ensures StepSweeper(w, z, r).w.now == w.now
  {
  }

  lemma WorkerNow(w: World, k: Worker, r: Reply)
    ensures StepWorker(w, k, r).w.now == w.now
  {
  }

  lemma ValidatorNow(w: World, v: Validator, r: Reply)
    ensures StepValidator(w, v, r).w.now == w.now
  {
  }

  lemma NowStays(w: World, p: Proc, r: Reply)
    ensures StepProc(w, p, r).w.now == w.now
  {
    match p
    case Checking(v) => ValidatorNow(w, v, r);
    case Working(k) => WorkerNow(w, k, r);
    case Sweeping(z) => SweeperNow(w, z, r);
    case _ =>
  }

  lemma StillPublished(w: World, p: Proc, r: Reply, id: Id)
    requires Set(w, p) && id in w.jobs && w.jobs[id].status == Completed && Retained(w.now, w.jobs[id])
    ensures Kept(StepProc(w, p, r).w.objs, w.now, w.jobs[id])
  {
    if Writes(p, id) && p.Sweeping? {
      SweepsExpired(w, p.sweeper, id);
    }
    assert !Writes(p, id);
    OthersFilesStay(w, p, r, id);
    KeptFrame(w, w.(objs := StepProc(w, p, r).w.objs), w.jobs[id]);
  }

  lemma WorkerKept(w: World, k: Worker, r: Reply)
    requires WorkerOk(w.jobs, k) && ProcKept(w, Working(k))
    ensures KeepsOut(StepWorker(w, k, r))
  {
    if k.WorkUpload? && k.left != [] {
      assert k.left == [k.left[0]] + k.left[1..];
    }
  }

  lemma SweeperKept(w: World, z: Sweeper, r: Reply)
    requires SweeperAnswers(w, z, r) && ProcKept(w, Sweeping(z))
    ensures KeepsOut(StepSweeper(w, z, r))
  {
    if z.SweepIdle? {
      Conservation.ListedByAge(w, z, r);
    } else if z.todo != [] {
      assert forall x :: x in z.todo[1..] ==> x in z.todo;
    }
  }

  /** What this step leaves, when it is no worker's and no sweeper's. */
  ghost predicate KeepsOut(o: Out) {
    ProcKept(o.w, o.me) && forall q :: q in o.spawned ==> ProcKept(o.w, q)
  }

  lemma CreatorKept(w: World, c: Creator, r: Reply)
    ensures KeepsOut(StepCreator(w, c, r))
  {
  }

  lemma HandlerKept(w: World, h: Handler, r: Reply)
    ensures KeepsOut(StepHandler(w, h, r))
  {
  }

  lemma ValidatorKept(w: World, v: Validator, r: Reply)
    ensures KeepsOut(StepValidator(w, v, r))
  {
  }

  lemma RecoveryKept(w: World, c: Recovery, r: Reply)
    ensures KeepsOut(StepRecovery(w, c, r))
  {
  }

  lemma OwnKept(w: World, p: Proc, r: Reply)
    requires Set(w, p) && Answers(w, p, r)
    ensures KeepsOut(StepProc(w, p, r))
  {
    match p
    case Finished =>
    case Creating(c) => CreatorKept(w, c, r);
    case Completing(h) => HandlerKept(w, h, r);
    case Checking(v) => ValidatorKept(w, v, r);
    case Working(k) => WorkerKept(w, k, r);
    case Recovering(c) => RecoveryKept(w, c, r);
    case Sweeping(z) => SweeperKept(w, z, r);
  }

  /** Another goroutine's worker: nobody else writes its job's files. */
  lemma OthersKept(s: State, i: nat, j: nat, r: Reply)
    requires OwnInv(s) && SessionInv(s) && KeptInv(s) && i < |s.procs| && j < |s.procs| && i != j
    ensures ProcKept(StepProc(s.w, s.procs[i], r).w, s.procs[j])
  {
    var p, q := s.procs[i], s.procs[j];
    assert ProcOk(s.w.jobs, s.w.issued, p) && ProcKnown(s.w.used, s.w.jobs, p);
    NowStays(s.w, p, r);
    if q.Working? && WorkerId(q.worker).Some? {
      var id := WorkerId(q.worker).value;
      assert ClaimedBy(s, j, id) && !ClaimedBy(s, i, id);
      ClaimStatus(s, j, id);
      if Writes(p, id) && p.Sweeping? {
        SweepsExpired(s.w, p.sweeper, id);
      }
      assert !Writes(p, id);
      OthersFilesStay(s.w, p, r, id);
    }
    ProcFrame(s.w, StepProc(s.w, p, r).w, q);
  }

  lemma RunKept(s: State, i: nat, r: Reply)
    requires OwnInv(s) && SessionInv(s) && KeptInv(s) && Enabled(s, Run(i, r)) && Guarded(s, Run(i, r))
    ensures KeptInv(StepRun(s, i, r))
  {
    var t := StepRun(s, i, r);
    Safety.WaitingHead(s);
    assert ProcOk(s.w.jobs, s.w.issued, s.procs[i]) && ProcKnown(s.w.used, s.w.jobs, s.procs[i]);
    WorldKeptStep(s.w, s.procs[i], r);
    OwnKept(s.w, s.procs[i], r);
    forall j | 0 <= j < |t.procs|
      ensures ProcKept(t.w, t.procs[j])
    {
      if j < |s.procs| && j != i {
        OthersKept(s, i, j, r);
      }
    }
  }

  /** Steps that change no file: the clock, clients and requests. */
  lemma EnvironmentKept(s: State, w': World)
    requires KeptInv(s) && s.w.now <= w'.now && (forall id :: SameFiles(s.w.objs, w'.objs, id))
    requires forall id :: id in w'.jobs ==> (id in s.w.jobs && w'.jobs[id] == s.w.jobs[id]) || w'.jobs[id].status == Uploading
    ensures WorldKept(w') && forall j :: 0 <= j < |s.procs| ==> ProcKept(w', s.procs[j])
  {
    forall id | id in w'.jobs
      ensures Kept(w'.objs, w'.now, w'.jobs[id])
    {
      if w'.jobs[id].status != Uploading {
        KeptFrame(s.w, w', s.w.jobs[id]);
      }
    }
    forall j | 0 <= j < |s.procs|
      ensures ProcKept(w', s.procs[j])
    {
      ProcFrame(s.w, w', s.procs[j]);
    }
  }

  lemma KeptStep(s: State, a: Action)
    requires OwnInv(s) && SessionInv(s) && KeptInv(s) && Enabled(s, a) && Guarded(s, a)
    ensures KeptInv(Next(s, a))
  {
    match a
    case Run(i, r) => RunKept(s, i, r);
    case Crash(_) =>
    case ClientPut(key, _) =>
      assert KnownKey(s.w.used, s.w.jobs, key);
      EnvironmentKept(s, Next(s, a).w);
    case _ => EnvironmentKept(s, Next(s, a).w);
  }

  // ---------- Main result ----------

  lemma {:induction false} KeptRun(s: State, actions: seq<Action>)
    requires OwnInv(s) && SessionInv(s) && KeptInv(s) && GuardedRun(s, actions)
    ensures Runs(s, actions) && KeptInv(After(s, actions))
    decreases |actions|
  {
    if actions != [] {
      OwnStep(s, actions[0]);
      SessionStep(s, actions[0]);
      KeptStep(s, actions[0]);
      KeptRun(Next(s, actions[0]), actions[1..]);
    }
  }

  /** Completed means downloadable: in every state of every guarded run, a completed job that is not yet 48
      hours old (less the second by which the listing may err) has all its objects, made from one and the
      same content. Crashes, failed uploads, second runs and changes of the raw bytes may have come
      before, or come after. */
  lemma CompletedIsDownloadable(workers: nat, now: Instant, actions: seq<Action>, id: Id)
    requires GuardedRun(Initial(workers, now), actions)
    ensures Runs(Initial(workers, now), actions)
    ensures var w := After(Initial(workers, now), actions).w;
      id in w.jobs && w.jobs[id].status == Completed && Retained(w.now, w.jobs[id]) ==>
        exists v: Video :: Published(w.objs, w.jobs[id], v) && Playable(w.objs, w.jobs[id], v)
  {
    InitialOk(workers, now);
    KeptRun(Initial(workers, now), actions);
    var w := After(Initial(workers, now), actions).w;
    if id in w.jobs && w.jobs[id].status == Completed && Retained(w.now, w.jobs[id]) {
      var v: Video :| Published(w.objs, w.jobs[id], v);
      PublishedIsPlayable(w.objs, w.jobs[id], v);
    }
  }
}
