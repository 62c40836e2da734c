/** Files and records: a completed job can be downloaded until it expires, and cleaning a job up
    leaves nothing of it behind, through crashes, partial uploads and second runs.
*/
module Objects {

  import opened Timestamps
  import opened Jobs
  import opened Lifecycle
  import opened Sessions
  import opened Ownership
  import opened Conservation

  // ---------- The invariant ----------

  ghost predicate NoOutputs(objs: map<Key, Video>, id: Id) {
    forall k :: k in objs && k.id == id ==> k.Raw?
  }

  ghost predicate HasUploads(objs: map<Key, Video>, rec: Record, v: Video) {
    forall k :: k in Uploads(rec.kind, rec.id, v) ==> k in objs && objs[k] == v
  }

  /** The record lists what was made from v, and all of it is in storage. */
  ghost predicate Published(objs: map<Key, Video>, rec: Record, v: Video) {
    && rec.outputs == OutputNames(rec.kind, v)
    && rec.masterKey == MasterKey(rec.kind, rec.id)
    && HasUploads(objs, rec, v)
  }

  /** It was made from what the raw object holds. */
  ghost predicate Downloadable(objs: map<Key, Video>, rec: Record) {
    rec.rawKey in objs && Published(objs, rec, objs[rec.rawKey])
  }

  /** Not yet visible to the retention sweep, whose listing errs by less than a second. */
  ghost predicate Retained(now: int, rec: Record) {
    now <= rec.createdAt + RETENTION_TTL - SECOND
  }

  /** Renditions only of MP4 jobs, tree files only of HLS jobs. */
  ghost predicate OfItsKind(objs: map<Key, Video>, id: Id, kind: Kind) {
    forall k :: k in objs && k.id == id ==> k.Raw? || (if kind == MP4 then k.Rendition? else k.TreeFile?)
  }

  ghost predicate RenditionsAmong(objs: map<Key, Video>, id: Id, names: seq<string>) {
    forall k :: k in objs && k.id == id && k.Rendition? ==> k.name in names
  }

  ghost predicate ObjOk(objs: map<Key, Video>, now: int, id: Id, rec: Record) {
    && OfItsKind(objs, id, rec.kind)
    && (rec.status == Uploading || rec.status == Validating ==> NoOutputs(objs, id))
    && (rec.status == Pending || rec.status == Processing ==>
          NoOutputs(objs, id) || (rec.rawKey in objs && RenditionsAmong(objs, id, objs[rec.rawKey].renditions)))
    && (rec.status == Completed ==> rec.masterKey == MasterKey(rec.kind, id))
    && (rec.status == Completed && rec.kind == MP4 ==> RenditionsAmong(objs, id, rec.outputs))
    && (rec.status == Completed && Retained(now, rec) ==> Downloadable(objs, rec))
  }

  /** Nothing a worker made is without a record, but for renditions of MP4 jobs dropped while failed. */
  ghost predicate Accounted(jobs: map<Id, Record>, leaked: set<Id>, k: Key) {
    k.Raw? || k.id in jobs || (k.Rendition? && k.id in leaked)
  }

  ghost predicate WorkerObj(objs: map<Key, Video>, k: Worker) {
    match k
    case WorkTranscode(rec, video, _, _) => rec.rawKey in objs && objs[rec.rawKey] == video
    case WorkUpload(rec, video, left) =>
      && rec.rawKey in objs && objs[rec.rawKey] == video
      && (forall k :: k in left ==> k in Uploads(rec.kind, rec.id, video))
      && (forall k :: k in Uploads(rec.kind, rec.id, video) ==> k in left || (k in objs && objs[k] == video))
    case WorkFinish(rec, video) =>
      rec.rawKey in objs && objs[rec.rawKey] == video && Downloadable(objs, rec)
    case _ => true
  }

  ghost predicate Expiring(now: int, todo: seq<Record>) {
    forall r :: r in todo ==> !Retained(now, r)
  }

  /** The head of a sweep's list, unless its raw bytes were tampered with or it is gone. */
  ghost predicate Current(w: World, todo: seq<Record>) {
    todo != [] && todo[0].id in w.jobs && todo[0].id !in w.tampered
  }

  ghost predicate SweeperObj(w: World, z: Sweeper) {
    match z
    case SweepIdle(_) => true
    case SweepRaw(stale, todo) => !stale ==> Expiring(w.now, todo)
    case SweepTree(todo) => Expiring(w.now, todo) && (Current(w, todo) ==> todo[0].kind == HLS)
    case SweepOutputs(todo, names) =>
      && Expiring(w.now, todo)
      && (Current(w, todo) ==>
            todo[0].kind == MP4 && (todo[0].status == Completed ==> RenditionsAmong(w.objs, todo[0].id, names)))
    case SweepDrop(stale, todo) =>
      !stale ==> Expiring(w.now, todo) && (Current(w, todo) ==> FilesGone(w.objs, todo[0]))
  }

  /** What an expired job's file deletion leaves: nothing, or renditions of a failed MP4 job. */
  ghost predicate FilesGone(objs: map<Key, Video>, rec: Record) {
    NoOutputs(objs, rec.id) || (rec.kind == MP4 && rec.status == Failed)
  }

  ghost predicate ProcObj(w: World, p: Proc) {
    match p
    case Checking(v) => ValidatorId(v) !in w.tampered ==> NoOutputs(w.objs, ValidatorId(v))
    case Working(k) => WorkerId(k).Some? && WorkerId(k).value !in w.tampered ==> WorkerObj(w.objs, k)
    case Sweeping(z) => SweeperObj(w, z)
    case _ => true
  }

  ghost predicate WorldObj(w: World) {
    && (forall id :: id in w.jobs && id !in w.tampered ==> ObjOk(w.objs, w.now, id, w.jobs[id]))
    && (forall k :: k in w.objs && k.id !in w.tampered ==> Accounted(w.jobs, w.leaked, k))
  }

  ghost predicate ObjInv(s: State) {
    WorldObj(s.w) && forall j :: 0 <= j < |s.procs| ==> ProcObj(s.w, s.procs[j])
  }

  // ---------- Frames ----------

  /** The objects of id are the same in both. */
  ghost predicate SameObjs(objs: map<Key, Video>, objs': map<Key, Video>, id: Id) {
    && (forall k :: k in objs && k.id == id ==> k in objs' && objs'[k] == objs[k])
    && (forall k :: k in objs' && k.id == id ==> k in objs)
  }

  ghost predicate Shrinks(objs: map<Key, Video>, objs': map<Key, Video>, id: Id) {
    forall k :: k in objs' && k.id == id ==> k in objs
  }

  /** Only the record and the objects of id may differ. */
  ghost predicate OnlyAbout(w: World, w': World, id: Id) {
    && (forall x :: x != id ==> SameObjs(w.objs, w'.objs, x))
    && (forall x :: x != id ==> (x in w.jobs <==> x in w'.jobs))
    && (forall x :: x != id && x in w.jobs && x in w'.jobs ==> w.jobs[x] == w'.jobs[x])
    && w.leaked <= w'.leaked && w.now <= w'.now && w.tampered <= w'.tampered
  }

  lemma ObjFrame(w: World, w': World, id: Id, rec: Record)
    requires ObjOk(w.objs, w.now, id, rec) && SameObjs(w.objs, w'.objs, id) && w.now <= w'.now
    requires rec.id == id && rec.rawKey.id == id
    ensures ObjOk(w'.objs, w'.now, id, rec)
  {
  }

  lemma WorldFrame(w: World, w': World, id: Id)
    requires WorldKnown(w) && WorldObj(w) && OnlyAbout(w, w', id)
    requires id !in w'.tampered && id in w'.jobs ==> ObjOk(w'.objs, w'.now, id, w'.jobs[id])
    requires id !in w'.tampered ==> forall k :: k in w'.objs && k.id == id ==> Accounted(w'.jobs, w'.leaked, k)
    ensures WorldObj(w')
  {
    forall x | x in w'.jobs && x !in w'.tampered
      ensures ObjOk(w'.objs, w'.now, x, w'.jobs[x])
    {
      if x != id {
        ObjFrame(w, w', x, w.jobs[x]);
      }
    }
    forall k | k in w'.objs && k.id !in w'.tampered
      ensures Accounted(w'.jobs, w'.leaked, k)
    {
      if k.id != id {
        assert SameObjs(w.objs, w'.objs, k.id);
        assert Accounted(w.jobs, w.leaked, k);
      }
    }
  }

  lemma WorkerFrame(w: World, w': World, k: Worker)
    requires WorkerObj(w.objs, k) && WorkerKnown(w.used, w.jobs, k)
    requires WorkerId(k).Some? ==> SameObjs(w.objs, w'.objs, WorkerId(k).value)
    ensures WorkerObj(w'.objs, k)
  {
  }

  /** The retention sweeper at work, as opposed to the one for abandoned uploads. */
  ghost predicate Retiring(z: Sweeper) {
    z.SweepTree? || z.SweepOutputs? || ((z.SweepRaw? || z.SweepDrop?) && !z.stale)
  }

  lemma SweeperFrame(w: World, w': World, z: Sweeper)
    requires SweeperObj(w, z) && w.now <= w'.now && w.tampered <= w'.tampered
    requires Retiring(z) && Current(w', z.todo) ==> Shrinks(w.objs, w'.objs, z.todo[0].id) && z.todo[0].id in w.jobs
    ensures SweeperObj(w', z)
  {
  }

  // ---------- Each goroutine's step ----------

  ghost predicate ObjOut(w: World, o: Out, id: Id) {
    && OnlyAbout(w, o.w, id) && WorldObj(o.w) && ProcObj(o.w, o.me)
    && (forall q :: q in o.spawned ==> ProcObj(o.w, q))
  }

  /** What every step lemma starts from. */
  ghost predicate Sound(w: World) {
    WorldKnown(w) && RecordsOk(w.jobs, w.issued) && WorldObj(w)
  }

  lemma CreatorObj(w: World, c: Creator, r: Reply)
    requires Sound(w) && ProcOk(w.jobs, w.issued, Creating(c)) && CreatorId(c) !in w.tampered
    ensures ObjOut(w, StepCreator(w, c, r), CreatorId(c))
  {
    if CreatorId(c) in w.jobs {
      assert RecordOk(w.issued, CreatorId(c), w.jobs[CreatorId(c)]);
    }
    WorldFrame(w, StepCreator(w, c, r).w, CreatorId(c));
  }

  /** Writing a record changes no object. */
  lemma UpdateObj(w: World, rec: Record, r: Reply)
    requires Sound(w) && rec.id in w.jobs && ObjOk(w.objs, w.now, rec.id, rec)
    requires rec.id !in w.tampered
    ensures var w' := Update(w, rec, r);
      OnlyAbout(w, w', rec.id) && WorldObj(w') && w'.objs == w.objs
      && (NoOutputs(w.objs, rec.id) ==> NoOutputs(w'.objs, rec.id))
  {
    var w' := Update(w, rec, r);
    WorldFrame(w, w', rec.id);
  }

  lemma HandlerObj(w: World, h: Handler, r: Reply)
    requires Sound(w) && HandlerOk(w.issued, h) && HandlerKnown(w.used, w.jobs, h)
    requires h.HandlerMark? ==> StillUploading(w.jobs, h.rec.id)
    requires HandlerId(h) !in w.tampered
    ensures ObjOut(w, StepHandler(w, h, r), HandlerId(h))
  {
    if h.HandlerMark? && h.rec.id in w.jobs {
      assert ObjOk(w.objs, w.now, h.rec.id, w.jobs[h.rec.id]);
      UpdateObj(w, h.rec, r);
    }
  }

  /** Deleting the raw bytes of a job that has produced nothing. */
  lemma RemoveRawObj(w: World, id: Id, key: Key, r: Reply)
    requires Sound(w) && NoOutputs(w.objs, id) && key.Raw? && key.id == id
    requires id in w.jobs ==> w.jobs[id].status != Completed
    requires id !in w.tampered
    ensures var w' := Remove(w, key, r);
      OnlyAbout(w, w', id) && WorldObj(w') && NoOutputs(w'.objs, id)
  {
    WorldFrame(w, Remove(w, key, r), id);
  }

  lemma ValidatorMarks(w: World, v: Validator, r: Reply)
    requires v.ValRejectMark? || v.ValMark? || v.ValUndo?
    requires Sound(w) && ValidatorOk(w.jobs, v) && NoOutputs(w.objs, v.rec.id)
    requires v.rec.id !in w.tampered
    ensures ObjOut(w, StepValidator(w, v, r), v.rec.id)
  {
    assert ObjOk(w.objs, w.now, v.rec.id, w.jobs[v.rec.id]);
    UpdateObj(w, v.rec, r);
  }

  lemma ValidatorRemoves(w: World, v: Validator, r: Reply)
    requires v.ValReject? || v.ValUndoRaw?
    requires Sound(w) && ValidatorOk(w.jobs, v) && ValidatorKnown(w.used, w.jobs, v) && NoOutputs(w.objs, v.id)
    requires v.id !in w.tampered
    ensures ObjOut(w, StepValidator(w, v, r), v.id)
  {
    RemoveRawObj(w, v.id, v.key, r);
  }

  lemma ValidatorReads(w: World, v: Validator, r: Reply)
    requires v.ValProbe? || v.ValRejectLoad? || v.ValLoad? || v.ValEnqueue?
    requires Sound(w) && ValidatorOk(w.jobs, v) && NoOutputs(w.objs, ValidatorId(v))
    requires ValidatorId(v) !in w.tampered
    ensures ObjOut(w, StepValidator(w, v, r), ValidatorId(v))
  {
  }

  lemma ValidatorObj(w: World, v: Validator, r: Reply)
    requires Sound(w) && ValidatorOk(w.jobs, v) && ValidatorKnown(w.used, w.jobs, v) && NoOutputs(w.objs, ValidatorId(v))
    requires ValidatorId(v) !in w.tampered
    ensures ObjOut(w, StepValidator(w, v, r), ValidatorId(v))
  {
    match v
    case ValRejectMark(_) => ValidatorMarks(w, v, r);
    case ValMark(_) => ValidatorMarks(w, v, r);
    case ValUndo(_) => ValidatorMarks(w, v, r);
    case ValReject(_, _) => ValidatorRemoves(w, v, r);
    case ValUndoRaw(_, _, _) => ValidatorRemoves(w, v, r);
    case _ => ValidatorReads(w, v, r);
  }

  /** One more file of a processing job reaches storage. */
  lemma PutObj(w: World, rec: Record, video: Video, key: Key, r: Reply)
    requires Sound(w) && Known(w.used, w.jobs, rec) && InState(w.jobs, rec.id, Processing)
    requires rec.rawKey in w.objs && w.objs[rec.rawKey] == video && key in Uploads(rec.kind, rec.id, video)
    requires rec.id !in w.tampered
    ensures var w' := Put(w, key, video, r);
      OnlyAbout(w, w', rec.id) && WorldObj(w')
  {
    assert ObjOk(w.objs, w.now, rec.id, w.jobs[rec.id]);
    WorldFrame(w, Put(w, key, video, r), rec.id);
  }

  lemma UploadObj(w: World, k: Worker, r: Reply)
    requires k.WorkUpload? && Sound(w) && WorkerOk(w.jobs, k) && WorkerKnown(w.used, w.jobs, k) && WorkerObj(w.objs, k)
    requires k.rec.id !in w.tampered
    ensures ObjOut(w, StepWorker(w, k, r), k.rec.id)
  {
    if k.left != [] {
      assert k.left == [k.left[0]] + k.left[1..];
      PutObj(w, k.rec, k.video, k.left[0], r);
    }
  }

  /** The worker's writes of a new status. */
  lemma MarkObj(w: World, k: Worker, r: Reply)
    requires k.WorkMark? || k.WorkFinish? || k.WorkFail?
    requires Sound(w) && WorkerOk(w.jobs, k) && WorkerKnown(w.used, w.jobs, k) && WorkerObj(w.objs, k)
    requires k.rec.id !in w.tampered
    ensures ObjOut(w, StepWorker(w, k, r), k.rec.id)
  {
    assert ObjOk(w.objs, w.now, k.rec.id, w.jobs[k.rec.id]);
    UpdateObj(w, k.rec, r);
  }

  lemma TickObj(w: World, k: Worker, r: Reply)
    requires k.WorkTranscode? && k.ticks != []
    requires Sound(w) && WorkerOk(w.jobs, k) && WorkerKnown(w.used, w.jobs, k)
    requires k.rec.id !in w.tampered
    ensures var w' := Update(w, k.rec.(progress := Progress.Clamp(k.ticks[0])), r);
      OnlyAbout(w, w', k.rec.id) && WorldObj(w') && w'.objs == w.objs
  {
    assert ObjOk(w.objs, w.now, k.rec.id, w.jobs[k.rec.id]);
    UpdateObj(w, k.rec.(progress := Progress.Clamp(k.ticks[0])), r);
  }

  /** ffmpeg fails, or has nothing more to report. */
  lemma TranscodedObj(w: World, k: Worker, r: Reply)
    requires k.WorkTranscode? && (r.LocalError? || k.ticks == [])
    requires Sound(w) && WorkerObj(w.objs, k)
    ensures ObjOut(w, StepWorker(w, k, r), k.rec.id)
  {
  }

  lemma TickedObj(w: World, k: Worker, r: Reply)
    requires k.WorkTranscode? && !r.LocalError? && k.ticks != []
    requires Sound(w) && WorkerOk(w.jobs, k) && WorkerKnown(w.used, w.jobs, k) && WorkerObj(w.objs, k)
    requires k.rec.id !in w.tampered
    ensures ObjOut(w, StepWorker(w, k, r), k.rec.id)
  {
    TickObj(w, k, r);
  }

  lemma TranscodeObj(w: World, k: Worker, r: Reply)
    requires k.WorkTranscode?
    requires Sound(w) && WorkerOk(w.jobs, k) && WorkerKnown(w.used, w.jobs, k) && WorkerObj(w.objs, k)
    requires k.rec.id !in w.tampered
    ensures ObjOut(w, StepWorker(w, k, r), k.rec.id)
  {
    if r.LocalError? || k.ticks == [] {
      TranscodedObj(w, k, r);
    } else {
      TickedObj(w, k, r);
    }
  }

  lemma WorkerObjStep(w: World, k: Worker, r: Reply)
    requires Sound(w) && WorkerOk(w.jobs, k) && WorkerKnown(w.used, w.jobs, k) && WorkerObj(w.objs, k) && !k.WorkIdle?
    requires WorkerId(k).value !in w.tampered
    ensures ObjOut(w, StepWorker(w, k, r), WorkerId(k).value)
  {
    match k
    case WorkTranscode(_, _, _, _) => TranscodeObj(w, k, r);
    case WorkUpload(_, _, _) => UploadObj(w, k, r);
    case WorkMark(_) => MarkObj(w, k, r);
    case WorkFinish(_, _) => MarkObj(w, k, r);
    case WorkFail(_) => MarkObj(w, k, r);
    case _ =>
  }

  /** The job recovery is about to touch. */
  function RecoveryId(c: Recovery): Id {
    match c
    case RecNext(todo) => if todo == [] then "" else todo[0].id
    case RecEnqueue(rec, _) => rec.id
    case RecFail(todo) => if todo == [] then "" else todo[0].id
    case _ => ""
  }

  predicate RecoveryActs(c: Recovery) {
    c.RecEnqueue? || ((c.RecNext? || c.RecFail?) && c.todo != [])
  }

  lemma ResetObj(w: World, rec: Record, rest: seq<Record>, r: Reply)
    requires Sound(w) && rec.status == Processing && rec.id in w.jobs && w.jobs[rec.id] == rec
    requires rec.id !in w.tampered
    ensures ObjOut(w, RedriveNext(w, rec, rest, r), rec.id)
  {
    assert ObjOk(w.objs, w.now, rec.id, rec);
    UpdateObj(w, rec.(status := Pending), r);
  }

  lemma RedriveObj(w: World, rec: Record, rest: seq<Record>, r: Reply)
    requires Sound(w) && (InFlight(rec.status) ==> rec.id in w.jobs && w.jobs[rec.id] == rec)
    requires rec.id !in w.tampered
    ensures ObjOut(w, RedriveNext(w, rec, rest, r), rec.id)
  {
    if rec.status == Processing {
      ResetObj(w, rec, rest, r);
    } else if rec.status == Validating {
      assert ObjOk(w.objs, w.now, rec.id, rec);
    }
  }

  lemma MissingObj(w: World, todo: seq<Record>, r: Reply)
    requires Sound(w) && HeadCurrent(w.jobs, todo) && todo != [] && todo[0].status == Validating
    requires todo[0].id !in w.tampered
    ensures ObjOut(w, StepRecovery(w, RecFail(todo), r), todo[0].id)
  {
    assert ObjOk(w.objs, w.now, todo[0].id, todo[0]);
    UpdateObj(w, todo[0].(status := Failed), r);
  }

  lemma RecoveryObj(w: World, c: Recovery, r: Reply)
    requires Sound(w) && ProcOk(w.jobs, w.issued, Recovering(c)) && HeadCurrent(w.jobs, Waiting(Recovering(c)))
    requires RecoveryActs(c) && RecoveryId(c) !in w.tampered
    ensures ObjOut(w, StepRecovery(w, c, r), RecoveryId(c))
  {
    match c
    case RecNext(todo) => if todo != [] { RedriveObj(w, todo[0], todo[1..], r); }
    case RecFail(todo) => MissingObj(w, todo, r);
    case _ =>
  }

  // ---------- The sweepers ----------

  /** Deleting objects of a job whose record promises none, or promises them no longer. */
  lemma ShrinkObj(w: World, w': World, id: Id)
    requires Sound(w) && OnlyAbout(w, w', id) && w'.jobs == w.jobs && w'.now == w.now && w'.leaked == w.leaked
    requires forall k :: k in w'.objs ==> k in w.objs && w'.objs[k] == w.objs[k]
    requires id in w.jobs ==>
      w.jobs[id].status == Uploading || (Terminal(w.jobs[id].status) && !(w.jobs[id].status == Completed && Retained(w.now, w.jobs[id])))
    requires id !in w.tampered
    ensures WorldObj(w')
  {
    if id in w.jobs {
      assert ObjOk(w.objs, w.now, id, w.jobs[id]);
      assert ObjOk(w'.objs, w'.now, id, w.jobs[id]);
    }
    WorldFrame(w, w', id);
  }

  /** A terminal record has a master key only if it is an HLS job's. */
  lemma MasterMeansHls(w: World, rec: Record)
    requires Sound(w) && rec.id in w.jobs && w.jobs[rec.id] == rec && rec.masterKey.Some?
    requires rec.id !in w.tampered
    ensures rec.kind == HLS
  {
    assert ObjOk(w.objs, w.now, rec.id, rec) && RecordOk(w.issued, rec.id, rec);
  }

  lemma SweepStaleRawObj(w: World, todo: seq<Record>, r: Reply)
    requires Sound(w) && todo != [] && AllKnown(w.used, w.jobs, todo) && StillUploading(w.jobs, todo[0].id)
    requires todo[0].id !in w.tampered
    ensures ObjOut(w, StepSweeper(w, SweepRaw(true, todo), r), todo[0].id)
  {
    assert todo[0] in todo;
    ShrinkObj(w, StepSweeper(w, SweepRaw(true, todo), r).w, todo[0].id);
  }

  lemma SweepExpiredRawObj(w: World, todo: seq<Record>, r: Reply)
    requires Sound(w) && todo != [] && AllKnown(w.used, w.jobs, todo) && TodoOk(w.jobs, false, todo)
    requires Expiring(w.now, todo)
    requires todo[0].id !in w.tampered
    ensures ObjOut(w, StepSweeper(w, SweepRaw(false, todo), r), todo[0].id)
  {
    var rec := todo[0];
    assert rec in todo;
    RemoveExpired(w, rec, r);
    if rec.id in w.jobs {
      KindOf(w, rec);
    }
  }

  lemma RemoveExpired(w: World, rec: Record, r: Reply)
    requires Sound(w) && rec.rawKey.Raw? && rec.rawKey.id == rec.id && !Retained(w.now, rec)
    requires rec.id in w.jobs ==> w.jobs[rec.id] == rec && Terminal(rec.status)
    requires rec.id !in w.tampered
    ensures var w' := Remove(w, rec.rawKey, r);
      OnlyAbout(w, w', rec.id) && WorldObj(w') && forall k :: k in w'.objs ==> k in w.objs
  {
    ShrinkObj(w, Remove(w, rec.rawKey, r), rec.id);
  }

  /** What the kind and status of an expired record say about its files. */
  lemma KindOf(w: World, rec: Record)
    requires Sound(w) && rec.id in w.jobs && w.jobs[rec.id] == rec
    requires rec.id !in w.tampered
    ensures rec.masterKey.Some? && Terminal(rec.status) ==> rec.kind == HLS
    ensures rec.status == Completed && rec.kind == MP4 ==> RenditionsAmong(w.objs, rec.id, rec.outputs)
  {
    assert ObjOk(w.objs, w.now, rec.id, rec);
    if rec.masterKey.Some? && Terminal(rec.status) {
      MasterMeansHls(w, rec);
    }
  }

  lemma SweepTreeObj(w: World, todo: seq<Record>, r: Reply)
    requires Sound(w) && todo != [] && AllKnown(w.used, w.jobs, todo) && TodoOk(w.jobs, false, todo)
    requires SweeperObj(w, SweepTree(todo))
    requires todo[0].id !in w.tampered
    ensures ObjOut(w, StepSweeper(w, SweepTree(todo), r), todo[0].id)
  {
    var o, id := StepSweeper(w, SweepTree(todo), r), todo[0].id;
    assert todo[0] in todo;
    ShrinkObj(w, o.w, id);
    if id in w.jobs {
      assert ObjOk(w.objs, w.now, id, todo[0]);
    }
  }

  lemma SweepOneOutputObj(w: World, todo: seq<Record>, names: seq<string>, r: Reply)
    requires Sound(w) && todo != [] && AllKnown(w.used, w.jobs, todo) && TodoOk(w.jobs, false, todo)
    requires SweeperObj(w, SweepOutputs(todo, names)) && names != []
    requires todo[0].id !in w.tampered
    ensures ObjOut(w, StepSweeper(w, SweepOutputs(todo, names), r), todo[0].id)
  {
    var rec := todo[0];
    var w' := Remove(w, Rendition(rec.id, names[0]), r);
    assert rec in todo;
    ShrinkObj(w, w', rec.id);
    if rec.id in w.jobs && rec.status == Completed {
      OutputsLeft(w, w', rec, names);
    }
  }

  lemma SweepOutputsObj(w: World, todo: seq<Record>, names: seq<string>, r: Reply)
    requires Sound(w) && todo != [] && AllKnown(w.used, w.jobs, todo) && TodoOk(w.jobs, false, todo)
    requires SweeperObj(w, SweepOutputs(todo, names))
    requires todo[0].id !in w.tampered
    ensures ObjOut(w, StepSweeper(w, SweepOutputs(todo, names), r), todo[0].id)
  {
    var rec := todo[0];
    assert rec in todo;
    if names != [] {
      SweepOneOutputObj(w, todo, names, r);
    } else if rec.id in w.jobs && rec.status == Completed {
      OutputsLeft(w, w, rec, names);
    }
  }

  /** After the last output nothing is left; before that, one less is. */
  lemma OutputsLeft(w: World, w': World, rec: Record, names: seq<string>)
    requires Sound(w) && rec.id in w.jobs && w.jobs[rec.id] == rec && rec.kind == MP4
    requires RenditionsAmong(w.objs, rec.id, names) && Shrinks(w.objs, w'.objs, rec.id)
    requires rec.id !in w.tampered
    ensures names == [] ==> NoOutputs(w.objs, rec.id)
    ensures names != [] && Rendition(rec.id, names[0]) !in w'.objs ==> RenditionsAmong(w'.objs, rec.id, names[1..])
  {
    assert ObjOk(w.objs, w.now, rec.id, rec);
    if names != [] && Rendition(rec.id, names[0]) !in w'.objs {
      OneLess(w, w', rec.id, names);
    }
  }

  lemma OneLess(w: World, w': World, id: Id, names: seq<string>)
    requires names != [] && RenditionsAmong(w.objs, id, names) && Shrinks(w.objs, w'.objs, id)
    requires Rendition(id, names[0]) !in w'.objs
    ensures RenditionsAmong(w'.objs, id, names[1..])
  {
    assert names == [names[0]] + names[1..];
  }

  lemma SweepDropObj(w: World, stale: bool, todo: seq<Record>, r: Reply)
    requires Sound(w) && todo != [] && AllKnown(w.used, w.jobs, todo) && TodoOk(w.jobs, stale, todo)
    requires SweeperObj(w, SweepDrop(stale, todo))
    requires stale ==> StillUploading(w.jobs, todo[0].id)
    requires todo[0].id !in w.tampered
    ensures ObjOut(w, StepSweeper(w, SweepDrop(stale, todo), r), todo[0].id)
  {
    var o, rec := StepSweeper(w, SweepDrop(stale, todo), r), todo[0];
    assert rec in todo;
    if rec.id in w.jobs {
      assert ObjOk(w.objs, w.now, rec.id, w.jobs[rec.id]);
    }
    WorldFrame(w, o.w, rec.id);
  }

  lemma SweeperObjStep(w: World, z: Sweeper, r: Reply)
    requires Sound(w) && SweeperAnswers(w, z, r) && SweeperKnown(w.used, w.jobs, z) && SweeperOk(w.jobs, z)
    requires SweeperObj(w, z)
    requires (z.SweepRaw? || z.SweepDrop?) && z.stale && z.todo != [] ==> StillUploading(w.jobs, z.todo[0].id)
    requires !z.SweepIdle? && z.todo != [] ==> z.todo[0].id !in w.tampered
    ensures ObjOut(w, StepSweeper(w, z, r), SweptId(z))
  {
    match z
    case SweepIdle(stale) => ListedByAge(w, z, r);
    case SweepRaw(stale, todo) =>
      if todo != [] {
        if stale { SweepStaleRawObj(w, todo, r); } else { SweepExpiredRawObj(w, todo, r); }
      }
    case SweepTree(todo) => if todo != [] { SweepTreeObj(w, todo, r); }
    case SweepOutputs(todo, names) => if todo != [] { SweepOutputsObj(w, todo, names, r); }
    case SweepDrop(stale, todo) => if todo != [] { SweepDropObj(w, stale, todo, r); }
  }

  // ---------- The others ----------

  /** The job a step is about. */
  function TouchedId(p: Proc): Id {
    match p
    case Creating(c) => CreatorId(c)
    case Completing(h) => HandlerId(h)
    case Checking(v) => ValidatorId(v)
    case Working(k) => if k.WorkIdle? then "" else WorkerId(k).value
    case Recovering(c) => RecoveryId(c)
    case Sweeping(z) => SweptId(z)
    case Finished => ""
  }

  /** What the invariants say about goroutine i and the shared state it is about to change. */
  ghost predicate Ready(w: World, p: Proc) {
    && Sound(w) && ProcOk(w.jobs, w.issued, p) && ProcKnown(w.used, w.jobs, p) && ProcObj(w, p)
    && HeadCurrent(w.jobs, Waiting(p)) && GuardHolds(w.jobs, p)
  }

  lemma ReadyToStep(s: State, i: nat, r: Reply)
    requires OwnInv(s) && SessionInv(s) && ObjInv(s)
    requires Enabled(s, Run(i, r)) && Guarded(s, Run(i, r))
    ensures Ready(s.w, s.procs[i])
  {
    var todo := Waiting(s.procs[0]);
    if todo != [] {
      assert todo[0] in todo;
    }
  }

  /** Does the step concern a job at all, and one whose raw bytes were tampered with? */
  ghost predicate Spoiled(w: World, p: Proc) {
    Concerns(p) && TouchedId(p) in w.tampered
  }

  predicate Concerns(p: Proc) {
    match p
    case Finished => false
    case Working(k) => !k.WorkIdle?
    case Recovering(c) => RecoveryActs(c)
    case Sweeping(z) => !z.SweepIdle? && z.todo != []
    case _ => true
  }

  lemma ProcObjStep(w: World, p: Proc, r: Reply)
    requires Ready(w, p) && Answers(w, p, r)
    ensures ObjOut(w, StepProc(w, p, r), TouchedId(p))
  {
    if Spoiled(w, p) {
      SpoiledStep(w, p, r);
    } else {
      SoundStep(w, p, r);
    }
  }

  lemma SoundStep(w: World, p: Proc, r: Reply)
    requires Ready(w, p) && Answers(w, p, r) && !Spoiled(w, p)
    ensures ObjOut(w, StepProc(w, p, r), TouchedId(p))
  {
    match p
    case Finished =>
    case Creating(c) => CreatorObj(w, c, r);
    case Completing(h) => HandlerObj(w, h, r);
    case Checking(v) => ValidatorObj(w, v, r);
    case Working(k) => if !k.WorkIdle? { WorkerObjStep(w, k, r); }
    case Recovering(c) => if RecoveryActs(c) { RecoveryObj(w, c, r); }
    case Sweeping(z) => SweeperObjStep(w, z, r);
  }

  // What a step leaves alone, whatever state its job is in.

  lemma CreatorTouches(w: World, c: Creator, r: Reply)
    ensures OnlyAbout(w, StepCreator(w, c, r).w, CreatorId(c))
  {
  }

  lemma HandlerTouches(w: World, h: Handler, r: Reply)
    ensures OnlyAbout(w, StepHandler(w, h, r).w, HandlerId(h))
  {
  }

  lemma UpdateTouches(w: World, rec: Record, r: Reply)
    ensures OnlyAbout(w, Update(w, rec, r), rec.id)
  {
  }

  lemma RemoveTouches(w: World, key: Key, r: Reply)
    ensures OnlyAbout(w, Remove(w, key, r), key.id)
  {
  }

  lemma PutTouches(w: World, key: Key, video: Video, r: Reply)
    ensures OnlyAbout(w, Put(w, key, video, r), key.id)
  {
  }

  lemma ValidatorTouches(w: World, v: Validator, r: Reply)
    requires ValidatorKnown(w.used, w.jobs, v)
    ensures OnlyAbout(w, StepValidator(w, v, r).w, ValidatorId(v))
  {
    match v
    case ValReject(_, key) => RemoveTouches(w, key, r);
    case ValUndoRaw(_, key, _) => RemoveTouches(w, key, r);
    case ValRejectMark(rec) => UpdateTouches(w, rec, r);
    case ValMark(rec) => UpdateTouches(w, rec, r);
    case ValUndo(rec) => UpdateTouches(w, rec, r);
    case _ =>
  }

  lemma WorkerTouches(w: World, k: Worker, r: Reply)
    requires WorkerKnown(w.used, w.jobs, k) && !k.WorkIdle?
    ensures OnlyAbout(w, StepWorker(w, k, r).w, WorkerId(k).value)
  {
    match k
    case WorkTranscode(rec, _, ticks, _) =>
      if ticks != [] { UpdateTouches(w, rec.(progress := Progress.Clamp(ticks[0])), r); }
    case WorkUpload(_, video, left) =>
      if left != [] {
        assert left[0] in left;
        PutTouches(w, left[0], video, r);
      }
    case WorkMark(rec) => UpdateTouches(w, rec, r);
    case WorkFinish(rec, _) => UpdateTouches(w, rec, r);
    case WorkFail(rec) => UpdateTouches(w, rec, r);
    case _ =>
  }

  lemma RecoveryTouches(w: World, c: Recovery, r: Reply)
    ensures OnlyAbout(w, StepRecovery(w, c, r).w, RecoveryId(c))
  {
    match c
    case RecNext(todo) => if todo != [] { RedriveTouches(w, todo[0], todo[1..], r); }
    case RecFail(todo) => if todo != [] { UpdateTouches(w, todo[0].(status := Failed), r); }
    case _ =>
  }

  lemma RedriveTouches(w: World, rec: Record, rest: seq<Record>, r: Reply)
    ensures OnlyAbout(w, RedriveNext(w, rec, rest, r).w, rec.id)
  {
    if rec.status == Processing {
      UpdateTouches(w, rec.(status := Pending), r);
    }
  }

  lemma TreeTouches(w: World, z: Sweeper, r: Reply)
    requires z.SweepTree?
    ensures OnlyAbout(w, StepSweeper(w, z, r).w, SweptId(z))
  {
  }

  lemma DropTouches(w: World, z: Sweeper, r: Reply)
    requires z.SweepDrop?
    ensures OnlyAbout(w, StepSweeper(w, z, r).w, SweptId(z))
  {
  }

  lemma SweeperTouches(w: World, z: Sweeper, r: Reply)
    requires SweeperKnown(w.used, w.jobs, z)
    ensures OnlyAbout(w, StepSweeper(w, z, r).w, SweptId(z))
  {
    match z
    case SweepIdle(_) =>
    case SweepRaw(_, todo) =>
      if todo != [] {
        assert todo[0] in todo;
        RemoveTouches(w, todo[0].rawKey, r);
      }
    case SweepTree(_) => TreeTouches(w, z, r);
    case SweepOutputs(todo, names) =>
      if todo != [] && names != [] { RemoveTouches(w, Rendition(todo[0].id, names[0]), r); }
    case SweepDrop(_, _) => DropTouches(w, z, r);
  }

  lemma ProcTouches(w: World, p: Proc, r: Reply)
    requires ProcKnown(w.used, w.jobs, p)
    ensures OnlyAbout(w, StepProc(w, p, r).w, TouchedId(p))
  {
    match p
    case Finished =>
    case Creating(c) => CreatorTouches(w, c, r);
    case Completing(h) => HandlerTouches(w, h, r);
    case Checking(v) => ValidatorTouches(w, v, r);
    case Working(k) => if !k.WorkIdle? { WorkerTouches(w, k, r); }
    case Recovering(c) => RecoveryTouches(w, c, r);
    case Sweeping(z) => SweeperTouches(w, z, r);
  }

  /** A goroutine stays with its job. */
  lemma SweeperMovesOn(w: World, z: Sweeper, r: Reply)
    requires SweeperObj(w, z) && !z.SweepIdle? && z.todo != [] && z.todo[0].id in w.tampered
    ensures ProcObj(StepSweeper(w, z, r).w, StepSweeper(w, z, r).me) && StepSweeper(w, z, r).spawned == []
  {
  }

  lemma WorkerMovesOn(w: World, k: Worker, r: Reply)
    requires !k.WorkIdle? && WorkerId(k).value in w.tampered
    ensures ProcObj(StepWorker(w, k, r).w, StepWorker(w, k, r).me) && StepWorker(w, k, r).spawned == []
  {
  }

  lemma ValidatorMovesOn(w: World, v: Validator, r: Reply)
    requires forall id :: id in w.jobs ==> w.jobs[id].id == id
    requires ValidatorId(v) in w.tampered
    ensures ProcObj(StepValidator(w, v, r).w, StepValidator(w, v, r).me) && StepValidator(w, v, r).spawned == []
  {
    ValidatorStays(w, v, r);
  }

  /** A validator that goes on goes on with its job. */
  lemma ValidatorStays(w: World, v: Validator, r: Reply)
    requires forall id :: id in w.jobs ==> w.jobs[id].id == id
    ensures var o := StepValidator(w, v, r);
      o.w.tampered == w.tampered && o.spawned == [] &&
      (o.me == Finished || (o.me.Checking? && ValidatorId(o.me.validator) == ValidatorId(v)))
  {
  }

  lemma RecoveryMovesOn(w: World, c: Recovery, r: Reply)
    requires RecoveryActs(c) && RecoveryId(c) in w.tampered
    ensures var o := StepRecovery(w, c, r);
      ProcObj(o.w, o.me) && forall q :: q in o.spawned ==> ProcObj(o.w, q)
  {
  }

  lemma RequestMovesOn(w: World, p: Proc, r: Reply)
    requires (p.Creating? || p.Completing?) && TouchedId(p) in w.tampered
    ensures ProcObj(StepProc(w, p, r).w, StepProc(w, p, r).me) && StepProc(w, p, r).spawned == []
  {
  }

  /** Nothing is claimed about a job whose raw bytes were tampered with; the others do not notice. */
  lemma SpoiledStep(w: World, p: Proc, r: Reply)
    requires Ready(w, p) && Spoiled(w, p)
    ensures ObjOut(w, StepProc(w, p, r), TouchedId(p))
  {
    ProcTouches(w, p, r);
    WorldFrame(w, StepProc(w, p, r).w, TouchedId(p));
    match p
    case Checking(v) => ValidatorMovesOn(w, v, r);
    case Working(k) => WorkerMovesOn(w, k, r);
    case Recovering(c) => RecoveryMovesOn(w, c, r);
    case Sweeping(z) => SweeperMovesOn(w, z, r);
    case _ => RequestMovesOn(w, p, r);
  }

  lemma SweepersOnlyDelete(w: World, z: Sweeper, r: Reply)
    ensures forall k :: k in StepSweeper(w, z, r).w.objs ==> k in w.objs
  {
  }

  lemma WorkersAddOwn(w: World, k: Worker, r: Reply, id: Id)
    requires !Shrinks(w.objs, StepWorker(w, k, r).w.objs, id) && WorkerKnown(w.used, w.jobs, k)
    ensures k.WorkUpload? && id == k.rec.id
  {
  }

  lemma RecoveryAddsNone(w: World, c: Recovery, r: Reply)
    ensures StepRecovery(w, c, r).w.objs == w.objs
  {
  }

  /** Only a worker adds objects, and only of the processing job it has claimed. */
  lemma OnlyWorkersAdd(w: World, p: Proc, r: Reply, id: Id)
    requires !Shrinks(w.objs, StepProc(w, p, r).w.objs, id) && ProcKnown(w.used, w.jobs, p)
    ensures p.Working? && p.worker.WorkUpload? && id == p.worker.rec.id
  {
    match p
    case Sweeping(z) => SweepersOnlyDelete(w, z, r);
    case Working(k) => WorkersAddOwn(w, k, r, id);
    case Recovering(c) => RecoveryAddsNone(w, c, r);
    case _ =>
  }

  /** Requests, recovery and waiting goroutines touch no object. */
  lemma QuietObjs(w: World, p: Proc, r: Reply)
    requires p.Finished? || p.Creating? || p.Completing? || p.Recovering? || !Concerns(p)
    ensures StepProc(w, p, r).w.objs == w.objs
  {
    if p.Recovering? {
      RecoveryAddsNone(w, p.recovery, r);
    }
  }

  lemma SweepSparesInFlight(jobs: map<Id, Record>, z: Sweeper, id: Id)
    requires SweeperOk(jobs, z) && id in jobs && InFlight(jobs[id].status)
    requires (z.SweepRaw? || z.SweepDrop?) && z.stale && z.todo != [] ==> StillUploading(jobs, z.todo[0].id)
    ensures !z.SweepIdle? && z.todo != [] ==> SweptId(z) != id
  {
    if !z.SweepIdle? && z.todo != [] {
      assert z.todo[0] in z.todo;
    }
  }

  /** The view a goroutine has of storage survives a step of another one. */
  lemma OtherObj(w: World, w': World, id: Id, q: Proc)
    requires ProcObj(w, q) && ProcKnown(w.used, w.jobs, q) && ProcOk(w.jobs, w.issued, q)
    requires w.now <= w'.now && w.tampered <= w'.tampered
    requires q.Checking? ==> Shrinks(w.objs, w'.objs, ValidatorId(q.validator))
    requires q.Working? && WorkerId(q.worker).Some? ==> SameObjs(w.objs, w'.objs, WorkerId(q.worker).value)
    requires q.Sweeping? && Retiring(q.sweeper) && q.sweeper.todo != [] ==>
      var h := q.sweeper.todo[0].id; Shrinks(w.objs, w'.objs, h) && (h in w'.jobs ==> h in w.jobs)
    ensures ProcObj(w', q)
  {
    match q
    case Working(k) =>
      if WorkerId(k).Some? && WorkerId(k).value !in w'.tampered { WorkerFrame(w, w', k); }
    case Sweeping(z) => SweeperFrame(w, w', z);
    case _ =>
  }

  /** p is about to step and q is another goroutine: they have no claim in common, and q's claim,
      if q is a worker's, is in flight. */
  ghost predicate Apart(w: World, p: Proc, q: Proc) {
    && (Claim(q).Some? ==> Claim(p) != Claim(q))
    && (q.Working? && Claim(q).Some? ==> Claim(q).value in w.jobs && InFlight(w.jobs[Claim(q).value].status))
    && ProcOk(w.jobs, w.issued, q) && ProcKnown(w.used, w.jobs, q) && ProcObj(w, q)
  }

  lemma TwoApart(s: State, i: nat, j: nat)
    requires OwnInv(s) && SessionInv(s) && ObjInv(s) && i < |s.procs| && j < |s.procs| && j != i
    ensures Apart(s.w, s.procs[i], s.procs[j])
  {
    if Claim(s.procs[j]).Some? {
      var id := Claim(s.procs[j]).value;
      assert ClaimedBy(s, j, id) && !ClaimedBy(s, i, id);
      ClaimStatus(s, j, id);
    }
  }

  lemma OtherStays(w: World, p: Proc, q: Proc, r: Reply)
    requires Ready(w, p) && Apart(w, p, q)
    requires OnlyAbout(w, StepProc(w, p, r).w, TouchedId(p)) && Evolves(w, StepProc(w, p, r).w)
    ensures ProcObj(StepProc(w, p, r).w, q)
  {
    if q.Checking? {
      CheckedJobShrinks(w, p, q, r);
    } else if q.Working? && Claim(q).Some? {
      WorkersJobUntouched(w, p, q, r);
    } else if q.Sweeping? && Retiring(q.sweeper) && q.sweeper.todo != [] {
      SweptJobShrinks(w, p, q.sweeper, r);
    }
    OtherObj(w, StepProc(w, p, r).w, TouchedId(p), q);
  }

  lemma CheckedJobShrinks(w: World, p: Proc, q: Proc, r: Reply)
    requires ProcKnown(w.used, w.jobs, p) && q.Checking? && Claim(p) != Claim(q)
    ensures Shrinks(w.objs, StepProc(w, p, r).w.objs, ValidatorId(q.validator))
  {
    if !Shrinks(w.objs, StepProc(w, p, r).w.objs, ValidatorId(q.validator)) {
      OnlyWorkersAdd(w, p, r, ValidatorId(q.validator));
    }
  }

  lemma WorkersJobUntouched(w: World, p: Proc, q: Proc, r: Reply)
    requires Ready(w, p) && Apart(w, p, q) && q.Working? && Claim(q).Some?
    requires OnlyAbout(w, StepProc(w, p, r).w, TouchedId(p))
    ensures SameObjs(w.objs, StepProc(w, p, r).w.objs, Claim(q).value)
  {
    if p.Sweeping? {
      SweepSparesInFlight(w.jobs, p.sweeper, Claim(q).value);
    }
    if p.Creating? || p.Completing? || p.Recovering? || !Concerns(p) {
      QuietObjs(w, p, r);
    } else {
      assert Claim(q).value != TouchedId(p);
    }
  }

  lemma SweptJobShrinks(w: World, p: Proc, z: Sweeper, r: Reply)
    requires ProcOk(w.jobs, w.issued, p) && ProcKnown(w.used, w.jobs, p) && Evolves(w, StepProc(w, p, r).w)
    requires SweeperOk(w.jobs, z) && SweeperKnown(w.used, w.jobs, z) && Retiring(z) && z.todo != []
    ensures var w', id := StepProc(w, p, r).w, z.todo[0].id;
      Shrinks(w.objs, w'.objs, id) && (id in w'.jobs ==> id in w.jobs)
  {
    var id := z.todo[0].id;
    assert z.todo[0] in z.todo;
    if !Shrinks(w.objs, StepProc(w, p, r).w.objs, id) {
      OnlyWorkersAdd(w, p, r, id);
    }
  }

  lemma RunObj(s: State, i: nat, r: Reply)
    requires OwnInv(s) && SessionInv(s) && ObjInv(s)
    requires Enabled(s, Run(i, r)) && Guarded(s, Run(i, r))
    ensures ObjInv(StepRun(s, i, r))
  {
    var t := StepRun(s, i, r);
    ReadyToStep(s, i, r);
    ProcObjStep(s.w, s.procs[i], r);
    ProcStep(s.w, s.procs[i], r);
    forall j | 0 <= j < |t.procs|
      ensures ProcObj(t.w, t.procs[j])
    {
      if j < |s.procs| && j != i {
        TwoApart(s, i, j);
        OtherStays(s.w, s.procs[i], s.procs[j], r);
      }
    }
  }

  // ---------- The environment ----------

  /** A client's PUT reaches an upload in progress, changes nothing, or spoils an accepted job. */
  lemma PutObjs(s: State, key: Key, video: Video)
    requires OwnInv(s) && SessionInv(s) && ObjInv(s) && Enabled(s, ClientPut(key, video))
    ensures ObjInv(Next(s, ClientPut(key, video)))
  {
    var w, t := s.w, Next(s, ClientPut(key, video));
    assert KnownKey(w.used, w.jobs, key);
    if key.id in w.jobs && w.jobs[key.id].status != Uploading && !Tampers(w, key, video) {
      assert t.w == w;
    } else {
      ArrivalObjs(w, key, video);
      forall j | 0 <= j < |t.procs|
        ensures ProcObj(t.w, t.procs[j])
      {
        PutSpares(s, key, video, j);
      }
    }
  }

  /** The upload is new to the job, or the job is spoiled by it. */
  ghost predicate Fresh(w: World, key: Key, video: Video) {
    key.Raw? && (key.id in w.jobs ==> w.jobs[key.id].status == Uploading || Tampers(w, key, video))
  }

  lemma ArrivalObjs(w: World, key: Key, video: Video)
    requires WorldKnown(w) && WorldObj(w) && Fresh(w, key, video)
    ensures WorldObj(Arrive(w, key, video))
  {
    if key.id in w.jobs && key.id !in w.tampered {
      assert ObjOk(w.objs, w.now, key.id, w.jobs[key.id]);
    }
    WorldFrame(w, Arrive(w, key, video), key.id);
  }

  lemma PutSpares(s: State, key: Key, video: Video, j: nat)
    requires OwnInv(s) && SessionInv(s) && ObjInv(s) && j < |s.procs| && Fresh(s.w, key, video)
    ensures ProcObj(Arrive(s.w, key, video), s.procs[j])
  {
    var w, w', q := s.w, Arrive(s.w, key, video), s.procs[j];
    assert ProcOk(w.jobs, w.issued, q) && ProcKnown(w.used, w.jobs, q) && ProcObj(w, q);
    if q.Working? && WorkerId(q.worker).Some? {
      assert ClaimedBy(s, j, WorkerId(q.worker).value);
      ClaimStatus(s, j, WorkerId(q.worker).value);
    }
    ArrivalSpares(w, key, video, q);
  }

  lemma ArrivalSpares(w: World, key: Key, video: Video, q: Proc)
    requires Fresh(w, key, video) && ProcObj(w, q) && ProcKnown(w.used, w.jobs, q) && ProcOk(w.jobs, w.issued, q)
    requires q.Working? && WorkerId(q.worker).Some? ==>
      WorkerId(q.worker).value in w.jobs && InFlight(w.jobs[WorkerId(q.worker).value].status)
    ensures ProcObj(Arrive(w, key, video), q)
  {
    var w' := Arrive(w, key, video);
    match q
    case Working(k) =>
      if WorkerId(k).Some? && WorkerId(k).value !in w'.tampered { WorkerFrame(w, w', k); }
    case Sweeping(z) =>
      if Retiring(z) && z.todo != [] {
        assert z.todo[0] in z.todo;
      }
      SweeperFrame(w, w', z);
    case _ =>
  }

  lemma CreateObjs(s: State, a: Action)
    requires OwnInv(s) && SessionInv(s) && ObjInv(s) && a.Create? && Enabled(s, a)
    ensures ObjInv(Next(s, a))
  {
    var w, t := s.w, Next(s, a);
    assert forall k :: k in w.objs ==> k.id != a.id;
    WorldFrame(w, t.w, a.id);
    forall j | 0 <= j < |s.procs|
      ensures ProcObj(t.w, s.procs[j])
    {
      assert ProcObj(w, s.procs[j]) && ProcKnown(w.used, w.jobs, s.procs[j]);
      BornSpares(w, t.w, a.id, s.procs[j]);
    }
  }

  lemma BornSpares(w: World, w': World, id: Id, q: Proc)
    requires ProcObj(w, q) && ProcKnown(w.used, w.jobs, q) && id !in w.used
    requires w'.objs == w.objs && w'.now == w.now && w'.tampered == w.tampered && (forall x :: x in w'.jobs ==> x in w.jobs || x == id)
    ensures ProcObj(w', q)
  {
    if q.Sweeping? && Retiring(q.sweeper) && q.sweeper.todo != [] {
      assert q.sweeper.todo[0] in q.sweeper.todo;
    }
  }

  lemma PassObjs(s: State, to: Instant)
    requires SessionInv(s) && ObjInv(s) && s.w.now <= to
    ensures ObjInv(Next(s, Pass(to)))
  {
    var w' := s.w.(now := to);
    forall id | id in w'.jobs && id !in w'.tampered
      ensures ObjOk(w'.objs, w'.now, id, w'.jobs[id])
    {
      ObjFrame(s.w, w', id, s.w.jobs[id]);
    }
    forall j | 0 <= j < |s.procs|
      ensures ProcObj(w', s.procs[j])
    {
      assert ProcObj(s.w, s.procs[j]);
      match s.procs[j]
      case Sweeping(z) => SweeperFrame(s.w, w', z);
      case _ =>
    }
  }

  /** Every step keeps files and records in step, under the guard. */
  lemma ObjStep(s: State, a: Action)
    requires OwnInv(s) && SessionInv(s) && ObjInv(s)
    requires Enabled(s, a) && Guarded(s, a)
    ensures ObjInv(Next(s, a))
  {
    match a
    case Crash(_) =>
    case Pass(to) => PassObjs(s, to);
    case ClientPut(key, video) => PutObjs(s, key, video);
    case Create(_, _, _, _, _) => CreateObjs(s, a);
    case Complete(_) =>
    case Run(i, r) => RunObj(s, i, r);
  }

  // ---------- Main results ----------

  ghost predicate AllInv(s: State) {
    OwnInv(s) && SessionInv(s) && ObjInv(s)
  }

  lemma {:induction false} AllRunKeeps(s: State, actions: seq<Action>)
    requires AllInv(s) && GuardedRun(s, actions)
    ensures Runs(s, actions) && AllInv(After(s, actions))
    decreases |actions|
  {
    if actions != [] {
      OwnStep(s, actions[0]);
      SessionStep(s, actions[0]);
      ObjStep(s, actions[0]);
      AllRunKeeps(Next(s, actions[0]), actions[1..]);
    }
  }

  lemma InitialAll(workers: nat, now: Instant)
    ensures AllInv(Initial(workers, now))
  {
    InitialOk(workers, now);
  }

  ghost predicate MadeFrom(objs: map<Key, Video>, k: Key, v: Video) {
    k in objs && objs[k] == v
  }

  /** What a client of a completed job can fetch: the .mp4 of every output, or the master playlist, the
      playlist of every output and every other file of the tree, all made from the same bytes. */
  ghost predicate Playable(objs: map<Key, Video>, rec: Record, v: Video) {
    rec.outputs != [] &&
    match rec.kind
    case MP4 =>
      |rec.outputs| == |v.renditions| && forall n :: n in rec.outputs ==> MadeFrom(objs, Rendition(rec.id, n), v)
    case HLS =>
      && rec.masterKey.Some? && rec.masterKey.value == TreeFile(rec.id, MASTER)
      && MadeFrom(objs, rec.masterKey.value, v)
      && (forall n :: n in rec.outputs ==> MadeFrom(objs, TreeFile(rec.id, PlaylistOf(n)), v))
      && (forall f :: f in v.tree ==> MadeFrom(objs, TreeFile(rec.id, f), v))
  }

  lemma PublishedIsPlayable(objs: map<Key, Video>, rec: Record, v: Video)
    requires Published(objs, rec, v)
    ensures Playable(objs, rec, v)
  {
    var keys := Uploads(rec.kind, rec.id, v);
    match rec.kind
    case MP4 =>
      forall n | n in rec.outputs
        ensures MadeFrom(objs, Rendition(rec.id, n), v)
      {
        var i :| 0 <= i < |rec.outputs| && rec.outputs[i] == n;
        assert keys[i] == Rendition(rec.id, n) && keys[i] in keys;
      }
    case HLS =>
      forall f | f in v.tree
        ensures MadeFrom(objs, TreeFile(rec.id, f), v)
      {
        var i :| 0 <= i < |v.tree| && v.tree[i] == f;
        assert keys[i] == TreeFile(rec.id, f) && keys[i] in keys;
      }
      forall n | n in rec.outputs
        ensures PlaylistOf(n) in v.tree
      {
        var i :| 0 <= i < |rec.outputs| && rec.outputs[i] == n;
        assert n == HlsDir(v.renditions[i]);
      }
  }

  /** A completed, unexpired job still has the bytes it was made from as its raw object, unless a client
      changed them after the job was accepted. */
  lemma CompletedFromRawBytes(workers: nat, now: Instant, actions: seq<Action>, id: Id)
    requires GuardedRun(Initial(workers, now), actions)
    ensures Runs(Initial(workers, now), actions)
    ensures var w := After(Initial(workers, now), actions).w;
      id in w.jobs && id !in w.tampered && w.jobs[id].status == Completed && Retained(w.now, w.jobs[id]) ==>
        w.jobs[id].rawKey in w.objs && Playable(w.objs, w.jobs[id], w.objs[w.jobs[id].rawKey])
  {
    InitialAll(workers, now);
    AllRunKeeps(Initial(workers, now), actions);
    var w := After(Initial(workers, now), actions).w;
    if id in w.jobs && id !in w.tampered && w.jobs[id].status == Completed && Retained(w.now, w.jobs[id]) {
      PublishedIsPlayable(w.objs, w.jobs[id], w.objs[w.jobs[id].rawKey]);
    }
  }

  lemma StepsDoNotTamper(w: World, p: Proc, r: Reply)
    ensures StepProc(w, p, r).w.tampered == w.tampered
  {
    match p
    case Working(k) => WorkerDoesNotTamper(w, k, r);
    case Sweeping(z) => SweeperDoesNotTamper(w, z, r);
    case _ =>
  }

  lemma WorkerDoesNotTamper(w: World, k: Worker, r: Reply)
    ensures StepWorker(w, k, r).w.tampered == w.tampered
  {
  }

  lemma SweeperDoesNotTamper(w: World, z: Sweeper, r: Reply)
    ensures StepSweeper(w, z, r).w.tampered == w.tampered
  {
  }

  /** Tampering is exactly a PUT that changes the bytes of a job past its upload. */
  lemma TamperedExactly(s: State, a: Action, id: Id)
    requires Enabled(s, a)
    ensures id in Next(s, a).w.tampered <==>
      id in s.w.tampered ||
      (a.ClientPut? && a.key.id == id && id in s.w.jobs && s.w.jobs[id].status != Uploading
       && (a.key in s.w.objs ==> s.w.objs[a.key] != a.video))
  {
    if a.Run? {
      StepsDoNotTamper(s.w, s.procs[a.i], a.reply);
    }
  }

  /** Every PUT for this job comes before it is accepted or after it is gone, or repeats the same bytes. */
  ghost predicate HonestRun(s: State, actions: seq<Action>, id: Id)
    decreases |actions|
  {
    actions == [] ||
    (Enabled(s, actions[0]) && HonestRun(Next(s, actions[0]), actions[1..], id) &&
     var a := actions[0];
     a.ClientPut? && a.key.id == id && id in s.w.jobs && s.w.jobs[id].status != Uploading ==>
       a.key in s.w.objs && s.w.objs[a.key] == a.video)
  }

  /** A job is never tampered with by clients that leave its URL alone once it is accepted. */
  lemma {:induction false} HonestClients(s: State, actions: seq<Action>, id: Id)
    requires HonestRun(s, actions, id) && id !in s.w.tampered
    ensures Runs(s, actions) && id !in After(s, actions).w.tampered
    decreases |actions|
  {
    if actions != [] {
      TamperedExactly(s, actions[0], id);
      HonestClients(Next(s, actions[0]), actions[1..], id);
    }
  }

  /** No orphans: in every state of every guarded run, what workers made for a job whose raw bytes nobody
      tampered with is without a record only if it is a rendition of an MP4 job dropped while failed. HLS
      jobs and completed jobs leave nothing. */
  lemma NoOrphans(workers: nat, now: Instant, actions: seq<Action>, key: Key)
    requires GuardedRun(Initial(workers, now), actions)
    ensures Runs(Initial(workers, now), actions)
    ensures var w := After(Initial(workers, now), actions).w;
      !key.Raw? && key.id !in w.tampered && key in w.objs && key.id !in w.jobs ==>
        key.Rendition? && key.id in w.leaked
  {
    InitialAll(workers, now);
    AllRunKeeps(Initial(workers, now), actions);
  }
}
