/** Sessions: what every goroutine, however stale its copy of a record, still has right.
    Nothing here needs any hypothesis on how the requests interleave.
*/
module Sessions {

  import opened Jobs
  import opened Lifecycle

  predicate KnownKey(used: set<Id>, jobs: map<Id, Record>, key: Key) {
    key.Raw? && key.id in used && (key.id in jobs ==> jobs[key.id].rawKey == key)
  }

  /** rec is a copy, possibly an old one, of the record of its session. */
  predicate Known(used: set<Id>, jobs: map<Id, Record>, rec: Record) {
    && rec.id in used && rec.rawKey.Raw? && rec.rawKey.id == rec.id
    && (rec.id in jobs ==> SameSession(rec, jobs[rec.id]))
  }

  predicate AllKnown(used: set<Id>, jobs: map<Id, Record>, todo: seq<Record>) {
    forall r :: r in todo ==> Known(used, jobs, r)
  }

  predicate CreatorKnown(used: set<Id>, jobs: map<Id, Record>, c: Creator) {
    match c
    case CreatePresign(rec) => Known(used, jobs, rec)
    case CreateRollback(id) => id in used
  }

  predicate HandlerKnown(used: set<Id>, jobs: map<Id, Record>, h: Handler) {
    match h
    case HandlerLoad(_) => true
    case HandlerStat(rec) => Known(used, jobs, rec)
    case HandlerMark(rec) => Known(used, jobs, rec)
  }

  predicate ValidatorKnown(used: set<Id>, jobs: map<Id, Record>, v: Validator) {
    match v
    case ValProbe(id, key) => KnownKey(used, jobs, key) && key.id == id
    case ValReject(id, key) => KnownKey(used, jobs, key) && key.id == id
    case ValRejectLoad(id) => id in used
    case ValRejectMark(rec) => Known(used, jobs, rec)
    case ValLoad(id) => id in used
    case ValMark(rec) => Known(used, jobs, rec)
    case ValEnqueue(rec) => Known(used, jobs, rec)
    case ValUndo(rec) => Known(used, jobs, rec)
    case ValUndoRaw(id, key, _) => KnownKey(used, jobs, key) && key.id == id
  }

  predicate WorkerKnown(used: set<Id>, jobs: map<Id, Record>, k: Worker) {
    match k
    case WorkIdle => true
    case WorkLoad(id) => id in used
    case WorkMark(rec) => Known(used, jobs, rec)
    case WorkFetch(rec) => Known(used, jobs, rec)
    case WorkTranscode(rec, _, _, _) => Known(used, jobs, rec)
    case WorkUpload(rec, _, left) => Known(used, jobs, rec) && forall k :: k in left ==> k.id == rec.id && !k.Raw?
    case WorkFinish(rec, _) => Known(used, jobs, rec)
    case WorkFail(rec) => Known(used, jobs, rec)
  }

  predicate RecoveryKnown(used: set<Id>, jobs: map<Id, Record>, c: Recovery) {
    match c
    case RecList => true
    case RecNext(todo) => AllKnown(used, jobs, todo)
    case RecEnqueue(rec, todo) => Known(used, jobs, rec) && AllKnown(used, jobs, todo)
    case RecFail(todo) => AllKnown(used, jobs, todo)
    case Serving => true
  }

  predicate SweeperKnown(used: set<Id>, jobs: map<Id, Record>, z: Sweeper) {
    match z
    case SweepIdle(_) => true
    case SweepRaw(_, todo) => AllKnown(used, jobs, todo)
    case SweepTree(todo) => AllKnown(used, jobs, todo)
    case SweepOutputs(todo, _) => AllKnown(used, jobs, todo)
    case SweepDrop(_, todo) => AllKnown(used, jobs, todo)
  }

  predicate ProcKnown(used: set<Id>, jobs: map<Id, Record>, p: Proc) {
    match p
    case Finished => true
    case Creating(c) => CreatorKnown(used, jobs, c)
    case Completing(h) => HandlerKnown(used, jobs, h)
    case Checking(v) => ValidatorKnown(used, jobs, v)
    case Working(k) => WorkerKnown(used, jobs, k)
    case Recovering(c) => RecoveryKnown(used, jobs, c)
    case Sweeping(z) => SweeperKnown(used, jobs, z)
  }

  predicate WorldKnown(w: World) {
    && (forall id :: id in w.jobs ==> w.jobs[id].id == id && Known(w.used, w.jobs, w.jobs[id]))
    && (forall k :: k in w.objs ==> k.id in w.used)
    && (forall k :: k in w.urls ==> KnownKey(w.used, w.jobs, k))
    && w.issued <= w.used
    && (forall id :: id in w.queue ==> id in w.used)
  }

  predicate SessionInv(s: State) {
    && WorldKnown(s.w)
    && (forall i :: 0 <= i < |s.procs| ==> ProcKnown(s.w.used, s.w.jobs, s.procs[i]))
  }

  /** Records only change within their session, and a deleted id never comes back. */
  predicate Evolves(w: World, w': World) {
    && w.used <= w'.used
    && (forall id :: id in w'.jobs ==> (id in w.jobs && SameSession(w.jobs[id], w'.jobs[id])) || id !in w.used)
  }

  lemma KnownEvolves(w: World, w': World, p: Proc)
    requires Evolves(w, w') && ProcKnown(w.used, w.jobs, p)
    ensures ProcKnown(w'.used, w'.jobs, p)
  {
  }

  predicate GoodOut(w: World, o: Out) {
    && Evolves(w, o.w) && WorldKnown(o.w) && ProcKnown(o.w.used, o.w.jobs, o.me)
    && (forall q :: q in o.spawned ==> ProcKnown(o.w.used, o.w.jobs, q))
  }

  // The five calls that write.

  lemma UpdateKnown(w: World, rec: Record, r: Reply)
    requires WorldKnown(w) && Known(w.used, w.jobs, rec)
    ensures Evolves(w, Update(w, rec, r)) && WorldKnown(Update(w, rec, r))
    ensures Known(Update(w, rec, r).used, Update(w, rec, r).jobs, rec)
  {
  }

  lemma DeleteKnown(w: World, id: Id, r: Reply)
    requires WorldKnown(w)
    ensures Evolves(w, Delete(w, id, r)) && WorldKnown(Delete(w, id, r))
  {
  }

  lemma RemoveKnown(w: World, key: Key, r: Reply)
    requires WorldKnown(w)
    ensures Evolves(w, Remove(w, key, r)) && WorldKnown(Remove(w, key, r))
  {
  }

  lemma PutKnown(w: World, key: Key, video: Video, r: Reply)
    requires WorldKnown(w) && key.id in w.used
    ensures Evolves(w, Put(w, key, video, r)) && WorldKnown(Put(w, key, video, r))
  {
  }

  lemma EnqueueKnown(w: World, id: Id, r: Reply)
    requires WorldKnown(w) && id in w.used
    ensures Evolves(w, Enqueue(w, id, r)) && WorldKnown(Enqueue(w, id, r))
  {
  }

  lemma TodoKnown(w: World, w': World, todo: seq<Record>)
    requires Evolves(w, w') && AllKnown(w.used, w.jobs, todo)
    ensures AllKnown(w'.used, w'.jobs, todo)
    ensures todo != [] ==> Known(w.used, w.jobs, todo[0]) && AllKnown(w.used, w.jobs, todo[1..]) && AllKnown(w'.used, w'.jobs, todo[1..])
  {
    if todo != [] {
      assert todo[0] in todo;
    }
  }

  lemma CreatorStep(w: World, c: Creator, r: Reply)
    requires WorldKnown(w) && CreatorKnown(w.used, w.jobs, c)
    ensures GoodOut(w, StepCreator(w, c, r))
  {
  }

  lemma HandlerStep(w: World, h: Handler, r: Reply)
    requires WorldKnown(w) && HandlerKnown(w.used, w.jobs, h)
    ensures GoodOut(w, StepHandler(w, h, r))
  {
    if h.HandlerMark? {
      UpdateKnown(w, h.rec, r);
    }
  }

  lemma ValidatorStep(w: World, v: Validator, r: Reply)
    requires WorldKnown(w) && ValidatorKnown(w.used, w.jobs, v)
    ensures GoodOut(w, StepValidator(w, v, r))
  {
    match v
    case ValReject(_, key) => RemoveKnown(w, key, r);
    case ValUndoRaw(_, key, _) => RemoveKnown(w, key, r);
    case ValRejectMark(rec) => UpdateKnown(w, rec, r);
    case ValMark(rec) => UpdateKnown(w, rec, r);
    case ValUndo(rec) => UpdateKnown(w, rec, r);
    case ValEnqueue(rec) => EnqueueKnown(w, rec.id, r);
    case _ =>
  }

  lemma TickStep(w: World, k: Worker, r: Reply)
    requires k.WorkTranscode? && WorldKnown(w) && WorkerKnown(w.used, w.jobs, k)
    ensures GoodOut(w, StepWorker(w, k, r))
  {
    if k.ticks != [] {
      UpdateKnown(w, k.rec.(progress := Progress.Clamp(k.ticks[0])), r);
    }
  }

  lemma WorkerStep(w: World, k: Worker, r: Reply)
    requires WorldKnown(w) && WorkerKnown(w.used, w.jobs, k)
    ensures GoodOut(w, StepWorker(w, k, r))
  {
    match k
    case WorkMark(rec) => UpdateKnown(w, rec, r);
    case WorkTranscode(_, _, _, _) => TickStep(w, k, r);
    case WorkUpload(rec, video, left) =>
      if left != [] { PutKnown(w, left[0], video, r); }
    case WorkFinish(rec, _) => UpdateKnown(w, rec, r);
    case WorkFail(rec) => UpdateKnown(w, rec, r);
    case _ =>
  }

  lemma RedriveStep(w: World, rec: Record, rest: seq<Record>, r: Reply)
    requires WorldKnown(w) && Known(w.used, w.jobs, rec) && AllKnown(w.used, w.jobs, rest)
    ensures GoodOut(w, RedriveNext(w, rec, rest, r))
  {
    match rec.status
    case Pending => EnqueueKnown(w, rec.id, r);
    case Processing => UpdateKnown(w, rec.(status := Pending), r);
    case _ =>
    TodoKnown(w, RedriveNext(w, rec, rest, r).w, [rec] + rest);
  }

  lemma RecoveryStep(w: World, c: Recovery, r: Reply)
    requires WorldKnown(w) && RecoveryKnown(w.used, w.jobs, c) && RecoveryAnswers(w, c, r)
    ensures GoodOut(w, StepRecovery(w, c, r))
  {
    var w' := StepRecovery(w, c, r).w;
    match c
    case RecNext(todo) => TodoKnown(w, w, todo); if todo != [] { RedriveStep(w, todo[0], todo[1..], r); }
    case RecEnqueue(rec, todo) => EnqueueKnown(w, rec.id, r); TodoKnown(w, w', todo);
    case RecFail(todo) =>
      TodoKnown(w, w, todo);
      if todo != [] { UpdateKnown(w, todo[0].(status := Failed), r); TodoKnown(w, w', todo); }
    case _ =>
  }

  lemma SweeperStep(w: World, z: Sweeper, r: Reply)
    requires WorldKnown(w) && SweeperKnown(w.used, w.jobs, z) && SweeperAnswers(w, z, r)
    ensures GoodOut(w, StepSweeper(w, z, r))
  {
    var w' := StepSweeper(w, z, r).w;
    match z
    case SweepRaw(_, todo) => if todo != [] { RemoveKnown(w, todo[0].rawKey, r); TodoKnown(w, w', todo); }
    case SweepTree(todo) => TodoKnown(w, w', todo);
    case SweepOutputs(todo, names) =>
      if todo != [] && names != [] { RemoveKnown(w, Rendition(todo[0].id, names[0]), r); TodoKnown(w, w', todo); }
    case SweepDrop(_, todo) => if todo != [] { DeleteKnown(w, todo[0].id, r); TodoKnown(w, w', todo); }
    case _ =>
  }

  lemma ProcStep(w: World, p: Proc, r: Reply)
    requires WorldKnown(w) && ProcKnown(w.used, w.jobs, p) && Answers(w, p, r)
    ensures GoodOut(w, StepProc(w, p, r))
  {
    match p
    case Finished =>
    case Creating(c) => CreatorStep(w, c, r);
    case Completing(h) => HandlerStep(w, h, r);
    case Checking(v) => ValidatorStep(w, v, r);
    case Working(k) => WorkerStep(w, k, r);
    case Recovering(c) => RecoveryStep(w, c, r);
    case Sweeping(z) => SweeperStep(w, z, r);
  }

  lemma OthersKnown(s: State, t: State)
    requires SessionInv(s) && Evolves(s.w, t.w) && WorldKnown(t.w)
    requires forall q :: q in t.procs ==> q in s.procs || ProcKnown(t.w.used, t.w.jobs, q)
    ensures SessionInv(t)
  {
    forall j | 0 <= j < |t.procs|
      ensures ProcKnown(t.w.used, t.w.jobs, t.procs[j])
    {
      if t.procs[j] in s.procs {
        KnownEvolves(s.w, t.w, t.procs[j]);
      }
    }
  }

  /** Every step of every run keeps the session facts. */
  lemma SessionStep(s: State, a: Action)
    requires SessionInv(s) && Enabled(s, a)
    ensures SessionInv(Next(s, a)) && Evolves(s.w, Next(s, a).w)
  {
    if a.Run? {
      ProcStep(s.w, s.procs[a.i], a.reply);
    }
    OthersKnown(s, Next(s, a));
  }
}
