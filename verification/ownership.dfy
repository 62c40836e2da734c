/** Ownership: at every moment at most one goroutine or queue slot drives a job, and the status
    of its record says which. None of the writers checks the status it overwrites, so this is what
    makes their unconditional writes safe. The results hold under one hypothesis, Guarded, which
    the code does not enforce.
*/
module Ownership {

  import opened Wrappers
  import opened Timestamps
  import opened Jobs
  import opened Lifecycle
  import opened Sessions

  // ---------- The hypothesis ----------

  /** The complete endpoint marks a job, and the stale sweep deletes one, only while its record is
      still uploading (or gone). A compare-and-set on the status would enforce this. */
  ghost predicate Guarded(s: State, a: Action)
    requires Enabled(s, a)
  {
    a.Run? ==> GuardHolds(s.w.jobs, s.procs[a.i])
  }

  ghost predicate GuardHolds(jobs: map<Id, Record>, p: Proc) {
    match p
    case Completing(HandlerMark(rec)) => StillUploading(jobs, rec.id)
    case Sweeping(SweepRaw(true, todo)) => todo != [] ==> StillUploading(jobs, todo[0].id)
    case Sweeping(SweepDrop(true, todo)) => todo != [] ==> StillUploading(jobs, todo[0].id)
    case _ => true
  }

  ghost predicate StillUploading(jobs: map<Id, Record>, id: Id) {
    id in jobs ==> jobs[id].status == Uploading
  }

  // ---------- Who drives a job ----------

  function ValidatorId(v: Validator): Id {
    match v
    case ValProbe(id, _) => id
    case ValReject(id, _) => id
    case ValRejectLoad(id) => id
    case ValRejectMark(rec) => rec.id
    case ValLoad(id) => id
    case ValMark(rec) => rec.id
    case ValEnqueue(rec) => rec.id
    case ValUndo(rec) => rec.id
    case ValUndoRaw(id, _, _) => id
  }

  function WorkerId(k: Worker): Option<Id> {
    match k
    case WorkIdle => None
    case WorkLoad(id) => Some(id)
    case WorkMark(rec) => Some(rec.id)
    case WorkFetch(rec) => Some(rec.id)
    case WorkTranscode(rec, _, _, _) => Some(rec.id)
    case WorkUpload(rec, _, _) => Some(rec.id)
    case WorkFinish(rec, _) => Some(rec.id)
    case WorkFail(rec) => Some(rec.id)
  }

  /** The job a goroutine has to itself. */
  function Claim(p: Proc): Option<Id> {
    match p
    case Creating(CreatePresign(rec)) => Some(rec.id)
    case Creating(CreateRollback(id)) => Some(id)
    case Checking(v) => Some(ValidatorId(v))
    case Working(k) => WorkerId(k)
    case Recovering(RecEnqueue(rec, _)) => Some(rec.id)
    case _ => None
  }

  /** The goroutines that will still move the job on: creators only undo their own insert, and
      after a failed enqueue only the raw object is left to delete. */
  ghost predicate Drives(p: Proc, id: Id) {
    Claim(p) == Some(id) && !p.Creating? && !(p.Checking? && p.validator.ValUndoRaw?)
  }

  ghost predicate InState(jobs: map<Id, Record>, id: Id, status: Status) {
    id in jobs && jobs[id].status == status
  }

  ghost predicate Blank(rec: Record) {
    rec.outputs == [] && rec.masterKey == None
  }

  ghost predicate ValidatorOk(jobs: map<Id, Record>, v: Validator) {
    match v
    case ValProbe(id, _) => InState(jobs, id, Validating)
    case ValReject(id, _) => InState(jobs, id, Validating)
    case ValRejectLoad(id) => InState(jobs, id, Validating)
    case ValRejectMark(rec) => InState(jobs, rec.id, Validating) && rec == jobs[rec.id].(status := Failed)
    case ValLoad(id) => InState(jobs, id, Validating)
    case ValMark(rec) => InState(jobs, rec.id, Validating) && rec == jobs[rec.id].(status := Pending, progress := 0)
    case ValEnqueue(rec) => InState(jobs, rec.id, Pending) && rec == jobs[rec.id]
    case ValUndo(rec) => InState(jobs, rec.id, Pending) && rec == jobs[rec.id].(status := Failed)
    case ValUndoRaw(id, _, stored) =>
      if stored then id in jobs ==> jobs[id].status == Failed else InState(jobs, id, Pending)
  }

  ghost predicate WorkerOk(jobs: map<Id, Record>, k: Worker) {
    match k
    case WorkIdle => true
    case WorkLoad(id) => InState(jobs, id, Pending)
    case WorkMark(rec) => InState(jobs, rec.id, Pending) && rec == jobs[rec.id].(status := Processing, progress := 0)
    case WorkFetch(rec) => InState(jobs, rec.id, Processing) && rec.status == Processing && Blank(rec)
    case WorkTranscode(rec, _, _, _) => InState(jobs, rec.id, Processing) && rec.status == Processing && Blank(rec)
    case WorkUpload(rec, _, _) => InState(jobs, rec.id, Processing) && rec.status == Processing && Blank(rec)
    case WorkFinish(rec, _) => InState(jobs, rec.id, Processing) && rec.status == Completed && rec.progress == 100
    case WorkFail(rec) => InState(jobs, rec.id, Processing) && rec.status == Failed && Blank(rec)
  }

  ghost predicate HandlerOk(issued: set<Id>, h: Handler) {
    match h
    case HandlerLoad(id) => id in issued
    case HandlerStat(rec) => rec.id in issued && rec.status == Uploading && Blank(rec)
    case HandlerMark(rec) => rec.id in issued && rec.status == Validating && Blank(rec)
  }

  /** An expired listing stays true until the sweep deletes the record; an upload listing may age. */
  ghost predicate TodoOk(jobs: map<Id, Record>, stale: bool, todo: seq<Record>) {
    forall r :: r in todo ==>
      if stale then r.status == Uploading
      else Terminal(r.status) && (r.id in jobs ==> jobs[r.id] == r)
  }

  ghost predicate SweeperOk(jobs: map<Id, Record>, z: Sweeper) {
    match z
    case SweepIdle(_) => true
    case SweepRaw(stale, todo) => TodoOk(jobs, stale, todo)
    case SweepTree(todo) => TodoOk(jobs, false, todo)
    case SweepOutputs(todo, _) => TodoOk(jobs, false, todo)
    case SweepDrop(stale, todo) => TodoOk(jobs, stale, todo)
  }

  ghost predicate ProcOk(jobs: map<Id, Record>, issued: set<Id>, p: Proc) {
    match p
    case Finished => true
    case Creating(_) => Claim(p).value !in issued
    case Completing(h) => HandlerOk(issued, h)
    case Checking(v) => ValidatorOk(jobs, v)
    case Working(k) => WorkerOk(jobs, k)
    case Recovering(RecEnqueue(rec, _)) => InState(jobs, rec.id, Pending) && rec == jobs[rec.id]
    case Recovering(RecFail(todo)) => todo != [] && todo[0].status == Validating
    case Recovering(_) => true
    case Sweeping(z) => SweeperOk(jobs, z)
  }

  // ---------- The invariant ----------

  ghost predicate Distinct(ids: seq<Id>) {
    forall j, k :: 0 <= j < k < |ids| ==> ids[j] != ids[k]
  }

  ghost predicate ClaimedBy(s: State, j: nat, id: Id) {
    j < |s.procs| && Claim(s.procs[j]) == Some(id)
  }

  ghost predicate Unclaimed(s: State, id: Id) {
    id !in s.w.queue && forall j: nat :: !ClaimedBy(s, j, id)
  }

  /** The head of recovery's list is the record as it stands. */
  ghost predicate HeadCurrent(jobs: map<Id, Record>, todo: seq<Record>) {
    todo != [] && InFlight(todo[0].status) ==> todo[0].id in jobs && jobs[todo[0].id] == todo[0]
  }

  /** What recovery has listed and not yet handled. */
  function Waiting(p: Proc): seq<Record> {
    match p
    case Recovering(RecNext(todo)) => todo
    case Recovering(RecEnqueue(_, todo)) => todo
    case Recovering(RecFail(todo)) => todo
    case _ => []
  }

  ghost predicate WaitsOk(s: State, todo: seq<Record>) {
    && DistinctIds(todo)
    && (forall r :: r in todo && InFlight(r.status) ==>
          r.id in s.w.jobs && s.w.jobs[r.id] == r && Unclaimed(s, r.id))
  }

  ghost predicate RecordOk(issued: set<Id>, id: Id, rec: Record) {
    && rec.id == id
    && (rec.status != Completed ==> Blank(rec))
    && (id !in issued ==> rec.status == Uploading)
  }

  ghost predicate RecordsOk(jobs: map<Id, Record>, issued: set<Id>) {
    forall id :: id in jobs ==> RecordOk(issued, id, jobs[id])
  }

  /** Goroutine 0 is recovery and then the server; requests exist only while it serves. */
  ghost predicate Shape(s: State) {
    && 0 < |s.procs| && s.procs[0].Recovering?
    && (forall j :: 1 <= j < |s.procs| ==> !s.procs[j].Recovering?)
    && (forall j :: 1 <= j < |s.procs| && (s.procs[j].Completing? || s.procs[j].Creating?) ==> IsServing(s))
  }

  ghost predicate QueueOk(s: State) {
    && Distinct(s.w.queue)
    && (forall id :: id in s.w.queue ==> InState(s.w.jobs, id, Pending) && forall j: nat :: !ClaimedBy(s, j, id))
  }

  /** Until recovery has listed the jobs, nothing drives any of them. */
  ghost predicate BootOk(s: State)
    requires s.procs != []
  {
    s.procs[0] == Recovering(RecList) ==> s.w.queue == [] && forall j: nat, id :: !ClaimedBy(s, j, id)
  }

  ghost predicate OwnInv(s: State) {
    && Shape(s)
    && BootOk(s)
    && (forall j :: 0 <= j < |s.procs| ==> ProcOk(s.w.jobs, s.w.issued, s.procs[j]))
    && (forall j: nat, k: nat, id :: ClaimedBy(s, j, id) && ClaimedBy(s, k, id) ==> j == k)
    && QueueOk(s)
    && WaitsOk(s, Waiting(s.procs[0]))
    && RecordsOk(s.w.jobs, s.w.issued)
  }

  // ---------- One goroutine moves, one record changes ----------

  ghost predicate SameBut(w: World, w': World, id: Id) {
    && (forall x :: x != id ==> (x in w.jobs <==> x in w'.jobs))
    && (forall x :: x != id && x in w.jobs && x in w'.jobs ==> w.jobs[x] == w'.jobs[x])
    && w.issued <= w'.issued && (forall x :: x in w'.issued ==> x in w.issued || x == id)
  }

  /** An expired listing of id survives: a terminal record stays as it is or goes. */
  ghost predicate KeepsTerminal(w: World, w': World, id: Id) {
    id in w.jobs && id in w'.jobs && Terminal(w.jobs[id].status) ==> w'.jobs[id] == w.jobs[id]
  }

  lemma TodoFrame(w: World, w': World, id: Id, stale: bool, todo: seq<Record>)
    requires TodoOk(w.jobs, stale, todo) && SameBut(w, w', id) && KeepsTerminal(w, w', id)
    requires id in w'.jobs ==> id in w.jobs
    ensures TodoOk(w'.jobs, stale, todo)
  {
  }

  lemma ProcFrame(w: World, w': World, id: Id, p: Proc)
    requires ProcOk(w.jobs, w.issued, p) && SameBut(w, w', id) && KeepsTerminal(w, w', id)
    requires id in w'.jobs ==> id in w.jobs
    requires Claim(p) != Some(id)
    ensures ProcOk(w'.jobs, w'.issued, p)
  {
    match p
    case Sweeping(SweepRaw(stale, todo)) => TodoFrame(w, w', id, stale, todo);
    case Sweeping(SweepTree(todo)) => TodoFrame(w, w', id, false, todo);
    case Sweeping(SweepOutputs(todo, _)) => TodoFrame(w, w', id, false, todo);
    case Sweeping(SweepDrop(stale, todo)) => TodoFrame(w, w', id, stale, todo);
    case _ =>
  }

  /** t is s after goroutine i moved to `me` and only the record of id changed. */
  ghost predicate Moves(s: State, t: State, i: nat, id: Id) {
    && i < |s.procs| == |t.procs| && t.procs == s.procs[i := t.procs[i]]
    && SameBut(s.w, t.w, id) && KeepsTerminal(s.w, t.w, id)
    && (id in t.w.jobs ==> id in s.w.jobs && RecordOk(t.w.issued, id, t.w.jobs[id]))
    && (s.procs[i].Recovering? <==> t.procs[i].Recovering?)
    && (t.procs[i].Completing? || t.procs[i].Creating? ==> s.procs[i].Completing? || s.procs[i].Creating?)
    && (IsServing(s) ==> IsServing(t))
    && ProcOk(t.w.jobs, t.w.issued, t.procs[i])
  }

  ghost predicate ClaimFree(s: State, i: nat, id: Id) {
    forall j: nat :: j != i ==> !ClaimedBy(s, j, id)
  }

  /** If the moving goroutine's claim, the queue and the waiting list fit together again,
      the invariant holds again. */
  lemma Settle(s: State, t: State, i: nat, id: Id)
    requires OwnInv(s) && Moves(s, t, i, id)
    requires forall j: nat :: j != i && ClaimedBy(s, j, id) ==> ProcOk(t.w.jobs, t.w.issued, s.procs[j])
    requires Claim(t.procs[i]).Some? ==> ClaimFree(s, i, Claim(t.procs[i]).value) && Claim(t.procs[i]).value !in t.w.queue
    requires Distinct(t.w.queue)
    requires forall x :: x in t.w.queue ==> InState(t.w.jobs, x, Pending) && ClaimFree(s, i, x)
    requires WaitsOk(t, Waiting(t.procs[0]))
    requires t.procs[0] == Recovering(RecList) ==> s.procs[0] == Recovering(RecList) && t.w.queue == [] && Claim(t.procs[i]) == None
    ensures OwnInv(t)
  {
    forall j | 0 <= j < |t.procs|
      ensures ProcOk(t.w.jobs, t.w.issued, t.procs[j])
    {
      if j != i && !ClaimedBy(s, j, id) {
        ProcFrame(s.w, t.w, id, s.procs[j]);
      }
    }
    forall j: nat, x | ClaimedBy(t, j, x) && j != i
      ensures ClaimedBy(s, j, x)
    {
    }
    forall x | x in t.w.jobs
      ensures RecordOk(t.w.issued, x, t.w.jobs[x])
    {
    }
  }

  /** What a step does to the job it is about: its record stays in order and the goroutine's claim,
      if it keeps one, is still that job, or the job went into the queue as pending. */
  ghost predicate OwnOut(w: World, p: Proc, o: Out, id: Id) {
    && SameBut(w, o.w, id) && KeepsTerminal(w, o.w, id)
    && (id in o.w.jobs ==> id in w.jobs && RecordOk(o.w.issued, id, o.w.jobs[id]))
    && ProcOk(o.w.jobs, o.w.issued, o.me) && o.spawned == []
    && !o.me.Recovering? && !o.me.Completing? && (o.me.Creating? ==> p.Creating?)
    && (Claim(o.me).Some? ==> Claim(o.me).value == id)
    && (o.w.queue == w.queue || (o.w.queue == w.queue + [id] && Claim(o.me) == None && InState(o.w.jobs, id, Pending)))
  }

  /** Goroutine i after a step that starts no other. */
  function Stepped(s: State, i: nat, o: Out): State
    requires i < |s.procs|
  {
    State(o.w, s.procs[i := o.me])
  }

  lemma StepsTo(s: State, i: nat, r: Reply)
    requires i < |s.procs| && StepProc(s.w, s.procs[i], r).spawned == []
    ensures StepRun(s, i, r) == Stepped(s, i, StepProc(s.w, s.procs[i], r))
  {
  }

  /** A goroutine works on the job it has claimed, and perhaps hands it to the queue. */
  lemma OwnMove(s: State, i: nat, o: Out, id: Id)
    requires OwnInv(s) && 0 < i < |s.procs|
    requires Claim(s.procs[i]) == Some(id) && OwnOut(s.w, s.procs[i], o, id)
    ensures OwnInv(Stepped(s, i, o))
  {
    var t := Stepped(s, i, o);
    assert ClaimedBy(s, i, id);
    assert id !in s.w.queue;
    assert forall j: nat, x :: ClaimedBy(t, j, x) ==> ClaimedBy(s, j, x);
    assert forall x :: x in t.w.queue ==> x in s.w.queue || (x == id && InState(t.w.jobs, id, Pending));
    assert forall x :: x in s.w.queue ==> InState(s.w.jobs, x, Pending);
    Settle(s, t, i, id);
  }

  /** The owner's write keeps its record in order. */
  lemma UpdateOwn(w: World, rec: Record, r: Reply)
    requires RecordsOk(w.jobs, w.issued) && RecordOk(w.issued, rec.id, rec)
    requires rec.id in w.jobs && InFlight(w.jobs[rec.id].status)
    ensures var w' := Update(w, rec, r);
      && SameBut(w, w', rec.id) && KeepsTerminal(w, w', rec.id)
      && rec.id in w'.jobs && RecordOk(w'.issued, rec.id, w'.jobs[rec.id])
      && w'.queue == w.queue && (w'.jobs[rec.id] == rec || w'.jobs[rec.id] == w.jobs[rec.id])
      && (r.Ok? ==> w'.jobs[rec.id] == rec)
  {
  }

  lemma CreatorOut(w: World, c: Creator, r: Reply)
    requires ProcOk(w.jobs, w.issued, Creating(c)) && CreatorKnown(w.used, w.jobs, c) && RecordsOk(w.jobs, w.issued)
    ensures OwnOut(w, Creating(c), StepCreator(w, c, r), Claim(Creating(c)).value)
  {
  }

  lemma ValidatorMarksOut(w: World, v: Validator, r: Reply)
    requires v.ValRejectMark? || v.ValMark? || v.ValUndo?
    requires ValidatorOk(w.jobs, v) && RecordsOk(w.jobs, w.issued)
    ensures OwnOut(w, Checking(v), StepValidator(w, v, r), v.rec.id)
  {
    UpdateOwn(w, v.rec, r);
  }

  lemma ValidatorOut(w: World, v: Validator, r: Reply)
    requires ValidatorOk(w.jobs, v) && ValidatorKnown(w.used, w.jobs, v) && RecordsOk(w.jobs, w.issued)
    ensures OwnOut(w, Checking(v), StepValidator(w, v, r), ValidatorId(v))
  {
    if v.ValRejectMark? || v.ValMark? || v.ValUndo? {
      ValidatorMarksOut(w, v, r);
    }
  }

  lemma TranscodeOut(w: World, k: Worker, r: Reply)
    requires k.WorkTranscode? && WorkerOk(w.jobs, k) && RecordsOk(w.jobs, w.issued)
    ensures OwnOut(w, Working(k), StepWorker(w, k, r), k.rec.id)
  {
    if k.ticks != [] && !r.LocalError? {
      TickOut(w, k, r);
    }
  }

  lemma TickOut(w: World, k: Worker, r: Reply)
    requires k.WorkTranscode? && k.ticks != [] && !r.LocalError? && WorkerOk(w.jobs, k) && RecordsOk(w.jobs, w.issued)
    ensures OwnOut(w, Working(k), StepWorker(w, k, r), k.rec.id)
  {
    UpdateOwn(w, k.rec.(progress := Progress.Clamp(k.ticks[0])), r);
  }

  lemma PutOut(w: World, k: Worker, r: Reply)
    requires k.WorkUpload? && k.left != [] && WorkerOk(w.jobs, k) && RecordsOk(w.jobs, w.issued)
    ensures OwnOut(w, Working(k), StepWorker(w, k, r), k.rec.id)
  {
  }

  lemma UploadOut(w: World, k: Worker, r: Reply)
    requires k.WorkUpload? && WorkerOk(w.jobs, k) && RecordsOk(w.jobs, w.issued)
    ensures OwnOut(w, Working(k), StepWorker(w, k, r), k.rec.id)
  {
    if k.left != [] {
      PutOut(w, k, r);
    }
  }

  lemma WorkerOut(w: World, k: Worker, r: Reply)
    requires WorkerOk(w.jobs, k) && WorkerKnown(w.used, w.jobs, k) && !k.WorkIdle? && RecordsOk(w.jobs, w.issued)
    ensures OwnOut(w, Working(k), StepWorker(w, k, r), WorkerId(k).value)
  {
    if k.WorkTranscode? {
      TranscodeOut(w, k, r);
    } else if k.WorkUpload? {
      UploadOut(w, k, r);
    } else if k.WorkMark? || k.WorkFinish? || k.WorkFail? {
      UpdateOwn(w, k.rec, r);
    }
  }

  lemma OwnerOut(w: World, p: Proc, r: Reply)
    requires ProcOk(w.jobs, w.issued, p) && ProcKnown(w.used, w.jobs, p) && RecordsOk(w.jobs, w.issued)
    requires p.Creating? || p.Checking? || (p.Working? && !p.worker.WorkIdle?)
    ensures Claim(p).Some? && OwnOut(w, p, StepProc(w, p, r), Claim(p).value)
  {
    match p
    case Creating(c) => CreatorOut(w, c, r);
    case Checking(v) => ValidatorOut(w, v, r);
    case Working(k) => WorkerOut(w, k, r);
  }

  lemma OwnerKeeps(s: State, i: nat, r: Reply)
    requires OwnInv(s) && SessionInv(s) && Enabled(s, Run(i, r))
    requires s.procs[i].Creating? || s.procs[i].Checking? || (s.procs[i].Working? && !s.procs[i].worker.WorkIdle?)
    ensures OwnInv(StepRun(s, i, r))
  {
    assert ProcKnown(s.w.used, s.w.jobs, s.procs[i]);
    OwnerOut(s.w, s.procs[i], r);
    StepsTo(s, i, r);
    OwnMove(s, i, StepProc(s.w, s.procs[i], r), Claim(s.procs[i]).value);
  }

  /** An idle worker takes the next job out of the queue. */
  lemma DequeueKeeps(s: State, i: nat, r: Reply)
    requires OwnInv(s) && Enabled(s, Run(i, r)) && s.procs[i] == Working(WorkIdle)
    ensures OwnInv(StepRun(s, i, r))
  {
    var t, id := StepRun(s, i, r), s.w.queue[0];
    assert id in s.w.queue;
    assert forall x :: x in t.w.queue ==> x in s.w.queue && x != id;
    assert forall j: nat, x :: j != i && ClaimedBy(t, j, x) ==> ClaimedBy(s, j, x);
    Settle(s, t, i, id);
  }

  /** A goroutine without a claim touches at most the record of id, and that only when nothing
      drives the job; what it then claims, nobody else does. */
  lemma FreeMove(s: State, i: nat, o: Out, id: Id)
    requires OwnInv(s) && 0 < i < |s.procs| && Claim(s.procs[i]) == None && FreeOut(s, i, o, id)
    ensures OwnInv(Stepped(s, i, o))
  {
    var t := Stepped(s, i, o);
    assert forall j: nat, x :: j != i && ClaimedBy(t, j, x) ==> ClaimedBy(s, j, x);
    assert forall x :: x in s.w.queue ==> InState(s.w.jobs, x, Pending);
    Settle(s, t, i, id);
  }

  ghost predicate FreeOut(s: State, i: nat, o: Out, id: Id)
    requires i < |s.procs|
  {
    && SameBut(s.w, o.w, id) && KeepsTerminal(s.w, o.w, id)
    && (id in o.w.jobs ==> id in s.w.jobs && RecordOk(o.w.issued, id, o.w.jobs[id]))
    && ProcOk(o.w.jobs, o.w.issued, o.me) && o.spawned == [] && o.w.queue == s.w.queue
    && !o.me.Recovering? && !o.me.Creating? && (o.me.Completing? ==> s.procs[i].Completing?)
    && (id in s.w.jobs && InFlight(s.w.jobs[id].status) ==> o.w.jobs == s.w.jobs)
    && (forall j: nat :: j != i && ClaimedBy(s, j, id) ==> ProcOk(o.w.jobs, o.w.issued, s.procs[j]))
    && (Claim(o.me).Some? ==> Claim(o.me).value == id && ClaimFree(s, i, id) && InState(s.w.jobs, id, Uploading) && IsServing(s))
  }

  lemma HandlerOut(w: World, h: Handler, r: Reply)
    requires HandlerOk(w.issued, h) && HandlerKnown(w.used, w.jobs, h) && RecordsOk(w.jobs, w.issued)
    requires h.HandlerMark? ==> StillUploading(w.jobs, h.rec.id)
    ensures var o, id := StepHandler(w, h, r), HandlerId(h);
      && SameBut(w, o.w, id) && KeepsTerminal(w, o.w, id)
      && (id in o.w.jobs ==> id in w.jobs && RecordOk(o.w.issued, id, o.w.jobs[id]))
      && ProcOk(o.w.jobs, o.w.issued, o.me) && o.spawned == [] && o.w.queue == w.queue
      && (o.me == Finished || o.me.Completing? || o.me.Checking?)
      && (!h.HandlerMark? ==> o.w == w)
      && (Claim(o.me).Some? ==> Claim(o.me).value == id && InState(w.jobs, id, Uploading))
  {
  }

  function HandlerId(h: Handler): Id {
    if h.HandlerLoad? then h.id else h.rec.id
  }

  /** Under the guard a handler's write finds the job unclaimed and makes it the validator's. */
  lemma HandlerKeeps(s: State, i: nat, r: Reply)
    requires OwnInv(s) && SessionInv(s) && Enabled(s, Run(i, r)) && s.procs[i].Completing?
    requires Guarded(s, Run(i, r))
    ensures OwnInv(StepRun(s, i, r))
  {
    var h := s.procs[i].handler;
    assert ProcOk(s.w.jobs, s.w.issued, s.procs[i]) && ProcKnown(s.w.used, s.w.jobs, s.procs[i]);
    HandlerOut(s.w, h, r);
    if h.HandlerMark? && h.rec.id in s.w.jobs {
      UploadingIsFree(s, h.rec.id);
    }
    StepsTo(s, i, r);
    FreeMove(s, i, StepHandler(s.w, h, r), HandlerId(h));
  }

  /** Nothing drives an uploading job whose session was issued. */
  lemma UploadingIsFree(s: State, id: Id)
    requires OwnInv(s) && InState(s.w.jobs, id, Uploading) && id in s.w.issued
    ensures Unclaimed(s, id)
  {
    forall j: nat
      ensures !ClaimedBy(s, j, id)
    {
      if ClaimedBy(s, j, id) {
        ClaimStatus(s, j, id);
      }
    }
  }

  /** The status of its record fixes who may have claimed a job. */
  lemma ClaimStatus(s: State, j: nat, id: Id)
    requires OwnInv(s) && ClaimedBy(s, j, id)
    ensures match s.procs[j]
      case Creating(_) => id !in s.w.issued && (id in s.w.jobs ==> s.w.jobs[id].status == Uploading)
      case Checking(ValEnqueue(_)) => InState(s.w.jobs, id, Pending)
      case Checking(ValUndo(_)) => InState(s.w.jobs, id, Pending)
      case Checking(ValUndoRaw(_, _, stored)) =>
        if stored then InState(s.w.jobs, id, Failed) || id !in s.w.jobs else InState(s.w.jobs, id, Pending)
      case Checking(_) => InState(s.w.jobs, id, Validating)
      case Working(WorkLoad(_)) => InState(s.w.jobs, id, Pending)
      case Working(WorkMark(_)) => InState(s.w.jobs, id, Pending)
      case Working(_) => InState(s.w.jobs, id, Processing)
      case _ => InState(s.w.jobs, id, Pending)
  {
    assert ProcOk(s.w.jobs, s.w.issued, s.procs[j]);
    if s.procs[j].Creating? && id in s.w.jobs {
      assert RecordOk(s.w.issued, id, s.w.jobs[id]);
    }
  }

  lemma TodoRest(w: World, w': World, id: Id, stale: bool, todo: seq<Record>)
    requires TodoOk(w.jobs, stale, todo) && SameBut(w, w', id) && KeepsTerminal(w, w', id)
    requires id in w'.jobs ==> id in w.jobs
    ensures TodoOk(w'.jobs, stale, todo) && (todo != [] ==> TodoOk(w'.jobs, stale, todo[1..]))
  {
    TodoFrame(w, w', id, stale, todo);
  }

  lemma DropOut(w: World, z: Sweeper, r: Reply)
    requires z.SweepDrop? && SweeperOk(w.jobs, z) && RecordsOk(w.jobs, w.issued)
    ensures SweepOut(w, z, StepSweeper(w, z, r))
  {
    var o := StepSweeper(w, z, r);
    if z.todo != [] {
      TodoRest(w, o.w, SweptId(z), z.stale, z.todo);
    }
  }

  lemma RawOut(w: World, z: Sweeper, r: Reply)
    requires z.SweepRaw? && SweeperOk(w.jobs, z) && RecordsOk(w.jobs, w.issued)
    ensures SweepOut(w, z, StepSweeper(w, z, r))
  {
    TodoRest(w, w, SweptId(z), z.stale, z.todo);
  }

  lemma TreeOut(w: World, z: Sweeper, r: Reply)
    requires z.SweepTree? && SweeperOk(w.jobs, z) && RecordsOk(w.jobs, w.issued)
    ensures SweepOut(w, z, StepSweeper(w, z, r))
  {
    TodoRest(w, w, SweptId(z), false, z.todo);
  }

  lemma OutputsOut(w: World, z: Sweeper, r: Reply)
    requires z.SweepOutputs? && SweeperOk(w.jobs, z) && RecordsOk(w.jobs, w.issued)
    ensures SweepOut(w, z, StepSweeper(w, z, r))
  {
    TodoRest(w, w, SweptId(z), false, z.todo);
  }

  /** A sweep step leaves the records alone, except that its last step deletes one. */
  ghost predicate SweepOut(w: World, z: Sweeper, o: Out) {
    var id := SweptId(z);
    && SameBut(w, o.w, id) && KeepsTerminal(w, o.w, id)
    && (id in o.w.jobs ==> id in w.jobs && o.w.jobs[id] == w.jobs[id])
    && ProcOk(o.w.jobs, o.w.issued, o.me) && o.me.Sweeping? && o.spawned == [] && o.w.queue == w.queue && o.w.issued == w.issued
    && (!z.SweepDrop? || z.todo == [] ==> o.w.jobs == w.jobs)
  }

  lemma SweeperOut(w: World, z: Sweeper, r: Reply)
    requires SweeperOk(w.jobs, z) && RecordsOk(w.jobs, w.issued) && SweeperAnswers(w, z, r)
    ensures SweepOut(w, z, StepSweeper(w, z, r))
  {
    match z
    case SweepIdle(_) =>
    case SweepRaw(_, _) => RawOut(w, z, r);
    case SweepTree(_) => TreeOut(w, z, r);
    case SweepOutputs(_, _) => OutputsOut(w, z, r);
    case SweepDrop(_, _) => DropOut(w, z, r);
  }

  /** The job a sweeper is about to delete. */
  function SweptId(z: Sweeper): Id {
    if !z.SweepIdle? && z.todo != [] then z.todo[0].id else ""
  }

  /** What a sweep step leaves is in order for the goroutines that have claimed its job. */
  lemma SweptClaims(s: State, i: nat, o: Out, id: Id)
    requires OwnInv(s) && i < |s.procs| && s.procs[i].Sweeping? && id == SweptId(s.procs[i].sweeper)
    requires SweepOut(s.w, s.procs[i].sweeper, o)
    requires id in s.w.jobs && InFlight(s.w.jobs[id].status) ==> o.w.jobs == s.w.jobs
    ensures forall j: nat :: j != i && ClaimedBy(s, j, id) ==> ProcOk(o.w.jobs, o.w.issued, s.procs[j])
  {
    forall j: nat | j != i && ClaimedBy(s, j, id)
      ensures ProcOk(o.w.jobs, o.w.issued, s.procs[j])
    {
      assert ProcOk(s.w.jobs, s.w.issued, s.procs[j]);
    }
  }

  /** Under the guard no sweep deletes a record that is in flight. */
  lemma SweeperKeeps(s: State, i: nat, r: Reply)
    requires OwnInv(s) && SessionInv(s) && Enabled(s, Run(i, r)) && s.procs[i].Sweeping?
    requires Guarded(s, Run(i, r))
    ensures OwnInv(StepRun(s, i, r))
  {
    var z := s.procs[i].sweeper;
    assert ProcOk(s.w.jobs, s.w.issued, s.procs[i]);
    SweeperOut(s.w, z, r);
    var o, id := StepSweeper(s.w, z, r), SweptId(z);
    if o.w.jobs != s.w.jobs {
      assert z.todo[0] in z.todo;
    }
    SweptClaims(s, i, o, id);
    StepsTo(s, i, r);
    FreeMove(s, i, o, id);
  }

  // ---------- Recovery ----------

  /** Recovery moves on to `rest`; what it still waits for is as it was. */
  lemma RestWaits(s: State, t: State, todo: seq<Record>)
    requires OwnInv(s) && todo != [] && Waiting(s.procs[0]) == todo
    requires SameBut(s.w, t.w, todo[0].id)
    requires forall j: nat, x :: ClaimedBy(t, j, x) ==> ClaimedBy(s, j, x) || x == todo[0].id
    requires forall x :: x in t.w.queue ==> x in s.w.queue || x == todo[0].id
    ensures WaitsOk(t, todo[1..])
  {
    forall r | r in todo[1..] && InFlight(r.status)
      ensures r.id in t.w.jobs && t.w.jobs[r.id] == r && Unclaimed(t, r.id)
    {
      var k :| 0 <= k < |todo[1..]| && todo[1..][k] == r;
      assert r == todo[k + 1] && r in todo && r.id != todo[0].id;
    }
  }

  /** Recovery's turn at the head of its list: the record is still as it was listed. */
  lemma RedriveKeeps(s: State, todo: seq<Record>, r: Reply)
    requires OwnInv(s) && s.procs[0] == Recovering(RecNext(todo))
    requires todo != [] && todo[0].status != Validating
    ensures OwnInv(StepRun(s, 0, r))
  {
    if todo[0].status == Processing {
      ResetKeeps(s, todo, r);
    } else if todo[0].status == Pending {
      RequeueKeeps(s, todo, r);
    } else {
      SkipKeeps(s, todo);
      assert StepRun(s, 0, r).procs == s.procs[0 := Recovering(RecNext(todo[1..]))];
    }
  }

  lemma ResetKeeps(s: State, todo: seq<Record>, r: Reply)
    requires OwnInv(s) && s.procs[0] == Recovering(RecNext(todo))
    requires todo != [] && todo[0].status == Processing
    ensures OwnInv(StepRun(s, 0, r))
  {
    var rec, t := todo[0], StepRun(s, 0, r);
    assert rec in todo && rec.id in s.w.jobs && s.w.jobs[rec.id] == rec && Unclaimed(s, rec.id);
    assert Waiting(t.procs[0]) == todo[1..];
    assert forall j: nat, x :: j > 0 && ClaimedBy(t, j, x) ==> ClaimedBy(s, j, x);
    UpdateOwn(s.w, rec.(status := Pending), r);
    RestWaits(s, t, todo);
    Settle(s, t, 0, rec.id);
  }

  lemma RequeueKeeps(s: State, todo: seq<Record>, r: Reply)
    requires OwnInv(s) && s.procs[0] == Recovering(RecNext(todo))
    requires todo != [] && todo[0].status == Pending
    ensures OwnInv(StepRun(s, 0, r))
  {
    var rec, t := todo[0], StepRun(s, 0, r);
    assert rec in todo && rec.id in s.w.jobs && s.w.jobs[rec.id] == rec && Unclaimed(s, rec.id);
    assert Waiting(t.procs[0]) == todo[1..];
    assert forall j: nat, x :: j > 0 && ClaimedBy(t, j, x) ==> ClaimedBy(s, j, x);
    RestWaits(s, t, todo);
    Settle(s, t, 0, rec.id);
  }

  /** A new goroutine, whose job nothing drives and recovery does not wait for. */
  lemma Start(s: State, p: Proc)
    requires OwnInv(s) && ProcOk(s.w.jobs, s.w.issued, p) && !p.Recovering?
    requires p.Completing? || p.Creating? ==> IsServing(s)
    requires Claim(p).Some? ==> Unclaimed(s, Claim(p).value) && s.procs[0] != Recovering(RecList)
    requires Claim(p).Some? ==> forall r :: r in Waiting(s.procs[0]) && InFlight(r.status) ==> r.id != Claim(p).value
    ensures OwnInv(s.(procs := s.procs + [p]))
  {
    var t := s.(procs := s.procs + [p]);
    assert forall j: nat, x :: ClaimedBy(t, j, x) ==> ClaimedBy(s, j, x) || (j == |s.procs| && Claim(p) == Some(x));
    assert forall j: nat, x :: j < |s.procs| && ClaimedBy(t, j, x) ==> ClaimedBy(s, j, x);
    assert t.procs[0] == s.procs[0];
  }

  /** Recovery drops the head of its list, for good or to hand it to a validator. */
  lemma SkipKeeps(s: State, todo: seq<Record>)
    requires OwnInv(s) && todo != [] && s.procs[0] == Recovering(RecNext(todo))
    ensures OwnInv(s.(procs := s.procs[0 := Recovering(RecNext(todo[1..]))]))
  {
    var m := s.(procs := s.procs[0 := Recovering(RecNext(todo[1..]))]);
    assert forall j: nat, x :: ClaimedBy(m, j, x) <==> ClaimedBy(s, j, x);
    RestWaits(s, m, todo);
    Settle(s, m, 0, todo[0].id);
  }

  lemma MissingKeeps(s: State, todo: seq<Record>)
    requires OwnInv(s) && todo != [] && s.procs[0] == Recovering(RecNext(todo)) && todo[0].status == Validating
    ensures OwnInv(s.(procs := s.procs[0 := Recovering(RecFail(todo))]))
  {
    var m := s.(procs := s.procs[0 := Recovering(RecFail(todo))]);
    assert forall j: nat, x :: ClaimedBy(m, j, x) <==> ClaimedBy(s, j, x);
    Settle(s, m, 0, todo[0].id);
  }

  lemma RevalidateKeeps(s: State, todo: seq<Record>, r: Reply)
    requires OwnInv(s) && s.procs[0] == Recovering(RecNext(todo))
    requires todo != [] && todo[0].status == Validating
    ensures OwnInv(StepRun(s, 0, r))
  {
    var rec, t := todo[0], StepRun(s, 0, r);
    if r.Ok? && rec.rawKey !in s.w.objs {
      assert [rec] + todo[1..] == todo;
      MissingKeeps(s, todo);
      assert t == s.(procs := s.procs[0 := Recovering(RecFail(todo))]);
    } else {
      var m := s.(procs := s.procs[0 := Recovering(RecNext(todo[1..]))]);
      SkipKeeps(s, todo);
      if r.Ok? {
        assert rec in todo && Unclaimed(s, rec.id);
        assert forall j: nat, x :: ClaimedBy(m, j, x) <==> ClaimedBy(s, j, x);
        Start(m, Checking(ValProbe(rec.id, rec.rawKey)));
        assert t == m.(procs := m.procs + [Checking(ValProbe(rec.id, rec.rawKey))]);
      } else {
        assert t == m;
      }
    }
  }

  lemma ListKeeps(s: State, r: Reply)
    requires OwnInv(s) && Enabled(s, Run(0, r)) && s.procs[0] == Recovering(RecList)
    ensures OwnInv(StepRun(s, 0, r))
  {
    var t := StepRun(s, 0, r);
    assert forall j: nat, x :: ClaimedBy(t, j, x) <==> ClaimedBy(s, j, x);
    Settle(s, t, 0, "");
  }

  lemma EnqueueKeeps(s: State, rec: Record, todo: seq<Record>, r: Reply)
    requires OwnInv(s) && s.procs[0] == Recovering(RecEnqueue(rec, todo))
    ensures OwnInv(StepRun(s, 0, r))
  {
    var t := StepRun(s, 0, r);
    assert ClaimedBy(s, 0, rec.id) && ProcOk(s.w.jobs, s.w.issued, s.procs[0]);
    assert forall j: nat, x :: ClaimedBy(t, j, x) ==> j > 0 && ClaimedBy(s, j, x);
    assert forall x :: x in t.w.queue ==> x in s.w.queue || x == rec.id;
    Settle(s, t, 0, rec.id);
  }

  lemma FailKeeps(s: State, todo: seq<Record>, r: Reply)
    requires OwnInv(s) && s.procs[0] == Recovering(RecFail(todo))
    ensures OwnInv(StepRun(s, 0, r))
  {
    var t := StepRun(s, 0, r);
    assert ProcOk(s.w.jobs, s.w.issued, s.procs[0]);
    assert todo[0] in todo;
    assert forall j: nat, x :: ClaimedBy(t, j, x) <==> ClaimedBy(s, j, x);
    RestWaits(s, t, todo);
    Settle(s, t, 0, todo[0].id);
  }

  lemma RecoveryKeeps(s: State, r: Reply)
    requires OwnInv(s) && SessionInv(s) && Enabled(s, Run(0, r)) && s.procs[0].Recovering?
    ensures OwnInv(StepRun(s, 0, r))
  {
    match s.procs[0].recovery
    case RecList => ListKeeps(s, r);
    case RecNext(todo) =>
      if todo == [] {
        ServeKeeps(s, r);
      } else if todo[0].status == Validating {
        RevalidateKeeps(s, todo, r);
      } else {
        RedriveKeeps(s, todo, r);
      }
    case RecEnqueue(rec, todo) => EnqueueKeeps(s, rec, todo, r);
    case RecFail(todo) => FailKeeps(s, todo, r);
    case Serving =>
  }

  lemma ServeKeeps(s: State, r: Reply)
    requires OwnInv(s) && s.procs[0] == Recovering(RecNext([]))
    ensures OwnInv(StepRun(s, 0, r))
  {
    var t := StepRun(s, 0, r);
    assert forall j: nat, x :: ClaimedBy(t, j, x) <==> ClaimedBy(s, j, x);
    Settle(s, t, 0, "");
  }

  // ---------- Main results ----------

  lemma RunKeeps(s: State, i: nat, r: Reply)
    requires OwnInv(s) && SessionInv(s) && Enabled(s, Run(i, r)) && Guarded(s, Run(i, r))
    ensures OwnInv(StepRun(s, i, r))
  {
    match s.procs[i]
    case Finished =>
    case Creating(_) => OwnerKeeps(s, i, r);
    case Completing(_) => HandlerKeeps(s, i, r);
    case Checking(_) => OwnerKeeps(s, i, r);
    case Working(k) => if k.WorkIdle? { DequeueKeeps(s, i, r); } else { OwnerKeeps(s, i, r); }
    case Recovering(_) => RecoveryKeeps(s, r);
    case Sweeping(_) => SweeperKeeps(s, i, r);
  }

  /** A new session gets an id nothing in the system refers to. */
  lemma FreshId(s: State, id: Id)
    requires OwnInv(s) && SessionInv(s) && id !in s.w.used
    ensures id !in s.w.jobs && Unclaimed(s, id)
  {
    forall j: nat
      ensures !ClaimedBy(s, j, id)
    {
      if ClaimedBy(s, j, id) {
        ClaimUsed(s, j, id);
      }
    }
  }

  lemma ClaimUsed(s: State, j: nat, id: Id)
    requires OwnInv(s) && SessionInv(s) && ClaimedBy(s, j, id)
    ensures id in s.w.used
  {
    assert ProcKnown(s.w.used, s.w.jobs, s.procs[j]) && ProcOk(s.w.jobs, s.w.issued, s.procs[j]);
  }

  lemma CreateKeeps(s: State, a: Action)
    requires OwnInv(s) && SessionInv(s) && a.Create? && Enabled(s, a)
    ensures OwnInv(Next(s, a))
  {
    FreshId(s, a.id);
    var m := s.(w := Next(s, a).w);
    assert forall j: nat, x :: ClaimedBy(m, j, x) <==> ClaimedBy(s, j, x);
    forall j | 0 <= j < |m.procs|
      ensures ProcOk(m.w.jobs, m.w.issued, m.procs[j])
    {
      BornFrame(s, m.w, a.id, j);
    }
    if a.reply.Ok? {
      Start(m, Creating(CreatePresign(NewRecord(a.id, a.name, a.kind, a.createdAt))));
    }
  }

  /** A record with a fresh id concerns nobody. */
  lemma BornFrame(s: State, w': World, id: Id, j: nat)
    requires OwnInv(s) && SessionInv(s) && j < |s.procs| && id !in s.w.used
    requires SameBut(s.w, w', id) && w'.issued == s.w.issued
    ensures ProcOk(w'.jobs, w'.issued, s.procs[j])
  {
    FreshId(s, id);
    assert !ClaimedBy(s, j, id);
    assert ProcKnown(s.w.used, s.w.jobs, s.procs[j]) && ProcOk(s.w.jobs, s.w.issued, s.procs[j]);
  }

  lemma CrashKeeps(s: State, workers: nat)
    requires OwnInv(s)
    ensures OwnInv(Next(s, Crash(workers)))
  {
    var t := Next(s, Crash(workers));
    assert forall j: nat, x :: !ClaimedBy(t, j, x);
  }

  /** Every guarded step, with any failure or crash, keeps the ownership invariant. */
  lemma OwnStep(s: State, a: Action)
    requires OwnInv(s) && SessionInv(s) && Enabled(s, a) && Guarded(s, a)
    ensures OwnInv(Next(s, a))
  {
    match a
    case Crash(workers) => CrashKeeps(s, workers);
    case Pass(_) => StillOwned(s, Next(s, a));
    case ClientPut(_, _) => StillOwned(s, Next(s, a));
    case Create(_, _, _, _, _) => CreateKeeps(s, a);
    case Complete(id) => Start(s, Completing(HandlerLoad(id)));
    case Run(i, r) => RunKeeps(s, i, r);
  }

  lemma SameRecords(w: World, w': World, p: Proc)
    requires ProcOk(w.jobs, w.issued, p) && w'.jobs == w.jobs && w'.issued == w.issued
    ensures ProcOk(w'.jobs, w'.issued, p)
  {
  }

  lemma StillOwned(s: State, t: State)
    requires OwnInv(s) && t.procs == s.procs
    requires t.w == s.w.(now := t.w.now, objs := t.w.objs, tampered := t.w.tampered)
    ensures OwnInv(t)
  {
    assert forall j: nat, x :: ClaimedBy(t, j, x) <==> ClaimedBy(s, j, x);
    forall j | 0 <= j < |t.procs|
      ensures ProcOk(t.w.jobs, t.w.issued, t.procs[j])
    {
      SameRecords(s.w, t.w, s.procs[j]);
    }
  }

  /** A run whose every step respects the guard. */
  ghost predicate GuardedRun(s: State, actions: seq<Action>)
    decreases |actions|
  {
    actions == [] ||
    (Enabled(s, actions[0]) && Guarded(s, actions[0]) && GuardedRun(Next(s, actions[0]), actions[1..]))
  }

  lemma {:induction false} RunKeepsAll(s: State, actions: seq<Action>)
    requires OwnInv(s) && SessionInv(s) && GuardedRun(s, actions)
    ensures Runs(s, actions) && OwnInv(After(s, actions)) && SessionInv(After(s, actions))
    decreases |actions|
  {
    if actions != [] {
      OwnStep(s, actions[0]);
      SessionStep(s, actions[0]);
      RunKeepsAll(Next(s, actions[0]), actions[1..]);
    }
  }

  lemma InitialOk(workers: nat, now: Instant)
    ensures OwnInv(Initial(workers, now)) && SessionInv(Initial(workers, now))
  {
    var s := Initial(workers, now);
    assert forall j: nat, x :: !ClaimedBy(s, j, x);
  }

  /** What can drive a job: a goroutine or a slot of the queue. */
  datatype Owner = Goroutine(index: nat) | Slot(position: nat)

  ghost predicate Owns(s: State, o: Owner, id: Id) {
    match o
    case Goroutine(j) => j < |s.procs| && Drives(s.procs[j], id)
    case Slot(k) => k < |s.w.queue| && s.w.queue[k] == id
  }

  /** validating: a validator before its pending write; pending: a validator past it, recovery about
      to enqueue, a queue slot, or a worker before its processing write; processing: a worker past it;
      uploading, completed, failed: nobody. */
  ghost predicate MayOwn(s: State, o: Owner, status: Status) {
    match o
    case Slot(_) => status == Pending
    case Goroutine(j) =>
      j < |s.procs| &&
      match s.procs[j]
      case Checking(ValEnqueue(_)) => status == Pending
      case Checking(ValUndo(_)) => status == Pending
      case Checking(_) => status == Validating
      case Working(WorkLoad(_)) => status == Pending
      case Working(WorkMark(_)) => status == Pending
      case Working(_) => status == Processing
      case Recovering(_) => status == Pending
      case _ => false
  }

  lemma OwnerFits(s: State, o: Owner, id: Id)
    requires OwnInv(s) && Owns(s, o, id)
    ensures id in s.w.jobs && MayOwn(s, o, s.w.jobs[id].status)
  {
    match o
    case Goroutine(j) => assert ClaimedBy(s, j, id); ClaimStatus(s, j, id);
    case Slot(k) => assert id in s.w.queue;
  }

  lemma OneOwner(s: State, o: Owner, o': Owner, id: Id)
    requires OwnInv(s) && Owns(s, o, id) && Owns(s, o', id)
    ensures o == o'
  {
    assert o.Goroutine? ==> ClaimedBy(s, o.index, id);
    assert o'.Goroutine? ==> ClaimedBy(s, o'.index, id);
    assert o.Slot? || o'.Slot? ==> id in s.w.queue;
  }

  /** Single ownership: in every state of every guarded run, whatever calls failed and wherever the
      process crashed, a job has at most one owner, its record exists, and the status allows it. */
  lemma SingleOwnership(workers: nat, now: Instant, actions: seq<Action>, id: Id)
    requires GuardedRun(Initial(workers, now), actions)
    ensures Runs(Initial(workers, now), actions)
    ensures var t := After(Initial(workers, now), actions);
      && (forall o :: Owns(t, o, id) ==> id in t.w.jobs && MayOwn(t, o, t.w.jobs[id].status))
      && (forall o, o' :: Owns(t, o, id) && Owns(t, o', id) ==> o == o')
  {
    InitialOk(workers, now);
    RunKeepsAll(Initial(workers, now), actions);
    var t := After(Initial(workers, now), actions);
    forall o | Owns(t, o, id)
      ensures id in t.w.jobs && MayOwn(t, o, t.w.jobs[id].status)
    {
      OwnerFits(t, o, id);
    }
    forall o, o' | Owns(t, o, id) && Owns(t, o', id)
      ensures o == o'
    {
      OneOwner(t, o, o', id);
    }
  }
}
