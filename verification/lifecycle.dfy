/** The job lifecycle as a transition system.

    Durable: the job records, the stored objects and the presigned URLs the clients hold.
    Volatile: the queue and the goroutines, each a program counter with its local copy of a record.
    One step is one call to the store, the storage or the queue (with the local work around it);
    every call may fail, and a failed write may or may not have reached the disk. A crash keeps
    what is durable and restarts the process.
*/
module Lifecycle {

  import opened Wrappers
  import opened Timestamps
  import opened Jobs
  import opened Progress

  const PRESIGN_EXPIRY := 900_000_000_000
  const STALE_TTL := 3_600_000_000_000
  const RETENTION_TTL := 172_800_000_000_000
  const QUEUE_CAPACITY := 100
  const MAX_QUEUE_DEPTH := 20
  const MAX_UPLOAD_SIZE := 2_147_483_648

  // ---------- Goroutines, by the call each is about to make ----------

  /** POST /videos, once the record is created: presign, or roll the record back. */
  datatype Creator = CreatePresign(rec: Record) | CreateRollback(id: Id)

  /** POST /videos/{id}/complete. */
  datatype Handler = HandlerLoad(id: Id) | HandlerStat(rec: Record) | HandlerMark(rec: Record)

  /** validateAndEnqueue. */
  datatype Validator =
    | ValProbe(id: Id, key: Key)
    | ValReject(id: Id, key: Key)
    | ValRejectLoad(id: Id)
    | ValRejectMark(rec: Record)
    | ValLoad(id: Id)
    | ValMark(rec: Record)
    | ValEnqueue(rec: Record)
    | ValUndo(rec: Record)
    | ValUndoRaw(id: Id, key: Key, stored: bool)   // stored: "failed" has reached the store

  /** runWorker and processJob. */
  datatype Worker =
    | WorkIdle
    | WorkLoad(id: Id)
    | WorkMark(rec: Record)
    | WorkFetch(rec: Record)
    | WorkTranscode(rec: Record, video: Video, ticks: seq<int>, lastPersisted: int)
    | WorkUpload(rec: Record, video: Video, left: seq<Key>)
    | WorkFinish(rec: Record, video: Video)
    | WorkFail(rec: Record)

  /** RecoverInterruptedJobs, then the HTTP server. */
  datatype Recovery =
    | RecList
    | RecNext(todo: seq<Record>)
    | RecEnqueue(rec: Record, todo: seq<Record>)
    | RecFail(todo: seq<Record>)
    | Serving

  /** The two retention sweepers; `stale` is the one for abandoned uploads. */
  datatype Sweeper =
    | SweepIdle(stale: bool)
    | SweepRaw(stale: bool, todo: seq<Record>)
    | SweepTree(todo: seq<Record>)
    | SweepOutputs(todo: seq<Record>, names: seq<string>)
    | SweepDrop(stale: bool, todo: seq<Record>)

  datatype Proc =
    | Finished
    | Creating(creator: Creator)
    | Completing(handler: Handler)
    | Checking(validator: Validator)
    | Working(worker: Worker)
    | Recovering(recovery: Recovery)
    | Sweeping(sweeper: Sweeper)

  /** What the goroutines share. All of it but the queue survives a crash. */
  datatype World = World(
    jobs: map<Id, Record>,
    objs: map<Key, Video>,      // each object with the bytes it holds or was made from
    urls: map<Key, int>,        // until when a client may PUT a raw object
    used: set<Id>,              // ids handed out by the random generator so far
    issued: set<Id>,            // ids whose session was sent to a client
    leaked: set<Id>,            // history: MP4 jobs whose record was dropped while failed
    made: set<Key>,             // history: the objects that workers ever put into storage
    tampered: set<Id>,          // history: jobs whose raw bytes a client changed after they were accepted
    queue: seq<Id>,
    now: Instant)

  datatype State = State(w: World, procs: seq<Proc>)

  /** How a call came back. */
  datatype Reply =
    | Ok
    | Error(applied: bool)          // a failed write may have been applied all the same
    | LocalError                    // ffmpeg, ffprobe or the local disk failed
    | Fetched(ticks: seq<int>)      // the raw bytes arrived; ffmpeg will report these percentages
    | Listed(rows: seq<Record>)
    | PartDeleted(keys: set<Key>)   // DeletePrefix failed after removing some objects

  /** What a step leaves behind: the shared state, the goroutine's next call, goroutines started. */
  datatype Out = Out(w: World, me: Proc, spawned: seq<Proc>)

  datatype Action =
    | Crash(workers: nat)
    | Pass(to: Instant)
    | ClientPut(key: Key, video: Video)
    | Create(id: Id, name: string, kind: Kind, createdAt: Instant, reply: Reply)
    | Complete(id: Id)
    | Run(i: nat, reply: Reply)

  // ---------- Store and storage calls ----------

  predicate Reached(r: Reply) {
    r.Ok? || (r.Error? && r.applied)
  }

  /** Store.Update: replaces the record; on a missing id it changes nothing (ErrNotFound). */
  function Update(w: World, rec: Record, r: Reply): World {
    if Reached(r) && rec.id in w.jobs then w.(jobs := w.jobs[rec.id := rec]) else w
  }

  function Delete(w: World, id: Id, r: Reply): World {
    if Reached(r) then w.(jobs := w.jobs - {id}) else w
  }

  function Remove(w: World, key: Key, r: Reply): World {
    if Reached(r) then w.(objs := w.objs - {key}) else w
  }

  function Put(w: World, key: Key, video: Video, r: Reply): World {
    if Reached(r) then w.(objs := w.objs[key := video], made := w.made + {key}) else w
  }

  /** A client's PUT changes what an accepted job is made from. The URL lives on for up to 15 minutes. */
  predicate Tampers(w: World, key: Key, video: Video) {
    key.id in w.jobs && w.jobs[key.id].status != Uploading && !(key in w.objs && w.objs[key] == video)
  }

  function Arrive(w: World, key: Key, video: Video): World {
    w.(objs := w.objs[key := video], tampered := if Tampers(w, key, video) then w.tampered + {key.id} else w.tampered)
  }

  function Enqueue(w: World, id: Id, r: Reply): World {
    if r.Ok? then w.(queue := w.queue + [id]) else w
  }

  // ---------- The goroutines ----------

  function StepCreator(w: World, c: Creator, r: Reply): Out {
    match c
    case CreatePresign(rec) =>
      if r.Ok? then
        Out(w.(urls := w.urls[rec.rawKey := w.now + PRESIGN_EXPIRY], issued := w.issued + {rec.id}), Finished, [])
      else Out(w, Creating(CreateRollback(rec.id)), [])
    case CreateRollback(id) => Out(Delete(w, id, r), Finished, [])
  }

  function StepHandler(w: World, h: Handler, r: Reply): Out {
    match h
    case HandlerLoad(id) =>
      if r.Ok? && id in w.jobs && w.jobs[id].status == Uploading then
        Out(w, Completing(HandlerStat(w.jobs[id])), [])
      else Out(w, Finished, [])
    case HandlerStat(rec) =>
      if r.Ok? && rec.rawKey in w.objs && 0 < w.objs[rec.rawKey].size <= MAX_UPLOAD_SIZE then
        Out(w, Completing(HandlerMark(rec.(status := Validating))), [])
      else Out(w, Finished, [])
    case HandlerMark(rec) =>
      // On success the goroutine goes on as the validator it starts.
      var next := if r.Ok? && rec.id in w.jobs then Checking(ValProbe(rec.id, rec.rawKey)) else Finished;
      Out(Update(w, rec, r), next, [])
  }

  function StepValidator(w: World, v: Validator, r: Reply): Out {
    match v
    case ValProbe(id, key) => Out(w, Checking(if r.Ok? then ValLoad(id) else ValReject(id, key)), [])
    case ValReject(id, key) => Out(Remove(w, key, r), Checking(ValRejectLoad(id)), [])
    case ValRejectLoad(id) =>
      if r.Ok? && id in w.jobs then Out(w, Checking(ValRejectMark(w.jobs[id].(status := Failed))), [])
      else Out(w, Finished, [])
    case ValRejectMark(rec) => Out(Update(w, rec, r), Finished, [])
    case ValLoad(id) =>
      if r.Ok? && id in w.jobs then Out(w, Checking(ValMark(w.jobs[id].(status := Pending, progress := 0))), [])
      else Out(w, Finished, [])
    case ValMark(rec) =>
      Out(Update(w, rec, r), if r.Ok? && rec.id in w.jobs then Checking(ValEnqueue(rec)) else Finished, [])
    case ValEnqueue(rec) =>
      Out(Enqueue(w, rec.id, r), if r.Ok? then Finished else Checking(ValUndo(rec.(status := Failed))), [])
    case ValUndo(rec) => Out(Update(w, rec, r), Checking(ValUndoRaw(rec.id, rec.rawKey, Reached(r) && rec.id in w.jobs)), [])
    case ValUndoRaw(_, key, _) => Out(Remove(w, key, r), Finished, [])
  }

  function StepWorker(w: World, k: Worker, r: Reply): Out {
    match k
    case WorkIdle =>
      if w.queue == [] then Out(w, Working(WorkIdle), [])
      else Out(w.(queue := w.queue[1..]), Working(WorkLoad(w.queue[0])), [])
    case WorkLoad(id) =>
      if r.Ok? && id in w.jobs then
        Out(w, Working(WorkMark(w.jobs[id].(status := Processing, progress := 0))), [])
      else Out(w, Working(WorkIdle), [])
    case WorkMark(rec) =>
      Out(Update(w, rec, r), Working(if r.Ok? && rec.id in w.jobs then WorkFetch(rec) else WorkIdle), [])
    case WorkFetch(rec) =>
      if r.Fetched? && rec.rawKey in w.objs then
        Out(w, Working(WorkTranscode(rec, w.objs[rec.rawKey], r.ticks, 0)), [])
      else Out(w, Working(WorkFail(rec.(status := Failed))), [])
    case WorkTranscode(rec, video, ticks, last) =>
      if r.LocalError? then Out(w, Working(WorkFail(rec.(status := Failed))), [])
      else if ticks == [] then Out(w, Working(WorkUpload(rec, video, Uploads(rec.kind, rec.id, video))), [])
      else
        // onProgress: the copy always moves, the store only on a new band (and on 100);
        // a failed write is only logged.
        var percent := Clamp(ticks[0]);
        var rec' := rec.(progress := percent);
        if Due(percent, last) then
          Out(Update(w, rec', r), Working(WorkTranscode(rec', video, ticks[1..], percent)), [])
        else Out(w, Working(WorkTranscode(rec', video, ticks[1..], last)), [])
    case WorkUpload(rec, video, left) =>
      if left == [] then
        var rec' := rec.(status := Completed, progress := 100, outputs := OutputNames(rec.kind, video),
                         masterKey := MasterKey(rec.kind, rec.id));
        Out(w, Working(WorkFinish(rec', video)), [])
      else
        Out(Put(w, left[0], video, r),
            Working(if r.Ok? then WorkUpload(rec, video, left[1..]) else WorkFail(rec.(status := Failed))), [])
    case WorkFinish(rec, _) => Out(Update(w, rec, r), Working(WorkIdle), [])
    case WorkFail(rec) => Out(Update(w, rec, r), Working(WorkIdle), [])
  }

  function StepRecovery(w: World, c: Recovery, r: Reply): Out {
    match c
    case RecList => Out(w, Recovering(if r.Listed? then RecNext(r.rows) else RecList), [])
    case RecNext(todo) =>
      if todo == [] then Out(w, Recovering(Serving), []) else RedriveNext(w, todo[0], todo[1..], r)
    case RecEnqueue(rec, todo) => Out(Enqueue(w, rec.id, r), Recovering(RecNext(todo)), [])
    case RecFail(todo) =>
      if todo == [] then Out(w, Recovering(c), [])
      else Out(Update(w, todo[0].(status := Failed), r), Recovering(RecNext(todo[1..])), [])
    case Serving => Out(w, Recovering(Serving), [])
  }

  function RedriveNext(w: World, rec: Record, rest: seq<Record>, r: Reply): Out {
    match rec.status
    case Pending => Out(Enqueue(w, rec.id, r), Recovering(RecNext(rest)), [])
    case Processing =>
      var rec' := rec.(status := Pending);
      Out(Update(w, rec', r),
          Recovering(if r.Ok? && rec.id in w.jobs then RecEnqueue(rec', rest) else RecNext(rest)), [])
    case Validating =>
      if !r.Ok? then Out(w, Recovering(RecNext(rest)), [])
      else if rec.rawKey !in w.objs then Out(w, Recovering(RecFail([rec] + rest)), [])
      else Out(w, Recovering(RecNext(rest)), [Checking(ValProbe(rec.id, rec.rawKey))])
    case _ => Out(w, Recovering(RecNext(rest)), [])
  }

  /** The objects under the prefix processed/<id>/hls/. */
  predicate InTree(k: Key, id: Id) {
    k.TreeFile? && k.id == id
  }

  function StepSweeper(w: World, z: Sweeper, r: Reply): Out {
    match z
    case SweepIdle(stale) => Out(w, Sweeping(if r.Listed? then SweepRaw(stale, r.rows) else z), [])
    case SweepRaw(stale, todo) =>
      if todo == [] then Out(w, Sweeping(SweepIdle(stale)), [])
      else
        var next :=
          if !r.Ok? then SweepRaw(stale, todo[1..])
          else if stale then SweepDrop(true, todo)
          else if todo[0].kind == HLS || todo[0].masterKey.Some? then SweepTree(todo)
          else SweepOutputs(todo, todo[0].outputs);
        Out(Remove(w, todo[0].rawKey, r), Sweeping(next), [])
    case SweepTree(todo) =>
      if todo == [] then Out(w, Sweeping(z), [])
      else if r.Ok? then
        Out(w.(objs := map k | k in w.objs && !InTree(k, todo[0].id) :: w.objs[k]),
            Sweeping(SweepDrop(false, todo)), [])
      else
        var gone := if r.PartDeleted? then set k | k in r.keys && InTree(k, todo[0].id) else {};
        Out(w.(objs := w.objs - gone), Sweeping(SweepRaw(false, todo[1..])), [])
    case SweepOutputs(todo, names) =>
      if todo == [] then Out(w, Sweeping(z), [])
      else if names == [] then Out(w, Sweeping(SweepDrop(false, todo)), [])
      else
        Out(Remove(w, Rendition(todo[0].id, names[0]), r),
            Sweeping(if r.Ok? then SweepOutputs(todo, names[1..]) else SweepRaw(false, todo[1..])), [])
    case SweepDrop(stale, todo) =>
      if todo == [] then Out(w, Sweeping(z), [])
      else
        var rec := todo[0];
        var leak := Reached(r) && rec.id in w.jobs && !stale && rec.kind == MP4 && rec.status == Failed;
        Out(Delete(w, rec.id, r).(leaked := if leak then w.leaked + {rec.id} else w.leaked),
            Sweeping(SweepRaw(stale, todo[1..])), [])
  }

  function StepProc(w: World, p: Proc, r: Reply): Out {
    match p
    case Finished => Out(w, p, [])
    case Creating(c) => StepCreator(w, c, r)
    case Completing(h) => StepHandler(w, h, r)
    case Checking(v) => StepValidator(w, v, r)
    case Working(k) => StepWorker(w, k, r)
    case Recovering(c) => StepRecovery(w, c, r)
    case Sweeping(z) => StepSweeper(w, z, r)
  }

  // ---------- Which answers a call can get ----------

  predicate DistinctIds(rows: seq<Record>) {
    forall i, j :: 0 <= i < j < |rows| ==> rows[i].id != rows[j].id
  }

  predicate Expired(r: Record, cutoff: Instant) {
    Terminal(r.status) && TextBefore(r.createdAt, cutoff)
  }

  predicate Abandoned(r: Record, cutoff: Instant) {
    r.status == Uploading && TextBefore(r.createdAt, cutoff)
  }

  /** rows lists, in some order, exactly the records with the given property, each once. */
  predicate ListsAll(rows: seq<Record>, jobs: map<Id, Record>) {
    && DistinctIds(rows)
    && (forall r :: r in rows ==> r.id in jobs && jobs[r.id] == r)
    && (forall id :: id in jobs ==> jobs[id] in rows)
  }

  predicate ListsExpired(rows: seq<Record>, jobs: map<Id, Record>, cutoff: Instant) {
    && DistinctIds(rows)
    && (forall r :: r in rows ==> r.id in jobs && jobs[r.id] == r && Expired(r, cutoff))
    && (forall id :: id in jobs && Expired(jobs[id], cutoff) ==> jobs[id] in rows)
  }

  predicate ListsAbandoned(rows: seq<Record>, jobs: map<Id, Record>, cutoff: Instant) {
    && DistinctIds(rows)
    && (forall r :: r in rows ==> r.id in jobs && jobs[r.id] == r && Abandoned(r, cutoff))
    && (forall id :: id in jobs && Abandoned(jobs[id], cutoff) ==> jobs[id] in rows)
  }

  /** A plain call succeeds or fails. */
  predicate Plain(r: Reply) {
    r.Ok? || r.Error?
  }

  /** Enqueue waits while the queue is full. */
  predicate Enqueues(w: World, r: Reply) {
    (r.Ok? && |w.queue| < QUEUE_CAPACITY) || r.Error?
  }

  predicate ValidatorAnswers(w: World, v: Validator, r: Reply) {
    match v
    case ValProbe(_, key) => (r.Ok? && key in w.objs) || r.Error? || r.LocalError?
    case ValEnqueue(_) => Enqueues(w, r)
    case _ => Plain(r)
  }

  predicate WorkerAnswers(w: World, k: Worker, r: Reply) {
    match k
    case WorkIdle => r.Ok? && w.queue != []
    case WorkFetch(rec) => (r.Fetched? && rec.rawKey in w.objs) || r.Error? || r.LocalError?
    case WorkTranscode(_, _, _, _) => Plain(r) || r.LocalError?
    case _ => Plain(r)
  }

  predicate RecoveryAnswers(w: World, c: Recovery, r: Reply) {
    match c
    case RecList => r.Listed? && ListsAll(r.rows, w.jobs)
    case RecNext(todo) => if todo != [] && todo[0].status == Pending then Enqueues(w, r) else Plain(r)
    case RecEnqueue(_, _) => Enqueues(w, r)
    case RecFail(_) => Plain(r)
    case Serving => false
  }

  predicate SweeperAnswers(w: World, z: Sweeper, r: Reply) {
    match z
    case SweepIdle(stale) =>
      && r.Listed?
      && (if stale then w.now >= STALE_TTL && ListsAbandoned(r.rows, w.jobs, w.now - STALE_TTL)
          else w.now >= RETENTION_TTL && ListsExpired(r.rows, w.jobs, w.now - RETENTION_TTL))
    case SweepTree(_) => Plain(r) || r.PartDeleted?
    case _ => Plain(r)
  }

  predicate Answers(w: World, p: Proc, r: Reply) {
    match p
    case Finished => false
    case Creating(_) => Plain(r)
    case Completing(_) => Plain(r)
    case Checking(v) => ValidatorAnswers(w, v, r)
    case Working(k) => WorkerAnswers(w, k, r)
    case Recovering(c) => RecoveryAnswers(w, c, r)
    case Sweeping(z) => SweeperAnswers(w, z, r)
  }

  // ---------- The whole system ----------

  /** The process as it starts: recovery, the two sweepers and the workers. */
  function Boot(workers: nat): seq<Proc> {
    [Recovering(RecList), Sweeping(SweepIdle(false)), Sweeping(SweepIdle(true))] + seq(workers, i => Working(WorkIdle))
  }

  function Initial(workers: nat, now: Instant): State {
    State(World(map[], map[], map[], {}, {}, {}, {}, {}, [], now), Boot(workers))
  }

  predicate IsServing(s: State) {
    s.procs != [] && s.procs[0] == Recovering(Serving)
  }

  predicate Enabled(s: State, a: Action) {
    match a
    case Crash(_) => true
    case Pass(to) => s.w.now <= to
    case ClientPut(key, _) => key in s.w.urls && s.w.now < s.w.urls[key]
    case Create(id, _, _, createdAt, r) =>
      && IsServing(s) && |s.w.queue| < MAX_QUEUE_DEPTH
      && id !in s.w.used && createdAt <= s.w.now && Plain(r)
    // Clients name ids they were given; any other id finds no record and the request changes nothing.
    case Complete(id) => IsServing(s) && id in s.w.issued
    case Run(i, r) => i < |s.procs| && Answers(s.w, s.procs[i], r)
  }

  function NewRecord(id: Id, name: string, kind: Kind, createdAt: Instant): Record {
    Record(id, kind, Uploading, 0, Raw(id, name), None, [], createdAt)
  }

  function StepRun(s: State, i: nat, r: Reply): State
    requires i < |s.procs|
  {
    var o := StepProc(s.w, s.procs[i], r);
    State(o.w, s.procs[i := o.me] + o.spawned)
  }

  function Next(s: State, a: Action): State
    requires Enabled(s, a)
  {
    match a
    case Crash(workers) => State(s.w.(queue := []), Boot(workers))
    case Pass(to) => s.(w := s.w.(now := to))
    case ClientPut(key, video) => s.(w := Arrive(s.w, key, video))
    case Create(id, name, kind, createdAt, r) =>
      var rec := NewRecord(id, name, kind, createdAt);
      State(s.w.(used := s.w.used + {id}, jobs := if Reached(r) then s.w.jobs[id := rec] else s.w.jobs),
            if r.Ok? then s.procs + [Creating(CreatePresign(rec))] else s.procs)
    case Complete(id) => s.(procs := s.procs + [Completing(HandlerLoad(id))])
    case Run(i, r) => StepRun(s, i, r)
  }

  /** A run: these actions, one after another, can be taken from s. */
  predicate Runs(s: State, actions: seq<Action>)
    decreases |actions|
  {
    actions == [] || (Enabled(s, actions[0]) && Runs(Next(s, actions[0]), actions[1..]))
  }

  function After(s: State, actions: seq<Action>): State
    requires Runs(s, actions)
    decreases |actions|
  {
    if actions == [] then s else After(Next(s, actions[0]), actions[1..])
  }
}
