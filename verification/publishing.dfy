/** What the goroutines publish about a job, and when a published end is what the store has. */
module Publishing {

  import opened Wrappers
  import opened Jobs
  import opened Lifecycle
  import opened Ownership
  import opened EventStream
  import Races

  /** A published update; `founded` is history: whether a terminal status had reached the store. */
  datatype Note = Note(view: View, founded: bool)

  function ViewOf(rec: Record): View {
    View(rec.status, rec.progress)
  }

  /** What a step publishes, if anything. The end of a failed enqueue is published last, after the raw
      object was deleted, whether or not "failed" could be stored. */
  function Publishes(w: World, p: Proc, r: Reply): Option<Note> {
    match p
    case Completing(HandlerMark(rec)) => OnSuccess(w, rec, r, View(Validating, 0))
    case Checking(ValRejectMark(rec)) => OnSuccess(w, rec, r, ViewOf(rec))
    case Checking(ValUndoRaw(_, _, stored)) => Some(Note(View(Failed, 0), stored))
    case Working(WorkMark(rec)) => OnSuccess(w, rec, r, View(Processing, 0))
    case Working(WorkTranscode(_, _, ticks, _)) =>
      if r.LocalError? || ticks == [] then None else Some(Note(View(Processing, Progress.Clamp(ticks[0])), true))
    case Working(WorkFinish(rec, _)) => OnSuccess(w, rec, r, View(Completed, 100))
    case Working(WorkFail(rec)) => OnSuccess(w, rec, r, ViewOf(rec))
    case _ => None
  }

  /** Published after a successful Update. */
  function OnSuccess(w: World, rec: Record, r: Reply, v: View): Option<Note> {
    if r.Ok? && rec.id in w.jobs then Some(Note(v, true)) else None
  }

  /** The writes of a status that nobody is told about: pending, by the validator and by recovery, recovery's
      failures, and the "failed" of an enqueue, which is published one call later. */
  predicate Silent(p: Proc) {
    p.Recovering? || (p.Checking? && (p.validator.ValMark? || p.validator.ValUndo?))
  }

  /** What is published of a step that changes the status of id. */
  ghost predicate Tells(w: World, p: Proc, r: Reply, id: Id) {
    var n, t := Publishes(w, p, r), StepProc(w, p, r).w;
    && (n.Some? <==> !Silent(p))
    && (n.Some? && id in t.jobs ==>
          n.value.view.status == t.jobs[id].status
          && n.value.view.progress == (if p.Completing? then 0 else t.jobs[id].progress))
  }

  ghost predicate Restates(w: World, w': World, id: Id) {
    id in w.jobs && id in w'.jobs && w'.jobs[id].status != w.jobs[id].status
  }

  lemma ValidatorTells(w: World, v: Validator, r: Reply, id: Id)
    requires ValidatorOk(w.jobs, v) && r.Ok? && Restates(w, StepValidator(w, v, r).w, id)
    ensures Tells(w, Checking(v), r, id)
  {
  }

  lemma WorkerTells(w: World, k: Worker, r: Reply, id: Id)
    requires WorkerOk(w.jobs, k) && r.Ok? && Restates(w, StepWorker(w, k, r).w, id)
    ensures Tells(w, Working(k), r, id)
  {
    assert !k.WorkTranscode? by {
      if k.WorkTranscode? {
        TickKeepsStatus(w, k, r, id);
      }
    }
  }

  lemma TickKeepsStatus(w: World, k: Worker, r: Reply, id: Id)
    requires k.WorkTranscode? && WorkerOk(w.jobs, k)
    ensures !Restates(w, StepWorker(w, k, r).w, id)
  {
  }

  lemma HandlerTells(w: World, h: Handler, r: Reply, id: Id)
    requires HandlerOk(w.issued, h) && r.Ok? && Restates(w, StepHandler(w, h, r).w, id)
    ensures Tells(w, Completing(h), r, id)
  {
  }

  lemma SweeperTells(w: World, z: Sweeper, r: Reply, id: Id)
    ensures !Restates(w, StepSweeper(w, z, r).w, id)
  {
  }

  /** Every successful write of a status is published, with the status that was written and, but for the first,
      its progress, unless it is one of the silent ones. */
  lemma StatusWritesArePublished(s: State, i: nat, r: Reply, id: Id)
    requires OwnInv(s) && Enabled(s, Run(i, r)) && r.Ok?
    requires id in s.w.jobs && id in StepRun(s, i, r).w.jobs
    requires StepRun(s, i, r).w.jobs[id].status != s.w.jobs[id].status
    ensures Publishes(s.w, s.procs[i], r).Some? <==> !Silent(s.procs[i])
    ensures var n := Publishes(s.w, s.procs[i], r);
      n.Some? ==>
        && n.value.view.status == StepRun(s, i, r).w.jobs[id].status
        && n.value.view.progress == (if s.procs[i].Completing? then 0 else StepRun(s, i, r).w.jobs[id].progress)
  {
    assert ProcOk(s.w.jobs, s.w.issued, s.procs[i]);
    match s.procs[i]
    case Checking(v) => ValidatorTells(s.w, v, r, id);
    case Working(k) => WorkerTells(s.w, k, r, id);
    case Completing(h) => HandlerTells(s.w, h, r, id);
    case Sweeping(z) => SweeperTells(s.w, z, r, id);
    case _ =>
  }

  /** Every percentage the encoder reports while the job runs is published as it is kept in memory. */
  lemma TicksArePublished(w: World, k: Worker, r: Reply)
    requires k.WorkTranscode? && k.ticks != [] && !r.LocalError?
    ensures var o, n := StepWorker(w, k, r), Publishes(w, Working(k), r);
      n.Some? && n.value.view.status == Processing && o.me.Working? && o.me.worker.WorkTranscode?
      && n.value.view.progress == o.me.worker.rec.progress
  {
  }

  /** The job a publishing goroutine writes about. */
  function Subject(p: Proc): Id {
    match p
    case Completing(h) => HandlerId(h)
    case Checking(v) => ValidatorId(v)
    case Working(k) => if k.WorkIdle? then "" else WorkerId(k).value
    case _ => ""
  }

  /** The branch in which the code publishes what it failed to store. */
  ghost predicate Unstored(p: Proc) {
    p.Checking? && p.validator.ValUndoRaw? && !p.validator.stored
  }

  /** Exactly when a published end is true: at the step that publishes it, the store has that status (or
      the record is gone) unless the step ends a failed enqueue whose "failed" did not reach the store. */
  lemma PublishedEndIsStoredExactly(s: State, i: nat, r: Reply)
    requires OwnInv(s) && Enabled(s, Run(i, r)) && Publishes(s.w, s.procs[i], r).Some?
    requires Terminal(Publishes(s.w, s.procs[i], r).value.view.status)
    ensures var t, id, n := StepRun(s, i, r), Subject(s.procs[i]), Publishes(s.w, s.procs[i], r).value;
      && n.founded == !Unstored(s.procs[i])
      && ((id in t.w.jobs ==> t.w.jobs[id].status == n.view.status) <==> !Unstored(s.procs[i]))
  {
    assert ProcOk(s.w.jobs, s.w.issued, s.procs[i]);
  }

  /** That branch is reached exactly through a write of "failed" that does not reach the store. */
  lemma UnstoredExactly(s: State, i: nat, r: Reply)
    requires OwnInv(s) && Enabled(s, Run(i, r)) && s.procs[i].Checking? && s.procs[i].validator.ValUndo?
    ensures Unstored(StepRun(s, i, r).procs[i]) <==> !Reached(r)
  {
    assert ProcOk(s.w.jobs, s.w.issued, s.procs[i]);
  }

  /** The failing input: the queue gives up, the write of "failed" does not reach the store. */
  function FailToFail(i: nat): seq<Action> {
    [Run(i, Error(false)), Run(i, Error(false))]
  }

  lemma UnstoredEnd(s: State, i: nat, rec: Record)
    requires OwnInv(s) && i < |s.procs| && s.procs[i] == Checking(ValEnqueue(rec))
    ensures GuardedRun(s, FailToFail(i)) && Runs(s, FailToFail(i))
    ensures var t := After(s, FailToFail(i));
      && t == State(s.w, s.procs[i := Checking(ValUndoRaw(rec.id, rec.rawKey, false))])
      && Enabled(t, Run(i, Ok)) && Publishes(t.w, t.procs[i], Ok) == Some(Note(View(Failed, 0), false))
      && InState(StepRun(t, i, Ok).w.jobs, rec.id, Pending)
  {
    assert ProcOk(s.w.jobs, s.w.issued, s.procs[i]);
    var s1 := State(s.w, s.procs[i := Checking(ValUndo(rec.(status := Failed)))]);
    var s2 := State(s.w, s.procs[i := Checking(ValUndoRaw(rec.id, rec.rawKey, false))]);
    Races.Prepend(s1, Run(i, Error(false)), s2, []);
    Races.Prepend(s, Run(i, Error(false)), s1, [Run(i, Error(false))]);
    assert [Run(i, Error(false))] + [] == [Run(i, Error(false))];
    assert [Run(i, Error(false))] + [Run(i, Error(false))] == FailToFail(i);
  }
}
