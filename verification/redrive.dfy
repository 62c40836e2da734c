/** Recovery: after a crash at any point, every accepted job is driven again. */
module Redrive {

  import opened Wrappers
  import opened Jobs
  import opened Lifecycle
  import opened Sessions
  import opened Ownership
  import Safety

  ghost predicate Accepted(w: World, id: Id) {
    id in w.jobs && InFlight(w.jobs[id].status)
  }

  ghost predicate WaitedFor(p: Proc, id: Id) {
    exists r :: r in Waiting(p) && r.id == id && InFlight(r.status)
  }

  /** The job has an owner, or recovery will still come to it. */
  ghost predicate Covered(s: State, id: Id)
    requires s.procs != []
  {
    || (exists o :: Owns(s, o, id))
    || s.procs[0] == Recovering(RecList)
    || WaitedFor(s.procs[0], id)
  }

  /** A failed call on the records, the queue or (by recovery) Stat, made on behalf of this job.
      Failures of ffmpeg, ffprobe, downloads, uploads and deletions do not count: they fail the job,
      they do not lose it. */
  ghost predicate StoreFailure(s: State, a: Action, id: Id)
    requires Enabled(s, a)
  {
    a.Run? && a.reply.Error? &&
    match s.procs[a.i]
    case Completing(HandlerMark(rec)) => rec.id == id
    case Checking(v) =>
      ValidatorId(v) == id && (v.ValRejectLoad? || v.ValRejectMark? || v.ValLoad? || v.ValMark? || v.ValUndo?)
    case Working(k) => WorkerId(k) == Some(id) && (k.WorkLoad? || k.WorkMark? || k.WorkFinish? || k.WorkFail?)
    case Recovering(RecNext(todo)) => todo != [] && todo[0].id == id
    case Recovering(RecEnqueue(rec, _)) => rec.id == id
    case Recovering(RecFail(todo)) => todo != [] && todo[0].id == id
    case _ => false
  }

  ghost predicate GoesOn(o: Out, id: Id) {
    Drives(o.me, id) || id in o.w.queue || !Accepted(o.w, id)
  }

  lemma ValidatorGoesOn(w: World, v: Validator, r: Reply)
    requires ValidatorOk(w.jobs, v) && RecordsOk(w.jobs, w.issued) && !v.ValUndoRaw? && ValidatorAnswers(w, v, r)
    requires r.Error? ==> v.ValProbe? || v.ValReject? || v.ValEnqueue?
    ensures GoesOn(StepValidator(w, v, r), ValidatorId(v))
  {
  }

  lemma WorkerGoesOn(w: World, k: Worker, r: Reply)
    requires WorkerOk(w.jobs, k) && RecordsOk(w.jobs, w.issued) && !k.WorkIdle? && WorkerAnswers(w, k, r)
    requires r.Error? ==> k.WorkFetch? || k.WorkTranscode? || k.WorkUpload?
    ensures GoesOn(StepWorker(w, k, r), WorkerId(k).value)
  {
  }

  /** The driver's own step: it goes on driving, hands the job to the queue, or finishes it. */
  lemma DriverGoesOn(s: State, i: nat, r: Reply, id: Id)
    requires OwnInv(s) && Enabled(s, Run(i, r)) && !StoreFailure(s, Run(i, r), id)
    requires Drives(s.procs[i], id)
    ensures GoesOn(StepProc(s.w, s.procs[i], r), id)
  {
    assert ProcOk(s.w.jobs, s.w.issued, s.procs[i]);
    match s.procs[i]
    case Checking(v) => ValidatorGoesOn(s.w, v, r);
    case Working(k) => WorkerGoesOn(s.w, k, r);
    case _ =>
  }

  lemma QueueSlot(s: State, id: Id)
    requires id in s.w.queue
    ensures exists o :: Owns(s, o, id)
  {
    var k :| 0 <= k < |s.w.queue| && s.w.queue[k] == id;
    assert Owns(s, Slot(k), id);
  }

  lemma QueueKept(w: World, p: Proc, r: Reply, id: Id)
    requires id in w.queue
    ensures id in StepProc(w, p, r).w.queue || (p == Working(WorkIdle) && StepProc(w, p, r).me == Working(WorkLoad(id)))
  {
    if p == Working(WorkIdle) {
      assert w.queue == [w.queue[0]] + w.queue[1..];
    } else {
      match p
      case Working(k) => WorkerKeepsQueue(w, k, r);
      case Checking(v) => ValidatorKeepsQueue(w, v, r);
      case Sweeping(z) => SweeperKeepsQueue(w, z, r);
      case Recovering(c) => RecoveryKeepsQueue(w, c, r);
      case _ =>
    }
  }

  lemma WorkerKeepsQueue(w: World, k: Worker, r: Reply)
    requires !k.WorkIdle?
    ensures StepWorker(w, k, r).w.queue == w.queue
  {
  }

  lemma ValidatorKeepsQueue(w: World, v: Validator, r: Reply)
    ensures forall id :: id in w.queue ==> id in StepValidator(w, v, r).w.queue
  {
  }

  lemma RecoveryKeepsQueue(w: World, c: Recovery, r: Reply)
    ensures forall id :: id in w.queue ==> id in StepRecovery(w, c, r).w.queue
  {
  }

  lemma SweeperKeepsQueue(w: World, z: Sweeper, r: Reply)
    ensures StepSweeper(w, z, r).w.queue == w.queue
  {
  }

  /** An owner that does not move keeps the job; the one that moves passes it on. */
  lemma OwnerCovers(s: State, i: nat, r: Reply, id: Id, o: Owner)
    requires OwnInv(s) && Enabled(s, Run(i, r)) && !StoreFailure(s, Run(i, r), id)
    requires Owns(s, o, id) && Accepted(StepRun(s, i, r).w, id)
    ensures exists o' :: Owns(StepRun(s, i, r), o', id)
  {
    var t, out := StepRun(s, i, r), StepProc(s.w, s.procs[i], r);
    match o
    case Slot(k) =>
      QueueKept(s.w, s.procs[i], r, id);
      if id in t.w.queue {
        QueueSlot(t, id);
      } else {
        assert Owns(t, Goroutine(i), id);
      }
    case Goroutine(j) =>
      if j != i {
        assert Owns(t, Goroutine(j), id);
      } else {
        DriverGoesOn(s, i, r, id);
        if Drives(out.me, id) {
          assert Owns(t, Goroutine(i), id);
        } else {
          QueueSlot(t, id);
        }
      }
  }

  /** Recovery comes to the head of its list, or has still to. */
  lemma RecoveryCovers(s: State, r: Reply, id: Id)
    requires OwnInv(s) && SessionInv(s) && Enabled(s, Run(0, r)) && !StoreFailure(s, Run(0, r), id)
    requires WaitedFor(s.procs[0], id) && Accepted(StepRun(s, 0, r).w, id)
    ensures Covered(StepRun(s, 0, r), id)
  {
    var todo := Waiting(s.procs[0]);
    var rec :| rec in todo && rec.id == id && InFlight(rec.status);
    var k :| 0 <= k < |todo| && todo[k] == rec;
    if k == 0 && !s.procs[0].recovery.RecEnqueue? {
      HeadCovers(s, r, todo);
    } else {
      RestStays(s.w, s.procs[0], r, k);
      assert rec in Waiting(StepRun(s, 0, r).procs[0]);
    }
  }

  /** What is behind the head stays on the list. */
  lemma RestStays(w: World, p: Proc, r: Reply, k: nat)
    requires p.Recovering? && k < |Waiting(p)| && (k > 0 || p.recovery.RecEnqueue?)
    ensures Waiting(p)[k] in Waiting(StepProc(w, p, r).me)
  {
    var todo, todo' := Waiting(p), Waiting(StepProc(w, p, r).me);
    if !p.recovery.RecEnqueue? {
      assert todo[k] == todo[1..][k - 1];
      assert [todo[0]] + todo[1..] == todo;
    }
  }

  lemma HeadCovers(s: State, r: Reply, todo: seq<Record>)
    requires OwnInv(s) && Enabled(s, Run(0, r)) && todo != [] && InFlight(todo[0].status)
    requires s.procs[0] == Recovering(RecNext(todo)) || s.procs[0] == Recovering(RecFail(todo))
    requires !StoreFailure(s, Run(0, r), todo[0].id)
    requires Accepted(StepRun(s, 0, r).w, todo[0].id)
    ensures Covered(StepRun(s, 0, r), todo[0].id)
  {
    var t, rec := StepRun(s, 0, r), todo[0];
    assert rec in todo && s.w.jobs[rec.id] == rec;
    assert ProcOk(s.w.jobs, s.w.issued, s.procs[0]);
    match rec.status
    case Pending => assert t.w.queue[|s.w.queue|] == rec.id; assert Owns(t, Slot(|s.w.queue|), rec.id);
    case Processing => assert Owns(t, Goroutine(0), rec.id);
    case Validating =>
      if rec.rawKey in s.w.objs && s.procs[0].recovery.RecNext? {
        assert t.procs[|s.procs|] == Checking(ValProbe(rec.id, rec.rawKey));
        assert Owns(t, Goroutine(|s.procs|), rec.id);
      } else {
        assert s.procs[0].recovery.RecNext?;
        assert [rec] + todo[1..] == todo;
        assert rec in Waiting(t.procs[0]);
      }
    case _ =>
  }

  /** As long as no store or queue call made for the job fails, it stays covered. */
  lemma CoverStep(s: State, a: Action, id: Id)
    requires OwnInv(s) && SessionInv(s) && Enabled(s, a) && Guarded(s, a) && !StoreFailure(s, a, id)
    requires Accepted(s.w, id) ==> Covered(s, id)
    ensures OwnInv(Next(s, a)) && (Accepted(Next(s, a).w, id) ==> Covered(Next(s, a), id))
  {
    OwnStep(s, a);
    if Accepted(Next(s, a).w, id) {
      if !Accepted(s.w, id) {
        NewlyAccepted(s, a, id);
      } else {
        StaysCovered(s, a, id);
      }
    }
  }

  lemma NewlyAccepted(s: State, a: Action, id: Id)
    requires OwnInv(s) && Enabled(s, a) && Guarded(s, a) && !StoreFailure(s, a, id)
    requires !Accepted(s.w, id) && Accepted(Next(s, a).w, id)
    ensures exists o :: Owns(Next(s, a), o, id)
  {
    if a.Run? {
      AcceptedByHandler(s, a.i, a.reply, id);
      assert Owns(Next(s, a), Goroutine(a.i), id);
    }
  }

  /** Only a successful complete request makes a job accepted. */
  lemma AcceptedByHandler(s: State, i: nat, r: Reply, id: Id)
    requires OwnInv(s) && Enabled(s, Run(i, r)) && Guarded(s, Run(i, r)) && !StoreFailure(s, Run(i, r), id)
    requires !Accepted(s.w, id) && Accepted(StepRun(s, i, r).w, id)
    ensures Drives(StepRun(s, i, r).procs[i], id)
  {
    Safety.RunLawful(s, i, r, id);
    Safety.NoneBorn(s.w, s.procs[i], r, id);
    assert s.procs[i].Completing? by { Safety.OnlyHandlersAccept(s, i, r, id); }
  }

  lemma StaysCovered(s: State, a: Action, id: Id)
    requires OwnInv(s) && SessionInv(s) && Enabled(s, a) && !StoreFailure(s, a, id)
    requires Covered(s, id) && Accepted(Next(s, a).w, id)
    requires Next(s, a).procs != []
    ensures Covered(Next(s, a), id)
  {
    var t := Next(s, a);
    if o :| Owns(s, o, id) {
      if a.Run? {
        OwnerCovers(s, a.i, a.reply, id, o);
      } else if !a.Crash? {
        assert Owns(t, o, id);
      }
    } else if a.Run? && a.i == 0 {
      if s.procs[0] == Recovering(RecList) {
        assert t.w.jobs[id] in Waiting(t.procs[0]);
      } else {
        RecoveryCovers(s, a.reply, id);
      }
    } else if !a.Crash? {
      assert t.procs[0] == s.procs[0];
    }
  }

  /** A guarded run in which no failing call drops the job. */
  ghost predicate SmoothRun(s: State, actions: seq<Action>, id: Id)
    decreases |actions|
  {
    actions == [] ||
    (Enabled(s, actions[0]) && Guarded(s, actions[0]) && !Drops(s, actions[0], id)
     && SmoothRun(Next(s, actions[0]), actions[1..], id))
  }

  lemma {:induction false} CoverRun(s: State, actions: seq<Action>, id: Id)
    requires OwnInv(s) && SessionInv(s) && SmoothRun(s, actions, id)
    requires Accepted(s.w, id) ==> Covered(s, id)
    ensures Runs(s, actions) && OwnInv(After(s, actions))
    ensures Accepted(After(s, actions).w, id) ==> Covered(After(s, actions), id)
    decreases |actions|
  {
    if actions != [] {
      ForgottenExactly(s, actions[0], id);
      OwnStep(s, actions[0]);
      SessionStep(s, actions[0]);
      CoverRun(Next(s, actions[0]), actions[1..], id);
    }
  }

  /** No accepted job is lost: crash anywhere in any guarded run, restart, and let recovery, workers,
      revalidators, sweeps and then requests interleave as they like. If no failing call drops the job,
      then once recovery has returned the job, while it is in flight, has an owner,
      and only one. */
  lemma NoAcceptedJobLost(s: State, workers: nat, actions: seq<Action>, id: Id)
    requires OwnInv(s) && SessionInv(s)
    requires SmoothRun(Next(s, Crash(workers)), actions, id)
    ensures Runs(Next(s, Crash(workers)), actions)
    ensures var t := After(Next(s, Crash(workers)), actions);
      IsServing(t) && Accepted(t.w, id) ==> exists o :: Owns(t, o, id) && forall o' :: Owns(t, o', id) ==> o' == o
  {
    var b := Next(s, Crash(workers));
    OwnStep(s, Crash(workers));
    SessionStep(s, Crash(workers));
    CoverRun(b, actions, id);
    var t := After(b, actions);
    if IsServing(t) && Accepted(t.w, id) {
      var o :| Owns(t, o, id);
      forall o' | Owns(t, o', id)
        ensures o' == o
      {
        OneOwner(t, o, o', id);
      }
    }
  }

  // ---------- When a job is lost until the next restart ----------

  /** The step writes the job's end, and the write reaches the store. */
  ghost predicate EndsJob(p: Proc, r: Reply) {
    Reached(r) &&
    match p
    case Checking(v) => v.ValRejectMark? || v.ValUndo?
    case Working(k) => k.WorkFinish? || k.WorkFail?
    case _ => false
  }

  ghost predicate Lost(s: State, id: Id) {
    Accepted(s.w, id) && forall o :: !Owns(s, o, id)
  }

  /** The failing call's owner lets go, and keeps the record in flight unless it wrote the job's end. */
  lemma LetsGo(w: World, p: Proc, r: Reply, id: Id)
    requires ProcOk(w.jobs, w.issued, p) && RecordsOk(w.jobs, w.issued) && Drives(p, id) && r.Error?
    requires p.Checking? ==> !p.validator.ValProbe? && !p.validator.ValReject? && !p.validator.ValEnqueue?
    requires p.Working? ==> !p.worker.WorkFetch? && !p.worker.WorkTranscode? && !p.worker.WorkUpload?
    ensures var o := StepProc(w, p, r);
      !Drives(o.me, id) && o.spawned == [] && o.w.queue == w.queue && (Accepted(o.w, id) <==> !EndsJob(p, r))
  {
    match p
    case Checking(v) => ValidatorLetsGo(w, v, r);
    case Working(k) => WorkerLetsGo(w, k, r);
    case _ =>
  }

  lemma ValidatorLetsGo(w: World, v: Validator, r: Reply)
    requires ValidatorOk(w.jobs, v) && RecordsOk(w.jobs, w.issued) && r.Error?
    requires !v.ValProbe? && !v.ValReject? && !v.ValEnqueue? && !v.ValUndoRaw?
    ensures var o, id := StepValidator(w, v, r), ValidatorId(v);
      !Drives(o.me, id) && o.spawned == [] && o.w.queue == w.queue && (Accepted(o.w, id) <==> !EndsJob(Checking(v), r))
  {
  }

  lemma WorkerLetsGo(w: World, k: Worker, r: Reply)
    requires WorkerOk(w.jobs, k) && RecordsOk(w.jobs, w.issued) && r.Error?
    requires k.WorkLoad? || k.WorkMark? || k.WorkFinish? || k.WorkFail?
    ensures var o, id := StepWorker(w, k, r), WorkerId(k).value;
      !Drives(o.me, id) && o.spawned == [] && o.w.queue == w.queue && (Accepted(o.w, id) <==> !EndsJob(Working(k), r))
  {
  }

  /** The exact converse: an owner's step loses its job, in flight and driven by nobody until the next
      restart, if and only if its call is one of the failures above and did not write the job's end. */
  lemma LostExactly(s: State, i: nat, r: Reply, id: Id)
    requires OwnInv(s) && Enabled(s, Run(i, r)) && Drives(s.procs[i], id)
    ensures Lost(StepRun(s, i, r), id) <==> StoreFailure(s, Run(i, r), id) && !EndsJob(s.procs[i], r)
  {
    if StoreFailure(s, Run(i, r), id) {
      FailureLoses(s, i, r, id);
    } else if Accepted(StepRun(s, i, r).w, id) {
      assert ProcOk(s.w.jobs, s.w.issued, s.procs[i]);
      OwnerCovers(s, i, r, id, Goroutine(i));
    }
  }

  lemma FailureLoses(s: State, i: nat, r: Reply, id: Id)
    requires OwnInv(s) && Enabled(s, Run(i, r)) && Drives(s.procs[i], id) && StoreFailure(s, Run(i, r), id)
    ensures Lost(StepRun(s, i, r), id) <==> !EndsJob(s.procs[i], r)
  {
    var t := StepRun(s, i, r);
    assert ProcOk(s.w.jobs, s.w.issued, s.procs[i]);
    LetsGo(s.w, s.procs[i], r, id);
    assert Owns(s, Goroutine(i), id);
    forall o | Owns(s, o, id)
      ensures o == Goroutine(i)
    {
      OneOwner(s, o, Goroutine(i), id);
    }
    assert forall o :: Owns(t, o, id) ==> Owns(s, o, id) && o != Goroutine(i);
  }

  /** Where the code drops a job: the failing calls above, unless they wrote its end; a mark that was applied
      though it seemed to fail; and recovery's call for the head of its list, unless it marked it failed. */
  ghost predicate Drops(s: State, a: Action, id: Id)
    requires Enabled(s, a)
  {
    a.Run? && a.reply.Error? &&
    match s.procs[a.i]
    case Completing(HandlerMark(rec)) => rec.id == id && id in s.w.jobs && a.reply.applied
    case Checking(_) => StoreFailure(s, a, id) && !EndsJob(s.procs[a.i], a.reply)
    case Working(_) => StoreFailure(s, a, id) && !EndsJob(s.procs[a.i], a.reply)
    case Recovering(RecNext(todo)) => todo != [] && todo[0].id == id && InFlight(todo[0].status)
    case Recovering(RecEnqueue(rec, _)) => rec.id == id
    case Recovering(RecFail(todo)) => todo != [] && todo[0].id == id && !a.reply.applied
    case _ => false
  }

  ghost predicate Forgotten(s: State, id: Id)
    requires s.procs != []
  {
    Accepted(s.w, id) && !Covered(s, id)
  }

  /** A validator or worker that drops its job. */
  lemma OwnerDrops(s: State, i: nat, r: Reply, id: Id)
    requires OwnInv(s) && Enabled(s, Run(i, r)) && (s.procs[i].Checking? || s.procs[i].Working?)
    requires Drops(s, Run(i, r), id)
    ensures StepRun(s, i, r).procs != [] && Forgotten(StepRun(s, i, r), id)
  {
    var t := StepRun(s, i, r);
    assert ProcOk(s.w.jobs, s.w.issued, s.procs[i]) && ClaimedBy(s, i, id);
    LostExactly(s, i, r, id);
    assert t.procs[0] == s.procs[0];
    NotWaitedFor(s, id);
  }

  lemma NotWaitedFor(s: State, id: Id)
    requires OwnInv(s) && !Unclaimed(s, id)
    ensures !WaitedFor(s.procs[0], id)
    ensures (exists j: nat :: ClaimedBy(s, j, id)) ==> s.procs[0] != Recovering(RecList)
  {
  }

  lemma HandlerDrops(s: State, i: nat, r: Reply, id: Id)
    requires OwnInv(s) && SessionInv(s) && Enabled(s, Run(i, r)) && Guarded(s, Run(i, r)) && s.procs[i].Completing?
    requires Drops(s, Run(i, r), id)
    ensures StepRun(s, i, r).procs != [] && Forgotten(StepRun(s, i, r), id)
  {
    var t := StepRun(s, i, r);
    assert ProcOk(s.w.jobs, s.w.issued, s.procs[i]);
    UploadingIsFree(s, id);
    forall o
      ensures !Owns(t, o, id)
    {
      if o.Goroutine? {
        assert !ClaimedBy(s, o.index, id);
      }
    }
    assert t.procs[0] == s.procs[0] && IsServing(s);
  }

  lemma NoOwnerLeft(s: State, r: Reply, id: Id)
    requires OwnInv(s) && s.procs[0].Recovering? && Claim(StepProc(s.w, s.procs[0], r).me) == None
    requires StepProc(s.w, s.procs[0], r).spawned == [] && StepProc(s.w, s.procs[0], r).w.queue == s.w.queue
    requires id !in s.w.queue && forall j: nat :: j > 0 ==> !ClaimedBy(s, j, id)
    ensures forall o :: !Owns(StepRun(s, 0, r), o, id)
  {
    var t := StepRun(s, 0, r);
    forall o
      ensures !Owns(t, o, id)
    {
      if o.Goroutine? {
        assert o.index > 0 ==> !ClaimedBy(s, o.index, id);
      }
    }
  }

  lemma HeadDrops(s: State, r: Reply, todo: seq<Record>)
    requires OwnInv(s) && Enabled(s, Run(0, r)) && r.Error? && todo != [] && InFlight(todo[0].status)
    requires s.procs[0] == Recovering(RecNext(todo)) || (s.procs[0] == Recovering(RecFail(todo)) && !r.applied)
    ensures StepRun(s, 0, r).procs != [] && Forgotten(StepRun(s, 0, r), todo[0].id)
  {
    var t, id := StepRun(s, 0, r), todo[0].id;
    assert todo[0] in todo && Unclaimed(s, id);
    assert Waiting(t.procs[0]) == todo[1..];
    assert forall x :: x in todo[1..] ==> x.id != id;
    NoOwnerLeft(s, r, id);
  }

  lemma EnqueueDrops(s: State, r: Reply, id: Id)
    requires OwnInv(s) && Enabled(s, Run(0, r)) && r.Error? && Claim(s.procs[0]) == Some(id)
    ensures StepRun(s, 0, r).procs != [] && Forgotten(StepRun(s, 0, r), id)
  {
    var t := StepRun(s, 0, r);
    assert ProcOk(s.w.jobs, s.w.issued, s.procs[0]) && ClaimedBy(s, 0, id);
    assert Waiting(t.procs[0]) == Waiting(s.procs[0]);
    NotWaitedFor(s, id);
    NoOwnerLeft(s, r, id);
  }

  lemma RecoveryDrops(s: State, r: Reply, id: Id)
    requires OwnInv(s) && SessionInv(s) && Enabled(s, Run(0, r)) && s.procs[0].Recovering? && Drops(s, Run(0, r), id)
    ensures StepRun(s, 0, r).procs != [] && Forgotten(StepRun(s, 0, r), id)
  {
    assert ProcOk(s.w.jobs, s.w.issued, s.procs[0]);
    if s.procs[0].recovery.RecEnqueue? {
      EnqueueDrops(s, r, id);
    } else {
      HeadDrops(s, r, Waiting(s.procs[0]));
    }
  }

  lemma Dropping(s: State, a: Action, id: Id)
    requires OwnInv(s) && SessionInv(s) && Enabled(s, a) && Guarded(s, a) && Drops(s, a, id)
    ensures Next(s, a).procs != [] && Forgotten(Next(s, a), id)
  {
    if s.procs[a.i].Completing? {
      HandlerDrops(s, a.i, a.reply, id);
    } else if s.procs[a.i].Recovering? {
      RecoveryDrops(s, a.reply, id);
    } else {
      OwnerDrops(s, a.i, a.reply, id);
    }
  }

  /** A failing call that does not drop the job: it wrote its end, or it was not about a job in flight. */
  lemma Sparing(s: State, a: Action, id: Id)
    requires OwnInv(s) && SessionInv(s) && Enabled(s, a) && Guarded(s, a) && StoreFailure(s, a, id) && !Drops(s, a, id)
    requires Accepted(s.w, id) ==> Covered(s, id)
    ensures Next(s, a).procs != [] && !Forgotten(Next(s, a), id)
  {
    var i, r := a.i, a.reply;
    var t := StepRun(s, i, r);
    assert ProcOk(s.w.jobs, s.w.issued, s.procs[i]);
    match s.procs[i]
    case Checking(v) => if Drives(s.procs[i], id) { LostExactly(s, i, r, id); }
    case Working(_) => LostExactly(s, i, r, id);
    case Recovering(RecNext(todo)) => SparedByRecovery(s, r, todo, id);
    case _ =>
  }

  lemma SparedByRecovery(s: State, r: Reply, todo: seq<Record>, id: Id)
    requires OwnInv(s) && Enabled(s, Run(0, r)) && s.procs[0] == Recovering(RecNext(todo)) && r.Error?
    requires todo != [] && !InFlight(todo[0].status) && (Accepted(s.w, id) ==> Covered(s, id))
    ensures StepRun(s, 0, r).procs != [] && !Forgotten(StepRun(s, 0, r), id)
  {
    var t := StepRun(s, 0, r);
    assert t.w == s.w;
    if Accepted(s.w, id) {
      if o :| Owns(s, o, id) {
        assert Owns(t, o, id);
      } else {
        var rec :| rec in todo && rec.id == id && InFlight(rec.status);
        var k :| 0 <= k < |todo| && todo[k] == rec;
        assert rec == todo[1..][k - 1] && rec in Waiting(t.procs[0]);
      }
    }
  }

  /** The exact converse for every step: where every job in flight is covered, a guarded step leaves one
      uncovered if and only if it is one of those failing calls. */
  lemma ForgottenExactly(s: State, a: Action, id: Id)
    requires OwnInv(s) && SessionInv(s) && Enabled(s, a) && Guarded(s, a)
    requires Accepted(s.w, id) ==> Covered(s, id)
    ensures Next(s, a).procs != [] && (Forgotten(Next(s, a), id) <==> Drops(s, a, id))
  {
    if Drops(s, a, id) {
      Dropping(s, a, id);
    } else if StoreFailure(s, a, id) {
      Sparing(s, a, id);
    } else {
      CoverStep(s, a, id);
    }
  }
}
