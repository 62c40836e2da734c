/** How jobs end: a good upload is completed, a bad one is rejected, and what each request accepts. */
module Outcomes {

  import opened Wrappers
  import opened Jobs
  import opened Lifecycle
  import opened Sessions
  import opened Ownership
  import opened Redrive
  import opened Liveness
  import Races

  // ---------- Good uploads ----------

  /** On the way to marking the job failed. */
  predicate FailingPath(p: Proc, id: Id) {
    match p
    case Checking(v) => ValidatorId(v) == id && (v.ValReject? || v.ValRejectLoad? || v.ValRejectMark? || v.ValUndo? || v.ValUndoRaw?)
    case Working(WorkFail(rec)) => rec.id == id
    case Recovering(RecFail(todo)) => todo != [] && todo[0].id == id
    case _ => false
  }

  ghost predicate OnTrack(s: State, id: Id) {
    && (forall j :: 0 <= j < |s.procs| ==> !FailingPath(s.procs[j], id))
    && (id in s.w.jobs ==> s.w.jobs[id].status != Failed)
  }

  /** No call made for this job fails or gives up: not the probe, the download, ffmpeg, the uploads, the
      status writes nor the enqueue; and recovery finds its bytes. */
  predicate WellServed(s: State, a: Action, id: Id)
    requires Enabled(s, a)
  {
    a.Run? ==>
      match s.procs[a.i]
      case Completing(HandlerMark(rec)) => rec.id == id ==> a.reply.Ok?
      case Checking(v) => ValidatorId(v) == id ==> a.reply.Ok?
      case Working(k) => WorkerId(k) == Some(id) ==> a.reply.Ok? || a.reply.Fetched?
      case Recovering(RecEnqueue(rec, _)) => rec.id == id ==> a.reply.Ok?
      case Recovering(RecFail(todo)) => todo != [] && todo[0].id == id ==> a.reply.Ok?
      case Recovering(c) => HeadServed(s.w, c, a.reply, id)
      case _ => true
  }

  /** What a step for the job leaves: not on the failing path, and no mark of failure. */
  ghost predicate TrackOut(w: World, o: Out, id: Id) {
    && !FailingPath(o.me, id) && (forall q :: q in o.spawned ==> !FailingPath(q, id))
    && (id in o.w.jobs && o.w.jobs[id].status == Failed ==> id in w.jobs && w.jobs[id].status == Failed)
  }

  lemma ValidatorTrack(w: World, v: Validator, r: Reply, id: Id)
    requires ValidatorOk(w.jobs, v) && ValidatorAnswers(w, v, r) && !FailingPath(Checking(v), id)
    requires forall x :: x in w.jobs ==> w.jobs[x].id == x
    requires ValidatorId(v) == id ==> r.Ok?
    ensures TrackOut(w, StepValidator(w, v, r), id)
  {
  }

  lemma TickTrack(w: World, k: Worker, r: Reply, id: Id)
    requires k.WorkTranscode? && WorkerOk(w.jobs, k) && (k.rec.id == id ==> r.Ok?)
    ensures TrackOut(w, StepWorker(w, k, r), id)
  {
  }

  lemma WorkerTrack(w: World, k: Worker, r: Reply, id: Id)
    requires WorkerOk(w.jobs, k) && WorkerAnswers(w, k, r) && !FailingPath(Working(k), id)
    requires forall x :: x in w.jobs ==> w.jobs[x].id == x
    requires WorkerId(k) == Some(id) ==> r.Ok? || r.Fetched?
    ensures TrackOut(w, StepWorker(w, k, r), id)
  {
    if k.WorkTranscode? {
      TickTrack(w, k, r, id);
    }
  }

  predicate HeadServed(w: World, c: Recovery, r: Reply, id: Id) {
    c.RecNext? && c.todo != [] && c.todo[0].id == id && InFlight(c.todo[0].status) ==>
      r.Ok? && (c.todo[0].status == Validating ==> c.todo[0].rawKey in w.objs)
  }

  lemma RecoveryTrack(w: World, c: Recovery, r: Reply, id: Id)
    requires ProcOk(w.jobs, w.issued, Recovering(c)) && RecoveryAnswers(w, c, r) && !FailingPath(Recovering(c), id)
    requires HeadServed(w, c, r, id)
    ensures TrackOut(w, StepRecovery(w, c, r), id)
  {
  }

  lemma RequestTrack(w: World, p: Proc, r: Reply, id: Id)
    requires (p.Creating? || p.Completing?) && ProcOk(w.jobs, w.issued, p)
    ensures TrackOut(w, StepProc(w, p, r), id)
  {
  }

  lemma SweeperTrack(w: World, z: Sweeper, r: Reply, id: Id)
    ensures TrackOut(w, StepSweeper(w, z, r), id)
  {
  }

  lemma ProcTrack(w: World, p: Proc, r: Reply, id: Id)
    requires ProcOk(w.jobs, w.issued, p) && Answers(w, p, r) && !FailingPath(p, id)
    requires forall x :: x in w.jobs ==> w.jobs[x].id == x
    requires p.Checking? && ValidatorId(p.validator) == id ==> r.Ok?
    requires p.Working? && WorkerId(p.worker) == Some(id) ==> r.Ok? || r.Fetched?
    requires p.Recovering? ==> HeadServed(w, p.recovery, r, id)
    ensures TrackOut(w, StepProc(w, p, r), id)
  {
    match p
    case Finished =>
    case Checking(v) => ValidatorTrack(w, v, r, id);
    case Working(k) => WorkerTrack(w, k, r, id);
    case Recovering(c) => RecoveryTrack(w, c, r, id);
    case Sweeping(z) => SweeperTrack(w, z, r, id);
    case _ => RequestTrack(w, p, r, id);
  }

  lemma OnTrackStep(s: State, a: Action, id: Id)
    requires OwnInv(s) && SessionInv(s) && Enabled(s, a) && OnTrack(s, id) && WellServed(s, a, id)
    ensures OnTrack(Next(s, a), id)
  {
    if a.Run? {
      assert ProcOk(s.w.jobs, s.w.issued, s.procs[a.i]);
      ProcTrack(s.w, s.procs[a.i], a.reply, id);
    }
  }

  lemma ServedDropsNone(s: State, a: Action, id: Id)
    requires Enabled(s, a) && WellServed(s, a, id)
    ensures !Drops(s, a, id)
  {
  }

  ghost predicate Served(s: State, a: Action, id: Id) {
    Enabled(s, a) && WellServed(s, a, id)
  }

  lemma {:induction false} OnTrackAt(trace: nat -> State, acts: nat -> Action, n: nat, id: Id)
    requires Schedule(trace, acts) && (forall k: nat :: Served(trace(k), acts(k), id)) && OnTrack(trace(0), id)
    ensures OnTrack(trace(n), id)
  {
    if n > 0 {
      OnTrackAt(trace, acts, n - 1, id);
      OnTrackMove(trace, acts, n - 1, id);
    }
  }

  lemma OnTrackMove(trace: nat -> State, acts: nat -> Action, n: nat, id: Id)
    requires Schedule(trace, acts) && Served(trace(n), acts(n), id) && OnTrack(trace(n), id)
    ensures OnTrack(trace(n + 1), id)
  {
    AliveAt(trace, acts, n);
    TrackMove(trace(n), acts(n), trace(n + 1), id);
  }

  lemma TrackMove(s: State, a: Action, t: State, id: Id)
    requires Alive(s) && Moved(s, a, t) && WellServed(s, a, id) && OnTrack(s, id)
    ensures OnTrack(t, id)
  {
    OnTrackStep(s, a, id);
  }

  lemma SmoothWhenServed(trace: nat -> State, acts: nat -> Action, id: Id)
    requires Schedule(trace, acts) && forall k: nat :: Served(trace(k), acts(k), id)
    ensures Smooth(trace, acts, id)
  {
    forall k: nat
      ensures Spares(trace(k), acts(k), id)
    {
      assert Served(trace(k), acts(k), id);
      ServedDropsNone(trace(k), acts(k), id);
    }
  }

  /** The first moment at which the job is no longer in flight. */
  lemma {:induction false} FirstEnd(trace: nat -> State, n: nat, bound: nat, id: Id) returns (m: nat)
    requires n <= bound && Accepted(trace(n).w, id) && !Accepted(trace(bound).w, id)
    ensures n < m <= bound && Accepted(trace(m - 1).w, id) && !Accepted(trace(m).w, id)
    decreases bound - n
  {
    if !Accepted(trace(n + 1).w, id) {
      m := n + 1;
    } else {
      m := FirstEnd(trace, n + 1, bound, id);
    }
  }

  /** Leaving flight means ending: the record is there and terminal. */
  lemma EndsTerminal(s: State, a: Action, t: State, id: Id)
    requires Alive(s) && Moved(s, a, t) && Accepted(s.w, id) && !Accepted(t.w, id)
    ensures id in t.w.jobs && Terminal(t.w.jobs[id].status)
  {
    Safety.StatusOnlyAdvances(s, a, id);
  }

  lemma EndsAt(trace: nat -> State, acts: nat -> Action, m: nat, id: Id)
    requires Schedule(trace, acts) && Accepted(trace(m).w, id) && !Accepted(trace(m + 1).w, id)
    ensures id in trace(m + 1).w.jobs && Terminal(trace(m + 1).w.jobs[id].status)
  {
    AliveAt(trace, acts, m);
    EndsTerminal(trace(m), acts(m), trace(m + 1), id);
  }

  /** A good upload is completed: in an endless fair crash-free run in which accepting stops, an accepted job,
      MP4 or HLS, for which no call fails or gives up is at some point completed. */
  lemma GoodUploadCompletes(trace: nat -> State, acts: nat -> Action, n: nat, id: Id) returns (m: nat)
    requires Schedule(trace, acts) && Fair(trace, acts) && forall k: nat :: Served(trace(k), acts(k), id)
    requires OnTrack(trace(0), id) && (Accepted(trace(0).w, id) ==> Covered(trace(0), id))
    requires Accepted(trace(n).w, id) && forall k: nat :: k >= n ==> !Accepts(trace(k), acts(k))
    ensures m > n && id in trace(m).w.jobs && trace(m).w.jobs[id].status == Completed
  {
    var bound := LeavesFlight(trace, acts, n, id);
    m := FirstEndCompletes(trace, acts, n, bound, id);
  }

  lemma FirstEndCompletes(trace: nat -> State, acts: nat -> Action, n: nat, bound: nat, id: Id) returns (m: nat)
    requires Schedule(trace, acts) && (forall k: nat :: Served(trace(k), acts(k), id)) && OnTrack(trace(0), id)
    requires n <= bound && Accepted(trace(n).w, id) && !Accepted(trace(bound).w, id)
    ensures m > n && id in trace(m).w.jobs && trace(m).w.jobs[id].status == Completed
  {
    m := FirstEnd(trace, n, bound, id);
    CompletesAt(trace, acts, m - 1, id);
  }

  lemma LeavesFlight(trace: nat -> State, acts: nat -> Action, n: nat, id: Id) returns (bound: nat)
    requires Schedule(trace, acts) && Fair(trace, acts) && forall k: nat :: Served(trace(k), acts(k), id)
    requires Accepted(trace(0).w, id) ==> Covered(trace(0), id)
    requires forall k: nat :: k >= n ==> !Accepts(trace(k), acts(k))
    ensures bound >= n && !Accepted(trace(bound).w, id)
  {
    SmoothWhenServed(trace, acts, id);
    bound := EveryJobEnds(trace, acts, n, id);
  }

  lemma CompletesAt(trace: nat -> State, acts: nat -> Action, m: nat, id: Id)
    requires Schedule(trace, acts) && (forall k: nat :: Served(trace(k), acts(k), id)) && OnTrack(trace(0), id)
    requires Accepted(trace(m).w, id) && !Accepted(trace(m + 1).w, id)
    ensures id in trace(m + 1).w.jobs && trace(m + 1).w.jobs[id].status == Completed
  {
    EndsAt(trace, acts, m, id);
    OnTrackAt(trace, acts, m + 1, id);
  }

  // ---------- Bad uploads and failed work ----------

  /** A validator that rejects the job, or a worker that fails it. */
  predicate Rejecting(p: Proc, id: Id, at: Status) {
    match p
    case Checking(v) =>
      at == Validating && ValidatorId(v) == id && (v.ValReject? || v.ValRejectLoad? || v.ValRejectMark?)
    case Working(k) => at == Processing && k.WorkFail? && k.rec.id == id
    case _ => false
  }

  /** The job's probe or its processing has failed: it is gone, failed, or left as it is to the goroutine
      that rejects it. */
  ghost predicate Rejected(s: State, id: Id, at: Status) {
    && id in s.w.used && s.procs != [] && s.procs[0] != Recovering(RecList)
    && (id in s.w.jobs ==> s.w.jobs[id].status == Failed || BeingRejected(s, id, at))
  }

  ghost predicate BeingRejected(s: State, id: Id, at: Status)
    requires s.procs != []
  {
    && (at == Validating || at == Processing)
    && InState(s.w.jobs, id, at) && !WaitedFor(s.procs[0], id)
    && forall j: nat :: ClaimedBy(s, j, id) ==> Rejecting(s.procs[j], id, at)
  }

  /** A step that leaves the record of id as it is and claims it for nobody. */
  ghost predicate LeavesAlone(w: World, o: Out, id: Id) {
    && id in w.jobs && id in o.w.jobs && o.w.jobs[id] == w.jobs[id]
    && Claim(o.me) != Some(id) && forall q :: q in o.spawned ==> Claim(q) != Some(id)
  }

  lemma OwnerLeaves(s: State, i: nat, r: Reply, id: Id)
    requires OwnInv(s) && SessionInv(s) && Enabled(s, Run(i, r)) && id in s.w.jobs && Claim(s.procs[i]) != Some(id)
    requires s.procs[i].Creating? || s.procs[i].Checking? || (s.procs[i].Working? && !s.procs[i].worker.WorkIdle?)
    ensures LeavesAlone(s.w, StepProc(s.w, s.procs[i], r), id)
  {
    assert ProcOk(s.w.jobs, s.w.issued, s.procs[i]) && ProcKnown(s.w.used, s.w.jobs, s.procs[i]);
    OwnerOut(s.w, s.procs[i], r);
    Safety.NoneBorn(s.w, s.procs[i], r, id);
  }

  lemma HandlerLeaves(s: State, i: nat, r: Reply, id: Id)
    requires OwnInv(s) && SessionInv(s) && Enabled(s, Run(i, r)) && Guarded(s, Run(i, r)) && s.procs[i].Completing?
    requires id in s.w.jobs && s.w.jobs[id].status != Uploading
    ensures LeavesAlone(s.w, StepProc(s.w, s.procs[i], r), id)
  {
    assert ProcOk(s.w.jobs, s.w.issued, s.procs[i]) && ProcKnown(s.w.used, s.w.jobs, s.procs[i]);
    HandlerOut(s.w, s.procs[i].handler, r);
  }

  lemma SweeperLeaves(s: State, i: nat, r: Reply, id: Id)
    requires OwnInv(s) && SessionInv(s) && Enabled(s, Run(i, r)) && Guarded(s, Run(i, r)) && s.procs[i].Sweeping?
    requires id in s.w.jobs && InFlight(s.w.jobs[id].status)
    ensures LeavesAlone(s.w, StepProc(s.w, s.procs[i], r), id)
  {
    assert ProcOk(s.w.jobs, s.w.issued, s.procs[i]);
    SweeperOut(s.w, s.procs[i].sweeper, r);
    SweeperSpares(s.w, s.procs[i].sweeper, StepProc(s.w, s.procs[i], r), id);
  }

  lemma SweeperSpares(w: World, z: Sweeper, o: Out, id: Id)
    requires SweeperOk(w.jobs, z) && GuardHolds(w.jobs, Sweeping(z)) && SweepOut(w, z, o)
    requires id in w.jobs && InFlight(w.jobs[id].status)
    ensures LeavesAlone(w, o, id)
  {
    if !z.SweepIdle? && z.todo != [] {
      assert z.todo[0] in z.todo;
    }
  }

  lemma IdleLeaves(s: State, i: nat, r: Reply, id: Id)
    requires OwnInv(s) && Enabled(s, Run(i, r)) && s.procs[i] == Working(WorkIdle)
    requires id in s.w.jobs && s.w.jobs[id].status != Pending
    ensures LeavesAlone(s.w, StepProc(s.w, s.procs[i], r), id)
  {
    assert s.w.queue[0] in s.w.queue;
  }

  /** Recovery's step, when the head of its list is another job or not in flight. */
  lemma RecoverySpares(w: World, c: Recovery, r: Reply, id: Id)
    requires ProcOk(w.jobs, w.issued, Recovering(c)) && RecoveryAnswers(w, c, r) && c != RecList && id in w.jobs
    requires Claim(Recovering(c)) != Some(id)
    requires c.RecNext? || c.RecFail? ==> c.todo != [] ==> c.todo[0].id != id || !InFlight(c.todo[0].status)
    ensures LeavesAlone(w, StepRecovery(w, c, r), id) && StepRecovery(w, c, r).me != Recovering(RecList)
  {
  }

  lemma RecoveryWaits(w: World, c: Recovery, r: Reply)
    requires c != RecList
    ensures forall x :: x in Waiting(StepRecovery(w, c, r).me) ==> x in Waiting(Recovering(c))
  {
    var todo := Waiting(Recovering(c));
    if todo != [] {
      assert forall x :: x in todo[1..] ==> x in todo;
      assert [todo[0]] + todo[1..] == todo;
    }
  }

  lemma RecoveryLeaves(s: State, r: Reply, id: Id)
    requires OwnInv(s) && Enabled(s, Run(0, r)) && id in s.w.jobs && InFlight(s.w.jobs[id].status)
    requires !WaitedFor(s.procs[0], id) && s.procs[0] != Recovering(RecList) && Claim(s.procs[0]) != Some(id)
    ensures var o := StepProc(s.w, s.procs[0], r);
      LeavesAlone(s.w, o, id) && !WaitedFor(o.me, id) && o.me != Recovering(RecList)
  {
    var todo, c := Waiting(s.procs[0]), s.procs[0].recovery;
    assert ProcOk(s.w.jobs, s.w.issued, s.procs[0]);
    assert todo != [] ==> todo[0] in todo;
    RecoverySpares(s.w, c, r, id);
    RecoveryWaits(s.w, c, r);
  }

  lemma StrangerLeaves(s: State, i: nat, r: Reply, id: Id, at: Status)
    requires OwnInv(s) && SessionInv(s) && Enabled(s, Run(i, r)) && Guarded(s, Run(i, r)) && BeingRejected(s, id, at)
    requires Claim(s.procs[i]) != Some(id) && s.procs[0] != Recovering(RecList)
    ensures LeavesAlone(s.w, StepProc(s.w, s.procs[i], r), id)
    ensures i == 0 ==> !WaitedFor(StepProc(s.w, s.procs[i], r).me, id) && StepProc(s.w, s.procs[i], r).me != Recovering(RecList)
  {
    var p := s.procs[i];
    if p.Completing? {
      HandlerLeaves(s, i, r, id);
    } else if p.Sweeping? {
      SweeperLeaves(s, i, r, id);
    } else if p.Recovering? {
      RecoveryLeaves(s, r, id);
    } else if p == Working(WorkIdle) {
      IdleLeaves(s, i, r, id);
    } else if p.Creating? || p.Checking? || p.Working? {
      OwnerLeaves(s, i, r, id);
    }
  }

  /** The goroutine that rejects the job goes on, or is done. */
  lemma RejectorSteps(w: World, p: Proc, r: Reply, id: Id, at: Status)
    requires ProcOk(w.jobs, w.issued, p) && Rejecting(p, id, at)
    requires forall x :: x in w.jobs ==> w.jobs[x].id == x
    ensures var o := StepProc(w, p, r);
      && o.spawned == [] && (Claim(o.me) == Some(id) ==> Rejecting(o.me, id, at)) && !o.me.Recovering?
      && id in o.w.jobs && (o.w.jobs[id].status == at || o.w.jobs[id].status == Failed)
  {
  }

  lemma RejectionRuns(s: State, i: nat, r: Reply, id: Id, at: Status)
    requires OwnInv(s) && SessionInv(s) && Enabled(s, Run(i, r)) && Guarded(s, Run(i, r))
    requires Rejected(s, id, at) && BeingRejected(s, id, at)
    ensures StepRun(s, i, r).procs != [] && StepRun(s, i, r).procs[0] != Recovering(RecList)
    ensures id in StepRun(s, i, r).w.jobs
    ensures StepRun(s, i, r).w.jobs[id].status == Failed || BeingRejected(StepRun(s, i, r), id, at)
  {
    var t := StepRun(s, i, r);
    assert ProcOk(s.w.jobs, s.w.issued, s.procs[i]);
    if Claim(s.procs[i]) == Some(id) {
      assert ClaimedBy(s, i, id);
      RejectorSteps(s.w, s.procs[i], r, id, at);
    } else {
      StrangerLeaves(s, i, r, id, at);
    }
    assert forall j: nat :: j != i && ClaimedBy(t, j, id) ==> ClaimedBy(s, j, id) && t.procs[j] == s.procs[j];
  }

  lemma RejectedStep(s: State, a: Action, id: Id, at: Status)
    requires OwnInv(s) && SessionInv(s) && Enabled(s, a) && Guarded(s, a) && !a.Crash? && Rejected(s, id, at)
    ensures Rejected(Next(s, a), id, at)
  {
    var t := Next(s, a);
    SessionStep(s, a);
    Safety.StatusOnlyAdvances(s, a, id);
    ListedOnce(s, a);
    if id in s.w.jobs && s.w.jobs[id].status != Failed {
      if a.Run? {
        RejectionRuns(s, a.i, a.reply, id, at);
      } else {
        RejectionWaits(s, a, id, at);
      }
    }
  }

  lemma RejectionWaits(s: State, a: Action, id: Id, at: Status)
    requires SessionInv(s) && Enabled(s, a) && !a.Run? && !a.Crash? && s.procs != [] && BeingRejected(s, id, at)
    ensures Next(s, a).procs != [] && BeingRejected(Next(s, a), id, at)
  {
    var t := Next(s, a);
    assert forall j: nat :: ClaimedBy(t, j, id) ==> ClaimedBy(s, j, id) || (a.Create? && a.id == id);
  }

  lemma {:induction false} RejectedRun(s: State, actions: seq<Action>, id: Id, at: Status)
    requires OwnInv(s) && SessionInv(s) && GuardedRun(s, actions) && Safety.NoCrash(actions) && Rejected(s, id, at)
    ensures Runs(s, actions) && Rejected(After(s, actions), id, at)
    decreases |actions|
  {
    if actions != [] {
      RejectedStep(s, actions[0], id, at);
      OwnStep(s, actions[0]);
      SessionStep(s, actions[0]);
      RejectedRun(Next(s, actions[0]), actions[1..], id, at);
    }
  }

  /** A bad upload never gets further: once its probe has failed, over every guarded run of the process the job
      is validating, failed or gone, and never in the queue. */
  lemma BadUploadNeverQueued(s: State, i: nat, r: Reply, id: Id, key: Key, actions: seq<Action>)
    requires OwnInv(s) && SessionInv(s) && Enabled(s, Run(i, r)) && s.procs[i] == Checking(ValProbe(id, key)) && !r.Ok?
    requires GuardedRun(StepRun(s, i, r), actions) && Safety.NoCrash(actions)
    ensures Runs(StepRun(s, i, r), actions)
    ensures var t := After(StepRun(s, i, r), actions);
      id !in t.w.queue && (id in t.w.jobs ==> t.w.jobs[id].status == Validating || t.w.jobs[id].status == Failed)
  {
    assert ProcOk(s.w.jobs, s.w.issued, s.procs[i]);
    RejectionStarts(s, i, r, id, Validating);
    OwnStep(s, Run(i, r));
    SessionStep(s, Run(i, r));
    RejectedRun(StepRun(s, i, r), actions, id, Validating);
    RunKeepsAll(StepRun(s, i, r), actions);
  }

  lemma RejectionStarts(s: State, i: nat, r: Reply, id: Id, at: Status)
    requires OwnInv(s) && SessionInv(s) && Enabled(s, Run(i, r)) && ClaimedBy(s, i, id) && i > 0
    requires InState(s.w.jobs, id, at) && (at == Validating || at == Processing)
    requires var o := StepProc(s.w, s.procs[i], r);
      o.spawned == [] && Rejecting(o.me, id, at) && InState(o.w.jobs, id, at) && o.w.used == s.w.used
    ensures Rejected(StepRun(s, i, r), id, at)
  {
    var t := StepRun(s, i, r);
    NotWaitedFor(s, id);
    assert forall j: nat :: ClaimedBy(t, j, id) ==> j == i || ClaimedBy(s, j, id);
  }

  /** The calls of the worker after which it gives the job up: the download, ffmpeg, an upload. */
  predicate WorkFails(k: Worker, r: Reply) {
    match k
    case WorkFetch(_) => !r.Fetched?
    case WorkTranscode(_, _, _, _) => r.LocalError?
    case WorkUpload(_, _, left) => left != [] && !r.Ok?
    case _ => false
  }

  lemma GivesUp(w: World, k: Worker, r: Reply)
    requires WorkerOk(w.jobs, k) && WorkFails(k, r)
    ensures var o := StepProc(w, Working(k), r);
      && o.me == Working(WorkFail(k.rec.(status := Failed))) && o.spawned == []
      && o.w.jobs == w.jobs && o.w.queue == w.queue && o.w.used == w.used
  {
  }

  /** Failed work never ends well: once a call of the worker for the job has failed, over every guarded run of
      the process the job is processing, failed or gone, and never in the queue. */
  lemma FailedWorkNeverCompletes(s: State, i: nat, r: Reply, id: Id, actions: seq<Action>)
    requires OwnInv(s) && SessionInv(s) && Enabled(s, Run(i, r)) && s.procs[i].Working?
    requires WorkFails(s.procs[i].worker, r) && WorkerId(s.procs[i].worker) == Some(id)
    requires GuardedRun(StepRun(s, i, r), actions) && Safety.NoCrash(actions)
    ensures Runs(StepRun(s, i, r), actions)
    ensures var t := After(StepRun(s, i, r), actions);
      id !in t.w.queue && (id in t.w.jobs ==> t.w.jobs[id].status == Processing || t.w.jobs[id].status == Failed)
  {
    assert ProcOk(s.w.jobs, s.w.issued, s.procs[i]);
    GivesUp(s.w, s.procs[i].worker, r);
    RejectionStarts(s, i, r, id, Processing);
    OwnStep(s, Run(i, r));
    SessionStep(s, Run(i, r));
    RejectedRun(StepRun(s, i, r), actions, id, Processing);
    RunKeepsAll(StepRun(s, i, r), actions);
  }

  /** ... and when the write of the failure works, the job is failed. */
  lemma FailedWorkIsStored(w: World, rec: Record)
    requires WorkerOk(w.jobs, WorkFail(rec))
    ensures var o := StepWorker(w, WorkFail(rec), Ok);
      o.me == Working(WorkIdle) && o.w == w.(jobs := w.jobs[rec.id := rec]) && o.w.jobs[rec.id].status == Failed
  {
  }

  // ---------- Requests and failures on their own ----------

  /** The three calls of a complete request, when nothing comes between them and none fails. */
  function CompleteAlone(w: World, id: Id): Out {
    var load := StepHandler(w, HandlerLoad(id), Ok);
    if !load.me.Completing? then load
    else
      var stat := StepHandler(load.w, load.me.handler, Ok);
      if !stat.me.Completing? then stat else StepHandler(stat.w, stat.me.handler, Ok)
  }

  /** A complete request is accepted if and only if the session is still uploading and its object is there, not
      empty and of 2 GiB at most; otherwise it changes nothing. */
  lemma AcceptedExactly(w: World, id: Id)
    requires forall x :: x in w.jobs ==> w.jobs[x].id == x
    ensures var o := CompleteAlone(w, id);
      if id in w.jobs && w.jobs[id].status == Uploading && w.jobs[id].rawKey in w.objs
         && 0 < w.objs[w.jobs[id].rawKey].size <= 2 * 1024 * 1024 * 1024
      then o.w == w.(jobs := w.jobs[id := w.jobs[id].(status := Validating)])
           && o.me == Checking(ValProbe(id, w.jobs[id].rawKey)) && o.spawned == []
      else o == Out(w, Finished, [])
  {
  }

  // ---------- Limits ----------

  /** A create request is let in if and only if the server runs, fewer than 20 jobs wait and its id is new. */
  lemma CreatesExactly(s: State, id: Id, name: string, kind: Kind, createdAt: Timestamps.Instant, r: Reply)
    requires createdAt <= s.w.now && (r.Ok? || r.Error?)
    ensures Enabled(s, Create(id, name, kind, createdAt, r)) <==> IsServing(s) && |s.w.queue| < 20 && id !in s.w.used
  {
  }

  /** An enqueue can succeed if and only if fewer than 100 jobs wait, and then the job comes last; a worker takes
      the job that came first. */
  lemma FirstInFirstOut(w: World, rec: Record)
    ensures ValidatorAnswers(w, ValEnqueue(rec), Ok) <==> |w.queue| < 100
    ensures RecoveryAnswers(w, RecEnqueue(rec, []), Ok) <==> |w.queue| < 100
    ensures StepValidator(w, ValEnqueue(rec), Ok).w == w.(queue := w.queue + [rec.id])
    ensures StepRecovery(w, RecEnqueue(rec, []), Ok).w == w.(queue := w.queue + [rec.id])
    ensures WorkerAnswers(w, WorkIdle, Ok) <==> w.queue != []
    ensures w.queue != [] ==>
      var o := StepWorker(w, WorkIdle, Ok);
      o.me == Working(WorkLoad(w.queue[0])) && o.w == w.(queue := w.queue[1..])
  {
  }

  ghost predicate Bounded(w: World) {
    |w.queue| <= 100
  }

  lemma ValidatorBounded(w: World, v: Validator, r: Reply)
    requires Bounded(w) && ValidatorAnswers(w, v, r)
    ensures Bounded(StepValidator(w, v, r).w)
  {
  }

  lemma WorkerBounded(w: World, k: Worker, r: Reply)
    requires Bounded(w)
    ensures Bounded(StepWorker(w, k, r).w)
  {
  }

  lemma RecoveryBounded(w: World, c: Recovery, r: Reply)
    requires Bounded(w) && RecoveryAnswers(w, c, r)
    ensures Bounded(StepRecovery(w, c, r).w)
  {
  }

  lemma ProcBounded(w: World, p: Proc, r: Reply)
    requires Bounded(w) && Answers(w, p, r)
    ensures Bounded(StepProc(w, p, r).w)
  {
    match p
    case Checking(v) => ValidatorBounded(w, v, r);
    case Working(k) => WorkerBounded(w, k, r);
    case Recovering(c) => RecoveryBounded(w, c, r);
    case _ =>
  }

  /** Over every run, guarded or not, never more than 100 jobs wait. */
  lemma {:induction false} QueueIsBounded(s: State, actions: seq<Action>)
    requires Bounded(s.w) && Runs(s, actions)
    ensures Bounded(After(s, actions).w)
    decreases |actions|
  {
    if actions != [] {
      if actions[0].Run? {
        ProcBounded(s.w, s.procs[actions[0].i], actions[0].reply);
      }
      QueueIsBounded(Next(s, actions[0]), actions[1..]);
    }
  }

  // ---------- Creating ----------

  /** What a create request puts into the store: a record that is uploading, at 0 percent, without outputs,
      for the object its client is to upload; and then its URL is to be issued. */
  lemma SessionCreated(s: State, id: Id, name: string, kind: Kind, createdAt: Timestamps.Instant)
    requires Enabled(s, Create(id, name, kind, createdAt, Ok))
    ensures var rec := Record(id, kind, Uploading, 0, Raw(id, name), None, [], createdAt);
      Next(s, Create(id, name, kind, createdAt, Ok)) ==
        State(s.w.(used := s.w.used + {id}, jobs := s.w.jobs[id := rec]), s.procs + [Creating(CreatePresign(rec))])
  {
  }

  /** Creating a session: the client has a URL for 15 minutes and its record, or, if the URL could not be issued
      and the rollback works, neither. */
  lemma SessionOrNothing(w: World, rec: Record, r: Reply)
    ensures var o := StepCreator(w, CreatePresign(rec), r);
      if r.Ok? then
        o.me == Finished && o.w.jobs == w.jobs && o.w.issued == w.issued + {rec.id}
        && o.w.urls == w.urls[rec.rawKey := w.now + 15 * 60 * Timestamps.SECOND]
      else
        o.me.Creating? && o.w == w
        && var undone := StepCreator(o.w, o.me.creator, Ok);
          undone.me == Finished && undone.w.jobs == w.jobs - {rec.id} && undone.w.urls == w.urls
  {
  }

  lemma ValidatorGoes(s: State, i: nat, r: Reply, tail: seq<Action>)
    requires i < |s.procs| && s.procs[i].Checking? && ValidatorAnswers(s.w, s.procs[i].validator, r)
    requires var o := StepValidator(s.w, s.procs[i].validator, r);
      o.spawned == [] && GuardedRun(Stepped(s, i, o), tail) && Runs(Stepped(s, i, o), tail)
    ensures GuardedRun(s, [Run(i, r)] + tail) && Runs(s, [Run(i, r)] + tail)
    ensures After(s, [Run(i, r)] + tail) == After(Stepped(s, i, StepValidator(s.w, s.procs[i].validator, r)), tail)
  {
    StepsTo(s, i, r);
    Races.Prepend(s, Run(i, r), Stepped(s, i, StepValidator(s.w, s.procs[i].validator, r)), tail);
  }

  /** The rejection of a job, from its first call on. */
  function Rejection(i: nat): seq<Action> {
    [Run(i, Ok)] + ([Run(i, Ok)] + ([Run(i, Ok)] + []))
  }

  /** A rejected upload is marked failed and its bytes are deleted, when these calls work. */
  lemma RejectionFails(s: State, i: nat, id: Id, key: Key)
    requires i < |s.procs| && s.procs[i] == Checking(ValReject(id, key)) && id in s.w.jobs && s.w.jobs[id].id == id
    ensures GuardedRun(s, Rejection(i)) && Runs(s, Rejection(i))
    ensures var w := After(s, Rejection(i)).w;
      w == s.w.(objs := s.w.objs - {key}, jobs := s.w.jobs[id := s.w.jobs[id].(status := Failed)])
  {
    var w := s.w.(objs := s.w.objs - {key});
    var failed := s.w.jobs[id].(status := Failed);
    var s1 := State(w, s.procs[i := Checking(ValRejectLoad(id))]);
    var s2 := State(w, s.procs[i := Checking(ValRejectMark(failed))]);
    assert s1.procs[i := Checking(ValRejectMark(failed))] == s2.procs;
    ValidatorGoes(s2, i, Ok, []);
    ValidatorGoes(s1, i, Ok, [Run(i, Ok)] + []);
    ValidatorGoes(s, i, Ok, [Run(i, Ok)] + ([Run(i, Ok)] + []));
  }

  /** After a probe that fails the validator rejects; after an enqueue that fails it undoes. */
  lemma FailuresAreUndone(w: World, id: Id, key: Key, rec: Record, r: Reply)
    requires !r.Ok? && rec.id in w.jobs
    ensures StepValidator(w, ValProbe(id, key), r) == Out(w, Checking(ValReject(id, key)), [])
    ensures var o := StepValidator(w, ValEnqueue(rec), r);
      && o.w == w && o.me.Checking?
      && var undo := StepValidator(w, o.me.validator, Ok);
        && undo.w.jobs == w.jobs[rec.id := rec.(status := Failed)] && undo.me.Checking?
        && StepValidator(undo.w, undo.me.validator, Ok)
             == Out(undo.w.(objs := undo.w.objs - {rec.rawKey}), Finished, [])
  {
  }

  // ---------- Progress ----------

  /** What the progress of a record is when its status has just become `to`, and what it was before. */
  predicate StartsAt(p: Proc, to: Status, before: int, progress: int) {
    match to
    case Pending => progress == if p.Recovering? then before else 0
    case Processing => progress == 0
    case Completed => progress == 100
    case _ => true
  }

  /** The record of id, if a step has changed its status, starts at the progress that goes with it. */
  ghost predicate Restarts(w: World, p: Proc, w': World, id: Id) {
    id in w.jobs && id in w'.jobs && w'.jobs[id].status != w.jobs[id].status ==>
      StartsAt(p, w'.jobs[id].status, w.jobs[id].progress, w'.jobs[id].progress)
  }

  lemma ValidatorRestarts(w: World, v: Validator, r: Reply, id: Id)
    requires ValidatorOk(w.jobs, v)
    ensures Restarts(w, Checking(v), StepValidator(w, v, r).w, id)
  {
  }

  lemma WorkerRestarts(w: World, k: Worker, r: Reply, id: Id)
    requires WorkerOk(w.jobs, k)
    ensures Restarts(w, Working(k), StepWorker(w, k, r).w, id)
  {
  }

  lemma RecoveryRestarts(s: State, r: Reply, id: Id)
    requires OwnInv(s) && s.procs[0].Recovering?
    ensures Restarts(s.w, s.procs[0], StepProc(s.w, s.procs[0], r).w, id)
  {
    var todo := Waiting(s.procs[0]);
    assert todo != [] ==> todo[0] in todo;
    assert ProcOk(s.w.jobs, s.w.issued, s.procs[0]);
    HeadRestarts(s.w, s.procs[0].recovery, r, id);
  }

  lemma HeadRestarts(w: World, c: Recovery, r: Reply, id: Id)
    requires ProcOk(w.jobs, w.issued, Recovering(c)) && HeadCurrent(w.jobs, Waiting(Recovering(c)))
    ensures Restarts(w, Recovering(c), StepRecovery(w, c, r).w, id)
  {
  }

  lemma OthersRestart(w: World, p: Proc, r: Reply, id: Id)
    requires ProcOk(w.jobs, w.issued, p) && !p.Checking? && !p.Working? && !p.Recovering?
    ensures Restarts(w, p, StepProc(w, p, r).w, id)
  {
  }

  /** A job is queued and taken up at 0 percent, put back at the percentage it had, and completed at 100. */
  lemma ProgressFitsStatus(s: State, i: nat, r: Reply, id: Id)
    requires OwnInv(s) && Enabled(s, Run(i, r)) && id in s.w.jobs && id in StepRun(s, i, r).w.jobs
    requires StepRun(s, i, r).w.jobs[id].status != s.w.jobs[id].status
    ensures StartsAt(s.procs[i], StepRun(s, i, r).w.jobs[id].status, s.w.jobs[id].progress, StepRun(s, i, r).w.jobs[id].progress)
  {
    ProcRestarts(s, i, r, id);
  }

  lemma ProcRestarts(s: State, i: nat, r: Reply, id: Id)
    requires OwnInv(s) && i < |s.procs|
    ensures Restarts(s.w, s.procs[i], StepProc(s.w, s.procs[i], r).w, id)
  {
    var p := s.procs[i];
    assert ProcOk(s.w.jobs, s.w.issued, p);
    if p.Checking? {
      ValidatorRestarts(s.w, p.validator, r, id);
    } else if p.Working? {
      WorkerRestarts(s.w, p.worker, r, id);
    } else if p.Recovering? {
      RecoveryRestarts(s, r, id);
    } else {
      OthersRestart(s.w, p, r, id);
    }
  }

  /** The worker's ticks are those of the callback: the copy, the band last persisted and the stored progress
      move as Progress.Report says. */
  lemma WorkerReports(w: World, k: Worker, r: Reply, writes: nat)
    requires k.WorkTranscode? && k.ticks != [] && !r.LocalError? && k.rec.id in w.jobs
    ensures var o := StepWorker(w, k, r);
      && o.me.Working? && o.me.worker.WorkTranscode? && o.me.worker.ticks == k.ticks[1..]
      && k.rec.id in o.w.jobs
      && var before := Progress.Meter(k.lastPersisted, k.rec.progress, w.jobs[k.rec.id].progress, writes);
        var after := Progress.Report(before, Progress.Tick(k.ticks[0], Reached(r)));
        && o.me.worker.lastPersisted == after.lastPersisted
        && o.me.worker.rec == k.rec.(progress := after.live)
        && o.w.jobs[k.rec.id].progress == after.stored
  {
  }
}
