/** No deadlock: with one worker, recovery gets through any number of jobs over a queue of 100 slots, and
    the system works off whatever it has accepted, with sweepers, clients and the clock in between.
*/
module Liveness {

  import opened Jobs
  import opened Lifecycle
  import opened Sessions
  import opened Ownership
  import Redrive
  import Safety

  // ---------- How much is left to do ----------

  /** How many hand-overs a goroutine still has ahead of it. */
  function Hops(p: Proc): nat {
    match p
    case Checking(_) => 3
    case Working(WorkLoad(_)) => 1
    case Working(WorkMark(_)) => 1
    case Working(WorkFetch(_)) => 1
    case Recovering(RecNext(todo)) => 4 * |todo| + 1
    case Recovering(RecEnqueue(_, todo)) => 4 * |todo| + 4
    case Recovering(RecFail(todo)) => 4 * |todo| + 1
    case _ => 0
  }

  /** How many calls it makes before its next hand-over. */
  function Calls(p: Proc): nat {
    match p
    case Checking(ValProbe(_, _)) => 6
    case Checking(ValReject(_, _)) => 5
    case Checking(ValRejectLoad(_)) => 4
    case Checking(ValLoad(_)) => 5
    case Checking(ValMark(_)) => 4
    case Checking(ValEnqueue(_)) => 3
    case Checking(ValUndo(_)) => 2
    case Checking(_) => 1
    case Working(WorkLoad(_)) => 3
    case Working(WorkMark(_)) => 2
    case Working(WorkFetch(_)) => 1
    case Working(WorkTranscode(rec, video, ticks, _)) => |ticks| + |Uploads(rec.kind, rec.id, video)| + 3
    case Working(WorkUpload(_, _, left)) => |left| + 2
    case Working(WorkFinish(_, _)) => 1
    case Working(WorkFail(_)) => 1
    case Recovering(RecNext(_)) => 2
    case Recovering(RecFail(_)) => 1
    case _ => 0
  }

  function SumHops(procs: seq<Proc>): nat {
    if procs == [] then 0 else Hops(procs[0]) + SumHops(procs[1..])
  }

  function SumCalls(procs: seq<Proc>): nat {
    if procs == [] then 0 else Calls(procs[0]) + SumCalls(procs[1..])
  }

  function HopsLeft(s: State): nat {
    SumHops(s.procs) + 2 * |s.w.queue|
  }

  lemma {:induction false} SumsReplace(procs: seq<Proc>, i: nat, p: Proc)
    requires i < |procs|
    ensures SumHops(procs[i := p]) == SumHops(procs) - Hops(procs[i]) + Hops(p)
    ensures SumCalls(procs[i := p]) == SumCalls(procs) - Calls(procs[i]) + Calls(p)
  {
    if i == 0 {
      assert procs[i := p][1..] == procs[1..];
    } else {
      assert procs[i := p][1..] == procs[1..][i - 1 := p];
      SumsReplace(procs[1..], i - 1, p);
    }
  }

  lemma {:induction false} SumsAppend(procs: seq<Proc>, more: seq<Proc>)
    requires |more| <= 1
    ensures SumHops(procs + more) == SumHops(procs) + (if more == [] then 0 else Hops(more[0]))
    ensures SumCalls(procs + more) == SumCalls(procs) + (if more == [] then 0 else Calls(more[0]))
  {
    if procs == [] {
      assert procs + more == more;
      if more != [] {
        assert more[1..] == [];
      }
    } else {
      assert (procs + more)[1..] == procs[1..] + more;
      SumsAppend(procs[1..], more);
    }
  }

  // ---------- The steps recovery, validators and workers take among themselves ----------

  /** Enqueue waits rather than fails: nobody cancels it. */
  ghost predicate Patient(p: Proc, r: Reply) {
    match p
    case Checking(ValEnqueue(_)) => r.Ok?
    case Recovering(RecEnqueue(_, _)) => r.Ok?
    case Recovering(RecNext(todo)) => todo != [] && todo[0].status == Pending ==> r.Ok?
    case _ => true
  }

  /** A step of recovery after its listing, of a validator or of a worker, whatever its call returns. */
  ghost predicate Work(s: State, a: Action) {
    && a.Run? && Enabled(s, a)
    && (s.procs[a.i].Checking? || s.procs[a.i].Working? || s.procs[a.i].Recovering?)
    && s.procs[a.i] != Recovering(RecList)
  }

  ghost predicate Internal(s: State, a: Action) {
    Work(s, a) && Patient(s.procs[a.i], a.reply)
  }

  /** The hand-overs go down, or they stay and the calls go down. */
  ghost predicate Decreases(w: World, p: Proc, o: Out) {
    && |o.spawned| <= 1
    && var hops := Hops(o.me) + (if o.spawned == [] then 0 else Hops(o.spawned[0])) + 2 * |o.w.queue|;
    && hops <= Hops(p) + 2 * |w.queue|
    && (hops == Hops(p) + 2 * |w.queue| ==> o.spawned == [] && Calls(o.me) < Calls(p))
  }

  lemma ValidatorDecreases(w: World, v: Validator, r: Reply)
    ensures Decreases(w, Checking(v), StepValidator(w, v, r))
  {
  }

  lemma WorkerDecreases(w: World, k: Worker, r: Reply)
    requires WorkerAnswers(w, k, r)
    ensures Decreases(w, Working(k), StepWorker(w, k, r))
  {
  }

  lemma RecoveryDecreases(w: World, c: Recovery, r: Reply)
    requires RecoveryAnswers(w, c, r) && c != RecList && (c.RecFail? ==> c.todo != [])
    ensures Decreases(w, Recovering(c), StepRecovery(w, c, r))
  {
  }

  /** Every such step makes progress, whether its call succeeds or fails. */
  lemma WorkLeftDecreases(w: World, p: Proc, r: Reply)
    requires p.Checking? || p.Working? || p.Recovering?
    requires Answers(w, p, r) && p != Recovering(RecList)
    requires p.Recovering? && p.recovery.RecFail? ==> p.recovery.todo != []
    ensures Decreases(w, p, StepProc(w, p, r))
  {
    match p
    case Checking(v) => ValidatorDecreases(w, v, r);
    case Working(k) => WorkerDecreases(w, k, r);
    case Recovering(c) => RecoveryDecreases(w, c, r);
  }

  lemma MeasureDecreases(s: State, a: Action)
    requires OwnInv(s) && Work(s, a)
    ensures Below(Next(s, a), s)
  {
    var o := StepProc(s.w, s.procs[a.i], a.reply);
    assert ProcOk(s.w.jobs, s.w.issued, s.procs[a.i]);
    WorkLeftDecreases(s.w, s.procs[a.i], a.reply);
    SumsReplace(s.procs, a.i, o.me);
    SumsAppend(s.procs[a.i := o.me], o.spawned);
  }

  /** Less is left to do in t than in s. */
  ghost predicate Below(t: State, s: State) {
    HopsLeft(t) < HopsLeft(s) || (HopsLeft(t) == HopsLeft(s) && SumCalls(t.procs) < SumCalls(s.procs))
  }

  ghost predicate Level(t: State, s: State) {
    HopsLeft(t) == HopsLeft(s) && SumCalls(t.procs) == SumCalls(s.procs)
  }

  // ---------- The steps of everyone else ----------

  /** A complete request that is successful: it brings new work. */
  ghost predicate Accepts(s: State, a: Action) {
    a.Run? && Enabled(s, a) && s.procs[a.i].Completing? && StepProc(s.w, s.procs[a.i], a.reply).me.Checking?
  }

  lemma SweepersKeepLevel(w: World, z: Sweeper, r: Reply)
    ensures var o := StepSweeper(w, z, r);
      Hops(o.me) == 0 && Calls(o.me) == 0 && o.spawned == [] && o.w.queue == w.queue
  {
  }

  lemma RequestsKeepLevel(w: World, p: Proc, r: Reply)
    requires p.Creating? || p.Completing?
    ensures var o := StepProc(w, p, r);
      o.spawned == [] && o.w.queue == w.queue && (!o.me.Checking? ==> Hops(o.me) == 0 && Calls(o.me) == 0)
      && (p.Creating? ==> !o.me.Checking?)
  {
  }

  /** Sweepers, clients, the clock and requests, up to the one that is accepted, add nothing to do. */
  lemma EnvironmentKeepsLevel(s: State, a: Action)
    requires Enabled(s, a) && !a.Crash? && !Work(s, a) && !Accepts(s, a)
    requires s.procs != [] && (forall j :: 0 <= j < |s.procs| ==> s.procs[j] != Recovering(RecList))
    ensures Level(Next(s, a), s)
  {
    match a
    case Create(_, _, _, _, _) => SumsAppend(s.procs, Next(s, a).procs[|s.procs|..]);
      assert Next(s, a).procs == s.procs + Next(s, a).procs[|s.procs|..];
    case Complete(id) => SumsAppend(s.procs, [Completing(HandlerLoad(id))]);
    case Run(i, r) =>
      if s.procs[i].Sweeping? {
        SweepersKeepLevel(s.w, s.procs[i].sweeper, r);
      } else if s.procs[i].Creating? || s.procs[i].Completing? {
        RequestsKeepLevel(s.w, s.procs[i], r);
      }
      var me := StepProc(s.w, s.procs[i], r).me;
      SumsReplace(s.procs, i, me);
      assert s.procs[i := me] + [] == s.procs[i := me];
    case _ =>
  }

  // ---------- Something can always move ----------

  ghost predicate HasWorker(s: State) {
    exists i :: 0 <= i < |s.procs| && s.procs[i].Working?
  }

  /** Nothing is left to do: recovery has returned, the queue is empty, no validator runs and all workers
      wait for a job. */
  ghost predicate Idle(s: State) {
    IsServing(s) && s.w.queue == [] &&
    forall i :: 0 <= i < |s.procs| ==> !s.procs[i].Checking? && (s.procs[i].Working? ==> s.procs[i].worker.WorkIdle?)
  }

  lemma WorkerMoves(s: State, i: nat)
    requires i < |s.procs| && s.procs[i].Working? && (s.procs[i].worker.WorkIdle? ==> s.w.queue != [])
    ensures exists a :: Internal(s, a) && a.i == i
  {
    var r := if s.procs[i].worker.WorkFetch? then LocalError else Ok;
    assert Internal(s, Run(i, r)) && Run(i, r).i == i;
  }

  /** Whoever waits for a slot of the full queue, recovery or a validator, before or after recovery has
      returned: a worker can take its next step. */
  lemma FullQueueMoves(s: State)
    requires HasWorker(s) && |s.w.queue| >= QUEUE_CAPACITY
    ensures exists a :: Internal(s, a) && s.procs[a.i].Working?
  {
    var i :| 0 <= i < |s.procs| && s.procs[i].Working?;
    WorkerMoves(s, i);
  }

  /** No deadlock: in every state in which something is left to do, some step towards it can be taken,
      even if no call ever gives up waiting for the queue. */
  lemma NeverStuck(s: State)
    requires OwnInv(s) && HasWorker(s) && !Idle(s) && s.procs[0] != Recovering(RecList)
    ensures exists a :: Internal(s, a)
  {
    if |s.w.queue| >= QUEUE_CAPACITY {
      FullQueueMoves(s);
    } else if !IsServing(s) {
      assert Internal(s, Run(0, Ok));
    } else if i :| 0 <= i < |s.procs| && s.procs[i].Checking? {
      var r := if s.procs[i].validator.ValProbe? then LocalError else Ok;
      assert Internal(s, Run(i, r));
    } else if i :| 0 <= i < |s.procs| && s.procs[i].Working? && !s.procs[i].worker.WorkIdle? {
      WorkerMoves(s, i);
    } else {
      var i :| 0 <= i < |s.procs| && s.procs[i].Working?;
      WorkerMoves(s, i);
    }
  }

  // ---------- Schedules without end ----------

  /** An endless crash-free run of any actions at all, under the guard. */
  ghost predicate Schedule(trace: nat -> State, acts: nat -> Action) {
    && OwnInv(trace(0)) && SessionInv(trace(0)) && HasWorker(trace(0)) && trace(0).procs[0] != Recovering(RecList)
    && forall n: nat :: Moved(trace(n), acts(n), trace(n + 1))
  }

  ghost predicate Moved(s: State, a: Action, t: State) {
    Enabled(s, a) && Guarded(s, a) && !a.Crash? && t == Next(s, a)
  }

  ghost predicate WorksAt(trace: nat -> State, acts: nat -> Action, n: nat) {
    Work(trace(n), acts(n))
  }

  /** The scheduler does not starve them all: when a step of recovery, a validator or a worker can be
      taken, some such step is taken sooner or later, with any outcome of its call. */
  ghost predicate Fair(trace: nat -> State, acts: nat -> Action) {
    forall n: nat, a :: Internal(trace(n), a) ==> exists m: nat :: m >= n && WorksAt(trace, acts, m)
  }

  lemma WorkersStay(s: State, a: Action)
    requires HasWorker(s) && Enabled(s, a) && !a.Crash?
    ensures HasWorker(Next(s, a))
  {
    var i :| 0 <= i < |s.procs| && s.procs[i].Working?;
    assert Next(s, a).procs[i].Working?;
  }

  ghost predicate Alive(s: State) {
    OwnInv(s) && SessionInv(s) && HasWorker(s) && s.procs[0] != Recovering(RecList)
  }

  lemma {:induction false} AliveAt(trace: nat -> State, acts: nat -> Action, n: nat)
    requires Schedule(trace, acts)
    ensures Alive(trace(n))
  {
    if n > 0 {
      var s, a := trace(n - 1), acts(n - 1);
      AliveAt(trace, acts, n - 1);
      AliveStep(s, a, trace(n - 1 + 1));
    }
  }

  lemma AliveStep(s: State, a: Action, t: State)
    requires Alive(s) && Moved(s, a, t)
    ensures Alive(t)
  {
    OwnStep(s, a);
    SessionStep(s, a);
    WorkersStay(s, a);
    ListedOnce(s, a);
  }

  lemma ListedOnce(s: State, a: Action)
    requires s.procs != [] && s.procs[0] != Recovering(RecList) && s.procs[0].Recovering? && Enabled(s, a) && !a.Crash?
    ensures Next(s, a).procs[0] != Recovering(RecList)
  {
  }

  /** One step of a schedule that accepts nothing new. */
  lemma StepsDown(trace: nat -> State, acts: nat -> Action, n: nat)
    requires Schedule(trace, acts) && !Accepts(trace(n), acts(n))
    ensures if WorksAt(trace, acts, n) then Below(trace(n + 1), trace(n)) else Level(trace(n + 1), trace(n))
  {
    AliveAt(trace, acts, n);
    assert Moved(trace(n), acts(n), trace(n + 1));
    if WorksAt(trace, acts, n) {
      MeasureDecreases(trace(n), acts(n));
    } else {
      EnvironmentKeepsLevel(trace(n), acts(n));
    }
  }

  ghost predicate Quiet(trace: nat -> State, acts: nat -> Action, n: nat) {
    !WorksAt(trace, acts, n) && !Accepts(trace(n), acts(n))
  }

  /** From n on until work is done at m, nothing is added. */
  lemma {:induction false} WaitsLevel(trace: nat -> State, acts: nat -> Action, n: nat, m: nat)
    requires Schedule(trace, acts) && n <= m
    requires forall k: nat :: n <= k < m ==> Quiet(trace, acts, k)
    ensures Level(trace(m), trace(n))
    decreases m - n
  {
    if n < m {
      assert Quiet(trace, acts, n);
      QuietStep(trace, acts, n);
      WaitsLevel(trace, acts, n + 1, m);
    }
  }

  lemma QuietStep(trace: nat -> State, acts: nat -> Action, n: nat)
    requires Schedule(trace, acts) && Quiet(trace, acts, n)
    ensures Level(trace(n + 1), trace(n))
  {
    StepsDown(trace, acts, n);
  }

  /** The first work from n on. */
  lemma {:induction false} FirstWork(trace: nat -> State, acts: nat -> Action, n: nat, bound: nat) returns (m: nat)
    requires n <= bound && WorksAt(trace, acts, bound)
    ensures n <= m <= bound && WorksAt(trace, acts, m) && forall k: nat :: n <= k < m ==> !WorksAt(trace, acts, k)
    decreases bound - n
  {
    if WorksAt(trace, acts, n) {
      m := n;
    } else {
      m := FirstWork(trace, acts, n + 1, bound);
    }
  }

  lemma SomeWork(trace: nat -> State, acts: nat -> Action, n: nat) returns (m: nat)
    requires Schedule(trace, acts) && Fair(trace, acts) && !Idle(trace(n))
    ensures n <= m && WorksAt(trace, acts, m) && forall k: nat :: n <= k < m ==> !WorksAt(trace, acts, k)
  {
    AliveAt(trace, acts, n);
    NeverStuck(trace(n));
    var a :| Internal(trace(n), a);
    var bound: nat :| bound >= n && WorksAt(trace, acts, bound);
    m := FirstWork(trace, acts, n, bound);
  }

  lemma NoRequestsYet(trace: nat -> State, acts: nat -> Action, n: nat)
    requires Schedule(trace, acts) && !IsServing(trace(n))
    ensures !Accepts(trace(n), acts(n))
  {
    AliveAt(trace, acts, n);
  }

  /** Recovery returns, for any number of jobs and however many calls fail, whatever sweepers, clients and
      the clock do in between and in whatever order the goroutines are scheduled, as long as they are not
      all starved. */
  lemma {:induction false} RecoveryReturns(trace: nat -> State, acts: nat -> Action, n: nat) returns (m: nat)
    requires Schedule(trace, acts) && Fair(trace, acts)
    ensures m >= n && IsServing(trace(m))
    decreases HopsLeft(trace(n)), SumCalls(trace(n).procs)
  {
    if IsServing(trace(n)) {
      return n;
    }
    var k := SomeWork(trace, acts, n);
    if served: nat :| n <= served <= k && IsServing(trace(served)) {
      return served;
    }
    forall j: nat | n <= j <= k
      ensures !Accepts(trace(j), acts(j))
    {
      NoRequestsYet(trace, acts, j);
    }
    assert forall j: nat :: n <= j < k ==> Quiet(trace, acts, j);
    WaitsLevel(trace, acts, n, k);
    StepsDown(trace, acts, k);
    m := RecoveryReturns(trace, acts, k + 1);
  }

  /** Everything accepted is worked off: when from n on no complete request is accepted any more, the
      system comes to rest. */
  lemma {:induction false} ComesToRest(trace: nat -> State, acts: nat -> Action, n: nat) returns (m: nat)
    requires Schedule(trace, acts) && Fair(trace, acts)
    requires forall k: nat :: k >= n ==> !Accepts(trace(k), acts(k))
    ensures m >= n && Idle(trace(m))
    decreases HopsLeft(trace(n)), SumCalls(trace(n).procs)
  {
    if Idle(trace(n)) {
      return n;
    }
    var k := SomeWork(trace, acts, n);
    assert forall j: nat :: n <= j < k ==> Quiet(trace, acts, j);
    WaitsLevel(trace, acts, n, k);
    StepsDown(trace, acts, k);
    m := ComesToRest(trace, acts, k + 1);
  }

  /** At rest every accepted job is completed or failed, unless a failed call made its owner let go. */
  lemma RestLeavesNothing(s: State, id: Id)
    requires OwnInv(s) && Idle(s) && Redrive.Accepted(s.w, id)
    ensures Redrive.Lost(s, id)
  {
    forall o
      ensures !Owns(s, o, id)
    {
    }
  }

  /** No call fails at which the code would drop this job. */
  ghost predicate Smooth(trace: nat -> State, acts: nat -> Action, id: Id)
    requires Schedule(trace, acts)
  {
    forall n: nat :: Spares(trace(n), acts(n), id)
  }

  ghost predicate Spares(s: State, a: Action, id: Id) {
    Enabled(s, a) && !Redrive.Drops(s, a, id)
  }

  lemma {:induction false} CoveredAt(trace: nat -> State, acts: nat -> Action, n: nat, id: Id)
    requires Schedule(trace, acts) && Smooth(trace, acts, id)
    requires Redrive.Accepted(trace(0).w, id) ==> Redrive.Covered(trace(0), id)
    ensures trace(n).procs != [] && (Redrive.Accepted(trace(n).w, id) ==> Redrive.Covered(trace(n), id))
  {
    if n > 0 {
      CoveredAt(trace, acts, n - 1, id);
      AliveAt(trace, acts, n - 1);
      assert Moved(trace(n - 1), acts(n - 1), trace(n - 1 + 1)) && Spares(trace(n - 1), acts(n - 1), id);
      Redrive.ForgottenExactly(trace(n - 1), acts(n - 1), id);
    }
  }

  /** Accepted once, or gone since. */
  ghost predicate PastUpload(w: World, id: Id) {
    id in w.used && (id in w.jobs ==> w.jobs[id].status != Uploading)
  }

  lemma LawfulPast(w: World, w': World, id: Id, reset: bool)
    requires PastUpload(w, id) && Safety.Lawful(w, w', id, reset) && w.used <= w'.used
    requires id in w'.jobs ==> id in w.jobs
    ensures PastUpload(w', id)
  {
  }

  lemma PastUploadStep(s: State, a: Action, id: Id)
    requires OwnInv(s) && SessionInv(s) && Enabled(s, a) && Guarded(s, a) && PastUpload(s.w, id)
    ensures PastUpload(Next(s, a).w, id)
  {
    var reset := a.Run? && Safety.IsReset(s.procs[a.i], id);
    var t := Next(s, a);
    Safety.StatusOnlyAdvances(s, a, id);
    SessionStep(s, a);
    LawfulPast(s.w, t.w, id, reset);
  }

  lemma PastUploadAt(trace: nat -> State, acts: nat -> Action, n: nat, id: Id)
    requires Schedule(trace, acts) && PastUpload(trace(n).w, id)
    ensures PastUpload(trace(n + 1).w, id)
  {
    AliveAt(trace, acts, n);
    PastUploadMove(trace(n), acts(n), trace(n + 1), id);
  }

  lemma PastUploadMove(s: State, a: Action, t: State, id: Id)
    requires Alive(s) && Moved(s, a, t) && PastUpload(s.w, id)
    ensures PastUpload(t.w, id)
  {
    PastUploadStep(s, a, id);
  }

  lemma {:induction false} StaysPastUpload(trace: nat -> State, acts: nat -> Action, n: nat, m: nat, id: Id)
    requires Schedule(trace, acts) && n <= m && PastUpload(trace(n).w, id)
    ensures PastUpload(trace(m).w, id)
    decreases m - n
  {
    if n < m {
      PastUploadAt(trace, acts, n, id);
      StaysPastUpload(trace, acts, n + 1, m, id);
    }
  }

  /** Every accepted job ends: in an endless crash-free run in which accepting stops, a job that is covered at
      the start, or accepted later, and that no failing call drops, is at some point completed, failed or
      deleted. */
  lemma EveryJobEnds(trace: nat -> State, acts: nat -> Action, n: nat, id: Id) returns (m: nat)
    requires Schedule(trace, acts) && Fair(trace, acts) && Smooth(trace, acts, id)
    requires Redrive.Accepted(trace(0).w, id) ==> Redrive.Covered(trace(0), id)
    requires forall k: nat :: k >= n ==> !Accepts(trace(k), acts(k))
    ensures m >= n && !Redrive.Accepted(trace(m).w, id)
    ensures Redrive.Accepted(trace(n).w, id) && id in trace(m).w.jobs ==> Terminal(trace(m).w.jobs[id].status)
  {
    m := ComesToRest(trace, acts, n);
    AliveAt(trace, acts, m);
    if Redrive.Accepted(trace(n).w, id) {
      AliveAt(trace, acts, n);
      StaysPastUpload(trace, acts, n, m, id);
    }
    CoveredAt(trace, acts, m, id);
    if Redrive.Accepted(trace(m).w, id) {
      RestLeavesNothing(trace(m), id);
    }
  }
}
