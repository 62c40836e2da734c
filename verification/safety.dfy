/** What ownership buys: the unconditional writes follow the status graph, terminal records never
    change, sweeps only touch jobs nobody drives; and what happens without the guard.
*/
module Safety {

  import opened Jobs
  import opened Lifecycle
  import opened Sessions
  import opened Ownership

  /** The status graph within one process lifetime. */
  ghost predicate Edge(from: Status, to: Status) {
    match from
    case Uploading => to == Uploading || to == Validating
    case Validating => to == Validating || to == Pending || to == Failed
    case Pending => to == Pending || to == Processing || to == Failed
    case Processing => to == Processing || to == Completed || to == Failed
    case Completed => to == Completed
    case Failed => to == Failed
  }

  /** Recovery's reset of an interrupted job, the one way down. */
  ghost predicate IsReset(p: Proc, id: Id) {
    match p
    case Recovering(RecNext(todo)) => todo != [] && todo[0].id == id && todo[0].status == Processing
    case _ => false
  }

  /** What a step may do to the record of id. */
  ghost predicate Lawful(w: World, w': World, id: Id, reset: bool) {
    && (id in w.jobs && id in w'.jobs ==>
          (Terminal(w.jobs[id].status) ==> w'.jobs[id] == w.jobs[id]) &&
          (Edge(w.jobs[id].status, w'.jobs[id].status) ||
           (reset && w.jobs[id].status == Processing && w'.jobs[id].status == Pending)))
    && (id in w.jobs && id !in w'.jobs ==> w.jobs[id].status == Uploading || Terminal(w.jobs[id].status))
  }

  lemma CreatorLawful(w: World, c: Creator, r: Reply, id: Id)
    requires ProcOk(w.jobs, w.issued, Creating(c)) && RecordsOk(w.jobs, w.issued)
    ensures Lawful(w, StepProc(w, Creating(c), r).w, id, false)
  {
    if c.CreateRollback? {
      assert id in w.jobs ==> RecordOk(w.issued, id, w.jobs[id]);
    }
  }

  lemma ValidatorLawful(w: World, v: Validator, r: Reply, id: Id)
    requires ValidatorOk(w.jobs, v)
    ensures Lawful(w, StepValidator(w, v, r).w, id, false)
  {
  }

  lemma WorkerLawful(w: World, k: Worker, r: Reply, id: Id)
    requires WorkerOk(w.jobs, k)
    ensures Lawful(w, StepWorker(w, k, r).w, id, false)
  {
  }

  lemma HandlerLawful(w: World, h: Handler, r: Reply, id: Id)
    requires HandlerOk(w.issued, h) && (h.HandlerMark? ==> StillUploading(w.jobs, h.rec.id))
    ensures Lawful(w, StepHandler(w, h, r).w, id, false)
  {
  }

  lemma RecoveryLawful(w: World, c: Recovery, r: Reply, id: Id)
    requires ProcOk(w.jobs, w.issued, Recovering(c)) && HeadCurrent(w.jobs, Waiting(Recovering(c)))
    ensures Lawful(w, StepRecovery(w, c, r).w, id, IsReset(Recovering(c), id))
  {
  }

  lemma SweeperLawful(w: World, z: Sweeper, r: Reply, id: Id)
    requires SweeperOk(w.jobs, z) && RecordsOk(w.jobs, w.issued)
    requires z.SweepDrop? && z.stale && z.todo != [] ==> StillUploading(w.jobs, z.todo[0].id)
    ensures Lawful(w, StepSweeper(w, z, r).w, id, false)
  {
    if z.SweepDrop? && z.todo != [] {
      assert z.todo[0] in z.todo;
    }
  }

  lemma ProcLawful(w: World, p: Proc, r: Reply, id: Id)
    requires ProcOk(w.jobs, w.issued, p) && RecordsOk(w.jobs, w.issued)
    requires HeadCurrent(w.jobs, Waiting(p)) && GuardHolds(w.jobs, p)
    ensures Lawful(w, StepProc(w, p, r).w, id, IsReset(p, id))
  {
    match p
    case Finished =>
    case Creating(c) => CreatorLawful(w, c, r, id);
    case Completing(h) => HandlerLawful(w, h, r, id);
    case Checking(v) => ValidatorLawful(w, v, r, id);
    case Working(k) => WorkerLawful(w, k, r, id);
    case Recovering(c) => RecoveryLawful(w, c, r, id);
    case Sweeping(z) => SweeperLawful(w, z, r, id);
  }

  lemma RunLawful(s: State, i: nat, r: Reply, id: Id)
    requires OwnInv(s) && Enabled(s, Run(i, r)) && Guarded(s, Run(i, r))
    ensures Lawful(s.w, StepRun(s, i, r).w, id, IsReset(s.procs[i], id))
  {
    assert ProcOk(s.w.jobs, s.w.issued, s.procs[i]);
    WaitingHead(s);
    ProcLawful(s.w, s.procs[i], r, id);
  }

  lemma WaitingHead(s: State)
    requires OwnInv(s)
    ensures forall j :: 0 <= j < |s.procs| ==> HeadCurrent(s.w.jobs, Waiting(s.procs[j]))
  {
    var todo := Waiting(s.procs[0]);
    if todo != [] {
      assert todo[0] in todo;
    }
  }

  lemma SweeperBearsNone(w: World, z: Sweeper, r: Reply)
    ensures StepSweeper(w, z, r).w.jobs.Keys <= w.jobs.Keys
  {
  }

  lemma WorkerBearsNone(w: World, k: Worker, r: Reply)
    ensures StepWorker(w, k, r).w.jobs.Keys <= w.jobs.Keys
  {
  }

  lemma ValidatorBearsNone(w: World, v: Validator, r: Reply)
    ensures StepValidator(w, v, r).w.jobs.Keys <= w.jobs.Keys
  {
  }

  /** A goroutine's step brings no record into being. */
  lemma NoneBorn(w: World, p: Proc, r: Reply, id: Id)
    requires id in StepProc(w, p, r).w.jobs
    ensures id in w.jobs
  {
    match p
    case Checking(v) => ValidatorBearsNone(w, v, r);
    case Working(k) => WorkerBearsNone(w, k, r);
    case Sweeping(z) => SweeperBearsNone(w, z, r);
    case _ =>
  }

  ghost predicate StaysUploading(w: World, w': World, id: Id) {
    InState(w.jobs, id, Uploading) && id in w'.jobs ==> w'.jobs[id].status == Uploading
  }

  lemma ValidatorSparesUploads(w: World, v: Validator, r: Reply, id: Id)
    requires ValidatorOk(w.jobs, v)
    ensures StaysUploading(w, StepValidator(w, v, r).w, id)
  {
  }

  lemma WorkerSparesUploads(w: World, k: Worker, r: Reply, id: Id)
    requires WorkerOk(w.jobs, k)
    ensures StaysUploading(w, StepWorker(w, k, r).w, id)
  {
  }

  lemma RecoverySparesUploads(s: State, r: Reply, id: Id)
    requires OwnInv(s)
    ensures StaysUploading(s.w, StepProc(s.w, s.procs[0], r).w, id)
  {
    assert ProcOk(s.w.jobs, s.w.issued, s.procs[0]);
    if Waiting(s.procs[0]) != [] {
      assert Waiting(s.procs[0])[0] in Waiting(s.procs[0]);
    }
  }

  /** Only a complete request takes a job out of uploading. */
  lemma OnlyHandlersAccept(s: State, i: nat, r: Reply, id: Id)
    requires OwnInv(s) && i < |s.procs|
    requires !StaysUploading(s.w, StepProc(s.w, s.procs[i], r).w, id)
    ensures s.procs[i].Completing?
  {
    var p := s.procs[i];
    assert ProcOk(s.w.jobs, s.w.issued, p);
    match p
    case Checking(v) => ValidatorSparesUploads(s.w, v, r, id);
    case Working(k) => WorkerSparesUploads(s.w, k, r, id);
    case Recovering(_) => RecoverySparesUploads(s, r, id);
    case _ =>
  }

  /** Crashes, clients and the clock change no record; a new session gets a fresh id. */
  lemma OtherLawful(s: State, a: Action, id: Id)
    requires SessionInv(s) && Enabled(s, a) && !a.Run?
    ensures Lawful(s.w, Next(s, a).w, id, false)
    ensures id in Next(s, a).w.jobs && id !in s.w.jobs ==> a.Create? && id !in s.w.used
  {
  }

  /** Every guarded step follows the status graph; only recovery goes back, from processing to
      pending; a terminal record is frozen; only uploading and terminal records are ever deleted,
      and a deleted id never comes back. */
  lemma StatusOnlyAdvances(s: State, a: Action, id: Id)
    requires OwnInv(s) && SessionInv(s) && Enabled(s, a) && Guarded(s, a)
    ensures Lawful(s.w, Next(s, a).w, id, a.Run? && IsReset(s.procs[a.i], id))
    ensures id in Next(s, a).w.jobs && id !in s.w.jobs ==> a.Create? && id !in s.w.used
  {
    SessionStep(s, a);
    if a.Run? {
      RunLawful(s, a.i, a.reply, id);
    } else {
      OtherLawful(s, a, id);
    }
  }

  /** A deleted job stays deleted: no later step, not even after crashes, brings its record back. */
  lemma {:induction false} NothingResurrects(s: State, actions: seq<Action>, id: Id)
    requires SessionInv(s) && Runs(s, actions) && id in s.w.used && id !in s.w.jobs
    ensures id !in After(s, actions).w.jobs
    decreases |actions|
  {
    if actions != [] {
      SessionStep(s, actions[0]);
      NothingResurrects(Next(s, actions[0]), actions[1..], id);
    }
  }

  lemma StillServing(s: State, a: Action)
    requires IsServing(s) && Enabled(s, a) && !a.Crash?
    ensures IsServing(Next(s, a))
  {
  }

  lemma ServingResetsNothing(s: State, i: nat, id: Id)
    requires OwnInv(s) && IsServing(s) && i < |s.procs|
    ensures !IsReset(s.procs[i], id)
  {
  }

  ghost predicate NoCrash(actions: seq<Action>) {
    forall i :: 0 <= i < |actions| ==> !actions[i].Crash?
  }

  /** after is a later state of before: of no lower rank, and the same once it is terminal. */
  ghost predicate Onward(before: map<Id, Record>, after: map<Id, Record>, id: Id) {
    id in before && id in after ==>
      Rank(before[id].status) <= Rank(after[id].status) && (Terminal(before[id].status) ==> after[id] == before[id])
  }

  lemma ServingStep(s: State, a: Action, id: Id)
    requires OwnInv(s) && SessionInv(s) && Enabled(s, a) && Guarded(s, a) && IsServing(s) && !a.Crash?
    ensures IsServing(Next(s, a)) && Onward(s.w.jobs, Next(s, a).w.jobs, id)
  {
    StatusOnlyAdvances(s, a, id);
    StillServing(s, a);
    if a.Run? {
      ServingResetsNothing(s, a.i, id);
    }
  }

  lemma Deleted(s: State, a: Action, id: Id)
    requires SessionInv(s) && Enabled(s, a) && id in s.w.jobs
    ensures id in Next(s, a).w.used
  {
    SessionStep(s, a);
  }

  /** While the process serves, no status ever falls, and what is finished stays as it is until deleted. */
  lemma {:induction false} StatusNeverFalls(s: State, actions: seq<Action>, id: Id)
    requires OwnInv(s) && SessionInv(s) && GuardedRun(s, actions) && IsServing(s) && NoCrash(actions)
    requires id in s.w.jobs
    ensures Runs(s, actions) && Onward(s.w.jobs, After(s, actions).w.jobs, id)
    decreases |actions|
  {
    if actions != [] {
      var t, rest := Next(s, actions[0]), actions[1..];
      OwnStep(s, actions[0]);
      SessionStep(s, actions[0]);
      ServingStep(s, actions[0], id);
      if id in t.w.jobs {
        StatusNeverFalls(t, rest, id);
      } else {
        Deleted(s, actions[0], id);
        RunKeepsAll(t, rest);
        NothingResurrects(t, rest, id);
      }
    }
  }

  /** The worker writes "processing" without looking, but it always finds "pending", in a job that
      is in no queue slot and that no other goroutine drives. */
  lemma WorkerFindsPending(s: State, i: nat, rec: Record)
    requires OwnInv(s) && i < |s.procs| && s.procs[i] == Working(WorkMark(rec))
    ensures InState(s.w.jobs, rec.id, Pending)
    ensures forall o :: Owns(s, o, rec.id) ==> o == Goroutine(i)
  {
    assert ProcOk(s.w.jobs, s.w.issued, s.procs[i]);
    assert Owns(s, Goroutine(i), rec.id);
    forall o | Owns(s, o, rec.id)
      ensures o == Goroutine(i)
    {
      OneOwner(s, o, Goroutine(i), rec.id);
    }
  }

  ghost predicate TouchesJob(w: World, w': World, id: Id) {
    || (id in w.jobs && id !in w'.jobs)
    || (exists k :: k in w.objs && k !in w'.objs && k.id == id)
  }

  lemma SweepOnlyTouches(w: World, z: Sweeper, r: Reply, id: Id)
    requires SweeperKnown(w.used, w.jobs, z) && TouchesJob(w, StepSweeper(w, z, r).w, id)
    ensures !z.SweepIdle? && z.todo != [] && id == z.todo[0].id
  {
    if !z.SweepIdle? && z.todo != [] {
      assert z.todo[0] in z.todo;
    }
  }

  /** The sweeper for abandoned uploads, about to delete something. */
  ghost predicate StaleSweep(p: Proc) {
    p.Sweeping? && (p.sweeper.SweepRaw? || p.sweeper.SweepDrop?) && p.sweeper.stale
  }

  /** A sweep lists jobs first and deletes their files and records later, one by one. By then the
      retention sweep still never touches a job that something drives, guard or no guard; the sweep for
      abandoned uploads does only where its job was accepted in between, which the guard rules out. */
  lemma SweepTouchesNoOwner(s: State, i: nat, r: Reply, id: Id, o: Owner)
    requires OwnInv(s) && SessionInv(s) && Enabled(s, Run(i, r))
    requires s.procs[i].Sweeping? && TouchesJob(s.w, StepRun(s, i, r).w, id)
    ensures Owns(s, o, id) ==> StaleSweep(s.procs[i]) && id in s.w.jobs && InFlight(s.w.jobs[id].status)
    ensures Guarded(s, Run(i, r)) ==> !Owns(s, o, id)
  {
    var z := s.procs[i].sweeper;
    assert ProcOk(s.w.jobs, s.w.issued, s.procs[i]) && ProcKnown(s.w.used, s.w.jobs, s.procs[i]);
    SweepOnlyTouches(s.w, z, r, id);
    assert z.todo[0] in z.todo;
    if Owns(s, o, id) {
      OwnerFits(s, o, id);
    }
  }

  // ---------- Without the guard ----------

  ghost predicate OwnersAgree(s: State, id: Id) {
    forall o, o' :: Owns(s, o, id) && Owns(s, o', id) ==> o == o'
  }

  ghost predicate Undriven(s: State, id: Id) {
    forall o :: !Owns(s, o, id)
  }

  /** The exact condition for the handler's write to be safe: it neither takes the job back down the
      status graph nor gives it a second owner if and only if the record is still uploading, or it is
      validating and its validator is gone. */
  lemma MarkIsSafeExactly(s: State, i: nat, rec: Record)
    requires OwnInv(s) && SessionInv(s) && i < |s.procs| && s.procs[i] == Completing(HandlerMark(rec))
    requires rec.id in s.w.jobs
    ensures var t, status := StepRun(s, i, Ok), s.w.jobs[rec.id].status;
      Lawful(s.w, t.w, rec.id, false) && OwnersAgree(t, rec.id)
      <==> status == Uploading || (status == Validating && Undriven(s, rec.id))
  {
    var t, id, status := StepRun(s, i, Ok), rec.id, s.w.jobs[rec.id].status;
    assert ProcOk(s.w.jobs, s.w.issued, s.procs[i]);
    assert t.w.jobs[id].status == Validating;
    assert Owns(t, Goroutine(i), id);
    assert forall o :: Owns(s, o, id) ==> o != Goroutine(i) && Owns(t, o, id);
    assert forall o :: Owns(t, o, id) && o != Goroutine(i) ==> Owns(s, o, id);
    if status == Uploading {
      forall o ensures !Owns(s, o, id) {
        if Owns(s, o, id) { OwnerFits(s, o, id); }
      }
    }
  }

  lemma {:induction false} Extend(s: State, actions: seq<Action>, a: Action)
    requires Runs(s, actions) && Enabled(After(s, actions), a)
    ensures Runs(s, actions + [a]) && After(s, actions + [a]) == Next(After(s, actions), a)
    decreases |actions|
  {
    if actions == [] {
      assert [a][1..] == [];
    } else {
      assert (actions + [a])[0] == actions[0] && (actions + [a])[1..] == actions[1..] + [a];
      Extend(Next(s, actions[0]), actions[1..], a);
    }
  }

  /** s with two more goroutines. */
  ghost function With(s: State, w: World, p: Proc, q: Proc): State {
    State(w, s.procs + [p, q])
  }

  lemma RunFirst(s: State, actions: seq<Action>, w: World, p: Proc, q: Proc)
    requires Runs(s, actions) && After(s, actions) == With(s, w, p, q)
    requires Answers(w, p, Ok) && StepProc(w, p, Ok).spawned == []
    ensures var a, o := actions + [Run(|s.procs|, Ok)], StepProc(w, p, Ok);
      Runs(s, a) && After(s, a) == With(s, o.w, o.me, q)
  {
    Extend(s, actions, Run(|s.procs|, Ok));
    assert (s.procs + [p, q])[|s.procs| := StepProc(w, p, Ok).me] == s.procs + [StepProc(w, p, Ok).me, q];
  }

  lemma RunSecond(s: State, actions: seq<Action>, w: World, p: Proc, q: Proc)
    requires Runs(s, actions) && After(s, actions) == With(s, w, p, q)
    requires Answers(w, q, Ok) && StepProc(w, q, Ok).spawned == []
    ensures var a, o := actions + [Run(|s.procs| + 1, Ok)], StepProc(w, q, Ok);
      Runs(s, a) && After(s, a) == With(s, o.w, p, o.me)
  {
    Extend(s, actions, Run(|s.procs| + 1, Ok));
    assert (s.procs + [p, q])[|s.procs| + 1 := StepProc(w, q, Ok).me] == s.procs + [p, StepProc(w, q, Ok).me];
  }

  lemma StartBoth(s: State, id: Id)
    requires IsServing(s) && id in s.w.issued
    ensures var a := [Complete(id), Complete(id)];
      Runs(s, a) && After(s, a) == With(s, s.w, Completing(HandlerLoad(id)), Completing(HandlerLoad(id)))
  {
    Extend(s, [], Complete(id));
    Extend(s, [Complete(id)], Complete(id));
    assert [Complete(id)] + [Complete(id)] == [Complete(id), Complete(id)];
    assert [] + [Complete(id)] == [Complete(id)];
  }

  /** Both goroutines take their next step, one after the other. */
  lemma RunBoth(s: State, actions: seq<Action>, w: World, p: Proc, p': Proc, w': World, w'': World)
    requires Runs(s, actions) && After(s, actions) == With(s, w, p, p)
    requires Answers(w, p, Ok) && StepProc(w, p, Ok) == Out(w', p', [])
    requires Answers(w', p, Ok) && StepProc(w', p, Ok) == Out(w'', p', [])
    ensures var a := actions + [Run(|s.procs|, Ok), Run(|s.procs| + 1, Ok)];
      Runs(s, a) && After(s, a) == With(s, w'', p', p')
  {
    RunFirst(s, actions, w, p, p);
    RunSecond(s, actions + [Run(|s.procs|, Ok)], w', p', p);
    assert actions + [Run(|s.procs|, Ok)] + [Run(|s.procs| + 1, Ok)]
        == actions + [Run(|s.procs|, Ok), Run(|s.procs| + 1, Ok)];
  }

  /** Two complete requests for the same upload, both of which read "uploading" before either writes. */
  function BothPass(n: nat, id: Id): seq<Action> {
    [Complete(id), Complete(id)] + [Run(n, Ok), Run(n + 1, Ok)] + [Run(n, Ok), Run(n + 1, Ok)] + [Run(n, Ok), Run(n + 1, Ok)]
  }

  /** The hypothesis is needed: from every state in which an issued upload has arrived, two complete
      requests can interleave so that one job ends up with two validators. */
  lemma RaceWithoutGuard(s: State, id: Id)
    requires OwnInv(s) && IsServing(s)
    requires id in s.w.issued && InState(s.w.jobs, id, Uploading)
    requires s.w.jobs[id].rawKey in s.w.objs && 0 < s.w.objs[s.w.jobs[id].rawKey].size <= MAX_UPLOAD_SIZE
    ensures var actions := BothPass(|s.procs|, id);
      && Runs(s, actions)
      && Owns(After(s, actions), Goroutine(|s.procs|), id) && Owns(After(s, actions), Goroutine(|s.procs| + 1), id)
      && !OwnersAgree(After(s, actions), id)
  {
    var rec := s.w.jobs[id];
    assert RecordOk(s.w.issued, id, rec);
    BothPassRuns(s, id);
    TwoDrivers(s, s.w.(jobs := s.w.jobs[id := rec.(status := Validating)]), id, Checking(ValProbe(id, rec.rawKey)));
  }

  lemma BothPassRuns(s: State, id: Id)
    requires IsServing(s) && id in s.w.issued && InState(s.w.jobs, id, Uploading) && s.w.jobs[id].id == id
    requires s.w.jobs[id].rawKey in s.w.objs && 0 < s.w.objs[s.w.jobs[id].rawKey].size <= MAX_UPLOAD_SIZE
    ensures Runs(s, BothPass(|s.procs|, id))
    ensures var probe := Checking(ValProbe(id, s.w.jobs[id].rawKey));
      After(s, BothPass(|s.procs|, id)) ==
        With(s, s.w.(jobs := s.w.jobs[id := s.w.jobs[id].(status := Validating)]), probe, probe)
  {
    var n, rec := |s.procs|, s.w.jobs[id];
    var marked := rec.(status := Validating);
    var load, stat, mark := Completing(HandlerLoad(id)), Completing(HandlerStat(rec)), Completing(HandlerMark(marked));
    var probe := Checking(ValProbe(id, rec.rawKey));
    var w' := s.w.(jobs := s.w.jobs[id := marked]);
    var a1 := [Complete(id), Complete(id)];
    var a2 := a1 + [Run(n, Ok), Run(n + 1, Ok)];
    var a3 := a2 + [Run(n, Ok), Run(n + 1, Ok)];
    StartBoth(s, id);
    RunBoth(s, a1, s.w, load, stat, s.w, s.w);
    RunBoth(s, a2, s.w, stat, mark, s.w, s.w);
    assert w'.jobs[id := marked] == w'.jobs;
    RunBoth(s, a3, s.w, mark, probe, w', w');
  }

  lemma TwoDrivers(s: State, w: World, id: Id, p: Proc)
    requires Drives(p, id)
    ensures var t := With(s, w, p, p);
      Owns(t, Goroutine(|s.procs|), id) && Owns(t, Goroutine(|s.procs| + 1), id) && !OwnersAgree(t, id)
  {
    assert Owns(With(s, w, p, p), Goroutine(|s.procs|), id) && Owns(With(s, w, p, p), Goroutine(|s.procs| + 1), id);
  }
}
