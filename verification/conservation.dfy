/** Conservation of uploaded bytes: no raw object is ever left without a record. The argument is one
    of clocks: an upload URL dies before the sweep that could delete its session can list it.
    It needs no hypothesis on how requests interleave.
*/
module Conservation {

  import opened Wrappers
  import opened Timestamps
  import opened Jobs
  import opened Lifecycle
  import opened Sessions

  /** The upload URL is issued early enough to expire a second before its session can be stale; with
      a 15 minute expiry and a 1 hour TTL, within 44 minutes and 59 seconds of CreatedAt. */
  ghost predicate PresignInTime(s: State, a: Action)
    requires Enabled(s, a)
  {
    a.Run? && a.reply.Ok? ==>
      match s.procs[a.i]
      case Creating(CreatePresign(rec)) => s.w.now + PRESIGN_EXPIRY <= UrlDeadline(rec.createdAt)
      case _ => true
  }

  /** The latest moment at which an upload may still arrive for a session created then. */
  function UrlDeadline(createdAt: Instant): int {
    createdAt + STALE_TTL - SECOND
  }

  /** In minutes and seconds: in time means within 44:59 of the session's creation; a session counts as
      abandoned after an hour, a job as expired after 48. */
  lemma InTimeExactly(now: Instant, createdAt: Instant)
    ensures now + PRESIGN_EXPIRY <= UrlDeadline(createdAt) <==> now <= createdAt + (44 * 60 + 59) * SECOND
    ensures PRESIGN_EXPIRY == 15 * 60 * SECOND && STALE_TTL == 60 * 60 * SECOND
    ensures RETENTION_TTL == 48 * 60 * 60 * SECOND
  {
  }

  ghost predicate UrlsEnd(w: World) {
    forall k :: k in w.urls ==>
      k.id in w.issued && w.urls[k] <= (if k.id in w.jobs then UrlDeadline(w.jobs[k.id].createdAt) else w.now)
  }

  /** Every raw object was uploaded through a URL and has its record. */
  ghost predicate RawHasRecord(w: World) {
    forall k :: k in w.objs && k.Raw? ==> k in w.urls && k.id in w.jobs && w.jobs[k.id].rawKey == k
  }

  ghost predicate Old(w: World, todo: seq<Record>) {
    forall r :: r in todo ==> UrlDeadline(r.createdAt) < w.now
  }

  /** Past the deletion of the raw object it stays deleted. */
  ghost predicate RawGone(w: World, todo: seq<Record>) {
    todo != [] ==> todo[0].rawKey !in w.objs
  }

  ghost predicate SweeperClock(w: World, z: Sweeper) {
    match z
    case SweepIdle(_) => true
    case SweepRaw(_, todo) => Old(w, todo)
    case SweepTree(todo) => Old(w, todo) && RawGone(w, todo)
    case SweepOutputs(todo, _) => Old(w, todo) && RawGone(w, todo)
    case SweepDrop(_, todo) => Old(w, todo) && RawGone(w, todo)
  }

  function CreatorId(c: Creator): Id {
    if c.CreatePresign? then c.rec.id else c.id
  }

  ghost predicate CreatorClock(w: World, c: Creator) {
    && CreatorId(c) !in w.issued
    && (c.CreatePresign? && c.rec.id !in w.jobs ==> UrlDeadline(c.rec.createdAt) < w.now)
  }

  ghost predicate ProcClock(w: World, p: Proc) {
    match p
    case Creating(c) => CreatorClock(w, c)
    case Sweeping(z) => SweeperClock(w, z)
    case _ => true
  }

  ghost predicate CreatesFor(s: State, j: nat, id: Id) {
    j < |s.procs| && s.procs[j].Creating? && CreatorId(s.procs[j].creator) == id
  }

  ghost predicate ClockInv(s: State) {
    && UrlsEnd(s.w) && RawHasRecord(s.w)
    && (forall j :: 0 <= j < |s.procs| ==> ProcClock(s.w, s.procs[j]))
    && (forall j: nat, k: nat, id :: CreatesFor(s, j, id) && CreatesFor(s, k, id) ==> j == k)
  }

  /** What a step may do behind the back of the other goroutines: no new raw object; URLs only for
      `mine`; and a record goes only when it is old or is `mine`. */
  ghost predicate Discreet(w: World, w': World, mine: Option<Id>) {
    && Evolves(w, w') && w'.now == w.now && w'.used == w.used
    && (forall k :: k in w'.objs && k.Raw? ==> k in w.objs)
    && (forall id :: id in w'.issued ==> id in w.issued || mine == Some(id))
    && (forall id :: id in w.jobs && id !in w'.jobs && mine != Some(id) ==> UrlDeadline(w.jobs[id].createdAt) < w.now)
  }

  lemma OthersClock(w: World, w': World, mine: Option<Id>, p: Proc)
    requires Discreet(w, w', mine) && ProcKnown(w.used, w.jobs, p) && ProcClock(w, p)
    requires p.Creating? ==> mine != Some(CreatorId(p.creator))
    ensures ProcClock(w', p)
  {
    if p.Sweeping? && !p.sweeper.SweepIdle? && p.sweeper.todo != [] {
      assert p.sweeper.todo[0] in p.sweeper.todo;
    }
  }

  ghost predicate ClockOut(w: World, o: Out, mine: Option<Id>) {
    && Discreet(w, o.w, mine) && UrlsEnd(o.w) && RawHasRecord(o.w) && ProcClock(o.w, o.me)
    && (o.me.Creating? ==> mine == Some(CreatorId(o.me.creator)))
    && (forall q :: q in o.spawned ==> q.Checking?)
  }

  lemma CreatorClocks(w: World, c: Creator, r: Reply)
    requires WorldKnown(w) && CreatorKnown(w.used, w.jobs, c) && UrlsEnd(w) && RawHasRecord(w) && CreatorClock(w, c)
    requires c.CreatePresign? && r.Ok? ==> w.now + PRESIGN_EXPIRY <= UrlDeadline(c.rec.createdAt)
    ensures ClockOut(w, StepCreator(w, c, r), Some(CreatorId(c)))
  {
  }

  /** A write to the store by anyone else keeps the session's CreatedAt and raw key. */
  lemma UpdateClocks(w: World, rec: Record, r: Reply)
    requires WorldKnown(w) && Known(w.used, w.jobs, rec) && UrlsEnd(w) && RawHasRecord(w)
    ensures var w' := Update(w, rec, r);
      Discreet(w, w', None) && UrlsEnd(w') && RawHasRecord(w')
  {
    UpdateKnown(w, rec, r);
  }

  lemma RemoveClocks(w: World, key: Key, r: Reply)
    requires UrlsEnd(w) && RawHasRecord(w)
    ensures var w' := Remove(w, key, r);
      Discreet(w, w', None) && UrlsEnd(w') && RawHasRecord(w')
  {
  }

  lemma HandlerClocks(w: World, h: Handler, r: Reply)
    requires WorldKnown(w) && HandlerKnown(w.used, w.jobs, h) && UrlsEnd(w) && RawHasRecord(w)
    ensures ClockOut(w, StepHandler(w, h, r), None)
  {
    if h.HandlerMark? {
      UpdateClocks(w, h.rec, r);
    }
  }

  lemma ValidatorClocks(w: World, v: Validator, r: Reply)
    requires WorldKnown(w) && ValidatorKnown(w.used, w.jobs, v) && UrlsEnd(w) && RawHasRecord(w)
    ensures ClockOut(w, StepValidator(w, v, r), None)
  {
    match v
    case ValReject(_, key) => RemoveClocks(w, key, r);
    case ValUndoRaw(_, key, _) => RemoveClocks(w, key, r);
    case ValRejectMark(rec) => UpdateClocks(w, rec, r);
    case ValMark(rec) => UpdateClocks(w, rec, r);
    case ValUndo(rec) => UpdateClocks(w, rec, r);
    case _ =>
  }

  lemma UploadClocks(w: World, k: Worker, r: Reply)
    requires k.WorkUpload? && WorkerKnown(w.used, w.jobs, k) && UrlsEnd(w) && RawHasRecord(w)
    ensures ClockOut(w, StepWorker(w, k, r), None)
  {
    if k.left != [] {
      PutClock(w, k.left[0], k.video, r);
    }
  }

  lemma PutClock(w: World, key: Key, video: Video, r: Reply)
    requires !key.Raw? && UrlsEnd(w) && RawHasRecord(w)
    ensures var w' := Put(w, key, video, r);
      Discreet(w, w', None) && UrlsEnd(w') && RawHasRecord(w')
  {
  }

  lemma TickClocks(w: World, k: Worker, r: Reply)
    requires k.WorkTranscode? && WorldKnown(w) && WorkerKnown(w.used, w.jobs, k) && UrlsEnd(w) && RawHasRecord(w)
    ensures ClockOut(w, StepWorker(w, k, r), None)
  {
    if k.ticks != [] {
      UpdateClocks(w, k.rec.(progress := Progress.Clamp(k.ticks[0])), r);
    }
  }

  lemma WorkerClocks(w: World, k: Worker, r: Reply)
    requires WorldKnown(w) && WorkerKnown(w.used, w.jobs, k) && UrlsEnd(w) && RawHasRecord(w)
    ensures ClockOut(w, StepWorker(w, k, r), None)
  {
    match k
    case WorkMark(rec) => UpdateClocks(w, rec, r);
    case WorkTranscode(_, _, _, _) => TickClocks(w, k, r);
    case WorkUpload(_, _, _) => UploadClocks(w, k, r);
    case WorkFinish(rec, _) => UpdateClocks(w, rec, r);
    case WorkFail(rec) => UpdateClocks(w, rec, r);
    case _ =>
  }

  lemma RedriveClocks(w: World, rec: Record, rest: seq<Record>, r: Reply)
    requires WorldKnown(w) && Known(w.used, w.jobs, rec) && UrlsEnd(w) && RawHasRecord(w)
    ensures ClockOut(w, RedriveNext(w, rec, rest, r), None)
  {
    if rec.status == Processing {
      UpdateClocks(w, rec.(status := Pending), r);
    }
  }

  lemma RecoveryClocks(w: World, c: Recovery, r: Reply)
    requires WorldKnown(w) && RecoveryKnown(w.used, w.jobs, c) && UrlsEnd(w) && RawHasRecord(w)
    ensures ClockOut(w, StepRecovery(w, c, r), None)
  {
    match c
    case RecNext(todo) => if todo != [] { TodoKnown(w, w, todo); RedriveClocks(w, todo[0], todo[1..], r); }
    case RecFail(todo) =>
      if todo != [] { TodoKnown(w, w, todo); UpdateClocks(w, todo[0].(status := Failed), r); }
    case _ =>
  }

  lemma ListedIsOld(rec: Record, cutoff: Instant)
    requires Expired(rec, cutoff) || Abandoned(rec, cutoff)
    ensures rec.createdAt < cutoff + SECOND
  {
    TextBeforeSoon(rec.createdAt, cutoff);
  }

  lemma RowsAreOld(rows: seq<Record>, jobs: map<Id, Record>, cutoff: Instant)
    requires ListsAbandoned(rows, jobs, cutoff) || ListsExpired(rows, jobs, cutoff)
    ensures forall rec :: rec in rows ==> rec.createdAt < cutoff + SECOND
  {
    forall rec | rec in rows
      ensures rec.createdAt < cutoff + SECOND
    {
      ListedIsOld(rec, cutoff);
    }
  }

  /** A listing is off by less than a second: what is on it is older than its TTL less a second. */
  lemma ListedByAge(w: World, z: Sweeper, r: Reply)
    requires z.SweepIdle? && SweeperAnswers(w, z, r)
    ensures forall rec :: rec in r.rows ==>
      rec.createdAt + (if z.stale then STALE_TTL else RETENTION_TTL) - SECOND < w.now
  {
    RowsAreOld(r.rows, w.jobs, if z.stale then w.now - STALE_TTL else w.now - RETENTION_TTL);
  }

  lemma DropClocks(w: World, z: Sweeper, r: Reply)
    requires z.SweepDrop? && WorldKnown(w) && SweeperKnown(w.used, w.jobs, z) && SweeperClock(w, z) && UrlsEnd(w) && RawHasRecord(w)
    ensures ClockOut(w, StepSweeper(w, z, r), None)
  {
    if z.todo != [] {
      assert z.todo[0] in z.todo;
      DeleteKnown(w, z.todo[0].id, r);
    }
  }

  lemma SweeperClocks(w: World, z: Sweeper, r: Reply)
    requires WorldKnown(w) && SweeperKnown(w.used, w.jobs, z) && SweeperAnswers(w, z, r)
    requires SweeperClock(w, z) && UrlsEnd(w) && RawHasRecord(w)
    ensures ClockOut(w, StepSweeper(w, z, r), None)
  {
    match z
    case SweepIdle(_) => ListedByAge(w, z, r);
    case SweepRaw(_, todo) => if todo != [] { RemoveClocks(w, todo[0].rawKey, r); }
    case SweepOutputs(todo, names) =>
      if todo != [] && names != [] { RemoveClocks(w, Rendition(todo[0].id, names[0]), r); }
    case SweepDrop(_, _) => DropClocks(w, z, r);
    case SweepTree(_) =>
  }

  lemma ProcClocks(w: World, p: Proc, r: Reply)
    requires WorldKnown(w) && ProcKnown(w.used, w.jobs, p) && Answers(w, p, r)
    requires UrlsEnd(w) && RawHasRecord(w) && ProcClock(w, p)
    requires p.Creating? && p.creator.CreatePresign? && r.Ok? ==> w.now + PRESIGN_EXPIRY <= UrlDeadline(p.creator.rec.createdAt)
    ensures ClockOut(w, StepProc(w, p, r), if p.Creating? then Some(CreatorId(p.creator)) else None)
  {
    match p
    case Finished =>
    case Creating(c) => CreatorClocks(w, c, r);
    case Completing(h) => HandlerClocks(w, h, r);
    case Checking(v) => ValidatorClocks(w, v, r);
    case Working(k) => WorkerClocks(w, k, r);
    case Recovering(c) => RecoveryClocks(w, c, r);
    case Sweeping(z) => SweeperClocks(w, z, r);
  }

  lemma RunClocks(s: State, i: nat, r: Reply)
    requires SessionInv(s) && ClockInv(s) && Enabled(s, Run(i, r)) && PresignInTime(s, Run(i, r))
    ensures ClockInv(StepRun(s, i, r))
  {
    var t, p := StepRun(s, i, r), s.procs[i];
    var mine := if p.Creating? then Some(CreatorId(p.creator)) else None;
    ProcClocks(s.w, p, r);
    assert p.Creating? ==> CreatesFor(s, i, CreatorId(p.creator));
    forall j | 0 <= j < |t.procs|
      ensures ProcClock(t.w, t.procs[j])
    {
      if j < |s.procs| && j != i {
        assert s.procs[j].Creating? ==> CreatesFor(s, j, CreatorId(s.procs[j].creator));
        OthersClock(s.w, t.w, mine, s.procs[j]);
      }
    }
    assert forall j: nat, id :: CreatesFor(t, j, id) ==> CreatesFor(s, j, id);
  }

  /** An upload through a live URL finds the record of its session. */
  lemma PutClocks(s: State, key: Key, video: Video)
    requires SessionInv(s) && ClockInv(s) && Enabled(s, ClientPut(key, video))
    ensures ClockInv(Next(s, ClientPut(key, video)))
  {
    var t := Next(s, ClientPut(key, video));
    assert key.id in s.w.jobs && s.w.jobs[key.id].rawKey == key;
    forall j | 0 <= j < |t.procs|
      ensures ProcClock(t.w, t.procs[j])
    {
      assert ProcClock(s.w, s.procs[j]) && ProcKnown(s.w.used, s.w.jobs, s.procs[j]);
      PutMissesSweep(s.w, s.procs[j], key);
    }
    assert forall j: nat, id :: CreatesFor(t, j, id) <==> CreatesFor(s, j, id);
  }

  lemma PutMissesSweep(w: World, p: Proc, key: Key)
    requires ProcKnown(w.used, w.jobs, p) && ProcClock(w, p) && key.id in w.jobs && w.now < UrlDeadline(w.jobs[key.id].createdAt)
    ensures p.Sweeping? && !p.sweeper.SweepIdle? && p.sweeper.todo != [] ==> p.sweeper.todo[0].rawKey != key
  {
    if p.Sweeping? && !p.sweeper.SweepIdle? && p.sweeper.todo != [] {
      assert p.sweeper.todo[0] in p.sweeper.todo;
    }
  }

  lemma CreateClocks(s: State, a: Action)
    requires SessionInv(s) && ClockInv(s) && a.Create? && Enabled(s, a)
    ensures ClockInv(Next(s, a))
  {
    var t := Next(s, a);
    forall j | 0 <= j < |s.procs|
      ensures ProcClock(t.w, s.procs[j]) && !CreatesFor(s, j, a.id)
    {
      assert ProcKnown(s.w.used, s.w.jobs, s.procs[j]);
    }
    assert forall j: nat, id :: CreatesFor(t, j, id) ==> CreatesFor(s, j, id) || (id == a.id && j == |s.procs|);
  }

  /** Time passes, requests start, the process dies: conservation holds. */
  lemma IdleClocks(s: State, a: Action)
    requires SessionInv(s) && ClockInv(s) && Enabled(s, a) && (a.Crash? || a.Pass? || a.Complete?)
    ensures ClockInv(Next(s, a))
  {
    var t := Next(s, a);
    assert forall j: nat, id :: CreatesFor(t, j, id) ==> CreatesFor(s, j, id);
  }

  lemma ClockStep(s: State, a: Action)
    requires SessionInv(s) && ClockInv(s) && Enabled(s, a) && PresignInTime(s, a)
    ensures ClockInv(Next(s, a))
  {
    match a
    case Create(_, _, _, _, _) => CreateClocks(s, a);
    case ClientPut(key, video) => PutClocks(s, key, video);
    case Run(i, r) => RunClocks(s, i, r);
    case _ => IdleClocks(s, a);
  }

  ghost predicate PunctualRun(s: State, actions: seq<Action>)
    decreases |actions|
  {
    actions == [] ||
    (Enabled(s, actions[0]) && PresignInTime(s, actions[0]) && PunctualRun(Next(s, actions[0]), actions[1..]))
  }

  lemma {:induction false} ClockRun(s: State, actions: seq<Action>)
    requires SessionInv(s) && ClockInv(s) && PunctualRun(s, actions)
    ensures Runs(s, actions) && ClockInv(After(s, actions)) && SessionInv(After(s, actions))
    decreases |actions|
  {
    if actions != [] {
      ClockStep(s, actions[0]);
      SessionStep(s, actions[0]);
      ClockRun(Next(s, actions[0]), actions[1..]);
    }
  }

  /** Conservation: in every state of every run in which URLs are issued in time, and with no other
      hypothesis, each raw object in storage has a live record that names it, so some sweep or
      failure path will still delete it. */
  lemma RawObjectsHaveRecords(workers: nat, now: Instant, actions: seq<Action>, key: Key)
    requires PunctualRun(Initial(workers, now), actions)
    ensures Runs(Initial(workers, now), actions)
    ensures var w := After(Initial(workers, now), actions).w;
      key in w.objs && key.Raw? ==> key.id in w.jobs && w.jobs[key.id].rawKey == key
  {
    var s := Initial(workers, now);
    assert forall j: nat, id :: !CreatesFor(s, j, id);
    ClockRun(s, actions);
  }
}
