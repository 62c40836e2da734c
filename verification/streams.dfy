/** An event stream over a running system: the loop of one listener, step by step, between the steps of all
    goroutines and the updates they publish.
*/
module Streams {

  import opened Wrappers
  import opened Jobs
  import opened Lifecycle
  import opened Sessions
  import opened Ownership
  import opened EventStream
  import opened Publishing
  import Safety

  // ---------- One listener ----------

  /** Where the handler is: subscribed but not yet read; in the select; about to read the store again,
      perhaps after an update; done, with the message that closed the stream. */
  datatype Phase =
    | Opening
    | Waiting
    | Rereading(got: Option<Note>)
    | Over(ending: Ending, last: Option<Note>)

  /** `late` is history: messages without an end sent while the store had the job's end. */
  datatype Listener = Listener(phase: Phase, channel: B.Channel<Note>, first: View, wakes: seq<Wake>, late: nat)

  datatype Room = Room(s: State, l: Listener)

  datatype Event =
    | System(a: Action)
    | Open(works: bool)
    | Take
    | Beat
    | Read(works: bool)
    | Leave

  function Start(s: State): Room {
    Room(s, Listener(Opening, B.Channel([], []), View(Uploading, 0), [], 0))
  }

  predicate Possible(room: Room, e: Event) {
    match e
    case System(a) => Enabled(room.s, a) && !a.Crash?
    case Open(_) => room.l.phase.Opening?
    case Take => room.l.phase.Waiting? && room.l.channel.buffer != []
    case Beat => room.l.phase.Waiting?
    case Read(_) => room.l.phase.Rereading?
    case Leave => room.l.phase.Waiting?
  }

  /** Store.Get. */
  function Fetch(w: World, id: Id, works: bool): Option<View> {
    if works && id in w.jobs then Some(ViewOf(w.jobs[id])) else None
  }

  /** The update of a step for this job reaches the channel or is dropped. */
  function Hear(l: Listener, id: Id, s: State, a: Action): Listener
    requires Enabled(s, a)
  {
    if a.Run? && Subject(s.procs[a.i]) == id && !l.phase.Over? then
      match Publishes(s.w, s.procs[a.i], a.reply)
      case None => l
      case Some(n) => l.(channel := B.Step(l.channel, B.Published(n)))
    else l
  }

  function Woken(l: Listener, w: Wake, phase: Phase): Listener {
    l.(wakes := l.wakes + [w], phase := phase)
  }

  predicate StoreEnded(w: World, id: Id) {
    id in w.jobs && Terminal(w.jobs[id].status)
  }

  function Opened(l: Listener, current: Option<View>): Listener {
    match current
    case None => l.(phase := Over(NoSuchJob, None))
    case Some(v) =>
      l.(first := v, phase := if Terminal(v.status) then Over(Ended, Some(Note(v, true))) else Waiting)
  }

  function Taken(l: Listener, ended: bool): Listener
    requires l.channel.buffer != []
  {
    var n, rest := l.channel.buffer[0], l.(channel := B.Step(l.channel, B.Received));
    if Terminal(n.view.status) then Woken(rest, FromBroker(n.view, None), Over(Ended, Some(n)))
    else rest.(phase := Rereading(Some(n)), late := if ended then l.late + 1 else l.late)
  }

  function Checked(l: Listener, store: Option<View>): Listener
    requires l.phase.Rereading?
  {
    var w := if l.phase.got.Some? then FromBroker(l.phase.got.value.view, store) else Heartbeat(store);
    Woken(l, w, if ShowsEnd(store) then Over(Ended, Some(Note(store.value, true))) else Waiting)
  }

  function After1(room: Room, id: Id, e: Event): Room
    requires Possible(room, e)
  {
    var s, l := room.s, room.l;
    match e
    case System(a) => Room(Next(s, a), Hear(l, id, s, a))
    case Open(works) => Room(s, Opened(l, Fetch(s.w, id, works)))
    case Take => Room(s, Taken(l, StoreEnded(s.w, id)))
    case Beat => Room(s, l.(phase := Rereading(None)))
    case Read(works) => Room(s, Checked(l, Fetch(s.w, id, works)))
    case Leave => Room(s, Woken(l, Disconnected, Over(Gone, None)))
  }

  /** A run under the guard. */
  ghost predicate RoomRuns(room: Room, id: Id, events: seq<Event>)
    decreases |events|
  {
    events == [] ||
    (Possible(room, events[0]) && (events[0].System? ==> Guarded(room.s, events[0].a))
     && RoomRuns(After1(room, id, events[0]), id, events[1..]))
  }

  ghost function RoomAfter(room: Room, id: Id, events: seq<Event>): Room
    requires RoomRuns(room, id, events)
    decreases |events|
  {
    if events == [] then room else RoomAfter(After1(room, id, events[0]), id, events[1..])
  }

  /** What the client has been sent, but for an update whose re-check is still to come. */
  function Sent(l: Listener): seq<View> {
    [l.first] + AllSends(l.wakes)
  }

  // ---------- What the loop keeps ----------

  /** The listener's wake-ups are those of HandleJobEvents. */
  ghost predicate Follows(l: Listener) {
    match l.phase
    case Opening => l.wakes == []
    case Waiting => Continued(l.first, l.wakes) && Standing(l.first, l.wakes) == Listening
    case Rereading(got) =>
      Continued(l.first, l.wakes) && Standing(l.first, l.wakes) == Listening
      && (got.Some? ==> !Terminal(got.value.view.status))
    case Over(ending, last) =>
      ending != NoSuchJob ==>
        Continued(l.first, l.wakes) && Standing(l.first, l.wakes) == ending
        && (ending == Ended ==> last.Some? && Terminal(last.value.view.status)
                                   && Sent(l)[|Sent(l)| - 1] == last.value.view)
  }

  lemma WokenFollows(l: Listener, w: Wake, phase: Phase)
    requires Continued(l.first, l.wakes) && Standing(l.first, l.wakes) == Listening
    ensures var l' := Woken(l, w, phase);
      Continued(l'.first, l'.wakes) && Standing(l'.first, l'.wakes) == EndsWith(w)
      && Sent(l') == Sent(l) + Sends(w)
  {
    WakeUp(l.first, l.wakes, w);
  }

  lemma ListenerFollows(room: Room, id: Id, e: Event)
    requires Follows(room.l) && Possible(room, e)
    ensures Follows(After1(room, id, e).l)
  {
    var l := room.l;
    match e
    case Take =>
      WokenFollows(l.(channel := B.Step(l.channel, B.Received)), FromBroker(l.channel.buffer[0].view, None),
                   Over(Ended, Some(l.channel.buffer[0])));
    case Read(works) =>
      var store := Fetch(room.s.w, id, works);
      WokenFollows(l, if l.phase.got.Some? then FromBroker(l.phase.got.value.view, store) else Heartbeat(store),
                   if ShowsEnd(store) then Over(Ended, Some(Note(store.value, true))) else Waiting);
    case Leave => WokenFollows(l, Disconnected, Over(Gone, None));
    case _ =>
  }

  function Views(notes: seq<Note>): seq<View> {
    seq(|notes|, i requires 0 <= i < |notes| => notes[i].view)
  }

  /** The client has been sent the first state and then every update its channel delivered, in order, except
      one still to be re-checked; and at the end perhaps the state of the store. */
  ghost predicate Relays(l: Listener) {
    var told := [l.first] + Views(l.channel.delivered);
    match l.phase
    case Opening => l.channel.delivered == [] && l.wakes == []
    case Waiting => Sent(l) == told
    case Rereading(None) => Sent(l) == told
    case Rereading(Some(n)) => Sent(l) + [n.view] == told
    case Over(ending, last) =>
      ending != NoSuchJob ==> Sent(l) == told || (last.Some? && Sent(l) == told + [last.value.view])
  }

  lemma ViewsMore(notes: seq<Note>, n: Note)
    ensures Views(notes + [n]) == Views(notes) + [n.view]
  {
  }

  lemma TakeRelays(l: Listener, ended: bool)
    requires Follows(l) && Relays(l) && l.phase.Waiting? && l.channel.buffer != []
    ensures Relays(Taken(l, ended))
  {
    var n, rest := l.channel.buffer[0], l.(channel := B.Step(l.channel, B.Received));
    ViewsMore(l.channel.delivered, n);
    assert [l.first] + (Views(l.channel.delivered) + [n.view]) == [l.first] + Views(l.channel.delivered) + [n.view];
    WokenFollows(rest, FromBroker(n.view, None), Over(Ended, Some(n)));
  }

  lemma ReadRelays(l: Listener, store: Option<View>)
    requires Follows(l) && Relays(l) && l.phase.Rereading?
    ensures Relays(Checked(l, store))
  {
    var w := if l.phase.got.Some? then FromBroker(l.phase.got.value.view, store) else Heartbeat(store);
    WokenFollows(l, w, if ShowsEnd(store) then Over(Ended, Some(Note(store.value, true))) else Waiting);
    if l.phase.got.Some? && ShowsEnd(store) {
      assert Sent(l) + [l.phase.got.value.view, store.value] == Sent(l) + [l.phase.got.value.view] + [store.value];
    }
  }

  lemma RelaysStep(room: Room, id: Id, e: Event)
    requires Follows(room.l) && Relays(room.l) && Possible(room, e)
    ensures Relays(After1(room, id, e).l)
  {
    match e
    case Take => TakeRelays(room.l, StoreEnded(room.s.w, id));
    case Read(works) => ReadRelays(room.l, Fetch(room.s.w, id, works));
    case Leave => WokenFollows(room.l, Disconnected, Over(Gone, None));
    case _ =>
  }

  /** Over every run of a room, whatever the goroutines do, the stream relays what its channel delivers. */
  lemma {:induction false} StreamRelays(room: Room, id: Id, events: seq<Event>)
    requires Follows(room.l) && Relays(room.l) && RoomRuns(room, id, events)
    ensures Follows(RoomAfter(room, id, events).l) && Relays(RoomAfter(room, id, events).l)
    decreases |events|
  {
    if events != [] {
      ListenerFollows(room, id, events[0]);
      RelaysStep(room, id, events[0]);
      StreamRelays(After1(room, id, events[0]), id, events[1..]);
    }
  }

  // ---------- What becomes of a published end ----------

  /** A job left pending with nobody to drive it, after its enqueue failed and "failed" was not stored. */
  ghost predicate Stranded(s: State, id: Id) {
    InState(s.w.jobs, id, Pending) && Unclaimed(s, id)
  }

  /** A founded end is what the store has, until the record goes; of an unfounded one it never hears. */
  ghost predicate NoteOk(s: State, id: Id, n: Note) {
    Terminal(n.view.status) ==>
      if n.founded then id in s.w.jobs ==> s.w.jobs[id].status == n.view.status else Stranded(s, id)
  }

  lemma OwnerLeavesStranded(s: State, i: nat, r: Reply, id: Id)
    requires OwnInv(s) && SessionInv(s) && Enabled(s, Run(i, r)) && Stranded(s, id)
    requires s.procs[i].Creating? || s.procs[i].Checking? || (s.procs[i].Working? && !s.procs[i].worker.WorkIdle?)
    ensures StepProc(s.w, s.procs[i], r).spawned == [] && LeftAlone(s, StepProc(s.w, s.procs[i], r), id)
  {
    assert ProcOk(s.w.jobs, s.w.issued, s.procs[i]) && ProcKnown(s.w.used, s.w.jobs, s.procs[i]);
    OwnerOut(s.w, s.procs[i], r);
    assert ClaimedBy(s, i, Claim(s.procs[i]).value);
  }

  /** A step that neither writes the record of id nor claims it. */
  ghost predicate LeftAlone(s: State, o: Out, id: Id) {
    InState(o.w.jobs, id, Pending) && id !in o.w.queue && Claim(o.me) != Some(id)
  }

  lemma HandlerLeavesStranded(s: State, i: nat, r: Reply, id: Id)
    requires OwnInv(s) && SessionInv(s) && Enabled(s, Run(i, r)) && Guarded(s, Run(i, r)) && Stranded(s, id)
    requires s.procs[i].Completing?
    ensures StepProc(s.w, s.procs[i], r).spawned == [] && LeftAlone(s, StepProc(s.w, s.procs[i], r), id)
  {
    assert ProcOk(s.w.jobs, s.w.issued, s.procs[i]) && ProcKnown(s.w.used, s.w.jobs, s.procs[i]);
    HandlerOut(s.w, s.procs[i].handler, r);
  }

  lemma SweeperLeavesStranded(s: State, i: nat, r: Reply, id: Id)
    requires OwnInv(s) && SessionInv(s) && Enabled(s, Run(i, r)) && Guarded(s, Run(i, r)) && Stranded(s, id)
    requires s.procs[i].Sweeping?
    ensures StepProc(s.w, s.procs[i], r).spawned == [] && LeftAlone(s, StepProc(s.w, s.procs[i], r), id)
  {
    var z := s.procs[i].sweeper;
    assert ProcOk(s.w.jobs, s.w.issued, s.procs[i]);
    SweeperOut(s.w, z, r);
    if !z.SweepIdle? && z.todo != [] {
      assert z.todo[0] in z.todo;
    }
  }

  lemma IdleLeavesStranded(s: State, i: nat, r: Reply, id: Id)
    requires OwnInv(s) && Enabled(s, Run(i, r)) && Stranded(s, id) && s.procs[i] == Working(WorkIdle)
    ensures StepProc(s.w, s.procs[i], r).spawned == [] && LeftAlone(s, StepProc(s.w, s.procs[i], r), id)
  {
    assert s.w.queue[0] in s.w.queue;
  }

  lemma ProcLeavesStranded(s: State, i: nat, r: Reply, id: Id)
    requires OwnInv(s) && SessionInv(s) && Enabled(s, Run(i, r)) && Guarded(s, Run(i, r))
    requires IsServing(s) && Stranded(s, id)
    ensures StepProc(s.w, s.procs[i], r).spawned == [] && LeftAlone(s, StepProc(s.w, s.procs[i], r), id)
  {
    var p := s.procs[i];
    if p.Completing? {
      HandlerLeavesStranded(s, i, r, id);
    } else if p.Sweeping? {
      SweeperLeavesStranded(s, i, r, id);
    } else if p == Working(WorkIdle) {
      IdleLeavesStranded(s, i, r, id);
    } else if p.Creating? || p.Checking? || p.Working? {
      OwnerLeavesStranded(s, i, r, id);
    }
  }

  lemma RunLeavesStranded(s: State, i: nat, r: Reply, id: Id)
    requires OwnInv(s) && SessionInv(s) && Enabled(s, Run(i, r)) && Guarded(s, Run(i, r))
    requires IsServing(s) && Stranded(s, id)
    ensures Stranded(StepRun(s, i, r), id)
  {
    ProcLeavesStranded(s, i, r, id);
    var t := StepRun(s, i, r);
    assert forall j: nat :: j != i && ClaimedBy(t, j, id) ==> ClaimedBy(s, j, id);
  }

  /** While the process serves, nobody comes back for a stranded job. */
  lemma StrandedStays(s: State, a: Action, id: Id)
    requires OwnInv(s) && SessionInv(s) && Enabled(s, a) && Guarded(s, a) && !a.Crash?
    requires IsServing(s) && Stranded(s, id)
    ensures Stranded(Next(s, a), id)
  {
    var t := Next(s, a);
    if a.Run? {
      RunLeavesStranded(s, a.i, a.reply, id);
    } else {
      assert forall j: nat :: ClaimedBy(t, j, id) ==> ClaimedBy(s, j, id);
    }
  }

  lemma NoteStays(s: State, a: Action, id: Id, n: Note)
    requires OwnInv(s) && SessionInv(s) && Enabled(s, a) && Guarded(s, a) && !a.Crash?
    requires IsServing(s) && id in s.w.used && NoteOk(s, id, n)
    ensures NoteOk(Next(s, a), id, n)
  {
    if Terminal(n.view.status) {
      if n.founded {
        Safety.ServingStep(s, a, id);
        Safety.StatusOnlyAdvances(s, a, id);
      } else {
        StrandedStays(s, a, id);
      }
    }
  }

  /** A newly published end. */
  lemma NewNoteOk(s: State, i: nat, r: Reply)
    requires OwnInv(s) && SessionInv(s) && Enabled(s, Run(i, r)) && Publishes(s.w, s.procs[i], r).Some?
    ensures NoteOk(StepRun(s, i, r), Subject(s.procs[i]), Publishes(s.w, s.procs[i], r).value)
  {
    var n := Publishes(s.w, s.procs[i], r).value;
    if Terminal(n.view.status) {
      PublishedEndIsStoredExactly(s, i, r);
      if Unstored(s.procs[i]) {
        UnstoredIsStranded(s, i, r);
      }
    }
  }

  lemma UnstoredIsStranded(s: State, i: nat, r: Reply)
    requires OwnInv(s) && i < |s.procs| && Unstored(s.procs[i])
    ensures Stranded(StepRun(s, i, r), Subject(s.procs[i]))
  {
    var t, id := StepRun(s, i, r), Subject(s.procs[i]);
    assert ProcOk(s.w.jobs, s.w.issued, s.procs[i]) && ClaimedBy(s, i, id);
    assert forall j: nat :: ClaimedBy(t, j, id) ==> j != i && ClaimedBy(s, j, id);
  }

  // ---------- The invariant ----------

  ghost predicate RoomInv(room: Room, id: Id) {
    && OwnInv(room.s) && SessionInv(room.s) && IsServing(room.s) && id in room.s.w.used
    && Follows(room.l) && NotesOk(room, id)
  }

  ghost predicate NotesOk(room: Room, id: Id) {
    && (forall k :: 0 <= k < |room.l.channel.buffer| ==> NoteOk(room.s, id, room.l.channel.buffer[k]))
    && (room.l.phase.Over? && room.l.phase.last.Some? ==> NoteOk(room.s, id, room.l.phase.last.value))
  }

  lemma SystemKeepsNotes(room: Room, id: Id, a: Action)
    requires RoomInv(room, id) && Possible(room, System(a)) && Guarded(room.s, a)
    ensures NotesOk(After1(room, id, System(a)), id)
  {
    var s, t, l' := room.s, Next(room.s, a), Hear(room.l, id, room.s, a);
    forall n | NoteOk(s, id, n)
      ensures NoteOk(t, id, n)
    {
      NoteStays(s, a, id, n);
    }
    if a.Run? && Publishes(s.w, s.procs[a.i], a.reply).Some? {
      NewNoteOk(s, a.i, a.reply);
    }
  }

  lemma RoomStep(room: Room, id: Id, e: Event)
    requires RoomInv(room, id) && Possible(room, e) && (e.System? ==> Guarded(room.s, e.a))
    ensures RoomInv(After1(room, id, e), id)
  {
    ListenerFollows(room, id, e);
    if e.System? {
      OwnStep(room.s, e.a);
      SessionStep(room.s, e.a);
      Safety.StillServing(room.s, e.a);
      SystemKeepsNotes(room, id, e.a);
    }
  }

  lemma {:induction false} RoomRunKeeps(room: Room, id: Id, events: seq<Event>)
    requires RoomInv(room, id) && RoomRuns(room, id, events)
    ensures RoomInv(RoomAfter(room, id, events), id)
    decreases |events|
  {
    if events != [] {
      RoomStep(room, id, events[0]);
      RoomRunKeeps(After1(room, id, events[0]), id, events[1..]);
    }
  }

  // ---------- Main results ----------

  /** The stream ends with the truth: over every guarded run in which a listener subscribes, with any
      interleaving, dropped updates and failed calls, a stream that ended by itself has sent one terminal
      message, as its last; and the store has that status (or the record is gone) if and only if that
      message was not published by a failed enqueue whose "failed" did not reach the store. */
  lemma StreamEndsWithTheTruth(s: State, id: Id, events: seq<Event>)
    requires OwnInv(s) && SessionInv(s) && IsServing(s) && id in s.w.used
    requires RoomRuns(Start(s), id, events)
    ensures var room := RoomAfter(Start(s), id, events);
      room.l.phase.Over? && room.l.phase.ending == Ended ==>
        && ClosesOnce(Sent(room.l)) && room.l.phase.last.Some?
        && var last := room.l.phase.last.value;
          && Sent(room.l)[|Sent(room.l)| - 1] == last.view
          && ((id in room.s.w.jobs ==> room.s.w.jobs[id].status == last.view.status) <==> last.founded)
  {
    RoomRunKeeps(Start(s), id, events);
    var l := RoomAfter(Start(s), id, events).l;
    if l.phase.Over? && l.phase.ending == Ended {
      OneEnd(l.first, l.wakes);
    }
  }

  ghost predicate ReadsWork(events: seq<Event>) {
    forall k :: 0 <= k < |events| && events[k].Read? ==> events[k].works
  }

  /** No more than one message without an end follows the job's end. */
  ghost predicate Prompt(room: Room, id: Id) {
    room.l.late <= 1 && (room.l.late == 1 ==> room.l.phase.Over? || room.l.phase.Rereading? || id !in room.s.w.jobs)
    && (room.l.late == 1 && id in room.s.w.jobs ==> Terminal(room.s.w.jobs[id].status))
  }

  lemma PromptStep(room: Room, id: Id, e: Event)
    requires RoomInv(room, id) && Prompt(room, id)
    requires Possible(room, e) && (e.System? ==> Guarded(room.s, e.a)) && (e.Read? ==> e.works)
    ensures Prompt(After1(room, id, e), id)
  {
    if e.System? {
      Safety.ServingStep(room.s, e.a, id);
      Safety.StatusOnlyAdvances(room.s, e.a, id);
    }
  }

  lemma {:induction false} PromptRun(room: Room, id: Id, events: seq<Event>)
    requires RoomInv(room, id) && Prompt(room, id) && RoomRuns(room, id, events) && ReadsWork(events)
    ensures Prompt(RoomAfter(room, id, events), id)
    decreases |events|
  {
    if events != [] {
      RoomStep(room, id, events[0]);
      PromptStep(room, id, events[0]);
      assert ReadsWork(events[1..]);
      PromptRun(After1(room, id, events[0]), id, events[1..]);
    }
  }

  /** Once the store has the job's end, at most one more message without an end is sent, whatever waits in
      the channel, and the next re-check closes the stream, given that reads of the store succeed. */
  lemma StreamEndsPromptly(s: State, id: Id, events: seq<Event>)
    requires OwnInv(s) && SessionInv(s) && IsServing(s) && id in s.w.used
    requires RoomRuns(Start(s), id, events) && ReadsWork(events)
    ensures var room := RoomAfter(Start(s), id, events);
      && room.l.late <= 1
      && (room.l.phase.Rereading? && StoreEnded(room.s.w, id) ==>
            After1(room, id, Read(true)).l.phase == Over(Ended, Some(Note(ViewOf(room.s.w.jobs[id]), true))))
  {
    RoomRunKeeps(Start(s), id, []);
    PromptRun(Start(s), id, events);
  }

  /** A stream that ends with an end the store does not have: the enqueue fails, "failed" is not stored,
      but published, and the waiting listener takes it. */
  lemma UnfoundedEnd(room: Room, id: Id, i: nat, rec: Record) returns (events: seq<Event>)
    requires RoomInv(room, id) && room.l.phase.Waiting? && room.l.channel.buffer == []
    requires i < |room.s.procs| && room.s.procs[i] == Checking(ValEnqueue(rec)) && rec.id == id
    ensures RoomRuns(room, id, events)
    ensures var t := RoomAfter(room, id, events);
      && t.l.phase == Over(Ended, Some(Note(View(Failed, 0), false)))
      && InState(t.s.w.jobs, id, Pending)
  {
    var s, l := room.s, room.l;
    assert ProcOk(s.w.jobs, s.w.issued, s.procs[i]);
    PublishedAndTaken(Room(GaveUp(s, i, rec), l), id, i);
    events := FailsTwice(room, id, i, rec, [System(Run(i, Ok))] + [Take]);
  }

  lemma PublishedAndTaken(room: Room, id: Id, i: nat)
    requires i < |room.s.procs| && Unstored(room.s.procs[i]) && Subject(room.s.procs[i]) == id
    requires room.l.phase.Waiting? && room.l.channel.buffer == []
    ensures RoomRuns(room, id, [System(Run(i, Ok))] + [Take])
    ensures var t := RoomAfter(room, id, [System(Run(i, Ok))] + [Take]);
      t.l.phase == Over(Ended, Some(Note(View(Failed, 0), false))) && t.s == StepRun(room.s, i, Ok)
  {
    var note := Note(View(Failed, 0), false);
    PublishesUnstored(room, id, i);
    var taken := After1(room, id, System(Run(i, Ok)));
    var t := TakesEnd(taken, id, note);
    RoomPrepend(room, id, System(Run(i, Ok)), taken, [Take]);
  }

  /** After the enqueue and the write of "failed" have failed. */
  function GaveUp(s: State, i: nat, rec: Record): State
    requires i < |s.procs|
  {
    State(s.w, s.procs[i := Checking(ValUndoRaw(rec.id, rec.rawKey, false))])
  }

  lemma FailsTwice(room: Room, id: Id, i: nat, rec: Record, tail: seq<Event>) returns (events: seq<Event>)
    requires i < |room.s.procs| && room.s.procs[i] == Checking(ValEnqueue(rec))
    requires RoomRuns(Room(GaveUp(room.s, i, rec), room.l), id, tail)
    ensures RoomRuns(room, id, events)
    ensures RoomAfter(room, id, events) == RoomAfter(Room(GaveUp(room.s, i, rec), room.l), id, tail)
  {
    var fail := System(Run(i, Error(false)));
    var s1 := State(room.s.w, room.s.procs[i := Checking(ValUndo(rec.(status := Failed)))]);
    assert s1.procs[i := Checking(ValUndoRaw(rec.id, rec.rawKey, false))] == GaveUp(room.s, i, rec).procs;
    UndoGivesUp(Room(s1, room.l), id, i);
    RoomPrepend(Room(s1, room.l), id, fail, Room(GaveUp(room.s, i, rec), room.l), tail);
    EnqueueGivesUp(room, id, i);
    RoomPrepend(room, id, fail, Room(s1, room.l), [fail] + tail);
    events := [fail] + ([fail] + tail);
  }

  lemma EnqueueGivesUp(room: Room, id: Id, i: nat)
    requires i < |room.s.procs| && room.s.procs[i].Checking? && room.s.procs[i].validator.ValEnqueue?
    ensures var e, rec := System(Run(i, Error(false))), room.s.procs[i].validator.rec;
      && Possible(room, e) && Guarded(room.s, e.a)
      && After1(room, id, e) ==
           Room(State(room.s.w, room.s.procs[i := Checking(ValUndo(rec.(status := Failed)))]), room.l)
  {
  }

  lemma UndoGivesUp(room: Room, id: Id, i: nat)
    requires i < |room.s.procs| && room.s.procs[i].Checking? && room.s.procs[i].validator.ValUndo?
    ensures var e, rec := System(Run(i, Error(false))), room.s.procs[i].validator.rec;
      && Possible(room, e) && Guarded(room.s, e.a)
      && After1(room, id, e) == Room(GaveUp(room.s, i, rec), room.l)
  {
  }

  lemma RoomPrepend(room: Room, id: Id, e: Event, t: Room, events: seq<Event>)
    requires Possible(room, e) && (e.System? ==> Guarded(room.s, e.a)) && After1(room, id, e) == t
    requires RoomRuns(t, id, events)
    ensures RoomRuns(room, id, [e] + events) && RoomAfter(room, id, [e] + events) == RoomAfter(t, id, events)
  {
    assert ([e] + events)[1..] == events;
  }

  lemma PublishesUnstored(room: Room, id: Id, i: nat)
    requires i < |room.s.procs| && Unstored(room.s.procs[i]) && Subject(room.s.procs[i]) == id
    requires room.l.phase.Waiting? && room.l.channel.buffer == []
    ensures After1(room, id, System(Run(i, Ok))) ==
      Room(StepRun(room.s, i, Ok), room.l.(channel := B.Channel([Note(View(Failed, 0), false)], room.l.channel.delivered)))
  {
    assert [] + [Note(View(Failed, 0), false)] == [Note(View(Failed, 0), false)];
  }

  lemma TakesEnd(room: Room, id: Id, note: Note) returns (t: Room)
    requires room.l.phase.Waiting? && room.l.channel.buffer == [note] && Terminal(note.view.status)
    ensures RoomRuns(room, id, [Take]) && t == RoomAfter(room, id, [Take])
    ensures t.s == room.s && t.l.phase == Over(Ended, Some(note))
  {
    t := After1(room, id, Take);
    assert [Take][1..] == [];
  }
}
