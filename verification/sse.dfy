/** The event stream of one job: a first message with the job's state, then what the broker delivers,
    with the store read again after every wake-up.
*/
module EventStream {

  import opened Wrappers
  import opened Jobs
  import B = Broker

  /** The part of a record the stream shows, and the update it is shown as. */
  datatype View = View(status: Status, progress: int)

  /** What the loop found when it woke up: an update from its channel, the timer, or a client that left;
      and what reading the store gave then, None for an error. */
  datatype Wake =
    | FromBroker(update: View, store: Option<View>)
    | Heartbeat(store: Option<View>)
    | Disconnected

  datatype Ending = Conflict | NoSuchJob | Ended | Closed | Gone | Listening

  /** Did reading the store show that the job has ended? */
  predicate ShowsEnd(store: Option<View>) {
    store.Some? && Terminal(store.value.status)
  }

  /** What one wake-up sends. */
  function Sends(w: Wake): seq<View> {
    match w
    case FromBroker(u, store) =>
      if Terminal(u.status) then [u] else if ShowsEnd(store) then [u, store.value] else [u]
    case Heartbeat(store) => if ShowsEnd(store) then [store.value] else []
    case Disconnected => []
  }

  function EndsWith(w: Wake): Ending {
    match w
    case FromBroker(u, store) => if Terminal(u.status) || ShowsEnd(store) then Ended else Listening
    case Heartbeat(store) => if ShowsEnd(store) then Ended else Listening
    case Disconnected => Gone
  }

  function AllSends(wakes: seq<Wake>): seq<View> {
    if wakes == [] then [] else AllSends(wakes[..|wakes| - 1]) + Sends(wakes[|wakes| - 1])
  }

  /** How the stream stands after these wake-ups. */
  function Standing(first: View, wakes: seq<Wake>): Ending {
    if wakes != [] then EndsWith(wakes[|wakes| - 1])
    else if Terminal(first.status) then Ended
    else Listening
  }

  /** Every wake-up but the last left the stream listening. */
  ghost predicate Continued(first: View, wakes: seq<Wake>) {
    (wakes != [] ==> Standing(first, []) == Listening) &&
    forall k :: 0 <= k < |wakes| - 1 ==> EndsWith(wakes[k]) == Listening
  }

  /** Exactly one terminal message, and it comes last. */
  ghost predicate ClosesOnce(sent: seq<View>) {
    sent != [] && Terminal(sent[|sent| - 1].status) &&
    forall i :: 0 <= i < |sent| - 1 ==> !Terminal(sent[i].status)
  }

  ghost predicate NoEnd(sent: seq<View>) {
    forall i :: 0 <= i < |sent| ==> !Terminal(sent[i].status)
  }

  lemma {:induction false} QuietWhileListening(wakes: seq<Wake>)
    requires forall k :: 0 <= k < |wakes| ==> EndsWith(wakes[k]) != Ended
    ensures NoEnd(AllSends(wakes))
  {
    if wakes != [] {
      QuietWhileListening(wakes[..|wakes| - 1]);
    }
  }

  /** The stream ends by itself only right after its single terminal message. */
  lemma OneEnd(first: View, wakes: seq<Wake>)
    requires Continued(first, wakes)
    ensures var sent := [first] + AllSends(wakes);
      if Standing(first, wakes) == Ended then ClosesOnce(sent) else NoEnd(sent)
  {
    if wakes != [] {
      QuietWhileListening(wakes[..|wakes| - 1]);
    }
  }

  // ---------- The code ----------

  /** What happens next: operations of other goroutines on the broker, then the cause of a wake-up, and
      what a read of the store gives at that time. */
  datatype Turn = Turn(ops: seq<B.Op>, cause: Cause, read: Option<View>)

  datatype Cause = Ready | Timer | Cancelled

  function AsView(u: B.Update): View {
    View(u.status, u.progress)
  }

  /** What the channel goes through in one turn: the updates published for its job, and a receive. */
  function TurnEvents(turn: Turn, id: Id): seq<B.Event<B.Update>> {
    B.SentTo(turn.ops, id) + (if turn.cause == Ready then [B.Received] else [])
  }

  function HistoryOf(turns: seq<Turn>, id: Id): seq<B.Event<B.Update>> {
    if turns == [] then [] else HistoryOf(turns[..|turns| - 1], id) + TurnEvents(turns[|turns| - 1], id)
  }

  /** Does the loop read the store again at turn k? On the timer, and after an update that is no end. */
  predicate Rereads(turns: seq<Turn>, k: nat, id: Id)
    requires k < |turns|
  {
    Looks(turns[k], B.Play(HistoryOf(turns[..k], id) + B.SentTo(turns[k].ops, id)).buffer)
  }

  predicate Looks(turn: Turn, waiting: seq<B.Update>) {
    turn.cause == Timer || (turn.cause == Ready && waiting != [] && !Terminal(waiting[0].status))
  }

  predicate SeesEnd(turn: Turn) {
    turn.read.Some? && Terminal(turn.read.value.status)
  }

  /** One turn over a channel with these updates waiting: it forwards the first of them as it was published, and
      the state of the store if it then reads the job's end. */
  ghost predicate TurnShows(turn: Turn, waiting: seq<B.Update>, sent: seq<View>, more: seq<View>, closing: Option<View>) {
    && more == sent + Forwarded(turn, waiting) + (if closing.Some? then [closing.value] else [])
    && (closing.Some? <==> SeesEnd(turn) && Looks(turn, waiting))
    && (closing.Some? ==> closing == turn.read)
  }

  /** What the client was sent: the first state, then the received updates, in order and unchanged, and then the
      state of the store that the last turn read, if that showed the job's end. */
  ghost predicate Shown(sent: seq<View>, first: View, updates: seq<B.Update>, closing: Option<View>) {
    && |sent| == 1 + |updates| + (if closing.Some? then 1 else 0)
    && sent[0] == first
    && (forall i {:trigger updates[i]} :: 0 <= i < |updates| ==>
          sent[1 + i].status == updates[i].status && sent[1 + i].progress == updates[i].progress)
    && (closing.Some? ==> sent[|sent| - 1] == closing.value)
  }

  /** The closing message is there exactly when a re-read showed an end, which is then the last turn's. */
  ghost predicate ClosedBy(turns: seq<Turn>, id: Id, closing: Option<View>) {
    && (closing.Some? ==> turns != [] && Rereads(turns, |turns| - 1, id) && turns[|turns| - 1].read == closing
                          && Terminal(closing.value.status))
    && (forall k {:trigger Rereads(turns, k, id)} :: 0 <= k < |turns| && Rereads(turns, k, id) && SeesEnd(turns[k]) ==>
          k == |turns| - 1 && closing == turns[k].read)
  }

  /** One pass through the select statement; an empty open channel does not wake it up. */
  method OnWake(mine: B.Subscription, turn: Turn, sent: seq<View>)
      returns (more: seq<View>, ending: Ending, ghost woken: Option<Wake>, ghost closing: Option<View>)
    requires mine.Valid() && !mine.closed
    modifies mine`channel, mine`history
    ensures mine.Valid()
    ensures mine.history == old(mine.history) + (if turn.cause == Ready then [B.Received] else [])
    ensures woken.None? ==> more == sent && ending == Listening
    ensures woken.Some? ==> more == sent + Sends(woken.value) && ending == EndsWith(woken.value)
    ensures turn.cause == Ready && old(mine.channel.buffer) != [] ==>
      woken.Some? && woken.value.FromBroker? && woken.value.update == AsView(old(mine.channel.buffer)[0])
    ensures turn.cause == Timer ==> woken == Some(Heartbeat(turn.read))
    ensures ending != Closed
    // In terms of the channel and the read alone:
    ensures TurnShows(turn, old(mine.channel.buffer), sent, more, closing) && (closing.Some? ==> ending == Ended)
  {
    more, ending, woken, closing := sent, Listening, None, None;
    match turn.cause
    case Ready =>
      var update, open := mine.Receive();
      if !open {
        ending := Closed;
        return;
      }
      if update.None? {
        return;
      }
      woken := Some(FromBroker(AsView(update.value), turn.read));
      more := more + [AsView(update.value)];
      if Terminal(update.value.status) {
        ending := Ended;
        return;
      }
      if turn.read.Some? && Terminal(turn.read.value.status) {
        more := more + [turn.read.value];
        closing := turn.read;
        assert more == sent + [AsView(update.value), turn.read.value];
        ending := Ended;
      }
    case Timer =>
      woken := Some(Heartbeat(turn.read));
      if turn.read.Some? && Terminal(turn.read.value.status) {
        more := more + [turn.read.value];
        closing := turn.read;
        ending := Ended;
      }
    case Cancelled =>
      woken := Some(Disconnected);
      ending := Gone;
  }

  /** The update a turn takes from the channel, as it was published. */
  function Forwarded(turn: Turn, waiting: seq<B.Update>): seq<View> {
    if turn.cause == Ready && waiting != [] then [View(waiting[0].status, waiting[0].progress)] else []
  }

  /** The wake-ups so far, and one more. */
  lemma WakeUp(first: View, wakes: seq<Wake>, w: Wake)
    requires Continued(first, wakes) && Standing(first, wakes) == Listening
    ensures Continued(first, wakes + [w]) && Standing(first, wakes + [w]) == EndsWith(w)
    ensures [first] + AllSends(wakes + [w]) == [first] + AllSends(wakes) + Sends(w)
  {
    assert (wakes + [w])[..|wakes|] == wakes;
    SendsLast(wakes, w);
    ViewsAssociate([first], AllSends(wakes), Sends(w));
  }

  lemma SendsLast(wakes: seq<Wake>, w: Wake)
    ensures AllSends(wakes + [w]) == AllSends(wakes) + Sends(w)
  {
    var all := wakes + [w];
    assert all[..|all| - 1] == wakes && all[|all| - 1] == w;
  }

  lemma ViewsAssociate(a: seq<View>, b: seq<View>, c: seq<View>)
    ensures a + (b + c) == a + b + c
  {
  }

  /** Other goroutines' operations, then one pass of the loop. */
  method OnTurn(b: B.Broker, mine: B.Subscription, turn: Turn, sent: seq<View>, others: seq<B.Subscription>)
      returns (more: seq<View>, ending: Ending, ghost woken: Option<Wake>, rest: seq<B.Subscription>,
               ghost closing: Option<View>)
    requires b.Listens(mine) && b.Others(mine, others)
    modifies b, mine, others, b.subscribers.Values
    ensures b.Listens(mine) && b.Others(mine, rest)
    ensures forall k :: 0 <= k < |rest| ==> rest[k] in others || fresh(rest[k])
    ensures forall x :: x in b.subscribers ==> b.subscribers[x] in old(b.subscribers.Values) || fresh(b.subscribers[x])
    ensures woken.None? ==> more == sent && ending == Listening
    ensures woken.Some? ==> more == sent + Sends(woken.value) && ending == EndsWith(woken.value)
    ensures ending != Closed
    ensures mine.history == old(mine.history) + TurnEvents(turn, mine.jobId)
    ensures TurnShows(turn, B.Play(old(mine.history) + B.SentTo(turn.ops, mine.jobId)).buffer, sent, more, closing)
    ensures closing.Some? ==> ending == Ended
  {
    rest := b.Interleave(turn.ops, mine, others);
    more, ending, woken, closing := OnWake(mine, turn, sent);
    EventsSplit(old(mine.history), turn, mine.jobId);
  }

  lemma EventsSplit(history: seq<B.Event<B.Update>>, turn: Turn, id: Id)
    ensures history + TurnEvents(turn, id) ==
      history + B.SentTo(turn.ops, id) + (if turn.cause == Ready then [B.Received] else [])
  {
  }

  /** One turn adds to what was shown. */
  lemma ShownMore(sent: seq<View>, first: View, turns: seq<Turn>, turn: Turn, id: Id, more: seq<View>, closing: Option<View>)
    requires Shown(sent, first, B.Play(HistoryOf(turns, id)).delivered, None)
    requires TurnShows(turn, B.Play(HistoryOf(turns, id) + B.SentTo(turn.ops, id)).buffer, sent, more, closing)
    ensures Shown(more, first, B.Play(HistoryOf(turns + [turn], id)).delivered, closing)
  {
    assert (turns + [turn])[..|turns|] == turns;
    DeliveredMore(HistoryOf(turns, id), turn, id);
  }

  lemma ClosedMore(turns: seq<Turn>, turn: Turn, id: Id, closing: Option<View>)
    requires ClosedBy(turns, id, None) && (closing.Some? ==> closing == turn.read)
    requires closing.Some? <==> SeesEnd(turn) && Looks(turn, B.Play(HistoryOf(turns, id) + B.SentTo(turn.ops, id)).buffer)
    ensures ClosedBy(turns + [turn], id, closing)
  {
    var all := turns + [turn];
    assert all[..|turns|] == turns && forall k :: 0 <= k < |turns| ==> all[..k] == turns[..k];
    assert forall k :: 0 <= k < |turns| ==> (Rereads(all, k, id) <==> Rereads(turns, k, id));
  }

  /** What one turn adds to what was delivered: the head of the buffer, if it receives. */
  lemma DeliveredMore(history: seq<B.Event<B.Update>>, turn: Turn, id: Id)
    ensures var c := B.Play(history + B.SentTo(turn.ops, id));
      B.Play(history + TurnEvents(turn, id)).delivered ==
        B.Play(history).delivered + (if turn.cause == Ready && c.buffer != [] then [c.buffer[0]] else [])
  {
    var h := history + B.SentTo(turn.ops, id);
    SentDeliversNone(history, turn.ops, id);
    if turn.cause == Ready {
      assert history + TurnEvents(turn, id) == h + [B.Received];
      assert (h + [B.Received])[..|h|] == h;
    } else {
      assert history + TurnEvents(turn, id) == h;
    }
  }

  lemma {:induction false} SentDeliversNone(history: seq<B.Event<B.Update>>, ops: seq<B.Op>, id: Id)
    ensures B.Play(history + B.SentTo(ops, id)).delivered == B.Play(history).delivered
    decreases |ops|
  {
    if ops == [] {
      assert history + B.SentTo(ops, id) == history;
    } else {
      var most, op := ops[..|ops| - 1], ops[|ops| - 1];
      SentDeliversNone(history, most, id);
      var h := history + B.SentTo(most, id);
      if op.Send? && op.u.jobId == id {
        assert history + B.SentTo(ops, id) == h + [B.Published(op.u)];
        assert (h + [B.Published(op.u)])[..|h|] == h;
      } else {
        assert B.SentTo(ops, id) == B.SentTo(most, id);
      }
    }
  }

  /** Where the stream stands after these turns. */
  ghost predicate Told(first: View, turns: seq<Turn>, id: Id, sent: seq<View>, wakes: seq<Wake>, closing: Option<View>,
                       ending: Ending) {
    && sent == [first] + AllSends(wakes) && ending != Closed
    && Continued(first, wakes) && ending == Standing(first, wakes)
    && Shown(sent, first, B.Play(HistoryOf(turns, id)).delivered, closing) && ClosedBy(turns, id, closing)
    && (ending == Listening ==> closing.None?)
  }

  lemma ToldFirst(first: View, id: Id)
    ensures Told(first, [], id, [first], [], None, if Terminal(first.status) then Ended else Listening)
  {
  }

  lemma ToldMore(first: View, turns: seq<Turn>, id: Id, sent: seq<View>, wakes: seq<Wake>, turn: Turn,
                 more: seq<View>, woken: Option<Wake>, closing: Option<View>, ending: Ending)
    requires Told(first, turns, id, sent, wakes, None, Listening) && ending != Closed
    requires woken.None? ==> more == sent && ending == Listening
    requires woken.Some? ==> more == sent + Sends(woken.value) && ending == EndsWith(woken.value)
    requires TurnShows(turn, B.Play(HistoryOf(turns, id) + B.SentTo(turn.ops, id)).buffer, sent, more, closing)
    requires closing.Some? ==> ending == Ended
    ensures Told(first, turns + [turn], id, more, if woken.Some? then wakes + [woken.value] else wakes, closing, ending)
    ensures HistoryOf(turns + [turn], id) == HistoryOf(turns, id) + TurnEvents(turn, id)
  {
    ShownMore(sent, first, turns, turn, id, more, closing);
    ClosedMore(turns, turn, id, closing);
    if woken.Some? {
      WakeUp(first, wakes, woken.value);
    }
    assert (turns + [turn])[..|turns|] == turns;
  }

  /** The subscriptions of others, and those in the broker's slots. */
  ghost function Around(b: B.Broker, others: seq<B.Subscription>): set<B.Subscription>
    reads b
  {
    (set x | x in others) + b.subscribers.Values
  }

  /** One turn of the loop, after those in `past`. */
  method LoopOnce(b: B.Broker, mine: B.Subscription, turn: Turn, sent: seq<View>, others: seq<B.Subscription>,
                  ghost first: View, ghost past: seq<Turn>, ghost wakes: seq<Wake>, ghost open: Option<View>)
      returns (more: seq<View>, ending: Ending, rest: seq<B.Subscription>, ghost woken: seq<Wake>,
               ghost present: seq<Turn>, ghost closing: Option<View>)
    requires b.Listens(mine) && b.Others(mine, others) && mine.history == HistoryOf(past, mine.jobId)
    requires Told(first, past, mine.jobId, sent, wakes, open, Listening)
    modifies b, mine, others, b.subscribers.Values
    ensures present == past + [turn]
    ensures b.Listens(mine) && b.Others(mine, rest) && mine.history == HistoryOf(present, mine.jobId)
    ensures fresh(Around(b, rest) - old(Around(b, others)))
    ensures Told(first, present, mine.jobId, more, woken, closing, ending)
  {
    present := past + [turn];
    ghost var wake;
    more, ending, wake, rest, closing := OnTurn(b, mine, turn, sent, others);
    ToldMore(first, past, mine.jobId, sent, wakes, turn, more, wake, closing, ending);
    woken := if wake.Some? then wakes + [wake.value] else wakes;
  }

  /** The loop, from a first message that did not end the stream; `past` are the turns it took part in. */
  method Listen(b: B.Broker, mine: B.Subscription, first: View, turns: seq<Turn>, others: seq<B.Subscription>)
      returns (sent: seq<View>, ending: Ending, ghost wakes: seq<Wake>, ghost past: seq<Turn>, ghost closing: Option<View>)
    requires b.Listens(mine) && b.Others(mine, others) && mine.history == []
    modifies b, mine, others, b.subscribers.Values
    ensures b.Listens(mine) && past <= turns && (ending == Listening ==> past == turns)
    ensures Told(first, past, mine.jobId, sent, wakes, closing, ending)
    ensures mine.history == HistoryOf(past, mine.jobId)
  {
    sent, wakes, closing, past := [first], [], None, [];
    ending := if Terminal(first.status) then Ended else Listening;
    var i, rest := 0, others;
    ToldFirst(first, mine.jobId);
    while ending == Listening && i < |turns|
      invariant i <= |turns| && past == turns[..i]
      invariant b.Listens(mine) && b.Others(mine, rest)
      invariant fresh(Around(b, rest) - old(Around(b, others)))
      invariant mine.history == HistoryOf(past, mine.jobId) && Told(first, past, mine.jobId, sent, wakes, closing, ending)
      decreases |turns| - i
    {
      assert turns[..i] + [turns[i]] == turns[..i + 1];
      sent, ending, rest, wakes, past, closing := LoopOnce(b, mine, turns[i], sent, rest, first, past, wakes, closing);
      i := i + 1;
    }
  }

  /** What a stream that was opened has shown by its end. */
  ghost predicate Streamed(first: View, turns: seq<Turn>, past: seq<Turn>, id: Id, sent: seq<View>, wakes: seq<Wake>,
                           closing: Option<View>, ending: Ending) {
    && past <= turns && (ending == Listening ==> past == turns) && ending != Closed
    && sent == [first] + AllSends(wakes) && Continued(first, wakes) && ending == Standing(first, wakes)
    && (if ending == Ended then ClosesOnce(sent) else NoEnd(sent))
    && var updates := B.Play(HistoryOf(past, id)).delivered;
      && Shown(sent, first, updates, closing) && ClosedBy(past, id, closing)
      && B.Subsequence(updates, B.Publications(HistoryOf(past, id)))
  }

  lemma ToldIsStreamed(first: View, turns: seq<Turn>, past: seq<Turn>, id: Id, sent: seq<View>, wakes: seq<Wake>,
                       closing: Option<View>, ending: Ending)
    requires Told(first, past, id, sent, wakes, closing, ending) && past <= turns && (ending == Listening ==> past == turns)
    ensures Streamed(first, turns, past, id, sent, wakes, closing, ending)
  {
    OneEnd(first, wakes);
    B.DeliveredInOrder(HistoryOf(past, id));
  }

  /** handleJobEvents. `current` is the first read of the store. After the first message the client is sent
      exactly the updates its channel delivered over the turns that the stream took part in, and at most one
      message read from the store. The branch for a closed channel is never taken: nobody but this handler
      unsubscribes its subscription. At the end its slot is free again. */
  method HandleJobEvents(b: B.Broker, id: Id, current: Option<View>, turns: seq<Turn>, others: seq<B.Subscription>)
      returns (sent: seq<View>, ending: Ending, ghost wakes: seq<Wake>, ghost past: seq<Turn>, ghost closing: Option<View>)
    requires b.Valid() && forall k :: 0 <= k < |others| ==> !others[k].closed ==> others[k].Valid()
    modifies b, others, b.subscribers.Values
    ensures b.Valid()
    ensures ending == Conflict <==> id in old(b.subscribers)
    ensures ending == Conflict ==> b.subscribers == old(b.subscribers) && sent == []
    ensures ending != Conflict ==> id !in b.subscribers
    ensures ending != Conflict ==> (ending == NoSuchJob <==> current.None?) && (current.None? ==> sent == [])
    ensures ending != Closed
    ensures ending != Conflict && current.Some? ==>
      Streamed(current.value, turns, past, id, sent, wakes, closing, ending)
  {
    sent, wakes, past, closing := [], [], [], None;
    var subscribed := b.Subscribe(id);
    if subscribed.None? {
      ending := Conflict;
      return;
    }
    var mine := subscribed.value;
    if current.None? {
      b.Unsubscribe(mine);
      ending := NoSuchJob;
      return;
    }
    sent, ending, wakes, past, closing := Listen(b, mine, current.value, turns, others);
    ToldIsStreamed(current.value, turns, past, id, sent, wakes, closing, ending);
    b.Unsubscribe(mine);
  }
}
