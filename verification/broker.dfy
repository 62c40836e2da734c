/** The progress broker: one listener per job, a buffer of four updates, and updates that find it full
    are dropped.
*/
module Broker {

  import opened Wrappers
  import opened Jobs

  const CAPACITY := 4

  datatype Update = Update(jobId: Id, status: Status, progress: int)

  // ---------- The history of one subscription ----------

  /** What happens to a subscription: an update for its job is published, or its listener receives. */
  datatype Event<T> = Published(u: T) | Received

  datatype Channel<T> = Channel(buffer: seq<T>, delivered: seq<T>)

  function Step<T>(c: Channel<T>, e: Event<T>): Channel<T> {
    match e
    case Published(u) => if |c.buffer| < CAPACITY then c.(buffer := c.buffer + [u]) else c
    case Received =>
      if c.buffer == [] then c else Channel(c.buffer[1..], c.delivered + [c.buffer[0]])
  }

  /** The channel after a history, newest event last. */
  function Play<T>(history: seq<Event<T>>): Channel<T> {
    if history == [] then Channel([], [])
    else Step(Play(history[..|history| - 1]), history[|history| - 1])
  }

  function Publications<T>(history: seq<Event<T>>): seq<T> {
    if history == [] then []
    else
      var before := Publications(history[..|history| - 1]);
      match history[|history| - 1]
      case Published(u) => before + [u]
      case Received => before
  }

  /** s is t with some elements left out. */
  ghost predicate Subsequence<T>(s: seq<T>, t: seq<T>) {
    s == [] || (t != [] &&
      (if s[|s| - 1] == t[|t| - 1] then Subsequence(s[..|s| - 1], t[..|t| - 1]) || Subsequence(s, t[..|t| - 1])
       else Subsequence(s, t[..|t| - 1])))
  }

  lemma {:induction false} SubsequenceLonger<T>(s: seq<T>, t: seq<T>, x: T)
    requires Subsequence(s, t)
    ensures Subsequence(s, t + [x]) && Subsequence(s + [x], t + [x])
  {
    assert (t + [x])[..|t|] == t && (s + [x])[..|s|] == s;
  }

  function Handled<T>(c: Channel<T>): seq<T> {
    c.delivered + c.buffer
  }

  /** Lossy, but in order: received plus waiting updates are, in order, some of those published. */
  lemma {:induction false} InOrder<T>(history: seq<Event<T>>)
    ensures Subsequence(Handled(Play(history)), Publications(history))
    ensures |Play(history).buffer| <= 4
  {
    if history != [] {
      var most, e := history[..|history| - 1], history[|history| - 1];
      InOrder(most);
      var c := Play(most);
      match e
      case Published(u) =>
        SubsequenceLonger(Handled(c), Publications(most), u);
        assert c.delivered + (c.buffer + [u]) == Handled(c) + [u];
      case Received =>
        if c.buffer != [] {
          assert Handled(Step(c, e)) == Handled(c);
        }
    }
  }

  lemma {:induction false} SubsequenceInit<T>(s: seq<T>, x: T, t: seq<T>)
    requires Subsequence(s + [x], t)
    ensures Subsequence(s, t)
    decreases |t|
  {
    assert (s + [x])[..|s|] == s;
    var most := t[..|t| - 1];
    if Subsequence(s + [x], most) {
      SubsequenceInit(s, x, most);
      SubsequenceLonger(s, most, t[|t| - 1]);
    } else {
      SubsequenceLonger(s, most, t[|t| - 1]);
    }
    assert most + [t[|t| - 1]] == t;
  }

  lemma {:induction false} SubsequencePrefix<T>(s: seq<T>, more: seq<T>, t: seq<T>)
    requires Subsequence(s + more, t)
    ensures Subsequence(s, t)
    decreases |more|
  {
    if more == [] {
      assert s + more == s;
    } else {
      var most, x := more[..|more| - 1], more[|more| - 1];
      assert s + more == (s + most) + [x];
      SubsequenceInit(s + most, x, t);
      SubsequencePrefix(s, most, t);
    }
  }

  /** What a listener has received is, in order, some of what was published. */
  lemma DeliveredInOrder<T>(history: seq<Event<T>>)
    ensures Subsequence(Play(history).delivered, Publications(history))
  {
    InOrder(history);
    SubsequencePrefix(Play(history).delivered, Play(history).buffer, Publications(history));
  }

  /** The waiting updates, when an event finds four of them. */
  function Drops<T>(history: seq<Event<T>>): nat {
    if history == [] then 0
    else
      Drops(history[..|history| - 1]) +
      (if history[|history| - 1].Published? && |Play(history[..|history| - 1]).buffer| == CAPACITY then 1 else 0)
  }

  /** An update is lost exactly when it finds four waiting: the count of updates balances. */
  lemma {:induction false} OnlyFullBuffersDrop<T>(history: seq<Event<T>>)
    ensures |Publications(history)| == |Handled(Play(history))| + Drops(history)
    ensures Drops(history) == 0 <==> Handled(Play(history)) == Publications(history)
  {
    if history != [] {
      var most, e := history[..|history| - 1], history[|history| - 1];
      OnlyFullBuffersDrop(most);
      InOrder(most);
      var c := Play(most);
      match e
      case Published(u) =>
        assert c.delivered + (c.buffer + [u]) == Handled(c) + [u];
        if Drops(history) > 0 {
          assert |Handled(Play(history))| < |Publications(history)|;
        }
      case Received =>
        if c.buffer != [] {
          assert Handled(Step(c, e)) == Handled(c);
        }
    }
  }

  // ---------- The code ----------

  /** One subscription: Go's channel together with its once-only unsubscribe. */
  class Subscription {
    const jobId: Id
    var channel: Channel<Update>
    var closed: bool
    ghost var history: seq<Event<Update>>   // since it was made, while it held the job's slot

    constructor (jobId: Id)
      ensures this.jobId == jobId && channel == Channel([], []) && !closed && history == []
    {
      this.jobId := jobId;
      channel, closed, history := Channel([], []), false, [];
    }

    ghost predicate Valid()
      reads this
    {
      channel == Play(history)
    }

    /** A receive on the channel; None when nothing waits, and then whether the channel is still open. */
    method Receive() returns (u: Option<Update>, open: bool)
      requires Valid()
      modifies `channel, `history
      ensures Valid() && history == old(history) + [Received]
      ensures u == if old(channel).buffer == [] then None else Some(old(channel).buffer[0])
      ensures open == (u.Some? || !closed)
    {
      u := if channel.buffer == [] then None else Some(channel.buffer[0]);
      channel := Step(channel, Received);
      history := history + [Received];
      assert history[..|history| - 1] == old(history);
      open := u.Some? || !closed;
    }
  }

  /** What other goroutines do with the broker. Each unsubscribes its own subscription only. */
  datatype Op = Join(jobId: Id) | Part(k: nat) | Send(u: Update)

  /** The updates for a job that these operations publish, as events of its channel. */
  function SentTo(ops: seq<Op>, jobId: Id): seq<Event<Update>> {
    if ops == [] then []
    else
      var most, op := ops[..|ops| - 1], ops[|ops| - 1];
      SentTo(most, jobId) + (if op.Send? && op.u.jobId == jobId then [Published(op.u)] else [])
  }

  class Broker {
    var subscribers: map<Id, Subscription>

    constructor ()
      ensures subscribers == map[]
    {
      subscribers := map[];
    }

    /** Every slot is held by an open subscription for that very job. */
    ghost predicate Valid()
      reads this, subscribers.Values
    {
      forall id :: id in subscribers ==>
        subscribers[id].jobId == id && subscribers[id].Valid() && !subscribers[id].closed
    }

    /** A second listener for the same job is turned away. */
    method Subscribe(jobId: Id) returns (s: Option<Subscription>)
      requires Valid()
      modifies `subscribers
      ensures Valid()
      ensures s.None? <==> jobId in old(subscribers)
      ensures s.None? ==> subscribers == old(subscribers)
      ensures s.Some? ==> fresh(s.value) && subscribers == old(subscribers)[jobId := s.value]
      ensures s.Some? ==> s.value.jobId == jobId && s.value.history == [] && s.value.Valid() && !s.value.closed
    {
      if jobId in subscribers {
        return None;
      }
      var c := new Subscription(jobId);
      subscribers := subscribers[jobId := c];
      s := Some(c);
    }

    /** Unsubscribe, once: it frees the slot only if this very subscription holds it. A second call, or
        one by a subscription whose slot somebody else holds by now, changes no slot. */
    method Unsubscribe(s: Subscription)
      requires Valid() && (!s.closed ==> s.Valid())
      modifies `subscribers, s`closed
      ensures Valid() && s.closed
      ensures subscribers == if !old(s.closed) && s.jobId in old(subscribers) && old(subscribers)[s.jobId] == s
                             then old(subscribers) - {s.jobId} else old(subscribers)
      ensures old(s.closed) ==> subscribers == old(subscribers)
    {
      if s.closed {
        return;
      }
      if s.jobId in subscribers && subscribers[s.jobId] == s {
        subscribers := subscribers - {s.jobId};
      }
      s.closed := true;
    }

    /** Publish, lookup and send in one step: no listener, nothing happens; a full buffer drops the
        update; and no other subscription notices. */
    method Publish(u: Update)
      requires Valid()
      modifies set id | id in subscribers && id == u.jobId :: subscribers[id]
      ensures Valid() && subscribers == old(subscribers)
      ensures u.jobId in subscribers ==>
        var s := subscribers[u.jobId];
        && s.history == old(s.history) + [Published(u)] && s.channel == Step(old(s.channel), Published(u)) && !s.closed
        && s.channel.buffer == (if |old(s.channel.buffer)| < 4 then old(s.channel.buffer) + [u] else old(s.channel.buffer))
    {
      if u.jobId !in subscribers {
        return;
      }
      var s := subscribers[u.jobId];
      s.channel := Step(s.channel, Published(u));
      s.history := s.history + [Published(u)];
      assert s.history[..|s.history| - 1] == old(s.history);
      assert s.Valid();
      assert forall id :: id in subscribers && id != u.jobId ==> subscribers[id] != s;
    }

    /** mine is open and holds its slot. */
    ghost predicate Listens(mine: Subscription)
      reads this, subscribers.Values, mine
    {
      Valid() && mine.Valid() && !mine.closed && mine.jobId in subscribers && subscribers[mine.jobId] == mine
    }

    /** The subscriptions that other goroutines hold, or held. */
    ghost predicate Others(mine: Subscription, others: seq<Subscription>)
      reads this, subscribers.Values, mine, others
    {
      forall k :: 0 <= k < |others| ==> others[k] != mine && (!others[k].closed ==> others[k].Valid())
    }

    /** One such operation: whatever it is, mine stays open and keeps its slot. */
    method Meddle(op: Op, mine: Subscription, others: seq<Subscription>) returns (rest: seq<Subscription>)
      requires Listens(mine) && Others(mine, others)
      modifies this, mine, others, subscribers.Values
      ensures Listens(mine) && Others(mine, rest)
      ensures mine.history == old(mine.history) +
        (if op.Send? && op.u.jobId == mine.jobId then [Published(op.u)] else [])
      ensures forall k :: 0 <= k < |rest| ==> rest[k] in others || fresh(rest[k])
      ensures forall id :: id in subscribers ==> subscribers[id] in old(subscribers.Values) || fresh(subscribers[id])
    {
      rest := others;
      match op
      case Join(jobId) =>
        var s := Subscribe(jobId);
        if s.Some? {
          rest := others + [s.value];
        }
      case Part(k) =>
        if k < |others| {
          Unsubscribe(others[k]);
        }
      case Send(u) =>
        Publish(u);
    }

    /** No closed channel under a listener: over any sequence of operations of others, a subscription
        stays open and holds its slot until its own goroutine unsubscribes, and its channel takes exactly
        the updates published for its job. */
    method Interleave(ops: seq<Op>, mine: Subscription, others: seq<Subscription>) returns (rest: seq<Subscription>)
      requires Listens(mine) && Others(mine, others)
      modifies this, mine, others, subscribers.Values
      ensures Listens(mine) && Others(mine, rest)
      ensures mine.history == old(mine.history) + SentTo(ops, mine.jobId)
      ensures forall k :: 0 <= k < |rest| ==> rest[k] in others || fresh(rest[k])
      ensures forall id :: id in subscribers ==> subscribers[id] in old(subscribers.Values) || fresh(subscribers[id])
    {
      rest := others;
      for n := 0 to |ops|
        invariant Listens(mine) && Others(mine, rest)
        invariant mine.history == old(mine.history) + SentTo(ops[..n], mine.jobId)
        invariant forall k :: 0 <= k < |rest| ==> rest[k] in others || fresh(rest[k])
        invariant forall id :: id in subscribers ==> subscribers[id] in old(subscribers.Values) || fresh(subscribers[id])
      {
        assert ops[..n + 1][..n] == ops[..n];
        rest := Meddle(ops[n], mine, rest);
      }
      assert ops[..|ops|] == ops;
    }
  }
}
