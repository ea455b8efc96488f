/** Routing notifications to processors (src/notification.rs:86-137). A processor is
    its position in the list given to the manager; its channel is the sequence of
    what was sent to it. */
module Notify {
  import opened Base
  import opened StreamQueue

  ghost function Count<T>(xs: seq<T>, x: T): (n: nat) {
    if xs == [] then 0 else Count(xs[..|xs| - 1], x) + if xs[|xs| - 1] == x then 1 else 0
  }

  ghost function Copies<T>(n: nat, x: T): (xs: seq<T>) {
    if n == 0 then [] else Copies(n - 1, x) + [x]
  }

  /** Who is sent a message of topic `t`, in order: each processor once for every
      time it registered the topic. */
  ghost function Subscribers<Topic>(topics: seq<seq<Topic>>, t: Topic): (xs: seq<nat>) {
    if topics == [] then [] else
      var n := |topics| - 1;
      Subscribers(topics[..n], t) + Copies<nat>(Count(topics[n], t), n)
  }

  /** What a processor with the given topics receives out of a stream of messages. */
  ghost function Deliveries<Topic, M>(own: seq<Topic>, ns: seq<M>, topicOf: M -> Topic): (xs: seq<M>) {
    if ns == [] then [] else
      var n := |ns| - 1;
      Deliveries(own, ns[..n], topicOf) + Copies(Count(own, topicOf(ns[n])), ns[n])
  }

  ghost function OfTopics<Topic, M>(own: seq<Topic>, ns: seq<M>, topicOf: M -> Topic): (xs: seq<M>) {
    if ns == [] then [] else
      var n := |ns| - 1;
      OfTopics(own, ns[..n], topicOf) + if topicOf(ns[n]) in own then [ns[n]] else []
  }

  lemma {:induction false} CountOnce<T>(xs: seq<T>, x: T)
    requires forall i, j | 0 <= i < j < |xs| :: xs[i] != xs[j]
    ensures Count(xs, x) == if x in xs then 1 else 0
  {
    if xs != [] {
      var n := |xs| - 1;
      CountOnce(xs[..n], x);
      assert x in xs <==> x in xs[..n] || xs[n] == x;
      assert xs[n] !in xs[..n];
    }
  }

  /** With every topic registered once, a processor's log is the stream filtered to
      its topics. */
  lemma {:induction false} DeliveriesFilter<Topic, M>(own: seq<Topic>, ns: seq<M>, topicOf: M -> Topic)
    requires forall i, j | 0 <= i < j < |own| :: own[i] != own[j]
    ensures Deliveries(own, ns, topicOf) == OfTopics(own, ns, topicOf)
  {
    if ns != [] {
      var n := |ns| - 1;
      DeliveriesFilter(own, ns[..n], topicOf);
      CountOnce(own, topicOf(ns[n]));
      assert Copies(1, ns[n]) == Copies(0, ns[n]) + [ns[n]];
    }
  }

  lemma {:induction false} CountConcat<T>(a: seq<T>, b: seq<T>, x: T)
    ensures Count(a + b, x) == Count(a, x) + Count(b, x)
    decreases |b|
  {
    if b == [] {
      assert a + b == a;
    } else {
      var n := |b| - 1;
      CountConcat(a, b[..n], x);
      assert (a + b)[..|a + b| - 1] == a + b[..n];
    }
  }

  lemma {:induction false} CountCopies<T>(n: nat, y: T, x: T)
    ensures Count(Copies(n, y), x) == if x == y then n else 0
  {
    if n > 0 {
      CountCopies(n - 1, y, x);
      assert Copies(n, y)[..|Copies(n, y)| - 1] == Copies(n - 1, y);
    }
  }

  /** The topic table neither loses nor duplicates a registration. */
  lemma {:induction false} RegistrationsCount<Topic>(topics: seq<seq<Topic>>, t: Topic, p: nat)
    ensures Count(Subscribers(topics, t), p) == if p < |topics| then Count(topics[p], t) else 0
  {
    if topics != [] {
      var n := |topics| - 1;
      RegistrationsCount(topics[..n], t, p);
      assert p < n ==> topics[..n][p] == topics[p];
      CountConcat<nat>(Subscribers(topics[..n], t), Copies<nat>(Count(topics[n], t), n), p);
      CountCopies<nat>(Count(topics[n], t), n, p);
    }
  }

  lemma {:induction false} SubscribersExist<Topic>(topics: seq<seq<Topic>>, t: Topic)
    ensures forall s | s in Subscribers(topics, t) :: s < |topics|
  {
    if topics != [] {
      var n := |topics| - 1;
      SubscribersExist(topics[..n], t);
      OnlyCopies<nat>(Count(topics[n], t), n);
    }
  }

  lemma {:induction false} OnlyCopies<T>(n: nat, x: T)
    ensures forall y | y in Copies(n, x) :: y == x
  {
    if n > 0 {
      OnlyCopies(n - 1, x);
    }
  }

  lemma Regroup<T>(xs: seq<T>, n: nat, x: T, more: nat)
    requires more <= 1
    ensures xs + Copies(n, x) + Copies(more, x) == xs + Copies(n + more, x)
  {
    assert Copies(1, x) == Copies(0, x) + [x];
    assert more == 0 ==> xs + Copies(n, x) + [] == xs + Copies(n, x);
  }

  ghost function Entry<Topic>(table: map<Topic, seq<nat>>, t: Topic): (xs: seq<nat>) {
    if t in table then table[t] else []
  }

  /** The table holds the subscribers of every topic and has no empty entries. */
  ghost predicate TableOf<Topic(!new)>(table: map<Topic, seq<nat>>, topics: seq<seq<Topic>>) {
    && (forall t :: Entry(table, t) == Subscribers(topics, t))
    && (forall t | t in table :: table[t] != [])
  }

  /** The table after the processor at position `|before|` registered `own`. */
  ghost predicate Registered<Topic(!new)>(table: map<Topic, seq<nat>>, before: seq<seq<Topic>>, own: seq<Topic>) {
    && (forall t | t in table :: table[t] != [])
    && (forall t :: Entry(table, t) == Subscribers(before, t) + Copies<nat>(Count(own, t), |before|))
  }

  ghost predicate OneMore<Topic(!new)>(was: map<Topic, seq<nat>>, table: map<Topic, seq<nat>>, topic: Topic, p: nat) {
    && (forall t | t in table :: table[t] != [])
    && (forall t :: Entry(table, t) == Entry(was, t) + Copies<nat>(if t == topic then 1 else 0, p))
  }

  lemma RegisteredOne<Topic(!new)>(
      was: map<Topic, seq<nat>>, table: map<Topic, seq<nat>>, before: seq<seq<Topic>>, own: seq<Topic>, j: nat)
    requires j < |own| && Registered(was, before, own[..j]) && OneMore(was, table, own[j], |before|)
    ensures Registered(table, before, own[..j + 1])
  {
    assert own[..j + 1][..j] == own[..j];
    forall t ensures Entry(table, t) == Subscribers(before, t) + Copies<nat>(Count(own[..j + 1], t), |before|) {
      Regroup<nat>(Subscribers(before, t), Count(own[..j], t), |before|, if t == own[j] then 1 else 0);
    }
  }

  ghost predicate Sent<M>(channels: seq<seq<M>>, start: seq<seq<M>>, subs: seq<nat>, m: M) {
    && |channels| == |start|
    && forall s: nat | s < |channels| :: channels[s] == start[s] + Copies(Count<nat>(subs, s), m)
  }

  lemma SentOneMore<M>(channels: seq<seq<M>>, start: seq<seq<M>>, subs: seq<nat>, i: nat, m: M)
    requires i < |subs| && Sent(channels, start, subs[..i], m) && subs[i] < |channels|
    ensures Sent(channels[subs[i] := channels[subs[i]] + [m]], start, subs[..i + 1], m)
  {
    assert subs[..i + 1][..i] == subs[..i];
  }

  class NotificationManager<Topic(==, !new), M> {
    var processors: map<Topic, seq<nat>>
    var channels: seq<seq<M>>
    const queue: StreamableDeque<M>
    const topicOf: M -> Topic

    constructor (topics: seq<seq<Topic>>, queue: StreamableDeque<M>, topicOf: M -> Topic)
      ensures TableOf(processors, topics) && this.queue == queue && this.topicOf == topicOf
      ensures |channels| == |topics| && forall s | 0 <= s < |topics| :: channels[s] == []
    {
      this.queue, this.topicOf := queue, topicOf;
      var subscribers: map<Topic, seq<nat>> := map[];
      for p := 0 to |topics|
        invariant TableOf(subscribers, topics[..p])
      {
        subscribers := Register(subscribers, topics[p], p, topics[..p]);
        assert topics[..p + 1] == topics[..p] + [topics[p]];
      }
      assert topics[..|topics|] == topics;
      processors := subscribers;
      channels := seq(|topics|, _ => []);
    }

    /** The inner loop of the fold: one processor's topics. */
    static method Register(table: map<Topic, seq<nat>>, own: seq<Topic>, p: nat, ghost before: seq<seq<Topic>>)
      returns (r: map<Topic, seq<nat>>)
      requires TableOf(table, before) && p == |before|
      ensures TableOf(r, before + [own])
    {
      r := table;
      for j := 0 to |own|
        invariant Registered(r, before, own[..j])
      {
        ghost var was := r;
        r := AddSubscriber(r, own[j], p);
        RegisteredOne(was, r, before, own, j);
      }
      assert own[..|own|] == own;
      assert (before + [own])[..|before|] == before;
    }

    static method AddSubscriber(table: map<Topic, seq<nat>>, topic: Topic, p: nat) returns (r: map<Topic, seq<nat>>)
      requires forall t | t in table :: table[t] != []
      ensures OneMore(table, r, topic, p)
    {
      r := table;
      if topic !in r {
        r := r[topic := []];
      }
      r := r[topic := r[topic] + [p]];
      assert Copies<nat>(1, p) == Copies<nat>(0, p) + [p];
    }

    ghost predicate Ready(topics: seq<seq<Topic>>)
      reads this
    {
      TableOf(processors, topics) && |channels| == |topics|
    }

    /** Fan one notification out; every processor gets one copy per registration. */
    method Route(notification: M, ghost topics: seq<seq<Topic>>)
      requires Ready(topics)
      modifies this`channels
      ensures Ready(topics)
      ensures forall s | 0 <= s < |topics| ::
                channels[s] == old(channels[s]) + Copies(Count(topics[s], topicOf(notification)), notification)
    {
      var topic := topicOf(notification);
      ghost var subs := Subscribers(topics, topic);
      forall s: nat | s < |topics| ensures Count<nat>(subs, s) == Count(topics[s], topic) {
        RegistrationsCount(topics, topic, s);
      }
      SubscribersExist(topics, topic);
      if topic in processors {
        FanOut(processors[topic], notification);
      } else {
        assert subs == Entry(processors, topic);
      }
    }

    /** Clones go to all subscribers but the last, which gets the message itself. */
    method FanOut(subscribers: seq<nat>, notification: M)
      requires subscribers != [] && forall tx | tx in subscribers :: tx < |channels|
      modifies this`channels
      ensures |channels| == |old(channels)|
      ensures forall s: nat | s < |channels| ::
                channels[s] == old(channels)[s] + Copies(Count<nat>(subscribers, s), notification)
    {
      var n := |subscribers| - 1;
      var last, rest := subscribers[n], subscribers[..n];
      for i := 0 to n
        invariant Sent(channels, old(channels), subscribers[..i], notification)
      {
        assert rest[i] == subscribers[i] && subscribers[i] in subscribers;
        SentOneMore(channels, old(channels), subscribers, i, notification);
        Send(rest[i], notification);
      }
      assert last in subscribers && subscribers[..n + 1] == subscribers;
      SentOneMore(channels, old(channels), subscribers, n, notification);
      Send(last, notification);
    }

    /** The same, in terms of everything delivered since the logs were `start`. */
    method RouteLogged(notification: M, ghost topics: seq<seq<Topic>>, ghost start: seq<seq<M>>, ghost done: seq<M>)
      requires Ready(topics) && |start| == |topics|
      requires forall s | 0 <= s < |topics| :: channels[s] == start[s] + Deliveries(topics[s], done, topicOf)
      modifies this`channels
      ensures Ready(topics)
      ensures forall s | 0 <= s < |topics| ::
                channels[s] == start[s] + Deliveries(topics[s], done + [notification], topicOf)
    {
      assert (done + [notification])[..|done|] == done;
      Route(notification, topics);
    }

    static method Next(stream: StreamReceiver<M>) returns (next: Option<M>)
      requires stream.Valid()
      modifies stream, stream.queue
      ensures stream.Valid()
      ensures var q := stream.queue;
              var all := old(q.front) + old(q.back);
              if next.Some? then all == [next.value] + (q.front + q.back)
              else all == [] && q.front == [] && q.back == []
      ensures stream.queue.View() == Polled(old(stream.queue.View()), stream.task)
      ensures next.Some? <==> Head(old(stream.queue.View()).lanes).Some?
    {
      next := stream.PollNext();
    }

    method Send(tx: nat, notification: M)
      requires tx < |channels|
      modifies this`channels
      ensures channels == old(channels)[tx := old(channels)[tx] + [notification]]
    {
      channels := channels[tx := channels[tx] + [notification]];
    }

    /** An empty queue on which the routing loop waits. */
    static ghost function Waiting(q: Deque<M>): (r: Deque<M>) {
      Deque(Lanes([], []), q.notifiers + [Notifier(0, |q.flags|)], q.flags + [false], q.woken - {0})
    }

    /** The routing loop until its stream is pending: everything queued goes out,
        priority messages first, and the loop, task 0, is registered for the next. */
    method Drain(ghost topics: seq<seq<Topic>>)
      requires Ready(topics) && queue.Valid()
      modifies this`channels, queue
      ensures Ready(topics) && queue.Valid() && queue.View() == Waiting(old(queue.View()))
      ensures forall s | 0 <= s < |topics| ::
                channels[s] == old(channels[s])
                             + Deliveries(topics[s], old(queue.front) + old(queue.back), topicOf)
    {
      ghost var all, done := queue.front + queue.back, [];
      var stream := new StreamReceiver(queue, 0);
      var next := Next(stream);
      while next.Some?
        invariant Ready(topics) && stream.Valid() && stream.queue == queue && fresh(stream)
        invariant next.Some? ==> done + [next.value] + (queue.front + queue.back) == all
        invariant next.None? ==> done == all && queue.View() == Waiting(old(queue.View()))
        invariant next.Some? ==>
                    queue.View() == old(queue.View()).(lanes := queue.View().lanes, woken := old(queue.woken) - {0})
        invariant forall s | 0 <= s < |topics| ::
                    channels[s] == old(channels[s]) + Deliveries(topics[s], done, topicOf)
        decreases |queue.front| + |queue.back|, if next.Some? then 1 else 0
      {
        RouteLogged(next.value, topics, old(channels), done);
        done := done + [next.value];
        next := Next(stream);
      }
    }
  }
}
