/** The queue as two first-in-first-out lanes, over every run. */
module QueueOrder {
  import opened StreamQueue
  import opened QueueRuns

  /** Everything pushed to and taken from each lane so far. */
  datatype Log<T> = Log(inFront: seq<T>, inBack: seq<T>, outFront: seq<T>, outBack: seq<T>)

  ghost predicate Matches<T>(log: Log<T>, l: Lanes<T>) {
    log.outFront + l.front == log.inFront && log.outBack + l.back == log.inBack
  }

  /** A pop or a poll, as the receiver sees it: an item counts for the lane it was
      pushed to. */
  ghost function Logged<T>(log: Log<T>, l: Lanes<T>, st: Step<T>): (next: Log<T>) {
    match st
    case PushFront(x) => log.(inFront := log.inFront + [x])
    case PushBack(x) => log.(inBack := log.inBack + [x])
    case Open(_) => log
    case Drop(_) => log
    case _ =>
      if Head(l).None? then log
      else if l.front != [] then log.(outFront := log.outFront + [Head(l).value])
      else log.(outBack := log.outBack + [Head(l).value])
  }

  ghost function RunLog<T>(s: System<T>, log: Log<T>, steps: seq<Step<T>>): (next: Log<T>)
    requires Sound(s) && PossibleRun(s, steps)
    decreases |steps|
  {
    if steps == [] then log else
      (StaysSound(s, steps[0]); RunLog(Applied(s, steps[0]), Logged(log, s.q.lanes, steps[0]), steps[1..]))
  }

  lemma StepMatches<T>(s: System<T>, log: Log<T>, st: Step<T>)
    requires Sound(s) && Possible(s, st) && Matches(log, s.q.lanes)
    ensures Matches(Logged(log, s.q.lanes, st), Applied(s, st).q.lanes)
    ensures Logged(log, s.q.lanes, st).outBack != log.outBack ==> log.outFront == log.inFront
  {
    var l := s.q.lanes;
    assert l.front != [] ==> log.outFront + l.front == log.outFront + [l.front[0]] + l.front[1..];
    assert l.back != [] ==> log.outBack + l.back == log.outBack + [l.back[0]] + l.back[1..];
  }

  /** In every run, what was taken from a lane followed by what is still in it is
      what was pushed to it. */
  lemma {:induction false} LanesAreFifo<T>(s: System<T>, log: Log<T>, steps: seq<Step<T>>)
    requires Sound(s) && PossibleRun(s, steps) && Matches(log, s.q.lanes)
    ensures Matches(RunLog(s, log, steps), Run(s, steps).q.lanes)
    decreases |steps|
  {
    if steps != [] {
      StepMatches(s, log, steps[0]);
      StaysSound(s, steps[0]);
      LanesAreFifo(Applied(s, steps[0]), Logged(log, s.q.lanes, steps[0]), steps[1..]);
    }
  }

  /** After any run, a normal item is handed over only when every priority item
      pushed so far has been. */
  lemma PriorityFirst<T>(steps: seq<Step<T>>, st: Step<T>)
    requires PossibleRun(Fresh<T>(), steps)
    requires Sound(Run(Fresh<T>(), steps)) && Possible(Run(Fresh<T>(), steps), st)
    ensures var s, log := Run(Fresh<T>(), steps), RunLog(Fresh<T>(), Log([], [], [], []), steps);
            Logged(log, s.q.lanes, st).outBack != log.outBack ==> log.outFront == log.inFront
  {
    LanesAreFifo(Fresh<T>(), Log([], [], [], []), steps);
    StepMatches(Run(Fresh<T>(), steps), RunLog(Fresh<T>(), Log([], [], [], []), steps), st);
  }

  ghost function Drained<T>(l: Lanes<T>): (xs: seq<T>)
    decreases |l.front| + |l.back|
  {
    if Head(l).None? then [] else [Head(l).value] + Drained(Popped(l))
  }

  /** Taking everything, with no pushes in between, gives the priority lane and then
      the normal one. */
  lemma {:induction false} DrainOrder<T>(l: Lanes<T>)
    ensures Drained(l) == l.front + l.back
    decreases |l.front| + |l.back|
  {
    if Head(l).Some? {
      DrainOrder(Popped(l));
      assert l.front != [] ==> l.front == [l.front[0]] + l.front[1..];
      assert l.front == [] ==> l.back == [l.back[0]] + l.back[1..];
    }
  }
}
