/**
 * Sequences of operations on a stopwatch, each with the clock reading it
 * sees, and what they do to the elapsed time.
 */
module StopwatchTraces {
  import opened StopwatchSpec

  datatype Op = StartOp | StopOp | LapOp | ResetOp

  /** One call of an operation, with the clock reading taken during it. */
  datatype Event = Event(op: Op, now: int)

  /** The state after one event. */
  function Apply(s: State, e: Event): (r: State)
    requires Valid(s)
    ensures Valid(r)
  {
    match e.op
    case StartOp => Start(s, e.now)
    case StopOp => Stop(s, e.now)
    case LapOp => Lap(s, e.now).0
    case ResetOp => Reset(s)
  }

  /** The state after the events, in order. */
  function Run(s: State, events: seq<Event>): (r: State)
    requires Valid(s)
    ensures Valid(r)
    decreases |events|
  {
    if events == [] then s else Run(Apply(s, events[0]), events[1..])
  }

  /**
   * The clock never goes back: it reads `t0` first, then the reading of each
   * event in turn, and `t` last.
   */
  predicate Ordered(t0: int, events: seq<Event>, t: int)
    decreases |events|
  {
    if events == [] then t0 <= t else t0 <= events[0].now && Ordered(events[0].now, events[1..], t)
  }

  predicate ResetFree(events: seq<Event>) {
    forall i :: 0 <= i < |events| ==> events[i].op != ResetOp
  }

  /** Whether the stopwatch runs after an operation, given whether it ran before. */
  function RunsAfter(running: bool, op: Op): bool {
    match op
    case StartOp => true
    case StopOp => false
    case LapOp => running
    case ResetOp => false
  }

  /**
   * Reference definition of elapsed time, from the history rather than the
   * accumulator: the summed length of the intervals between successive clock
   * readings (from `since`, through each event, to `t`) during which the
   * stopwatch runs.
   */
  function RunningTime(running: bool, since: int, events: seq<Event>, t: int): int
    decreases |events|
  {
    if events == [] then
      (if running then t - since else 0)
    else
      (if running then events[0].now - since else 0)
      + RunningTime(RunsAfter(running, events[0].op), events[0].now, events[1..], t)
  }

  /** The fields make sense for a clock reading `t`. */
  predicate Sane(s: State, t: int) {
    Valid(s) && s.elapsed >= 0 && (s.isRunning ==> s.startTimeStamp.value <= t)
  }

  /**
   * Folding laps into the accumulator loses no time: for a trace without a
   * reset, the elapsed time afterwards is the elapsed time before plus the
   * running time in between. Holds for any clock, ordered or not.
   */
  lemma {:induction false} ElapsedIsRunningTime(s: State, t0: int, events: seq<Event>, t: int)
    requires Valid(s) && ResetFree(events)
    ensures ElapsedMilliseconds(Run(s, events), t)
         == ElapsedMilliseconds(s, t0) + RunningTime(s.isRunning, t0, events, t)
    decreases |events|
  {
    if events != [] {
      var e := events[0];
      var next := Apply(s, e);
      assert next.isRunning == RunsAfter(s.isRunning, e.op);
      assert ElapsedMilliseconds(next, e.now)
          == ElapsedMilliseconds(s, t0) + (if s.isRunning then e.now - t0 else 0);
      ElapsedIsRunningTime(next, e.now, events[1..], t);
    }
  }

  lemma {:induction false} RunningTimeNonNegative(running: bool, since: int, events: seq<Event>, t: int)
    requires Ordered(since, events, t)
    ensures RunningTime(running, since, events, t) >= 0
    decreases |events|
  {
    if events != [] {
      RunningTimeNonNegative(RunsAfter(running, events[0].op), events[0].now, events[1..], t);
    }
  }

  /**
   * Elapsed time is cumulative: under a clock that never goes back, no
   * sequence of starts, stops and laps lowers it, so only a reset can.
   */
  lemma ElapsedNeverDecreases(s: State, t0: int, events: seq<Event>, t: int)
    requires Valid(s) && ResetFree(events) && Ordered(t0, events, t)
    ensures ElapsedMilliseconds(s, t0) <= ElapsedMilliseconds(Run(s, events), t)
  {
    ElapsedIsRunningTime(s, t0, events, t);
    RunningTimeNonNegative(s.isRunning, t0, events, t);
  }

  /**
   * Under a clock that never goes back, every operation, resets included,
   * keeps the accumulated time non-negative and the start stamp in the past;
   * so the elapsed time is never negative.
   */
  lemma {:induction false} RunStaysSane(s: State, t0: int, events: seq<Event>, t: int)
    requires Sane(s, t0) && Ordered(t0, events, t)
    ensures Sane(Run(s, events), t)
    ensures ElapsedMilliseconds(Run(s, events), t) >= 0
    decreases |events|
  {
    if events != [] {
      RunStaysSane(Apply(s, events[0]), events[0].now, events[1..], t);
    }
  }

  /** Under a clock that has not gone back since the lap began, a lap is never negative. */
  lemma LapNonNegative(s: State, t: int, now: int)
    requires Sane(s, t) && t <= now
    ensures Lap(s, now).1.totalMilliseconds >= 0
  {
  }

  lemma {:induction false} RunAppend(s: State, first: seq<Event>, second: seq<Event>)
    requires Valid(s)
    ensures Run(s, first + second) == Run(Run(s, first), second)
    decreases |first|
  {
    if first == [] {
      assert first + second == second;
    } else {
      assert (first + second)[0] == first[0];
      assert (first + second)[1..] == first[1..] + second;
      RunAppend(Apply(s, first[0]), first[1..], second);
    }
  }

  /**
   * A reset forgets everything before it: what follows a reset behaves as
   * on a new stopwatch.
   */
  lemma ResetForgetsHistory(s: State, before: seq<Event>, now: int, after: seq<Event>)
    requires Valid(s)
    ensures Run(s, before + [Event(ResetOp, now)] + after) == Run(Initial(), after)
  {
    RunAppend(s, before + [Event(ResetOp, now)], after);
    RunAppend(s, before, [Event(ResetOp, now)]);
  }

  /**
   * Two start/stop cycles on a new stopwatch add up both running stretches,
   * so the second stop shows more than the first once the clock has moved.
   */
  lemma TwoCyclesAccumulate(t1: int, t2: int, t3: int, t4: int)
    ensures ElapsedMilliseconds(Run(Initial(), [Event(StartOp, t1), Event(StopOp, t2)]), t2) == t2 - t1
    ensures ElapsedMilliseconds(Run(Initial(), [Event(StartOp, t1), Event(StopOp, t2), Event(StartOp, t3), Event(StopOp, t4)]), t4)
         == (t2 - t1) + (t4 - t3)
  {
    var first := [Event(StartOp, t1), Event(StopOp, t2)];
    var second := [Event(StartOp, t3), Event(StopOp, t4)];
    assert ResetFree(first) && ResetFree(second);
    assert first[1..] == [Event(StopOp, t2)] && second[1..] == [Event(StopOp, t4)];
    assert RunningTime(true, t1, first[1..], t2) == t2 - t1;
    assert RunningTime(false, t1, first, t2) == t2 - t1;
    ElapsedIsRunningTime(Initial(), t1, first, t2);
    var stopped := Run(Initial(), first);
    assert stopped == Run(Apply(Initial(), first[0]), first[1..]);
    assert !stopped.isRunning;
    assert RunningTime(true, t3, second[1..], t4) == t4 - t3;
    assert RunningTime(false, t2, second, t4) == t4 - t3;
    ElapsedIsRunningTime(stopped, t2, second, t4);
    RunAppend(Initial(), first, second);
    assert first + second == [Event(StartOp, t1), Event(StopOp, t2), Event(StartOp, t3), Event(StopOp, t4)];
    assert Run(Initial(), first + second) == Run(stopped, second);
  }
}
