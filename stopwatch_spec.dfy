/**
 * The stopwatch of src/Stopwatch.ts as a pure state machine over its three
 * private fields. The wall clock is not read here: every operation that reads
 * it takes the reading as a parameter `now`, in milliseconds since the epoch.
 */
module StopwatchSpec {
  import opened Wrappers

  /** A duration, kept only as its total number of milliseconds. */
  datatype TimeSpan = TimeSpan(totalMilliseconds: int)

  /** The duration of length zero. */
  const Zero: TimeSpan := TimeSpan(0)

  /**
   * The fields `_startTimeStamp`, `_elapsed` and `_isRunning`. `None` stands
   * for the NaN stored before the first start and after a reset.
   */
  datatype State = State(startTimeStamp: Option<int>, elapsed: int, isRunning: bool)

  /** The start stamp is a number whenever the stopwatch runs. */
  predicate Valid(s: State) {
    s.isRunning ==> s.startTimeStamp.Some?
  }

  /** The fields of a new stopwatch: stopped, with nothing elapsed. */
  function Initial(): (s: State)
    ensures Valid(s) && !s.isRunning
    ensures forall now :: ElapsedMilliseconds(s, now) == 0
  {
    State(None, 0, false)
  }

  /** Milliseconds of the lap in progress; zero when stopped. */
  function CurrentLapMilliseconds(s: State, now: int): int
    requires Valid(s)
  {
    if s.isRunning then now - s.startTimeStamp.value else 0
  }

  /** Milliseconds of every finished lap plus the lap in progress. */
  function ElapsedMilliseconds(s: State, now: int): int
    requires Valid(s)
  {
    if s.isRunning then s.elapsed + CurrentLapMilliseconds(s, now) else s.elapsed
  }

  /** Starts (or resumes) a stopped stopwatch; a running one is left alone. */
  function Start(s: State, now: int): (r: State)
    requires Valid(s)
    ensures Valid(r) && r.isRunning
    ensures r.elapsed == s.elapsed
    ensures ElapsedMilliseconds(r, now) == ElapsedMilliseconds(s, now)
    ensures !s.isRunning ==> CurrentLapMilliseconds(r, now) == 0
    ensures s.isRunning ==> r == s
  {
    if s.isRunning then s else s.(startTimeStamp := Some(now), isRunning := true)
  }

  /**
   * Folds the lap in progress into the accumulated time and stops; a stopped
   * stopwatch is left alone. The start stamp is kept as it was.
   */
  function Stop(s: State, now: int): (r: State)
    requires Valid(s)
    ensures Valid(r) && !r.isRunning
    ensures ElapsedMilliseconds(r, now) == ElapsedMilliseconds(s, now)
    ensures forall later :: ElapsedMilliseconds(r, later) == r.elapsed
    ensures r.startTimeStamp == s.startTimeStamp
    ensures !s.isRunning ==> r == s
  {
    if s.isRunning then
      s.(elapsed := s.elapsed + CurrentLapMilliseconds(s, now), isRunning := false)
    else
      s
  }

  /** Clears the accumulated time and stops, whatever the state before. */
  function Reset(s: State): (r: State)
    ensures r == Initial()
  {
    s.(elapsed := 0, isRunning := false, startTimeStamp := None)
  }

  /**
   * Ends the lap in progress and begins the next one at `now`, returning the
   * length of the lap just ended; a stopped stopwatch is left alone and the
   * result is zero.
   */
  function Lap(s: State, now: int): (r: (State, TimeSpan))
    requires Valid(s)
    ensures Valid(r.0) && r.0.isRunning == s.isRunning
    ensures r.1.totalMilliseconds == CurrentLapMilliseconds(s, now)
    ensures r.0.elapsed == s.elapsed + r.1.totalMilliseconds
    ensures ElapsedMilliseconds(r.0, now) == ElapsedMilliseconds(s, now)
    ensures CurrentLapMilliseconds(r.0, now) == 0
    ensures !s.isRunning ==> r == (s, Zero)
  {
    if s.isRunning then
      var e := now - s.startTimeStamp.value;
      (s.(startTimeStamp := Some(now), elapsed := s.elapsed + e), TimeSpan(e))
    else
      (s, Zero)
  }

  // ---------------------------------------------------------------------
  // Properties of single operations

  /** A second start has no effect. */
  lemma StartIsIdempotent(s: State, first: int, second: int)
    requires Valid(s)
    ensures Start(Start(s, first), second) == Start(s, first)
  {
  }

  /** A second stop has no effect. */
  lemma StopIsIdempotent(s: State, first: int, second: int)
    requires Valid(s)
    ensures Stop(Stop(s, first), second) == Stop(s, first)
  {
  }

  /**
   * With the clock moving forward, elapsed time grows with it while the
   * stopwatch runs (strictly, once the clock has moved) and stays put while
   * it is stopped.
   */
  lemma ElapsedFollowsClock(s: State, earlier: int, later: int)
    requires Valid(s) && earlier <= later
    ensures ElapsedMilliseconds(s, earlier) <= ElapsedMilliseconds(s, later)
    ensures s.isRunning ==> ElapsedMilliseconds(s, later) - ElapsedMilliseconds(s, earlier) == later - earlier
    ensures !s.isRunning ==> ElapsedMilliseconds(s, later) == ElapsedMilliseconds(s, earlier)
  {
  }

  /**
   * Splitting a lap in two loses and double-counts nothing: the two parts add
   * up to the lap taken once at the end, and the state afterwards is the same.
   */
  lemma LapSplitsWithoutLoss(s: State, middle: int, end: int)
    requires Valid(s)
    ensures Lap(s, middle).1.totalMilliseconds + Lap(Lap(s, middle).0, end).1.totalMilliseconds
         == Lap(s, end).1.totalMilliseconds
    ensures Lap(Lap(s, middle).0, end).0 == Lap(s, end).0
  {
  }
}
