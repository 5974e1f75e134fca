/**
 * The Stopwatch class of src/Stopwatch.ts: three private fields updated in
 * place by start, stop, reset and lap, with getters that read them. Each
 * getter and mutator is proved to agree with the state machine in
 * StopwatchSpec, so the properties proved there and in StopwatchTraces hold
 * of the class.
 */
module Stopwatch {
  import opened Wrappers
  import S = StopwatchSpec

  /**
   * How the closure given to `Measure` ended: it returned and the clock then
   * read `clockAfter`, or it threw and the clock was not read again.
   */
  datatype Completion = Returned(clockAfter: int) | Threw

  class Stopwatch {
    /** `_startTimeStamp`: where the lap in progress began; `None` for NaN. */
    var startTimeStamp: Option<int>
    /** `_elapsed`: the milliseconds of every finished lap since the last reset. */
    var elapsed: int
    /** `_isRunning`, also read directly by the `isRunning` getter. */
    var isRunning: bool

    /** The fields as a state of the state machine. */
    function Model(): S.State
      reads this
    {
      S.State(startTimeStamp, elapsed, isRunning)
    }

    ghost predicate Valid()
      reads this
    {
      S.Valid(Model())
    }

    /** A new stopwatch is stopped and shows no elapsed time. */
    constructor ()
      ensures Valid() && Model() == S.Initial()
      ensures !isRunning && forall now :: ElapsedMilliseconds(now) == 0
    {
      startTimeStamp := None;
      elapsed := 0;
      isRunning := false;
    }

    function CurrentLapMilliseconds(now: int): (r: int)
      reads this
      requires Valid()
      ensures r == S.CurrentLapMilliseconds(Model(), now)
    {
      if isRunning then now - startTimeStamp.value else 0
    }

    /** The lap in progress as a duration; the zero duration when stopped. */
    function CurrentLap(now: int): (r: S.TimeSpan)
      reads this
      requires Valid()
      ensures r.totalMilliseconds == S.CurrentLapMilliseconds(Model(), now)
    {
      if isRunning then S.TimeSpan(CurrentLapMilliseconds(now)) else S.Zero
    }

    function ElapsedMilliseconds(now: int): (r: int)
      reads this
      requires Valid()
      ensures r == S.ElapsedMilliseconds(Model(), now)
    {
      var timeElapsed := elapsed;
      if isRunning then timeElapsed + CurrentLapMilliseconds(now) else timeElapsed
    }

    /** The elapsed time as a duration: the finished laps plus the lap in progress. */
    function Elapsed(now: int): (r: S.TimeSpan)
      reads this
      requires Valid()
      ensures r.totalMilliseconds == elapsed + CurrentLap(now).totalMilliseconds
    {
      S.TimeSpan(ElapsedMilliseconds(now))
    }

    /** Starts, or resumes after a stop without reset; no effect when running. */
    method Start(now: int)
      requires Valid()
      modifies this
      ensures Valid() && Model() == S.Start(old(Model()), now)
      ensures isRunning && elapsed == old(elapsed)
      ensures old(isRunning) ==> startTimeStamp == old(startTimeStamp)
      ensures !old(isRunning) ==> startTimeStamp == Some(now)
    {
      if !isRunning {
        startTimeStamp := Some(now);
        isRunning := true;
      }
    }

    /** Stops, folding the lap in progress into the elapsed time; no effect when stopped. */
    method Stop(now: int)
      requires Valid()
      modifies this
      ensures Valid() && Model() == S.Stop(old(Model()), now)
      ensures !isRunning && startTimeStamp == old(startTimeStamp)
      ensures elapsed == old(elapsed) + (if old(isRunning) then now - old(startTimeStamp).value else 0)
    {
      if isRunning {
        elapsed := elapsed + CurrentLapMilliseconds(now);
        isRunning := false;
      }
    }

    /** Back to the state of a new stopwatch, even when running. */
    method Reset()
      modifies this
      ensures Valid() && Model() == S.Reset(old(Model()))
      ensures !isRunning && elapsed == 0 && startTimeStamp == None
    {
      elapsed := 0;
      isRunning := false;
      startTimeStamp := None;
    }

    /**
     * Ends the lap in progress at `now` and starts the next one, returning
     * the length of the lap just ended; when stopped returns zero and changes
     * nothing.
     */
    method Lap(now: int) returns (lap: S.TimeSpan)
      requires Valid()
      modifies this
      ensures Valid() && (Model(), lap) == S.Lap(old(Model()), now)
      ensures isRunning == old(isRunning)
      ensures old(isRunning) ==>
        && lap.totalMilliseconds == now - old(startTimeStamp).value
        && startTimeStamp == Some(now)
        && elapsed == old(elapsed) + lap.totalMilliseconds
      ensures !old(isRunning) ==> lap == S.Zero && unchanged(this)
    {
      if isRunning {
        var t := now;
        var s := startTimeStamp.value;
        var e := t - s;
        startTimeStamp := Some(t);
        elapsed := elapsed + e;
        lap := S.TimeSpan(e);
      } else {
        lap := S.Zero;
      }
    }

    /** A new stopwatch, already started at `now`. */
    static method StartNew(now: int) returns (sw: Stopwatch)
      ensures fresh(sw) && sw.Valid()
      ensures sw.Model() == S.Start(S.Initial(), now)
      ensures sw.isRunning && sw.elapsed == 0 && sw.startTimeStamp == Some(now)
    {
      sw := new Stopwatch();
      sw.Start(now);
    }

    /**
     * The time a closure took: the clock is read before it runs and again
     * once it returns. A closure that throws yields no duration.
     */
    static function Measure(clockBefore: int, closure: Completion): (r: Option<S.TimeSpan>)
      ensures r.Some? <==> closure.Returned?
      ensures closure.Returned? ==> clockBefore + r.value.totalMilliseconds == closure.clockAfter
      ensures closure.Returned? && clockBefore <= closure.clockAfter ==> r.value.totalMilliseconds >= 0
    {
      match closure
      case Returned(clockAfter) => Some(S.TimeSpan(clockAfter - clockBefore))
      case Threw => None
    }
  }

  // ---------------------------------------------------------------------
  // Scenarios of the test suite, over the class

  /** A new stopwatch is stopped and shows zero at any clock reading. */
  method FreshIsStoppedAtZero(now: int) returns (running: bool, elapsedMs: int, lapMs: int)
    ensures !running && elapsedMs == 0 && lapMs == 0
  {
    var sw := new Stopwatch();
    running := sw.isRunning;
    elapsedMs := sw.ElapsedMilliseconds(now);
    lapMs := sw.CurrentLapMilliseconds(now);
  }

  /** Two start/stop cycles: the second stop shows more than the first. */
  method CyclesAccumulate(t1: int, t2: int, t3: int, t4: int) returns (first: int, second: int)
    requires t1 <= t2 <= t3 < t4
    ensures first == t2 - t1
    ensures second == first + (t4 - t3) && first < second
  {
    var sw := new Stopwatch();
    sw.Start(t1);
    sw.Stop(t2);
    first := sw.ElapsedMilliseconds(t2);
    sw.Start(t3);
    sw.Stop(t4);
    second := sw.ElapsedMilliseconds(t4);
  }

  /** A reset while running stops the stopwatch and clears it. */
  method ResetWhileRunning(started: int, later: int) returns (running: bool, elapsedMs: int)
    ensures !running && elapsedMs == 0
  {
    var sw := new Stopwatch();
    sw.Start(started);
    sw.Reset();
    running := sw.isRunning;
    elapsedMs := sw.ElapsedMilliseconds(later);
  }

  /**
   * A lap while running returns the time since the start and keeps running;
   * a lap on a stopwatch never started returns zero and leaves it stopped.
   */
  method LapScenarios(started: int, lapAt: int) returns (lapRunning: int, stillRunning: bool, lapStopped: int, stillStopped: bool)
    requires started <= lapAt
    ensures lapRunning == lapAt - started && lapRunning >= 0 && stillRunning
    ensures lapStopped == 0 && stillStopped
  {
    var sw := Stopwatch.StartNew(started);
    var lap := sw.Lap(lapAt);
    lapRunning := lap.totalMilliseconds;
    stillRunning := sw.isRunning;
    var idle := new Stopwatch();
    lap := idle.Lap(lapAt);
    lapStopped := lap.totalMilliseconds;
    stillStopped := !idle.isRunning;
  }
}
