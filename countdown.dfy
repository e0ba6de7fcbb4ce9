/** The "3, 2, 1, Go" countdown shown before a level (src/animations/CountdownAnimation.java). The
    clock is an input: each frame is given the current time in milliseconds. */
module Countdown {
  /** numOfSeconds / countFrom as a Java double. A zero count makes it an IEEE infinity, or NaN when
      numOfSeconds is zero as well. */
  datatype Period = Finite(seconds: real) | PlusInfinity | MinusInfinity | NotANumber

  function SecondsPerPrint(numOfSeconds: real, countFrom: int): (p: Period)
    ensures countFrom != 0 <==> p.Finite?
    ensures p.Finite? ==> p.seconds * (countFrom as real) == numOfSeconds
  {
    if countFrom != 0 then Finite(numOfSeconds / (countFrom as real))
    else if numOfSeconds > 0.0 then PlusInfinity
    else if numOfSeconds < 0.0 then MinusInfinity
    else NotANumber
  }

  /** elapsed >= period under IEEE comparison: nothing reaches +infinity, everything reaches
      -infinity, and every comparison with NaN is false. */
  predicate Reached(elapsedSeconds: real, p: Period)
  {
    match p
    case Finite(s) => elapsedSeconds >= s
    case PlusInfinity => false
    case MinusInfinity => true
    case NotANumber => false
  }

  /** The mutable part of the animation. */
  datatype Clock = Clock(countFrom: int, startTime: real, stop: bool)

  /** doOneFrame's update with the current time as input: when a period has passed since startTime,
      count down and restart the period; stop once the count reaches -1. */
  function Tick(c: Clock, period: Period, now: int): (c': Clock)
    ensures c'.countFrom == c.countFrom - 1 || c'.countFrom == c.countFrom
    ensures c'.countFrom == c.countFrom - 1 <==> Reached(((now as real) - c.startTime) / 1000.0, period)
    ensures c'.startTime == if c'.countFrom == c.countFrom then c.startTime else now as real
    ensures c'.stop <==> c.stop || c'.countFrom <= -1
  {
    var due := Reached(((now as real) - c.startTime) / 1000.0, period);
    var count := if due then c.countFrom - 1 else c.countFrom;
    var start := if due then now as real else c.startTime;
    Clock(count, start, c.stop || count <= -1)
  }

  /** What a frame draws: the count while it is positive, then "Go". */
  datatype Label = Number(n: int) | Go

  function LabelOf(countFrom: int): (l: Label)
    ensures l.Go? <==> countFrom <= 0
    ensures l.Number? ==> l.n == countFrom && l.n > 0
  {
    if countFrom <= 0 then Go else Number(countFrom)
  }

  /** The state after frames at the given times. */
  function RunFrames(c: Clock, period: Period, times: seq<int>): Clock
    decreases |times|
  {
    if times == [] then c else RunFrames(Tick(c, period, times[0]), period, times[1..])
  }

  /** Over any run of frames the count never rises and falls by at most one per frame, stop is never
      cleared, and a run that ends with the count at -1 or below has stopped. */
  lemma {:induction false} RunFramesProperties(c: Clock, period: Period, times: seq<int>)
    ensures c.countFrom - |times| <= RunFrames(c, period, times).countFrom <= c.countFrom
    ensures c.stop ==> RunFrames(c, period, times).stop
    ensures times != [] && RunFrames(c, period, times).countFrom <= -1 ==> RunFrames(c, period, times).stop
    decreases |times|
  {
    if times != [] {
      RunFramesProperties(Tick(c, period, times[0]), period, times[1..]);
    }
  }

  /** Each frame time is at least the given seconds after the one before it, the first one after
      the start time. */
  predicate Spaced(start: real, times: seq<int>, seconds: real)
    decreases |times|
  {
    times == [] || (((times[0] as real) - start) / 1000.0 >= seconds && Spaced(times[0] as real, times[1..], seconds))
  }

  /** Frames spaced at least a period apart each count down, so a countdown from n >= 0 has stopped
      after n + 1 such frames. */
  lemma {:induction false} SpacedFramesCountDown(c: Clock, seconds: real, times: seq<int>)
    requires Spaced(c.startTime, times, seconds)
    ensures RunFrames(c, Finite(seconds), times).countFrom == c.countFrom - |times|
    ensures c.countFrom >= 0 && |times| >= c.countFrom + 1 ==> RunFrames(c, Finite(seconds), times).stop
    decreases |times|
  {
    if times != [] {
      var c' := Tick(c, Finite(seconds), times[0]);
      SpacedFramesCountDown(c', seconds, times[1..]);
      RunFramesProperties(c', Finite(seconds), times[1..]);
    }
  }

  class CountdownAnimation {
    const numOfSecondsPerPrint: Period
    var countFrom: int
    var startTime: real
    var stop: bool

    function State(): Clock
      reads this
    {
      Clock(countFrom, startTime, stop)
    }

    /** The period is the total time split over the count; the clock starts now. */
    constructor(numOfSeconds: real, count: int, now: int)
      ensures numOfSecondsPerPrint == SecondsPerPrint(numOfSeconds, count)
      ensures State() == Clock(count, now as real, false)
    {
      countFrom := count;
      numOfSecondsPerPrint := SecondsPerPrint(numOfSeconds, count);
      startTime := now as real;
      stop := false;
    }

    /** doOneFrame: update the count and the stop flag, and report the label drawn. */
    method DoOneFrame(now: int) returns (shown: Label)
      modifies this
      ensures State() == Tick(old(State()), numOfSecondsPerPrint, now)
      ensures shown == LabelOf(countFrom)
    {
      var elapsedTime := (now as real) - startTime;
      if Reached(elapsedTime / 1000.0, numOfSecondsPerPrint) {
        countFrom := countFrom - 1;
        startTime := now as real;
      }
      if countFrom <= 0 {
        shown := Go;
      } else {
        shown := Number(countFrom);
      }
      if countFrom <= -1 {
        stop := true;
      }
    }

    /** shouldStop: the stop flag. */
    method ShouldStop() returns (s: bool)
      ensures s == stop
    {
      s := stop;
    }
  }
}
