/** The frame-rate counter: frames counted since the last report, a FIFO
    history of at most FpsHistorySize reported rates, and their mean.
    Clock readings (`Instant::now()`) are inputs, in nanoseconds of a
    monotonic clock; rates are real numbers (no floating-point rounding). */
module Fps {
  import opened Primitives

  /** FPS_UPDATE_INTERVAL, one second, in nanoseconds. */
  const FpsUpdateIntervalNs: nat := 1_000_000_000
  const FpsHistorySize: nat := 5
  const NanosPerSecond: real := 1_000_000_000.0

  /** `Instant::duration_since`: the time from `earlier` to `now`, zero when
      `earlier` is the later of the two. */
  function DurationSince(now: int, earlier: int): nat
  {
    if now >= earlier then now - earlier else 0
  }

  /** The sum of the rates, added from the first to the last. */
  function Sum(rates: seq<real>): real
  {
    if rates == [] then 0.0 else Sum(rates[..|rates| - 1]) + rates[|rates| - 1]
  }

  function Mean(rates: seq<real>): real
    requires rates != []
  {
    Sum(rates) / |rates| as real
  }

  /** The history the counter keeps after reporting `rates` in order: the most
      recent FpsHistorySize of them, oldest first. */
  function Window(rates: seq<real>): (history: seq<real>)
    ensures |history| <= FpsHistorySize && |history| <= |rates|
    ensures |history| == |rates| || |history| == FpsHistorySize
    ensures history == rates[|rates| - |history|..]
  {
    if |rates| <= FpsHistorySize then rates else rates[|rates| - FpsHistorySize..]
  }

  /** One more report slides the window: push the rate and, when the history
      would exceed FpsHistorySize, drop exactly the oldest entry. */
  lemma {:induction false} WindowSlides(rates: seq<real>, rate: real)
    ensures var pushed := Window(rates) + [rate];
      Window(rates + [rate]) == if |pushed| > FpsHistorySize then pushed[1..] else pushed
  {
    var n := |rates|;
    if n < FpsHistorySize {
      assert Window(rates) == rates;
      assert Window(rates + [rate]) == rates + [rate];
    } else {
      var recent := rates[n - (FpsHistorySize - 1)..];
      assert Window(rates) == rates[n - FpsHistorySize..];
      assert (Window(rates) + [rate])[1..] == recent + [rate];
      assert Window(rates + [rate]) == (rates + [rate])[n + 1 - FpsHistorySize..];
      assert (rates + [rate])[n + 1 - FpsHistorySize..] == recent + [rate];
    }
  }

  /** Every mean lies between a lower and an upper bound of the rates. */
  lemma {:induction false} SumBounds(rates: seq<real>, lo: real, hi: real)
    requires forall i :: 0 <= i < |rates| ==> lo <= rates[i] <= hi
    ensures |rates| as real * lo <= Sum(rates) <= |rates| as real * hi
  {
    if rates != [] {
      SumBounds(rates[..|rates| - 1], lo, hi);
    }
  }

  lemma MeanWithinBounds(rates: seq<real>, lo: real, hi: real)
    requires rates != []
    requires forall i :: 0 <= i < |rates| ==> lo <= rates[i] <= hi
    ensures lo <= Mean(rates) <= hi
  {
    SumBounds(rates, lo, hi);
  }

  /** `frame_count as f64 / elapsed.as_secs_f64()` for an interval of `ns`
      nanoseconds: frames per second, so that the rate times the interval
      gives back the frames. */
  function RatePerSecond(frames: nat, ns: nat): (rate: real)
    requires ns > 0
    ensures rate * ns as real == frames as real * NanosPerSecond
    ensures frames > 0 ==> rate > 0.0
    ensures frames == 0 ==> rate == 0.0
  {
    var seconds := ns as real / NanosPerSecond;
    assert seconds * NanosPerSecond == ns as real;
    var rate := frames as real / seconds;
    assert rate * seconds == frames as real;
    assert rate * ns as real == rate * seconds * NanosPerSecond;
    rate
  }

  /** `1000.0 / current_fps`: the mean time per frame, in milliseconds. */
  function FrameTimeMs(rate: real): (ms: real)
    requires rate != 0.0
    ensures ms * rate == 1000.0
  {
    1000.0 / rate
  }

  /** The frame time `update` reports: `1000.0 / current_fps`, with zero
      standing for the infinity of an interval with no frames. */
  function ReportedFrameTime(rate: real): real
  {
    if rate != 0.0 then FrameTimeMs(rate) else 0.0
  }

  /** `fps_history.iter().sum()`. */
  method SumOf(rates: seq<real>) returns (total: real)
    ensures total == Sum(rates)
  {
    total := 0.0;
    var i := 0;
    while i < |rates|
      invariant i <= |rates|
      invariant total == Sum(rates[..i])
    {
      assert rates[..i + 1][..i] == rates[..i];
      total := total + rates[i];
      i := i + 1;
    }
    assert rates[..i] == rates;
  }

  /** `rates.iter().sum::<f64>() / rates.len() as f64`. */
  method MeanOf(rates: seq<real>) returns (mean: real)
    requires rates != []
    ensures mean == Mean(rates)
  {
    var total := SumOf(rates);
    mean := total / |rates| as real;
  }

  class FpsCounter {
    var frameCount: u32
    var lastUpdate: int
    var fpsHistory: seq<real>
    var avgFps: real
    /** Every rate reported so far, oldest first. */
    ghost var rates: seq<real>

    /** The history is the sliding window over all reported rates (so it never
        holds more than FpsHistorySize entries) and the average is its mean. */
    ghost predicate Valid()
      reads this`fpsHistory, this`avgFps, this`rates
    {
      fpsHistory == Window(rates) &&
      |fpsHistory| <= FpsHistorySize &&
      avgFps == if fpsHistory == [] then 0.0 else Mean(fpsHistory)
    }

    constructor (now: int)
      ensures Valid()
      ensures frameCount == 0 && lastUpdate == now
      ensures fpsHistory == [] && avgFps == 0.0 && rates == []
    {
      frameCount := 0;
      lastUpdate := now;
      fpsHistory := [];
      avgFps := 0.0;
      rates := [];
    }

    /** `frame_count += 1` on a u32, wrapping at 2^32. */
    method Increment()
      modifies this`frameCount
      ensures old(frameCount) as int + 1 < TwoTo32 ==> frameCount as int == old(frameCount) as int + 1
      ensures old(frameCount) as int + 1 == TwoTo32 ==> frameCount == 0
    {
      frameCount := ((frameCount as int + 1) % TwoTo32) as u32;
    }

    /** A report is due once a full interval has passed since the last one. */
    function ShouldUpdate(now: int): (due: bool)
      reads this`lastUpdate
      ensures due <==> now - lastUpdate >= FpsUpdateIntervalNs
    {
      DurationSince(now, lastUpdate) >= FpsUpdateIntervalNs
    }

    /** Reports the rate over the interval that ends at `now`, slides it into
        the history, recomputes the mean, and starts a new interval. Returns
        (rate, mean of the history, frame time in milliseconds). An interval
        with no frames reports a rate of zero; its frame time, an f64 infinity
        in the source, is left unspecified (zero here). */
    method Update(now: int) returns (currentFps: real, avg: real, frameTime: real)
      requires Valid()
      requires now > lastUpdate
      modifies this`frameCount, this`lastUpdate, this`fpsHistory, this`avgFps, this`rates
      ensures Valid()
      ensures currentFps == RatePerSecond(old(frameCount) as nat, now - old(lastUpdate))
      ensures rates == old(rates) + [currentFps]
      ensures var pushed := old(fpsHistory) + [currentFps];
        fpsHistory == if |pushed| > FpsHistorySize then pushed[1..] else pushed
      ensures fpsHistory != [] && fpsHistory[|fpsHistory| - 1] == currentFps
      ensures avg == avgFps == Mean(fpsHistory)
      ensures currentFps != 0.0 ==> frameTime == FrameTimeMs(currentFps)
      ensures frameCount == 0 && lastUpdate == now
    {
      currentFps := RatePerSecond(frameCount as nat, DurationSince(now, lastUpdate));
      PushRate(currentFps);
      frameTime := ReportedFrameTime(currentFps);
      frameCount := 0;
      lastUpdate := now;
      avg := avgFps;
    }

    /** The history and average bookkeeping of Update: push the rate, evict
        the oldest entry on overflow, and recompute the mean. */
    method PushRate(rate: real)
      requires Valid()
      modifies this`fpsHistory, this`avgFps, this`rates
      ensures Valid()
      ensures rates == old(rates) + [rate]
      ensures var pushed := old(fpsHistory) + [rate];
        fpsHistory == if |pushed| > FpsHistorySize then pushed[1..] else pushed
      ensures fpsHistory != [] && fpsHistory[|fpsHistory| - 1] == rate
      ensures avgFps == Mean(fpsHistory)
    {
      fpsHistory := fpsHistory + [rate];
      if |fpsHistory| > FpsHistorySize {
        fpsHistory := fpsHistory[1..];
      }
      avgFps := MeanOf(fpsHistory);
      WindowSlides(rates, rate);
      rates := rates + [rate];
    }
  }
}
