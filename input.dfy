/** The input handler: a frame-skip counter and six key checks. A key check
    reads the state that GetAsyncKeyState reports for one virtual key; that
    state is an input here (a `KeyStates` function from key code to the
    16-bit value the call returns at that moment, as the bit pattern that
    the source's `as u16` cast exposes). */
module Input {
  import opened Primitives

  /** Process one frame out of every FrameSkip. */
  const FrameSkip: u32 := 1

  newtype VirtualKey = x: int | 0 <= x < 0x100

  const VkToggle: VirtualKey := 0x4C        // 'L'
  const VkAim: VirtualKey := 0x01           // left mouse button
  const VkIncreaseSpeed: VirtualKey := 0xBB // '+'
  const VkDecreaseSpeed: VirtualKey := 0xBD // '-'
  const VkFpsToggle: VirtualKey := 0x46     // 'F'
  const VkRcsToggle: VirtualKey := 0x52     // 'R'

  /** What GetAsyncKeyState answers for each virtual key at the moment of a check. */
  type KeyStates = VirtualKey -> bv16

  /** The source's test `(state as u16 & 0x8000) != 0`: bit 15 is the most
      significant bit, which makes the SHORT that GetAsyncKeyState returns
      negative; that is how the call reports a key that is down. */
  function KeyDown(state: bv16): (down: bool)
    ensures down <==> state as int >= 0x8000
    ensures down <==> AsI16(state) < 0
  {
    MaskTestsTopBit(state);
    TopBitAsInt(state);
    state & 0x8000 != 0
  }

  lemma MaskTestsTopBit(bits: bv16)
    ensures bits & 0x8000 != 0 <==> bits >= 0x8000
  {
  }

  lemma TopBitAsInt(bits: bv16)
    ensures bits >= 0x8000 <==> bits as int >= 0x8000
  {
  }

  /** The counter value after one more call, for a skip period `period`. */
  function NextSkipCounter(counter: nat, period: nat): (next: nat)
    requires 0 < period
    ensures next < period
    ensures counter + 1 < period ==> next == counter + 1
    ensures counter + 1 == period ==> next == 0
  {
    (counter + 1) % period
  }

  /** The counter after `calls` calls starting from a fresh handler. */
  function CounterAfter(calls: nat, period: nat): nat
    requires 0 < period
  {
    if calls == 0 then 0 else NextSkipCounter(CounterAfter(calls - 1, period), period)
  }

  /** Within each run of `period` calls the counter climbs 0, 1, ..., period - 1. */
  lemma {:induction false} CounterAfterPeriodic(rounds: nat, offset: nat, period: nat)
    requires offset < period
    ensures CounterAfter(rounds * period + offset, period) == offset
    decreases rounds, offset
  {
    if offset > 0 {
      CounterAfterPeriodic(rounds, offset - 1, period);
    } else if rounds > 0 {
      CounterAfterPeriodic(rounds - 1, period - 1, period);
      assert (rounds - 1) * period + (period - 1) == rounds * period - 1;
    }
  }

  /** After `calls` calls from a fresh handler the counter is `calls % period`,
      so call number `calls` (counting from one) processes its frame exactly
      when `calls` is a multiple of the period: one frame in every `period`. */
  lemma ProcessesEveryPeriodthFrame(calls: nat, period: nat)
    requires 0 < period
    ensures CounterAfter(calls, period) == calls % period
    ensures CounterAfter(calls, period) == 0 <==> calls % period == 0
  {
    var rounds, offset := calls / period, calls % period;
    assert calls == rounds * period + offset;
    CounterAfterPeriodic(rounds, offset, period);
  }

  class InputHandler {
    var frameSkipCounter: u32
    /** Number of ShouldSkipFrame calls so far. */
    ghost var calls: nat

    ghost predicate Valid()
      reads this
    {
      frameSkipCounter < FrameSkip &&
      frameSkipCounter as int == CounterAfter(calls, FrameSkip as int)
    }

    constructor ()
      ensures Valid() && frameSkipCounter == 0 && calls == 0
    {
      frameSkipCounter := 0;
      calls := 0;
    }

    function IsTogglePressed(keys: KeyStates): (pressed: bool)
      ensures pressed <==> AsI16(keys(VkToggle)) < 0
    {
      KeyDown(keys(VkToggle))
    }

    function IsAimKeyPressed(keys: KeyStates): (pressed: bool)
      ensures pressed <==> AsI16(keys(VkAim)) < 0
    {
      KeyDown(keys(VkAim))
    }

    function IsIncreaseSpeedPressed(keys: KeyStates): (pressed: bool)
      ensures pressed <==> AsI16(keys(VkIncreaseSpeed)) < 0
    {
      KeyDown(keys(VkIncreaseSpeed))
    }

    function IsDecreaseSpeedPressed(keys: KeyStates): (pressed: bool)
      ensures pressed <==> AsI16(keys(VkDecreaseSpeed)) < 0
    {
      KeyDown(keys(VkDecreaseSpeed))
    }

    function IsFpsTogglePressed(keys: KeyStates): (pressed: bool)
      ensures pressed <==> AsI16(keys(VkFpsToggle)) < 0
    {
      KeyDown(keys(VkFpsToggle))
    }

    function IsRcsTogglePressed(keys: KeyStates): (pressed: bool)
      ensures pressed <==> AsI16(keys(VkRcsToggle)) < 0
    {
      KeyDown(keys(VkRcsToggle))
    }

    /** Advances the counter modulo FrameSkip; the frame is skipped unless the
        counter wrapped to zero. Valid() keeps the counter below FrameSkip, so
        the u32 increment cannot overflow. */
    method ShouldSkipFrame() returns (skip: bool)
      requires Valid()
      modifies this
      ensures Valid()
      ensures calls == old(calls) + 1
      ensures frameSkipCounter as int == NextSkipCounter(old(frameSkipCounter) as int, FrameSkip as int)
      ensures skip <==> frameSkipCounter != 0
      ensures skip <==> calls % FrameSkip as int != 0
      ensures !skip && frameSkipCounter == 0
    {
      frameSkipCounter := (frameSkipCounter + 1) % FrameSkip;
      skip := frameSkipCounter != 0;
      calls := calls + 1;
      ProcessesEveryPeriodthFrame(calls, FrameSkip as int);
    }
  }
}
