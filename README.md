# Desktop capture, frame-rate counter and input handler: a Dafny model

This project models the sequential core of a low-latency screen-capture tool
for Windows, in three parts.

- **Desktop capture** (`desktop_capture.dfy`, module `Capture`). One capture
  cycle runs over DXGI output duplication and a Direct3D 11 staging texture.
  It acquires a frame, makes three COM casts, copies the frame into the
  staging texture, maps that texture, copies `height × RowPitch` bytes into an
  owned buffer, then unmaps and releases the frame. The duplication, the
  immediate context and the staging texture are modelled as one object,
  `Capture.Duplication`. Its state says whether a frame is held and whether
  the staging texture is mapped. It also keeps the bytes of the frame and of
  the staging texture, the row pitch, and a ghost trace of the calls in
  order. What each foreign call answers is an input (`CaptureAnswers`,
  `SetupAnswers`): success, an HRESULT failure code, the frame's bytes, the
  row pitch, or whether CopyResource's copy took effect (Direct3D drops it
  without a report when the textures differ in size or format). Setup builds the staging texture's description and makes
  the chain of creation calls; the first failure is returned.
- **Frame-rate counter** (`fps_counter.dfy`, module `Fps`). A class counts
  frames. Once a second it reports a rate. It keeps a FIFO history of at most
  five rates and their mean. Clock readings are inputs, in nanoseconds, and
  rates are real numbers.
- **Input handler** (`input.dfy`, module `Input`). It has a frame-skip
  counter modulo `FRAME_SKIP`, and six key checks. Each check tests bit 15 of
  the 16-bit state that `GetAsyncKeyState` reports for a fixed virtual key.
  That state is an input.

`primitives.dfy` (module `Primitives`) holds the Rust integer types, the
casts between them, and Option/Result.

Two behaviours of the code deserve a note:

- DXGI's AcquireNextFrame answers DXGI_ERROR_INVALID_CALL until the held
  frame is released with ReleaseFrame. The `?` returns after a failed cast
  or Map (src/desktop_capture.rs:117-137) come before the ReleaseFrame call,
  so they leave the frame held and every later capture fails (see Findings).
- `update` has no guard against a zero elapsed time or a zero frame count
  (see Left out).

## Model

| member | source | states |
|---|---|---|
| Primitives.I32AsU32 | src/desktop_capture.rs:68-69 | `as u32` keeps the 32-bit pattern: congruent mod 2^32, and the same value when non-negative |
| Primitives.I32AsUsize | src/desktop_capture.rs:141 | `as usize` sign-extends to 64 bits: below 2^64, congruent mod 2^64, and the same value when non-negative |
| Primitives.AsI16 | src/input.rs:23 | the signed 16-bit value with a given bit pattern is congruent to it mod 2^16 |
| Capture.StagingDesc | src/desktop_capture.rs:67-81 | the staging description has Width/Height equal to the screen size (wrapped mod 2^32 when negative), one mip level, one array slice, one sample of quality 0, BGRA format, staging usage, no bind flags, CPU read access and no misc flags |
| Capture.FirstFailure | src/desktop_capture.rs:84-96 | in a chain of `?` calls, the returned index is the first failed call: every earlier call succeeded and that one failed, or the whole chain succeeded |
| Capture.ClassifyAcquireFailure | src/desktop_capture.rs:109-114 | an acquisition failure is TimedOut exactly when the code is DXGI_ERROR_WAIT_TIMEOUT, and the "Failed to acquire frame" error otherwise |
| Capture.BufferSize | src/desktop_capture.rs:140-141 | the owned buffer's length is `screen_height × RowPitch` for a non-negative height; it comes from the row pitch, not from the width |
| Capture.Duplication.AcquireNextFrame | src/desktop_capture.rs:108 | acquisition fails with DXGI_ERROR_INVALID_CALL while a frame is held; otherwise a new frame becomes the held frame, and a failure leaves nothing held |
| Capture.Duplication.CopyResource | src/desktop_capture.rs:123-126 | when the copy takes effect the staging texture's contents become the held frame's contents; when Direct3D drops it (textures that differ in size or format) they are unchanged |
| Capture.Duplication.Map | src/desktop_capture.rs:131-137 | on success the staging texture is mapped with the answered row pitch; on failure the mapping state is unchanged |
| Capture.Duplication.ReadMapped | src/desktop_capture.rs:149 | while mapped, the bulk copy fills the owned buffer with exactly the first `buffer_size` bytes of the mapped staging data |
| Capture.Duplication.Unmap | src/desktop_capture.rs:152 | after Unmap the staging texture is not mapped |
| Capture.Duplication.ReleaseFrame | src/desktop_capture.rs:153 | a successful release leaves no frame held; a failed one returns its code and leaves the frame held |
| Capture.SetupDirectX | src/desktop_capture.rs:44-99 | creation stops at the first failing call in the order device, staging texture, cast to IDXGIDevice, adapter, output, cast to IDXGIOutput1, duplication, and returns that call's code; on success it yields a fresh duplication whose staging texture has the staging description and holds the contents the new texture was created with, with no frame held and nothing mapped |
| Capture.DesktopCapture.New | src/desktop_capture.rs:30-41 | `new` fails with setup's first failure; otherwise the new capture's dimensions are the given ones, no frame is held, nothing is mapped, and the staging texture holds its initial contents |
| Capture.DesktopCapture.GetDimensions | src/desktop_capture.rs:159-161 | returns the width and height given to `new`, which no operation changes |
| Capture.DesktopCapture.CaptureScreenshot | src/desktop_capture.rs:102-156 | a timeout is TimedOut and any other acquisition failure is "Failed to acquire frame", with nothing copied, mapped or released; a failed cast or Map returns its code with the frame still held; otherwise the calls run acquire, copy, map, bulk copy, unmap, release in that order, the staging texture ends unmapped, and the buffer is the first `height × RowPitch` bytes of the mapped staging data: the acquired frame when the copy took effect, the staging texture's previous bytes when Direct3D dropped it; while an earlier frame is still held every capture fails |
| Capture.DesktopCapture.CopyOutAndRelease | src/desktop_capture.rs:140-155 | after a successful Map: copies the first `height × RowPitch` bytes of the mapped staging data into the owned buffer, unmaps, releases; the staging texture ends unmapped, the frame stays held exactly when ReleaseFrame fails, and that failure's code is the error |
| Capture.DesktopCapture.CaptureScreenshotReleasing | src/desktop_capture.rs:117-137 | corrected capture: a failed cast or Map releases the frame before returning, so after any acquisition whose release succeeds no frame is held and nothing is mapped |
| Capture.LeakedFrameBlocksNextCapture | src/desktop_capture.rs:131-137 | as written, after a Map failure the next capture returns "Failed to acquire frame" whatever DXGI answers, and the frame stays held |
| Capture.MismatchedSizeCapturesInitialStaging | src/desktop_capture.rs:123-155 | when setup was given dimensions other than the output's mode, so that CopyResource is dropped, a capture whose other calls succeed still returns `Ok` with the first `height × RowPitch` bytes of the staging texture's initial contents |
| Capture.ReleasedFrameAllowsNextCapture | src/desktop_capture.rs:108-156 | with the corrected capture, a Map failure does not block the next cycle, which returns the new frame's buffer when its copy takes effect |
| Fps.Window | src/fps_counter.rs:43-46 | the history after any sequence of reports is the last min(n, 5) rates in report order, so it never holds more than FPS_HISTORY_SIZE entries |
| Fps.WindowSlides | src/fps_counter.rs:43-46 | one more report pushes the rate at the end and, when the history would exceed five entries, drops exactly the oldest (index 0) |
| Fps.SumBounds | src/fps_counter.rs:49 | the sum of n rates between lo and hi lies between n·lo and n·hi |
| Fps.MeanWithinBounds | src/fps_counter.rs:49 | the average lies between any lower and upper bound of the history |
| Fps.SumOf | src/fps_counter.rs:49 | the iterator sum of the history equals its sum |
| Fps.MeanOf | src/fps_counter.rs:49 | the sum divided by the length is the mean of the history |
| Fps.RatePerSecond | src/fps_counter.rs:39-40 | the rate is in frames per second: rate × elapsed time gives back the frame count; it is positive when frames were counted and zero when none were |
| Fps.FrameTimeMs | src/fps_counter.rs:51 | frame time × rate = 1000 ms |
| Fps.FpsCounter.constructor | src/fps_counter.rs:17-24 | a new counter has a zero frame count, an empty history, an average of 0 and the given clock reading as last update |
| Fps.FpsCounter.Increment | src/fps_counter.rs:27-29 | the frame count rises by exactly one (wrapping at 2^32), and nothing else changes |
| Fps.FpsCounter.ShouldUpdate | src/fps_counter.rs:32-34 | due exactly when at least 1000 ms have passed since the last update; reads only the last-update time and changes nothing |
| Fps.FpsCounter.PushRate | src/fps_counter.rs:43-49 | pushes the rate at the end, evicts index 0 on overflow, keeps the history the window over all reported rates, and sets the average to the history's mean |
| Fps.FpsCounter.Update | src/fps_counter.rs:37-58 | reports the rate over the interval, slides it into the history (never more than five entries, FIFO), leaves a non-empty history whose mean is the returned average, returns, for a non-zero rate, a frame time with frame time × rate = 1000, and resets the count to 0 and the last update to `now` |
| Input.KeyDown | src/input.rs:23 | `state & 0x8000 != 0` holds exactly when bit 15 is set, that is, when the signed state GetAsyncKeyState returns is negative |
| Input.InputHandler.IsTogglePressed | src/input.rs:22-24 | true exactly when the state of key 0x4C ('L') has bit 15 set |
| Input.InputHandler.IsAimKeyPressed | src/input.rs:27-29 | true exactly when the state of key 0x01 (left button) has bit 15 set |
| Input.InputHandler.IsIncreaseSpeedPressed | src/input.rs:32-34 | true exactly when the state of key 0xBB ('+') has bit 15 set |
| Input.InputHandler.IsDecreaseSpeedPressed | src/input.rs:37-39 | true exactly when the state of key 0xBD ('-') has bit 15 set |
| Input.InputHandler.IsFpsTogglePressed | src/input.rs:42-44 | true exactly when the state of key 0x46 ('F') has bit 15 set |
| Input.InputHandler.IsRcsTogglePressed | src/input.rs:47-49 | true exactly when the state of key 0x52 ('R') has bit 15 set |
| Input.NextSkipCounter | src/input.rs:53 | the next counter is below the period; it is the old counter plus one, or 0 when that reaches the period |
| Input.CounterAfterPeriodic | src/input.rs:52-55 | within each run of FRAME_SKIP calls the counter climbs 0, 1, …, FRAME_SKIP − 1 |
| Input.ProcessesEveryPeriodthFrame | src/input.rs:52-55 | after n calls the counter is n mod FRAME_SKIP, so exactly one frame in every FRAME_SKIP is processed |
| Input.InputHandler.constructor | src/input.rs:15-19 | a new handler's counter is 0 |
| Input.InputHandler.ShouldSkipFrame | src/input.rs:52-55 | the counter becomes (old + 1) mod FRAME_SKIP and stays below FRAME_SKIP, so the u32 increment never overflows; the call skips exactly when the counter is non-zero; with FRAME_SKIP = 1 it never skips and the counter stays 0 |

## Left out

- src/rcs.rs is not part of this model. It is a second thread that polls two atomic flags with relaxed loads, sleeps, and calls the foreign `mouse_event`. That is concurrency, timing and OS I/O.
- The Direct3D 11 and DXGI calls themselves (device creation, texture creation, COM casts, GetParent, EnumOutputs, DuplicateOutput, AcquireNextFrame, CopyResource, Map, Unmap, ReleaseFrame) are not modelled. Only their answers are, as inputs the model chooses freely; for CopyResource, which answers nothing, the input says whether the copy took effect or was dropped. COM reference counting and the release of interfaces on drop are also left out.
- ACQUISITION_TIMEOUT (0 ms) is not modelled: whether an acquisition times out is part of AcquireNextFrame's answer.
- The `Option` fields and their `unwrap()` calls are not modelled. After a successful setup these fields are always `Some`.
- The raw-pointer `copy_nonoverlapping` is modelled as an element-by-element copy of the mapped bytes into the owned array.
- Capture.DesktopCapture.CaptureScreenshot and Capture.DesktopCapture.CaptureScreenshotReleasing require, when no frame is held, that the mapped staging texture spans `height × RowPitch` bytes. The staging texture is created `height` rows high, Direct3D maps every row at RowPitch bytes, and the unsafe copy relies on it. The staging texture's initial contents are a setup answer, so a run in which every copy is dropped is still covered. When a frame is held the capture fails before mapping, so nothing is required.
- Capture.BufferSize: a `usize` overflow of `height × RowPitch` is not modelled. The product is taken in unbounded integers.
- Fps.FpsCounter.Update requires a positive elapsed time. The code has no guard: with no elapsed time it divides by zero, and the f64 rate is infinity or NaN, which real numbers cannot represent, so those calls are outside the model. An interval with no frames is modelled (its rate is zero), but its frame time, an f64 infinity, is unspecified.
- Fps.RatePerSecond and Fps.FrameTimeMs use real arithmetic. f64 rounding, infinity and NaN are not modelled.
- Fps.FpsCounter.Increment: `frame_count += 1` is modelled with the wrap-around of a release build. A debug build panics on overflow instead.
- Fps.FpsCounter.PushRate is the history and average part of `update`, as a separate method.
- `Instant::now()` readings are parameters, in nanoseconds. `GetAsyncKeyState` answers are parameters too: a function from virtual-key code to the 16-bit state.
- SLEEP_MS and ACTIVE_SLEEP_MS are declared in src/input.rs, but no modelled operation uses them, so the model does not declare them.

## Findings

| source | as written | input that shows it | evidently intended | confidence | as-written member | corrected member |
|---|---|---|---|---|---|---|
| src/desktop_capture.rs:117-137 | a `?` on the three casts or on Map returns without calling ReleaseFrame, so the acquired frame stays held | AcquireNextFrame returns a frame, then Map returns an error; on the next call DXGI answers DXGI_ERROR_INVALID_CALL and the capture returns "Failed to acquire frame", and so does every later call | release the acquired frame on every exit path after a successful acquisition | high; not executed | Capture.LeakedFrameBlocksNextCapture | Capture.DesktopCapture.CaptureScreenshotReleasing |
