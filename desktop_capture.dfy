/** Desktop capture over DXGI output duplication and a Direct3D 11 staging
    texture. The duplication, the immediate context and the staging texture
    are one abstract object, `Duplication`, whose state is "frame held?",
    "staging mapped?", the bytes of the held frame and of the staging texture,
    and the row pitch of the current mapping; a ghost trace records the calls
    made on it in order. What each foreign call answers (success, an HRESULT
    failure code, the frame's bytes, the row pitch) is an input of the model. */
module Capture {
  import opened Primitives

  /** HRESULT codes, as their unsigned 32-bit patterns. */
  const DxgiErrorWaitTimeout: int := 0x887A_0027
  const DxgiErrorInvalidCall: int := 0x887A_0001

  const DxgiFormatB8G8R8A8Unorm: u32 := 87
  const D3d11UsageStaging: u32 := 3
  const D3d11CpuAccessRead: u32 := 0x2_0000

  datatype SampleDesc = SampleDesc(count: u32, quality: u32)

  /** D3D11_TEXTURE2D_DESC */
  datatype Texture2DDesc = Texture2DDesc(
    width: u32, height: u32, mipLevels: u32, arraySize: u32, format: u32,
    sampleDesc: SampleDesc, usage: u32, bindFlags: u32, cpuAccessFlags: u32, miscFlags: u32)

  /** A texture the CPU can read and the GPU cannot bind: one mip level, one
      array slice, one sample, staging usage, 32-bit BGRA pixels. */
  predicate IsCpuReadStaging(desc: Texture2DDesc)
  {
    desc.mipLevels == 1 && desc.arraySize == 1 &&
    desc.format == DxgiFormatB8G8R8A8Unorm &&
    desc.sampleDesc == SampleDesc(1, 0) &&
    desc.usage == D3d11UsageStaging && desc.bindFlags == 0 &&
    desc.cpuAccessFlags == D3d11CpuAccessRead && desc.miscFlags == 0
  }

  /** The staging texture's description, built from the screen size; the
      `as u32` casts keep non-negative sizes and wrap negative ones. */
  function StagingDesc(screenWidth: i32, screenHeight: i32): (desc: Texture2DDesc)
    ensures IsCpuReadStaging(desc)
    ensures 0 <= screenWidth ==> desc.width as int == screenWidth as int
    ensures 0 <= screenHeight ==> desc.height as int == screenHeight as int
    ensures screenWidth < 0 ==> desc.width as int == screenWidth as int + TwoTo32
    ensures screenHeight < 0 ==> desc.height as int == screenHeight as int + TwoTo32
  {
    Texture2DDesc(
      width := I32AsU32(screenWidth),
      height := I32AsU32(screenHeight),
      mipLevels := 1,
      arraySize := 1,
      format := DxgiFormatB8G8R8A8Unorm,
      sampleDesc := SampleDesc(1, 0),
      usage := D3d11UsageStaging,
      bindFlags := 0,
      cpuAccessFlags := D3d11CpuAccessRead,
      miscFlags := 0)
  }

  /** What a foreign call that returns only an HRESULT answers. */
  datatype Outcome = Succeeded | Failed(code: int)

  /** The index of the first failed call in a chain of `?`-propagated calls,
      or the length of the chain when every call succeeded. */
  function FirstFailure(outcomes: seq<Outcome>): (k: nat)
    ensures k <= |outcomes|
    ensures forall j :: 0 <= j < k ==> outcomes[j].Succeeded?
    ensures k < |outcomes| ==> outcomes[k].Failed?
  {
    if outcomes == [] || outcomes[0].Failed? then 0 else 1 + FirstFailure(outcomes[1..])
  }

  /** The first failure is at `k` when every call before `k` succeeded and
      call `k` failed. */
  lemma FirstFailureAt(outcomes: seq<Outcome>, k: nat)
    requires k < |outcomes| && outcomes[k].Failed?
    requires forall j :: 0 <= j < k ==> outcomes[j].Succeeded?
    ensures FirstFailure(outcomes) == k
  {
  }

  /** What the calls made by setup answer, in the order setup makes them. */
  datatype SetupAnswers = SetupAnswers(
    createDevice: Outcome,        // D3D11CreateDevice
    createTexture: Outcome,       // CreateTexture2D of the staging texture
    initialStaging: seq<byte>,    // the new staging texture's contents (no initial data is given)
    castDxgiDevice: Outcome,      // device.cast::<IDXGIDevice>()
    getParent: Outcome,           // GetParent::<IDXGIAdapter>()
    enumOutputs: Outcome,         // EnumOutputs(0)
    castOutput1: Outcome,         // output.cast::<IDXGIOutput1>()
    duplicateOutput: Outcome)     // DuplicateOutput

  function SetupCalls(a: SetupAnswers): seq<Outcome>
  {
    [a.createDevice, a.createTexture, a.castDxgiDevice, a.getParent,
     a.enumOutputs, a.castOutput1, a.duplicateOutput]
  }

  /** What AcquireNextFrame answers: a new desktop frame, whose texture holds
      `image`, or a failure code (DXGI_ERROR_WAIT_TIMEOUT when no new frame
      arrived within the timeout). */
  datatype AcquireAnswer = NewFrame(image: seq<byte>) | AcquireFailed(code: int)

  /** What CopyResource does. It returns nothing, and Direct3D 11 drops the
      copy without a report when the two textures differ in size or format
      (for example, when the dimensions given to setup are not the output's
      mode); the staging texture then keeps its previous bytes. */
  datatype CopyEffect = Copied | Dropped

  /** What Map answers: the row pitch of the mapping, or a failure code. */
  datatype MapAnswer = Mapped(rowPitch: u32) | MapFailed(code: int)

  /** What the calls made by one capture answer. */
  datatype CaptureAnswers = CaptureAnswers(
    acquire: AcquireAnswer,
    castDesktopTexture: Outcome,   // resource.cast::<ID3D11Texture2D>()
    castStaging: Outcome,          // staging_texture.cast::<ID3D11Resource>()
    castDesktopResource: Outcome,  // desktop_texture.cast::<ID3D11Resource>()
    copy: CopyEffect,              // CopyResource
    mapping: MapAnswer,
    release: Outcome)              // ReleaseFrame

  /** The three casts between a successful acquisition and CopyResource. */
  function CastCalls(a: CaptureAnswers): seq<Outcome>
  {
    [a.castDesktopTexture, a.castStaging, a.castDesktopResource]
  }

  /** The calls a capture makes, as the trace records them. */
  datatype Call = AcquireNextFrame | CopyResource | Map | BulkCopy | Unmap | ReleaseFrame

  /** The io::Error a capture returns: the timed-out error, the "Failed to
      acquire frame" error, or the OS error that a `?` converted from a
      failed HRESULT. */
  datatype CaptureError = TimedOut | AcquireFailure | Os(code: int)

  /** The error for a failed AcquireNextFrame: a timeout is told apart from
      every other failure. */
  function ClassifyAcquireFailure(code: int): (e: CaptureError)
    ensures e == TimedOut <==> code == DxgiErrorWaitTimeout
    ensures e != TimedOut ==> e == AcquireFailure
  {
    if code == DxgiErrorWaitTimeout then TimedOut else AcquireFailure
  }

  /** The owned buffer's length: `screen_height as usize * RowPitch`. The row
      pitch of the mapping, not `width * 4`, sets the size. */
  function BufferSize(screenHeight: i32, rowPitch: u32): (size: nat)
    ensures 0 <= screenHeight ==> size == screenHeight as int * rowPitch as int
  {
    I32AsUsize(screenHeight) * rowPitch as int
  }

  /** The staging texture's bytes after a cycle's CopyResource, when the
      staging texture held `previous` before it: the acquired frame if the
      copy took effect. */
  function StagedBytes(a: CaptureAnswers, previous: seq<byte>): seq<byte>
  {
    if a.acquire.NewFrame? && a.copy.Copied? then a.acquire.image else previous
  }

  /** The platform's promise about a mapping: the mapped region spans the
      buffer the source reads through it, so the bulk copy stays inside it. */
  predicate MappingCovers(a: CaptureAnswers, screenHeight: i32, previous: seq<byte>)
  {
    a.acquire.NewFrame? && a.mapping.Mapped? ==>
      BufferSize(screenHeight, a.mapping.rowPitch) <= |StagedBytes(a, previous)|
  }

  /** A snapshot of the duplication's state, for stating what a capture changes. */
  datatype DuplicationState = DuplicationState(
    frameHeld: bool, frame: seq<byte>, stagingMapped: bool, staging: seq<byte>,
    rowPitch: u32, trace: seq<Call>)

  /** The output duplication with its immediate context and staging texture. */
  class Duplication {
    const stagingDesc: Texture2DDesc
    /** A frame was acquired and not yet released. */
    var frameHeld: bool
    /** The bytes of the desktop texture of the last acquired frame. */
    var frame: seq<byte>
    var stagingMapped: bool
    /** The staging texture's bytes, as a mapping exposes them. */
    var staging: seq<byte>
    var rowPitch: u32
    /** The calls made on this object so far, oldest first. */
    ghost var trace: seq<Call>

    ghost function State(): DuplicationState
      reads this
    {
      DuplicationState(frameHeld, frame, stagingMapped, staging, rowPitch, trace)
    }

    constructor (desc: Texture2DDesc, initialStaging: seq<byte>)
      ensures stagingDesc == desc && staging == initialStaging
      ensures !frameHeld && !stagingMapped && trace == []
    {
      stagingDesc := desc;
      frameHeld := false;
      frame := [];
      stagingMapped := false;
      staging := initialStaging;
      rowPitch := 0;
      trace := [];
    }

    /** DXGI refuses a second acquisition while a frame is held
        (DXGI_ERROR_INVALID_CALL); otherwise the answer decides. */
    method AcquireNextFrame(answer: AcquireAnswer) returns (status: Outcome)
      modifies this`frameHeld, this`frame, this`trace
      ensures trace == old(trace) + [Call.AcquireNextFrame]
      ensures old(frameHeld) ==> status == Failed(DxgiErrorInvalidCall) && frameHeld && frame == old(frame)
      ensures !old(frameHeld) && answer.NewFrame? ==> status == Succeeded && frameHeld && frame == answer.image
      ensures !old(frameHeld) && answer.AcquireFailed? ==>
        status == Failed(answer.code) && !frameHeld && frame == old(frame)
    {
      trace := trace + [Call.AcquireNextFrame];
      if frameHeld {
        status := Failed(DxgiErrorInvalidCall);
      } else if answer.NewFrame? {
        frameHeld, frame := true, answer.image;
        status := Succeeded;
      } else {
        status := Failed(answer.code);
      }
    }

    /** Copies the whole desktop texture into the staging texture, unless
        Direct3D drops the copy. */
    method CopyResource(effect: CopyEffect)
      modifies this`staging, this`trace
      ensures effect.Copied? ==> staging == frame
      ensures effect.Dropped? ==> staging == old(staging)
      ensures trace == old(trace) + [Call.CopyResource]
    {
      if effect.Copied? {
        staging := frame;
      }
      trace := trace + [Call.CopyResource];
    }

    method Map(answer: MapAnswer) returns (status: Outcome)
      modifies this`stagingMapped, this`rowPitch, this`trace
      ensures trace == old(trace) + [Call.Map]
      ensures answer.Mapped? ==> status == Succeeded && stagingMapped && rowPitch == answer.rowPitch
      ensures answer.MapFailed? ==>
        status == Failed(answer.code) && stagingMapped == old(stagingMapped) && rowPitch == old(rowPitch)
    {
      trace := trace + [Call.Map];
      if answer.Mapped? {
        stagingMapped, rowPitch := true, answer.rowPitch;
        status := Succeeded;
      } else {
        status := Failed(answer.code);
      }
    }

    /** `copy_nonoverlapping` from the mapped pointer into `dst`: the pointer
        is only readable while the staging texture is mapped. */
    method ReadMapped(dst: array<byte>)
      requires stagingMapped && dst.Length <= |staging|
      modifies dst, this`trace
      ensures dst[..] == staging[..dst.Length]
      ensures trace == old(trace) + [Call.BulkCopy]
    {
      var i := 0;
      while i < dst.Length
        invariant i <= dst.Length
        invariant dst[..i] == staging[..i]
        invariant trace == old(trace)
      {
        dst[i] := staging[i];
        i := i + 1;
      }
      trace := trace + [Call.BulkCopy];
    }

    method Unmap()
      modifies this`stagingMapped, this`trace
      ensures !stagingMapped
      ensures trace == old(trace) + [Call.Unmap]
    {
      stagingMapped := false;
      trace := trace + [Call.Unmap];
    }

    /** Releasing without a held frame is DXGI_ERROR_INVALID_CALL; a failed
        release leaves the frame held. */
    method ReleaseFrame(answer: Outcome) returns (status: Outcome)
      modifies this`frameHeld, this`trace
      ensures trace == old(trace) + [Call.ReleaseFrame]
      ensures !old(frameHeld) ==> status == Failed(DxgiErrorInvalidCall) && !frameHeld
      ensures old(frameHeld) ==> status == answer && frameHeld == answer.Failed?
    {
      trace := trace + [Call.ReleaseFrame];
      if !frameHeld {
        status := Failed(DxgiErrorInvalidCall);
      } else {
        status := answer;
        frameHeld := answer.Failed?;
      }
    }
  }

  /** Creates the device and context, the staging texture, then the output
      duplication; the first failing call's code is returned. */
  method SetupDirectX(screenWidth: i32, screenHeight: i32, answers: SetupAnswers)
    returns (r: Result<Duplication, int>)
    ensures var calls, k := SetupCalls(answers), FirstFailure(SetupCalls(answers));
      k < |calls| ==> r == Err(calls[k].code)
    ensures FirstFailure(SetupCalls(answers)) == |SetupCalls(answers)| ==>
      r.Ok? && fresh(r.value) && r.value.stagingDesc == StagingDesc(screenWidth, screenHeight) &&
      !r.value.frameHeld && !r.value.stagingMapped && r.value.trace == [] &&
      r.value.staging == answers.initialStaging
  {
    ghost var calls := SetupCalls(answers);
    if answers.createDevice.Failed? {
      return Err(answers.createDevice.code);
    }
    var desc := StagingDesc(screenWidth, screenHeight);
    if answers.createTexture.Failed? {
      FirstFailureAt(calls, 1);
      return Err(answers.createTexture.code);
    }
    if answers.castDxgiDevice.Failed? {
      FirstFailureAt(calls, 2);
      return Err(answers.castDxgiDevice.code);
    }
    if answers.getParent.Failed? {
      FirstFailureAt(calls, 3);
      return Err(answers.getParent.code);
    }
    if answers.enumOutputs.Failed? {
      FirstFailureAt(calls, 4);
      return Err(answers.enumOutputs.code);
    }
    if answers.castOutput1.Failed? {
      FirstFailureAt(calls, 5);
      return Err(answers.castOutput1.code);
    }
    if answers.duplicateOutput.Failed? {
      FirstFailureAt(calls, 6);
      return Err(answers.duplicateOutput.code);
    }
    assert forall j :: 0 <= j < |calls| ==> calls[j].Succeeded?;
    var duplication := new Duplication(desc, answers.initialStaging);
    return Ok(duplication);
  }

  class DesktopCapture {
    const duplication: Duplication
    const screenWidth: i32
    const screenHeight: i32

    constructor (duplication: Duplication, screenWidth: i32, screenHeight: i32)
      ensures this.duplication == duplication
      ensures this.screenWidth == screenWidth && this.screenHeight == screenHeight
    {
      this.duplication := duplication;
      this.screenWidth := screenWidth;
      this.screenHeight := screenHeight;
    }

    /** `DesktopCapture::new`: setup, then the capture over its results. */
    static method New(screenWidth: i32, screenHeight: i32, answers: SetupAnswers)
      returns (r: Result<DesktopCapture, int>)
      ensures var calls, k := SetupCalls(answers), FirstFailure(SetupCalls(answers));
        k < |calls| ==> r == Err(calls[k].code)
      ensures FirstFailure(SetupCalls(answers)) == |SetupCalls(answers)| ==>
        r.Ok? && fresh(r.value) && fresh(r.value.duplication) &&
        r.value.GetDimensions() == (screenWidth, screenHeight) &&
        r.value.duplication.stagingDesc == StagingDesc(screenWidth, screenHeight) &&
        !r.value.duplication.frameHeld && !r.value.duplication.stagingMapped &&
        r.value.duplication.staging == answers.initialStaging
    {
      var setup := SetupDirectX(screenWidth, screenHeight, answers);
      if setup.Err? {
        return Err(setup.error);
      }
      var capture := new DesktopCapture(setup.value, screenWidth, screenHeight);
      return Ok(capture);
    }

    function GetDimensions(): (dims: (i32, i32))
      ensures dims.0 == screenWidth && dims.1 == screenHeight
    {
      (screenWidth, screenHeight)
    }

    /** One acquisition cycle: acquire, three casts, CopyResource, Map, the
        bulk copy into an owned buffer of `height * RowPitch` bytes, Unmap,
        ReleaseFrame. Every `?` returns at once: a failed cast or Map leaves
        the acquired frame held. */
    method CaptureScreenshot(answers: CaptureAnswers) returns (r: Result<seq<byte>, CaptureError>)
      requires !duplication.frameHeld ==> MappingCovers(answers, screenHeight, duplication.staging)
      modifies duplication
      // A frame left held by an earlier call: DXGI refuses the acquisition.
      ensures old(duplication.frameHeld) ==>
        r == Err(AcquireFailure) &&
        duplication.State() == old(duplication.State()).(trace := old(duplication.trace) + [AcquireNextFrame])
      // Acquisition failed: classified, and nothing is copied, mapped or released.
      ensures !old(duplication.frameHeld) && answers.acquire.AcquireFailed? ==>
        r == Err(ClassifyAcquireFailure(answers.acquire.code)) &&
        duplication.State() == old(duplication.State()).(trace := old(duplication.trace) + [AcquireNextFrame])
      // A cast failed after acquisition: the frame stays held.
      ensures !old(duplication.frameHeld) && answers.acquire.NewFrame? &&
              FirstFailure(CastCalls(answers)) < 3 ==>
        r == Err(Os(CastCalls(answers)[FirstFailure(CastCalls(answers))].code)) &&
        duplication.State() == old(duplication.State()).(
          frameHeld := true, frame := answers.acquire.image,
          trace := old(duplication.trace) + [AcquireNextFrame])
      // Map failed: the frame stays held and nothing is unmapped.
      ensures !old(duplication.frameHeld) && answers.acquire.NewFrame? &&
              FirstFailure(CastCalls(answers)) == 3 && answers.mapping.MapFailed? ==>
        r == Err(Os(answers.mapping.code)) &&
        duplication.State() == old(duplication.State()).(
          frameHeld := true, frame := answers.acquire.image,
          staging := StagedBytes(answers, old(duplication.staging)),
          trace := old(duplication.trace) + [AcquireNextFrame, CopyResource, Map])
      // Mapped: copy, unmap, release, in that order.
      ensures !old(duplication.frameHeld) && answers.acquire.NewFrame? &&
              FirstFailure(CastCalls(answers)) == 3 && answers.mapping.Mapped? ==>
        duplication.State() == old(duplication.State()).(
          frameHeld := answers.release.Failed?, frame := answers.acquire.image,
          staging := StagedBytes(answers, old(duplication.staging)), stagingMapped := false,
          rowPitch := answers.mapping.rowPitch,
          trace := old(duplication.trace) + [AcquireNextFrame, CopyResource, Map, BulkCopy, Unmap, ReleaseFrame]) &&
        (answers.release.Failed? ==> r == Err(Os(answers.release.code))) &&
        (answers.release.Succeeded? ==>
          r == Ok(StagedBytes(answers, old(duplication.staging))[..BufferSize(screenHeight, answers.mapping.rowPitch)]))
    {
      var status := duplication.AcquireNextFrame(answers.acquire);
      if status.Failed? {
        if status.code == DxgiErrorWaitTimeout {
          return Err(TimedOut);
        }
        return Err(AcquireFailure);
      }

      ghost var casts := CastCalls(answers);
      if answers.castDesktopTexture.Failed? {
        return Err(Os(answers.castDesktopTexture.code));
      }
      if answers.castStaging.Failed? {
        FirstFailureAt(casts, 1);
        return Err(Os(answers.castStaging.code));
      }
      if answers.castDesktopResource.Failed? {
        FirstFailureAt(casts, 2);
        return Err(Os(answers.castDesktopResource.code));
      }
      assert forall j :: 0 <= j < |casts| ==> casts[j].Succeeded?;

      duplication.CopyResource(answers.copy);

      status := duplication.Map(answers.mapping);
      if status.Failed? {
        return Err(Os(status.code));
      }

      r := CopyOutAndRelease(answers.release);
    }

    /** The capture with the release the protocol calls for on every exit
        after a successful acquisition: a failed cast or Map releases the
        frame before returning its error. */
    method CaptureScreenshotReleasing(answers: CaptureAnswers) returns (r: Result<seq<byte>, CaptureError>)
      requires !duplication.frameHeld ==> MappingCovers(answers, screenHeight, duplication.staging)
      modifies duplication
      ensures old(duplication.frameHeld) ==>
        r == Err(AcquireFailure) &&
        duplication.State() == old(duplication.State()).(trace := old(duplication.trace) + [AcquireNextFrame])
      ensures !old(duplication.frameHeld) && answers.acquire.AcquireFailed? ==>
        r == Err(ClassifyAcquireFailure(answers.acquire.code)) &&
        duplication.State() == old(duplication.State()).(trace := old(duplication.trace) + [AcquireNextFrame])
      ensures !old(duplication.frameHeld) && answers.acquire.NewFrame? &&
              FirstFailure(CastCalls(answers)) < 3 ==>
        r == Err(Os(CastCalls(answers)[FirstFailure(CastCalls(answers))].code)) &&
        duplication.trace == old(duplication.trace) + [AcquireNextFrame, ReleaseFrame]
      ensures !old(duplication.frameHeld) && answers.acquire.NewFrame? &&
              FirstFailure(CastCalls(answers)) == 3 && answers.mapping.MapFailed? ==>
        r == Err(Os(answers.mapping.code)) &&
        duplication.trace == old(duplication.trace) + [AcquireNextFrame, CopyResource, Map, ReleaseFrame]
      ensures !old(duplication.frameHeld) && answers.acquire.NewFrame? &&
              FirstFailure(CastCalls(answers)) == 3 && answers.mapping.Mapped? ==>
        duplication.trace == old(duplication.trace) + [AcquireNextFrame, CopyResource, Map, BulkCopy, Unmap, ReleaseFrame] &&
        (answers.release.Failed? ==> r == Err(Os(answers.release.code))) &&
        (answers.release.Succeeded? ==>
          r == Ok(StagedBytes(answers, old(duplication.staging))[..BufferSize(screenHeight, answers.mapping.rowPitch)]))
      // Whatever happens after an acquisition, a successful release leaves
      // no frame held and nothing mapped.
      ensures !old(duplication.frameHeld) && !old(duplication.stagingMapped) &&
              answers.acquire.NewFrame? && answers.release.Succeeded? ==>
        !duplication.frameHeld && !duplication.stagingMapped
    {
      var status := duplication.AcquireNextFrame(answers.acquire);
      if status.Failed? {
        if status.code == DxgiErrorWaitTimeout {
          return Err(TimedOut);
        }
        return Err(AcquireFailure);
      }

      ghost var casts := CastCalls(answers);
      var castFailure := None;
      if answers.castDesktopTexture.Failed? {
        castFailure := Some(answers.castDesktopTexture.code);
      } else if answers.castStaging.Failed? {
        FirstFailureAt(casts, 1);
        castFailure := Some(answers.castStaging.code);
      } else if answers.castDesktopResource.Failed? {
        FirstFailureAt(casts, 2);
        castFailure := Some(answers.castDesktopResource.code);
      }
      if castFailure.Some? {
        status := duplication.ReleaseFrame(answers.release);
        return Err(Os(castFailure.value));
      }
      assert forall j :: 0 <= j < |casts| ==> casts[j].Succeeded?;

      duplication.CopyResource(answers.copy);

      status := duplication.Map(answers.mapping);
      if status.Failed? {
        var mapCode := status.code;
        status := duplication.ReleaseFrame(answers.release);
        return Err(Os(mapCode));
      }

      r := CopyOutAndRelease(answers.release);
    }

    /** The end of a cycle whose Map succeeded: the bulk copy of
        `height * RowPitch` bytes into an owned buffer, Unmap, ReleaseFrame. */
    method CopyOutAndRelease(release: Outcome) returns (r: Result<seq<byte>, CaptureError>)
      requires duplication.frameHeld && duplication.stagingMapped
      requires BufferSize(screenHeight, duplication.rowPitch) <= |duplication.staging|
      modifies duplication
      ensures duplication.State() == old(duplication.State()).(
        frameHeld := release.Failed?, stagingMapped := false,
        trace := old(duplication.trace) + [BulkCopy, Unmap, ReleaseFrame])
      ensures release.Failed? ==> r == Err(Os(release.code))
      ensures release.Succeeded? ==>
        r == Ok(old(duplication.staging)[..BufferSize(screenHeight, old(duplication.rowPitch))])
    {
      var bufferSize := BufferSize(screenHeight, duplication.rowPitch);
      var ownedBuffer := new byte[bufferSize](_ => 0);
      duplication.ReadMapped(ownedBuffer);

      duplication.Unmap();
      var status := duplication.ReleaseFrame(release);
      if status.Failed? {
        return Err(Os(status.code));
      }
      return Ok(ownedBuffer[..]);
    }
  }

  /** The answers of a cycle that acquires a frame, casts, and then fails to map. */
  predicate FailsAtMap(a: CaptureAnswers)
  {
    a.acquire.NewFrame? && FirstFailure(CastCalls(a)) == 3 && a.mapping.MapFailed?
  }

  /** As written, a Map failure leaks the frame: the next capture fails with
      "Failed to acquire frame" whatever DXGI would answer, even a new frame,
      and so does every capture after it. */
  method LeakedFrameBlocksNextCapture(capture: DesktopCapture, first: CaptureAnswers, second: CaptureAnswers)
    returns (r1: Result<seq<byte>, CaptureError>, r2: Result<seq<byte>, CaptureError>)
    requires !capture.duplication.frameHeld
    requires FailsAtMap(first)
    modifies capture.duplication
    ensures r1 == Err(Os(first.mapping.code))
    ensures r2 == Err(AcquireFailure)
    ensures capture.duplication.frameHeld
  {
    r1 := capture.CaptureScreenshot(first);
    r2 := capture.CaptureScreenshot(second);
  }

  /** With the release on the error path, a Map failure does not block the
      next cycle: a following capture whose calls all succeed returns the new
      frame's buffer. */
  method ReleasedFrameAllowsNextCapture(capture: DesktopCapture, first: CaptureAnswers, second: CaptureAnswers)
    returns (r1: Result<seq<byte>, CaptureError>, r2: Result<seq<byte>, CaptureError>)
    requires !capture.duplication.frameHeld && !capture.duplication.stagingMapped
    requires FailsAtMap(first) && first.release.Succeeded?
    requires second.acquire.NewFrame? && FirstFailure(CastCalls(second)) == 3
    requires second.copy.Copied? && second.mapping.Mapped? && second.release.Succeeded?
    requires MappingCovers(second, capture.screenHeight, StagedBytes(first, capture.duplication.staging))
    modifies capture.duplication
    ensures r1 == Err(Os(first.mapping.code))
    ensures r2 == Ok(second.acquire.image[..BufferSize(capture.screenHeight, second.mapping.rowPitch)])
    ensures !capture.duplication.frameHeld
  {
    r1 := capture.CaptureScreenshotReleasing(first);
    r2 := capture.CaptureScreenshotReleasing(second);
  }

  /** Setup with dimensions other than the output's mode: every CopyResource
      is dropped, and a capture still maps the staging texture and returns
      the first `height × RowPitch` bytes of its initial contents. */
  method MismatchedSizeCapturesInitialStaging(screenWidth: i32, screenHeight: i32,
                                               setup: SetupAnswers, cycle: CaptureAnswers)
    returns (r: Result<seq<byte>, CaptureError>)
    requires FirstFailure(SetupCalls(setup)) == |SetupCalls(setup)|
    requires cycle.acquire.NewFrame? && FirstFailure(CastCalls(cycle)) == 3 && cycle.copy.Dropped?
    requires cycle.mapping.Mapped? && cycle.release.Succeeded?
    requires BufferSize(screenHeight, cycle.mapping.rowPitch) <= |setup.initialStaging|
    ensures r == Ok(setup.initialStaging[..BufferSize(screenHeight, cycle.mapping.rowPitch)])
  {
    var capture := DesktopCapture.New(screenWidth, screenHeight, setup);
    r := capture.value.CaptureScreenshot(cycle);
  }
}
