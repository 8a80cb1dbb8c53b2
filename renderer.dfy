/** The `Renderer` class: `init` and its steps, the animation closure of
    `startAnimation` (its captured `prev`, `time` and `targetMs` are fields
    here, and one call of `animate` is `Tick`), and `render`.
    Calls into WebGPU are appended to the ghost `trace`; the platform's
    answers (adapter, device, context, preferred format), the wall clock and
    the surface's current texture view are parameters. */
module Renderer {
  import opened Gpu
  import opened FrameClock
  import opened Frame

  /** Before `init` has succeeded, and after. */
  datatype Phase = Uninitialized | Ready

  /** The two errors `setupDevice` throws. */
  datatype InitError = NoDevice | NoContext
  {
    function Message(): string
    {
      match this
      case NoDevice => "No device"
      case NoContext => "No context"
    }
  }

  datatype Status = Ok | Err(error: InitError)

  /** The `<canvas id="webgpu">` element; the page resizes it. */
  class Canvas {
    var width: nat
    var height: nat

    constructor (width: nat, height: nat)
      ensures this.width == width && this.height == height
    {
      this.width := width;
      this.height := height;
    }
  }

  class Renderer {
    var phase: Phase
    var canvas: Canvas?
    var device: Option<Device>
    var presentationFormat: Option<TextureFormat>
    /** The format the canvas context was configured with, once it was. */
    var contextFormat: Option<TextureFormat>
    var bindGroupLayout: Option<BindGroupLayout>
    var pipeline: Option<Pipeline>
    var propsBuffer: Option<Buffer>
    var bindGroup: Option<BindGroup>
    /** The render pass descriptor's colour attachments (null slots allowed). */
    var colorAttachments: array<Option<Attachment>>

    // The variables the animation closure captures.
    var prev: int
    var time: real
    var targetMs: real

    /** Every call made into the GPU API and every write to the descriptor
        so far, in order. */
    ghost var trace: seq<Cmd>

    /** Nothing is created before `init` succeeds; once it has, every GPU
        object is the one `init` made, the descriptor keeps the one
        attachment `init` built, and those set-up calls are in the trace
        exactly once. */
    ghost predicate Valid()
      reads this, colorAttachments
    {
      && (phase == Uninitialized ==> SetupCalls(trace) == [])
      && (phase == Ready ==>
            && canvas != null
            && device.Some?
            && presentationFormat.Some?
            && contextFormat == presentationFormat
            && bindGroupLayout == Some(PropsLayout)
            && pipeline == Some(PipelineFor(presentationFormat.value))
            && propsBuffer == Some(PropsBuffer)
            && bindGroup == Some(PropsBindGroup)
            && SingleAttachment(colorAttachments[..])
            && SetupCalls(trace) == SetupCommands(presentationFormat.value))
    }

    /** The pipeline, buffer and bind group a frame uses. */
    ghost function Bound(): Resources
      reads this, colorAttachments
      requires Valid() && phase == Ready
    {
      Resources(pipeline.value, propsBuffer.value, bindGroup.value)
    }

    function ClockState(): Clock
      reads this
    {
      Clock(prev, time, targetMs)
    }

    constructor ()
      ensures Valid() && phase == Uninitialized && trace == []
      ensures canvas == null && device == None && contextFormat == None
      ensures pipeline == None && propsBuffer == None && bindGroup == None
    {
      phase := Uninitialized;
      canvas := null;
      device := None;
      presentationFormat := None;
      contextFormat := None;
      bindGroupLayout := None;
      pipeline := None;
      propsBuffer := None;
      bindGroup := None;
      colorAttachments := new Option<Attachment>[0];
      prev, time, targetMs := 0, 0.0, 0.0;
      trace := [];
    }

    /** `init`: set up the device, then the pipeline, the buffer and bind
        group, the pass descriptor, and start the animation at 60 fps, whose
        first tick (at `firstTickMs`) runs at once. A missing device or
        context aborts before anything is created. */
    method Init(canvas: Canvas, platform: Platform, startMs: int, firstTickMs: int, view: View)
      returns (status: Status)
      requires Valid() && phase == Uninitialized
      modifies this
      ensures Valid()
      ensures this.canvas == canvas
      ensures status == Err(NoDevice) <==> DeviceOf(platform).None?
      ensures status == Err(NoContext) <==> DeviceOf(platform).Some? && !platform.hasContext
      ensures status.Err? ==>
        status.error.Message() == if DeviceOf(platform).None? then "No device" else "No context"
      ensures status.Err? ==>
        && phase == Uninitialized && trace == old(trace)
        && contextFormat == old(contextFormat) && bindGroupLayout == old(bindGroupLayout)
        && pipeline == old(pipeline) && propsBuffer == old(propsBuffer) && bindGroup == old(bindGroup)
        && colorAttachments == old(colorAttachments) && colorAttachments[..] == old(colorAttachments[..])
        && ClockState() == old(ClockState())
      ensures status == Err(NoDevice) ==>
        device == old(device) && presentationFormat == old(presentationFormat)
      ensures status == Err(NoContext) ==>
        device == DeviceOf(platform) && presentationFormat == Some(platform.preferredFormat)
      ensures status.Ok? ==>
        && phase == Ready
        && device == DeviceOf(platform) && presentationFormat == Some(platform.preferredFormat)
        && fresh(colorAttachments)
        && colorAttachments[..] == (if Due(Start(TargetFps, startMs), firstTickMs)
                                    then [Some(InitialAttachment.(view := Some(view)))]
                                    else [Some(InitialAttachment)])
        && targetMs == TargetInterval(TargetFps)
        && ClockState() == Step(Start(TargetFps, startMs), firstTickMs)
        && trace == old(trace) + SetupCommands(platform.preferredFormat)
                    + (if Due(Start(TargetFps, startMs), firstTickMs)
                       then FrameCommands(SetupResources(platform.preferredFormat), [Some(InitialAttachment)],
                                          view, canvas.width, canvas.height, time)
                       else [])
    {
      ghost var before := trace;
      status := SetupDevice(canvas, platform);
      if status.Err? {
        return;
      }
      CreateResources();
      var format := presentationFormat.value;
      assert trace == before + SetupCommands(format);
      SetupOnce(before, format);
      phase := Ready;
      assert Valid() && Bound() == SetupResources(format);
      ghost var ready := trace;
      StartAnimation(TargetFps, startMs, firstTickMs, view);
      assert ready == old(trace) + SetupCommands(platform.preferredFormat);
    }

    /** `setupDevice`: keep the canvas, ask for an adapter and a device
        ("No device" if either is missing), keep the device and the preferred
        format, get the canvas context ("No context" if missing), configure it. */
    method SetupDevice(canvas: Canvas, platform: Platform) returns (status: Status)
      modifies this`canvas, this`device, this`presentationFormat, this`contextFormat, this`trace
      ensures this.canvas == canvas
      ensures status == if DeviceOf(platform).None? then Err(NoDevice)
                        else if !platform.hasContext then Err(NoContext)
                        else Ok
      ensures status.Err? ==>
        status.error.Message() == if DeviceOf(platform).None? then "No device" else "No context"
      ensures status != Err(NoDevice) ==>
        device == DeviceOf(platform) && presentationFormat == Some(platform.preferredFormat)
      ensures status == Err(NoDevice) ==>
        device == old(device) && presentationFormat == old(presentationFormat)
      ensures status.Ok? ==>
        contextFormat == Some(platform.preferredFormat) && trace == old(trace) + DeviceSetup(platform.preferredFormat)
      ensures status.Err? ==> contextFormat == old(contextFormat) && trace == old(trace)
    {
      this.canvas := canvas;
      var adapter := platform.adapter;
      var device := if adapter.Some? then adapter.value.device else None;
      if device.None? {
        return Err(NoDevice);
      }
      this.device := device;
      presentationFormat := Some(platform.preferredFormat);
      if !platform.hasContext {
        return Err(NoContext);
      }
      contextFormat := presentationFormat;
      trace := trace + [ConfigureContext(platform.preferredFormat)];
      status := Ok;
    }

    /** The three creating steps of `init` between `setupDevice` and
        `startAnimation`, in their order. */
    method CreateResources()
      requires device.Some? && presentationFormat.Some?
      modifies this`bindGroupLayout, this`pipeline, this`propsBuffer, this`bindGroup, this`colorAttachments, this`trace
      ensures bindGroupLayout == Some(PropsLayout) && pipeline == Some(PipelineFor(presentationFormat.value))
      ensures propsBuffer == Some(PropsBuffer) && bindGroup == Some(PropsBindGroup)
      ensures fresh(colorAttachments) && colorAttachments[..] == [Some(InitialAttachment)]
      ensures trace == old(trace) + PipelineSetup(presentationFormat.value) + BufferSetup()
    {
      InitPipeline();
      InitBuffers();
      InitRenderPassDescriptor();
    }

    /** `initPipeline`: the shader module, a bind group layout with one
        uniform entry at binding 0, a pipeline layout over it, and the render
        pipeline targeting the presentation format. */
    method InitPipeline()
      requires device.Some? && presentationFormat.Some?
      modifies this`bindGroupLayout, this`pipeline, this`trace
      ensures bindGroupLayout == Some(PropsLayout)
      ensures pipeline == Some(PipelineFor(presentationFormat.value))
      ensures trace == old(trace) + PipelineSetup(presentationFormat.value)
    {
      trace := trace + [CreateShaderModule];
      var layout := BindGroupLayout([LayoutEntry(0, {VertexStage, FragmentStage}, UniformBinding)]);
      bindGroupLayout := Some(layout);
      trace := trace + [CreateBindGroupLayout(layout)];
      var layouts := [layout];
      trace := trace + [CreatePipelineLayout(layouts)];
      var p := Pipeline(layouts, presentationFormat.value);
      pipeline := Some(p);
      trace := trace + [CreateRenderPipeline(p)];
    }

    /** `initBuffers`: a 12-byte uniform buffer and one bind group putting
        it at binding 0 of the layout. */
    method InitBuffers()
      requires device.Some? && bindGroupLayout == Some(PropsLayout)
      modifies this`propsBuffer, this`bindGroup, this`trace
      ensures propsBuffer == Some(PropsBuffer) && propsBuffer.value.size == 12
      ensures bindGroup == Some(PropsBindGroup)
      ensures trace == old(trace) + BufferSetup()
    {
      var buffer := Buffer(3 * 4, {UniformUsage, CopyDstUsage});
      propsBuffer := Some(buffer);
      trace := trace + [CreateBuffer(buffer)];
      var group := BindGroup(bindGroupLayout.value, [GroupEntry(0, buffer)]);
      bindGroup := Some(group);
      trace := trace + [CreateBindGroup(group)];
    }

    /** `initRenderPassDescriptor`: one colour attachment, clear and store. */
    method InitRenderPassDescriptor()
      modifies this`colorAttachments
      ensures fresh(colorAttachments) && colorAttachments[..] == [Some(InitialAttachment)]
    {
      colorAttachments := new Option<Attachment>[1];
      colorAttachments[0] := Some(Attachment(Clear, Store, [0.0, 0.0, 0.0, 0.0], None));
    }

    /** `startAnimation(fps)`: `targetMs = 1000 / fps`, `prev` the current
        wall time, `time = 0`, then the first `animate()` right away. */
    method StartAnimation(fps: nat, startMs: int, firstTickMs: int, view: View)
      requires fps > 0
      requires Valid() && phase == Ready
      modifies this`prev, this`time, this`targetMs, this`trace, colorAttachments
      ensures Valid()
      ensures targetMs == TargetInterval(fps)
      ensures ClockState() == Step(Start(fps, startMs), firstTickMs)
      ensures Due(Start(fps, startMs), firstTickMs) ==>
        && trace == old(trace) + FrameCommands(Bound(), old(colorAttachments[..]), view, canvas.width, canvas.height, time)
        && colorAttachments[..] == InstallView(old(colorAttachments[..]), view)
      ensures !Due(Start(fps, startMs), firstTickMs) ==>
        trace == old(trace) && colorAttachments[..] == old(colorAttachments[..])
    {
      targetMs := TargetInterval(fps);
      prev := startMs;
      time := 0.0;
      var _ := Tick(firstTickMs, view);
    }

    /** One call of `animate` at wall time `now`: render iff strictly more
        than `targetMs` passed since `prev`, advancing `time` by exactly
        `targetMs / 1000` and setting `prev` to `now`; otherwise change
        nothing. Rescheduling is the host calling `Tick` again. */
    method Tick(now: int, view: View) returns (rendered: bool)
      requires Valid() && phase == Ready
      modifies this`prev, this`time, this`trace, colorAttachments
      ensures Valid()
      ensures ClockState() == Step(old(ClockState()), now)
      ensures rendered <==> (now - old(prev)) as real > targetMs
      ensures rendered ==>
        && prev == now && time == old(time) + targetMs / 1000.0
        && trace == old(trace) + FrameCommands(Bound(), old(colorAttachments[..]), view, canvas.width, canvas.height, time)
        && colorAttachments[..] == InstallView(old(colorAttachments[..]), view)
      ensures !rendered ==>
        && prev == old(prev) && time == old(time)
        && trace == old(trace) && colorAttachments[..] == old(colorAttachments[..])
    {
      var diff := now - prev;
      if diff as real > targetMs {
        time := time + targetMs / 1000.0;
        Render(time, view);
        prev := now;
        rendered := true;
      } else {
        rendered := false;
      }
    }

    /** The `requestAnimationFrame` chain: the host calls `animate` at each
        of the given wall times in turn, with the view the surface hands out
        for that tick. The clock ends where `Run` says, the trace gains
        exactly the frames of the due ticks, and `frames` counts them. */
    method Animate(ticks: seq<int>, views: seq<View>) returns (frames: nat)
      requires Valid() && phase == Ready
      requires |views| == |ticks|
      modifies this`prev, this`time, this`trace, colorAttachments
      ensures Valid()
      ensures ClockState() == Run(old(ClockState()), ticks)
      ensures trace == old(trace) + RunFrames(Bound(), old(ClockState()), ticks, views, canvas.width, canvas.height)
      ensures frames == |Rendered(old(ClockState()), ticks)|
      ensures Views(trace) == Views(old(trace)) + frames
      ensures SetupCalls(trace) == SetupCalls(old(trace))
    {
      ghost var start := ClockState();
      ghost var before := trace;
      ghost var res := Bound();
      frames := 0;
      var i := 0;
      while i < |ticks|
        invariant 0 <= i <= |ticks|
        invariant Valid() && phase == Ready && Bound() == res
        invariant ClockState() == Run(start, ticks[..i])
        invariant trace == before + RunFrames(res, start, ticks[..i], views[..i], canvas.width, canvas.height)
        invariant frames == |Rendered(start, ticks[..i])|
      {
        RunSnoc(start, ticks[..i], ticks[i]);
        RunFramesSnoc(res, start, ticks[..i], views[..i], ticks[i], views[i], canvas.width, canvas.height);
        assert ticks[..i + 1] == ticks[..i] + [ticks[i]];
        assert views[..i + 1] == views[..i] + [views[i]];
        SingleAttachmentFrame(res, colorAttachments[..], views[i], canvas.width, canvas.height,
                              Step(ClockState(), ticks[i]).time);
        var rendered := Tick(ticks[i], views[i]);
        if rendered {
          frames := frames + 1;
        }
        i := i + 1;
      }
      assert ticks[..i] == ticks && views[..i] == views;
      RunFramesCount(res, start, ticks, views, canvas.width, canvas.height);
      ViewsAppend(before, RunFrames(res, start, ticks, views, canvas.width, canvas.height));
      SetupCallsAppend(before, RunFrames(res, start, ticks, views, canvas.width, canvas.height));
    }

    /** `render(time)`: get the current texture's view, install it on every
        non-null colour attachment, then encode one pass that sets the
        pipeline, writes `[canvas.width, canvas.height, time]` at offset 0
        of the uniform buffer, binds group 0, draws 3 vertices, ends, and
        submit the one command buffer. */
    method Render(t: real, view: View)
      requires Valid() && phase == Ready
      modifies this`trace, colorAttachments
      ensures Valid()
      ensures trace == old(trace) + FrameCommands(Bound(), old(colorAttachments[..]), view, canvas.width, canvas.height, t)
      ensures colorAttachments[..] == InstallView(old(colorAttachments[..]), view)
    {
      ghost var before := trace;
      ghost var slots := colorAttachments[..];
      ghost var res := Bound();
      trace := trace + [GetCurrentView(view)];
      AttachView(view);
      ghost var patched := trace;
      trace := trace + [CreateCommandEncoder];
      trace := trace + [BeginRenderPass(colorAttachments[..])];
      trace := trace + [SetPipeline(pipeline.value)];
      var props := [canvas.width as real, canvas.height as real, t];
      trace := trace + [WriteBuffer(propsBuffer.value, 0, props)];
      trace := trace + [SetBindGroup(0, bindGroup.value)];
      trace := trace + [Draw(3, 1)];
      trace := trace + [EndPass];
      trace := trace + [FinishEncoder];
      trace := trace + [Submit(1)];
      assert trace == patched + FrameTail(res, slots, view, canvas.width, canvas.height, t);
      assert trace == before + FrameCommands(res, slots, view, canvas.width, canvas.height, t);
      FrameKeepsSetup(before, res, slots, view, canvas.width, canvas.height, t);
      SingleAttachmentFrame(res, slots, view, canvas.width, canvas.height, t);
    }

    /** The loop of `render` over the descriptor's colour attachments: the
        view goes on every non-null one, in order. */
    method AttachView(view: View)
      modifies this`trace, colorAttachments
      ensures colorAttachments[..] == InstallView(old(colorAttachments[..]), view)
      ensures trace == old(trace) + PatchTrace(old(colorAttachments[..]), view)
    {
      ghost var slots := colorAttachments[..];
      var i := 0;
      while i < colorAttachments.Length
        invariant 0 <= i <= colorAttachments.Length
        invariant forall k :: 0 <= k < i ==> colorAttachments[k] == Patched(slots[k], view)
        invariant forall k :: i <= k < colorAttachments.Length ==> colorAttachments[k] == slots[k]
        invariant trace == old(trace) + PatchTrace(slots[..i], view)
      {
        assert slots[..i + 1][..i] == slots[..i];
        var slot := colorAttachments[i];
        if slot.Some? {
          colorAttachments[i] := Some(slot.value.(view := Some(view)));
          trace := trace + [SetAttachmentView(i, view)];
        }
        i := i + 1;
      }
      assert slots[..i] == slots;
      assert colorAttachments[..] == InstallView(slots, view);
    }
  }
}
