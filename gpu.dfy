/** The WebGPU vocabulary the renderer uses, as opaque values.
    The GPU API itself is foreign code: every call the renderer makes into it
    is recorded as one `Cmd` in a trace, and every object it hands back is a
    plain value that says how it was created. */
module Gpu {

  datatype Option<T> = None | Some(value: T)

  /** The surface format the platform prefers (`getPreferredCanvasFormat`). */
  datatype TextureFormat = TextureFormat(name: string)

  /** A device handed out by an adapter's `requestDevice`. */
  datatype Device = Device(id: nat)

  /** What `requestDevice` resolves to on this adapter (`None`: no device). */
  datatype Adapter = Adapter(device: Option<Device>)

  /** What the platform offers at start-up: the result of `requestAdapter`
      (`None`: no adapter), the preferred canvas format, and whether the
      canvas hands out a "webgpu" context. */
  datatype Platform = Platform(adapter: Option<Adapter>, preferredFormat: TextureFormat, hasContext: bool)

  /** The device `adapter?.requestDevice()` yields: none when there is no
      adapter or the adapter gives no device. */
  function DeviceOf(p: Platform): Option<Device>
  {
    match p.adapter
    case None => None
    case Some(a) => a.device
  }

  /** A view of the surface's current texture, fresh for every frame. */
  datatype View = View(id: nat)

  datatype LoadOp = Clear | Load
  datatype StoreOp = Store | Discard

  /** One colour attachment of the render pass descriptor; `view` is unset
      until the first frame installs one. */
  datatype Attachment = Attachment(loadOp: LoadOp, storeOp: StoreOp, clearValue: seq<real>, view: Option<View>)

  datatype ShaderStage = VertexStage | FragmentStage
  datatype BindingKind = UniformBinding
  datatype LayoutEntry = LayoutEntry(binding: nat, visibility: set<ShaderStage>, kind: BindingKind)
  datatype BindGroupLayout = BindGroupLayout(entries: seq<LayoutEntry>)

  /** A render pipeline: its bind group layouts and the format of its one
      colour target. Vertex and fragment stages come from the one shader
      module and take their entry points from it. */
  datatype Pipeline = Pipeline(layouts: seq<BindGroupLayout>, targetFormat: TextureFormat)

  datatype BufferUsage = UniformUsage | CopyDstUsage
  datatype Buffer = Buffer(size: nat, usage: set<BufferUsage>)

  datatype GroupEntry = GroupEntry(binding: nat, buffer: Buffer)
  datatype BindGroup = BindGroup(layout: BindGroupLayout, entries: seq<GroupEntry>)

  /** One call into the GPU API, or one write to the render pass descriptor,
      in the order the renderer makes it. `GetCurrentView` stands for the
      pair `getCurrentTexture().createView()`, and `SetAttachmentView` for the
      property write `colorAttachment.view = view`. */
  datatype Cmd =
    // set-up calls made once by `init`
    | ConfigureContext(format: TextureFormat)
    | CreateShaderModule
    | CreateBindGroupLayout(layout: BindGroupLayout)
    | CreatePipelineLayout(layouts: seq<BindGroupLayout>)
    | CreateRenderPipeline(pipeline: Pipeline)
    | CreateBuffer(buffer: Buffer)
    | CreateBindGroup(group: BindGroup)
    // calls made by every rendered frame
    | GetCurrentView(view: View)
    | SetAttachmentView(index: nat, view: View)
    | CreateCommandEncoder
    | BeginRenderPass(attachments: seq<Option<Attachment>>)
    | SetPipeline(pipeline: Pipeline)
    | WriteBuffer(buffer: Buffer, offset: nat, data: seq<real>)
    | SetBindGroup(index: nat, group: BindGroup)
    | Draw(vertexCount: nat, instanceCount: nat)
    | EndPass
    | FinishEncoder
    | Submit(commandBuffers: nat)

  /** The step of a frame a command belongs to (1 to 11, in the order the
      frame issues them); set-up calls have rank 0. */
  function Rank(c: Cmd): nat
  {
    match c
    case GetCurrentView(_) => 1
    case SetAttachmentView(_, _) => 2
    case CreateCommandEncoder => 3
    case BeginRenderPass(_) => 4
    case SetPipeline(_) => 5
    case WriteBuffer(_, _, _) => 6
    case SetBindGroup(_, _) => 7
    case Draw(_, _) => 8
    case EndPass => 9
    case FinishEncoder => 10
    case Submit(_) => 11
    case _ => 0
  }

  predicate IsSetup(c: Cmd)
  {
    Rank(c) == 0
  }

  /** The set-up calls of a trace, in order. */
  function SetupCalls(s: seq<Cmd>): seq<Cmd>
  {
    if s == [] then []
    else (if IsSetup(s[0]) then [s[0]] else []) + SetupCalls(s[1..])
  }

  lemma {:induction false} SetupCallsAppend(a: seq<Cmd>, b: seq<Cmd>)
    ensures SetupCalls(a + b) == SetupCalls(a) + SetupCalls(b)
  {
    if a != [] {
      assert (a + b)[0] == a[0];
      assert (a + b)[1..] == a[1..] + b;
      SetupCallsAppend(a[1..], b);
    } else {
      assert a + b == b;
    }
  }

  lemma {:induction false} SetupCallsNone(s: seq<Cmd>)
    requires forall i :: 0 <= i < |s| ==> !IsSetup(s[i])
    ensures SetupCalls(s) == []
  {
    if s != [] {
      assert !IsSetup(s[0]);
      SetupCallsNone(s[1..]);
    }
  }

  lemma {:induction false} SetupCallsAll(s: seq<Cmd>)
    requires forall i :: 0 <= i < |s| ==> IsSetup(s[i])
    ensures SetupCalls(s) == s
  {
    if s != [] {
      assert IsSetup(s[0]);
      SetupCallsAll(s[1..]);
    }
  }

  /** The number of frames a trace has begun: each frame fetches the
      surface's view exactly once. */
  function Views(s: seq<Cmd>): nat
  {
    if s == [] then 0
    else (if s[0].GetCurrentView? then 1 else 0) + Views(s[1..])
  }

  lemma {:induction false} ViewsAppend(a: seq<Cmd>, b: seq<Cmd>)
    ensures Views(a + b) == Views(a) + Views(b)
  {
    if a != [] {
      assert (a + b)[0] == a[0];
      assert (a + b)[1..] == a[1..] + b;
      ViewsAppend(a[1..], b);
    } else {
      assert a + b == b;
    }
  }

  lemma {:induction false} ViewsNone(s: seq<Cmd>)
    requires forall i :: 0 <= i < |s| ==> !s[i].GetCurrentView?
    ensures Views(s) == 0
  {
    if s != [] {
      assert !s[0].GetCurrentView?;
      ViewsNone(s[1..]);
    }
  }
}
