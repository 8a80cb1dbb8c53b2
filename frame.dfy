/** What `init` creates and what one call of `render` issues, as command
    sequences over the Gpu vocabulary, with the uniform layout the shader
    expects. */
module Frame {
  import opened Gpu
  import opened FrameClock

  // The shader's uniform block: `struct Props { width: f32, height: f32,
  // time: f32 }` at `@group(0) @binding(0)`.

  datatype ScalarType = F32
  datatype Field = Field(name: string, ty: ScalarType)

  const PropsGroup: nat := 0
  const PropsBinding: nat := 0
  const PropsStruct: seq<Field> := [Field("width", F32), Field("height", F32), Field("time", F32)]

  /** Byte size of a WGSL scalar; an `f32` is 4 bytes with 4-byte alignment,
      so a struct of them has no padding. */
  function SizeOf(t: ScalarType): nat
  {
    match t
    case F32 => 4
  }

  function StructSize(fields: seq<Field>): nat
  {
    if fields == [] then 0 else SizeOf(fields[0].ty) + StructSize(fields[1..])
  }

  /** Byte offset of field `i`: the size of the fields before it. */
  function FieldOffset(fields: seq<Field>, i: nat): nat
    requires i < |fields|
  {
    StructSize(fields[..i])
  }

  // The objects `initPipeline` and `initBuffers` create.

  /** One entry: binding 0, seen by the vertex and fragment stages, a uniform buffer. */
  const PropsLayout: BindGroupLayout := BindGroupLayout([LayoutEntry(0, {VertexStage, FragmentStage}, UniformBinding)])

  /** `3 * 4` bytes: three 32-bit floats. */
  const PropsBufferSize: nat := 3 * 4

  const PropsBuffer: Buffer := Buffer(PropsBufferSize, {UniformUsage, CopyDstUsage})

  const PropsBindGroup: BindGroup := BindGroup(PropsLayout, [GroupEntry(0, PropsBuffer)])

  function PipelineFor(format: TextureFormat): Pipeline
  {
    Pipeline([PropsLayout], format)
  }

  /** The descriptor's one colour attachment as `initRenderPassDescriptor`
      builds it: clear to transparent black, store, no view yet. */
  const InitialAttachment: Attachment := Attachment(Clear, Store, [0.0, 0.0, 0.0, 0.0], None)

  /** The calls of `setupDevice` once both checks passed. */
  function DeviceSetup(format: TextureFormat): seq<Cmd>
  {
    [ConfigureContext(format)]
  }

  /** The calls of `initPipeline`. */
  function PipelineSetup(format: TextureFormat): seq<Cmd>
  {
    [CreateShaderModule, CreateBindGroupLayout(PropsLayout), CreatePipelineLayout([PropsLayout]),
     CreateRenderPipeline(PipelineFor(format))]
  }

  /** The calls of `initBuffers`. */
  function BufferSetup(): seq<Cmd>
  {
    [CreateBuffer(PropsBuffer), CreateBindGroup(PropsBindGroup)]
  }

  /** Everything a successful `init` creates, in order. */
  function SetupCommands(format: TextureFormat): seq<Cmd>
  {
    DeviceSetup(format) + PipelineSetup(format) + BufferSetup()
  }

  /** The GPU objects a frame refers to. */
  datatype Resources = Resources(pipeline: Pipeline, buffer: Buffer, group: BindGroup)

  function SetupResources(format: TextureFormat): Resources
  {
    Resources(PipelineFor(format), PropsBuffer, PropsBindGroup)
  }

  // One frame.

  /** The values `render` writes: `[canvas.width, canvas.height, time]`. */
  function UniformPayload(width: nat, height: nat, time: real): seq<real>
  {
    [width as real, height as real, time]
  }

  /** A descriptor slot after the view was installed: only non-null slots change. */
  function Patched(slot: Option<Attachment>, v: View): Option<Attachment>
  {
    match slot
    case None => None
    case Some(a) => Some(a.(view := Some(v)))
  }

  function InstallView(atts: seq<Option<Attachment>>, v: View): seq<Option<Attachment>>
  {
    seq(|atts|, i requires 0 <= i < |atts| => Patched(atts[i], v))
  }

  /** Number of non-null slots. */
  function Present(atts: seq<Option<Attachment>>): nat
  {
    if atts == [] then 0
    else Present(atts[..|atts| - 1]) + (if atts[|atts| - 1].Some? then 1 else 0)
  }

  /** The view assignments of the loop over the descriptor's slots. */
  function PatchTrace(atts: seq<Option<Attachment>>, v: View): seq<Cmd>
  {
    if atts == [] then []
    else PatchTrace(atts[..|atts| - 1], v)
         + (if atts[|atts| - 1].Some? then [SetAttachmentView(|atts| - 1, v)] else [])
  }

  /** The calls of `render` after the view is installed. */
  function FrameTail(res: Resources, atts: seq<Option<Attachment>>, v: View, width: nat, height: nat, time: real): seq<Cmd>
  {
    [CreateCommandEncoder, BeginRenderPass(InstallView(atts, v)), SetPipeline(res.pipeline),
     WriteBuffer(res.buffer, 0, UniformPayload(width, height, time)), SetBindGroup(0, res.group),
     Draw(3, 1), EndPass, FinishEncoder, Submit(1)]
  }

  /** Everything one call of `render` issues, given the descriptor's slots
      before the call, the fresh view and the canvas size read at the call. */
  function FrameCommands(res: Resources, atts: seq<Option<Attachment>>, v: View, width: nat, height: nat, time: real): seq<Cmd>
  {
    [GetCurrentView(v)] + PatchTrace(atts, v) + FrameTail(res, atts, v, width, height, time)
  }

  ghost predicate InRankOrder(s: seq<Cmd>)
  {
    forall i, j :: 0 <= i < j < |s| ==> Rank(s[i]) <= Rank(s[j])
  }

  ghost predicate OccursOnce(s: seq<Cmd>, k: nat)
  {
    exists i :: 0 <= i < |s| && Rank(s[i]) == k && forall j :: 0 <= j < |s| && Rank(s[j]) == k ==> j == i
  }

  /** The arguments each kind of frame command carries. */
  ghost predicate FrameArgs(c: Cmd, res: Resources, atts: seq<Option<Attachment>>, v: View, width: nat, height: nat, time: real)
  {
    match c
    case GetCurrentView(view) => view == v
    case SetAttachmentView(i, view) => view == v && i < |atts| && atts[i].Some?
    case BeginRenderPass(slots) => slots == InstallView(atts, v)
    case SetPipeline(p) => p == res.pipeline
    case WriteBuffer(b, offset, data) => b == res.buffer && offset == 0 && data == UniformPayload(width, height, time)
    case SetBindGroup(index, g) => index == 0 && g == res.group
    case Draw(vertices, instances) => vertices == 3 && instances == 1
    case Submit(n) => n == 1
    case _ => true
  }

  /** The payload fills the 12-byte buffer exactly, value i landing on field
      i of the shader's struct, and buffer and layout sit at the binding the
      shader declares. */
  lemma UniformLayoutMatches(width: nat, height: nat, time: real)
    ensures StructSize(PropsStruct) == PropsBuffer.size
    ensures |UniformPayload(width, height, time)| == |PropsStruct|
    ensures forall i :: 0 <= i < |PropsStruct| ==> FieldOffset(PropsStruct, i) == 4 * i
    ensures PropsLayout.entries[0].binding == PropsBinding && PropsLayout.entries[0].kind == UniformBinding
    ensures PropsBindGroup.entries == [GroupEntry(PropsBinding, PropsBuffer)]
  {
    assert PropsStruct[..0] == [];
    assert PropsStruct[..1] == [Field("width", F32)];
    assert PropsStruct[..2] == [Field("width", F32), Field("height", F32)];
  }

  lemma {:induction false} PatchTraceElements(atts: seq<Option<Attachment>>, v: View)
    ensures |PatchTrace(atts, v)| == Present(atts)
    ensures forall c <- PatchTrace(atts, v) ::
      c.SetAttachmentView? && c.view == v && c.index < |atts| && atts[c.index].Some?
    decreases |atts|
  {
    if atts != [] {
      var init := atts[..|atts| - 1];
      PatchTraceElements(init, v);
      assert forall k :: 0 <= k < |init| ==> init[k] == atts[k];
    }
  }

  lemma {:induction false} PatchTraceIncreasing(atts: seq<Option<Attachment>>, v: View)
    ensures forall i, j :: 0 <= i < j < |PatchTrace(atts, v)| ==>
      && PatchTrace(atts, v)[i].SetAttachmentView? && PatchTrace(atts, v)[j].SetAttachmentView?
      && PatchTrace(atts, v)[i].index < PatchTrace(atts, v)[j].index
    decreases |atts|
  {
    if atts != [] {
      var n := |atts| - 1;
      var init := atts[..n];
      PatchTraceIncreasing(init, v);
      PatchTraceElements(init, v);
      var p := PatchTrace(init, v);
      var q := PatchTrace(atts, v);
      assert forall c <- p :: c.index < n;
      if atts[n].Some? {
        assert q == p + [SetAttachmentView(n, v)];
        forall i, j | 0 <= i < j < |q|
          ensures q[i].SetAttachmentView? && q[j].SetAttachmentView? && q[i].index < q[j].index
        {
          assert q[i] == p[i] && q[i] in p;
          if j < |p| {
            assert q[j] == p[j];
          }
        }
      } else {
        assert q == p;
        forall i, j | 0 <= i < j < |q|
          ensures q[i].SetAttachmentView? && q[j].SetAttachmentView? && q[i].index < q[j].index
        {
          assert q[i] == p[i] && q[j] == p[j];
        }
      }
    } else {
      assert PatchTrace(atts, v) == [];
    }
  }

  lemma {:induction false} PatchTraceCovers(atts: seq<Option<Attachment>>, v: View)
    ensures forall k :: 0 <= k < |atts| && atts[k].Some? ==> SetAttachmentView(k, v) in PatchTrace(atts, v)
    decreases |atts|
  {
    if atts != [] {
      var n := |atts| - 1;
      var init := atts[..n];
      PatchTraceCovers(init, v);
      assert forall k :: 0 <= k < n ==> init[k] == atts[k];
    }
  }

  /** The loop assigns the view to each non-null slot exactly once, in slot
      order, and to nothing else. */
  lemma PatchTraceShape(atts: seq<Option<Attachment>>, v: View)
    ensures |PatchTrace(atts, v)| == Present(atts)
    ensures forall c <- PatchTrace(atts, v) ::
      c.SetAttachmentView? && c.view == v && c.index < |atts| && atts[c.index].Some?
    ensures forall i, j :: 0 <= i < j < |PatchTrace(atts, v)| ==>
      && PatchTrace(atts, v)[i].SetAttachmentView? && PatchTrace(atts, v)[j].SetAttachmentView?
      && PatchTrace(atts, v)[i].index < PatchTrace(atts, v)[j].index
    ensures forall k :: 0 <= k < |atts| && atts[k].Some? ==> SetAttachmentView(k, v) in PatchTrace(atts, v)
  {
    PatchTraceElements(atts, v);
    PatchTraceIncreasing(atts, v);
    PatchTraceCovers(atts, v);
  }

  lemma TailRanks(res: Resources, atts: seq<Option<Attachment>>, v: View, width: nat, height: nat, time: real)
    ensures var t := FrameTail(res, atts, v, width, height, time);
      |t| == 9 && forall k :: 0 <= k < 9 ==> Rank(t[k]) == k + 3
  {
    var t := FrameTail(res, atts, v, width, height, time);
    forall k | 0 <= k < 9
      ensures Rank(t[k]) == k + 3
    {
      if k < 3 {
        assert k == 0 || k == 1 || k == 2;
      } else if k < 6 {
        assert k == 3 || k == 4 || k == 5;
      } else {
        assert k == 6 || k == 7 || k == 8;
      }
    }
  }

  /** Rank of each position of a frame: the view first, then one assignment
      per non-null slot, then steps 3 to 11 one at a time. */
  lemma FrameRanks(res: Resources, atts: seq<Option<Attachment>>, v: View, width: nat, height: nat, time: real)
    ensures var f := FrameCommands(res, atts, v, width, height, time);
      var n := Present(atts);
      && |f| == n + 10
      && forall i :: 0 <= i < |f| ==> Rank(f[i]) == if i == 0 then 1 else if i <= n then 2 else i - n + 2
  {
    var p := PatchTrace(atts, v);
    var t := FrameTail(res, atts, v, width, height, time);
    var f := FrameCommands(res, atts, v, width, height, time);
    PatchTraceElements(atts, v);
    TailRanks(res, atts, v, width, height, time);
    var n := |p|;
    assert f == [GetCurrentView(v)] + p + t;
    forall i | 1 <= i <= n
      ensures Rank(f[i]) == 2
    {
      assert f[i] == p[i - 1] && p[i - 1] in p;
    }
    forall i | n < i < |f|
      ensures Rank(f[i]) == i - n + 2
    {
      assert f[i] == t[i - n - 1];
    }
  }

  /** A frame issues its commands in the fixed order: view, view
      assignments, encoder, begin pass, pipeline, uniform write, bind group,
      draw, end, finish, submit. */
  lemma FrameInOrder(res: Resources, atts: seq<Option<Attachment>>, v: View, width: nat, height: nat, time: real)
    ensures InRankOrder(FrameCommands(res, atts, v, width, height, time))
  {
    FrameRanks(res, atts, v, width, height, time);
  }

  /** Every step but the view assignments occurs exactly once in a frame;
      there is one assignment per non-null slot. */
  lemma FrameStepsOnce(res: Resources, atts: seq<Option<Attachment>>, v: View, width: nat, height: nat, time: real)
    ensures forall k :: 1 <= k <= 11 && k != 2 ==> OccursOnce(FrameCommands(res, atts, v, width, height, time), k)
    ensures forall i :: 0 <= i < |FrameCommands(res, atts, v, width, height, time)| ==>
      (Rank(FrameCommands(res, atts, v, width, height, time)[i]) == 2 <==> 1 <= i <= Present(atts))
  {
    var f := FrameCommands(res, atts, v, width, height, time);
    var n := Present(atts);
    FrameRanks(res, atts, v, width, height, time);
    forall k | 1 <= k <= 11 && k != 2
      ensures OccursOnce(f, k)
    {
      var i := if k == 1 then 0 else k + n - 2;
      assert Rank(f[i]) == k;
    }
  }

  /** Each frame command carries the expected arguments: the fresh view on
      every non-null slot, the init-time pipeline and bind group (at index 0),
      the uniform payload at offset 0, a draw of 3 vertices and 1 instance,
      and a single command buffer submitted. */
  lemma FrameArguments(res: Resources, atts: seq<Option<Attachment>>, v: View, width: nat, height: nat, time: real)
    ensures forall c <- FrameCommands(res, atts, v, width, height, time) :: FrameArgs(c, res, atts, v, width, height, time)
  {
    var p := PatchTrace(atts, v);
    var t := FrameTail(res, atts, v, width, height, time);
    PatchTraceElements(atts, v);
    assert forall c <- p :: FrameArgs(c, res, atts, v, width, height, time);
    assert forall c <- t :: FrameArgs(c, res, atts, v, width, height, time);
    assert FrameCommands(res, atts, v, width, height, time) == [GetCurrentView(v)] + p + t;
  }

  /** A frame creates and configures nothing. */
  lemma FrameCreatesNothing(res: Resources, atts: seq<Option<Attachment>>, v: View, width: nat, height: nat, time: real)
    ensures SetupCalls(FrameCommands(res, atts, v, width, height, time)) == []
  {
    FrameRanks(res, atts, v, width, height, time);
    SetupCallsNone(FrameCommands(res, atts, v, width, height, time));
  }

  /** `init` configures the context once and creates one shader module, one
      layout, one pipeline, one 12-byte buffer and one bind group. */
  lemma SetupCreatesEachOnce(format: TextureFormat)
    ensures var s := SetupCommands(format);
      && multiset(s)[ConfigureContext(format)] == 1
      && multiset(s)[CreateRenderPipeline(PipelineFor(format))] == 1
      && multiset(s)[CreateBuffer(PropsBuffer)] == 1
      && multiset(s)[CreateBindGroup(PropsBindGroup)] == 1
      && (forall c <- s :: c.CreateRenderPipeline? ==> c == CreateRenderPipeline(PipelineFor(format)))
      && (forall c <- s :: c.CreateBuffer? ==> c.buffer.size == 12)
      && (forall c <- s :: c.CreateBindGroup? ==> c.group == PropsBindGroup)
  {
  }

  /** After a trace with no set-up calls, a successful `init` leaves exactly
      its own set-up calls in it. */
  lemma SetupOnce(before: seq<Cmd>, format: TextureFormat)
    requires SetupCalls(before) == []
    ensures SetupCalls(before + SetupCommands(format)) == SetupCommands(format)
  {
    SetupCallsAppend(before, SetupCommands(format));
    SetupCallsAll(SetupCommands(format));
  }

  /** Rendering a frame leaves the set-up calls of a trace as they were. */
  lemma FrameKeepsSetup(before: seq<Cmd>, res: Resources, atts: seq<Option<Attachment>>, v: View, width: nat, height: nat, time: real)
    ensures SetupCalls(before + FrameCommands(res, atts, v, width, height, time)) == SetupCalls(before)
  {
    SetupCallsAppend(before, FrameCommands(res, atts, v, width, height, time));
    FrameCreatesNothing(res, atts, v, width, height, time);
  }

  /** The render pass descriptor as `initRenderPassDescriptor` built it: one
      clear-and-store attachment, holding whatever view was installed last. */
  predicate SingleAttachment(atts: seq<Option<Attachment>>)
  {
    |atts| == 1 && atts[0].Some? && atts[0].value.(view := None) == InitialAttachment
  }

  /** On the descriptor `init` built, a frame assigns the view once, to slot
      0, keeps the descriptor's shape, and does not depend on the view the
      previous frame installed. */
  lemma SingleAttachmentFrame(res: Resources, atts: seq<Option<Attachment>>, v: View, width: nat, height: nat, time: real)
    requires SingleAttachment(atts)
    ensures InstallView(atts, v) == [Some(InitialAttachment.(view := Some(v)))]
    ensures SingleAttachment(InstallView(atts, v))
    ensures PatchTrace(atts, v) == [SetAttachmentView(0, v)]
    ensures FrameCommands(res, atts, v, width, height, time)
         == FrameCommands(res, [Some(InitialAttachment)], v, width, height, time)
  {
    var a := atts[0].value;
    assert a.(view := Some(v)) == InitialAttachment.(view := Some(v));
    assert InstallView(atts, v)[0] == Some(a.(view := Some(v)));
    assert atts[..0] == [] && [Some(InitialAttachment)][..0] == [];
    assert InstallView([Some(InitialAttachment)], v)[0] == Some(InitialAttachment.(view := Some(v)));
  }

  /** A frame fetches the surface's view exactly once. */
  lemma FrameViews(res: Resources, atts: seq<Option<Attachment>>, v: View, width: nat, height: nat, time: real)
    ensures Views(FrameCommands(res, atts, v, width, height, time)) == 1
  {
    var f := FrameCommands(res, atts, v, width, height, time);
    FrameRanks(res, atts, v, width, height, time);
    assert f == [f[0]] + f[1..];
    ViewsAppend([f[0]], f[1..]);
    assert forall i :: 0 <= i < |f[1..]| ==> f[1..][i] == f[i + 1];
    ViewsNone(f[1..]);
    ViewsNone([]);
  }

  /** The commands a run of `animate` ticks issues over the descriptor `init`
      built: one frame per due tick, with that tick's view and the simulation
      time after the tick. */
  function RunFrames(res: Resources, c: Clock, ticks: seq<int>, views: seq<View>, width: nat, height: nat): seq<Cmd>
    requires |views| == |ticks|
    decreases |ticks|
  {
    if ticks == [] then []
    else
      var c' := Step(c, ticks[0]);
      (if Due(c, ticks[0]) then FrameCommands(res, [Some(InitialAttachment)], views[0], width, height, c'.time) else [])
      + RunFrames(res, c', ticks[1..], views[1..], width, height)
  }

  /** One more tick after a run adds its frame iff the tick is due. */
  lemma {:induction false} RunFramesSnoc(res: Resources, c: Clock, ticks: seq<int>, views: seq<View>,
                                         now: int, v: View, width: nat, height: nat)
    requires |views| == |ticks|
    ensures RunFrames(res, c, ticks + [now], views + [v], width, height)
         == RunFrames(res, c, ticks, views, width, height)
            + (if Due(Run(c, ticks), now)
               then FrameCommands(res, [Some(InitialAttachment)], v, width, height, Step(Run(c, ticks), now).time)
               else [])
    decreases |ticks|
  {
    if ticks == [] {
      assert ticks + [now] == [now] && views + [v] == [v];
      assert [now][1..] == [] && [v][1..] == [];
    } else {
      assert (ticks + [now])[0] == ticks[0] && (ticks + [now])[1..] == ticks[1..] + [now];
      assert (views + [v])[0] == views[0] && (views + [v])[1..] == views[1..] + [v];
      RunFramesSnoc(res, Step(c, ticks[0]), ticks[1..], views[1..], now, v, width, height);
    }
  }

  /** A run of ticks begins exactly one frame per rendered tick and creates
      nothing. */
  lemma {:induction false} RunFramesCount(res: Resources, c: Clock, ticks: seq<int>, views: seq<View>, width: nat, height: nat)
    requires |views| == |ticks|
    ensures Views(RunFrames(res, c, ticks, views, width, height)) == |Rendered(c, ticks)|
    ensures SetupCalls(RunFrames(res, c, ticks, views, width, height)) == []
    decreases |ticks|
  {
    if ticks != [] {
      var c' := Step(c, ticks[0]);
      var rest := RunFrames(res, c', ticks[1..], views[1..], width, height);
      RunFramesCount(res, c', ticks[1..], views[1..], width, height);
      if Due(c, ticks[0]) {
        var f := FrameCommands(res, [Some(InitialAttachment)], views[0], width, height, c'.time);
        FrameViews(res, [Some(InitialAttachment)], views[0], width, height, c'.time);
        FrameCreatesNothing(res, [Some(InitialAttachment)], views[0], width, height, c'.time);
        ViewsAppend(f, rest);
        SetupCallsAppend(f, rest);
      } else {
        assert RunFrames(res, c, ticks, views, width, height) == [] + rest == rest;
        assert Rendered(c, ticks) == [] + Rendered(c', ticks[1..]) == Rendered(c', ticks[1..]);
      }
    }
  }
}
