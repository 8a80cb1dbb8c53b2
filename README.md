# WebGPU full-screen renderer: a Dafny model of its `Renderer`

The renderer draws one animated full-screen pattern with WebGPU. `init`
acquires an adapter, a device and the canvas context. It then builds one
render pipeline, a 12-byte uniform buffer with its bind group, and a render
pass descriptor. Last, it starts a 60 fps animation loop. Each loop
callback checks whether more than `1000 / 60` ms have passed since the last
frame. If so, it advances the simulation time by one fixed step and renders
once. Rendering writes `[canvas.width, canvas.height, time]` into the buffer
and submits one pass that draws three vertices.

The model has four modules:

- `Gpu` (gpu.dfy) is the WebGPU vocabulary. Each `Cmd` is one call into the
  API or one write to the render pass descriptor. `GetCurrentView` stands for
  the pair `getCurrentTexture().createView()`. `SetAttachmentView` stands for
  the property write `colorAttachment.view = view`. Each object the API
  returns is a value that records how it was created.
- `FrameClock` (frame_clock.dfy) holds the throttle. `Step` is one call of
  the `animate` closure on its captured `prev`, `time` and `targetMs`. `Run`
  and `Rendered` describe a sequence of such calls. The lemmas state the
  scheduling rule: a strict threshold, at most one render per tick, no
  catch-up, a fixed step, and a minimum spacing between renders.
- `Frame` (frame.dfy) gives the set-up calls of `init` and the calls of one
  `render` as command sequences. It also holds the layout of the shader's
  `Props` uniform block. The lemmas state the fixed order of a frame, that
  each step occurs exactly once, the arguments each call carries, and that a
  frame creates nothing.
- `Renderer` (renderer.dfy) is the class itself, with mutable fields and a
  ghost `trace` of every GPU call and descriptor write made so far. `Init` and its steps, `Tick`
  (one `animate` call), `Render` and its attachment loop are methods. Each
  one is proved to append exactly the commands `Frame` specifies and to move
  the clock exactly as `FrameClock.Step` does. The class invariant `Valid`
  states three things. Before a successful `init`, nothing has been created.
  Afterwards, the trace contains `init`'s set-up calls exactly once, so the
  pipeline and the bind group are never created again. The descriptor also
  keeps the one clear-and-store attachment `init` built; only its view
  changes.

Three behaviours of the code shape the model:
- When the context is missing, `setupDevice` has already stored the device
  and the preferred format before it throws "No context". `SetupDevice`
  keeps that partial state.
- The render pass descriptor is not rebuilt each frame. It is patched in
  place: its colour attachments get the new view in a loop.
- The code has no explicit phase. The `phase` field (`Uninitialized`, then
  `Ready`) is added so that "render only after init" can be stated.

## Model

| member | source | states |
|---|---|---|
| `Renderer.Renderer.constructor` | src/Renderer.ts:3-19 | a fresh renderer holds no device, pipeline, buffer or bind group and has made no GPU call |
| `Renderer.Renderer.Init` | src/Renderer.ts:21-27 | fails with `NoDevice` ("No device") iff the adapter or its device is missing; fails with `NoContext` ("No context") iff a device exists but the canvas has no context; on either failure nothing is configured or created, the phase stays `Uninitialized`, the clock and descriptor are unchanged, and the device and preferred format are unchanged after `NoDevice` but already stored after `NoContext`; on success the descriptor holds exactly the one clear/store attachment, with the first frame's view when that tick was due, and the trace gains exactly the set-up calls (configure, shader module, layout, pipeline layout, pipeline, 12-byte buffer, bind group) followed by the first tick's frame when that tick is due; the clock is `Step` of the 60 fps start clock |
| `Renderer.Renderer.CreateResources` | src/Renderer.ts:23-25 | the pipeline, then the buffer and bind group, then the descriptor with one clear/store attachment and no view are created, appending exactly the pipeline and buffer set-up calls |
| `Renderer.Renderer.SetupDevice` | src/Renderer.ts:29-51 | `NoDevice`, whose message is "No device", when `requestAdapter` or `requestDevice` yields nothing, with the device left unset; otherwise the device and preferred format are stored, then `NoContext`, whose message is "No context", when the canvas has no webgpu context; only on success is the context configured with the preferred format |
| `Renderer.Renderer.InitPipeline` | src/Renderer.ts:53-85 | creates, in order, the shader module, a layout with one uniform entry at binding 0 visible to vertex and fragment, a pipeline layout over it and a pipeline targeting the presentation format |
| `Renderer.Renderer.InitBuffers` | src/Renderer.ts:87-104 | creates one 12-byte buffer usable as uniform and copy destination, then one bind group putting it at binding 0 of the layout |
| `Renderer.Renderer.InitRenderPassDescriptor` | src/Renderer.ts:106-116 | the descriptor has exactly one colour attachment: clear to transparent black, store, no view |
| `Renderer.Renderer.StartAnimation` | src/Renderer.ts:118-124 | `targetMs = 1000 / fps`, `time` starts at 0 and `prev` at the start time; the immediate first tick renders only if more than `targetMs` ms have passed since the start, and otherwise leaves the trace and the descriptor untouched |
| `Renderer.Renderer.Tick` | src/Renderer.ts:126-137 | renders iff `now - prev > targetMs` (strict); a rendering tick adds exactly `targetMs / 1000` to `time`, sets `prev := now` and appends exactly one frame; a skipped tick changes neither `prev`, `time`, the trace nor the descriptor; the clock moves as `FrameClock.Step` |
| `Renderer.Renderer.Animate` | src/Renderer.ts:124-136 | repeated ticks driven by the host end with the clock at `Run` of the tick times; the trace gains exactly `RunFrames`, one frame per due tick with that tick's view and time; the number of frames begun in the trace grows by the number of due ticks, and the set-up calls are unchanged |
| `Renderer.Renderer.Render` | src/Renderer.ts:141-167 | appends exactly `FrameCommands` for the current descriptor, the fresh view, the canvas width and height read at the call, and the given time; installs the view on the descriptor; creates nothing, so the invariant holds |
| `Renderer.Renderer.AttachView` | src/Renderer.ts:142-147 | every non-null colour attachment gets the view and nothing else changes; one assignment per non-null slot, in slot order |
| `FrameClock.TargetInterval` | src/Renderer.ts:119 | the interval is positive and `interval * fps == 1000` |
| `FrameClock.DueAt60` | src/Renderer.ts:118-130 | at 60 fps with integer millisecond clocks, a tick renders iff at least 17 ms passed since `prev` |
| `FrameClock.RunKeepsInterval` | src/Renderer.ts:119 | no tick changes `targetMs` |
| `FrameClock.AtMostOneRenderPerTick` | src/Renderer.ts:126-137 | a run never renders more frames than it has ticks |
| `FrameClock.RunAddsIncrements` | src/Renderer.ts:128-133 | along any run, each rendered frame adds one `targetMs / 1000` to `time` and each skipped tick adds nothing |
| `FrameClock.RunTime` | src/Renderer.ts:130-133 | after any run, `time` equals its start value plus the number of rendered frames times `targetMs / 1000`, whatever the tick gaps were |
| `FrameClock.TimeFromStart` | src/Renderer.ts:119-133 | from `time = 0`, after n rendered frames `time == n * targetMs / 1000` |
| `FrameClock.RunTimeAtLeast` | src/Renderer.ts:130-131 | a run never lowers `time` |
| `FrameClock.TimeNonDecreasing` | src/Renderer.ts:130-131 | `time` after a longer run of ticks is at least `time` after any prefix of it |
| `FrameClock.RunPrev` | src/Renderer.ts:130-133 | after a run, `prev` is the wall time of the last rendered tick, or unchanged when none rendered |
| `FrameClock.RenderSpacing` | src/Renderer.ts:128-133 | the first render comes more than `targetMs` after `prev`, and each later one more than `targetMs` after the previous render |
| `FrameClock.RenderBudget` | src/Renderer.ts:128-133 | n renders span more than n times `targetMs` of wall time, counted from the clock's `prev` |
| `FrameClock.RunSnoc` | src/Renderer.ts:126-137 | one more tick after a run steps the clock once more and adds its time to the renders iff it was due |
| `FrameClock.FiveMillisecondTicks` | src/Renderer.ts:119-133 | ticks 5, 10, 15 and 20 ms after a fresh 60 fps start render exactly once, at 20 ms, and leave `time == 1/60` |
| `Frame.UniformLayoutMatches` | src/Renderer.ts:87-103 | the three payload values fill the 12-byte buffer exactly, value i at byte 4i where the shader's `Props` field i lies; the layout entry and bind group use binding 0 with a uniform buffer, as the shader declares |
| `Frame.SetupCreatesEachOnce` | src/Renderer.ts:47-103 | set-up configures the context once and creates exactly one pipeline, one 12-byte buffer and one bind group |
| `Frame.SetupOnce` | src/Renderer.ts:21-26 | after a trace with no set-up calls, a successful init leaves exactly its own set-up calls in it |
| `Frame.PatchTraceShape` | src/Renderer.ts:142-147 | the attachment loop assigns the view to each non-null slot exactly once, in increasing slot order, and touches no null slot |
| `Frame.FrameRanks` | src/Renderer.ts:141-165 | a frame has n + 10 calls, n the number of non-null slots: the view first, then the n assignments, then steps 3 to 11 one per position |
| `Frame.FrameInOrder` | src/Renderer.ts:141-165 | a frame's calls are in the fixed order: view, assignments, encoder, begin pass, set pipeline, write buffer, set bind group, draw, end, finish, submit |
| `Frame.FrameStepsOnce` | src/Renderer.ts:141-165 | every step except the view assignment occurs exactly once in a frame; the assignments occupy exactly the n positions after the first |
| `Frame.FrameArguments` | src/Renderer.ts:142-165 | every call carries the fresh view, the init-time pipeline and bind group (index 0), the payload `[width, height, time]` at offset 0 of the props buffer, a draw of 3 vertices and 1 instance, and one submitted command buffer |
| `Frame.SingleAttachmentFrame` | src/Renderer.ts:110-150 | on the descriptor `init` built, a frame assigns the view once, to slot 0, keeps the one clear/store attachment, and issues the same commands whatever view the previous frame installed |
| `Frame.FrameViews` | src/Renderer.ts:141-142 | a frame fetches the surface's view exactly once |
| `Frame.RunFramesSnoc` | src/Renderer.ts:126-137 | one more tick after a run adds that tick's frame iff the tick is due, and nothing otherwise |
| `Frame.RunFramesCount` | src/Renderer.ts:126-137 | the frames of a run begin one frame per rendered tick and contain no set-up or creation call |
| `Frame.FrameCreatesNothing` | src/Renderer.ts:141-167 | a frame contains no set-up or creation call |
| `Frame.FrameKeepsSetup` | src/Renderer.ts:141-167 | appending a frame leaves the set-up calls of a trace unchanged, so the pipeline and bind group are created once over the renderer's lifetime |

## Left out

- The WebGPU API itself: shader compilation, pipeline, layout and buffer creation, and the command encoder and queue internals. These are foreign calls. Each one is a `Cmd` in the trace, and each object it returns is a value with no identity of its own. Rejections by the platform during creation (a shader that fails to compile, a layout mismatch) are not modelled: creation always succeeds.
- `getCurrentTexture().createView()` is one `GetCurrentView` call whose view the host supplies. The `getPreferredCanvasFormat` query is not traced; its answer comes in the `Platform` value.
- `document.getElementById`, `navigator.gpu.requestAdapter`/`requestDevice` and `canvas.getContext` are not called. Their results are the `Canvas` and `Platform` arguments of `Init`.
- `new Date()` is the integer millisecond arguments `startMs`, `firstTickMs` and `now`. `requestAnimationFrame` is the host calling `Tick`, as `Animate` does. The loop has no end.
- The `async`/`await` structure of `init` and `setupDevice` is modelled as one sequential call that returns `Ok` or `Err`.
- Floating point: `targetMs`, `time` and the uniform payload are exact reals. The IEEE-754 rounding of `1000 / fps`, of the repeated `time +=` and of the `Float32Array` conversion is not modelled. The canvas width and height are naturals and convert to reals exactly.
- Renderer.Renderer.AttachView: the source mutates the attachment objects in place. The model replaces each array slot with an updated value, so aliasing between attachment objects is not modelled.
- The shader's WGSL code (vertex positions, `sin`, `smoothstep`, `distance`) runs on the GPU. Only its `Props` declaration and binding are modelled.
- The page bootstrap in src/main.ts, including its resize helper. The helper's source is not part of this model. A resize is a change of the `Canvas` fields between ticks, and `Render` reads those fields at each call.
