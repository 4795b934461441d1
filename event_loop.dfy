/**
  The event dispatch of src/main.rs: what the window-event closure does with each
  event. The winit loop itself is not modelled; one call of `HandleEvent` is one
  run of the closure, and what it returns says whether the loop was told to exit
  and whether a redraw was requested. The elapsed time, the outcomes of the
  readback mappings and the result of acquiring the frame are inputs.
 */
module EventLoop {
  import opened Wrappers
  import opened Structs
  import opened Device
  import opened Init
  import opened Controls
  import opened AppState

  datatype WindowEvent =
    | CloseRequested
    | RedrawRequested
    | KeyboardInput(event: KeyEvent)
    | Focused(focused: bool)
    | Resized(newSize: PhysicalSize)
    | OtherWindowEvent

  datatype Event = WindowEventOf(event: WindowEvent) | OtherEvent

  /** What a frame receives from outside the program. */
  datatype FrameInputs = FrameInputs(
    elapsed: real, map1: MapOutcome, map2: MapOutcome, acquire: Result<(), SurfaceError>, drawn: ShaderOutput)

  /** What the closure does with the result of `render`. */
  datatype RenderResponse = Continue | Reconfigure | Quit | Report(error: SurfaceError)

  /**
    Success continues, a lost surface is reconfigured, running out of memory
    quits, and every other error is reported and left to the next frame.
   */
  function ClassifyRenderResult(r: Result<(), SurfaceError>): (resp: RenderResponse)
    ensures resp == Continue <==> r.Ok?
    ensures resp == Reconfigure <==> r == Err(Lost)
    ensures resp == Quit <==> r == Err(OutOfMemory)
    ensures resp.Report? <==> r.Err? && r.error != Lost && r.error != OutOfMemory
    ensures resp.Report? ==> resp.error == r.error
  {
    match r
    case Ok(_) => Continue
    case Err(Lost) => Reconfigure
    case Err(OutOfMemory) => Quit
    case Err(e) => Report(e)
  }

  /** The effects of the response: the reconfiguration of `resize(size)`, or the error line. */
  function ResponseTrace(resp: RenderResponse, size: PhysicalSize, config: SurfaceConfiguration): seq<Effect> {
    match resp
    case Reconfigure =>
      var (_, c, configured) := AfterResize(size, config, size);
      if configured then [Configure(c)] else []
    case Report(e) => [Output(SurfaceErrorLine(e))]
    case _ => []
  }

  /** The time record written at the start of every frame. */
  function TimeWrite(elapsed: real): Effect {
    Write(TimeUniformBuffer, 0, TimeWords(TimeUniform(elapsed)))
  }

  /** The effects of `render` and of the response to its result. */
  function RenderAndResponseTrace(acquire: Result<(), SurfaceError>, size: PhysicalSize, config: SurfaceConfiguration)
    : seq<Effect>
  {
    (if acquire.Ok? then RenderTrace() else []) + ResponseTrace(ClassifyRenderResult(acquire), size, config)
  }

  /**
    The effects of one redraw: the time written, then `update`, then `render`,
    then the response to its result.
   */
  function FrameTrace(f: FrameInputs, keys: set<KeyCode>, mode: KeyboardMode, p: Params,
                      g: seq<Word>, a1: seq<Word>, a2: seq<Word>, mapped: set<BufferId>,
                      size: PhysicalSize, config: SurfaceConfiguration): seq<Effect>
    requires p.viewParams.zoom != 0.0 && ShadowShapes(g, a1, a2)
  {
    [TimeWrite(f.elapsed)]
      + UpdateTrace(keys, mode, p, g, a1, a2, mapped, f.map1, f.map2)
      + RenderAndResponseTrace(f.acquire, size, config)
  }

  /**
    A frame whose surface is lost draws nothing and only reconfigures the surface
    with the configuration it already has; one that runs out of memory draws and
    configures nothing; one with another error draws nothing and reports it. A
    successful frame draws, submits and presents, and configures nothing.
   */
  lemma FrameResponses(f: FrameInputs, keys: set<KeyCode>, mode: KeyboardMode, p: Params,
                       g: seq<Word>, a1: seq<Word>, a2: seq<Word>, mapped: set<BufferId>,
                       size: PhysicalSize, config: SurfaceConfiguration)
    requires p.viewParams.zoom != 0.0 && ShadowShapes(g, a1, a2)
    requires config.width == size.width && config.height == size.height
    ensures var u := [TimeWrite(f.elapsed)] + UpdateTrace(keys, mode, p, g, a1, a2, mapped, f.map1, f.map2);
      var t := FrameTrace(f, keys, mode, p, g, a1, a2, mapped, size, config);
      && t[0] == TimeWrite(f.elapsed)
      && (f.acquire.Ok? ==> t == u + RenderTrace())
      && (f.acquire == Err(Lost) ==>
            t == u + (if size.width > 0 && size.height > 0 then [Configure(config)] else []))
      && (f.acquire == Err(OutOfMemory) ==> t == u)
      && (f.acquire.Err? && f.acquire.error != Lost && f.acquire.error != OutOfMemory ==>
            t == u + [Output(SurfaceErrorLine(f.acquire.error))])
  {
    ResizeToCurrentSize(size, config, size);
  }

  /**
    One run of the event closure. Closing asks the loop to exit; a redraw writes
    the time, updates, renders, answers the render result and requests the next
    redraw; a keyboard event updates the held keys; losing focus forgets every held
    key; every other event, resizing included, is ignored. The trace of a redraw
    is `FrameTrace` written out.
   */
  method HandleEvent(state: State, event: Event, f: FrameInputs) returns (exit: bool, redraw: bool)
    requires state.Valid() && OutputFits(f.drawn)
    modifies state, state.controls, state.gpu
    modifies state.gpu.mem[TimeUniformBuffer], state.gpu.mem[ViewParamsBuffer], state.gpu.mem[RayParamsBuffer]
    modifies state.gpu.mem[CpuReadGenericDebug], state.gpu.mem[CpuReadDebugArray1], state.gpu.mem[CpuReadDebugArray2]
    modifies state.gpu.mem[GenericDebug], state.gpu.mem[DebugArray1], state.gpu.mem[DebugArray2]
    ensures state.Valid()
    ensures exit <==> event == WindowEventOf(CloseRequested)
                      || (event == WindowEventOf(RedrawRequested) && f.acquire == Err(OutOfMemory))
    ensures redraw <==> event == WindowEventOf(RedrawRequested)
    ensures event == WindowEventOf(RedrawRequested) ==>
      && state.controls.keys == old(state.controls.keys)
      && state.controls.mode == NextMode(old(state.controls.keys), old(state.controls.mode))
      && state.params == NextParams(old(state.controls.keys), old(state.controls.mode), old(state.params))
      && (var (g, a1, a2) := old(state.Shadows());
          state.gpu.trace == old(state.gpu.trace) + [TimeWrite(f.elapsed)]
            + UpdateTrace(old(state.controls.keys), old(state.controls.mode), old(state.params),
                          g, a1, a2, old(state.gpu.mapped), f.map1, f.map2)
            + RenderAndResponseTrace(f.acquire, old(state.size), old(state.surfaceConfig)))
      && state.gpu.mapped == ReadbackMapped(old(state.gpu.mapped),
                               TickReadback(old(state.controls.keys), old(state.controls.mode)), f.map1, f.map2)
      && state.Shadows() == old(state.DebugBuffers())
      && state.DebugBuffers() == (if f.acquire.Ok? then (f.drawn.genericDebug, f.drawn.debugArray1, f.drawn.debugArray2)
                                  else old(state.DebugBuffers()))
      && state.gpu.mem[TimeUniformBuffer][..] == TimeWords(TimeUniform(f.elapsed))
      && state.size == old(state.size) && state.surfaceConfig == old(state.surfaceConfig)
    ensures event != WindowEventOf(RedrawRequested) ==>
      && state.Shadows() == old(state.Shadows()) && state.DebugBuffers() == old(state.DebugBuffers())
      && state.gpu.mem[TimeUniformBuffer][..] == old(state.gpu.mem[TimeUniformBuffer][..])
      && state.controls.mode == old(state.controls.mode)
      && state.params == old(state.params)
      && state.size == old(state.size) && state.surfaceConfig == old(state.surfaceConfig)
      && state.gpu.mapped == old(state.gpu.mapped)
      && state.controls.keys == (match event
                                 case WindowEventOf(KeyboardInput(e)) => ApplyKeyEvent(old(state.controls.keys), e)
                                 case WindowEventOf(Focused(false)) => {}
                                 case _ => old(state.controls.keys))
      && state.gpu.trace == old(state.gpu.trace)
                            + (if event == WindowEventOf(Focused(false)) then [Output(FocusLostLine)] else [])
  {
    exit, redraw := false, false;
    match event
    case WindowEventOf(w) =>
      match w {
        case CloseRequested =>
          exit := true;
        case RedrawRequested =>
          exit := Redraw(state, f);
          redraw := true;
        case KeyboardInput(e) =>
          state.controls.HandleKeyboardInput(e);
        case Focused(focused) =>
          if !focused {
            state.controls.ClearKeys();
            state.gpu.Record(Output(FocusLostLine));
          }
        case Resized(_) =>
        case OtherWindowEvent =>
      }
    case OtherEvent =>
  }

  /** The `RedrawRequested` arm: returns whether the loop was told to exit. */
  method Redraw(state: State, f: FrameInputs) returns (exit: bool)
    requires state.Valid() && OutputFits(f.drawn)
    modifies state, state.controls`mode, state.gpu`trace, state.gpu`mapped, state.gpu`liveViews
    modifies state.gpu.mem[TimeUniformBuffer], state.gpu.mem[ViewParamsBuffer], state.gpu.mem[RayParamsBuffer]
    modifies state.gpu.mem[CpuReadGenericDebug], state.gpu.mem[CpuReadDebugArray1], state.gpu.mem[CpuReadDebugArray2]
    modifies state.gpu.mem[GenericDebug], state.gpu.mem[DebugArray1], state.gpu.mem[DebugArray2]
    ensures state.Valid()
    ensures state.controls.keys == old(state.controls.keys)
    ensures exit <==> f.acquire == Err(OutOfMemory)
    ensures state.controls.mode == NextMode(old(state.controls.keys), old(state.controls.mode))
    ensures state.params == NextParams(old(state.controls.keys), old(state.controls.mode), old(state.params))
    ensures var (g, a1, a2) := old(state.Shadows());
      state.gpu.trace == old(state.gpu.trace) + [TimeWrite(f.elapsed)]
        + UpdateTrace(old(state.controls.keys), old(state.controls.mode), old(state.params),
                      g, a1, a2, old(state.gpu.mapped), f.map1, f.map2)
        + RenderAndResponseTrace(f.acquire, old(state.size), old(state.surfaceConfig))
    ensures state.gpu.mapped == ReadbackMapped(old(state.gpu.mapped),
                                  TickReadback(old(state.controls.keys), old(state.controls.mode)), f.map1, f.map2)
    ensures state.Shadows() == old(state.DebugBuffers())
    ensures state.DebugBuffers() == if f.acquire.Ok? then (f.drawn.genericDebug, f.drawn.debugArray1, f.drawn.debugArray2)
                                    else old(state.DebugBuffers())
    ensures state.gpu.mem[TimeUniformBuffer][..] == TimeWords(TimeUniform(f.elapsed))
    ensures state.size == old(state.size) && state.surfaceConfig == old(state.surfaceConfig)
  {
    WriteTimeAndUpdate(state, f);
    exit := RenderAndRespond(state, f.acquire, f.drawn);
  }

  /** The first two steps of a redraw: the time write, then `update`. */
  method WriteTimeAndUpdate(state: State, f: FrameInputs)
    requires state.Valid()
    modifies state`params, state.controls`mode, state.gpu`trace, state.gpu`mapped, state.gpu`liveViews
    modifies state.gpu.mem[TimeUniformBuffer], state.gpu.mem[ViewParamsBuffer], state.gpu.mem[RayParamsBuffer]
    modifies state.gpu.mem[CpuReadGenericDebug], state.gpu.mem[CpuReadDebugArray1], state.gpu.mem[CpuReadDebugArray2]
    ensures state.Valid()
    ensures state.controls.keys == old(state.controls.keys)
    ensures state.size == old(state.size) && state.surfaceConfig == old(state.surfaceConfig)
    ensures state.controls.mode == NextMode(old(state.controls.keys), old(state.controls.mode))
    ensures state.params == NextParams(old(state.controls.keys), old(state.controls.mode), old(state.params))
    ensures var (g, a1, a2) := old(state.Shadows());
      state.gpu.trace == old(state.gpu.trace) + [TimeWrite(f.elapsed)]
        + UpdateTrace(old(state.controls.keys), old(state.controls.mode), old(state.params),
                      g, a1, a2, old(state.gpu.mapped), f.map1, f.map2)
    ensures state.gpu.mapped == ReadbackMapped(old(state.gpu.mapped),
                                  TickReadback(old(state.controls.keys), old(state.controls.mode)), f.map1, f.map2)
    ensures state.Shadows() == old(state.DebugBuffers()) && state.DebugBuffers() == old(state.DebugBuffers())
    ensures state.gpu.mem[TimeUniformBuffer][..] == TimeWords(TimeUniform(f.elapsed))
  {
    ShadowWords();
    WriteTime(state, f.elapsed);
    state.Update(f.map1, f.map2);
  }

  /** `render`, then the response to its result (the `match state.render()` of the closure). */
  method RenderAndRespond(state: State, acquire: Result<(), SurfaceError>, drawn: ShaderOutput) returns (exit: bool)
    requires state.Valid() && OutputFits(drawn)
    modifies state`size, state`surfaceConfig, state.gpu`trace
    modifies state.gpu.mem[GenericDebug], state.gpu.mem[DebugArray1], state.gpu.mem[DebugArray2]
    ensures state.Valid()
    ensures exit <==> acquire == Err(OutOfMemory)
    ensures state.gpu.trace == old(state.gpu.trace)
      + RenderAndResponseTrace(acquire, old(state.size), old(state.surfaceConfig))
    ensures state.DebugBuffers() ==
      if acquire.Ok? then (drawn.genericDebug, drawn.debugArray1, drawn.debugArray2) else old(state.DebugBuffers())
    ensures state.Shadows() == old(state.Shadows())
    ensures state.size == old(state.size) && state.surfaceConfig == old(state.surfaceConfig)
  {
    var r := state.Render(acquire, drawn);
    exit := false;
    match ClassifyRenderResult(r)
    case Continue =>
    case Reconfigure =>
      ResizeToCurrentSize(state.size, state.surfaceConfig, state.size);
      state.Resize(state.size);
    case Quit =>
      exit := true;
    case Report(e) =>
      state.gpu.Record(Output(SurfaceErrorLine(e)));
  }

  /** `queue.write_buffer(time_uniform, 0, elapsed)`: the parameter buffers are not touched. */
  method WriteTime(state: State, elapsed: real)
    requires state.Valid()
    modifies state.gpu`trace, state.gpu.mem[TimeUniformBuffer]
    ensures state.Valid()
    ensures state.gpu.mem[TimeUniformBuffer][..] == TimeWords(TimeUniform(elapsed))
    ensures state.gpu.trace == old(state.gpu.trace) + [TimeWrite(elapsed)]
    ensures state.Shadows() == old(state.Shadows())
  {
    var gpu := state.gpu;
    assert gpu.nameOf[gpu.mem[CpuReadGenericDebug]] == CpuReadGenericDebug;
    assert gpu.nameOf[gpu.mem[CpuReadDebugArray1]] == CpuReadDebugArray1;
    assert gpu.nameOf[gpu.mem[CpuReadDebugArray2]] == CpuReadDebugArray2;
    assert gpu.nameOf[gpu.mem[TimeUniformBuffer]] == TimeUniformBuffer;
    assert gpu.nameOf[gpu.mem[ViewParamsBuffer]] == ViewParamsBuffer;
    assert gpu.nameOf[gpu.mem[RayParamsBuffer]] == RayParamsBuffer;
    WriteAtWhole(gpu.mem[TimeUniformBuffer][..], TimeWords(TimeUniform(elapsed)));
    gpu.WriteBuffer(TimeUniformBuffer, 0, TimeWords(TimeUniform(elapsed)));
  }
}
