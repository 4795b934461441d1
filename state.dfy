/**
  The application state (src/app/state.rs) and the per-tick handlers of
  src/app/controls.rs that change it: the surface-format choice, construction,
  `update`, `render` and `resize`.

  `State` owns the device (`gpu`), the keyboard state and the host-side copies of
  the parameters. Between calls it keeps the parameter buffers equal to the
  serialised host parameters, every buffer at its created size, no live mapped
  view, the ray fields clamped at zero, a positive zoom, and a surface
  configuration whose dimensions are the window size.
 */
module AppState {
  import opened Wrappers
  import opened Structs
  import opened Device
  import opened Vertices
  import opened Init
  import opened ParamUpdates
  import opened Controls

  // ---------------------------------------------------------------------------
  // Surface format
  // ---------------------------------------------------------------------------

  /** `iter().filter(is_srgb).next()`: the index of the first sRGB format, or `|formats|` if there is none. */
  function FirstSrgbIndex(formats: seq<TextureFormat>): (i: nat)
    ensures i <= |formats|
    ensures i < |formats| ==> formats[i].IsSrgb()
    ensures forall j | 0 <= j < i :: !formats[j].IsSrgb()
  {
    if formats == [] then 0
    else if formats[0].IsSrgb() then 0
    else 1 + FirstSrgbIndex(formats[1..])
  }

  /**
    The format `State::new` configures: the first sRGB format in list order,
    else `formats[0]`; an empty list has no format (the source indexes it and panics).
   */
  function ChooseSurfaceFormat(formats: seq<TextureFormat>): Option<TextureFormat> {
    if formats == [] then None
    else
      var i := FirstSrgbIndex(formats);
      if i < |formats| then Some(formats[i]) else Some(formats[0])
  }

  /**
    The chosen format exists exactly when the list is non-empty; it is sRGB exactly
    when some listed format is, and then no earlier format is sRGB; otherwise it
    is the first format.
   */
  lemma SurfaceFormatChoice(formats: seq<TextureFormat>)
    ensures ChooseSurfaceFormat(formats).Some? <==> formats != []
    ensures formats != [] ==>
      var f := ChooseSurfaceFormat(formats).value;
      && f in formats
      && (f.IsSrgb() <==> exists k | 0 <= k < |formats| :: formats[k].IsSrgb())
      && (f.IsSrgb() ==> exists i | 0 <= i < |formats| :: formats[i] == f && forall j | 0 <= j < i :: !formats[j].IsSrgb())
      && (!f.IsSrgb() ==> f == formats[0])
  {
    if formats != [] {
      var i := FirstSrgbIndex(formats);
      if i == |formats| {
        assert !formats[0].IsSrgb();
      }
    }
  }

  /**
    The initial parameters meet the invariant the controller keeps (clamped ray
    fields, positive zoom), and the initial parameter buffers read back as them.
   */
  lemma InitialParamsBuffersAgree()
    ensures ParamsInvariant(InitParams())
    ensures RayFromWords(InitialContents(InitParams())[RayParamsBuffer]) == Some(InitParams().rayParams)
    ensures ViewFromWords(InitialContents(InitParams())[ViewParamsBuffer]) == Some(InitParams().viewParams)
  {
    var p := InitParams();
    InitialParamBuffersInDeclarationOrder(p);
    RoundTrips(TimeUniform(0.0), p.rayParams, p.viewParams, p.terrainParams);
  }

  // ---------------------------------------------------------------------------
  // One call of `update_controls`, as functions
  // ---------------------------------------------------------------------------

  /** The shadow contents as debug records expect them: one 4-word record, two 512-item arrays. */
  predicate ShadowShapes(g: seq<Word>, a1: seq<Word>, a2: seq<Word>) {
    |g| == DEBUG_RECORD_WORDS && |a1| == DEBUG_ARRAY_WORDS && |a2| == DEBUG_ARRAY_WORDS
  }

  /**
    What a debug readback prints, given the shadows' contents, the buffers already
    mapped and what the device reports for each mapping: `KeyS` reads the generic
    shadow as 4-word records, 1 and 2 read one array shadow as 512-item records,
    3 interleaves the two array shadows.
   */
  function ReadbackTrace(g: seq<Word>, a1: seq<Word>, a2: seq<Word>, mapped: set<BufferId>,
                         rb: Option<Readback>, o1: MapOutcome, o2: MapOutcome): seq<Effect>
    requires ShadowShapes(g, a1, a2)
  {
    match rb
    case None => []
    case Some(ReadGeneric) =>
      PrintGpuDataTrace(g, "Debug", DEBUG_RECORD_WORDS, MapSucceeds(o1, CpuReadGenericDebug in mapped))
    case Some(ReadArray1) =>
      PrintGpuDataTrace(a1, "Debug", DEBUG_ARRAY_WORDS, MapSucceeds(o1, CpuReadDebugArray1 in mapped))
    case Some(ReadArray2) =>
      PrintGpuDataTrace(a2, "Debug", DEBUG_ARRAY_WORDS, MapSucceeds(o1, CpuReadDebugArray2 in mapped))
    case Some(ReadInterleaved) =>
      var (ok1, ok2) := InterleaveMapped(mapped, CpuReadDebugArray1, CpuReadDebugArray2, o1, o2);
      InterleaveTrace(a1, a2, ok1, ok2)
  }

  /** The mapped buffers after a readback: only the interleaved one can leave a buffer mapped. */
  function ReadbackMapped(mapped: set<BufferId>, rb: Option<Readback>, o1: MapOutcome, o2: MapOutcome): set<BufferId> {
    if rb == Some(ReadInterleaved)
    then InterleaveMapState(mapped, CpuReadDebugArray1, CpuReadDebugArray2, o1, o2)
    else mapped
  }

  /**
    The effects of the handler of `mode`: the readback of the debug handler, the
    buffer write of the view or ray handler when it changes a field, the stub line
    of the terrain handler, the parameter dump of the print handler.
   */
  function HandlerTrace(keys: set<KeyCode>, mode: KeyboardMode, p: Params,
                        g: seq<Word>, a1: seq<Word>, a2: seq<Word>, mapped: set<BufferId>,
                        o1: MapOutcome, o2: MapOutcome): seq<Effect>
    requires p.viewParams.zoom != 0.0 && ShadowShapes(g, a1, a2)
  {
    match mode
    case DebugMode => ReadbackTrace(g, a1, a2, mapped, DebugChoice(keys), o1, o2)
    case ViewMode =>
      if ViewSyncs(keys) then [Write(ViewParamsBuffer, 0, ViewWords(ViewStep(keys, p.viewParams)))] else []
    case RayMode =>
      if RaySyncs(keys) then [Write(RayParamsBuffer, 0, RayWords(RayStep(keys, p.rayParams)))] else []
    case TerrainMode => [Output(TerrainStubLine)]
    case PrintMode => [Output(ParamsDump(p))]
  }

  /** The effects of one `update_controls`: the handler of the selected mode. */
  function ControlsTrace(keys: set<KeyCode>, mode: KeyboardMode, p: Params,
                         g: seq<Word>, a1: seq<Word>, a2: seq<Word>, mapped: set<BufferId>,
                         o1: MapOutcome, o2: MapOutcome): seq<Effect>
    requires p.viewParams.zoom != 0.0 && ShadowShapes(g, a1, a2)
  {
    HandlerTrace(keys, SelectMode(keys, mode), p, g, a1, a2, mapped, o1, o2)
  }

  /**
    The effects of one `update`: the controls tick, then the write of the view
    parameters the tick leaves, then the three shadow copies and their submission.
   */
  function UpdateTrace(keys: set<KeyCode>, mode: KeyboardMode, p: Params,
                       g: seq<Word>, a1: seq<Word>, a2: seq<Word>, mapped: set<BufferId>,
                       o1: MapOutcome, o2: MapOutcome): seq<Effect>
    requires p.viewParams.zoom != 0.0 && ShadowShapes(g, a1, a2)
  {
    ControlsTrace(keys, mode, p, g, a1, a2, mapped, o1, o2)
      + [Write(ViewParamsBuffer, 0, ViewWords(NextParams(keys, mode, p).viewParams))]
      + CopyTrace() + [Submit]
  }

  /**
    A tick that changes a parameter also writes the changed record to its buffer,
    so the GPU never keeps a stale copy. The view or ray buffer is written exactly
    when its handler runs with one of its keys held, whether or not the record
    changed (a clamped step or a missing arrow still writes), and every write
    carries the new parameters. Only the view and ray handlers write at all.
   */
  lemma ChangedParamsAreSynced(keys: set<KeyCode>, mode: KeyboardMode, p: Params,
                               g: seq<Word>, a1: seq<Word>, a2: seq<Word>, mapped: set<BufferId>,
                               o1: MapOutcome, o2: MapOutcome)
    requires p.viewParams.zoom != 0.0 && ShadowShapes(g, a1, a2)
    ensures var q := NextParams(keys, mode, p);
      var t := ControlsTrace(keys, mode, p, g, a1, a2, mapped, o1, o2);
      && (q.viewParams != p.viewParams ==> Write(ViewParamsBuffer, 0, ViewWords(q.viewParams)) in t)
      && (q.rayParams != p.rayParams ==> Write(RayParamsBuffer, 0, RayWords(q.rayParams)) in t)
      && q.terrainParams == p.terrainParams
      && (Write(ViewParamsBuffer, 0, ViewWords(q.viewParams)) in t <==> SelectMode(keys, mode) == ViewMode && ViewSyncs(keys))
      && (Write(RayParamsBuffer, 0, RayWords(q.rayParams)) in t <==> SelectMode(keys, mode) == RayMode && RaySyncs(keys))
      && (forall e | e in t && e.Write? ::
            || (e.id == ViewParamsBuffer && e.words == ViewWords(q.viewParams))
            || (e.id == RayParamsBuffer && e.words == RayWords(q.rayParams)))
  {
    var t := ControlsTrace(keys, mode, p, g, a1, a2, mapped, o1, o2);
    match SelectMode(keys, mode)
    case DebugMode =>
      forall e | e in t ensures !e.Write? {
        ReadbackPrintsOnly(g, a1, a2, mapped, DebugChoice(keys), o1, o2);
      }
    case ViewMode =>
      if !ViewSyncs(keys) {
        assert ViewStep(keys, p.viewParams) == p.viewParams;
      }
    case RayMode =>
      if !RaySyncs(keys) {
        assert RayStep(keys, p.rayParams) == p.rayParams;
      }
    case TerrainMode =>
    case PrintMode =>
  }

  /** A readback only prints: it writes, copies and submits nothing. */
  lemma ReadbackPrintsOnly(g: seq<Word>, a1: seq<Word>, a2: seq<Word>, mapped: set<BufferId>,
                           rb: Option<Readback>, o1: MapOutcome, o2: MapOutcome)
    requires ShadowShapes(g, a1, a2)
    ensures forall e | e in ReadbackTrace(g, a1, a2, mapped, rb, o1, o2) :: e.Output?
  {
    match rb
    case None =>
    case Some(ReadGeneric) =>
    case Some(ReadArray1) =>
    case Some(ReadArray2) =>
    case Some(ReadInterleaved) =>
      var (ok1, ok2) := InterleaveMapped(mapped, CpuReadDebugArray1, CpuReadDebugArray2, o1, o2);
      if ok1 && ok2 {
        var a, b := Chunks(a1, DEBUG_RECORD_WORDS), Chunks(a2, DEBUG_RECORD_WORDS);
        assert InterleaveTrace(a1, a2, ok1, ok2) == PairLines(a, b, Min(|a|, |b|));
      }
  }

  /**
    In this model, after an interleaved readback in which only the first array
    shadow mapped, every later readback of that shadow prints its size and the
    error line and no record, whatever the device reports; likewise for the
    second. The program never gets that far: the same `update` next copies into
    the still-mapped shadow (see `MixedFailureCopiesIntoMappedShadow`), which the
    model lets through and wgpu does not.
   */
  lemma StuckShadowBlocksLaterReadbacks(g: seq<Word>, a1: seq<Word>, a2: seq<Word>, mapped: set<BufferId>,
                                        o1: MapOutcome, o2: MapOutcome, later: MapOutcome)
    requires ShadowShapes(g, a1, a2)
    ensures var (ok1, ok2) := InterleaveMapped(mapped, CpuReadDebugArray1, CpuReadDebugArray2, o1, o2);
      var after := ReadbackMapped(mapped, Some(ReadInterleaved), o1, o2);
      && (ok1 && !ok2 ==> ReadbackTrace(g, a1, a2, after, Some(ReadArray1), later, later)
                          == [Output(BufferSizeLine(WORD_BYTES * DEBUG_ARRAY_WORDS)), Output(MapErrorLine(0))])
      && (!ok1 && ok2 ==> ReadbackTrace(g, a1, a2, after, Some(ReadArray2), later, later)
                          == [Output(BufferSizeLine(WORD_BYTES * DEBUG_ARRAY_WORDS)), Output(MapErrorLine(0))])
  {
    InterleaveMixedFailureLeavesMapped(mapped, CpuReadDebugArray1, CpuReadDebugArray2, o1, o2, later);
  }

  /**
    Starting with no shadow mapped, an interleaved readback leaves a shadow mapped
    exactly when one of its two mappings fails, and then one of the three copies
    that the same `update` makes right after it (`update_cpu_read_buffers`)
    targets that mapped shadow.
   */
  lemma MixedFailureCopiesIntoMappedShadow(mapped: set<BufferId>, o1: MapOutcome, o2: MapOutcome)
    requires forall s | IsShadow(s) :: s !in mapped
    ensures var (ok1, ok2) := InterleaveMapped(mapped, CpuReadDebugArray1, CpuReadDebugArray2, o1, o2);
      var after := ReadbackMapped(mapped, Some(ReadInterleaved), o1, o2);
      (ok1 != ok2) <==> (CopyTrace()[0].dst in after || CopyTrace()[1].dst in after || CopyTrace()[2].dst in after)
  {
    assert IsShadow(CpuReadGenericDebug) && IsShadow(CpuReadDebugArray1) && IsShadow(CpuReadDebugArray2);
  }

  // ---------------------------------------------------------------------------
  // render and resize, as functions
  // ---------------------------------------------------------------------------

  /**
    The commands `render` records after acquiring the frame: one render pass with
    the render pipeline, the uniform, fragment and sampled-texture groups at
    slots 0, 1 and 2, the vertex buffer at slot 0, a draw of every vertex as one
    instance; then the submission and the present.
   */
  function RenderTrace(): seq<Effect> {
    [BeginRenderPass, SetPipeline(RenderPipeline),
     SetBindGroup(0, UniformBg), SetBindGroup(1, FragBg), SetBindGroup(2, SampledTextureBg),
     SetVertexBuffer(0, VertexBuffer), Draw(0, |VERTICES|, 0, 1), Submit, Present]
  }

  /**
    The render pass binds at each slot a group whose layout is the layout the
    render pipeline declares for that slot, draws vertices 0..6 (exactly what the
    vertex buffer holds) as instance 0..1, and submits before it presents.
   */
  lemma RenderMatchesPipeline()
    ensures forall e | e in RenderTrace() && e.SetBindGroup? ::
      e.slot < |PipelineLayout(RenderPipeline)| && BindGroupDescOf(e.group).layout == PipelineLayout(RenderPipeline)[e.slot]
    ensures |PipelineLayout(RenderPipeline)| == 3
    ensures SetBindGroup(0, UniformBg) in RenderTrace() && SetBindGroup(1, FragBg) in RenderTrace()
    ensures SetBindGroup(2, SampledTextureBg) in RenderTrace()
    ensures Draw(0, 6, 0, 1) in RenderTrace()
    ensures SetVertexBuffer(0, VertexBuffer) in RenderTrace()
    ensures BufferSize(VertexBuffer) == |VERTICES| * VERTEX_SIZE
    ensures RenderTrace()[|RenderTrace()| - 2] == Submit && RenderTrace()[|RenderTrace()| - 1] == Present
  {
    PipelineLayoutOrder();
    VerticesShape();
  }

  /**
    `resize`: a new size with both dimensions positive becomes the size and the
    configured dimensions, and the surface is reconfigured; any other size changes
    nothing and configures nothing.
   */
  function AfterResize(size: PhysicalSize, config: SurfaceConfiguration, newSize: PhysicalSize)
    : (r: (PhysicalSize, SurfaceConfiguration, bool))
    ensures r.2 <==> newSize.width > 0 && newSize.height > 0
    ensures r.2 ==> r.0 == newSize && r.1 == config.(width := newSize.width, height := newSize.height)
    ensures !r.2 ==> r.0 == size && r.1 == config
  {
    if newSize.width > 0 && newSize.height > 0
    then (newSize, config.(width := newSize.width, height := newSize.height), true)
    else (size, config, false)
  }

  /**
    Resizing to the current size, as surface-lost recovery does, keeps the size and
    the configuration and only reconfigures the surface (when the size is positive);
    resizing twice to the same size is resizing once.
   */
  lemma ResizeToCurrentSize(size: PhysicalSize, config: SurfaceConfiguration, newSize: PhysicalSize)
    requires config.width == size.width && config.height == size.height
    ensures AfterResize(size, config, size).0 == size && AfterResize(size, config, size).1 == config
    ensures var (s1, c1, _) := AfterResize(size, config, newSize);
      AfterResize(s1, c1, newSize).0 == s1 && AfterResize(s1, c1, newSize).1 == c1
    ensures var (s1, c1, _) := AfterResize(size, config, newSize);
      c1.width == s1.width && c1.height == s1.height
  {
  }

  /** The shadows hold one 4-word record and two 512-item arrays. */
  lemma ShadowWords()
    ensures BufferWords(CpuReadGenericDebug) == DEBUG_RECORD_WORDS
    ensures BufferWords(CpuReadDebugArray1) == DEBUG_ARRAY_WORDS == BufferWords(CpuReadDebugArray2)
    ensures DEBUG_ARRAY_WORDS % DEBUG_ARRAY_WORDS == 0 && DEBUG_RECORD_WORDS % DEBUG_RECORD_WORDS == 0
  {
  }

  // ---------------------------------------------------------------------------
  // The state
  // ---------------------------------------------------------------------------

  /**
    The contents the fragment shader leaves in the three debug buffers when a
    frame is drawn. The shaders are not modelled, so a frame supplies them.
   */
  datatype ShaderOutput = ShaderOutput(genericDebug: seq<Word>, debugArray1: seq<Word>, debugArray2: seq<Word>)

  /** Shader output keeps every debug buffer at its created size. */
  predicate OutputFits(o: ShaderOutput) {
    && BufferWords(GenericDebug) == |o.genericDebug|
    && BufferWords(DebugArray1) == |o.debugArray1|
    && BufferWords(DebugArray2) == |o.debugArray2|
  }

  class State {
    const gpu: Gpu
    const controls: KeyboardState
    var params: Params
    var size: PhysicalSize
    var surfaceConfig: SurfaceConfiguration

    /** What holds between calls: see the module comment. */
    ghost predicate Valid()
      reads this, gpu, ParamArrays()
    {
      && Sized()
      && gpu.Valid()
      && gpu.liveViews == {}
      && ParamsInvariant(params)
      && Synced()
      && surfaceConfig.width == size.width && surfaceConfig.height == size.height
    }

    /** The arrays of the two parameter buffers, the only buffer contents `Valid` depends on. */
    ghost function ParamArrays(): set<object> {
      if gpu.Named() then {gpu.mem[ViewParamsBuffer], gpu.mem[RayParamsBuffer]} else {}
    }

    /** Every buffer exists, as its own array, at the size it was created with. */
    ghost predicate Sized() {
      gpu.Named() && forall id: BufferId :: gpu.mem[id].Length == BufferWords(id)
    }

    /** The parameter buffers hold the serialised host parameters. */
    ghost predicate Synced()
      requires gpu.Named()
      reads this`params, gpu.mem[ViewParamsBuffer], gpu.mem[RayParamsBuffer]
    {
      && gpu.mem[ViewParamsBuffer][..] == ViewWords(params.viewParams)
      && gpu.mem[RayParamsBuffer][..] == RayWords(params.rayParams)
    }

    /** The contents of the three shadows. */
    ghost function Shadows(): (seq<Word>, seq<Word>, seq<Word>)
      requires gpu.Named()
      reads gpu.mem[CpuReadGenericDebug], gpu.mem[CpuReadDebugArray1], gpu.mem[CpuReadDebugArray2]
    {
      (gpu.mem[CpuReadGenericDebug][..], gpu.mem[CpuReadDebugArray1][..], gpu.mem[CpuReadDebugArray2][..])
    }

    /** The contents of the three debug buffers the shaders write. */
    ghost function DebugBuffers(): (seq<Word>, seq<Word>, seq<Word>)
      requires gpu.Named()
      reads gpu.mem[GenericDebug], gpu.mem[DebugArray1], gpu.mem[DebugArray2]
    {
      (gpu.mem[GenericDebug][..], gpu.mem[DebugArray1][..], gpu.mem[DebugArray2][..])
    }

    /**
      `State::new`: configures the surface with the chosen format at the window's
      size, creates every buffer with its initial contents from the initial
      parameters, and starts with no key held in print mode.
     */
    constructor (windowSize: PhysicalSize, formats: seq<TextureFormat>)
      requires formats != []
      ensures Valid()
      ensures size == windowSize && params == InitParams()
      ensures surfaceConfig == SurfaceConfiguration(ChooseSurfaceFormat(formats).value, windowSize.width, windowSize.height)
      ensures forall id: BufferId :: gpu.mem[id][..] == InitialContents(InitParams())[id]
      ensures gpu.mapped == {}
      ensures gpu.trace == [Configure(surfaceConfig)]
      ensures controls.keys == {} && controls.mode == PrintMode
    {
      var config := SurfaceConfiguration(ChooseSurfaceFormat(formats).value, windowSize.width, windowSize.height);
      var p := InitParams();
      var g := new Gpu(InitialContents(p));
      g.Record(Configure(config));
      InitialParamBuffersInDeclarationOrder(p);
      gpu := g;
      controls := new KeyboardState();
      params := p;
      size := windowSize;
      surfaceConfig := config;
    }

    // -------------------------------------------------------------------------
    // The handlers of src/app/controls.rs
    // -------------------------------------------------------------------------

    /**
      `update_controls`: the highest-priority held select key sets the mode, then
      the handler of the mode runs once.
     */
    method UpdateControls(o1: MapOutcome, o2: MapOutcome)
      requires Valid()
      modifies this`params, controls`mode, gpu`trace, gpu`mapped, gpu`liveViews
      modifies gpu.mem[ViewParamsBuffer], gpu.mem[RayParamsBuffer]
      ensures Valid()
      ensures controls.keys == old(controls.keys)
      ensures controls.mode == NextMode(old(controls.keys), old(controls.mode))
      ensures params == NextParams(old(controls.keys), old(controls.mode), old(params))
      ensures var (g, a1, a2) := old(Shadows());
        gpu.trace == old(gpu.trace) + ControlsTrace(old(controls.keys), old(controls.mode), old(params),
                                                    g, a1, a2, old(gpu.mapped), o1, o2)
      ensures gpu.mapped == ReadbackMapped(old(gpu.mapped), TickReadback(old(controls.keys), old(controls.mode)), o1, o2)
      ensures size == old(size) && surfaceConfig == old(surfaceConfig)
    {
      SelectModeFromKeys();
      RunHandler(o1, o2);
    }

    /** The selection part of `update_controls`: D, else 1, else 2, else 3, else P picks the mode. */
    method SelectModeFromKeys()
      modifies controls`mode
      ensures controls.mode == SelectMode(controls.keys, old(controls.mode))
    {
      if controls.KeyPressed(KeyD) {
        controls.SetMode(DebugMode);
      } else if controls.KeyPressed(Digit1) {
        controls.SetMode(TerrainMode);
      } else if controls.KeyPressed(Digit2) {
        controls.SetMode(ViewMode);
      } else if controls.KeyPressed(Digit3) {
        controls.SetMode(RayMode);
      } else if controls.KeyPressed(KeyP) {
        controls.SetMode(PrintMode);
      }
    }

    /** The dispatch part of `update_controls`: the handler of the current mode runs once. */
    method RunHandler(o1: MapOutcome, o2: MapOutcome)
      requires Valid()
      modifies this`params, controls`mode, gpu`trace, gpu`mapped, gpu`liveViews
      modifies gpu.mem[ViewParamsBuffer], gpu.mem[RayParamsBuffer]
      ensures Valid()
      ensures controls.mode == HandlerMode(controls.keys, old(controls.mode))
      ensures params == HandlerParams(controls.keys, old(controls.mode), old(params))
      ensures var (g, a1, a2) := old(Shadows());
        gpu.trace == old(gpu.trace) + HandlerTrace(controls.keys, old(controls.mode), old(params),
                                                   g, a1, a2, old(gpu.mapped), o1, o2)
      ensures gpu.mapped == ReadbackMapped(old(gpu.mapped), HandlerReadback(controls.keys, old(controls.mode)), o1, o2)
    {
      ShadowWords();
      ghost var (g, a1, a2) := Shadows();
      ghost var handled := HandlerTrace(controls.keys, controls.mode, params, g, a1, a2, gpu.mapped, o1, o2);
      match controls.mode
      case DebugMode =>
        DebugControls(o1, o2);
        assert handled == ReadbackTrace(g, a1, a2, old(gpu.mapped), DebugChoice(controls.keys), o1, o2);
      case ViewMode =>
        ViewControls();
      case TerrainMode =>
        TerrainControls();
      case RayMode =>
        RayControls();
      case PrintMode =>
        PrintControls();
    }

    /**
      `debug_controls`: runs the readback the held keys ask for (S, else 1, else 2,
      else 3) and then switches to view mode; with none held, does nothing.
     */
    method DebugControls(o1: MapOutcome, o2: MapOutcome)
      requires Sized() && gpu.Valid()
      modifies controls`mode, gpu`trace, gpu`mapped, gpu`liveViews
      ensures gpu.Valid() && gpu.liveViews == old(gpu.liveViews)
      ensures controls.mode == if DebugChoice(controls.keys).Some? then ViewMode else old(controls.mode)
      ensures var (g, a1, a2) := old(Shadows());
        gpu.trace == old(gpu.trace) + ReadbackTrace(g, a1, a2, old(gpu.mapped), DebugChoice(controls.keys), o1, o2)
      ensures gpu.mapped == ReadbackMapped(old(gpu.mapped), DebugChoice(controls.keys), o1, o2)
    {
      ShadowWords();
      ghost var (g, a1, a2) := Shadows();
      ghost var mp := gpu.mapped;
      if controls.KeyPressed(KeyS) {
        PrintGpuData(gpu, CpuReadGenericDebug, "Debug", DEBUG_RECORD_WORDS, o1);
        controls.SetMode(ViewMode);
        assert gpu.trace == old(gpu.trace) + ReadbackTrace(g, a1, a2, mp, Some(ReadGeneric), o1, o2);
      } else if controls.KeyPressed(Digit1) {
        PrintGpuData(gpu, CpuReadDebugArray1, "Debug", DEBUG_ARRAY_WORDS, o1);
        controls.SetMode(ViewMode);
        assert gpu.trace == old(gpu.trace) + ReadbackTrace(g, a1, a2, mp, Some(ReadArray1), o1, o2);
      } else if controls.KeyPressed(Digit2) {
        PrintGpuData(gpu, CpuReadDebugArray2, "Debug", DEBUG_ARRAY_WORDS, o1);
        controls.SetMode(ViewMode);
        assert gpu.trace == old(gpu.trace) + ReadbackTrace(g, a1, a2, mp, Some(ReadArray2), o1, o2);
      } else if controls.KeyPressed(Digit3) {
        PrintGpuInterleaveTwoBuffers(gpu, CpuReadDebugArray1, CpuReadDebugArray2, o1, o2);
        controls.SetMode(ViewMode);
      }
    }

    /**
      `view_controls`: changes at most one view field, by the priority of `ViewStep`,
      and writes the view buffer whenever it does.
     */
    method ViewControls()
      requires Valid()
      modifies this`params, gpu`trace, gpu.mem[ViewParamsBuffer]
      ensures Valid()
      ensures params == old(params).(viewParams := ViewStep(controls.keys, old(params.viewParams)))
      ensures gpu.trace == old(gpu.trace)
        + if ViewSyncs(controls.keys) then [Write(ViewParamsBuffer, 0, ViewWords(params.viewParams))] else []
    {
      var mz := params.viewParams.zoom;
      var v := params.viewParams;
      var shift := controls.KeyPressed(ShiftLeft);
      if controls.KeyPressed(ArrowLeft) {
        if shift {
          params := params.(viewParams := v.(xRot := MaxReal(0.0, v.xRot + 0.1)));
        } else {
          params := params.(viewParams := v.(xShift := v.xShift - 0.01 / mz));
        }
        SyncView();
      } else if controls.KeyPressed(ArrowRight) {
        if shift {
          params := params.(viewParams := v.(xRot := v.xRot - 0.1));
        } else {
          params := params.(viewParams := v.(xShift := v.xShift + 0.01 / mz));
        }
        SyncView();
      } else if controls.KeyPressed(ArrowUp) {
        if shift {
          params := params.(viewParams := v.(yRot := MaxReal(0.0, v.yRot + 0.1)));
        } else {
          params := params.(viewParams := v.(yShift := v.yShift - 0.01 / mz));
        }
        SyncView();
      } else if controls.KeyPressed(ArrowDown) {
        if shift {
          params := params.(viewParams := v.(yRot := v.yRot - 0.1));
        } else {
          params := params.(viewParams := v.(yShift := v.yShift + 0.01 / mz));
        }
        SyncView();
      } else if controls.KeyPressed(KeyX) {
        params := params.(viewParams := v.(zoom := v.zoom - 0.1 * mz));
        SyncView();
      } else if controls.KeyPressed(KeyZ) {
        params := params.(viewParams := v.(zoom := v.zoom + 0.1 * mz));
        SyncView();
      }
    }

    /** `update_view_params_buffer(state)`: writes the current view parameters to their buffer. */
    method SyncView()
      requires gpu.Valid() && gpu.mem[ViewParamsBuffer].Length == BufferWords(ViewParamsBuffer)
      modifies gpu`trace, gpu.mem[ViewParamsBuffer]
      ensures gpu.mem[ViewParamsBuffer][..] == ViewWords(params.viewParams)
      ensures gpu.trace == old(gpu.trace) + [Write(ViewParamsBuffer, 0, ViewWords(params.viewParams))]
    {
      UpdateViewParamsBuffer(gpu, params.viewParams);
    }

    /**
      `ray_controls`: moves epsilon, else max_steps, else max_dist by the arrow
      delta, clamped at zero, and writes the ray buffer whenever E, S or W is held.
     */
    method RayControls()
      requires Valid()
      modifies this`params, gpu`trace, gpu.mem[RayParamsBuffer]
      ensures Valid()
      ensures params == old(params).(rayParams := RayStep(controls.keys, old(params.rayParams)))
      ensures gpu.trace == old(gpu.trace)
        + if RaySyncs(controls.keys) then [Write(RayParamsBuffer, 0, RayWords(params.rayParams))] else []
    {
      var d := 0.0;
      if controls.KeyPressed(ArrowUp) {
        d := 1.0;
      } else if controls.KeyPressed(ArrowDown) {
        d := -1.0;
      }
      var r := params.rayParams;
      if controls.KeyPressed(KeyE) {
        params := params.(rayParams := r.(epsilon := MaxReal(0.0, r.epsilon + 1.0 * d)));
        UpdateRayParamsBuffer(gpu, params.rayParams);
      } else if controls.KeyPressed(KeyS) {
        params := params.(rayParams := r.(maxSteps := MaxReal(0.0, r.maxSteps + 1.0 * d)));
        UpdateRayParamsBuffer(gpu, params.rayParams);
      } else if controls.KeyPressed(KeyW) {
        params := params.(rayParams := r.(maxDist := MaxReal(0.0, r.maxDist + 1.0 * d)));
        UpdateRayParamsBuffer(gpu, params.rayParams);
      }
    }

    /** `terrain_controls`: an unfinished stub that only prints its notice. */
    method TerrainControls()
      modifies gpu`trace
      ensures gpu.trace == old(gpu.trace) + [Output(TerrainStubLine)]
    {
      gpu.Record(Output(TerrainStubLine));
    }

    /** `print_controls`: prints every parameter block, then switches to view mode. */
    method PrintControls()
      modifies gpu`trace, controls`mode
      ensures gpu.trace == old(gpu.trace) + [Output(ParamsDump(params))]
      ensures controls.mode == ViewMode
    {
      gpu.Record(Output(ParamsDump(params)));
      controls.mode := ViewMode;
    }

    // -------------------------------------------------------------------------
    // update, render, resize
    // -------------------------------------------------------------------------

    /**
      `update`: the controls tick first, then the view buffer is written from the
      host parameters, then the shadows receive copies of the debug buffers. So a
      readback in this tick shows the shadows as the previous tick left them, and
      afterwards every shadow equals its debug buffer.
     */
    method Update(o1: MapOutcome, o2: MapOutcome)
      requires Valid()
      modifies this`params, controls`mode, gpu`trace, gpu`mapped, gpu`liveViews
      modifies gpu.mem[ViewParamsBuffer], gpu.mem[RayParamsBuffer]
      modifies gpu.mem[CpuReadGenericDebug], gpu.mem[CpuReadDebugArray1], gpu.mem[CpuReadDebugArray2]
      ensures Valid()
      ensures controls.keys == old(controls.keys)
      ensures controls.mode == NextMode(old(controls.keys), old(controls.mode))
      ensures params == NextParams(old(controls.keys), old(controls.mode), old(params))
      ensures var (g, a1, a2) := old(Shadows());
        gpu.trace == old(gpu.trace)
          + UpdateTrace(old(controls.keys), old(controls.mode), old(params), g, a1, a2, old(gpu.mapped), o1, o2)
      ensures gpu.mapped == ReadbackMapped(old(gpu.mapped), TickReadback(old(controls.keys), old(controls.mode)), o1, o2)
      ensures forall s | IsShadow(s) :: gpu.mem[s][..] == gpu.mem[DeviceOf(s)][..]
      ensures forall d | IsDebugDevice(d) :: gpu.mem[d][..] == old(gpu.mem[d][..])
      ensures size == old(size) && surfaceConfig == old(surfaceConfig)
    {
      UpdateControls(o1, o2);
      ghost var t1 := gpu.trace;
      SyncView();
      ghost var t2 := gpu.trace;
      UpdateCpuReadBuffers(gpu);
      assert gpu.trace == t2 + CopyTrace() + [Submit];
    }

    /**
      `render`: a failure to acquire the frame is returned before anything is
      recorded; otherwise the render pass is recorded, submitted and presented,
      and the fragment shader's writes land in the debug buffers it binds as
      writable storage (group 1, bindings 7 to 9). Nothing else changes: the
      parameter buffers and the shadows keep their contents.
     */
    method Render(acquire: Result<(), SurfaceError>, drawn: ShaderOutput) returns (r: Result<(), SurfaceError>)
      requires Valid() && OutputFits(drawn)
      modifies gpu`trace, gpu.mem[GenericDebug], gpu.mem[DebugArray1], gpu.mem[DebugArray2]
      ensures Valid()
      ensures r == acquire
      ensures gpu.trace == old(gpu.trace) + if acquire.Ok? then RenderTrace() else []
      ensures DebugBuffers() == if acquire.Ok? then (drawn.genericDebug, drawn.debugArray1, drawn.debugArray2) else old(DebugBuffers())
      ensures Shadows() == old(Shadows())
    {
      r := acquire;
      if acquire.Err? {
        return;
      }
      RecordRenderPass();
      StoreDrawn(drawn);
    }

    /** The commands of the render pass, its submission and the present. */
    method RecordRenderPass()
      requires Valid()
      modifies gpu`trace
      ensures Valid()
      ensures gpu.trace == old(gpu.trace) + RenderTrace()
    {
      gpu.Record(BeginRenderPass);
      gpu.Record(SetPipeline(RenderPipeline));
      gpu.Record(SetBindGroup(0, UniformBg));
      gpu.Record(SetBindGroup(1, FragBg));
      gpu.Record(SetBindGroup(2, SampledTextureBg));
      gpu.Record(SetVertexBuffer(0, VertexBuffer));
      gpu.Record(Draw(0, |VERTICES|, 0, 1));
      gpu.Record(Submit);
      gpu.Record(Present);
    }

    /** The shader writes of one drawn frame, buffer by buffer. */
    method StoreDrawn(drawn: ShaderOutput)
      requires Valid() && OutputFits(drawn)
      modifies gpu.mem[GenericDebug], gpu.mem[DebugArray1], gpu.mem[DebugArray2]
      ensures Valid()
      ensures DebugBuffers() == (drawn.genericDebug, drawn.debugArray1, drawn.debugArray2)
      ensures Shadows() == old(Shadows())
    {
      gpu.StoreFromShader(GenericDebug, drawn.genericDebug);
      gpu.StoreFromShader(DebugArray1, drawn.debugArray1);
      gpu.StoreFromShader(DebugArray2, drawn.debugArray2);
    }

    /** `resize`, with the surface configuration recorded when it is applied. */
    method Resize(newSize: PhysicalSize)
      modifies this`size, this`surfaceConfig, gpu`trace
      ensures size == AfterResize(old(size), old(surfaceConfig), newSize).0
      ensures surfaceConfig == AfterResize(old(size), old(surfaceConfig), newSize).1
      ensures gpu.trace == old(gpu.trace) + if AfterResize(old(size), old(surfaceConfig), newSize).2 then [Configure(surfaceConfig)] else []
    {
      if newSize.width > 0 && newSize.height > 0 {
        size := newSize;
        surfaceConfig := surfaceConfig.(width := newSize.width, height := newSize.height);
        gpu.Record(Configure(surfaceConfig));
      }
    }
  }
}
