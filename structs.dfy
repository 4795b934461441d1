/**
  Host-visible record layouts (src/collections/structs.rs): the plain-old-data
  parameter blocks, their serialisation to 4-byte GPU words, and the names of the
  GPU resources that the `Buffers`, `BindGroups` and `Pipelines` structs hold.
 */
module Structs {
  import opened Wrappers

  /** A 32-bit unsigned integer (window sizes, dispatch sizes). */
  newtype u32 = x: int | 0 <= x < 0x1_0000_0000

  /** A 32-bit signed integer (octave counts). */
  newtype i32 = x: int | -0x8000_0000 <= x < 0x8000_0000

  /**
    One 4-byte lane of GPU memory. An f32 is modelled by the real it denotes
    (rounding, NaN and infinities are not modelled); an i32 by its value.
   */
  datatype Word = F32(f: real) | I32(i: int)

  const WORD_BYTES: nat := 4

  /** The all-zero word that freshly created (zero-initialised) buffers hold. */
  const ZERO_WORD: Word := F32(0.0)

  function Zeros(n: nat): (w: seq<Word>)
    ensures |w| == n && forall i :: 0 <= i < n ==> w[i] == ZERO_WORD
  {
    seq(n, _ => ZERO_WORD)
  }

  // ---------------------------------------------------------------------------
  // Parameter blocks
  // ---------------------------------------------------------------------------

  datatype TimeUniform = TimeUniform(time: real)

  datatype RayParams = RayParams(epsilon: real, maxDist: real, maxSteps: real)

  datatype ViewParams = ViewParams(
    xShift: real, yShift: real, zoom: real, xRot: real, yRot: real,
    timeModifier: real, fovDegrees: real)

  datatype TerrainParams = TerrainParams(f1Octaves: i32, f2Octaves: i32, f3Octaves: i32)

  /** The host-side copies of all parameter blocks (`Params`). */
  datatype Params = Params(rayParams: RayParams, viewParams: ViewParams, terrainParams: TerrainParams)

  /** `bytemuck::cast_slice(&[t])` for a `TimeUniform`: its fields in declaration order. */
  function TimeWords(t: TimeUniform): seq<Word> {
    [F32(t.time)]
  }

  function RayWords(r: RayParams): seq<Word> {
    [F32(r.epsilon), F32(r.maxDist), F32(r.maxSteps)]
  }

  function ViewWords(v: ViewParams): seq<Word> {
    [F32(v.xShift), F32(v.yShift), F32(v.zoom), F32(v.xRot), F32(v.yRot),
     F32(v.timeModifier), F32(v.fovDegrees)]
  }

  function TerrainWords(t: TerrainParams): seq<Word> {
    [I32(t.f1Octaves as int), I32(t.f2Octaves as int), I32(t.f3Octaves as int)]
  }

  /** Reading a word sequence back as a record (`bytemuck::from_bytes`); None when the shape is wrong. */
  function TimeFromWords(w: seq<Word>): (r: Option<TimeUniform>)
    ensures r.Some? <==> |w| == 1 && w[0].F32?
  {
    if |w| == 1 && w[0].F32? then Some(TimeUniform(w[0].f)) else None
  }

  function RayFromWords(w: seq<Word>): (r: Option<RayParams>)
    ensures r.Some? <==> |w| == 3 && forall k :: 0 <= k < 3 ==> w[k].F32?
  {
    if |w| == 3 && w[0].F32? && w[1].F32? && w[2].F32?
    then Some(RayParams(w[0].f, w[1].f, w[2].f))
    else None
  }

  function ViewFromWords(w: seq<Word>): (r: Option<ViewParams>)
    ensures r.Some? <==> |w| == 7 && forall k :: 0 <= k < 7 ==> w[k].F32?
  {
    if |w| == 7 && w[0].F32? && w[1].F32? && w[2].F32? && w[3].F32? && w[4].F32? && w[5].F32? && w[6].F32?
    then Some(ViewParams(w[0].f, w[1].f, w[2].f, w[3].f, w[4].f, w[5].f, w[6].f))
    else None
  }

  function TerrainFromWords(w: seq<Word>): (r: Option<TerrainParams>)
    ensures r.Some? <==> |w| == 3 && forall k :: 0 <= k < 3 ==> w[k].I32? && -0x8000_0000 <= w[k].i < 0x8000_0000
  {
    if |w| == 3 && (forall k :: 0 <= k < 3 ==> w[k].I32? && -0x8000_0000 <= w[k].i < 0x8000_0000)
    then Some(TerrainParams(w[0].i as i32, w[1].i as i32, w[2].i as i32))
    else None
  }

  /** Every record is a whole number of 32-bit fields: 4, 12, 28 and 12 bytes. */
  lemma RecordSizes(t: TimeUniform, r: RayParams, v: ViewParams, p: TerrainParams)
    ensures WORD_BYTES * |TimeWords(t)| == 4
    ensures WORD_BYTES * |RayWords(r)| == 12
    ensures WORD_BYTES * |ViewWords(v)| == 28
    ensures WORD_BYTES * |TerrainWords(p)| == 12
  {
  }

  /** Serialising a record and reading it back gives the record. */
  lemma RoundTrips(t: TimeUniform, r: RayParams, v: ViewParams, p: TerrainParams)
    ensures TimeFromWords(TimeWords(t)) == Some(t)
    ensures RayFromWords(RayWords(r)) == Some(r)
    ensures ViewFromWords(ViewWords(v)) == Some(v)
    ensures TerrainFromWords(TerrainWords(p)) == Some(p)
  {
  }

  /** Conversely, a word sequence that reads back as a record is that record's serialisation. */
  lemma DecodedReserialises(w: seq<Word>)
    ensures TimeFromWords(w).Some? ==> TimeWords(TimeFromWords(w).value) == w
    ensures RayFromWords(w).Some? ==> RayWords(RayFromWords(w).value) == w
    ensures ViewFromWords(w).Some? ==> ViewWords(ViewFromWords(w).value) == w
    ensures TerrainFromWords(w).Some? ==> TerrainWords(TerrainFromWords(w).value) == w
  {
    if RayFromWords(w).Some? {
      assert RayWords(RayFromWords(w).value)[0] == w[0];
    }
    if TerrainFromWords(w).Some? {
      assert w[0].I32? && w[1].I32? && w[2].I32?;
    }
  }

  // ---------------------------------------------------------------------------
  // Debug record shapes: `[f32; 4]` and `[[f32; 4]; 512]`
  // ---------------------------------------------------------------------------

  const DEBUG_RECORD_WORDS: nat := 4
  const DEBUG_ARRAY_LEN: nat := 512
  const DEBUG_ARRAY_WORDS: nat := DEBUG_RECORD_WORDS * DEBUG_ARRAY_LEN

  // ---------------------------------------------------------------------------
  // Resource names: the fields of `Buffers`, `BindGroups` and `Pipelines`
  // ---------------------------------------------------------------------------

  datatype BufferId =
    | VertexBuffer | TimeUniformBuffer | ViewParamsBuffer | RayParamsBuffer
    | GenericDebug | CpuReadGenericDebug
    | DebugArray1 | CpuReadDebugArray1
    | DebugArray2 | CpuReadDebugArray2

  /** Every buffer `Buffers` holds, in field order. */
  const ALL_BUFFERS: seq<BufferId> := [
    VertexBuffer, TimeUniformBuffer, ViewParamsBuffer, RayParamsBuffer,
    GenericDebug, CpuReadGenericDebug, DebugArray1, CpuReadDebugArray1,
    DebugArray2, CpuReadDebugArray2]

  lemma AllBuffersListed(id: BufferId)
    ensures id in ALL_BUFFERS
  {
  }

  /** A shader-writable debug buffer. */
  predicate IsDebugDevice(id: BufferId) {
    id == GenericDebug || id == DebugArray1 || id == DebugArray2
  }

  /** A CPU-readable shadow of a debug buffer. */
  predicate IsShadow(id: BufferId) {
    id == CpuReadGenericDebug || id == CpuReadDebugArray1 || id == CpuReadDebugArray2
  }

  function ShadowOf(id: BufferId): (s: BufferId)
    requires IsDebugDevice(id)
    ensures IsShadow(s)
  {
    match id
    case GenericDebug => CpuReadGenericDebug
    case DebugArray1 => CpuReadDebugArray1
    case DebugArray2 => CpuReadDebugArray2
  }

  function DeviceOf(s: BufferId): (id: BufferId)
    requires IsShadow(s)
    ensures IsDebugDevice(id)
  {
    match s
    case CpuReadGenericDebug => GenericDebug
    case CpuReadDebugArray1 => DebugArray1
    case CpuReadDebugArray2 => DebugArray2
  }

  /** The device/shadow pairing is a bijection: each debug buffer has exactly one shadow and vice versa. */
  lemma ShadowPairing()
    ensures forall d :: IsDebugDevice(d) ==> DeviceOf(ShadowOf(d)) == d
    ensures forall s :: IsShadow(s) ==> ShadowOf(DeviceOf(s)) == s
    ensures forall d1, d2 :: IsDebugDevice(d1) && IsDebugDevice(d2) && ShadowOf(d1) == ShadowOf(d2) ==> d1 == d2
    ensures forall id :: !(IsDebugDevice(id) && IsShadow(id))
  {
  }

  datatype LayoutId = UniformBgl | FragBgl | ComputeBgl | TextureBgl | SampledTextureBgl

  datatype BindGroupId = UniformBg | FragBg | ComputeBg | TextureBg | SampledTextureBg

  datatype PipelineId = RenderPipeline | GenerateTerrainPipeline
}
