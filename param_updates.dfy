/**
  Keeping the GPU copies in step with the host (src/updates/param_updates.rs): the
  parameter records are written over their buffers, and each debug buffer is copied
  into its CPU-readable shadow. The sync operations receive the parameter values,
  not the host state, so they cannot change the host-side parameters.
 */
module ParamUpdates {
  import opened Wrappers
  import opened Structs
  import opened Device
  import opened Init

  /** `update_view_params_buffer`: the view record overwrites the view buffer from offset 0. */
  method UpdateViewParamsBuffer(gpu: Gpu, view: ViewParams)
    requires gpu.Valid() && gpu.mem[ViewParamsBuffer].Length == BufferWords(ViewParamsBuffer)
    modifies gpu`trace, gpu.mem[ViewParamsBuffer]
    ensures gpu.mem[ViewParamsBuffer][..] == ViewWords(view)
    ensures ViewFromWords(gpu.mem[ViewParamsBuffer][..]) == Some(view)
    ensures gpu.trace == old(gpu.trace) + [Write(ViewParamsBuffer, 0, ViewWords(view))]
  {
    var record := ViewParams(view.xShift, view.yShift, view.zoom, view.xRot, view.yRot,
                             view.timeModifier, view.fovDegrees);
    RoundTrips(TimeUniform(0.0), RayParams(0.0, 0.0, 0.0), record, TerrainParams(0, 0, 0));
    WriteAtWhole(gpu.mem[ViewParamsBuffer][..], ViewWords(record));
    gpu.WriteBuffer(ViewParamsBuffer, 0, ViewWords(record));
  }

  /** `update_ray_params_buffer`: epsilon, max_dist, max_steps overwrite the ray buffer from offset 0. */
  method UpdateRayParamsBuffer(gpu: Gpu, ray: RayParams)
    requires gpu.Valid() && gpu.mem[RayParamsBuffer].Length == BufferWords(RayParamsBuffer)
    modifies gpu`trace, gpu.mem[RayParamsBuffer]
    ensures gpu.mem[RayParamsBuffer][..] == RayWords(ray)
    ensures RayFromWords(gpu.mem[RayParamsBuffer][..]) == Some(ray)
    ensures gpu.trace == old(gpu.trace) + [Write(RayParamsBuffer, 0, RayWords(ray))]
  {
    var record := RayParams(ray.epsilon, ray.maxDist, ray.maxSteps);
    RoundTrips(TimeUniform(0.0), record, ViewParams(0.0, 0.0, 0.0, 0.0, 0.0, 0.0, 0.0), TerrainParams(0, 0, 0));
    WriteAtWhole(gpu.mem[RayParamsBuffer][..], RayWords(record));
    gpu.WriteBuffer(RayParamsBuffer, 0, RayWords(record));
  }

  /**
    A sync writes the whole buffer, so what was there before does not matter: syncing
    twice leaves what syncing once leaves, for either record.
   */
  lemma SyncIdempotent(buf: seq<Word>, data: seq<Word>)
    requires |data| == |buf|
    ensures WriteAt(WriteAt(buf, 0, data), 0, data) == WriteAt(buf, 0, data) == data
  {
    WriteAtWhole(buf, data);
    WriteAtWhole(data, data);
  }

  /** The copy commands `update_cpu_read_buffers` records, in order, with byte offsets and sizes. */
  function CopyTrace(): seq<Effect> {
    [CopyEffect(GenericDebug), CopyEffect(DebugArray1), CopyEffect(DebugArray2)]
  }

  /** The whole-buffer copy of a debug buffer into its shadow. */
  function CopyEffect(d: BufferId): Effect
    requires IsDebugDevice(d)
  {
    Copy(d, 0, ShadowOf(d), 0, BufferSize(d))
  }

  /**
    Every copy goes from a debug buffer into its own shadow, covers both buffers
    whole (16, 8192 and 8192 bytes), and each debug buffer is copied exactly once.
   */
  lemma CopiesCoverShadows()
    ensures forall c | c in CopyTrace() ::
      && c.Copy? && IsDebugDevice(c.src) && c.dst == ShadowOf(c.src)
      && c.srcOffset == 0 && c.dstOffset == 0
      && c.size == BufferSize(c.src) == BufferSize(c.dst)
    ensures forall d | IsDebugDevice(d) :: exists k :: 0 <= k < |CopyTrace()| && CopyTrace()[k].src == d
    ensures forall i, j | 0 <= i < j < |CopyTrace()| :: CopyTrace()[i].src != CopyTrace()[j].src
    ensures [CopyTrace()[0].size, CopyTrace()[1].size, CopyTrace()[2].size] == [16, 8192, 8192]
  {
    forall d | IsDebugDevice(d) ensures exists k :: 0 <= k < |CopyTrace()| && CopyTrace()[k].src == d {
      var k := if d == GenericDebug then 0 else if d == DebugArray1 then 1 else 2;
      assert CopyTrace()[k].src == d;
    }
  }

  /** A debug buffer and its shadow have the size they were created with. */
  predicate PairSized(gpu: Gpu, d: BufferId)
    requires gpu.Named() && IsDebugDevice(d)
  {
    gpu.mem[d].Length == gpu.mem[ShadowOf(d)].Length == BufferWords(d)
  }

  /**
    `update_cpu_read_buffers`: records the three copies and submits them. Afterwards
    each shadow holds exactly what its debug buffer holds, and the debug buffers
    are unchanged; nothing else is written.
   */
  method UpdateCpuReadBuffers(gpu: Gpu)
    requires gpu.Valid()
    requires PairSized(gpu, GenericDebug) && PairSized(gpu, DebugArray1) && PairSized(gpu, DebugArray2)
    modifies gpu`trace, gpu.mem[CpuReadGenericDebug], gpu.mem[CpuReadDebugArray1], gpu.mem[CpuReadDebugArray2]
    ensures forall s | IsShadow(s) :: gpu.mem[s][..] == gpu.mem[DeviceOf(s)][..]
    ensures forall d | IsDebugDevice(d) :: gpu.mem[d][..] == old(gpu.mem[d][..])
    ensures gpu.trace == old(gpu.trace) + CopyTrace() + [Submit]
  {
    ghost var g, a1, a2 := gpu.mem[GenericDebug][..], gpu.mem[DebugArray1][..], gpu.mem[DebugArray2][..];
    CopyShadow(gpu, GenericDebug);
    CopyShadow(gpu, DebugArray1);
    CopyShadow(gpu, DebugArray2);
    assert gpu.mem[CpuReadGenericDebug][..] == g && gpu.mem[CpuReadDebugArray1][..] == a1;
    gpu.Record(Submit);
    assert old(gpu.trace) + CopyTrace() + [Submit]
      == old(gpu.trace) + [CopyEffect(GenericDebug)] + [CopyEffect(DebugArray1)] + [CopyEffect(DebugArray2)] + [Submit];
  }

  /** One whole-buffer copy of a debug buffer into its shadow. */
  method CopyShadow(gpu: Gpu, d: BufferId)
    requires gpu.Valid() && IsDebugDevice(d) && PairSized(gpu, d)
    modifies gpu`trace, gpu.mem[ShadowOf(d)]
    ensures gpu.mem[ShadowOf(d)][..] == gpu.mem[d][..] == old(gpu.mem[d][..])
    ensures gpu.trace == old(gpu.trace) + [CopyEffect(d)]
  {
    ShadowSizes();
    var s := ShadowOf(d);
    assert s != d && IsShadow(s);
    WriteAtWhole(gpu.mem[s][..], gpu.mem[d][..]);
    assert gpu.mem[d][0 .. BufferSize(d) / WORD_BYTES] == gpu.mem[d][..];
    gpu.CopyBufferToBuffer(d, 0, s, 0, BufferSize(d));
  }
}
