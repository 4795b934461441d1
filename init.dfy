/**
  Startup construction (src/init/init_functions.rs): the initial parameter values,
  the size, usage and initial contents of every buffer, the bind-group layouts and
  bind groups, and the pipeline layouts, all as immutable data.
 */
module Init {
  import opened Structs
  import opened Vertices
  import opened Device

  // ---------------------------------------------------------------------------
  // init_params
  // ---------------------------------------------------------------------------

  function InitParams(): Params {
    Params(
      RayParams(0.01, 1500.0, 2500.0),
      ViewParams(0.0, 0.0, 1.0, 0.0, 0.0, 1.0, 90.0),
      TerrainParams(7, 7, 7))
  }

  // ---------------------------------------------------------------------------
  // init_buffers
  // ---------------------------------------------------------------------------

  datatype Usage = VertexUsage | UniformUsage | StorageUsage | CopySrc | CopyDst | MapReadUsage

  /** The byte size each buffer is created with. */
  function BufferSize(id: BufferId): nat {
    match id
    case VertexBuffer => VERTEX_SIZE * |VERTICES|
    case TimeUniformBuffer => WORD_BYTES
    case RayParamsBuffer => 3 * WORD_BYTES
    case ViewParamsBuffer => 7 * WORD_BYTES
    case GenericDebug => WORD_BYTES * DEBUG_RECORD_WORDS
    case CpuReadGenericDebug => WORD_BYTES * DEBUG_RECORD_WORDS
    case DebugArray1 => WORD_BYTES * DEBUG_ARRAY_WORDS
    case CpuReadDebugArray1 => WORD_BYTES * DEBUG_ARRAY_WORDS
    case DebugArray2 => WORD_BYTES * DEBUG_ARRAY_WORDS
    case CpuReadDebugArray2 => WORD_BYTES * DEBUG_ARRAY_WORDS
  }

  function BufferWords(id: BufferId): nat {
    BufferSize(id) / WORD_BYTES
  }

  function BufferUsages(id: BufferId): set<Usage> {
    match id
    case VertexBuffer => {VertexUsage}
    case TimeUniformBuffer => {UniformUsage, CopyDst}
    case RayParamsBuffer => {StorageUsage, CopyDst}
    case ViewParamsBuffer => {StorageUsage, CopyDst}
    case GenericDebug => {StorageUsage, CopySrc, CopyDst}
    case DebugArray1 => {StorageUsage, CopySrc, CopyDst}
    case DebugArray2 => {StorageUsage, CopySrc, CopyDst}
    case CpuReadGenericDebug => {CopyDst, MapReadUsage}
    case CpuReadDebugArray1 => {CopyDst, MapReadUsage}
    case CpuReadDebugArray2 => {CopyDst, MapReadUsage}
  }

  /**
    Initial contents: the vertex and parameter buffers are created from data (the
    parameter fields listed one by one), every other buffer zero-filled.
   */
  function InitialContents(p: Params): (c: map<BufferId, seq<Word>>)
    ensures forall id: BufferId :: id in c && WORD_BYTES * |c[id]| == BufferSize(id) && |c[id]| == BufferWords(id)
  {
    map id: BufferId :: InitialBufferContents(p, id)
  }

  function InitialBufferContents(p: Params, id: BufferId): seq<Word> {
    var ray := p.rayParams;
    var view := p.viewParams;
    match id
    case VertexBuffer => VerticesAsBytes(VERTICES)
    case RayParamsBuffer => [F32(ray.epsilon), F32(ray.maxDist), F32(ray.maxSteps)]
    case ViewParamsBuffer =>
      [F32(view.xShift), F32(view.yShift), F32(view.zoom), F32(view.xRot), F32(view.yRot),
       F32(view.timeModifier), F32(view.fovDegrees)]
    case _ => Zeros(BufferWords(id))
  }

  /** The field-by-field initial data of the parameter buffers is the records' own layout. */
  lemma InitialParamBuffersInDeclarationOrder(p: Params)
    ensures InitialContents(p)[RayParamsBuffer] == RayWords(p.rayParams)
    ensures InitialContents(p)[ViewParamsBuffer] == ViewWords(p.viewParams)
    ensures BufferSize(RayParamsBuffer) == WORD_BYTES * |RayWords(p.rayParams)|
    ensures BufferSize(ViewParamsBuffer) == WORD_BYTES * |ViewWords(p.viewParams)|
    ensures BufferSize(TimeUniformBuffer) == WORD_BYTES * |TimeWords(TimeUniform(0.0))|
  {
  }

  /** Each debug buffer and its CPU-readable shadow have equal sizes: 16, 8192 and 8192 bytes. */
  lemma ShadowSizes()
    ensures forall d :: IsDebugDevice(d) ==> BufferSize(ShadowOf(d)) == BufferSize(d)
    ensures BufferSize(CpuReadGenericDebug) == 16
    ensures BufferSize(CpuReadDebugArray1) == 8192 && BufferSize(CpuReadDebugArray2) == 8192
  {
  }

  /**
    The usages agree with how the buffers are used: every debug buffer can be copied
    from, every shadow copied into and mapped for reading, and the buffers written
    from the host accept copies in.
   */
  lemma UsagesFitUse()
    ensures forall d :: IsDebugDevice(d) ==> CopySrc in BufferUsages(d)
    ensures forall s :: IsShadow(s) ==> CopyDst in BufferUsages(s) && MapReadUsage in BufferUsages(s)
    ensures forall s :: MapReadUsage in BufferUsages(s) ==> IsShadow(s)
    ensures CopyDst in BufferUsages(TimeUniformBuffer) && CopyDst in BufferUsages(ViewParamsBuffer)
    ensures CopyDst in BufferUsages(RayParamsBuffer)
  {
  }

  // ---------------------------------------------------------------------------
  // init_bind_groups
  // ---------------------------------------------------------------------------

  datatype Stage = FragmentStage | ComputeStage

  datatype BindingType =
    | UniformBuffer(minBindingSize: nat)
    | StorageBuffer(readOnly: bool, minBindingSize: nat)
    | StorageTexture(readWrite: bool, format: TextureFormat)
    | SampledTexture(filterable: bool)
    | FilteringSampler

  datatype LayoutEntry = LayoutEntry(binding: nat, visibility: set<Stage>, ty: BindingType)

  datatype Resource = WholeBuffer(id: BufferId) | TerrainView | TerrainSampler

  datatype GroupEntry = GroupEntry(binding: nat, resource: Resource)

  datatype BindGroupDesc = BindGroupDesc(layout: LayoutId, entries: seq<GroupEntry>)

  function StorageEntry(binding: nat, minSize: nat): LayoutEntry {
    LayoutEntry(binding, {ComputeStage, FragmentStage}, StorageBuffer(false, minSize))
  }

  function LayoutEntries(l: LayoutId): seq<LayoutEntry> {
    match l
    case UniformBgl =>
      [LayoutEntry(0, {FragmentStage, ComputeStage}, UniformBuffer(WORD_BYTES * |TimeWords(TimeUniform(0.0))|))]
    case FragBgl =>
      [StorageEntry(0, WORD_BYTES * |RayWords(RayParams(0.0, 0.0, 0.0))|),
       StorageEntry(1, WORD_BYTES * |ViewWords(ViewParams(0.0, 0.0, 0.0, 0.0, 0.0, 0.0, 0.0))|),
       StorageEntry(7, WORD_BYTES * DEBUG_ARRAY_WORDS),
       StorageEntry(8, WORD_BYTES * DEBUG_ARRAY_WORDS),
       StorageEntry(9, WORD_BYTES * DEBUG_RECORD_WORDS)]
    case ComputeBgl =>
      [StorageEntry(7, WORD_BYTES * DEBUG_ARRAY_WORDS),
       StorageEntry(8, WORD_BYTES * DEBUG_ARRAY_WORDS),
       StorageEntry(9, WORD_BYTES * DEBUG_RECORD_WORDS)]
    case TextureBgl =>
      [LayoutEntry(0, {ComputeStage}, StorageTexture(true, Rgba32Float))]
    case SampledTextureBgl =>
      [LayoutEntry(0, {FragmentStage}, SampledTexture(true)),
       LayoutEntry(1, {FragmentStage}, FilteringSampler)]
  }

  function BindGroupDescOf(g: BindGroupId): BindGroupDesc {
    match g
    case UniformBg => BindGroupDesc(UniformBgl, [GroupEntry(0, WholeBuffer(TimeUniformBuffer))])
    case FragBg => BindGroupDesc(FragBgl,
      [GroupEntry(0, WholeBuffer(RayParamsBuffer)),
       GroupEntry(1, WholeBuffer(ViewParamsBuffer)),
       GroupEntry(7, WholeBuffer(DebugArray1)),
       GroupEntry(8, WholeBuffer(DebugArray2)),
       GroupEntry(9, WholeBuffer(GenericDebug))])
    case ComputeBg => BindGroupDesc(ComputeBgl,
      [GroupEntry(7, WholeBuffer(DebugArray1)),
       GroupEntry(8, WholeBuffer(DebugArray2)),
       GroupEntry(9, WholeBuffer(GenericDebug))])
    case TextureBg => BindGroupDesc(TextureBgl, [GroupEntry(0, TerrainView)])
    case SampledTextureBg => BindGroupDesc(SampledTextureBgl,
      [GroupEntry(0, TerrainView), GroupEntry(1, TerrainSampler)])
  }

  /** The slots a layout declares. */
  function LayoutBindings(es: seq<LayoutEntry>): set<nat> {
    if es == [] then {} else {es[0].binding} + LayoutBindings(es[1..])
  }

  /** The slots a bind group binds. */
  function GroupBindings(es: seq<GroupEntry>): set<nat> {
    if es == [] then {} else {es[0].binding} + GroupBindings(es[1..])
  }

  /** A resource can be bound where a layout entry of this type sits. */
  predicate Fits(t: BindingType, r: Resource) {
    match t
    case UniformBuffer(min) => r.WholeBuffer? && UniformUsage in BufferUsages(r.id) && BufferSize(r.id) >= min
    case StorageBuffer(_, min) => r.WholeBuffer? && StorageUsage in BufferUsages(r.id) && BufferSize(r.id) >= min
    case StorageTexture(_, _) => r == TerrainView
    case SampledTexture(_) => r == TerrainView
    case FilteringSampler => r == TerrainSampler
  }

  /**
    A bind group matches its layout: entry k of the group binds entry k's slot of
    the layout with a resource that fits it, there are as many entries as layout
    entries, and no slot is declared twice. So the group binds exactly the slots
    the layout declares.
   */
  predicate GroupMatchesLayout(g: BindGroupId) {
    var d := BindGroupDescOf(g);
    var ls := LayoutEntries(d.layout);
    && |d.entries| == |ls|
    && (forall k :: 0 <= k < |ls| ==> d.entries[k].binding == ls[k].binding && Fits(ls[k].ty, d.entries[k].resource))
    && (forall i, j :: 0 <= i < j < |ls| ==> ls[i].binding != ls[j].binding)
  }

  /** Matching entry for entry, a group binds exactly its layout's slots. */
  lemma {:induction false} MatchedBindingsAgree(es: seq<GroupEntry>, ls: seq<LayoutEntry>)
    requires |es| == |ls| && forall k :: 0 <= k < |ls| ==> es[k].binding == ls[k].binding
    ensures GroupBindings(es) == LayoutBindings(ls)
  {
    if es != [] {
      MatchedBindingsAgree(es[1..], ls[1..]);
    }
  }

  /** Entry-by-entry match of one group with its layout. */
  lemma GroupEntriesFit(g: BindGroupId)
    ensures GroupMatchesLayout(g)
  {
    match g {
      case FragBg => FragEntriesFit();
      case ComputeBg => ComputeEntriesFit();
      case UniformBg =>
        var d, ls := BindGroupDescOf(g), LayoutEntries(UniformBgl);
        assert Fits(ls[0].ty, d.entries[0].resource);
      case TextureBg =>
      case SampledTextureBg =>
    }
  }

  lemma FragEntriesFit()
    ensures GroupMatchesLayout(FragBg)
  {
    var d, ls := BindGroupDescOf(FragBg), LayoutEntries(FragBgl);
    assert Fits(ls[0].ty, d.entries[0].resource);
    assert Fits(ls[1].ty, d.entries[1].resource);
    assert Fits(ls[2].ty, d.entries[2].resource);
    assert Fits(ls[3].ty, d.entries[3].resource);
    assert Fits(ls[4].ty, d.entries[4].resource);
  }

  lemma ComputeEntriesFit()
    ensures GroupMatchesLayout(ComputeBg)
  {
    var d, ls := BindGroupDescOf(ComputeBg), LayoutEntries(ComputeBgl);
    assert Fits(ls[0].ty, d.entries[0].resource);
    assert Fits(ls[1].ty, d.entries[1].resource);
    assert Fits(ls[2].ty, d.entries[2].resource);
  }

  lemma AllBindGroupsMatchLayouts(g: BindGroupId)
    ensures GroupMatchesLayout(g)
    ensures GroupBindings(BindGroupDescOf(g).entries) == LayoutBindings(LayoutEntries(BindGroupDescOf(g).layout))
  {
    GroupEntriesFit(g);
    MatchedBindingsAgree(BindGroupDescOf(g).entries, LayoutEntries(BindGroupDescOf(g).layout));
  }

  /**
    The fragment-storage group uses exactly the slots 0, 1, 7, 8, 9 and the compute
    group exactly 7, 8, 9, binding the same debug buffers at the same slots; the
    time buffer is exactly as large as the uniform slot's minimum.
   */
  lemma SlotSchema()
    ensures LayoutBindings(LayoutEntries(FragBgl)) == {0, 1, 7, 8, 9}
    ensures GroupBindings(BindGroupDescOf(FragBg).entries) == {0, 1, 7, 8, 9}
    ensures LayoutBindings(LayoutEntries(ComputeBgl)) == {7, 8, 9}
    ensures GroupBindings(BindGroupDescOf(ComputeBg).entries) == {7, 8, 9}
    ensures forall k :: 0 <= k < 3 ==>
      BindGroupDescOf(ComputeBg).entries[k] == BindGroupDescOf(FragBg).entries[k + 2]
    ensures LayoutEntries(UniformBgl)[0].ty.minBindingSize == BufferSize(TimeUniformBuffer) == 4
  {
    AllBindGroupsMatchLayouts(FragBg);
    AllBindGroupsMatchLayouts(ComputeBg);
  }

  // ---------------------------------------------------------------------------
  // init_pipelines
  // ---------------------------------------------------------------------------

  /** The bind-group layouts of a pipeline, by group index. */
  function PipelineLayout(p: PipelineId): seq<LayoutId> {
    match p
    case RenderPipeline => [UniformBgl, FragBgl, SampledTextureBgl]
    case GenerateTerrainPipeline => [UniformBgl, ComputeBgl, TextureBgl]
  }

  /** The render pipeline reads the fragment-storage group, the compute pipeline the debug-only one. */
  lemma PipelineLayoutOrder()
    ensures PipelineLayout(RenderPipeline) == [BindGroupDescOf(UniformBg).layout,
      BindGroupDescOf(FragBg).layout, BindGroupDescOf(SampledTextureBg).layout]
    ensures PipelineLayout(GenerateTerrainPipeline) == [BindGroupDescOf(UniformBg).layout,
      BindGroupDescOf(ComputeBg).layout, BindGroupDescOf(TextureBg).layout]
  {
  }

  datatype VertexFormat = Float32x2

  datatype VertexAttribute = VertexAttribute(location: nat, format: VertexFormat, offset: nat)

  datatype VertexBufferLayout = VertexBufferLayout(arrayStride: nat, attributes: seq<VertexAttribute>)

  /** `array_stride: 8` and `vertex_attr_array![0 => Float32x2, 1 => Float32x2]`, whose offsets are 0 and 8. */
  const VERTEX_BUFFER_LAYOUT: VertexBufferLayout :=
    VertexBufferLayout(8, [VertexAttribute(0, Float32x2, 0), VertexAttribute(1, Float32x2, 8)])

  /** Bytes of one attribute of this format. */
  function FormatSize(f: VertexFormat): nat {
    match f
    case Float32x2 => 2 * WORD_BYTES
  }

  /**
    The vertex stride is the size of a `Vertex`, so the buffer holds exactly the
    quad's vertices, and attribute 0 covers the whole vertex. Attribute 1 starts
    where the next vertex starts: it lies entirely outside the stride.
   */
  lemma VertexStride()
    ensures VERTEX_BUFFER_LAYOUT.arrayStride == VERTEX_SIZE
    ensures BufferSize(VertexBuffer) == VERTEX_BUFFER_LAYOUT.arrayStride * |VERTICES|
    ensures BufferSize(VertexBuffer) == WORD_BYTES * |VerticesAsBytes(VERTICES)|
    ensures var a := VERTEX_BUFFER_LAYOUT.attributes[0];
      a.offset == 0 && a.offset + FormatSize(a.format) == VERTEX_BUFFER_LAYOUT.arrayStride
    ensures var a := VERTEX_BUFFER_LAYOUT.attributes[1];
      a.offset >= VERTEX_BUFFER_LAYOUT.arrayStride && a.offset + FormatSize(a.format) > VERTEX_BUFFER_LAYOUT.arrayStride
  {
  }
}
