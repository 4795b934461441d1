/**
  The part of wgpu and winit the application talks to, reduced to what its code
  depends on: buffers as fixed-size word arrays named by `BufferId`, each buffer's
  mapping state and live mapped views, the surface configuration, and one ordered
  trace of the effects the program causes (queue writes, copies, submissions,
  render-pass commands, surface configuration, and the lines it prints).
  Every handle is an opaque name; the device, queue and surface objects themselves
  are not modelled.
 */
module Device {
  import opened Structs

  /**
    What the device reports to a `map_async` callback once the mapping completes.
    The readbacks in this model branch on it, reading on success and printing the
    error line on failure, as they are evidently meant to; as written they send it
    through a channel and branch only on whether it arrived (`Controls.Received`).
   */
  datatype MapOutcome = MapOk | MapErr

  datatype SurfaceError = Lost | Outdated | Timeout | OutOfMemory

  datatype TextureFormat =
    | Bgra8Unorm | Bgra8UnormSrgb | Rgba8Unorm | Rgba8UnormSrgb | Rgba16Float | Rgba32Float
    | OtherFormat(code: nat, srgb: bool)
  {
    predicate IsSrgb() {
      match this
      case Bgra8UnormSrgb => true
      case Rgba8UnormSrgb => true
      case OtherFormat(_, srgb) => srgb
      case _ => false
    }
  }

  /** `winit::dpi::PhysicalSize<u32>`. */
  datatype PhysicalSize = PhysicalSize(width: u32, height: u32)

  /** The parts of `wgpu::SurfaceConfiguration` the program changes or chooses. */
  datatype SurfaceConfiguration = SurfaceConfiguration(format: TextureFormat, width: u32, height: u32)

  /** A line of diagnostic output, abstracted from its text. */
  datatype Line =
    | BufferSizeLine(bytes: nat)
    | RecordLine(objLabel: string, index: nat, record: seq<Word>)
    | PairLine(index: nat, first: seq<Word>, second: seq<Word>)
    | MapErrorLine(buffer: nat)
    | ParamsDump(params: Params)
    | TerrainStubLine
    | FocusLostLine
    | SurfaceErrorLine(error: SurfaceError)

  datatype Effect =
    | Write(id: BufferId, offset: nat, words: seq<Word>)
    | Copy(src: BufferId, srcOffset: nat, dst: BufferId, dstOffset: nat, size: nat)
    | Submit
    | Configure(config: SurfaceConfiguration)
    | BeginRenderPass
    | SetPipeline(pipeline: PipelineId)
    | SetBindGroup(slot: nat, group: BindGroupId)
    | SetVertexBuffer(slot: nat, buffer: BufferId)
    | Draw(firstVertex: nat, endVertex: nat, firstInstance: nat, endInstance: nat)
    | Present
    | Output(line: Line)

  /** `buf` with `data` written over it from word `offset` on. */
  function WriteAt(buf: seq<Word>, offset: nat, data: seq<Word>): (r: seq<Word>)
    requires offset + |data| <= |buf|
    ensures |r| == |buf|
  {
    buf[..offset] + data + buf[offset + |data|..]
  }

  /** Reading back the written range gives exactly the written words; the rest is untouched. */
  lemma WriteAtReadBack(buf: seq<Word>, offset: nat, data: seq<Word>)
    requires offset + |data| <= |buf|
    ensures WriteAt(buf, offset, data)[offset..offset + |data|] == data
    ensures forall i :: 0 <= i < |buf| && !(offset <= i < offset + |data|) ==> WriteAt(buf, offset, data)[i] == buf[i]
  {
    var r := WriteAt(buf, offset, data);
    assert r[offset..offset + |data|] == data by {
      forall k | 0 <= k < |data| ensures r[offset + k] == data[k] {
        assert r == (buf[..offset] + data) + buf[offset + |data|..];
      }
    }
  }

  /** Writing the same words twice leaves what writing them once leaves. */
  lemma WriteAtIdempotent(buf: seq<Word>, offset: nat, data: seq<Word>)
    requires offset + |data| <= |buf|
    ensures WriteAt(WriteAt(buf, offset, data), offset, data) == WriteAt(buf, offset, data)
  {
    var once := WriteAt(buf, offset, data);
    WriteAtReadBack(buf, offset, data);
    WriteAtReadBack(once, offset, data);
    var twice := WriteAt(once, offset, data);
    forall i | 0 <= i < |buf| ensures twice[i] == once[i] {
      if offset <= i < offset + |data| {
        assert twice[offset..offset + |data|][i - offset] == once[offset..offset + |data|][i - offset];
      }
    }
  }

  /** A write that covers the whole buffer leaves only the written words. */
  lemma WriteAtWhole(buf: seq<Word>, data: seq<Word>)
    requires |data| == |buf|
    ensures WriteAt(buf, 0, data) == data
  {
    assert buf[..0] == [] && buf[|data|..] == [];
  }

  class Gpu {
    /** Device memory of every buffer. */
    const mem: map<BufferId, array<Word>>
    /** Which buffer each array is; it makes the buffers pairwise distinct. */
    ghost const nameOf: map<array<Word>, BufferId>
    /** The buffers currently mapped for reading; every other buffer is unmapped. */
    var mapped: set<BufferId>
    /** Buffers with a mapped-range view that has not been dropped yet. */
    var liveViews: set<BufferId>
    var trace: seq<Effect>

    /** Every buffer exists, as its own array. */
    ghost predicate Named() {
      forall id: BufferId :: id in mem && mem[id] in nameOf && nameOf[mem[id]] == id
    }

    /** Only a mapped buffer can have a live view. */
    ghost predicate Valid()
      reads this`mapped, this`liveViews
    {
      Named() && liveViews <= mapped
    }

    /** The contents of every buffer. */
    ghost function Contents(): (c: map<BufferId, seq<Word>>)
      reads mem.Values
      ensures forall id | id in mem :: id in c && c[id] == mem[id][..]
    {
      map id | id in mem :: mem[id][..]
    }

    /** Creates every buffer with its initial contents, all unmapped. */
    constructor (contents: map<BufferId, seq<Word>>)
      requires forall id: BufferId :: id in contents
      ensures Valid()
      ensures forall id: BufferId :: fresh(mem[id]) && mem[id][..] == contents[id]
      ensures mapped == {}
      ensures liveViews == {} && trace == []
    {
      var m: map<BufferId, array<Word>> := map[];
      ghost var names: map<array<Word>, BufferId> := map[];
      for k := 0 to |ALL_BUFFERS|
        invariant forall j | 0 <= j < k :: ALL_BUFFERS[j] in m
        invariant forall id | id in m :: fresh(m[id]) && m[id][..] == contents[id]
        invariant forall id | id in m :: m[id] in names && names[m[id]] == id
      {
        var c := contents[ALL_BUFFERS[k]];
        var a := new Word[|c|](i requires 0 <= i < |c| => c[i]);
        m := m[ALL_BUFFERS[k] := a];
        names := names[a := ALL_BUFFERS[k]];
      }
      forall id: BufferId ensures id in m {
        AllBuffersListed(id);
      }
      mem := m;
      nameOf := names;
      mapped := {};
      liveViews := {};
      trace := [];
    }

    /** `queue.write_buffer(buffer, offset, data)`, with offset and length in words. */
    method WriteBuffer(id: BufferId, offset: nat, data: seq<Word>)
      requires Valid() && offset + |data| <= mem[id].Length
      modifies this`trace, mem[id]
      ensures mem[id][..] == WriteAt(old(mem[id][..]), offset, data)
      ensures trace == old(trace) + [Write(id, offset, data)]
    {
      var a := mem[id];
      assert nameOf[a] == id;
      forall i | offset <= i < offset + |data| {
        a[i] := data[i - offset];
      }
      assert a[..] == WriteAt(old(a[..]), offset, data);
      trace := trace + [Write(id, offset, data)];
    }

    /**
      `encoder.copy_buffer_to_buffer(src, srcOffset, dst, dstOffset, size)` with byte
      offsets and size; wgpu demands 4-byte alignment, distinct buffers and in-bounds ranges.
     */
    method CopyBufferToBuffer(src: BufferId, srcOffset: nat, dst: BufferId, dstOffset: nat, size: nat)
      requires Valid() && src != dst
      requires srcOffset % WORD_BYTES == 0 && dstOffset % WORD_BYTES == 0 && size % WORD_BYTES == 0
      requires srcOffset + size <= WORD_BYTES * mem[src].Length
      requires dstOffset + size <= WORD_BYTES * mem[dst].Length
      modifies this`trace, mem[dst]
      ensures mem[dst][..] == WriteAt(old(mem[dst][..]), dstOffset / WORD_BYTES,
                                      old(mem[src][srcOffset / WORD_BYTES .. (srcOffset + size) / WORD_BYTES]))
      ensures trace == old(trace) + [Copy(src, srcOffset, dst, dstOffset, size)]
    {
      var s, d, n := srcOffset / WORD_BYTES, dstOffset / WORD_BYTES, size / WORD_BYTES;
      var from, to := mem[src], mem[dst];
      assert from != to by { assert nameOf[from] == src && nameOf[to] == dst; }
      assert (srcOffset + size) / WORD_BYTES == s + n;
      ghost var copied := from[s..s + n];
      forall i | d <= i < d + n {
        to[i] := from[s + i - d];
      }
      assert to[..] == WriteAt(old(to[..]), d, copied);
      trace := trace + [Copy(src, srcOffset, dst, dstOffset, size)];
    }

    /**
      `map_async(Read)` followed by `device.poll(Wait)` and waiting for the callback:
      the mapping succeeds only when the device reports success and the buffer is
      not already mapped. For a buffer that is already mapped, wgpu raises a
      validation error on the `map_async` call itself; the model instead makes this
      second mapping fail (see the "Left out" line on
      `AppState.StuckShadowBlocksLaterReadbacks`).
     */
    method MapRead(id: BufferId, outcome: MapOutcome) returns (r: MapOutcome)
      requires Valid()
      modifies this`mapped
      ensures Valid()
      ensures r == (if outcome == MapOk && id !in old(mapped) then MapOk else MapErr)
      ensures mapped == if r == MapOk then old(mapped) + {id} else old(mapped)
    {
      if outcome == MapOk && id !in mapped {
        mapped := mapped + {id};
        r := MapOk;
      } else {
        r := MapErr;
      }
    }

    /** `slice.get_mapped_range()`: a read-only view of the whole mapped buffer. */
    method GetMappedRange(id: BufferId) returns (view: seq<Word>)
      requires Valid() && id in mapped
      modifies this`liveViews
      ensures Valid()
      ensures view == mem[id][..]
      ensures liveViews == old(liveViews) + {id}
    {
      view := mem[id][..];
      liveViews := liveViews + {id};
    }

    /** `drop(view)`. */
    method DropView(id: BufferId)
      requires Valid()
      modifies this`liveViews
      ensures Valid()
      ensures liveViews == old(liveViews) - {id}
    {
      liveViews := liveViews - {id};
    }

    /** `buffer.unmap()`: wgpu refuses while a mapped view of the buffer is alive. */
    method Unmap(id: BufferId)
      requires Valid() && id !in liveViews
      modifies this`mapped
      ensures Valid()
      ensures mapped == old(mapped) - {id}
    {
      mapped := mapped - {id};
    }

    /**
      What the shaders of a submitted pass leave in a storage-bound buffer: its
      whole contents replaced, at the same size. No queue command is recorded.
     */
    method StoreFromShader(id: BufferId, data: seq<Word>)
      requires Valid() && |data| == mem[id].Length
      modifies mem[id]
      ensures mem[id][..] == data
    {
      var a := mem[id];
      forall i | 0 <= i < a.Length {
        a[i] := data[i];
      }
    }

    /** Appends one effect (a command, a submission or a printed line) to the trace. */
    method Record(e: Effect)
      modifies this`trace
      ensures trace == old(trace) + [e]
    {
      trace := trace + [e];
    }
  }
}
